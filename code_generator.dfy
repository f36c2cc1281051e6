/// The signature printer and its helpers (src/CodeGenerator.cc): the
/// ", "-joiners over parameter lists, the method eligibility filter, the
/// prefix ("forwarding") and suffix ("trailing") printers, and the
/// elaborated-type-name cleaner.
///
/// The source builds each string by successive appends; those routines are
/// methods here, each proved equal to a specification function, and the
/// properties the generator relies on are lemmas about those functions.
module CodeGenerator {

  import opened Wrappers
  import opened Reflection
  import opened Text
  import opened Bitmask
  import F = ForwardingOptions
  import T = TrailingOptions

  const STRUCT_PREFIX: string := "struct "
  const RECORD_PREFIX: string := "record "
  const SEPARATOR_WHITESPACE: string := " "
  const SEPARATOR_COMMA_AND_WHITESPACE: string := ", "

  // ---------------------------------------------------------------------
  // Joiners

  function TemplateNames(params: seq<TemplateParamInfo>): seq<string>
  {
    seq(|params|, i requires 0 <= i < |params| => params[i].tplDeclName)
  }

  function ParamDecls(params: seq<MethodParamInfo>): seq<string>
  {
    seq(|params|, i requires 0 <= i < |params| => params[i].fullDecl)
  }

  /// A parameter is handed on with std::move when its type can be moved
  /// from or is an rvalue reference.
  predicate IsMovedOn(p: MethodParamInfo)
  {
    p.paramType.canBeMoved || p.paramType.isRVReference
  }

  function ForwardedName(p: MethodParamInfo): string
  {
    if IsMovedOn(p) then "std::move(" + p.name + ")" else p.name
  }

  /// The i-th forwarded argument is the i-th parameter's bare name, or that
  /// name inside std::move(...) exactly when the parameter is moved on.
  function ForwardedNames(params: seq<MethodParamInfo>): (names: seq<string>)
    ensures |names| == |params|
    ensures forall i :: 0 <= i < |params| ==>
              names[i] == (if IsMovedOn(params[i]) then "std::move(" + params[i].name + ")" else params[i].name)
  {
    seq(|params|, i requires 0 <= i < |params| => ForwardedName(params[i]))
  }

  /// expandTemplateNames: the template parameters' names, in order,
  /// separated by ", ".
  method ExpandTemplateNames(params: seq<TemplateParamInfo>) returns (out: string)
    ensures out == Join(TemplateNames(params), SEPARATOR_COMMA_AND_WHITESPACE)
  {
    ghost var names := TemplateNames(params);
    out := "";
    var paramIter := 0;
    while paramIter < |params|
      invariant 0 <= paramIter <= |params|
      invariant out == Join(names[..paramIter], SEPARATOR_COMMA_AND_WHITESPACE)
                       + (if 0 < paramIter < |params| then SEPARATOR_COMMA_AND_WHITESPACE else "")
    {
      out := out + params[paramIter].tplDeclName;
      assert names[..paramIter + 1][..paramIter] == names[..paramIter];
      paramIter := paramIter + 1;
      if paramIter != |params| {
        out := out + SEPARATOR_COMMA_AND_WHITESPACE;
      }
    }
    assert names[..paramIter] == names;
  }

  /// methodParamDecls: the parameters' declarations, in order, separated
  /// by ", ".
  method MethodParamDecls(params: seq<MethodParamInfo>) returns (out: string)
    ensures out == Join(ParamDecls(params), SEPARATOR_COMMA_AND_WHITESPACE)
  {
    ghost var decls := ParamDecls(params);
    out := "";
    var paramIter := 0;
    while paramIter < |params|
      invariant 0 <= paramIter <= |params|
      invariant out == Join(decls[..paramIter], SEPARATOR_COMMA_AND_WHITESPACE)
                       + (if 0 < paramIter < |params| then SEPARATOR_COMMA_AND_WHITESPACE else "")
    {
      out := out + params[paramIter].fullDecl;
      assert decls[..paramIter + 1][..paramIter] == decls[..paramIter];
      paramIter := paramIter + 1;
      if paramIter != |params| {
        out := out + SEPARATOR_COMMA_AND_WHITESPACE;
      }
    }
    assert decls[..paramIter] == decls;
  }

  /// forwardMethodParamNames: the parameters' names, in order, separated
  /// by ", ", each wrapped in std::move(...) exactly when it is moved on.
  method ForwardMethodParamNames(params: seq<MethodParamInfo>) returns (out: string)
    ensures out == Join(ForwardedNames(params), SEPARATOR_COMMA_AND_WHITESPACE)
  {
    ghost var names := ForwardedNames(params);
    out := "";
    var paramIter := 0;
    while paramIter < |params|
      invariant 0 <= paramIter <= |params|
      invariant out == Join(names[..paramIter], SEPARATOR_COMMA_AND_WHITESPACE)
                       + (if 0 < paramIter < |params| then SEPARATOR_COMMA_AND_WHITESPACE else "")
    {
      var param := params[paramIter];
      ghost var before := out;
      if param.paramType.canBeMoved || param.paramType.isRVReference {
        out := out + "std::move(";
      }
      out := out + param.name;
      if param.paramType.canBeMoved || param.paramType.isRVReference {
        out := out + ")";
      }
      assert out == before + ForwardedName(param);
      assert names[..paramIter + 1][..paramIter] == names[..paramIter];
      paramIter := paramIter + 1;
      if paramIter != |params| {
        out := out + SEPARATOR_COMMA_AND_WHITESPACE;
      }
    }
    assert names[..paramIter] == names;
  }

  /// The forwarded arguments are joined by ", " with nothing before the
  /// first or after the last.
  lemma ForwardedArgumentsShape(params: seq<MethodParamInfo>)
    requires params != []
    ensures StartsWith(Join(ForwardedNames(params), SEPARATOR_COMMA_AND_WHITESPACE), ForwardedNames(params)[0])
    ensures EndsWith(Join(ForwardedNames(params), SEPARATOR_COMMA_AND_WHITESPACE), ForwardedNames(params)[|params| - 1])
  {
    JoinEnds(ForwardedNames(params), SEPARATOR_COMMA_AND_WHITESPACE);
  }

  // ---------------------------------------------------------------------
  // Eligibility

  /// isPimplMethod: only ordinary member functions get forwarders.
  predicate IsPimplMethod(m: MethodInfo): (eligible: bool)
    ensures eligible <==> !(m.isImplicit || m.isOperator || m.isCtor || m.isDtor)
  {
    !m.isImplicit && !m.isOperator && !m.isCtor && !m.isDtor
  }

  /// An eligible method is neither a constructor nor a destructor, so the
  /// forwarding printer may always be asked for its return type, and a
  /// well-formed implicit, operator, constructor or destructor method is
  /// never eligible.
  lemma EligibleMethodsAdmitReturnType(m: MethodInfo, options: bv32)
    ensures IsPimplMethod(m) ==> ForwardingAllowed(m, options)
    ensures m.isImplicit || m.isOperator || m.isCtor || m.isDtor ==> !IsPimplMethod(m)
  {
  }

  // ---------------------------------------------------------------------
  // Forwarding and trailing printers

  /// The words the two printers can emit.
  datatype Specifier =
    | Explicit | Virtual | Constexpr | Static | ReturnType
    | Const | NoExcept | Pure | Deleted | Default

  /// The documented orders: explicit virtual constexpr static returnType
  /// before the name; const noexcept = 0 = delete = default after it.
  const FORWARDING_ORDER: seq<Specifier> := [Explicit, Virtual, Constexpr, Static, ReturnType]
  const TRAILING_ORDER: seq<Specifier> := [Const, NoExcept, Pure, Deleted, Default]

  function Rank(s: Specifier): nat
  {
    match s
    case Explicit => 0
    case Virtual => 1
    case Constexpr => 2
    case Static => 3
    case ReturnType => 4
    case Const => 5
    case NoExcept => 6
    case Pure => 7
    case Deleted => 8
    case Default => 9
  }

  predicate Ordered(ts: seq<Specifier>)
  {
    forall i, j :: 0 <= i < j < |ts| ==> Rank(ts[i]) < Rank(ts[j])
  }

  /// The option bit that permits each word (forwarding bits for the first
  /// five, trailing bits for the rest).
  function OptionBit(s: Specifier): bv32
  {
    match s
    case Explicit => F.EXPLICIT
    case Virtual => F.VIRTUAL
    case Constexpr => F.CONSTEXPR
    case Static => F.STATIC
    case ReturnType => F.RETURN_TYPE
    case Const => T.CONST
    case NoExcept => T.NOEXCEPT
    case Pure => T.PURE
    case Deleted => T.DELETED
    case Default => T.DEFAULT
  }

  /// The method property each word reports.
  predicate MethodHas(m: MethodInfo, s: Specifier)
  {
    match s
    case Explicit => m.isExplicitCtor
    case Virtual => m.isVirtual
    case Constexpr => m.isConstexpr
    case Static => m.isStatic
    case ReturnType => m.returnType.Some?
    case Const => m.isConst
    case NoExcept => m.isNoExcept
    case Pure => m.isPure
    case Deleted => m.isDeleted
    case Default => m.isDefault
  }

  function Spelling(m: MethodInfo, s: Specifier): string
  {
    match s
    case Explicit => "explicit"
    case Virtual => "virtual"
    case Constexpr => "constexpr"
    case Static => "static"
    case ReturnType => if m.returnType.Some? then m.returnType.value.printedName else ""
    case Const => "const"
    case NoExcept => "noexcept"
    case Pure => "= 0"
    case Deleted => "= delete"
    case Default => "= default"
  }

  /// A word is printed when both the option mask and the method allow it.
  predicate Printed(m: MethodInfo, options: bv32, s: Specifier)
  {
    Has(options, OptionBit(s)) && MethodHas(m, s)
  }

  /// The words of `order` that are printed, in that order.
  function Kept(order: seq<Specifier>, m: MethodInfo, options: bv32): seq<Specifier>
  {
    if order == [] then []
    else
      var last := order[|order| - 1];
      Kept(order[..|order| - 1], m, options) + (if Printed(m, options, last) then [last] else [])
  }

  /// Each word's spelling followed by the separator.
  function Render(m: MethodInfo, ts: seq<Specifier>, sep: string): string
  {
    if ts == [] then ""
    else Render(m, ts[..|ts| - 1], sep) + Spelling(m, ts[|ts| - 1]) + sep
  }

  function ForwardingTokens(m: MethodInfo, options: bv32): seq<Specifier>
  {
    Kept(FORWARDING_ORDER, m, options)
  }

  function TrailingTokens(m: MethodInfo, options: bv32): seq<Specifier>
  {
    Kept(TRAILING_ORDER, m, options)
  }

  /// What printMethodForwarding returns.
  function ForwardingText(m: MethodInfo, sep: string, options: bv32): string
  {
    Render(m, ForwardingTokens(m, options), sep)
  }

  /// A method carries its in-class body when it is defined inline in the
  /// class.
  predicate CanHaveBody(m: MethodInfo)
  {
    m.isDefined && m.isClassScopeInlined
  }

  /// The text that follows the trailing words: the literal body, a bare
  /// ";", or nothing when BODY is not requested.
  function BodyClause(m: MethodInfo, options: bv32): string
  {
    if Has(options, T.BODY) && CanHaveBody(m) then m.body
    else if Has(options, T.BODY) then ";"
    else ""
  }

  /// What printMethodTrailing returns.
  function TrailingText(m: MethodInfo, sep: string, options: bv32): string
  {
    Render(m, TrailingTokens(m, options), sep) + BodyClause(m, options)
  }

  /// The caller's obligation for printMethodForwarding: a return type is
  /// never requested for a constructor or a destructor.
  predicate ForwardingAllowed(m: MethodInfo, options: bv32)
  {
    Has(options, F.RETURN_TYPE) ==> !m.isCtor && !m.isDtor
  }

  /// One step of either printer: the word and the separator are appended
  /// when the word is emitted, nothing otherwise.
  function Emit(printed: string, emit: bool, word: string, sep: string): string
  {
    if emit then printed + word + sep else printed
  }

  /// Rendering the kept words of a longer order is emitting its last word,
  /// when printed, after the rendering of the shorter one.
  lemma {:induction false} RenderKeptSnoc(order: seq<Specifier>, s: Specifier, m: MethodInfo, options: bv32, sep: string)
    ensures Render(m, Kept(order + [s], m, options), sep)
         == Emit(Render(m, Kept(order, m, options), sep), Printed(m, options, s), Spelling(m, s), sep)
  {
    var longer := order + [s];
    assert longer[..|longer| - 1] == order;
    assert longer[|longer| - 1] == s;
    var init := Kept(order, m, options);
    if Printed(m, options, s) {
      var ts := init + [s];
      assert ts[..|ts| - 1] == init;
      assert ts[|ts| - 1] == s;
    } else {
      assert init + [] == init;
    }
  }

  /// Five words offered in turn: rendering the kept ones is emitting each
  /// in order.
  lemma {:induction false} RenderKeptFive(order: seq<Specifier>, m: MethodInfo, options: bv32, sep: string)
    requires |order| == 5
    ensures Render(m, Kept(order, m, options), sep)
         == var r1 := Emit("", Printed(m, options, order[0]), Spelling(m, order[0]), sep);
            var r2 := Emit(r1, Printed(m, options, order[1]), Spelling(m, order[1]), sep);
            var r3 := Emit(r2, Printed(m, options, order[2]), Spelling(m, order[2]), sep);
            var r4 := Emit(r3, Printed(m, options, order[3]), Spelling(m, order[3]), sep);
            Emit(r4, Printed(m, options, order[4]), Spelling(m, order[4]), sep)
  {
    assert Kept(order[..0], m, options) == [];
    RenderKeptSnoc(order[..0], order[0], m, options, sep);
    assert order[..0] + [order[0]] == order[..1];
    RenderKeptSnoc(order[..1], order[1], m, options, sep);
    assert order[..1] + [order[1]] == order[..2];
    RenderKeptSnoc(order[..2], order[2], m, options, sep);
    assert order[..2] + [order[2]] == order[..3];
    RenderKeptSnoc(order[..3], order[3], m, options, sep);
    assert order[..3] + [order[3]] == order[..4];
    RenderKeptSnoc(order[..4], order[4], m, options, sep);
    assert order[..4] + [order[4]] == order;
  }

  /// The forwarding text is explicit, virtual, constexpr, static and the
  /// return type emitted one after the other, each when its bit and the
  /// method's property are both set.
  lemma ForwardingSteps(m: MethodInfo, sep: string, options: bv32)
    ensures ForwardingText(m, sep, options)
         == var r1 := Emit("", Has(options, F.EXPLICIT) && m.isExplicitCtor, "explicit", sep);
            var r2 := Emit(r1, Has(options, F.VIRTUAL) && m.isVirtual, "virtual", sep);
            var r3 := Emit(r2, Has(options, F.CONSTEXPR) && m.isConstexpr, "constexpr", sep);
            var r4 := Emit(r3, Has(options, F.STATIC) && m.isStatic, "static", sep);
            Emit(r4, Has(options, F.RETURN_TYPE) && m.returnType.Some?, Spelling(m, ReturnType), sep)
  {
    RenderKeptFive(FORWARDING_ORDER, m, options, sep);
    assert Printed(m, options, Explicit) == (Has(options, F.EXPLICIT) && m.isExplicitCtor);
    assert Printed(m, options, Virtual) == (Has(options, F.VIRTUAL) && m.isVirtual);
    assert Printed(m, options, Constexpr) == (Has(options, F.CONSTEXPR) && m.isConstexpr);
    assert Printed(m, options, Static) == (Has(options, F.STATIC) && m.isStatic);
    assert Printed(m, options, ReturnType) == (Has(options, F.RETURN_TYPE) && m.returnType.Some?);
  }

  /// The trailing words are const, noexcept, = 0, = delete and = default
  /// emitted one after the other, each when its bit and the method's
  /// property are both set.
  lemma TrailingSteps(m: MethodInfo, sep: string, options: bv32)
    ensures Render(m, TrailingTokens(m, options), sep)
         == var r1 := Emit("", Has(options, T.CONST) && m.isConst, "const", sep);
            var r2 := Emit(r1, Has(options, T.NOEXCEPT) && m.isNoExcept, "noexcept", sep);
            var r3 := Emit(r2, Has(options, T.PURE) && m.isPure, "= 0", sep);
            var r4 := Emit(r3, Has(options, T.DELETED) && m.isDeleted, "= delete", sep);
            Emit(r4, Has(options, T.DEFAULT) && m.isDefault, "= default", sep)
  {
    RenderKeptFive(TRAILING_ORDER, m, options, sep);
    assert Printed(m, options, Const) == (Has(options, T.CONST) && m.isConst);
    assert Printed(m, options, NoExcept) == (Has(options, T.NOEXCEPT) && m.isNoExcept);
    assert Printed(m, options, Pure) == (Has(options, T.PURE) && m.isPure);
    assert Printed(m, options, Deleted) == (Has(options, T.DELETED) && m.isDeleted);
    assert Printed(m, options, Default) == (Has(options, T.DEFAULT) && m.isDefault);
  }

  /// printMethodForwarding.
  method PrintMethodForwarding(m: MethodInfo, separator: string := SEPARATOR_WHITESPACE, options: bv32 := F.ALL)
    returns (result: string)
    requires ForwardingAllowed(m, options)
    ensures result == ForwardingText(m, separator, options)
  {
    result := "";
    var allowExplicit := Has(options, F.EXPLICIT);
    var allowVirtual := Has(options, F.VIRTUAL);
    var allowConstexpr := Has(options, F.CONSTEXPR);
    var allowStatic := Has(options, F.STATIC);
    var allowReturnType := Has(options, F.RETURN_TYPE);
    ghost var before := result;

    if allowExplicit && m.isExplicitCtor {
      result := result + "explicit";
      result := result + separator;
    }
    assert result == Emit(before, allowExplicit && m.isExplicitCtor, "explicit", separator);
    before := result;

    if allowVirtual && m.isVirtual {
      result := result + "virtual";
      result := result + separator;
    }
    assert result == Emit(before, allowVirtual && m.isVirtual, "virtual", separator);
    before := result;

    if allowConstexpr && m.isConstexpr {
      result := result + "constexpr";
      result := result + separator;
    }
    assert result == Emit(before, allowConstexpr && m.isConstexpr, "constexpr", separator);
    before := result;

    if allowStatic && m.isStatic {
      result := result + "static";
      result := result + separator;
    }
    assert result == Emit(before, allowStatic && m.isStatic, "static", separator);
    before := result;

    if allowReturnType && m.returnType.Some? {
      result := result + m.returnType.value.printedName;
      result := result + separator;
    }
    assert result == Emit(before, allowReturnType && m.returnType.Some?, Spelling(m, ReturnType), separator);
    ForwardingSteps(m, separator, options);
  }

  /// printMethodTrailing.
  method PrintMethodTrailing(m: MethodInfo, separator: string := SEPARATOR_WHITESPACE, options: bv32 := T.ALL)
    returns (result: string)
    ensures result == TrailingText(m, separator, options)
  {
    result := "";
    var allowConst := Has(options, T.CONST);
    var allowNoexcept := Has(options, T.NOEXCEPT);
    var allowPure := Has(options, T.PURE);
    var allowDeleted := Has(options, T.DELETED);
    var allowDefault := Has(options, T.DEFAULT);
    var allowBody := Has(options, T.BODY);
    ghost var before := result;

    if allowConst && m.isConst {
      result := result + "const";
      result := result + separator;
    }
    assert result == Emit(before, allowConst && m.isConst, "const", separator);
    before := result;

    if allowNoexcept && m.isNoExcept {
      result := result + "noexcept";
      result := result + separator;
    }
    assert result == Emit(before, allowNoexcept && m.isNoExcept, "noexcept", separator);
    before := result;

    if allowPure && m.isPure {
      result := result + "= 0";
      result := result + separator;
    }
    assert result == Emit(before, allowPure && m.isPure, "= 0", separator);
    before := result;

    if allowDeleted && m.isDeleted {
      result := result + "= delete";
      result := result + separator;
    }
    assert result == Emit(before, allowDeleted && m.isDeleted, "= delete", separator);
    before := result;

    if allowDefault && m.isDefault {
      result := result + "= default";
      result := result + separator;
    }
    assert result == Emit(before, allowDefault && m.isDefault, "= default", separator);
    assert result == Render(m, TrailingTokens(m, options), separator) by {
      TrailingSteps(m, separator, options);
    }

    var canHaveBody := m.isDefined && m.isClassScopeInlined;
    if allowBody && canHaveBody {
      result := result + m.body;
    } else if allowBody {
      // no body: methodType methodName(methodArgs);
      result := result + ";";
    }
  }

  /// A word is kept exactly when it is in the order and printed.
  lemma {:induction false} KeptMembership(order: seq<Specifier>, m: MethodInfo, options: bv32, s: Specifier)
    ensures s in Kept(order, m, options) <==> s in order && Printed(m, options, s)
  {
    if order != [] {
      var init := order[..|order| - 1];
      KeptMembership(init, m, options, s);
      assert order == init + [order[|order| - 1]];
    }
  }

  /// Keeping words never reorders them.
  lemma {:induction false} KeptOrdered(order: seq<Specifier>, m: MethodInfo, options: bv32)
    requires Ordered(order)
    ensures Ordered(Kept(order, m, options))
  {
    if order != [] {
      var init := order[..|order| - 1];
      var last := order[|order| - 1];
      KeptOrdered(init, m, options);
      var k := Kept(init, m, options);
      forall i | 0 <= i < |k|
        ensures Rank(k[i]) < Rank(last)
      {
        KeptMembership(init, m, options, k[i]);
      }
    }
  }

  /// printMethodForwarding prints each of explicit, virtual, constexpr,
  /// static and the return type exactly when both its option bit and the
  /// method's property are set.
  lemma ForwardingWords(m: MethodInfo, options: bv32)
    ensures Explicit in ForwardingTokens(m, options) <==> Has(options, F.EXPLICIT) && m.isExplicitCtor
    ensures Virtual in ForwardingTokens(m, options) <==> Has(options, F.VIRTUAL) && m.isVirtual
    ensures Constexpr in ForwardingTokens(m, options) <==> Has(options, F.CONSTEXPR) && m.isConstexpr
    ensures Static in ForwardingTokens(m, options) <==> Has(options, F.STATIC) && m.isStatic
    ensures ReturnType in ForwardingTokens(m, options) <==> Has(options, F.RETURN_TYPE) && m.returnType.Some?
  {
    KeptMembership(FORWARDING_ORDER, m, options, Explicit);
    KeptMembership(FORWARDING_ORDER, m, options, Virtual);
    KeptMembership(FORWARDING_ORDER, m, options, Constexpr);
    KeptMembership(FORWARDING_ORDER, m, options, Static);
    KeptMembership(FORWARDING_ORDER, m, options, ReturnType);
  }

  /// The forwarding words are only ever the five forwarding specifiers,
  /// always in the documented order.
  lemma ForwardingOrder(m: MethodInfo, options: bv32)
    ensures forall s :: s in ForwardingTokens(m, options) ==> s in FORWARDING_ORDER
    ensures Ordered(ForwardingTokens(m, options))
  {
    forall s | s in ForwardingTokens(m, options)
      ensures s in FORWARDING_ORDER
    {
      KeptMembership(FORWARDING_ORDER, m, options, s);
    }
    KeptOrdered(FORWARDING_ORDER, m, options);
  }

  /// With the mask NOTHING the forwarding printer prints nothing.
  lemma ForwardingNothing(m: MethodInfo, sep: string)
    ensures ForwardingText(m, sep, F.NOTHING) == ""
  {
    var ts := ForwardingTokens(m, F.NOTHING);
    if ts != [] {
      KeptMembership(FORWARDING_ORDER, m, F.NOTHING, ts[0]);
      assert false;
    }
  }

  /// A well-formed constructor or destructor never gets a return type,
  /// whatever the mask.
  lemma NoReturnTypeForCtorOrDtor(m: MethodInfo, options: bv32)
    requires WellFormedMethod(m)
    requires m.isCtor || m.isDtor
    ensures ReturnType !in ForwardingTokens(m, options)
  {
    KeptMembership(FORWARDING_ORDER, m, options, ReturnType);
  }

  /// printMethodTrailing prints each of const, noexcept, = 0, = delete and
  /// = default exactly when both its option bit and the method's property
  /// are set.
  lemma TrailingWords(m: MethodInfo, options: bv32)
    ensures Const in TrailingTokens(m, options) <==> Has(options, T.CONST) && m.isConst
    ensures NoExcept in TrailingTokens(m, options) <==> Has(options, T.NOEXCEPT) && m.isNoExcept
    ensures Pure in TrailingTokens(m, options) <==> Has(options, T.PURE) && m.isPure
    ensures Deleted in TrailingTokens(m, options) <==> Has(options, T.DELETED) && m.isDeleted
    ensures Default in TrailingTokens(m, options) <==> Has(options, T.DEFAULT) && m.isDefault
  {
    KeptMembership(TRAILING_ORDER, m, options, Const);
    KeptMembership(TRAILING_ORDER, m, options, NoExcept);
    KeptMembership(TRAILING_ORDER, m, options, Pure);
    KeptMembership(TRAILING_ORDER, m, options, Deleted);
    KeptMembership(TRAILING_ORDER, m, options, Default);
  }

  /// The trailing words are only ever the five trailing specifiers, always
  /// in the documented order.
  lemma TrailingOrder(m: MethodInfo, options: bv32)
    ensures forall s :: s in TrailingTokens(m, options) ==> s in TRAILING_ORDER
    ensures Ordered(TrailingTokens(m, options))
  {
    forall s | s in TrailingTokens(m, options)
      ensures s in TRAILING_ORDER
    {
      KeptMembership(TRAILING_ORDER, m, options, s);
    }
    KeptOrdered(TRAILING_ORDER, m, options);
  }

  /// With the mask NOTHING the trailing printer prints nothing: no word
  /// and, BODY being unset, no body clause either.
  lemma TrailingNothing(m: MethodInfo, sep: string)
    ensures TrailingText(m, sep, T.NOTHING) == ""
  {
    var ts := TrailingTokens(m, T.NOTHING);
    if ts != [] {
      KeptMembership(TRAILING_ORDER, m, T.NOTHING, ts[0]);
      assert false;
    }
  }

  /// With the default mask ALL each printer prints every word the method
  /// has, and the trailing printer always closes with the body clause: the
  /// inline body when there is one, ";" otherwise.
  lemma AllOptions(m: MethodInfo)
    ensures Explicit in ForwardingTokens(m, F.ALL) <==> m.isExplicitCtor
    ensures Virtual in ForwardingTokens(m, F.ALL) <==> m.isVirtual
    ensures Constexpr in ForwardingTokens(m, F.ALL) <==> m.isConstexpr
    ensures Static in ForwardingTokens(m, F.ALL) <==> m.isStatic
    ensures ReturnType in ForwardingTokens(m, F.ALL) <==> m.returnType.Some?
    ensures Const in TrailingTokens(m, T.ALL) <==> m.isConst
    ensures NoExcept in TrailingTokens(m, T.ALL) <==> m.isNoExcept
    ensures Pure in TrailingTokens(m, T.ALL) <==> m.isPure
    ensures Deleted in TrailingTokens(m, T.ALL) <==> m.isDeleted
    ensures Default in TrailingTokens(m, T.ALL) <==> m.isDefault
    ensures BodyClause(m, T.ALL) == if CanHaveBody(m) then m.body else ";"
  {
    assert Has(F.ALL, F.EXPLICIT) && Has(F.ALL, F.VIRTUAL) && Has(F.ALL, F.CONSTEXPR);
    assert Has(F.ALL, F.STATIC) && Has(F.ALL, F.RETURN_TYPE);
    assert Has(T.ALL, T.CONST) && Has(T.ALL, T.NOEXCEPT) && Has(T.ALL, T.PURE);
    assert Has(T.ALL, T.DELETED) && Has(T.ALL, T.DEFAULT) && Has(T.ALL, T.BODY);
    ForwardingWords(m, F.ALL);
    TrailingWords(m, T.ALL);
  }

  // ---------------------------------------------------------------------
  // Type names

  /// exatractTypeName: drops one leading "struct " or, failing that, one
  /// leading "record " (either compared ASCII case-insensitively).
  function ExtractTypeName(input: string): (r: string)
    ensures EndsWith(input, r)
    ensures |r| == |input| || |r| == |input| - |STRUCT_PREFIX|
    ensures |r| < |input| <==>
              StartsWithIgnoreCase(input, STRUCT_PREFIX) || StartsWithIgnoreCase(input, RECORD_PREFIX)
  {
    if StartsWithIgnoreCase(input, STRUCT_PREFIX) then input[|STRUCT_PREFIX|..]
    else if StartsWithIgnoreCase(input, RECORD_PREFIX) then input[|RECORD_PREFIX|..]
    else input
  }

  /// Only one prefix is ever stripped: whatever follows the first one is
  /// kept verbatim, even if it starts with a prefix itself.
  lemma StripsOnePrefix(prefix: string, rest: string)
    requires prefix == STRUCT_PREFIX || prefix == RECORD_PREFIX || prefix == "STRUCT " || prefix == "RECORD "
    ensures ExtractTypeName(prefix + rest) == rest
  {
    var input := prefix + rest;
    assert input[..7] == prefix;
    assert input[7..] == rest;
    if prefix == RECORD_PREFIX || prefix == "RECORD " {
      assert LowerAscii(input[0]) == 'r';
      assert !StartsWithIgnoreCase(input, STRUCT_PREFIX);
    }
  }
}
