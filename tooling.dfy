/// The three annotation handlers of the plugin (src/Tooling.cc) and the
/// state they share.
///
/// A handler receives the annotated marker declaration, for example
///
///     template<typename impl = FooImpl, typename interface = Foo>
///     class _injectPimplStorage("sizePadding = 8") PimplStorageInjector {};
///
/// reads its settings from the template parameters, and replaces the
/// marker with generated text. `reflectForPimpl` reflects the
/// implementation class once and stores it, with its skip-annotated methods
/// removed, in the tool's reflection cache under the implementation's
/// type name; `injectPimplStorage` and `injectPimplMethodCalls` look it up
/// there and print a FastPimpl storage member or the forwarding methods.
///
/// Every CHECK of the source stops the tool; here it is an `Err` carrying
/// a `Fatal` that names the failed check, and no handler changes anything
/// on that path.
module Tooling {

  import opened Wrappers
  import opened Reflection
  import opened Text
  import opened Bitmask
  import opened CodeGenerator
  import F = ForwardingOptions
  import T = TrailingOptions

  /// The checks that stop the tool.
  datatype Fatal =
    | NotATemplate
    | EmptyTemplateParams
    | ParameterPack(param: string)
    | NotATypeParam(param: string)
    | NotTypename(param: string)
    | MissingDefault(param: string)
    | EmptyTypeName(param: string)
    | UnknownTemplateParam(param: string)
    | ImplNotARecord
    | NotInCache(key: string)
    | AlreadyInCache(className: string)
    | NoMethods(className: string)
    | BadInt(name: string, value: string)
    | UnknownArgument(name: string, value: string)

  // ---------------------------------------------------------------------
  // The marker declaration and its settings

  /// A type written as a default template argument: the text the type
  /// printer gives for it and whether it names a C++ record (class, struct
  /// or union).
  datatype TypeArg = TypeArg(printed: string, isRecord: bool)

  /// One template parameter of the marker.
  datatype TemplateParam = TemplateParam(
    name: string,
    isPack: bool,
    isTypeParam: bool,
    declaredWithTypename: bool,
    defaultArg: Option<TypeArg>)

  /// The annotated marker class: its name and, when it is a class
  /// template, its template parameter list.
  datatype MarkerDecl = MarkerDecl(name: string, templateParams: Option<seq<TemplateParam>>)

  /// ReflectForPimplSettings: the implementation and interface type names
  /// (empty when not given) and the types they were read from.
  datatype Settings = Settings(
    implName: string,
    implType: Option<TypeArg>,
    interfaceName: string,
    interfaceType: Option<TypeArg>)

  const NO_SETTINGS: Settings := Settings("", None, "", None)

  const IMPL_PARAM: string := "impl"
  const INTERFACE_PARAM: string := "interface"

  /// The name a parameter's default argument gives: its printed type with
  /// a leading "struct " or "record " removed.
  function DefaultTypeName(p: TemplateParam): string
    requires p.defaultArg.Some?
  {
    ExtractTypeName(p.defaultArg.value.printed)
  }

  /// One pass of the parameter loop of getReflectForPimplSettings, with
  /// its checks in the source's order.
  function ApplyParam(acc: Settings, p: TemplateParam): Result<Settings, Fatal>
  {
    if p.isPack then Err(ParameterPack(p.name))
    else if !p.isTypeParam then Err(NotATypeParam(p.name))
    else if !p.declaredWithTypename then Err(NotTypename(p.name))
    else if p.defaultArg.None? then Err(MissingDefault(p.name))
    else if p.name == IMPL_PARAM then
      if DefaultTypeName(p) == "" then Err(EmptyTypeName(p.name))
      else Ok(acc.(implName := DefaultTypeName(p), implType := p.defaultArg))
    else if p.name == INTERFACE_PARAM then
      if DefaultTypeName(p) == "" then Err(EmptyTypeName(p.name))
      else Ok(acc.(interfaceName := DefaultTypeName(p), interfaceType := p.defaultArg))
    else Err(UnknownTemplateParam(p.name))
  }

  /// The parameters applied from the front; the first failed check wins.
  function ApplyParams(acc: Settings, ps: seq<TemplateParam>): Result<Settings, Fatal>
    decreases ps
  {
    if ps == [] then Ok(acc)
    else
      match ApplyParam(acc, ps[0])
      case Err(e) => Err(e)
      case Ok(next) => ApplyParams(next, ps[1..])
  }

  /// What getReflectForPimplSettings returns for a marker.
  function ParseSettings(decl: MarkerDecl): Result<Settings, Fatal>
  {
    if decl.templateParams.None? then Err(NotATemplate)
    else if decl.templateParams.value == [] then Err(EmptyTemplateParams)
    else ApplyParams(NO_SETTINGS, decl.templateParams.value)
  }

  /// getReflectForPimplSettings.
  method GetReflectForPimplSettings(decl: MarkerDecl) returns (r: Result<Settings, Fatal>)
    ensures r == ParseSettings(decl)
  {
    if decl.templateParams.None? {
      return Err(NotATemplate);
    }
    var templateParameters := decl.templateParams.value;
    if templateParameters == [] {
      return Err(EmptyTemplateParams);
    }
    var result := NO_SETTINGS;
    var i := 0;
    while i < |templateParameters|
      invariant 0 <= i <= |templateParameters|
      invariant ApplyParams(result, templateParameters[i..]) == ParseSettings(decl)
    {
      var p := templateParameters[i];
      assert templateParameters[i..][0] == p;
      assert templateParameters[i..][1..] == templateParameters[i + 1..];
      if p.isPack {
        return Err(ParameterPack(p.name));
      }
      if !p.isTypeParam {
        return Err(NotATypeParam(p.name));
      }
      if !p.declaredWithTypename {
        return Err(NotTypename(p.name));
      }
      if p.defaultArg.None? {
        return Err(MissingDefault(p.name));
      }
      if p.name == IMPL_PARAM {
        var name := ExtractTypeName(p.defaultArg.value.printed);
        if name == "" {
          return Err(EmptyTypeName(p.name));
        }
        result := result.(implName := name, implType := p.defaultArg);
      } else if p.name == INTERFACE_PARAM {
        var name := ExtractTypeName(p.defaultArg.value.printed);
        if name == "" {
          return Err(EmptyTypeName(p.name));
        }
        result := result.(interfaceName := name, interfaceType := p.defaultArg);
      } else {
        return Err(UnknownTemplateParam(p.name));
      }
      i := i + 1;
    }
    assert templateParameters[i..] == [];
    return Ok(result);
  }

  /// A parameter every check accepts: a single (non-pack) type parameter
  /// declared with `typename`, with a default argument whose type name is
  /// not empty, called "impl" or "interface".
  predicate AcceptedParam(p: TemplateParam)
  {
    !p.isPack && p.isTypeParam && p.declaredWithTypename && p.defaultArg.Some?
    && (p.name == IMPL_PARAM || p.name == INTERFACE_PARAM)
    && DefaultTypeName(p) != ""
  }

  /// One parameter passes exactly when every check accepts it.
  lemma ApplyParamOkIff(acc: Settings, p: TemplateParam)
    ensures ApplyParam(acc, p).Ok? <==> AcceptedParam(p)
  {
  }

  lemma {:induction false} ApplyParamsOkIff(acc: Settings, ps: seq<TemplateParam>)
    ensures ApplyParams(acc, ps).Ok? <==> forall i :: 0 <= i < |ps| ==> AcceptedParam(ps[i])
    decreases ps
  {
    if ps != [] {
      ApplyParamOkIff(acc, ps[0]);
      var first := ApplyParam(acc, ps[0]);
      if first.Ok? {
        ApplyParamsOkIff(first.value, ps[1..]);
        assert forall i :: 1 <= i < |ps| ==> ps[i] == ps[1..][i - 1];
      }
    }
  }

  /// The settings are read exactly when the marker is a class template
  /// with a non-empty parameter list all of whose parameters pass every
  /// check; a parameter with any other name stops the tool.
  lemma SettingsAcceptedIff(decl: MarkerDecl)
    ensures ParseSettings(decl).Ok? <==>
              decl.templateParams.Some? && decl.templateParams.value != []
              && forall i :: 0 <= i < |decl.templateParams.value| ==> AcceptedParam(decl.templateParams.value[i])
  {
    if decl.templateParams.Some? && decl.templateParams.value != [] {
      ApplyParamsOkIff(NO_SETTINGS, decl.templateParams.value);
    }
  }

  /// Without an "impl" parameter the implementation name keeps its
  /// previous value; likewise for "interface".
  lemma {:induction false} ApplyParamsUntouched(acc: Settings, ps: seq<TemplateParam>)
    requires ApplyParams(acc, ps).Ok?
    ensures (forall i :: 0 <= i < |ps| ==> ps[i].name != IMPL_PARAM) ==>
              ApplyParams(acc, ps).value.implName == acc.implName
              && ApplyParams(acc, ps).value.implType == acc.implType
    ensures (forall i :: 0 <= i < |ps| ==> ps[i].name != INTERFACE_PARAM) ==>
              ApplyParams(acc, ps).value.interfaceName == acc.interfaceName
              && ApplyParams(acc, ps).value.interfaceType == acc.interfaceType
    decreases ps
  {
    if ps != [] {
      ApplyParamsUntouched(ApplyParam(acc, ps[0]).value, ps[1..]);
      assert forall i :: 1 <= i < |ps| ==> ps[i] == ps[1..][i - 1];
    }
  }

  /// When "impl" is given more than once the last one wins: the
  /// implementation name and type come from the last "impl" parameter.
  lemma {:induction false} ApplyParamsLastImpl(acc: Settings, ps: seq<TemplateParam>, k: nat)
    requires ApplyParams(acc, ps).Ok?
    requires k < |ps| && ps[k].name == IMPL_PARAM
    requires forall i :: k < i < |ps| ==> ps[i].name != IMPL_PARAM
    ensures ps[k].defaultArg.Some?
    ensures ApplyParams(acc, ps).value.implName == DefaultTypeName(ps[k])
    ensures ApplyParams(acc, ps).value.implType == ps[k].defaultArg
    decreases ps
  {
    var next := ApplyParam(acc, ps[0]).value;
    assert ApplyParams(acc, ps) == ApplyParams(next, ps[1..]);
    if k == 0 {
      assert forall i :: 0 <= i < |ps[1..]| ==> ps[1..][i].name != IMPL_PARAM;
      ApplyParamsUntouched(next, ps[1..]);
    } else {
      assert ps[1..][k - 1] == ps[k];
      ApplyParamsLastImpl(next, ps[1..], k - 1);
    }
  }

  /// The same for "interface".
  lemma {:induction false} ApplyParamsLastInterface(acc: Settings, ps: seq<TemplateParam>, k: nat)
    requires ApplyParams(acc, ps).Ok?
    requires k < |ps| && ps[k].name == INTERFACE_PARAM
    requires forall i :: k < i < |ps| ==> ps[i].name != INTERFACE_PARAM
    ensures ps[k].defaultArg.Some?
    ensures ApplyParams(acc, ps).value.interfaceName == DefaultTypeName(ps[k])
    ensures ApplyParams(acc, ps).value.interfaceType == ps[k].defaultArg
    decreases ps
  {
    var next := ApplyParam(acc, ps[0]).value;
    assert ApplyParams(acc, ps) == ApplyParams(next, ps[1..]);
    if k == 0 {
      assert forall i :: 0 <= i < |ps[1..]| ==> ps[1..][i].name != INTERFACE_PARAM;
      ApplyParamsUntouched(next, ps[1..]);
    } else {
      assert ps[1..][k - 1] == ps[k];
      ApplyParamsLastInterface(next, ps[1..], k - 1);
    }
  }

  // ---------------------------------------------------------------------
  // Annotation arguments

  /// One argument of the annotation, as the annotation parser splits
  /// `"sizePadding = 8"` (name "sizePadding", value "8") or
  /// `"without_method_body"` (no name, that value).
  datatype Arg = Arg(name: string, value: string)

  const SIZE_PADDING_ARG: string := "sizePadding"
  const WITHOUT_METHOD_BODY_ARG: string := "without_method_body"

  /// An argument with neither name nor value is skipped.
  predicate Blank(a: Arg)
  {
    a.name == "" && a.value == ""
  }

  /// The argument loop of injectPimplStorage from the current padding: a
  /// "sizePadding" argument must hold a decimal int and replaces the
  /// padding; any other non-blank argument stops the tool.
  function SizePadding(args: seq<Arg>, padding: int): Result<int, Fatal>
  {
    if args == [] then Ok(padding)
    else
      var a := args[0];
      if Blank(a) then SizePadding(args[1..], padding)
      else if a.name == SIZE_PADDING_ARG then
        match StringToInt(a.value)
        case None => Err(BadInt(a.name, a.value))
        case Some(v) => SizePadding(args[1..], v)
      else Err(UnknownArgument(a.name, a.value))
  }

  /// The argument loop of injectPimplStorage.
  method ParseStorageArgs(args: seq<Arg>) returns (r: Result<int, Fatal>)
    ensures r == SizePadding(args, 0)
  {
    var extraSizeBytes := 0;
    var i := 0;
    while i < |args|
      invariant 0 <= i <= |args|
      invariant SizePadding(args[i..], extraSizeBytes) == SizePadding(args, 0)
    {
      var arg := args[i];
      assert args[i..][0] == arg;
      assert args[i..][1..] == args[i + 1..];
      if arg.name == "" && arg.value == "" {
        i := i + 1;
        continue;
      }
      if arg.name == SIZE_PADDING_ARG {
        var converted := StringToInt(arg.value);
        if converted.None? {
          return Err(BadInt(arg.name, arg.value));
        }
        extraSizeBytes := converted.value;
      } else {
        return Err(UnknownArgument(arg.name, arg.value));
      }
      i := i + 1;
    }
    assert args[i..] == [];
    return Ok(extraSizeBytes);
  }

  /// An argument injectPimplStorage accepts.
  predicate StorageArgAccepted(a: Arg)
  {
    Blank(a) || (a.name == SIZE_PADDING_ARG && StringToInt(a.value).Some?)
  }

  /// The storage arguments are accepted exactly when each one is blank or
  /// a "sizePadding" holding a decimal int; the padding is then the value
  /// of the last "sizePadding", or the starting value when there is none.
  lemma {:induction false} SizePaddingSpec(args: seq<Arg>, padding: int)
    ensures SizePadding(args, padding).Ok? <==> forall i :: 0 <= i < |args| ==> StorageArgAccepted(args[i])
    ensures SizePadding(args, padding).Ok? && (forall i :: 0 <= i < |args| ==> args[i].name != SIZE_PADDING_ARG) ==>
              SizePadding(args, padding).value == padding
    ensures forall k :: 0 <= k < |args| && args[k].name == SIZE_PADDING_ARG && SizePadding(args, padding).Ok?
                        && (forall i :: k < i < |args| ==> args[i].name != SIZE_PADDING_ARG) ==>
              SizePadding(args, padding).value == StringToInt(args[k].value).value
  {
    if args != [] {
      var a := args[0];
      var rest := args[1..];
      assert forall i :: 1 <= i < |args| ==> args[i] == rest[i - 1];
      if Blank(a) {
        SizePaddingSpec(rest, padding);
      } else if a.name == SIZE_PADDING_ARG {
        if StringToInt(a.value).Some? {
          SizePaddingSpec(rest, StringToInt(a.value).value);
        }
      }
    }
  }

  /// The argument loop of injectPimplMethodCalls from the current flag: an
  /// argument whose value is "without_method_body" sets the flag, any
  /// other non-blank argument stops the tool.
  function WithoutMethodBody(args: seq<Arg>, flag: bool): Result<bool, Fatal>
  {
    if args == [] then Ok(flag)
    else
      var a := args[0];
      if Blank(a) then WithoutMethodBody(args[1..], flag)
      else if a.value == WITHOUT_METHOD_BODY_ARG then WithoutMethodBody(args[1..], true)
      else Err(UnknownArgument(a.name, a.value))
  }

  /// The argument loop of injectPimplMethodCalls.
  method ParseMethodCallsArgs(args: seq<Arg>) returns (r: Result<bool, Fatal>)
    ensures r == WithoutMethodBody(args, false)
  {
    var withoutMethodBody := false;
    var i := 0;
    while i < |args|
      invariant 0 <= i <= |args|
      invariant WithoutMethodBody(args[i..], withoutMethodBody) == WithoutMethodBody(args, false)
    {
      var arg := args[i];
      assert args[i..][0] == arg;
      assert args[i..][1..] == args[i + 1..];
      if arg.name == "" && arg.value == "" {
        i := i + 1;
        continue;
      }
      if arg.value == WITHOUT_METHOD_BODY_ARG {
        withoutMethodBody := true;
      } else {
        return Err(UnknownArgument(arg.name, arg.value));
      }
      i := i + 1;
    }
    assert args[i..] == [];
    return Ok(withoutMethodBody);
  }

  /// An argument injectPimplMethodCalls accepts.
  predicate MethodCallsArgAccepted(a: Arg)
  {
    Blank(a) || a.value == WITHOUT_METHOD_BODY_ARG
  }

  /// The method-call arguments are accepted exactly when each one is blank
  /// or has the value "without_method_body" (whatever its name); the flag
  /// is then set exactly when it was already set or some argument has that
  /// value.
  lemma {:induction false} WithoutMethodBodySpec(args: seq<Arg>, flag: bool)
    ensures WithoutMethodBody(args, flag).Ok? <==> forall i :: 0 <= i < |args| ==> MethodCallsArgAccepted(args[i])
    ensures WithoutMethodBody(args, flag).Ok? ==>
              (WithoutMethodBody(args, flag).value <==>
                 flag || exists i :: 0 <= i < |args| && args[i].value == WITHOUT_METHOD_BODY_ARG)
  {
    if args != [] {
      var rest := args[1..];
      assert forall i :: 1 <= i < |args| ==> args[i] == rest[i - 1];
      if Blank(args[0]) {
        WithoutMethodBodySpec(rest, flag);
        if WithoutMethodBody(args, flag).Ok? && WithoutMethodBody(args, flag).value && !flag {
          var j :| 0 <= j < |rest| && rest[j].value == WITHOUT_METHOD_BODY_ARG;
          assert args[j + 1].value == WITHOUT_METHOD_BODY_ARG;
        }
      } else if args[0].value == WITHOUT_METHOD_BODY_ARG {
        WithoutMethodBodySpec(rest, true);
      }
    }
  }

  // ---------------------------------------------------------------------
  // Methods kept for forwarding

  const SKIP_PIMPL_ATTR: string := "skip_pimpl"

  /// reflectForPimpl keeps a method that has a declaration and whose
  /// annotation, if any, does not start with "skip_pimpl".
  predicate KeepMethod(m: MethodInfo)
  {
    m.hasDecl && !(m.annotation.Some? && StartsWith(m.annotation.value, SKIP_PIMPL_ATTR))
  }

  /// The kept methods, in their original order.
  function CleanedMethods(ms: seq<MethodInfo>): seq<MethodInfo>
  {
    if ms == [] then []
    else CleanedMethods(ms[..|ms| - 1]) + (if KeepMethod(ms[|ms| - 1]) then [ms[|ms| - 1]] else [])
  }

  /// The method loop of reflectForPimpl.
  method FilterMethods(methods: seq<MethodInfo>) returns (cleaned: seq<MethodInfo>)
    ensures cleaned == CleanedMethods(methods)
  {
    cleaned := [];
    var i := 0;
    while i < |methods|
      invariant 0 <= i <= |methods|
      invariant cleaned == CleanedMethods(methods[..i])
    {
      var m := methods[i];
      assert methods[..i + 1][..i] == methods[..i];
      i := i + 1;
      if !m.hasDecl {
        continue;
      }
      if m.annotation.Some? {
        var annotationCode := m.annotation.value;
        if StartsWith(annotationCode, SKIP_PIMPL_ATTR) {
          continue;
        }
      }
      cleaned := cleaned + [m];
    }
    assert methods[..i] == methods;
  }

  /// A method survives the filter exactly when it was there and is kept.
  lemma {:induction false} CleanedMembership(ms: seq<MethodInfo>, m: MethodInfo)
    ensures m in CleanedMethods(ms) <==> m in ms && KeepMethod(m)
  {
    if ms != [] {
      var init := ms[..|ms| - 1];
      CleanedMembership(init, m);
      assert ms == init + [ms[|ms| - 1]];
    }
  }

  /// Filtering a concatenation filters each part: the kept methods keep
  /// their relative order.
  lemma {:induction false} CleanedAppend(a: seq<MethodInfo>, b: seq<MethodInfo>)
    ensures CleanedMethods(a + b) == CleanedMethods(a) + CleanedMethods(b)
  {
    if b == [] {
      assert a + b == a;
    } else {
      var init := b[..|b| - 1];
      CleanedAppend(a, init);
      assert (a + b)[..|a + b| - 1] == a + init;
      assert (a + b)[|a + b| - 1] == b[|b| - 1];
    }
  }

  /// Filtering twice changes nothing, and never lengthens the list.
  lemma {:induction false} CleanedIdempotent(ms: seq<MethodInfo>)
    ensures CleanedMethods(CleanedMethods(ms)) == CleanedMethods(ms)
    ensures |CleanedMethods(ms)| <= |ms|
  {
    if ms != [] {
      var init := ms[..|ms| - 1];
      var last := ms[|ms| - 1];
      CleanedIdempotent(init);
      var tail := if KeepMethod(last) then [last] else [];
      assert CleanedMethods(ms) == CleanedMethods(init) + tail;
      CleanedAppend(CleanedMethods(init), tail);
      CleanedOfKept(tail);
    }
  }

  /// A list of kept methods passes the filter unchanged.
  lemma {:induction false} CleanedOfKept(ms: seq<MethodInfo>)
    requires forall i :: 0 <= i < |ms| ==> KeepMethod(ms[i])
    ensures CleanedMethods(ms) == ms
  {
    if ms != [] {
      CleanedOfKept(ms[..|ms| - 1]);
    }
  }

  // ---------------------------------------------------------------------
  // The FastPimpl storage member

  const UINT32_MODULUS: int := 0x1_0000_0000

  /// typeSize: the record size plus the padding. The int padding is
  /// converted to uint64_t for the addition, so the sum wraps modulo 2^64
  /// (a padding below minus the record size gives a huge size).
  function TypeSize(recordSize: uint64, padding: int): uint64
  {
    (recordSize + padding) % UINT64_MODULUS
  }

  /// fieldAlign: the non-virtual alignment stored in an `unsigned`.
  function FieldAlign(alignment: nat): nat
  {
    alignment % UINT32_MODULUS
  }

  const STORAGE_HEAD: string := "::pimpl::FastPimpl<"
  const SIZE_TAG: string := ", /*Size*/"
  const ALIGNMENT_TAG: string := ", /*Alignment*/"
  const SIZE_POLICY: string := ", ::pimpl::SizePolicy::AtLeast"
  const ALIGN_POLICY: string := ", ::pimpl::AlignPolicy::AtLeast"
  const STORAGE_TAIL: string := "> impl_;"

  /// The storage member injectPimplStorage prints.
  function StorageText(implName: string, size: nat, alignment: nat): string
  {
    STORAGE_HEAD + implName + SIZE_TAG + NatToString(size) + ALIGNMENT_TAG + NatToString(alignment)
    + SIZE_POLICY + ALIGN_POLICY + STORAGE_TAIL
  }

  /// Within range the size is the plain sum; below zero it wraps around.
  lemma TypeSizeArithmetic(recordSize: uint64, padding: int)
    ensures 0 <= recordSize + padding < UINT64_MODULUS ==> TypeSize(recordSize, padding) == recordSize + padding
    ensures -UINT64_MODULUS <= recordSize + padding < 0 ==>
              TypeSize(recordSize, padding) == recordSize + padding + UINT64_MODULUS
  {
  }

  /// The size and alignment fields of the storage member are decimal
  /// numerals that read back as the size and the alignment, and the member
  /// names the implementation type.
  lemma StorageTextFields(implName: string, size: nat, alignment: nat)
    ensures StartsWith(StorageText(implName, size, alignment), STORAGE_HEAD + implName + SIZE_TAG)
    ensures EndsWith(StorageText(implName, size, alignment), SIZE_POLICY + ALIGN_POLICY + STORAGE_TAIL)
    ensures AllDigits(NatToString(size)) && DigitsValue(NatToString(size)) == size
    ensures AllDigits(NatToString(alignment)) && DigitsValue(NatToString(alignment)) == alignment
  {
    NatToStringDigits(size);
    NatToStringDigits(alignment);
    var head := STORAGE_HEAD + implName + SIZE_TAG;
    var a, b := NatToString(size), NatToString(alignment);
    var front := head + a + ALIGNMENT_TAG + b;
    Regroup(head, a, ALIGNMENT_TAG);
    Regroup(head, a + ALIGNMENT_TAG, b);
    Regroup(front, SIZE_POLICY, ALIGN_POLICY);
    Regroup(front, SIZE_POLICY + ALIGN_POLICY, STORAGE_TAIL);
    AppendEnds(front, SIZE_POLICY + ALIGN_POLICY + STORAGE_TAIL);
    AppendEnds(head, a + ALIGNMENT_TAG + b);
    StartsWithTransitive(StorageText(implName, size, alignment), front, head);
  }

  // ---------------------------------------------------------------------
  // The forwarding methods

  /// The masks injectPimplMethodCalls hands to the printers: every
  /// forwarding word except `virtual`, and only `const` and `noexcept`
  /// after the parameter list.
  const FORWARDING_MASK: bv32 := F.ALL & !F.VIRTUAL
  const TRAILING_MASK: bv32 := T.NOTHING | T.CONST | T.NOEXCEPT

  /// "template<T1, T2>" for a method template, nothing otherwise.
  function TemplateHead(m: MethodInfo): string
  {
    if m.isTemplate then "template<" + Join(TemplateNames(m.tplParams), SEPARATOR_COMMA_AND_WHITESPACE) + ">"
    else ""
  }

  /// "Interface::" when an interface name is given, nothing otherwise.
  function Qualifier(s: Settings): string
  {
    if s.interfaceName != "" then s.interfaceName + "::" else ""
  }

  /// Everything up to the end of the trailing words.
  function Signature(s: Settings, m: MethodInfo): string
  {
    TemplateHead(m) + Declarator(s, m)
  }

  /// The signature after the template head: forwarding words, the
  /// (qualified) name, the parameter list and the trailing words.
  function Declarator(s: Settings, m: MethodInfo): string
  {
    ForwardingText(m, SEPARATOR_WHITESPACE, FORWARDING_MASK) + " " + Qualifier(s)
    + m.name + "(" + Join(ParamDecls(m.params), SEPARATOR_COMMA_AND_WHITESPACE) + ")" + " "
    + TrailingText(m, SEPARATOR_WHITESPACE, TRAILING_MASK)
  }

  /// The body's single statement: the call forwarded to the
  /// implementation.
  function ForwardingCall(m: MethodInfo): string
  {
    " return impl_->" + m.name + "(" + Join(ForwardedNames(m.params), SEPARATOR_COMMA_AND_WHITESPACE) + ")" + ";"
  }

  /// What follows the signature: ";" for a declaration, a body holding the
  /// forwarding call for a definition.
  function Ending(m: MethodInfo, withoutMethodBody: bool): string
  {
    if withoutMethodBody then ";\n"
    else "\n{\n" + ForwardingCall(m) + "\n}\n"
  }

  /// The text printed for one method.
  function Snippet(s: Settings, m: MethodInfo, withoutMethodBody: bool): string
  {
    Signature(s, m) + Ending(m, withoutMethodBody)
  }

  /// The texts `f` gives for the methods, one after the other.
  function ConcatMap(f: MethodInfo -> string, ms: seq<MethodInfo>): string
  {
    if ms == [] then ""
    else ConcatMap(f, ms[..|ms| - 1]) + f(ms[|ms| - 1])
  }

  /// Mapping a concatenation concatenates the mapped parts.
  lemma {:induction false} ConcatMapAppend(f: MethodInfo -> string, a: seq<MethodInfo>, b: seq<MethodInfo>)
    ensures ConcatMap(f, a + b) == ConcatMap(f, a) + ConcatMap(f, b)
  {
    if b == [] {
      assert a + b == a;
    } else {
      var init := b[..|b| - 1];
      ConcatMapAppend(f, a, init);
      assert (a + b)[..|a + b| - 1] == a + init;
      assert (a + b)[|a + b| - 1] == b[|b| - 1];
    }
  }

  /// Mapping a single method gives its own text.
  lemma ConcatMapSingle(f: MethodInfo -> string, m: MethodInfo)
    ensures ConcatMap(f, [m]) == f(m)
  {
    assert [m][..0] == [];
  }

  /// What one method contributes: its snippet when eligible, nothing
  /// otherwise.
  function Contribution(s: Settings, withoutMethodBody: bool): MethodInfo -> string
  {
    m => if IsPimplMethod(m) then Snippet(s, m, withoutMethodBody) else ""
  }

  /// What injectPimplMethodCalls prints for a list of methods: the
  /// snippets of the eligible ones, in order.
  function MethodCallsText(s: Settings, ms: seq<MethodInfo>, withoutMethodBody: bool): string
  {
    ConcatMap(Contribution(s, withoutMethodBody), ms)
  }

  /// The statements of injectPimplMethodCalls' loop body that print the
  /// signature of one eligible method, in the order they append it.
  method PrintSignature(s: Settings, m: MethodInfo) returns (text: string)
    requires IsPimplMethod(m)
    ensures text == Signature(s, m)
  {
    text := "";
    if m.isTemplate {
      text := text + "template<";
      var names := ExpandTemplateNames(m.tplParams);
      text := text + names;
      text := text + ">";
    }
    assert text == TemplateHead(m);
    var declarator := PrintDeclarator(s, m);
    text := text + declarator;
  }

  /// The part of the signature after the template head.
  method PrintDeclarator(s: Settings, m: MethodInfo) returns (text: string)
    requires IsPimplMethod(m)
    ensures text == Declarator(s, m)
  {
    EligibleMethodsAdmitReturnType(m, FORWARDING_MASK);
    var methodForwarding := PrintMethodForwarding(m, SEPARATOR_WHITESPACE, FORWARDING_MASK);
    var methodTrailing := PrintMethodTrailing(m, SEPARATOR_WHITESPACE, TRAILING_MASK);
    text := methodForwarding;
    text := text + " ";
    if s.interfaceName != "" {
      ghost var before := text;
      text := text + s.interfaceName;
      text := text + "::";
      Regroup(before, s.interfaceName, "::");
    }
    text := text + m.name;
    text := text + "(";
    var decls := MethodParamDecls(m.params);
    text := text + decls;
    text := text + ")";
    text := text + " ";
    text := text + methodTrailing;
  }

  /// The statements that close one method: ";" for a declaration, or the
  /// body forwarding the call to `impl_`.
  method PrintEnding(m: MethodInfo, withoutMethodBody: bool) returns (text: string)
    ensures text == Ending(m, withoutMethodBody)
  {
    text := "";
    if !withoutMethodBody {
      text := text + "\n";
      text := text + "{";
      text := text + "\n";
      assert text == "\n{\n";
      text := text + " return impl_->";
      text := text + m.name;
      text := text + "(";
      var names := ForwardMethodParamNames(m.params);
      text := text + names;
      text := text + ")";
      text := text + ";";
      Regroup("\n{\n", " return impl_->" + m.name + "(" + names + ")", ";");
      ghost var called := text;
      text := text + "\n";
      text := text + "}";
      text := text + "\n";
      assert text == called + "\n}\n";
    } else {
      text := text + ";";
      text := text + "\n";
      assert text == ";\n";
    }
  }

  /// The method loop of injectPimplMethodCalls.
  method GenerateMethodCalls(s: Settings, methods: seq<MethodInfo>, withoutMethodBody: bool)
    returns (replacer: string)
    ensures replacer == MethodCallsText(s, methods, withoutMethodBody)
  {
    replacer := "";
    var i := 0;
    while i < |methods|
      invariant 0 <= i <= |methods|
      invariant replacer == MethodCallsText(s, methods[..i], withoutMethodBody)
    {
      var m := methods[i];
      assert methods[..i + 1][..i] == methods[..i];
      i := i + 1;
      var needPrint := IsPimplMethod(m);
      if !needPrint {
        continue;
      }
      ghost var before := replacer;
      var signature := PrintSignature(s, m);
      replacer := replacer + signature;
      var ending := PrintEnding(m, withoutMethodBody);
      replacer := replacer + ending;
      Regroup(before, signature, ending);
    }
    assert methods[..i] == methods;
  }

  /// The bits of the two masks: all forwarding options but VIRTUAL, and
  /// of the trailing options only CONST and NOEXCEPT.
  lemma MaskBits()
    ensures Has(FORWARDING_MASK, F.EXPLICIT) && !Has(FORWARDING_MASK, F.VIRTUAL)
    ensures Has(FORWARDING_MASK, F.CONSTEXPR) && Has(FORWARDING_MASK, F.STATIC) && Has(FORWARDING_MASK, F.RETURN_TYPE)
    ensures Has(TRAILING_MASK, T.CONST) && Has(TRAILING_MASK, T.NOEXCEPT)
    ensures !Has(TRAILING_MASK, T.PURE) && !Has(TRAILING_MASK, T.DELETED) && !Has(TRAILING_MASK, T.DEFAULT)
    ensures !Has(TRAILING_MASK, T.BODY)
  {
  }

  /// Which words the definitions carry: every forwarding word the method
  /// has except `virtual`, the return type whenever there is one, and
  /// after the parameter list only `const` and `noexcept`, with no body
  /// clause.
  lemma DefinitionWords(m: MethodInfo)
    ensures Virtual !in ForwardingTokens(m, FORWARDING_MASK)
    ensures Explicit in ForwardingTokens(m, FORWARDING_MASK) <==> m.isExplicitCtor
    ensures Constexpr in ForwardingTokens(m, FORWARDING_MASK) <==> m.isConstexpr
    ensures Static in ForwardingTokens(m, FORWARDING_MASK) <==> m.isStatic
    ensures ReturnType in ForwardingTokens(m, FORWARDING_MASK) <==> m.returnType.Some?
    ensures Const in TrailingTokens(m, TRAILING_MASK) <==> m.isConst
    ensures NoExcept in TrailingTokens(m, TRAILING_MASK) <==> m.isNoExcept
    ensures Pure !in TrailingTokens(m, TRAILING_MASK)
    ensures Deleted !in TrailingTokens(m, TRAILING_MASK)
    ensures Default !in TrailingTokens(m, TRAILING_MASK)
    ensures TrailingText(m, SEPARATOR_WHITESPACE, TRAILING_MASK)
              == Render(m, TrailingTokens(m, TRAILING_MASK), SEPARATOR_WHITESPACE)
  {
    MaskBits();
    ForwardingWords(m, FORWARDING_MASK);
    TrailingWords(m, TRAILING_MASK);
  }

  /// The text for a list of methods is the texts of its parts, one after
  /// the other.
  lemma MethodCallsAppend(s: Settings, a: seq<MethodInfo>, b: seq<MethodInfo>, withoutMethodBody: bool)
    ensures MethodCallsText(s, a + b, withoutMethodBody)
            == MethodCallsText(s, a, withoutMethodBody) + MethodCallsText(s, b, withoutMethodBody)
  {
    ConcatMapAppend(Contribution(s, withoutMethodBody), a, b);
  }

  /// Methods that are not eligible contribute nothing: a list of them
  /// prints the empty text.
  lemma {:induction false} MethodCallsIneligible(s: Settings, ms: seq<MethodInfo>, withoutMethodBody: bool)
    requires forall i :: 0 <= i < |ms| ==> !IsPimplMethod(ms[i])
    ensures MethodCallsText(s, ms, withoutMethodBody) == ""
  {
    if ms != [] {
      MethodCallsIneligible(s, ms[..|ms| - 1], withoutMethodBody);
    }
  }

  /// One method prints its snippet when eligible and nothing otherwise.
  lemma MethodCallsSingle(s: Settings, m: MethodInfo, withoutMethodBody: bool)
    ensures MethodCallsText(s, [m], withoutMethodBody) == (if IsPimplMethod(m) then Snippet(s, m, withoutMethodBody) else "")
  {
    ConcatMapSingle(Contribution(s, withoutMethodBody), m);
  }

  /// A snippet starts with the method's signature.
  lemma SnippetStartsWithSignature(s: Settings, m: MethodInfo, withoutMethodBody: bool)
    ensures StartsWith(Snippet(s, m, withoutMethodBody), Signature(s, m))
  {
    AppendEnds(Signature(s, m), Ending(m, withoutMethodBody));
  }

  /// The snippet of a method template starts with "template<".
  lemma TemplateSnippet(s: Settings, m: MethodInfo, withoutMethodBody: bool)
    requires m.isTemplate
    ensures StartsWith(Snippet(s, m, withoutMethodBody), "template<")
  {
    var names := Join(TemplateNames(m.tplParams), SEPARATOR_COMMA_AND_WHITESPACE);
    var opening := "template<" + names;
    AppendEnds("template<", names);
    AppendEnds(opening, ">");
    StartsWithTransitive(TemplateHead(m), opening, "template<");
    AppendEnds(TemplateHead(m), Declarator(s, m));
    StartsWithTransitive(Signature(s, m), TemplateHead(m), "template<");
    SnippetStartsWithSignature(s, m, withoutMethodBody);
    StartsWithTransitive(Snippet(s, m, withoutMethodBody), Signature(s, m), "template<");
  }

  /// A declaration ends with ";" and a line break.
  lemma DeclarationEnding(s: Settings, m: MethodInfo)
    ensures EndsWith(Snippet(s, m, true), ";\n")
  {
    AppendEnds(Signature(s, m), ";\n");
  }

  /// A definition ends with the call forwarded to the implementation and
  /// the closing brace.
  lemma DefinitionEnding(s: Settings, m: MethodInfo)
    ensures EndsWith(Snippet(s, m, false), ForwardingCall(m) + "\n}\n")
  {
    var sig := Signature(s, m);
    var tail := ForwardingCall(m) + "\n}\n";
    Regroup("\n{\n", ForwardingCall(m), "\n}\n");
    Regroup(sig, "\n{\n", tail);
    AppendEnds(sig + "\n{\n", tail);
  }

  // ---------------------------------------------------------------------
  // The handlers, as functions of the cache

  /// The check every handler makes after reading its settings: the "impl"
  /// default argument names a record. A marker without "impl" has no such
  /// type, which stops the tool too.
  predicate ImplIsRecord(s: Settings)
  {
    s.implType.Some? && s.implType.value.isRecord
  }

  /// reflectFromCache: the entry under the key, and a stop when there is
  /// none.
  function CacheLookup(cache: map<string, ClassInfo>, key: string): Result<ClassInfo, Fatal>
  {
    if key in cache then Ok(cache[key]) else Err(NotInCache(key))
  }

  /// The class a reflected implementation is cached as: its methods
  /// filtered.
  function CachedForm(reflected: ClassInfo): ClassInfo
  {
    reflected.(methods := CleanedMethods(reflected.methods))
  }

  /// reflectForPimpl on a cache: the settings, the record check, at least
  /// one reflected method before filtering, a key not yet present; then
  /// the cache with the filtered class under the implementation's name.
  function ReflectStep(cache: map<string, ClassInfo>, decl: MarkerDecl, reflected: ClassInfo)
    : Result<map<string, ClassInfo>, Fatal>
  {
    match ParseSettings(decl)
    case Err(e) => Err(e)
    case Ok(s) =>
      if !ImplIsRecord(s) then Err(ImplNotARecord)
      else if reflected.methods == [] then Err(NoMethods(reflected.name))
      else if s.implName in cache then Err(AlreadyInCache(reflected.name))
      else Ok(cache[s.implName := CachedForm(reflected)])
  }

  /// The steps injectPimplStorage and injectPimplMethodCalls share: the
  /// settings, the record check, the cached class, which must have
  /// methods.
  function CachedClass(cache: map<string, ClassInfo>, decl: MarkerDecl): Result<(Settings, ClassInfo), Fatal>
  {
    match ParseSettings(decl)
    case Err(e) => Err(e)
    case Ok(s) =>
      if !ImplIsRecord(s) then Err(ImplNotARecord)
      else
        match CacheLookup(cache, s.implName)
        case Err(e) => Err(e)
        case Ok(c) => if c.methods == [] then Err(NoMethods(c.name)) else Ok((s, c))
  }

  /// injectPimplStorage on a cache: the replacement text.
  function StorageStep(cache: map<string, ClassInfo>, decl: MarkerDecl, args: seq<Arg>): Result<string, Fatal>
  {
    match CachedClass(cache, decl)
    case Err(e) => Err(e)
    case Ok((s, c)) =>
      match SizePadding(args, 0)
      case Err(e) => Err(e)
      case Ok(padding) =>
        Ok(StorageText(s.implName, TypeSize(c.recordSize, padding), FieldAlign(c.nonVirtualAlignment)))
  }

  /// injectPimplMethodCalls on a cache: the replacement text.
  function MethodCallsStep(cache: map<string, ClassInfo>, decl: MarkerDecl, args: seq<Arg>): Result<string, Fatal>
  {
    match CachedClass(cache, decl)
    case Err(e) => Err(e)
    case Ok((s, c)) =>
      match WithoutMethodBody(args, false)
      case Err(e) => Err(e)
      case Ok(withoutMethodBody) => Ok(MethodCallsText(s, c.methods, withoutMethodBody))
  }

  /// reflectForPimpl succeeds exactly when the settings are read, the
  /// implementation is a record, the reflected class has methods and its
  /// name is not cached yet; the cache then gains that one key, holding
  /// the filtered class, and keeps every other entry.
  lemma ReflectSpec(cache: map<string, ClassInfo>, decl: MarkerDecl, reflected: ClassInfo)
    ensures ReflectStep(cache, decl, reflected).Ok? <==>
              ParseSettings(decl).Ok? && ImplIsRecord(ParseSettings(decl).value)
              && reflected.methods != [] && ParseSettings(decl).value.implName !in cache
    ensures ReflectStep(cache, decl, reflected).Ok? ==>
              var key := ParseSettings(decl).value.implName;
              var next := ReflectStep(cache, decl, reflected).value;
              next.Keys == cache.Keys + {key}
              && next[key] == CachedForm(reflected)
              && (forall k :: k in cache ==> next[k] == cache[k])
  {
  }

  /// The invariant of reflectionCache_: every cached class holds only
  /// methods the filter keeps.
  predicate CacheHoldsKept(cache: map<string, ClassInfo>)
  {
    forall k, m :: k in cache && m in cache[k].methods ==> KeepMethod(m)
  }

  /// reflectForPimpl keeps that invariant, and an entry, once inserted,
  /// is never replaced or removed.
  lemma ReflectKeepsCache(cache: map<string, ClassInfo>, decl: MarkerDecl, reflected: ClassInfo)
    requires CacheHoldsKept(cache)
    ensures ReflectStep(cache, decl, reflected).Ok? ==>
              CacheHoldsKept(ReflectStep(cache, decl, reflected).value)
              && forall k :: k in cache ==>
                   k in ReflectStep(cache, decl, reflected).value
                   && ReflectStep(cache, decl, reflected).value[k] == cache[k]
  {
    if ReflectStep(cache, decl, reflected).Ok? {
      var next := ReflectStep(cache, decl, reflected).value;
      forall k, m | k in next && m in next[k].methods
        ensures KeepMethod(m)
      {
        if k !in cache {
          CleanedMembership(reflected.methods, m);
        }
      }
    }
  }

  /// Round trip: what reflectForPimpl stores, reflectFromCache returns,
  /// with the skipped methods removed.
  lemma ReflectThenLookup(cache: map<string, ClassInfo>, decl: MarkerDecl, reflected: ClassInfo)
    requires ReflectStep(cache, decl, reflected).Ok?
    ensures CacheLookup(ReflectStep(cache, decl, reflected).value, ParseSettings(decl).value.implName)
            == Ok(reflected.(methods := CleanedMethods(reflected.methods)))
  {
  }

  /// A second reflection for the same implementation stops the tool,
  /// whatever class is reflected the second time (as long as it has
  /// methods, which is checked first).
  lemma ReflectTwiceFatal(cache: map<string, ClassInfo>, decl: MarkerDecl, reflected: ClassInfo, again: ClassInfo)
    requires ReflectStep(cache, decl, reflected).Ok?
    requires again.methods != []
    ensures ReflectStep(ReflectStep(cache, decl, reflected).value, decl, again) == Err(AlreadyInCache(again.name))
  {
  }

  /// Injection before reflection stops the tool: an implementation that
  /// is not cached cannot be looked up.
  lemma InjectBeforeReflectFatal(cache: map<string, ClassInfo>, decl: MarkerDecl, args: seq<Arg>)
    requires ParseSettings(decl).Ok? && ImplIsRecord(ParseSettings(decl).value)
    requires ParseSettings(decl).value.implName !in cache
    ensures StorageStep(cache, decl, args) == Err(NotInCache(ParseSettings(decl).value.implName))
    ensures MethodCallsStep(cache, decl, args) == Err(NotInCache(ParseSettings(decl).value.implName))
  {
  }

  /// After a reflection that kept some methods, a storage marker with the
  /// same settings and accepted arguments prints the storage member for
  /// the reflected size plus padding and the reflected alignment, and a
  /// method-call marker prints the snippets of the kept methods.
  lemma InjectAfterReflect(cache: map<string, ClassInfo>, decl: MarkerDecl, reflected: ClassInfo,
                           marker: MarkerDecl, args: seq<Arg>)
    requires ReflectStep(cache, decl, reflected).Ok?
    requires CleanedMethods(reflected.methods) != []
    requires ParseSettings(marker) == ParseSettings(decl)
    ensures SizePadding(args, 0).Ok? ==>
              StorageStep(ReflectStep(cache, decl, reflected).value, marker, args)
              == Ok(StorageText(ParseSettings(decl).value.implName,
                                TypeSize(reflected.recordSize, SizePadding(args, 0).value),
                                FieldAlign(reflected.nonVirtualAlignment)))
    ensures WithoutMethodBody(args, false).Ok? ==>
              MethodCallsStep(ReflectStep(cache, decl, reflected).value, marker, args)
              == Ok(MethodCallsText(ParseSettings(marker).value, CleanedMethods(reflected.methods),
                                    WithoutMethodBody(args, false).value))
  {
  }

  /// A reflection whose methods are all skipped is accepted (the source
  /// only logs it), and the failure comes later: every injection for that
  /// implementation stops on the empty method list.
  lemma AllSkippedDefersFailure(cache: map<string, ClassInfo>, decl: MarkerDecl, reflected: ClassInfo,
                                marker: MarkerDecl, args: seq<Arg>)
    requires ParseSettings(decl).Ok? && ImplIsRecord(ParseSettings(decl).value)
    requires ParseSettings(decl).value.implName !in cache
    requires reflected.methods != [] && CleanedMethods(reflected.methods) == []
    requires ParseSettings(marker) == ParseSettings(decl)
    ensures ReflectStep(cache, decl, reflected).Ok?
    ensures StorageStep(ReflectStep(cache, decl, reflected).value, marker, args) == Err(NoMethods(reflected.name))
    ensures MethodCallsStep(ReflectStep(cache, decl, reflected).value, marker, args) == Err(NoMethods(reflected.name))
  {
  }

  // ---------------------------------------------------------------------
  // The tool

  /// pimplTooling with its reflection cache. The handlers take the parsed
  /// marker declaration and annotation arguments; reflectForPimpl also
  /// takes the class the reflector returns for the implementation type.
  /// Each returns the text that replaces the marker.
  class PimplTooling {

    /// reflectionCache_: reflected implementation classes by type name.
    var reflectionCache: map<string, ClassInfo>

    ghost predicate Valid()
      reads this
    {
      CacheHoldsKept(reflectionCache)
    }

    constructor ()
      ensures reflectionCache == map[]
      ensures Valid()
    {
      reflectionCache := map[];
    }

    /// reflectFromCache.
    method ReflectFromCache(settings: Settings) returns (r: Result<ClassInfo, Fatal>)
      ensures r == CacheLookup(reflectionCache, settings.implName)
    {
      if settings.implName in reflectionCache {
        r := Ok(reflectionCache[settings.implName]);
      } else {
        r := Err(NotInCache(settings.implName));
      }
    }

    /// The opening of injectPimplStorage and injectPimplMethodCalls.
    method CachedClassFor(decl: MarkerDecl) returns (r: Result<(Settings, ClassInfo), Fatal>)
      ensures r == CachedClass(reflectionCache, decl)
    {
      var settings := GetReflectForPimplSettings(decl);
      if settings.Err? {
        return Err(settings.error);
      }
      var s := settings.value;
      if s.implType.None? || !s.implType.value.isRecord {
        return Err(ImplNotARecord);
      }
      var reflectedClass := ReflectFromCache(s);
      if reflectedClass.Err? {
        return Err(reflectedClass.error);
      }
      var c := reflectedClass.value;
      if c.methods == [] {
        return Err(NoMethods(c.name));
      }
      return Ok((s, c));
    }

    /// injectPimplStorage.
    method InjectPimplStorage(decl: MarkerDecl, args: seq<Arg>) returns (r: Result<string, Fatal>)
      ensures r == StorageStep(reflectionCache, decl, args)
    {
      var cached := CachedClassFor(decl);
      if cached.Err? {
        return Err(cached.error);
      }
      var (s, reflectedClass) := cached.value;
      var extraSizeBytes := ParseStorageArgs(args);
      if extraSizeBytes.Err? {
        return Err(extraSizeBytes.error);
      }
      var typeSize := TypeSize(reflectedClass.recordSize, extraSizeBytes.value);
      var fieldAlign := FieldAlign(reflectedClass.nonVirtualAlignment);
      var replacer := "";
      replacer := replacer + STORAGE_HEAD;
      assert replacer == STORAGE_HEAD;
      replacer := replacer + s.implName;
      replacer := replacer + SIZE_TAG;
      replacer := replacer + NatToString(typeSize);
      replacer := replacer + ALIGNMENT_TAG;
      replacer := replacer + NatToString(fieldAlign);
      replacer := replacer + SIZE_POLICY;
      replacer := replacer + ALIGN_POLICY;
      replacer := replacer + STORAGE_TAIL;
      assert replacer == StorageText(s.implName, typeSize, fieldAlign);
      return Ok(replacer);
    }

    /// injectPimplMethodCalls.
    method InjectPimplMethodCalls(decl: MarkerDecl, args: seq<Arg>) returns (r: Result<string, Fatal>)
      ensures r == MethodCallsStep(reflectionCache, decl, args)
    {
      var cached := CachedClassFor(decl);
      if cached.Err? {
        return Err(cached.error);
      }
      var (s, reflectedClass) := cached.value;
      var withoutMethodBody := ParseMethodCallsArgs(args);
      if withoutMethodBody.Err? {
        return Err(withoutMethodBody.error);
      }
      var replacer := GenerateMethodCalls(s, reflectedClass.methods, withoutMethodBody.value);
      return Ok(replacer);
    }

    /// reflectForPimpl: `reflected` is what the reflector returns for the
    /// implementation type. On success the marker is replaced by nothing.
    method ReflectForPimpl(decl: MarkerDecl, reflected: ClassInfo) returns (r: Result<string, Fatal>)
      requires Valid()
      modifies this
      ensures Valid()
      ensures forall k :: k in old(reflectionCache) ==>
                k in reflectionCache && reflectionCache[k] == old(reflectionCache)[k]
      ensures ReflectStep(old(reflectionCache), decl, reflected).Ok? ==>
                r == Ok("") && reflectionCache == ReflectStep(old(reflectionCache), decl, reflected).value
      ensures ReflectStep(old(reflectionCache), decl, reflected).Err? ==>
                r == Err(ReflectStep(old(reflectionCache), decl, reflected).error)
                && reflectionCache == old(reflectionCache)
    {
      var settings := GetReflectForPimplSettings(decl);
      if settings.Err? {
        return Err(settings.error);
      }
      var s := settings.value;
      if s.implType.None? || !s.implType.value.isRecord {
        return Err(ImplNotARecord);
      }
      var reflectedClass := reflected;
      if reflectedClass.methods == [] {
        return Err(NoMethods(reflectedClass.name));
      }
      var cleanedMethods := FilterMethods(reflectedClass.methods);
      reflectedClass := reflectedClass.(methods := cleanedMethods);
      // An empty list here is only logged.
      if s.implName in reflectionCache {
        return Err(AlreadyInCache(reflectedClass.name));
      }
      ReflectKeepsCache(reflectionCache, decl, reflected);
      reflectionCache := reflectionCache[s.implName := reflectedClass];
      return Ok("");
    }
  }
}
