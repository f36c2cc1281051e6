/// The example of the repository's tests: the implementation class
/// example_impl::FooImpl is reflected once, then the interface class
/// example_interface::Foo receives its storage member, its method
/// declarations and, in the source file, its method definitions.
module Scenario {

  import opened Wrappers
  import opened Reflection
  import opened Text
  import opened CodeGenerator
  import opened Tooling

  const IMPL_NAME: string := "example_impl::FooImpl"
  const INTERFACE_NAME: string := "example_interface::Foo"

  function Method(name: string, isCtor: bool, isDtor: bool, isConst: bool, isNoExcept: bool,
                  returnType: Option<TypeInfo>, params: seq<MethodParamInfo>,
                  annotation: Option<string>): MethodInfo
  {
    MethodInfo(name, false, false, isCtor, isDtor, false, false, false, false, isConst, isNoExcept,
               false, false, false, false, false, false, returnType, params, [], "", annotation, true)
  }

  /// `FooImpl();`
  const CTOR: MethodInfo := Method("FooImpl", true, false, false, false, None, [], None)
  /// `~FooImpl();`
  const DTOR: MethodInfo := Method("~FooImpl", false, true, false, false, None, [], None)
  /// `int foo(int&& arg1, const int& arg2) const noexcept;`
  const FOO: MethodInfo :=
    Method("foo", false, false, true, true, Some(TypeInfo("int", false, false)),
           [MethodParamInfo("arg1", "int&& arg1", TypeInfo("int&&", false, true)),
            MethodParamInfo("arg2", "const int& arg2", TypeInfo("const int&", false, false))],
           None)
  /// `const std::string baz();`
  const BAZ: MethodInfo :=
    Method("baz", false, false, false, false, Some(TypeInfo("const std::string", false, false)), [], None)
  /// `_skipForPimpl() int bar(int a);`
  const BAR: MethodInfo :=
    Method("bar", false, false, false, false, Some(TypeInfo("int", false, false)),
           [MethodParamInfo("a", "int a", TypeInfo("int", false, false))],
           Some("skip_pimpl"))

  /// The reflected FooImpl, with an illustrative size of 40 and alignment of 8.
  const FOO_IMPL: ClassInfo := ClassInfo("FooImpl", 40, 8, [CTOR, DTOR, FOO, BAZ, BAR])

  function TypeParam(name: string, printed: string): TemplateParam
  {
    TemplateParam(name, false, true, true, Some(TypeArg(printed, true)))
  }

  /// A marker whose only template parameter is
  /// `typename impl = example_impl::FooImpl`.
  function ImplMarker(name: string): MarkerDecl
  {
    MarkerDecl(name, Some([TypeParam("impl", IMPL_NAME)]))
  }

  /// The marker in FooImpl.hpp and the two markers in Foo.hpp.
  const REFLECT_MARKER: MarkerDecl := ImplMarker("PimplReflector")
  const STORAGE_MARKER: MarkerDecl := ImplMarker("PimplStorageInjector")
  const DECLARATIONS_MARKER: MarkerDecl := ImplMarker("PimplMethodDeclsInjector")
  /// The marker in Foo.cc, which also names the interface.
  const DEFINITIONS_MARKER: MarkerDecl :=
    MarkerDecl("PimplMethodCallsInjector", Some([TypeParam("impl", IMPL_NAME), TypeParam("interface", INTERFACE_NAME)]))

  /// The settings read from the markers with "impl" only, and from the
  /// one that also names the interface.
  const IMPL_SETTINGS: Settings := Settings(IMPL_NAME, Some(TypeArg(IMPL_NAME, true)), "", None)
  const INTERFACE_SETTINGS: Settings :=
    Settings(IMPL_NAME, Some(TypeArg(IMPL_NAME, true)), INTERFACE_NAME, Some(TypeArg(INTERFACE_NAME, true)))

  /// The cache once FooImpl is reflected.
  const REFLECTED: map<string, ClassInfo> := map[IMPL_NAME := FOO_IMPL.(methods := [CTOR, DTOR, FOO, BAZ])]

  /// Neither type name starts with "struct " or "record ", so both are
  /// kept as printed.
  lemma NamesKept()
    ensures ExtractTypeName(IMPL_NAME) == IMPL_NAME
    ensures ExtractTypeName(INTERFACE_NAME) == INTERFACE_NAME
  {
    assert LowerAscii(IMPL_NAME[0]) != LowerAscii(STRUCT_PREFIX[0]);
    assert LowerAscii(IMPL_NAME[0]) != LowerAscii(RECORD_PREFIX[0]);
    assert LowerAscii(INTERFACE_NAME[0]) != LowerAscii(STRUCT_PREFIX[0]);
    assert LowerAscii(INTERFACE_NAME[0]) != LowerAscii(RECORD_PREFIX[0]);
  }

  /// Whatever the marker is called, its "impl" parameter alone gives the
  /// implementation's name and type and no interface.
  lemma ImplSettings(name: string)
    ensures ParseSettings(ImplMarker(name)) == Ok(IMPL_SETTINGS)
  {
    var p := TypeParam("impl", IMPL_NAME);
    assert [p][1..] == [];
    NamesKept();
    assert ApplyParam(NO_SETTINGS, p) == Ok(IMPL_SETTINGS);
    assert ApplyParams(IMPL_SETTINGS, []) == Ok(IMPL_SETTINGS);
    assert ApplyParams(NO_SETTINGS, [p]) == Ok(IMPL_SETTINGS);
  }

  /// The marker in Foo.cc gives both names.
  lemma InterfaceSettings()
    ensures ParseSettings(DEFINITIONS_MARKER) == Ok(INTERFACE_SETTINGS)
  {
    var p := TypeParam("impl", IMPL_NAME);
    var q := TypeParam("interface", INTERFACE_NAME);
    assert DEFINITIONS_MARKER.templateParams.value == [p, q];
    assert [p, q][1..] == [q];
    assert [q][1..] == [];
    NamesKept();
    assert ApplyParam(NO_SETTINGS, p) == Ok(IMPL_SETTINGS);
    assert ApplyParam(IMPL_SETTINGS, q) == Ok(INTERFACE_SETTINGS);
    assert ApplyParams(INTERFACE_SETTINGS, []) == Ok(INTERFACE_SETTINGS);
    assert ApplyParams(IMPL_SETTINGS, [q]) == Ok(INTERFACE_SETTINGS);
  }

  /// Reflecting FooImpl into the empty cache stores it under its type name
  /// without the skipped `bar`.
  lemma ReflectFooImpl()
    ensures ReflectStep(map[], REFLECT_MARKER, FOO_IMPL) == Ok(REFLECTED)
  {
    ImplSettings("PimplReflector");
    assert StartsWith("skip_pimpl", SKIP_PIMPL_ATTR);
    assert CleanedMethods([CTOR, DTOR, FOO, BAZ, BAR]) == [CTOR, DTOR, FOO, BAZ] by {
      var ms := [CTOR, DTOR, FOO, BAZ, BAR];
      assert ms[..4] == [CTOR, DTOR, FOO, BAZ];
      CleanedOfKept([CTOR, DTOR, FOO, BAZ]);
    }
  }

  /// Reflecting it a second time stops the tool.
  lemma ReflectFooImplTwice()
    ensures ReflectStep(REFLECTED, REFLECT_MARKER, FOO_IMPL) == Err(AlreadyInCache("FooImpl"))
  {
    ImplSettings("PimplReflector");
  }

  /// The injection markers find FooImpl, with its four kept methods, in
  /// the cache.
  lemma FooCached(name: string)
    ensures CachedClass(REFLECTED, ImplMarker(name)) == Ok((IMPL_SETTINGS, REFLECTED[IMPL_NAME]))
    ensures REFLECTED[IMPL_NAME].methods == [CTOR, DTOR, FOO, BAZ]
  {
    ImplSettings(name);
  }

  /// The marker in Foo.cc finds the same class, read with the interface
  /// settings.
  lemma FooCachedWithInterface()
    ensures CachedClass(REFLECTED, DEFINITIONS_MARKER) == Ok((INTERFACE_SETTINGS, REFLECTED[IMPL_NAME]))
    ensures REFLECTED[IMPL_NAME].methods == [CTOR, DTOR, FOO, BAZ]
  {
    InterfaceSettings();
  }

  /// `_injectPimplStorage("sizePadding = 8")` in Foo.hpp.
  lemma FooStorage()
    ensures StorageStep(REFLECTED, STORAGE_MARKER, [Arg("sizePadding", "8")])
            == Ok("::pimpl::FastPimpl<" + "example_impl::FooImpl" + ", /*Size*/" + "48" + ", /*Alignment*/" + "8"
                  + ", ::pimpl::SizePolicy::AtLeast" + ", ::pimpl::AlignPolicy::AtLeast" + "> impl_;")
  {
    FooCached("PimplStorageInjector");
    assert StringToInt("8") == Some(8) by {
      assert AllDigits("8");
      assert DigitsValue("8") == 8 by {
        assert "8"[..0] == [];
      }
    }
    assert SizePadding([Arg("sizePadding", "8")], 0) == Ok(8) by {
      assert [Arg("sizePadding", "8")][1..] == [];
    }
    assert NatToString(48) == "48";
    assert NatToString(8) == "8";
    assert TypeSize(40, 8) == 48;
  }

  /// The printers' output for `foo`: its return type, its parameters and
  /// its trailing `const noexcept`.
  lemma FooWords()
    ensures ForwardingText(FOO, SEPARATOR_WHITESPACE, FORWARDING_MASK) == "int "
    ensures TrailingText(FOO, SEPARATOR_WHITESPACE, TRAILING_MASK) == "const noexcept "
  {
    MaskBits();
    ForwardingSteps(FOO, SEPARATOR_WHITESPACE, FORWARDING_MASK);
    TrailingSteps(FOO, SEPARATOR_WHITESPACE, TRAILING_MASK);
  }

  lemma FooLists()
    ensures Join(ParamDecls(FOO.params), SEPARATOR_COMMA_AND_WHITESPACE) == "int&& arg1, const int& arg2"
    ensures Join(ForwardedNames(FOO.params), SEPARATOR_COMMA_AND_WHITESPACE) == "std::move(arg1), arg2"
  {
    FooParamDecls();
    JoinPair("int&& arg1", "const int& arg2", SEPARATOR_COMMA_AND_WHITESPACE);
    FooForwardedNames();
    JoinPair("std::move(arg1)", "arg2", SEPARATOR_COMMA_AND_WHITESPACE);
  }

  /// Each parameter is declared as its printed type and its name.
  lemma FooParamDecls()
    ensures ParamDecls(FOO.params) == ["int&& arg1", "const int& arg2"]
  {
  }

  /// arg1 is an rvalue reference and is moved on; arg2 is passed as is.
  lemma FooForwardedNames()
    ensures ForwardedNames(FOO.params) == ["std::move(arg1)", "arg2"]
  {
    assert ForwardedName(FOO.params[0]) == "std::move(arg1)";
    assert ForwardedName(FOO.params[1]) == "arg2";
  }

  lemma BazWords()
    ensures ForwardingText(BAZ, SEPARATOR_WHITESPACE, FORWARDING_MASK) == "const std::string "
    ensures TrailingText(BAZ, SEPARATOR_WHITESPACE, TRAILING_MASK) == ""
    ensures Join(ParamDecls(BAZ.params), SEPARATOR_COMMA_AND_WHITESPACE) == ""
    ensures Join(ForwardedNames(BAZ.params), SEPARATOR_COMMA_AND_WHITESPACE) == ""
  {
    MaskBits();
    ForwardingSteps(BAZ, SEPARATOR_WHITESPACE, FORWARDING_MASK);
    TrailingSteps(BAZ, SEPARATOR_WHITESPACE, TRAILING_MASK);
  }

  /// The declaration of a method that is not a template, printed without
  /// an interface name, laid out from its printed parts.
  lemma DeclarationLayout(s: Settings, m: MethodInfo, words: string, params: string, trailing: string)
    requires !m.isTemplate && s.interfaceName == ""
    requires ForwardingText(m, SEPARATOR_WHITESPACE, FORWARDING_MASK) == words
    requires Join(ParamDecls(m.params), SEPARATOR_COMMA_AND_WHITESPACE) == params
    requires TrailingText(m, SEPARATOR_WHITESPACE, TRAILING_MASK) == trailing
    ensures Snippet(s, m, true) == words + " " + m.name + "(" + params + ")" + " " + trailing + ";\n"
  {
    assert Qualifier(s) == "" && TemplateHead(m) == "";
    assert words + " " + "" == words + " ";
    assert Signature(s, m) == Declarator(s, m);
    assert Ending(m, true) == ";\n";
  }

  /// The definition of a method that is not a template, qualified by the
  /// interface name, laid out from its printed parts.
  lemma DefinitionLayout(s: Settings, m: MethodInfo, words: string, params: string, trailing: string, names: string)
    requires !m.isTemplate && s.interfaceName != ""
    requires ForwardingText(m, SEPARATOR_WHITESPACE, FORWARDING_MASK) == words
    requires Join(ParamDecls(m.params), SEPARATOR_COMMA_AND_WHITESPACE) == params
    requires TrailingText(m, SEPARATOR_WHITESPACE, TRAILING_MASK) == trailing
    requires Join(ForwardedNames(m.params), SEPARATOR_COMMA_AND_WHITESPACE) == names
    ensures Snippet(s, m, false)
            == words + " " + (s.interfaceName + "::") + m.name + "(" + params + ")" + " " + trailing
               + ("\n{\n" + (" return impl_->" + m.name + "(" + names + ")" + ";") + "\n}\n")
  {
    assert TemplateHead(m) == "";
    assert Signature(s, m) == Declarator(s, m);
    assert ForwardingCall(m) == " return impl_->" + m.name + "(" + names + ")" + ";";
  }

  /// The declaration of `foo` in Foo.hpp,
  /// "int  foo(int&& arg1, const int& arg2) const noexcept ;" and a line
  /// break: the forwarding printer ends the return type with a blank and
  /// the generator adds another.
  lemma FooDeclaration()
    ensures Snippet(IMPL_SETTINGS, FOO, true)
            == "int " + " " + "foo" + "(" + "int&& arg1, const int& arg2" + ")" + " " + "const noexcept " + ";\n"
  {
    FooWords();
    FooLists();
    DeclarationLayout(IMPL_SETTINGS, FOO, "int ", "int&& arg1, const int& arg2", "const noexcept ");
  }

  /// "const std::string  baz() ;" and a line break.
  lemma BazDeclaration()
    ensures Snippet(IMPL_SETTINGS, BAZ, true)
            == "const std::string " + " " + "baz" + "(" + "" + ")" + " " + "" + ";\n"
  {
    BazWords();
    DeclarationLayout(IMPL_SETTINGS, BAZ, "const std::string ", "", "");
  }

  /// The definition of `foo` in Foo.cc: the rvalue-reference argument is
  /// moved on, the other passed as it is.
  lemma FooDefinition()
    ensures Snippet(INTERFACE_SETTINGS, FOO, false)
            == "int " + " " + (INTERFACE_NAME + "::") + "foo" + "(" + "int&& arg1, const int& arg2" + ")" + " "
               + "const noexcept "
               + ("\n{\n" + (" return impl_->" + "foo" + "(" + "std::move(arg1), arg2" + ")" + ";") + "\n}\n")
  {
    FooWords();
    FooLists();
    DefinitionLayout(INTERFACE_SETTINGS, FOO, "int ", "int&& arg1, const int& arg2", "const noexcept ",
                     "std::move(arg1), arg2");
  }

  lemma BazDefinition()
    ensures Snippet(INTERFACE_SETTINGS, BAZ, false)
            == "const std::string " + " " + (INTERFACE_NAME + "::") + "baz" + "(" + "" + ")" + " " + ""
               + ("\n{\n" + (" return impl_->" + "baz" + "(" + "" + ")" + ";") + "\n}\n")
  {
    BazWords();
    DefinitionLayout(INTERFACE_SETTINGS, BAZ, "const std::string ", "", "", "");
  }

  /// Mapping four methods, the first two of which give nothing, gives the
  /// texts of the last two.
  lemma ConcatMapSkipTwo(f: MethodInfo -> string, a: MethodInfo, b: MethodInfo, c: MethodInfo, d: MethodInfo)
    requires f(a) == "" && f(b) == ""
    ensures ConcatMap(f, [a, b, c, d]) == f(c) + f(d)
  {
    ConcatMapSingle(f, a);
    ConcatMapSingle(f, b);
    ConcatMapSingle(f, c);
    ConcatMapSingle(f, d);
    assert [a] + [b] == [a, b];
    ConcatMapAppend(f, [a], [b]);
    assert [c] + [d] == [c, d];
    ConcatMapAppend(f, [c], [d]);
    assert [a, b] + [c, d] == [a, b, c, d];
    ConcatMapAppend(f, [a, b], [c, d]);
  }

  /// Of the cached methods only `foo` and `baz` are printed: the
  /// constructor and the destructor are not eligible.
  lemma CachedMethodsText(s: Settings, withoutMethodBody: bool)
    ensures MethodCallsText(s, [CTOR, DTOR, FOO, BAZ], withoutMethodBody)
            == Snippet(s, FOO, withoutMethodBody) + Snippet(s, BAZ, withoutMethodBody)
  {
    var f := Contribution(s, withoutMethodBody);
    assert !IsPimplMethod(CTOR) && !IsPimplMethod(DTOR) && IsPimplMethod(FOO) && IsPimplMethod(BAZ);
    assert f(CTOR) == "" && f(DTOR) == "";
    ConcatMapSkipTwo(f, CTOR, DTOR, FOO, BAZ);
    assert f(FOO) == Snippet(s, FOO, withoutMethodBody);
    assert f(BAZ) == Snippet(s, BAZ, withoutMethodBody);
  }

  /// `_injectPimplMethodCalls("without_method_body")` in Foo.hpp: the
  /// declarations of `foo` and `baz`, in that order.
  lemma FooDeclarations()
    ensures MethodCallsStep(REFLECTED, DECLARATIONS_MARKER, [Arg("", "without_method_body")])
            == Ok(Snippet(IMPL_SETTINGS, FOO, true) + Snippet(IMPL_SETTINGS, BAZ, true))
  {
    FooCached("PimplMethodDeclsInjector");
    assert WithoutMethodBody([Arg("", "without_method_body")], false) == Ok(true) by {
      assert [Arg("", "without_method_body")][1..] == [];
    }
    CachedMethodsText(IMPL_SETTINGS, true);
  }

  /// `_injectPimplMethodCalls()` in Foo.cc: the definitions of
  /// `example_interface::Foo::foo` and `example_interface::Foo::baz`.
  lemma FooDefinitions()
    ensures MethodCallsStep(REFLECTED, DEFINITIONS_MARKER, [])
            == Ok(Snippet(INTERFACE_SETTINGS, FOO, false) + Snippet(INTERFACE_SETTINGS, BAZ, false))
  {
    FooCachedWithInterface();
    CachedMethodsText(INTERFACE_SETTINGS, false);
  }
}
