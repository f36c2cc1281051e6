# flex_pimpl_plugin, modelled in Dafny

flex_pimpl_plugin is a Clang-based code generator for the "fast PImpl" idiom.
An interface class such as `example_interface::Foo` holds its implementation
`example_impl::FooImpl` in a fixed-size `::pimpl::FastPimpl<...> impl_` member
and forwards every call to it. The user writes empty marker classes. Their
template parameters name the implementation (`impl`) and, optionally, the
interface (`interface`), and their annotations select a handler:

- `_reflectForPimpl()` reflects the implementation class once. Its methods are
  stored, minus those annotated `skip_pimpl`, in the tool's reflection cache
  under the implementation's type name. The marker is replaced by nothing.
- `_injectPimplStorage("sizePadding = N")` looks the class up and replaces the
  marker with the storage member. The size is the record size plus the padding,
  and the alignment is the class's non-virtual alignment.
- `_injectPimplMethodCalls(...)` looks the class up and replaces the marker
  with one declaration per eligible method (with `"without_method_body"`) or
  one definition whose body forwards the call to `impl_`. The method name is
  qualified by `Interface::` when the marker names an interface, whichever of
  the two is printed.

Modules of the model:

- `Reflection` (reflection.dfy): the reflected class and method records the
  generator consumes.
- `Text` (text.dfy): the joins, prefix and suffix tests, ASCII case folding, and
  the decimal conversions (`std::to_string`, `base::StringToInt`).
- `Bitmask`, `ForwardingOptions`, `TrailingOptions` (method_printer_options.dfy):
  the printers' option masks, as 32-bit vectors.
- `CodeGenerator` (code_generator.dfy): the joiners, `isPimplMethod`, the two
  method printers and `exatractTypeName`. Each looping printer is a method proved
  equal to a specification function. The lemmas state which words are printed,
  in which order, and how forwarded arguments look.
- `Tooling` (tooling.dfy): settings parsing, argument parsing, the method filter,
  the storage and forwarding-method text, and the three handlers. The handlers
  are methods of the class `PimplTooling`, whose field `reflectionCache` is the
  tool's `reflectionCache_`. Each handler is proved equal to a step function on
  the cache; the lemmas relate the steps to each other.
- `Scenario` (scenario.dfy): the repository's own example (`FooImpl`, `Foo.hpp`,
  `Foo.cc`) carried through reflection, storage, declarations and definitions.

Every CHECK in the handlers stops the tool. Here a CHECK is an `Err` carrying a
`Fatal` that names the check, and a handler changes nothing on that path.
The DCHECKs are modelled with release-build semantics: they are not evaluated,
except the one in printMethodForwarding that forbids asking for the return type
of a constructor or destructor. That one is a precondition, and the lemma
`EligibleMethodsAdmitReturnType` shows that every caller meets it.

## Model

| member | source | states |
|---|---|---|
| Text.JoinFront | src/CodeGenerator.cc:76-90 | A list of two or more items joins as the first item, one separator, then the join of the rest: the separator goes only between items. |
| Text.JoinPair | src/CodeGenerator.cc:76-90 | Two items are joined with exactly one separator between them. |
| Text.JoinEnds | src/CodeGenerator.cc:118-139 | A non-empty joined list starts with its first item and ends with its last, with no leading or trailing separator. |
| Text.StringToInt | src/Tooling.cc:613-619 | A converted value lies in the `int` range, and the text it came from is non-empty and starts with a digit or a sign. |
| Text.NatToStringDigits | src/Tooling.cc:659-665 | `std::to_string` of a size gives a non-empty string of digits with no leading zero (except for 0) that reads back as the same number. |
| Text.NatToStringRoundTrip | src/Tooling.cc:613-619 | Any non-negative value within `int` range, printed in decimal, converts back to itself. |
| Text.NegatedRoundTrip | src/Tooling.cc:613-619 | A minus sign followed by what `std::to_string` prints for any magnitude from 1 to 2^31 converts back to the negated value. |
| Text.LeadingSpaceRejected | src/Tooling.cc:613-619 | A value with a leading blank does not convert, so the CHECK after the conversion stops the tool. |
| ForwardingOptions.Layout | include/flex_pimpl_plugin/CodeGenerator.hpp:55-74 | The five forwarding options occupy bits 1 to 5, and ALL is exactly their union. |
| TrailingOptions.Layout | include/flex_pimpl_plugin/CodeGenerator.hpp:86-108 | The six trailing options occupy bits 1 to 6, and ALL includes BODY. |
| CodeGenerator.ExpandTemplateNames | src/CodeGenerator.cc:60-74 | The loop's output is the method template's parameter names, separated by ", ". |
| CodeGenerator.MethodParamDecls | src/CodeGenerator.cc:76-90 | The loop's output is the parameters' full declarations, separated by ", ". |
| CodeGenerator.ForwardMethodParamNames | src/CodeGenerator.cc:118-139 | The loop's output is the forwarded argument of each parameter, separated by ", ". |
| CodeGenerator.ForwardedNames | src/CodeGenerator.cc:118-139 | There is one forwarded argument per parameter, in order. A parameter whose type can be moved or is an rvalue reference is passed as `std::move(name)`; any other is passed by its bare name. |
| CodeGenerator.ForwardedArgumentsShape | src/CodeGenerator.cc:118-139 | The joined argument list starts with the first forwarded argument and ends with the last, with no separator before or after. |
| CodeGenerator.IsPimplMethod | src/CodeGenerator.cc:92-116 | A method is eligible if and only if it is not implicit, not an operator, not a constructor and not a destructor. |
| CodeGenerator.EligibleMethodsAdmitReturnType | src/CodeGenerator.cc:92-116 | An eligible method is never a constructor or destructor, so the return-type DCHECK holds. Implicit, operator, constructor and destructor methods are never eligible. |
| CodeGenerator.ForwardingSteps | src/CodeGenerator.cc:167-241 | The forwarding text is built from five conditional appends, in the order explicit, virtual, constexpr, static, return type. Each append adds the word and the separator exactly when its bit and the method's property are both set. |
| CodeGenerator.TrailingSteps | src/CodeGenerator.cc:284-352 | The trailing words are built from five conditional appends, in the order const, noexcept, `= 0`, `= delete`, `= default`, each under its bit and the method's property. |
| CodeGenerator.PrintMethodForwarding | src/CodeGenerator.cc:141-253 | The result is the forwarding words allowed by both the mask and the method, in the documented order, each followed by the separator. A return type is only requested for methods that are neither constructor nor destructor. |
| CodeGenerator.PrintMethodTrailing | src/CodeGenerator.cc:255-390 | The result is the allowed trailing words, each followed by the separator, then the body clause. Under BODY the clause is the inline body if the method is defined in the class, otherwise ";". Without BODY it is empty. |
| CodeGenerator.ForwardingWords | src/CodeGenerator.cc:152-250 | Each of explicit, virtual, constexpr, static and the return type is printed if and only if its option bit is set and the method has the property. |
| CodeGenerator.ForwardingOrder | include/flex_pimpl_plugin/CodeGenerator.hpp:124-128 | The forwarding words are only forwarding specifiers, always in strictly increasing documented order. |
| CodeGenerator.ForwardingNothing | include/flex_pimpl_plugin/CodeGenerator.hpp:57 | With the mask NOTHING the forwarding printer prints the empty string. |
| CodeGenerator.NoReturnTypeForCtorOrDtor | src/CodeGenerator.cc:223-250 | A well-formed constructor or destructor never gets a return type, whatever the mask. |
| CodeGenerator.TrailingWords | src/CodeGenerator.cc:264-352 | Each of const, noexcept, `= 0`, `= delete` and `= default` is printed if and only if its option bit is set and the method has the property. |
| CodeGenerator.TrailingOrder | include/flex_pimpl_plugin/CodeGenerator.hpp:157-160 | The trailing words are only trailing specifiers, always in strictly increasing documented order. |
| CodeGenerator.TrailingNothing | src/CodeGenerator.cc:264-381 | With the mask NOTHING the trailing printer prints the empty string: no word, and no body clause because BODY is unset. |
| CodeGenerator.AllOptions | include/flex_pimpl_plugin/CodeGenerator.hpp:139-177 | With the default mask ALL, each printer prints exactly the words the method has. The trailing printer always ends with the inline body or ";". |
| CodeGenerator.ExtractTypeName | src/CodeGenerator.cc:396-421 | The result is a suffix of the input. It is shorter exactly when the input starts with "struct " or "record " in any ASCII case, and then exactly that prefix is removed. |
| CodeGenerator.StripsOnePrefix | src/CodeGenerator.cc:396-421 | Only one prefix is removed: "struct " (or "record ", in either case) before any text leaves that text, even if it begins with another prefix. |
| Tooling.GetReflectForPimplSettings | src/Tooling.cc:72-178 | The loop returns the settings read parameter by parameter, or the first failed check in parameter order. Checks: not a template, empty list, pack, non-type, not `typename`, no default, empty type name, unknown name. |
| Tooling.ApplyParamOkIff | src/Tooling.cc:120-172 | One template parameter passes exactly when it is a single type parameter declared with `typename` that has a default, is called `impl` or `interface`, and names a non-empty type. |
| Tooling.ApplyParamsOkIff | src/Tooling.cc:120-172 | The parameter loop succeeds if and only if every parameter passes every check. |
| Tooling.SettingsAcceptedIff | src/Tooling.cc:90-172 | The settings are read if and only if the marker is a class template whose parameter list is non-empty and whose every parameter is accepted. |
| Tooling.ApplyParamsUntouched | src/Tooling.cc:138-157 | Without an `impl` parameter the implementation name and type keep their previous values; likewise for `interface`. |
| Tooling.ApplyParamsLastImpl | src/Tooling.cc:138-147 | The implementation name and type come from the last `impl` parameter, with its "struct "/"record " prefix removed. |
| Tooling.ApplyParamsLastInterface | src/Tooling.cc:148-157 | The interface name and type come from the last `interface` parameter, with its prefix removed. |
| Tooling.ParseStorageArgs | src/Tooling.cc:604-630 | The argument loop of injectPimplStorage returns the padding, or the first failure: an unknown argument or a value that does not convert. |
| Tooling.SizePaddingSpec | src/Tooling.cc:604-630 | The storage arguments parse if and only if each is blank or a convertible `sizePadding`. With no `sizePadding` the padding is 0; otherwise it is the value of the last one. |
| Tooling.ParseMethodCallsArgs | src/Tooling.cc:749-769 | The argument loop of injectPimplMethodCalls returns the flag, or the first unknown argument. |
| Tooling.WithoutMethodBodySpec | src/Tooling.cc:749-769 | The arguments parse if and only if each is blank or has the value `without_method_body`. The flag is set exactly when one of them has that value. |
| Tooling.FilterMethods | src/Tooling.cc:918-971 | The filter loop keeps, in order, the methods that have a declaration and whose annotation does not start with `skip_pimpl`. |
| Tooling.CleanedMembership | src/Tooling.cc:918-971 | A method survives the filter if and only if it was in the list and is kept. |
| Tooling.CleanedAppend | src/Tooling.cc:918-971 | Filtering distributes over concatenation, so relative order is preserved. |
| Tooling.CleanedIdempotent | src/Tooling.cc:918-971 | Filtering twice is filtering once, and it never lengthens the list. |
| Tooling.CleanedOfKept | src/Tooling.cc:918-971 | A list of kept methods passes the filter unchanged. |
| Tooling.TypeSizeArithmetic | src/Tooling.cc:646-651 | The storage size is the record size plus the padding when the sum fits in 64 bits; a negative sum wraps around modulo 2^64. |
| Tooling.StorageTextFields | src/Tooling.cc:652-671 | The storage member starts with `::pimpl::FastPimpl<`, the implementation name and the size tag, and ends with the two AtLeast policies and `> impl_;`. Its size and alignment numerals read back as the size and the alignment. |
| Tooling.PrintSignature | src/Tooling.cc:806-826 | The appended text is the template head (only for a method template), then the declarator. |
| Tooling.PrintDeclarator | src/Tooling.cc:790-826 | The appended text is, in order: the forwarding words under the definition mask, a blank, `Interface::` when an interface is named, the name, the parameter list, a blank, and the trailing words under the definition mask. |
| Tooling.PrintEnding | src/Tooling.cc:828-845 | A declaration ends with ";" and a newline. A definition ends with a brace-enclosed body whose one statement returns `impl_->name(forwarded arguments)`. |
| Tooling.GenerateMethodCalls | src/Tooling.cc:782-848 | The method loop prints, in order, the snippet of each eligible method and nothing for the others. |
| Tooling.MaskBits | src/Tooling.cc:790-805 | The definition masks allow every forwarding word except `virtual`, and of the trailing options only CONST and NOEXCEPT; BODY is not among them. |
| Tooling.DefinitionWords | src/Tooling.cc:790-805 | Generated methods never carry `virtual`, `= 0`, `= delete`, `= default` or a body clause. They carry explicit, constexpr, static, the return type, const and noexcept exactly when the method does. |
| Tooling.MethodCallsAppend | src/Tooling.cc:782-848 | The text for a concatenation of method lists is the concatenation of their texts. |
| Tooling.MethodCallsIneligible | src/Tooling.cc:786-789 | A list of ineligible methods prints nothing. |
| Tooling.MethodCallsSingle | src/Tooling.cc:782-848 | One method prints its snippet if it is eligible, and nothing otherwise. |
| Tooling.SnippetStartsWithSignature | src/Tooling.cc:806-848 | Each method's snippet starts with its signature. |
| Tooling.TemplateSnippet | src/Tooling.cc:806-811 | A method template's snippet starts with `template<`. |
| Tooling.DeclarationEnding | src/Tooling.cc:842-845 | A declaration snippet ends with ";" and a newline. |
| Tooling.DefinitionEnding | src/Tooling.cc:828-841 | A definition snippet ends with the forwarding call and the closing brace. |
| Tooling.ReflectSpec | src/Tooling.cc:882-996 | Reflection succeeds if and only if the settings parse, the implementation is a record, the reflected class has methods and its name is not cached. The cache then gains exactly that key, holding the filtered class, and every other entry is unchanged. |
| Tooling.ReflectKeepsCache | src/Tooling.cc:918-996 | If every cached class holds only kept methods, the same holds after a successful reflection. No entry already in the cache is replaced or removed. |
| Tooling.ReflectThenLookup | src/Tooling.cc:980-996 | After a reflection, looking up the implementation name returns the reflected class with its filtered methods. |
| Tooling.ReflectTwiceFatal | src/Tooling.cc:980-989 | Reflecting the same implementation a second time stops the tool with "already in cache". |
| Tooling.InjectBeforeReflectFatal | src/Tooling.cc:291-319 | Injecting storage or methods for an implementation that is not cached stops the tool with "not in cache". |
| Tooling.InjectAfterReflect | src/Tooling.cc:576-583 | After a reflection that kept methods, any marker with the same settings injects the storage text for the class's size, padding and alignment, or the method text for the filtered methods. |
| Tooling.AllSkippedDefersFailure | src/Tooling.cc:973-978 | When every method is skipped, reflection still succeeds (the empty list is only logged), but every later injection for that class stops the tool with "no methods". |
| Tooling.PimplTooling.constructor | include/flex_pimpl_plugin/Tooling.hpp:99-102 | A new tool starts with an empty reflection cache, which holds only kept methods. |
| Tooling.PimplTooling.ReflectFromCache | src/Tooling.cc:291-319 | Returns the cached class for the implementation name, or stops the tool with "not in cache". |
| Tooling.PimplTooling.CachedClassFor | src/Tooling.cc:557-583 | Returns the settings and the cached class. Fails on a settings check, an implementation that is not a record, a cache miss, or a class without methods, in that order. |
| Tooling.PimplTooling.InjectPimplStorage | src/Tooling.cc:535-681 | injectPimplStorage returns the storage step's outcome: the storage text for the cached class, or the first failed check. The cache is not modified. |
| Tooling.PimplTooling.InjectPimplMethodCalls | src/Tooling.cc:683-858 | injectPimplMethodCalls returns the method-calls step's outcome: the snippets of the cached eligible methods, or the first failed check. The cache is not modified. |
| Tooling.PimplTooling.ReflectForPimpl | src/Tooling.cc:860-1006 | On success the marker is replaced by "" and the cache becomes the reflection step's new cache. On any failed check the tool stops and the cache is left unchanged. Either way every cached class still holds only kept methods, and every entry already cached stays as it was. |
| Scenario.NamesKept | src/CodeGenerator.cc:396-421 | The example's type names carry no "struct "/"record " prefix and are kept as printed. |
| Scenario.ImplSettings | tests/FooImpl.hpp:29-32 | A marker with only `impl = example_impl::FooImpl` yields that implementation and no interface, whatever the marker is called. |
| Scenario.InterfaceSettings | tests/Foo.cc:32-38 | The marker in Foo.cc yields both the implementation and the interface `example_interface::Foo`. |
| Scenario.ReflectFooImpl | tests/FooImpl.hpp:9-32 | Reflecting FooImpl into the empty cache stores it under `example_impl::FooImpl` without the skipped `bar`. |
| Scenario.ReflectFooImplTwice | src/Tooling.cc:980-989 | Reflecting FooImpl again stops the tool with "already in cache FooImpl". |
| Scenario.FooCached | tests/Foo.hpp:30-53 | The impl-only markers in Foo.hpp find FooImpl in the cache with its four remaining methods. |
| Scenario.FooCachedWithInterface | tests/Foo.cc:30-38 | The marker in Foo.cc finds the same class, read with both the impl and the interface settings. |
| Scenario.FooStorage | tests/Foo.hpp:45-53 | `sizePadding = 8` on a 40-byte class aligned to 8 gives `::pimpl::FastPimpl<example_impl::FooImpl, /*Size*/48, /*Alignment*/8, ::pimpl::SizePolicy::AtLeast, ::pimpl::AlignPolicy::AtLeast> impl_;`. |
| Scenario.FooWords | tests/FooImpl.hpp:16 | Under the definition masks `foo` gets `int ` before its name and `const noexcept ` after its parameters. |
| Scenario.FooLists | tests/FooImpl.hpp:16 | `foo`'s parameters are declared as `int&& arg1, const int& arg2` and forwarded as `std::move(arg1), arg2`. |
| Scenario.FooParamDecls | tests/FooImpl.hpp:16 | `foo`'s parameters are declared as `int&& arg1` and `const int& arg2`. |
| Scenario.FooForwardedNames | tests/FooImpl.hpp:16 | `foo`'s rvalue-reference `arg1` is forwarded as `std::move(arg1)`, and `arg2` as itself. |
| Scenario.BazWords | tests/FooImpl.hpp:18 | `baz` gets `const std::string ` before its name, no trailing words, and empty parameter and argument lists. |
| Scenario.DeclarationLayout | src/Tooling.cc:806-845 | A non-template method printed without an interface is its forwarding words, a blank, its name and parameter list, a blank, its trailing words, ";" and a newline. |
| Scenario.DefinitionLayout | src/Tooling.cc:806-845 | A non-template method printed with an interface is the same head qualified by `Interface::`, followed by a body that returns the forwarded call. |
| Scenario.FooDeclaration | tests/Foo.hpp:26-36 | The declaration of `foo` is `int  foo(int&& arg1, const int& arg2) const noexcept ;` and a newline (two blanks after the return type). |
| Scenario.BazDeclaration | tests/Foo.hpp:26-36 | The declaration of `baz` is `const std::string  baz() ;` and a newline. |
| Scenario.FooDefinition | tests/Foo.cc:30-38 | The definition of `example_interface::Foo::foo` forwards `std::move(arg1), arg2` to `impl_->foo`. |
| Scenario.BazDefinition | tests/Foo.cc:30-38 | The definition of `example_interface::Foo::baz` forwards an empty argument list to `impl_->baz`. |
| Scenario.CachedMethodsText | tests/FooImpl.hpp:12-18 | Of the cached constructor, destructor, `foo` and `baz`, only `foo` and `baz` are printed, in that order. |
| Scenario.FooDeclarations | tests/Foo.hpp:30-36 | The method-declarations marker is replaced by the declarations of `foo` and `baz`. |
| Scenario.FooDefinitions | tests/Foo.cc:32-38 | The method-definitions marker is replaced by the definitions of `Foo::foo` and `Foo::baz`. |

## Notes on the code's behaviour

Four consequences of the code that are easy to miss. The model follows the code in each.

- Reflection checks for an empty method list only before filtering (src/Tooling.cc:914-916). An empty list after filtering is only logged (src/Tooling.cc:973-978). Reflection then succeeds, and the failure surfaces at the next injection's "no methods" check (src/Tooling.cc:581-583 and 729-731; `AllSkippedDefersFailure`).
- The filter drops only methods without a declaration and methods whose annotation starts with `skip_pimpl` (src/Tooling.cc:918-971). Constructors and destructors therefore stay in the cache. `isPimplMethod` excludes them later, when the method calls are printed (src/Tooling.cc:786-790; `CachedMethodsText`).
- The forwarding printer ends every word it prints with the separator (src/CodeGenerator.cc:171-236). The generator then appends another blank before the name and one after the parameter list (src/Tooling.cc:813-828). A declaration therefore reads `int  foo(int&& arg1, const int& arg2) const noexcept ;`, with two blanks after the return type and one before ";" (`FooDeclaration`).
- A return type requested for a constructor or destructor is checked only by a DCHECK (src/CodeGenerator.cc:223-229). The model makes it a precondition of `PrintMethodForwarding`, and `EligibleMethodsAdmitReturnType` shows that every caller meets it.

## Left out

- Source rewriting (`replaceWith`, `findSemiAfterLocation`, src/Tooling.cc:370-533) is not modelled, including skipping files other than the main file. Each handler returns its replacement text ("" for reflection) rather than editing a Clang rewriter.
- `reflectOrGetFromCache` (src/Tooling.cc:321-367) is not called by the three handlers and is not modelled.
- The tool's constructor arguments, Cling interpreter and path service (src/Tooling.cc:180-284) are not modelled. The model's constructor only creates the empty cache.
- AST reflection (flexlib's `AstReflector::ReflectClass`) is outside the model. The reflected `ClassInfo` is a parameter of `ReflectForPimpl`, and its record size and alignment are inputs.
- Clang's type printer is outside the model. A default template argument arrives as its printed text plus whether it names a record.
- A marker without an `impl` parameter leaves the implementation type null in the source, and the record CHECK then dereferences it. The model reports this case as the failed record check `ImplNotARecord`.
- DCHECKs, VLOG/DVLOG logging and the sequence checker are not modelled (release-build semantics). One consequence: a repeated `sizePadding` or `without_method_body` argument is accepted, and the last one wins.
- `base::StringToInt` is modelled as a strict decimal parser: optional sign, at least one digit, nothing else, within `int` range. Its partial result on failure is not modelled, because the CHECK stops the tool.
- Integer widths: `typeSize` is the record size plus the padding modulo 2^64, as the uint64_t conversion gives, and `fieldAlign` is the alignment modulo 2^32, as the `unsigned` field gives. No other integer width is modelled.
- The example's record size (40 bytes) and alignment (8) depend on the compiler's `std::string`. They are illustrative inputs, not values read from the source.
- Plugin registration, the event handler and the command-line entry point (src/plugin_main.cc, src/EventHandler.cc) are not part of this model.
