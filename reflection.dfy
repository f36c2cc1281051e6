/// The structural description of a class that the generator consumes.
/// In the tool these records are produced by the external AST reflector
/// (flexlib's ReflectClass); here they are plain values, so hand-written
/// fixtures can stand in for a reflected class.
module Reflection {

  import opened Wrappers

  /// The 64-bit unsigned integers that hold a record's layout.
  const UINT64_MODULUS: int := 0x1_0000_0000_0000_0000

  type uint64 = x: int | 0 <= x < UINT64_MODULUS

  /// A reflected type: its printed name and the two properties the
  /// argument forwarder asks about.
  datatype TypeInfo = TypeInfo(printedName: string, canBeMoved: bool, isRVReference: bool)

  /// One parameter of a method: its name, the text it is declared with
  /// ("const int& arg2") and its type.
  datatype MethodParamInfo = MethodParamInfo(name: string, fullDecl: string, paramType: TypeInfo)

  /// One template parameter of a method template, by the name it is re-emitted with.
  datatype TemplateParamInfo = TemplateParamInfo(tplDeclName: string)

  /// One reflected method. `annotation` is the text of the first
  /// annotate-attribute on its declaration, if any; `hasDecl` says whether
  /// the reflector could attach a declaration at all.
  datatype MethodInfo = MethodInfo(
    name: string,
    isImplicit: bool,
    isOperator: bool,
    isCtor: bool,
    isDtor: bool,
    isVirtual: bool,
    isExplicitCtor: bool,
    isConstexpr: bool,
    isStatic: bool,
    isConst: bool,
    isNoExcept: bool,
    isPure: bool,
    isDeleted: bool,
    isDefault: bool,
    isDefined: bool,
    isClassScopeInlined: bool,
    isTemplate: bool,
    returnType: Option<TypeInfo>,
    params: seq<MethodParamInfo>,
    tplParams: seq<TemplateParamInfo>,
    body: string,
    annotation: Option<string>,
    hasDecl: bool)

  /// A reflected class: its name, its size and non-virtual alignment in
  /// bytes, and its methods in declaration order.
  datatype ClassInfo = ClassInfo(
    name: string,
    recordSize: uint64,
    nonVirtualAlignment: nat,
    methods: seq<MethodInfo>)

  /// Constructors and destructors never carry a return type.
  predicate WellFormedMethod(m: MethodInfo)
  {
    (m.isCtor || m.isDtor) ==> m.returnType.None?
  }
}
