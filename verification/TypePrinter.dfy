/** The printed form of types, kclvm/ast/src/ast.rs:1474-1597, and why it determines the type. */
module TypePrinter {
  import opened Wrappers
  import opened Numbers
  import Strings

  datatype BasicType = BoolType | IntType | FloatType | StrType

  datatype LiteralType =
    | BoolLit(b: bool)
    | IntLit(value: int, suffix: Option<Suffix>)
    /** A float by the text Rust displays it with. */
    | FloatLit(text: string)
    | StrLit(text: string)

  datatype ExprContext = Load | Store

  datatype Type =
    | Any
    | Named(names: seq<string>, pkgpath: string, ctx: ExprContext)
    | Basic(basic: BasicType)
    | List(inner: Option<Type>)
    | Dict(key: Option<Type>, value: Option<Type>)
    | Union(elements: seq<Type>)
    | Literal(lit: LiteralType)

  function BasicText(b: BasicType): string
  {
    match b case BoolType => "bool" case IntType => "int" case FloatType => "float" case StrType => "str"
  }

  function IntText(v: int): string
  {
    if v < 0 then "-" + Numeral(-v) else Numeral(v)
  }

  /** `v.replace('"', "\\\"")`. */
  function Escape(v: string): string
  {
    if v == "" then ""
    else Escape(v[..|v| - 1]) + if v[|v| - 1] == '"' then "\\\"" else [v[|v| - 1]]
  }

  function LiteralText(lit: LiteralType): string
  {
    match lit
    case BoolLit(b) => if b then "True" else "False"
    case IntLit(v, Some(suffix)) => IntText(v) + suffix.Text()
    case IntLit(v, None) => IntText(v)
    case FloatLit(text) => if '.' in text then text else text + ".0"
    case StrLit(text) => "\"" + Escape(text) + "\""
  }

  function Print(t: Type): string
    decreases t
  {
    match t
    case Any => "any"
    case Named(names, _, _) => Strings.Join(names, '.')
    case Basic(b) => BasicText(b)
    case List(inner) => "[" + PrintOption(inner) + "]"
    case Dict(key, value) => "{" + PrintOption(key) + ":" + PrintOption(value) + "}"
    case Union(elements) => if elements == [] then "any" else PrintAll(elements)
    case Literal(lit) => LiteralText(lit)
  }

  function PrintOption(t: Option<Type>): string
    decreases t
  {
    match t case Some(t) => Print(t) case None => ""
  }

  /** The elements of a union, separated by bars. */
  function PrintAll(ts: seq<Type>): string
    requires ts != []
    decreases ts
  {
    if |ts| == 1 then Print(ts[0]) else PrintAll(ts[..|ts| - 1]) + "|" + Print(ts[|ts| - 1])
  }

  /** `Type::to_string`. */
  method ToString(t: Type) returns (s: string)
    ensures s == Print(t)
  {
    s := ToStr(t, "");
  }

  /** `to_str`, which pushes onto the string it is given. */
  method ToStr(t: Type, w: string) returns (w': string)
    ensures w' == w + Print(t)
    decreases t
  {
    hide LiteralText, BasicText, PrintAll;
    w' := w;
    match t {
      case Any => w' := w' + "any";
      case Named(names, _, _) => w' := w' + Strings.Join(names, '.');
      case Basic(b) => w' := w' + BasicText(b);
      case List(inner) =>
        w' := w' + "[";
        if inner.Some? { w' := ToStr(inner.value, w'); }
        w' := w' + "]";
      case Dict(key, value) =>
        w' := w' + "{";
        if key.Some? { w' := ToStr(key.value, w'); }
        w' := w' + ":";
        if value.Some? { w' := ToStr(value.value, w'); }
        w' := w' + "}";
      case Union(elements) =>
        if elements == [] { return w' + "any"; }
        w' := UnionToStr(elements, w');
      case Literal(lit) => w' := w' + LiteralText(lit);
    }
  }

  /** The loop of `to_str` over the elements of a union. */
  method UnionToStr(elements: seq<Type>, w: string) returns (w': string)
    requires elements != []
    ensures w' == w + PrintAll(elements)
    decreases elements
  {
    hide Print;
    w' := w;
    for i := 0 to |elements|
      invariant w' == w + if i == 0 then "" else PrintAll(elements[..i])
    {
      if i > 0 { w' := w' + "|"; }
      w' := ToStr(elements[i], w');
      assert elements[..i + 1][..i] == elements[..i];
    }
    assert elements[..|elements|] == elements;
  }

  // ----- types up to what printing can tell -----

  /** The alternatives of a type in order: nested unions are flattened, an empty union is `any`, and
      where a name comes from is forgotten. */
  function Flat(t: Type): (r: seq<Type>)
    ensures r != []
    decreases t
  {
    match t
    case Union(elements) => if elements == [] then [Any] else FlatAll(elements)
    case Named(names, _, _) => [Named(names, "", Load)]
    case List(inner) => [List(NormOption(inner))]
    case Dict(key, value) => [Dict(NormOption(key), NormOption(value))]
    case _ => [t]
  }

  function FlatAll(ts: seq<Type>): (r: seq<Type>)
    requires ts != []
    ensures r != []
    decreases ts
  {
    if |ts| == 1 then Flat(ts[0]) else FlatAll(ts[..|ts| - 1]) + Flat(ts[|ts| - 1])
  }

  function NormOption(t: Option<Type>): Option<Type>
    decreases t
  {
    match t case Some(t) => Some(Union(Flat(t))) case None => None
  }

  /** Two types that printing should not tell apart. */
  predicate SameType(t1: Type, t2: Type)
  {
    Flat(t1) == Flat(t2)
  }
}
