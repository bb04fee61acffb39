/**
 * The values a parameter can hold, the type tags that stand for the Rust
 * types a parameter is declared with, and the ordering that Rust's
 * `PartialOrd` gives those types.
 */
module Values {

  /** One value of a supported primitive type.  Integers of every width are
      `IntVal`; `HasType` keeps them inside the width of their tag.  Floats
      are exact reals: NaN and the infinities are not modelled. */
  datatype Value =
    | BoolVal(b: bool)
    | IntVal(i: int)
    | RealVal(r: real)
    | TextVal(s: string)

  /** The concrete type a parameter was registered with (`TypeId::of::<T>()`). */
  datatype TypeTag =
    | Bool
    | U8 | U16 | U32 | U64 | U128 | Usize
    | I8 | I16 | I32 | I64 | I128 | Isize
    | F32 | F64
    | String

  /** What `std::any::type_name` reports for each tag. */
  function TypeName(t: TypeTag): string
  {
    match t
    case Bool => "bool"
    case U8 => "u8"
    case U16 => "u16"
    case U32 => "u32"
    case U64 => "u64"
    case U128 => "u128"
    case Usize => "usize"
    case I8 => "i8"
    case I16 => "i16"
    case I32 => "i32"
    case I64 => "i64"
    case I128 => "i128"
    case Isize => "isize"
    case F32 => "f32"
    case F64 => "f64"
    case String => "alloc::string::String"
  }

  predicate IsInteger(t: TypeTag)
  {
    !(t.Bool? || t.F32? || t.F64? || t.String?)
  }

  /** Smallest value of an integer type (pointer-sized types taken as 64 bits). */
  function MinOf(t: TypeTag): int
    requires IsInteger(t)
  {
    match t
    case I8 => -0x80
    case I16 => -0x8000
    case I32 => -0x8000_0000
    case I64 | Isize => -0x8000_0000_0000_0000
    case I128 => -0x8000_0000_0000_0000_0000_0000_0000_0000
    case _ => 0
  }

  /** Largest value of an integer type (pointer-sized types taken as 64 bits). */
  function MaxOf(t: TypeTag): int
    requires IsInteger(t)
  {
    match t
    case U8 => 0xFF
    case U16 => 0xFFFF
    case U32 => 0xFFFF_FFFF
    case U64 | Usize => 0xFFFF_FFFF_FFFF_FFFF
    case U128 => 0xFFFF_FFFF_FFFF_FFFF_FFFF_FFFF_FFFF_FFFF
    case I8 => 0x7F
    case I16 => 0x7FFF
    case I32 => 0x7FFF_FFFF
    case I64 | Isize => 0x7FFF_FFFF_FFFF_FFFF
    case I128 => 0x7FFF_FFFF_FFFF_FFFF_FFFF_FFFF_FFFF_FFFF
    case _ => 0
  }

  /** `v` is a value of the Rust type `t`. */
  predicate HasType(v: Value, t: TypeTag)
  {
    match t
    case Bool => v.BoolVal?
    case F32 | F64 => v.RealVal?
    case String => v.TextVal?
    case _ => v.IntVal? && MinOf(t) <= v.i <= MaxOf(t)
  }

  /** Order of the variants, used only to make `Less` total on mixed values;
      a well-typed registry never compares values of two variants. */
  function Rank(v: Value): nat
  {
    match v
    case BoolVal(_) => 0
    case IntVal(_) => 1
    case RealVal(_) => 2
    case TextVal(_) => 3
  }

  /** `String`'s ordering: lexicographic by code point (which is the byte
      order of the UTF-8 encoding). */
  predicate TextLess(x: string, y: string)
    decreases |x|
  {
    if x == [] then y != []
    else if y == [] then false
    else x[0] < y[0] || (x[0] == y[0] && TextLess(x[1..], y[1..]))
  }

  /** Rust's `<` on two values of the same type (`false < true` for bool). */
  predicate Less(a: Value, b: Value)
  {
    match (a, b)
    case (BoolVal(x), BoolVal(y)) => !x && y
    case (IntVal(x), IntVal(y)) => x < y
    case (RealVal(x), RealVal(y)) => x < y
    case (TextVal(x), TextVal(y)) => TextLess(x, y)
    case _ => Rank(a) < Rank(b)
  }

  /** Rust's `<=`. */
  predicate LessEq(a: Value, b: Value)
  {
    Less(a, b) || a == b
  }

  lemma {:induction false} TextLessIrreflexive(x: string)
    ensures !TextLess(x, x)
  {
    if x != [] {
      TextLessIrreflexive(x[1..]);
    }
  }

  lemma {:induction false} TextLessTransitive(x: string, y: string, z: string)
    requires TextLess(x, y) && TextLess(y, z)
    ensures TextLess(x, z)
    decreases |x|
  {
    if x != [] && y != [] && z != [] && x[0] == y[0] == z[0] {
      TextLessTransitive(x[1..], y[1..], z[1..]);
    }
  }

  lemma {:induction false} TextLessTrichotomy(x: string, y: string)
    ensures TextLess(x, y) || x == y || TextLess(y, x)
    decreases |x|
  {
    if x != [] && y != [] && x[0] == y[0] {
      TextLessTrichotomy(x[1..], y[1..]);
      if x[1..] == y[1..] {
        assert x == [x[0]] + x[1..] && y == [y[0]] + y[1..];
      }
    }
  }

  /** `Less` is a strict order ... */
  lemma LessIrreflexive(a: Value)
    ensures !Less(a, a)
  {
    if a.TextVal? {
      TextLessIrreflexive(a.s);
    }
  }

  lemma LessTransitive(a: Value, b: Value, c: Value)
    requires Less(a, b) && Less(b, c)
    ensures Less(a, c)
  {
    if a.TextVal? && b.TextVal? && c.TextVal? {
      TextLessTransitive(a.s, b.s, c.s);
    }
  }

  /** ... and a total one, so `x <= y` is exactly "not `y < x`". */
  lemma LessEqIffNotLess(a: Value, b: Value)
    ensures LessEq(a, b) <==> !Less(b, a)
  {
    LessIrreflexive(a);
    if a.TextVal? && b.TextVal? {
      TextLessTrichotomy(a.s, b.s);
      if TextLess(a.s, b.s) && TextLess(b.s, a.s) {
        TextLessTransitive(a.s, b.s, a.s);
      }
    }
  }
}
