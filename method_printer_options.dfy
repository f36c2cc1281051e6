/// The option bitmasks of the two method printers. The source passes them
/// as a plain `int`; a 32-bit vector gives the same bits, including the
/// complement used in `ALL & ~VIRTUAL`.
module Bitmask {

  /// Whether `options` switches on the printing that `bit` stands for.
  predicate Has(options: bv32, bit: bv32)
  {
    options & bit != 0
  }

  /// The mask with only bit k set.
  function Bit(k: nat): bv32
    requires k < 32
  {
    (1 as bv32) << k
  }
}

/// MethodPrinter::Forwarding::Options.
module ForwardingOptions {

  import opened Bitmask

  const NOTHING: bv32 := 0
  const EXPLICIT: bv32 := 1 << 1
  const VIRTUAL: bv32 := 1 << 2
  const CONSTEXPR: bv32 := 1 << 3
  const STATIC: bv32 := 1 << 4
  const RETURN_TYPE: bv32 := 1 << 5
  const ALL: bv32 := EXPLICIT | VIRTUAL | CONSTEXPR | STATIC | RETURN_TYPE

  /// The five options occupy bits 1 to 5, so bit 0 is never set, and ALL
  /// sets exactly those five bits.
  lemma Layout()
    ensures forall k: nat :: k < 32 ==> (Has(ALL, Bit(k)) <==> 1 <= k <= 5)
    ensures !Has(ALL, 1)
  {
  }
}

/// MethodPrinter::Trailing::Options.
module TrailingOptions {

  import opened Bitmask

  const NOTHING: bv32 := 0
  const CONST: bv32 := 1 << 1
  const NOEXCEPT: bv32 := 1 << 2
  const PURE: bv32 := 1 << 3
  const DELETED: bv32 := 1 << 4
  const DEFAULT: bv32 := 1 << 5
  const BODY: bv32 := 1 << 6
  const ALL: bv32 := CONST | NOEXCEPT | PURE | DELETED | DEFAULT | BODY

  /// The six options occupy bits 1 to 6 (so BODY is part of ALL), and
  /// bit 0 is never set.
  lemma Layout()
    ensures forall k: nat :: k < 32 ==> (Has(ALL, Bit(k)) <==> 1 <= k <= 6)
    ensures !Has(ALL, 1)
  {
  }
}
