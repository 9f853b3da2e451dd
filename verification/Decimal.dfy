/**
 ADC and SBC of the four CPU cores, in binary and decimal mode, one byte (on the
 65816 also one word) at a time.  `bv32` stands for `unsigned int`, `bv16` for
 `uint16_t`.
 */
module Arithmetic {
  /** The accumulator and the four flags an addition or subtraction leaves. */
  datatype Alu = Alu(a: bv8, carry: bool, negative: bool, overflow: bool, zero: bool)

  // ------------------------------------------------------------- 6510, 6510dtv

  /** The decimal sum before and after the correction of the high digit. */
  function Sum6510(a: bv8, v: bv8, c: bool): bv32 {
    var tmp := (a & 0xf) as bv32 + (v & 0xf) as bv32 + (if c then 1 else 0);
    var tmp := if tmp > 0x9 then tmp + 0x6 else tmp;
    if tmp <= 0x0f then (tmp & 0xf) + (a & 0xf0) as bv32 + (v & 0xf0) as bv32
    else (tmp & 0xf) + (a & 0xf0) as bv32 + (v & 0xf0) as bv32 + 0x10
  }

  function AdcDecimal6510(a: bv8, v: bv8, c: bool): Alu {
    var tmp := Sum6510(a, v, c);
    var sum := if tmp & 0x1f0 > 0x90 then tmp + 0x60 else tmp;
    Alu((sum & 0xff) as bv8, sum & 0xff0 > 0xf0, tmp & 0x80 != 0,
        (a as bv32 ^ tmp) & 0x80 != 0 && (a ^ v) & 0x80 == 0,
        (a as bv32 + v as bv32 + (if c then 1 else 0)) & 0xff == 0)
  }

  function AdcBinary(a: bv8, v: bv8, c: bool): Alu {
    var tmp := v as bv32 + a as bv32 + (if c then 1 else 0);
    Alu((tmp & 0xff) as bv8, tmp > 0xff, tmp & 0x80 != 0,
        (a ^ v) & 0x80 == 0 && (a as bv32 ^ tmp) & 0x80 != 0, tmp & 0xff == 0)
  }

  function Adc6510(d: bool, a: bv8, v: bv8, c: bool): Alu {
    if d then AdcDecimal6510(a, v, c) else AdcBinary(a, v, c)
  }

  function SbcBinary(a: bv8, v: bv8, c: bool): Alu {
    var tmp: bv16 := a as bv16 - v as bv16 - (if c then 0 else 1);
    Alu((tmp & 0xff) as bv8, tmp < 0x100, tmp & 0x80 != 0,
        (a as bv16 ^ tmp) & 0x80 != 0 && (a ^ v) & 0x80 != 0, tmp & 0xff == 0)
  }

  /** The decimal difference; the flags are those of the binary one. */
  function Difference6510(a: bv8, v: bv8, c: bool): bv8 {
    var tmp := (a & 0xf) as bv32 - (v & 0xf) as bv32 - (if c then 0 else 1);
    var tmp := if tmp & 0x10 != 0
               then ((tmp - 6) & 0xf) | ((a & 0xf0) as bv32 - (v & 0xf0) as bv32 - 0x10)
               else (tmp & 0xf) | ((a & 0xf0) as bv32 - (v & 0xf0) as bv32);
    var tmp := if tmp & 0x100 != 0 then tmp - 0x60 else tmp;
    (tmp & 0xff) as bv8
  }

  function Sbc6510(d: bool, a: bv8, v: bv8, c: bool): Alu {
    var r := SbcBinary(a, v, c);
    if d then r.(a := Difference6510(a, v, c)) else r
  }

  /** ARR: AND followed by a rotation, with its own decimal correction. */
  function Arr6510(d: bool, a: bv8, v: bv8, c: bool): Alu {
    var tmp := a & v;
    var rotated := (tmp >> 1) | (if c then 0x80 else 0);
    if !d then
      Alu(rotated, rotated & 0x40 != 0, rotated & 0x80 != 0,
          (rotated & 0x40) ^ ((rotated & 0x20) << 1) != 0, rotated == 0)
    else
      var fixed := if (tmp & 0xf) + (tmp & 0x1) > 0x5 then (rotated & 0xf0) | ((rotated + 0x6) & 0xf) else rotated;
      var carry := (tmp & 0xf0) as bv16 + (tmp & 0x10) as bv16 > 0x50;
      Alu(if carry then (fixed & 0x0f) | ((fixed + 0x60) & 0xf0) else fixed,
          carry, c, (rotated ^ tmp) & 0x40 != 0, rotated == 0)
  }

  /** In binary mode ARR rotates the AND right through the old carry; the bit that
      was highest goes to the carry, and overflow says that it differed from the next. */
  lemma ArrRotates(a: bv8, v: bv8, c: bool)
    ensures var t, r := a & v, Arr6510(false, a, v, c);
            && r.a << 1 == t & 0xfe && (r.a & 0x80 != 0 <==> c)
            && r.carry == (t & 0x80 != 0) && r.overflow == ((t & 0x80 != 0) != (t & 0x40 != 0))
            && r.negative == c && r.zero == (r.a == 0)
  {
  }

  /** In decimal mode each digit of the rotated AND is corrected by 6 exactly when
      that digit of the AND was 5 or more, and the high one is reported in the carry. */
  lemma ArrCorrectsDigits(a: bv8, v: bv8, c: bool)
    ensures var t, r := a & v, Arr6510(true, a, v, c);
            && r.a & 0xf == ((t >> 1) + (if t & 0xf >= 5 then 6 else 0)) & 0xf
            && r.a >> 4 == ((t >> 5) + (if c then 8 else 0) + (if t >> 4 >= 5 then 6 else 0)) & 0xf
            && r.carry == (t >> 4 >= 5) && r.overflow == ((t & 0x80 != 0) != (t & 0x40 != 0))
            && r.negative == c && r.zero == (!c && t & 0xfe == 0)
  {
  }

  // --------------------------------------------------------------------- 65C02

  function Adc65C02(d: bool, a: bv8, v: bv8, c: bool): Alu {
    if !d then AdcBinary(a, v, c) else
    var tmp := (a & 0xf) as bv32 + (v & 0xf) as bv32 + (if c then 1 else 0);
    var tmp2 := (a & 0xf0) as bv32 + (v & 0xf0) as bv32;
    var tmp2 := if tmp > 9 then tmp2 + 0x10 else tmp2;
    var tmp := if tmp > 9 then tmp + 6 else tmp;
    var overflow := (!(a ^ v)) as bv32 & (a as bv32 ^ tmp2) & 0x80 != 0;
    var tmp2 := if tmp2 > 0x90 then tmp2 + 0x60 else tmp2;
    var carry := tmp2 & 0xff00 != 0;
    var tmp := ((tmp & 0xf) + (tmp2 & 0xf0)) as bv32;
    Alu((tmp & 0xff) as bv8, carry, tmp & 0x80 != 0, overflow, tmp & 0xff == 0)
  }

  function Sbc65C02(d: bool, a: bv8, v: bv8, c: bool): Alu {
    var tmp: bv16 := a as bv16 - v as bv16 + (if c then 1 else 0) - 1;
    var overflow := (a as bv16 ^ tmp) & 0x80 != 0 && (a ^ v) & 0x80 != 0;
    var carry := a as bv16 + (if c then 1 else 0) >= v as bv16 + 1;
    var tmp := if !d then tmp else
      var high := if tmp > 0xff then tmp - 0x60 else tmp;
      var tmp2: bv16 := (a & 0xf) as bv16 - (v & 0xf) as bv16 + (if c then 1 else 0) - 1;
      if tmp2 > 0xff then high - 6 else high;
    Alu((tmp & 0xff) as bv8, carry, tmp & 0x80 != 0, overflow, tmp & 0xff == 0)
  }

  // --------------------------------------------------------------------- 65816

  /** The decimal sum of two bytes before the correction of the high digit. */
  function Sum65816(a: bv8, v: bv8, c: bool): bv32 {
    var tmp2 := (a & 0xf) as bv32 + (v & 0xf) as bv32 + (if c then 1 else 0);
    var tmp := (a & 0xf0) as bv32 + (v & 0xf0) as bv32;
    if tmp2 > 0x9 then (tmp + 0x10) | ((tmp2 + 0x6) & 0xf) else tmp | (tmp2 & 0xf)
  }

  function Corrected(tmp: bv32): bv32 { if tmp > 0x9f then tmp + 0x60 else tmp }

  /** Eight-bit accumulator. */
  function Adc65816(d: bool, a: bv8, v: bv8, c: bool): Alu {
    var tmp := if d then Sum65816(a, v, c) else (if c then 1 else 0) + v as bv32 + a as bv32;
    var overflow := (!(a ^ v)) as bv32 & (a as bv32 ^ tmp) & 0x80 != 0;
    var tmp := if d then Corrected(tmp) else tmp;
    Alu((tmp & 0xff) as bv8, tmp > 0xff, tmp & 0x80 != 0, overflow, tmp & 0xff == 0)
  }

  function Sbc65816(d: bool, a: bv8, v: bv8, c: bool): Alu {
    var tmp := (if c then 1 else 0) + (v ^ 0xff) as bv32 + a as bv32;
    var overflow := (a ^ v) as bv32 & (a as bv32 ^ tmp) & 0x80 != 0;
    if !d then Alu((tmp & 0xff) as bv8, tmp > 0xff, tmp & 0x80 != 0, overflow, tmp & 0xff == 0) else
    var low := (a & 0xf) as bv32 + (0xf & !v) as bv32 + (if c then 1 else 0);
    var tmp := (if low < 0x10 then low - 0x6 else low) & 0xf;
    var tmp2 := a as bv32 + (0xff & !v) as bv32 + (if c then 1 else 0);
    var tmp := tmp | ((if tmp2 < 0x100 then tmp2 - 0x60 else tmp2) & 0xf0);
    Alu((tmp & 0xff) as bv8, tmp2 > 0xff, tmp & 0x80 != 0, overflow, tmp & 0xff == 0)
  }

  /** Sixteen-bit accumulator: the sum of the low bytes before its correction. */
  function WideLow(acc: bv16, v: bv16, c: bool): bv32 {
    var tmp2 := (acc & 0xf) as bv32 + (v & 0xf) as bv32 + (if c then 1 else 0);
    var tmp := (acc & 0xf0) as bv32 + (v & 0xf0) as bv32;
    if tmp2 > 0x9 then (tmp + 0x10) | ((tmp2 + 0x6) & 0xf) else tmp | (tmp2 & 0xf)
  }

  /** The rest of the addition, with the low byte's sum and whether it was corrected. */
  function WideHigh(acc: bv16, v: bv16, low: bv32, corrected: bool): bv32 {
    var tmp2 := (acc & 0xf00) as bv32 + (v & 0xf00) as bv32;
    var tmp2 := (if corrected then tmp2 + 0x100 else tmp2) | (low & 0xff);
    var tmp := (acc & 0xf000) as bv32 + (v & 0xf000) as bv32;
    var tmp := if tmp2 > 0x9ff then (tmp + 0x1000) | ((tmp2 + 0x600) & 0xfff) else tmp | (tmp2 & 0xfff);
    if tmp > 0x9fff then tmp + 0x6000 else tmp
  }

  function WideBinary(acc: bv16, v: bv16, c: bool): bv32 {
    (if c then 1 else 0) + v as bv32 + acc as bv32
  }

  function Truncated(tmp: bv32): bv16 { (tmp & 0xffff) as bv16 }

  /** Sixteen-bit accumulator: the new accumulator and the carry. */
  function Adc65816Wide(d: bool, acc: bv16, v: bv16, c: bool): (bv16, bool) {
    var tmp := if !d then WideBinary(acc, v, c) else
      var tmp := WideLow(acc, v, c);
      WideHigh(acc, v, Corrected(tmp), tmp > 0x9f);
    (Truncated(tmp), tmp > 0xffff)
  }

  // --------------------------------------------------------- one digit at a time

  /** One decimal digit plus one decimal digit (the low halves of `x` and `y`),
      with carry in and out. */
  function DigitSum(x: bv8, y: bv8, c: bool): (bv8, bool) {
    var s := (x & 0xf) + (y & 0xf) + (if c then 1 else 0);
    if s > 9 then ((s + 6) & 0xf, true) else (s, false)
  }

  /** One decimal digit less another; the carry is the absence of a borrow. */
  function DigitDifference(x: bv8, y: bv8, c: bool): (bv8, bool) {
    var s := (x & 0xf) - (y & 0xf) - (if c then 0 else 1);
    if s < 0x10 then (s, true) else ((s - 6) & 0xf, false)
  }

  lemma AdcLow6510(a: bv8, v: bv8, c: bool)
    ensures AdcDecimal6510(a, v, c).a & 0xf == DigitSum(a, v, c).0
  {
  }

  lemma AdcHigh6510(a: bv8, v: bv8, c: bool, k: bool)
    requires DigitSum(a, v, c).1 == k
    ensures AdcDecimal6510(a, v, c).a >> 4 == DigitSum(a >> 4, v >> 4, k).0
    ensures AdcDecimal6510(a, v, c).carry == DigitSum(a >> 4, v >> 4, k).1
  {
    if k {} else {}
  }

  lemma AdcLow65C02(a: bv8, v: bv8, c: bool)
    ensures Adc65C02(true, a, v, c).a & 0xf == DigitSum(a, v, c).0
  {
  }

  lemma AdcHigh65C02(a: bv8, v: bv8, c: bool, k: bool)
    requires DigitSum(a, v, c).1 == k
    ensures Adc65C02(true, a, v, c).a >> 4 == DigitSum(a >> 4, v >> 4, k).0
    ensures Adc65C02(true, a, v, c).carry == DigitSum(a >> 4, v >> 4, k).1
  {
    if k {} else {}
  }

  lemma AdcLow65816(a: bv8, v: bv8, c: bool)
    ensures Adc65816(true, a, v, c).a & 0xf == DigitSum(a, v, c).0
  {
  }

  lemma AdcHigh65816(a: bv8, v: bv8, c: bool, k: bool)
    requires DigitSum(a, v, c).1 == k
    ensures Adc65816(true, a, v, c).a >> 4 == DigitSum(a >> 4, v >> 4, k).0
    ensures Adc65816(true, a, v, c).carry == DigitSum(a >> 4, v >> 4, k).1
  {
    if k {} else {}
  }

  lemma SbcLow6510(a: bv8, v: bv8, c: bool)
    ensures Difference6510(a, v, c) & 0xf == DigitDifference(a, v, c).0
  {
  }

  lemma SbcHigh6510(a: bv8, v: bv8, c: bool, k: bool)
    requires DigitDifference(a, v, c).1 == k
    ensures Difference6510(a, v, c) >> 4 == DigitDifference(a >> 4, v >> 4, k).0
  {
    if k { SbcHighKept(a, v, c); } else { SbcHighBorrowed(a, v, c); }
    hide Difference6510, DigitDifference;
  }

  lemma SbcHighKept(a: bv8, v: bv8, c: bool)
    requires DigitDifference(a, v, c).1
    ensures Difference6510(a, v, c) >> 4 == DigitDifference(a >> 4, v >> 4, true).0
  {
  }

  lemma SbcHighBorrowed(a: bv8, v: bv8, c: bool)
    requires !DigitDifference(a, v, c).1
    ensures Difference6510(a, v, c) >> 4 == DigitDifference(a >> 4, v >> 4, false).0
  {
  }

  lemma SbcLow65816(a: bv8, v: bv8, c: bool)
    ensures Sbc65816(true, a, v, c).a & 0xf == DigitDifference(a, v, c).0
  {
  }

  lemma SbcHigh65816(a: bv8, v: bv8, c: bool, k: bool)
    requires DigitDifference(a, v, c).1 == k
    ensures Sbc65816(true, a, v, c).a >> 4 == DigitDifference(a >> 4, v >> 4, k).0
  {
    hide Sbc65816, DigitDifference;
    if k { SbcHighKept65816(a, v, c); } else { SbcHighBorrowed65816(a, v, c); }
  }

  lemma SbcHighKept65816(a: bv8, v: bv8, c: bool)
    requires DigitDifference(a, v, c).1
    ensures Sbc65816(true, a, v, c).a >> 4 == DigitDifference(a >> 4, v >> 4, true).0
  {
  }

  lemma SbcHighBorrowed65816(a: bv8, v: bv8, c: bool)
    requires !DigitDifference(a, v, c).1
    ensures Sbc65816(true, a, v, c).a >> 4 == DigitDifference(a >> 4, v >> 4, false).0
  {
  }

  /** Every core leaves the carry clear exactly when the byte-wise subtraction borrows. */
  ghost predicate NoBorrow(a: bv8, v: bv8, c: bool) {
    a as bv16 >= v as bv16 + if c then 0 else 1
  }

  lemma CarryIsNoBorrow6510(a: bv8, v: bv8, c: bool)
    ensures SbcBinary(a, v, c).carry == NoBorrow(a, v, c)
  {
  }

  lemma CarryIsNoBorrow65C02(d: bool, a: bv8, v: bv8, c: bool)
    ensures Sbc65C02(d, a, v, c).carry == NoBorrow(a, v, c)
  {
  }

  lemma CarryIsNoBorrow65816(d: bool, a: bv8, v: bv8, c: bool)
    ensures Sbc65816(d, a, v, c).carry == NoBorrow(a, v, c)
  {
  }

  lemma BorrowFromHighDigit(a: bv8, v: bv8, c: bool)
    ensures NoBorrow(a, v, c) == DigitDifference(a >> 4, v >> 4, DigitDifference(a, v, c).1).1
  {
  }

  lemma SbcLow65C02(a: bv8, v: bv8, c: bool)
    ensures Sbc65C02(true, a, v, c).a & 0xf == DigitDifference(a, v, c).0
  {
  }

  lemma SbcHighKept65C02(a: bv8, v: bv8, c: bool)
    requires DigitDifference(a, v, c).1
    ensures Sbc65C02(true, a, v, c).a >> 4 == DigitDifference(a >> 4, v >> 4, true).0
  {
    hide *;
    if c { SbcKeptCarry65C02(a, v); } else { SbcKeptBorrow65C02(a, v); }
  }

  lemma SbcKeptCarry65C02(a: bv8, v: bv8)
    requires DigitDifference(a, v, true).1
    ensures Sbc65C02(true, a, v, true).a >> 4 == DigitDifference(a >> 4, v >> 4, true).0
  {
  }

  lemma SbcKeptBorrow65C02(a: bv8, v: bv8)
    requires DigitDifference(a, v, false).1
    ensures Sbc65C02(true, a, v, false).a >> 4 == DigitDifference(a >> 4, v >> 4, true).0
  {
  }

  /** Taking 6 from the whole byte borrows again when the low digits are more
      than ten apart. */
  predicate BorrowsTwice(a: bv8, v: bv8, c: bool) {
    (v & 0xf) + (if c then 0 else 1) > (a & 0xf) + 10
  }

  lemma SbcHighBorrowed65C02(a: bv8, v: bv8, c: bool)
    requires !DigitDifference(a, v, c).1 && !BorrowsTwice(a, v, c)
    ensures Sbc65C02(true, a, v, c).a >> 4 == DigitDifference(a >> 4, v >> 4, false).0
  {
    hide *;
    if NoBorrow(a, v, c) { SbcHighFits65C02(a, v, c); } else { SbcHighWraps65C02(a, v, c); }
  }

  lemma SbcHighFits65C02(a: bv8, v: bv8, c: bool)
    requires !DigitDifference(a, v, c).1 && !BorrowsTwice(a, v, c) && NoBorrow(a, v, c)
    ensures Sbc65C02(true, a, v, c).a >> 4 == DigitDifference(a >> 4, v >> 4, false).0
  {
    hide *;
    if c { SbcFitsCarry65C02(a, v); } else { SbcFitsBorrow65C02(a, v); }
  }

  lemma SbcFitsCarry65C02(a: bv8, v: bv8)
    requires !DigitDifference(a, v, true).1 && !BorrowsTwice(a, v, true) && NoBorrow(a, v, true)
    ensures Sbc65C02(true, a, v, true).a >> 4 == DigitDifference(a >> 4, v >> 4, false).0
  {
  }

  lemma SbcFitsBorrow65C02(a: bv8, v: bv8)
    requires !DigitDifference(a, v, false).1 && !BorrowsTwice(a, v, false) && NoBorrow(a, v, false)
    ensures Sbc65C02(true, a, v, false).a >> 4 == DigitDifference(a >> 4, v >> 4, false).0
  {
  }

  lemma SbcHighWraps65C02(a: bv8, v: bv8, c: bool)
    requires !DigitDifference(a, v, c).1 && !BorrowsTwice(a, v, c) && !NoBorrow(a, v, c)
    ensures Sbc65C02(true, a, v, c).a >> 4 == DigitDifference(a >> 4, v >> 4, false).0
  {
    hide *;
    if c { SbcWrapsCarry65C02(a, v); } else { SbcWrapsBorrow65C02(a, v); }
  }

  lemma SbcWrapsCarry65C02(a: bv8, v: bv8)
    requires !DigitDifference(a, v, true).1 && !BorrowsTwice(a, v, true) && !NoBorrow(a, v, true)
    ensures Sbc65C02(true, a, v, true).a >> 4 == DigitDifference(a >> 4, v >> 4, false).0
  {
  }

  lemma SbcWrapsBorrow65C02(a: bv8, v: bv8)
    requires !DigitDifference(a, v, false).1 && !BorrowsTwice(a, v, false) && !NoBorrow(a, v, false)
    ensures Sbc65C02(true, a, v, false).a >> 4 == DigitDifference(a >> 4, v >> 4, false).0
  {
  }

  lemma SbcHighTwice65C02(a: bv8, v: bv8, c: bool)
    requires BorrowsTwice(a, v, c)
    ensures !DigitDifference(a, v, c).1
    ensures Sbc65C02(true, a, v, c).a >> 4 == (DigitDifference(a >> 4, v >> 4, false).0 - 1) & 0xf
  {
  }

  // ------------------------------------------------------------ the cores agree

  lemma SameDigits(x: bv8, y: bv8)
    requires x & 0xf == y & 0xf && x >> 4 == y >> 4
    ensures x == y
  {
  }

  lemma BinaryAdditionsAgree(a: bv8, v: bv8, c: bool)
    ensures Adc65C02(false, a, v, c) == AdcBinary(a, v, c)
    ensures Adc65816(false, a, v, c) == AdcBinary(a, v, c)
  {
  }

  lemma BinarySubtractionsAgree65C02(a: bv8, v: bv8, c: bool)
    ensures Sbc65C02(false, a, v, c).a == SbcBinary(a, v, c).a
  {
  }

  lemma BinarySubtractionsAgree65816(a: bv8, v: bv8, c: bool)
    ensures Sbc65816(false, a, v, c).a == SbcBinary(a, v, c).a
  {
  }

  lemma SumsAgree(a: bv8, v: bv8, c: bool)
    ensures var r := AdcDecimal6510(a, v, c);
            && Adc65C02(true, a, v, c).a == r.a && Adc65C02(true, a, v, c).carry == r.carry
            && Adc65816(true, a, v, c).a == r.a && Adc65816(true, a, v, c).carry == r.carry
  {
    hide AdcDecimal6510, Adc65C02, Adc65816, DigitSum;
    var k := DigitSum(a, v, c).1;
    AdcLow6510(a, v, c);
    AdcHigh6510(a, v, c, k);
    AdcLow65C02(a, v, c);
    AdcHigh65C02(a, v, c, k);
    AdcLow65816(a, v, c);
    AdcHigh65816(a, v, c, k);
    SameDigits(Adc65C02(true, a, v, c).a, AdcDecimal6510(a, v, c).a);
    SameDigits(Adc65816(true, a, v, c).a, AdcDecimal6510(a, v, c).a);
  }

  /** Every addition gives the same accumulator and carry on all cores, even for
      bytes that are not decimal. */
  lemma AdditionsAgree(d: bool, a: bv8, v: bv8, c: bool)
    ensures var r := Adc6510(d, a, v, c);
            && Adc65C02(d, a, v, c).a == r.a && Adc65C02(d, a, v, c).carry == r.carry
            && Adc65816(d, a, v, c).a == r.a && Adc65816(d, a, v, c).carry == r.carry
  {
    hide AdcDecimal6510, AdcBinary, Adc65C02, Adc65816;
    if d { SumsAgree(a, v, c); } else { BinaryAdditionsAgree(a, v, c); }
  }

  /** The 6510 and the 65816 agree on every subtraction; the 65C02 does exactly
      when its digits borrow at most once. */
  lemma SubtractionsAgree(d: bool, a: bv8, v: bv8, c: bool)
    ensures var r := Sbc6510(d, a, v, c);
            && Sbc65816(d, a, v, c).a == r.a && Sbc65816(d, a, v, c).carry == r.carry
            && Sbc65C02(d, a, v, c).carry == r.carry
            && (Sbc65C02(d, a, v, c).a == r.a <==> !d || !BorrowsTwice(a, v, c))
  {
    hide Difference6510, Sbc65C02, Sbc65816, DigitDifference, NoBorrow, SbcBinary, BorrowsTwice;
    CarryIsNoBorrow6510(a, v, c);
    CarryIsNoBorrow65C02(d, a, v, c);
    CarryIsNoBorrow65816(d, a, v, c);
    if d {
      DifferencesAgree(a, v, c);
    } else {
      BinarySubtractionsAgree65C02(a, v, c);
      BinarySubtractionsAgree65816(a, v, c);
    }
  }

  lemma DifferencesAgree(a: bv8, v: bv8, c: bool)
    ensures Sbc65816(true, a, v, c).a == Difference6510(a, v, c)
    ensures Sbc65C02(true, a, v, c).a == Difference6510(a, v, c) <==> !BorrowsTwice(a, v, c)
  {
    hide Difference6510, Sbc65C02, Sbc65816, DigitDifference, BorrowsTwice;
    var k := DigitDifference(a, v, c).1;
    SbcLow6510(a, v, c);
    SbcHigh6510(a, v, c, k);
    SbcLow65816(a, v, c);
    SbcHigh65816(a, v, c, k);
    SbcLow65C02(a, v, c);
    SameDigits(Sbc65816(true, a, v, c).a, Difference6510(a, v, c));
    if BorrowsTwice(a, v, c) {
      SbcHighTwice65C02(a, v, c);
    } else {
      if k { SbcHighKept65C02(a, v, c); } else { SbcHighBorrowed65C02(a, v, c); }
      SameDigits(Sbc65C02(true, a, v, c).a, Difference6510(a, v, c));
    }
  }

  // --------------------------------------------------------------- the flags

  /** A byte taken as signed, plus 128. */
  function Biased(x: bv8): bv16 { (x ^ 0x80) as bv16 }

  /** The high digit of a byte taken as signed, plus 8. */
  function BiasedDigit(x: bv8): bv8 { (x >> 4) ^ 0x8 }

  /** A binary addition is exact with the carry worth 256; N and Z describe the result,
      and V says that the sum of the signed operands does not fit a signed byte. */
  predicate AddsExactly(r: Alu, a: bv8, v: bv8, c: bool) {
    var k: bv16 := if c then 1 else 0;
    && r.a as bv16 + (if r.carry then 0x100 else 0) == a as bv16 + v as bv16 + k
    && r.negative == (r.a >= 0x80) && r.zero == (r.a == 0)
    && r.overflow == !(0x80 <= Biased(a) + Biased(v) + k <= 0x17f)
  }

  /** A binary subtraction is exact modulo 256, with the carry clear on a borrow. */
  predicate SubtractsExactly(r: Alu, a: bv8, v: bv8, c: bool) {
    && r.a == a - v - (if c then 0 else 1)
    && r.carry == (a as bv16 >= v as bv16 + if c then 0 else 1)
    && r.negative == (r.a >= 0x80) && r.zero == (r.a == 0)
    && r.overflow == (Biased(a) + 0x80 - Biased(v) - (if c then 0 else 1) > 0xff)
  }

  lemma AddsExactly6510(a: bv8, v: bv8, c: bool)
    ensures AddsExactly(Adc6510(false, a, v, c), a, v, c)
  {
    hide AdcBinary;
    SumExact(a, v, c);
    SumSigns(a, v, c);
    SumOverflows(a, v, c);
  }

  lemma SumExact(a: bv8, v: bv8, c: bool)
    ensures var r := AdcBinary(a, v, c);
            r.a as bv16 + (if r.carry then 0x100 else 0) == a as bv16 + v as bv16 + (if c then 1 else 0)
  {
    hide AdcBinary;
    SumBits(a, v, c);
    NinthBit(AdcBinary(a, v, c).a);
  }

  lemma SumBits(a: bv8, v: bv8, c: bool)
    ensures var r := AdcBinary(a, v, c);
            r.a as bv16 | (if r.carry then 0x100 else 0) == a as bv16 + v as bv16 + (if c then 1 else 0)
  {
  }

  lemma NinthBit(x: bv8)
    ensures x as bv16 | 0x100 == x as bv16 + 0x100 && x as bv16 | 0 == x as bv16 + 0
  {
  }

  lemma SumSigns(a: bv8, v: bv8, c: bool)
    ensures var r := AdcBinary(a, v, c); r.negative == (r.a >= 0x80) && r.zero == (r.a == 0)
  {
  }

  lemma SumOverflows(a: bv8, v: bv8, c: bool)
    ensures AdcBinary(a, v, c).overflow == !(0x80 <= Biased(a) + Biased(v) + (if c then 1 else 0) <= 0x17f)
  {
  }

  lemma AddsExactlyElsewhere(a: bv8, v: bv8, c: bool)
    ensures AddsExactly(Adc65C02(false, a, v, c), a, v, c)
    ensures AddsExactly(Adc65816(false, a, v, c), a, v, c)
  {
    hide *;
    BinaryAdditionsAgree(a, v, c);
    AddsExactly6510(a, v, c);
    BinaryIsBinary(a, v, c);
  }

  lemma BinaryIsBinary(a: bv8, v: bv8, c: bool)
    ensures Adc6510(false, a, v, c) == AdcBinary(a, v, c) && Sbc6510(false, a, v, c) == SbcBinary(a, v, c)
  {
    hide AdcBinary, SbcBinary;
  }

  lemma SubtractsExactly6510(a: bv8, v: bv8, c: bool)
    ensures SubtractsExactly(Sbc6510(false, a, v, c), a, v, c)
  {
    hide SbcBinary;
    DifferenceExact(a, v, c);
    DifferenceSigns(a, v, c);
    DifferenceOverflows(a, v, c);
    CarryIsNoBorrow6510(a, v, c);
  }

  lemma DifferenceExact(a: bv8, v: bv8, c: bool)
    ensures SbcBinary(a, v, c).a == a - v - (if c then 0 else 1)
  {
  }

  lemma DifferenceSigns(a: bv8, v: bv8, c: bool)
    ensures var r := SbcBinary(a, v, c); r.negative == (r.a >= 0x80) && r.zero == (r.a == 0)
  {
  }

  lemma DifferenceOverflows(a: bv8, v: bv8, c: bool)
    ensures SbcBinary(a, v, c).overflow == (Biased(a) + 0x80 - Biased(v) - (if c then 0 else 1) > 0xff)
  {
  }

  lemma SubtractsExactly65C02(a: bv8, v: bv8, c: bool)
    ensures SubtractsExactly(Sbc65C02(false, a, v, c), a, v, c)
  {
    hide SbcBinary, Sbc65C02, Biased;
    BinarySubtractionsAgree65C02(a, v, c);
    DifferenceExact(a, v, c);
    Signs65C02(a, v, c);
    Overflows65C02(false, a, v, c);
    DifferenceOverflows(a, v, c);
    CarryIsNoBorrow65C02(false, a, v, c);
  }

  lemma Signs65C02(a: bv8, v: bv8, c: bool)
    ensures var r := Sbc65C02(false, a, v, c); r.negative == (r.a >= 0x80) && r.zero == (r.a == 0)
  {
  }

  lemma Overflows65C02(d: bool, a: bv8, v: bv8, c: bool)
    ensures Sbc65C02(d, a, v, c).overflow == SbcBinary(a, v, c).overflow
  {
  }

  lemma SubtractsExactly65816(a: bv8, v: bv8, c: bool)
    ensures SubtractsExactly(Sbc65816(false, a, v, c), a, v, c)
  {
    hide SbcBinary, Sbc65816, Biased;
    BinarySubtractionsAgree65816(a, v, c);
    DifferenceExact(a, v, c);
    Signs65816(a, v, c);
    Overflows65816(false, a, v, c);
    DifferenceOverflows(a, v, c);
    CarryIsNoBorrow65816(false, a, v, c);
  }

  lemma Signs65816(a: bv8, v: bv8, c: bool)
    ensures var r := Sbc65816(false, a, v, c); r.negative == (r.a >= 0x80) && r.zero == (r.a == 0)
  {
  }

  lemma Overflows65816(d: bool, a: bv8, v: bv8, c: bool)
    ensures Sbc65816(d, a, v, c).overflow == SbcBinary(a, v, c).overflow
  {
  }

  /** In decimal mode the 6510 takes Z from the binary sum, and N and V from the high
      digits with the carry of the low ones, before they are corrected; a subtraction
      leaves the flags of the binary one. */
  lemma DecimalFlags6510(a: bv8, v: bv8, c: bool, k: bool)
    requires k == DigitSum(a, v, c).1
    ensures var r, one := Adc6510(true, a, v, c), (if k then 1 else 0) as bv8;
            && r.zero == Adc6510(false, a, v, c).zero
            && r.negative == (((a >> 4) + (v >> 4) + one) & 0x8 != 0)
            && r.overflow == !(0x8 <= BiasedDigit(a) + BiasedDigit(v) + one <= 0x17)
    ensures Sbc6510(true, a, v, c).(a := 0) == Sbc6510(false, a, v, c).(a := 0)
  {
    hide AdcDecimal6510, AdcBinary, SbcBinary, Difference6510, DigitSum, BiasedDigit;
    DecimalZero(a, v, c);
    DecimalSign(a, v, c, k);
    DecimalOverflow(a, v, c, k);
  }

  lemma DecimalZero(a: bv8, v: bv8, c: bool)
    ensures AdcDecimal6510(a, v, c).zero == AdcBinary(a, v, c).zero
  {
  }

  lemma DecimalSign(a: bv8, v: bv8, c: bool, k: bool)
    requires k == DigitSum(a, v, c).1
    ensures AdcDecimal6510(a, v, c).negative == (((a >> 4) + (v >> 4) + (if k then 1 else 0)) & 0x8 != 0)
  {
  }

  lemma DecimalOverflow(a: bv8, v: bv8, c: bool, k: bool)
    requires k == DigitSum(a, v, c).1
    ensures AdcDecimal6510(a, v, c).overflow
            == !(0x8 <= BiasedDigit(a) + BiasedDigit(v) + (if k then 1 else 0) <= 0x17)
  {
  }

  /** The others take N and Z from the decimal result, and V like the 6510. */
  lemma DecimalAddFlags(a: bv8, v: bv8, c: bool)
    ensures var r := Adc65C02(true, a, v, c);
            r.negative == (r.a >= 0x80) && r.zero == (r.a == 0) && r.overflow == Adc6510(true, a, v, c).overflow
    ensures var r := Adc65816(true, a, v, c);
            r.negative == (r.a >= 0x80) && r.zero == (r.a == 0) && r.overflow == Adc6510(true, a, v, c).overflow
  {
    hide AdcDecimal6510, Adc65C02, Adc65816;
    AddSigns65C02(a, v, c);
    AddOverflow65C02(a, v, c);
    AddSigns65816(a, v, c);
    AddOverflow65816(a, v, c);
  }

  lemma AddSigns65C02(a: bv8, v: bv8, c: bool)
    ensures var r := Adc65C02(true, a, v, c); r.negative == (r.a >= 0x80) && r.zero == (r.a == 0)
  {
  }

  lemma AddOverflow65C02(a: bv8, v: bv8, c: bool)
    ensures Adc65C02(true, a, v, c).overflow == AdcDecimal6510(a, v, c).overflow
  {
  }

  lemma AddSigns65816(a: bv8, v: bv8, c: bool)
    ensures var r := Adc65816(true, a, v, c); r.negative == (r.a >= 0x80) && r.zero == (r.a == 0)
  {
  }

  lemma AddOverflow65816(a: bv8, v: bv8, c: bool)
    ensures Adc65816(true, a, v, c).overflow == AdcDecimal6510(a, v, c).overflow
  {
  }

  lemma DecimalSubFlags(a: bv8, v: bv8, c: bool)
    ensures var r := Sbc65C02(true, a, v, c);
            r.negative == (r.a >= 0x80) && r.zero == (r.a == 0) && r.overflow == Sbc6510(true, a, v, c).overflow
    ensures var r := Sbc65816(true, a, v, c);
            r.negative == (r.a >= 0x80) && r.zero == (r.a == 0) && r.overflow == Sbc6510(true, a, v, c).overflow
  {
    hide SbcBinary, Difference6510, Sbc65C02, Sbc65816;
    SubSigns65C02(a, v, c);
    Overflows65C02(true, a, v, c);
    SubSigns65816(a, v, c);
    Overflows65816(true, a, v, c);
  }

  lemma SubSigns65C02(a: bv8, v: bv8, c: bool)
    ensures var r := Sbc65C02(true, a, v, c); r.negative == (r.a >= 0x80) && r.zero == (r.a == 0)
  {
  }

  lemma SubSigns65816(a: bv8, v: bv8, c: bool)
    ensures var r := Sbc65816(true, a, v, c); r.negative == (r.a >= 0x80) && r.zero == (r.a == 0)
  {
  }

  // --------------------------------------------------- the 16-bit 65816 addition

  lemma WideLowIsSum(acc: bv16, v: bv16, c: bool)
    ensures WideLow(acc, v, c) == Sum65816((acc & 0xff) as bv8, (v & 0xff) as bv8, c)
  {
  }

  function Byte0(t: bv32): bv8 { (t & 0xff) as bv8 }

  function Byte1(t: bv32): bv8 { ((t & 0xff00) >> 8) as bv8 }

  function Digit2(t: bv32): bv8 { ((t & 0xf00) >> 8) as bv8 }

  function Digit3(t: bv32): bv8 { ((t & 0xf000) >> 12) as bv8 }

  lemma WideHighLow(acc: bv16, v: bv16, low: bv32, k: bool)
    ensures Byte0(WideHigh(acc, v, low, k)) == Byte0(low)
  {
  }

  lemma WideDigit2(acc: bv16, v: bv16, low: bv32, k: bool)
    ensures Digit2(WideHigh(acc, v, low, k)) == DigitSum((acc >> 8) as bv8, (v >> 8) as bv8, k).0
  {
  }

  lemma WideDigit3(acc: bv16, v: bv16, low: bv32, k: bool, k2: bool)
    requires DigitSum((acc >> 8) as bv8, (v >> 8) as bv8, k).1 == k2
    ensures Digit3(WideHigh(acc, v, low, k)) == DigitSum(((acc >> 8) as bv8) >> 4, ((v >> 8) as bv8) >> 4, k2).0
    ensures (WideHigh(acc, v, low, k) > 0xffff) == DigitSum(((acc >> 8) as bv8) >> 4, ((v >> 8) as bv8) >> 4, k2).1
  {
    if k2 {} else {}
  }

  lemma DigitsMakeByte(t: bv32, x: bv8)
    requires Digit2(t) == x & 0xf && Digit3(t) == x >> 4
    ensures Byte1(t) == x
  {
  }

  lemma WideHighIsSum(acc: bv16, v: bv16, low: bv32, k: bool, a: bv8, b: bv8)
    requires a == (acc >> 8) as bv8 && b == (v >> 8) as bv8
    ensures Byte1(WideHigh(acc, v, low, k)) == Adc65816(true, a, b, k).a
    ensures (WideHigh(acc, v, low, k) > 0xffff) == Adc65816(true, a, b, k).carry
  {
    hide *;
    WideHighDigits(acc, v, low, k, a, b);
    DigitsMakeByte(WideHigh(acc, v, low, k), Adc65816(true, a, b, k).a);
  }

  lemma WideHighDigits(acc: bv16, v: bv16, low: bv32, k: bool, a: bv8, b: bv8)
    requires a == (acc >> 8) as bv8 && b == (v >> 8) as bv8
    ensures Digit2(WideHigh(acc, v, low, k)) == Adc65816(true, a, b, k).a & 0xf
    ensures Digit3(WideHigh(acc, v, low, k)) == Adc65816(true, a, b, k).a >> 4
    ensures (WideHigh(acc, v, low, k) > 0xffff) == Adc65816(true, a, b, k).carry
  {
    hide *;
    var k2 := DigitSum(a, b, k).1;
    WideDigit2(acc, v, low, k);
    AdcLow65816(a, b, k);
    WideDigit3(acc, v, low, k, k2);
    AdcHigh65816(a, b, k, k2);
  }

  lemma Uncorrected(a: bv8, v: bv8, c: bool)
    ensures var s := Sum65816(a, v, c);
            var r := Adc65816(true, a, v, c);
            r.carry == (s > 0x9f) && r.a == Byte0(Corrected(s))
  {
  }

  lemma Truncation(t: bv32)
    ensures (Truncated(t) & 0xff) as bv8 == Byte0(t) && (Truncated(t) >> 8) as bv8 == Byte1(t)
  {
  }

  lemma WideDecimalIsTwoBytes(acc: bv16, v: bv16, c: bool, a0: bv8, v0: bv8, a1: bv8, v1: bv8)
    requires a0 == (acc & 0xff) as bv8 && v0 == (v & 0xff) as bv8
    requires a1 == (acc >> 8) as bv8 && v1 == (v >> 8) as bv8
    ensures var (r, carry) := Adc65816Wide(true, acc, v, c);
            var low := Adc65816(true, a0, v0, c);
            var high := Adc65816(true, a1, v1, low.carry);
            (r & 0xff) as bv8 == low.a && (r >> 8) as bv8 == high.a && carry == high.carry
  {
    hide *;
    var tmp := WideLow(acc, v, c);
    WideLowIsSum(acc, v, c);
    Uncorrected(a0, v0, c);
    var k := Adc65816(true, a0, v0, c).carry;
    WideHighLow(acc, v, Corrected(tmp), k);
    WideHighIsSum(acc, v, Corrected(tmp), k, a1, v1);
    WideParts(acc, v, c, k);
  }

  lemma WideParts(acc: bv16, v: bv16, c: bool, k: bool)
    requires k == (WideLow(acc, v, c) > 0x9f)
    ensures var t := WideHigh(acc, v, Corrected(WideLow(acc, v, c)), k);
            var (r, carry) := Adc65816Wide(true, acc, v, c);
            (r & 0xff) as bv8 == Byte0(t) && (r >> 8) as bv8 == Byte1(t) && carry == (t > 0xffff)
  {
    hide Truncated, Byte0, Byte1, WideLow, WideHigh, Corrected;
    Truncation(WideHigh(acc, v, Corrected(WideLow(acc, v, c)), k));
  }

  lemma BinaryLow(acc: bv16, v: bv16, c: bool)
    ensures var low := AdcBinary((acc & 0xff) as bv8, (v & 0xff) as bv8, c);
            Byte0(WideBinary(acc, v, c)) == low.a
  {
    BinaryInBytes(acc, v, c);
  }

  lemma BinaryHigh(acc: bv16, v: bv16, c: bool)
    ensures var low := AdcBinary((acc & 0xff) as bv8, (v & 0xff) as bv8, c);
            var high := AdcBinary((acc >> 8) as bv8, (v >> 8) as bv8, low.carry);
            var t := WideBinary(acc, v, c);
            Byte1(t) == high.a && (t > 0xffff) == high.carry
  {
    BinaryInBytes(acc, v, c);
  }

  lemma BinaryInBytes(acc: bv16, v: bv16, c: bool)
    ensures var t: bv32 := (if c then 1 else 0) + v as bv32 + acc as bv32;
            var l := ((v & 0xff) as bv8) as bv32 + ((acc & 0xff) as bv8) as bv32 + (if c then 1 else 0);
            var h := ((v >> 8) as bv8) as bv32 + ((acc >> 8) as bv8) as bv32 + (if l > 0xff then 1 else 0);
            && (t & 0xff) as bv8 == (l & 0xff) as bv8
            && ((t & 0xff00) >> 8) as bv8 == (h & 0xff) as bv8
            && (t > 0xffff) == (h > 0xff)
  {
  }

  lemma WideBinaryIsTwoBytes(acc: bv16, v: bv16, c: bool, a0: bv8, v0: bv8, a1: bv8, v1: bv8)
    requires a0 == (acc & 0xff) as bv8 && v0 == (v & 0xff) as bv8
    requires a1 == (acc >> 8) as bv8 && v1 == (v >> 8) as bv8
    ensures var (r, carry) := Adc65816Wide(false, acc, v, c);
            var low := AdcBinary(a0, v0, c);
            var high := AdcBinary(a1, v1, low.carry);
            (r & 0xff) as bv8 == low.a && (r >> 8) as bv8 == high.a && carry == high.carry
  {
    hide Truncated, Byte0, Byte1, AdcBinary, WideBinary;
    BinaryLow(acc, v, c);
    BinaryHigh(acc, v, c);
    Truncation(WideBinary(acc, v, c));
  }

  /** A 16-bit addition gives the accumulator and the carry of two chained 8-bit
      ones, in both modes. */
  lemma WideIsTwoBytes(d: bool, acc: bv16, v: bv16, c: bool, a0: bv8, v0: bv8, a1: bv8, v1: bv8)
    requires a0 == (acc & 0xff) as bv8 && v0 == (v & 0xff) as bv8
    requires a1 == (acc >> 8) as bv8 && v1 == (v >> 8) as bv8
    ensures var (r, carry) := Adc65816Wide(d, acc, v, c);
            var low := Adc65816(d, a0, v0, c);
            var high := Adc65816(d, a1, v1, low.carry);
            (r & 0xff) as bv8 == low.a && (r >> 8) as bv8 == high.a && carry == high.carry
  {
    hide *;
    if d {
      WideDecimalIsTwoBytes(acc, v, c, a0, v0, a1, v1);
    } else {
      WideBinaryIsTwoBytes(acc, v, c, a0, v0, a1, v1);
      BinaryAdditionsAgree(a0, v0, c);
      BinaryAdditionsAgree(a1, v1, AdcBinary(a0, v0, c).carry);
    }
  }
}
