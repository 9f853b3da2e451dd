/**
 Decimal arithmetic on numbers of any length: what a program computes that adds or
 subtracts them byte by byte, least significant byte first, carrying along.
 */
module DecimalChains {
  import opened Arithmetic

  /** The 6510dtv core adds and subtracts like the 6510. */
  datatype Core = Nmos6510 | Cmos65C02 | W65816

  function Adc(core: Core, a: bv8, v: bv8, c: bool): Alu {
    match core
    case Nmos6510 => Adc6510(true, a, v, c)
    case Cmos65C02 => Adc65C02(true, a, v, c)
    case W65816 => Adc65816(true, a, v, c)
  }

  function Sbc(core: Core, a: bv8, v: bv8, c: bool): Alu {
    match core
    case Nmos6510 => Sbc6510(true, a, v, c)
    case Cmos65C02 => Sbc65C02(true, a, v, c)
    case W65816 => Sbc65816(true, a, v, c)
  }

  /** The result, and the carry out of the last byte. */
  function AddBytes(core: Core, xs: seq<bv8>, ys: seq<bv8>, c: bool): (seq<bv8>, bool)
    requires |xs| == |ys|
  {
    if xs == [] then ([], c) else
    var r := Adc(core, xs[0], ys[0], c);
    var rest := AddBytes(core, xs[1..], ys[1..], r.carry);
    ([r.a] + rest.0, rest.1)
  }

  function SubBytes(core: Core, xs: seq<bv8>, ys: seq<bv8>, c: bool): (seq<bv8>, bool)
    requires |xs| == |ys|
  {
    if xs == [] then ([], c) else
    var r := Sbc(core, xs[0], ys[0], c);
    var rest := SubBytes(core, xs[1..], ys[1..], r.carry);
    ([r.a] + rest.0, rest.1)
  }

  // -------------------------------------------------------- the numbers meant

  predicate IsDigit(x: bv8) { x <= 9 }

  function Low(b: bv8): bv8 { b & 0xf }

  function High(b: bv8): bv8 { b >> 4 }

  predicate IsBcd(b: bv8) { IsDigit(Low(b)) && IsDigit(High(b)) }

  function Nat(x: bv8): nat { x as nat }

  function Digits(b: bv8): nat { 10 * Nat(High(b)) + Nat(Low(b)) }

  ghost predicate AllBcd(xs: seq<bv8>) {
    forall i :: 0 <= i < |xs| ==> IsBcd(xs[i])
  }

  function Value(xs: seq<bv8>): nat {
    if xs == [] then 0 else Digits(xs[0]) + 100 * Value(xs[1..])
  }

  function Pow100(n: nat): nat {
    if n == 0 then 1 else 100 * Pow100(n - 1)
  }

  function One(c: bool): nat { if c then 1 else 0 }

  /** What a carry out of `n` bytes is worth. */
  function Carried(c: bool, n: nat): nat { if c then Pow100(n) else 0 }

  // ------------------------------------------------------------------ one byte

  lemma DigitSumIsExact(x: bv8, y: bv8, c: bool)
    requires IsDigit(x & 0xf) && IsDigit(y & 0xf)
    ensures var (s, k) := DigitSum(x, y, c);
            IsDigit(s) && Nat(s) + 10 * One(k) == Nat(x & 0xf) + Nat(y & 0xf) + One(c)
  {
  }

  lemma DigitDifferenceIsExact(x: bv8, y: bv8, c: bool)
    requires IsDigit(x & 0xf) && IsDigit(y & 0xf)
    ensures var (s, k) := DigitDifference(x, y, c);
            IsDigit(s) && Nat(s) + Nat(y & 0xf) + One(!c) == Nat(x & 0xf) + 10 * One(!k)
  {
  }

  lemma HighDigit(b: bv8)
    ensures (b >> 4) & 0xf == b >> 4
  {
  }

  lemma CoresAdd(core: Core, a: bv8, v: bv8, c: bool)
    ensures Adc(core, a, v, c).a == AdcDecimal6510(a, v, c).a
    ensures Adc(core, a, v, c).carry == AdcDecimal6510(a, v, c).carry
  {
    hide AdcDecimal6510, Adc65C02, Adc65816;
    SumsAgree(a, v, c);
  }

  lemma AdcOnes(core: Core, a: bv8, v: bv8, c: bool)
    requires IsBcd(a) && IsBcd(v)
    ensures var r := Adc(core, a, v, c).a;
            var k := DigitSum(a, v, c).1;
            IsDigit(Low(r)) && Nat(Low(r)) + 10 * One(k) == Nat(Low(a)) + Nat(Low(v)) + One(c)
  {
    hide Adc, DigitSum, One, Nat, IsDigit, AdcDecimal6510;
    CoresAdd(core, a, v, c);
    AdcLow6510(a, v, c);
    DigitSumIsExact(a, v, c);
  }

  lemma AdcTens(core: Core, a: bv8, v: bv8, c: bool)
    requires IsBcd(a) && IsBcd(v)
    ensures var r := Adc(core, a, v, c);
            var k := DigitSum(a, v, c).1;
            IsDigit(High(r.a)) && Nat(High(r.a)) + 10 * One(r.carry) == Nat(High(a)) + Nat(High(v)) + One(k)
  {
    hide Adc, DigitSum, One, Nat, IsDigit, AdcDecimal6510;
    var k := DigitSum(a, v, c).1;
    CoresAdd(core, a, v, c);
    AdcHigh6510(a, v, c, k);
    HighDigit(a);
    HighDigit(v);
    DigitSumIsExact(a >> 4, v >> 4, k);
  }

  lemma AdcIsExact(core: Core, a: bv8, v: bv8, c: bool)
    requires IsBcd(a) && IsBcd(v)
    ensures var r := Adc(core, a, v, c);
            IsBcd(r.a) && Digits(r.a) + 100 * One(r.carry) == Digits(a) + Digits(v) + One(c)
  {
    AdcOnes(core, a, v, c);
    AdcTens(core, a, v, c);
    hide Adc, DigitSum, One, Nat, IsDigit, Low, High;
  }

  lemma CoresSubtract(core: Core, a: bv8, v: bv8, c: bool)
    requires IsDigit(v & 0xf)
    ensures Sbc(core, a, v, c).a == Difference6510(a, v, c)
    ensures Sbc(core, a, v, c).carry == NoBorrow(a, v, c)
  {
    hide Difference6510, SbcBinary, Sbc65C02, Sbc65816, NoBorrow, BorrowsTwice, IsDigit;
    SubtractionsAgree(true, a, v, c);
    BcdBorrowsOnce(a, v, c);
    CarryIsNoBorrow6510(a, v, c);
  }

  lemma BcdBorrowsOnce(a: bv8, v: bv8, c: bool)
    requires IsDigit(v & 0xf)
    ensures !BorrowsTwice(a, v, c)
  {
  }

  lemma SbcOnes(core: Core, a: bv8, v: bv8, c: bool)
    requires IsBcd(a) && IsBcd(v)
    ensures var r := Sbc(core, a, v, c).a;
            var k := DigitDifference(a, v, c).1;
            IsDigit(Low(r)) && Nat(Low(r)) + Nat(Low(v)) + One(!c) == Nat(Low(a)) + 10 * One(!k)
  {
    hide Sbc, DigitDifference, One, Nat, IsDigit, Difference6510, NoBorrow;
    CoresSubtract(core, a, v, c);
    SbcLow6510(a, v, c);
    DigitDifferenceIsExact(a, v, c);
  }

  lemma SbcTens(core: Core, a: bv8, v: bv8, c: bool)
    requires IsBcd(a) && IsBcd(v)
    ensures var r := Sbc(core, a, v, c);
            var k := DigitDifference(a, v, c).1;
            IsDigit(High(r.a)) && Nat(High(r.a)) + Nat(High(v)) + One(!k) == Nat(High(a)) + 10 * One(!r.carry)
  {
    hide Sbc, DigitDifference, One, Nat, IsDigit, Difference6510, NoBorrow;
    var k := DigitDifference(a, v, c).1;
    CoresSubtract(core, a, v, c);
    SbcHigh6510(a, v, c, k);
    BorrowFromHighDigit(a, v, c);
    HighDigit(a);
    HighDigit(v);
    DigitDifferenceIsExact(a >> 4, v >> 4, k);
  }

  lemma SbcIsExact(core: Core, a: bv8, v: bv8, c: bool)
    requires IsBcd(a) && IsBcd(v)
    ensures var r := Sbc(core, a, v, c);
            IsBcd(r.a) && Digits(r.a) + Digits(v) + One(!c) == Digits(a) + 100 * One(!r.carry)
  {
    SbcOnes(core, a, v, c);
    SbcTens(core, a, v, c);
    hide Sbc, DigitDifference, One, Nat, IsDigit, Low, High;
  }

  // ---------------------------------------------------------- any number of bytes

  lemma {:induction false} ValueIsBounded(xs: seq<bv8>)
    requires AllBcd(xs)
    ensures Value(xs) < Pow100(|xs|)
  {
    if xs != [] {
      ValueIsBounded(xs[1..]);
      DigitsAreBounded(xs[0]);
    }
  }

  lemma DigitsAreBounded(b: bv8)
    requires IsBcd(b)
    ensures Digits(b) < 100
  {
    hide Nat, IsDigit, Low, High;
    NatOfDigit(Low(b), High(b));
  }

  /** Chained ADC adds: with the final carry worth 10^(2n), nothing is lost. */
  lemma {:induction false} AddConserves(core: Core, xs: seq<bv8>, ys: seq<bv8>, c: bool)
    requires |xs| == |ys| && AllBcd(xs) && AllBcd(ys)
    ensures var (zs, k) := AddBytes(core, xs, ys, c);
            && |zs| == |xs| && AllBcd(zs)
            && Value(zs) + Carried(k, |xs|) == Value(xs) + Value(ys) + One(c)
  {
    hide Adc, Digits, IsBcd;
    if xs != [] {
      var r := Adc(core, xs[0], ys[0], c);
      AdcIsExact(core, xs[0], ys[0], c);
      AddConserves(core, xs[1..], ys[1..], r.carry);
      var (zs, k) := AddBytes(core, xs[1..], ys[1..], r.carry);
      assert ([r.a] + zs)[1..] == zs;
    }
  }

  lemma {:induction false} SubConserves(core: Core, xs: seq<bv8>, ys: seq<bv8>, c: bool)
    requires |xs| == |ys| && AllBcd(xs) && AllBcd(ys)
    ensures var (zs, k) := SubBytes(core, xs, ys, c);
            && |zs| == |xs| && AllBcd(zs)
            && Value(zs) + Value(ys) + One(!c) == Value(xs) + Carried(!k, |xs|)
  {
    hide Sbc, Digits, IsBcd;
    if xs != [] {
      var r := Sbc(core, xs[0], ys[0], c);
      SbcIsExact(core, xs[0], ys[0], c);
      SubConserves(core, xs[1..], ys[1..], r.carry);
      var (zs, k) := SubBytes(core, xs[1..], ys[1..], r.carry);
      assert ([r.a] + zs)[1..] == zs;
    }
  }

  /** Chained ADC is exact: the sum modulo 10^(2n), and a carry exactly on overflow. */
  lemma AddIsExact(core: Core, xs: seq<bv8>, ys: seq<bv8>, c: bool)
    requires |xs| == |ys| && AllBcd(xs) && AllBcd(ys)
    ensures var (zs, k) := AddBytes(core, xs, ys, c);
            var sum := Value(xs) + Value(ys) + One(c);
            && |zs| == |xs| && AllBcd(zs)
            && Value(zs) == (if sum < Pow100(|xs|) then sum else sum - Pow100(|xs|))
            && (k <==> sum >= Pow100(|xs|))
  {
    hide AddBytes, AllBcd;
    AddConserves(core, xs, ys, c);
    ValueIsBounded(AddBytes(core, xs, ys, c).0);
  }

  /** Chained SBC is exact: the difference modulo 10^(2n), and a carry exactly when
      nothing had to be borrowed. */
  lemma SubIsExact(core: Core, xs: seq<bv8>, ys: seq<bv8>, c: bool)
    requires |xs| == |ys| && AllBcd(xs) && AllBcd(ys)
    ensures var (zs, k) := SubBytes(core, xs, ys, c);
            var difference := Value(xs) - Value(ys) - One(!c);
            && |zs| == |xs| && AllBcd(zs)
            && Value(zs) == (if difference >= 0 then difference else difference + Pow100(|xs|))
            && (k <==> difference >= 0)
  {
    hide SubBytes, AllBcd;
    SubConserves(core, xs, ys, c);
    ValueIsBounded(SubBytes(core, xs, ys, c).0);
  }

  lemma {:induction false} ValueIsInjective(xs: seq<bv8>, ys: seq<bv8>)
    requires |xs| == |ys| && AllBcd(xs) && AllBcd(ys) && Value(xs) == Value(ys)
    ensures xs == ys
  {
    hide Digits, IsBcd;
    if xs != [] {
      DigitsAreBounded(xs[0]);
      DigitsAreBounded(ys[0]);
      assert Digits(xs[0]) == Digits(ys[0]) && Value(xs[1..]) == Value(ys[1..]);
      DigitsAreInjective(xs[0], ys[0]);
      ValueIsInjective(xs[1..], ys[1..]);
      assert xs == [xs[0]] + xs[1..];
      assert ys == [ys[0]] + ys[1..];
    }
  }

  lemma DigitsAreInjective(a: bv8, b: bv8)
    requires IsBcd(a) && IsBcd(b) && Digits(a) == Digits(b)
    ensures a == b
  {
    hide Nat, IsDigit;
    NatOfDigit(Low(a), Low(b));
    NatOfDigit(High(a), High(b));
    SameDigits(a, b);
  }

  lemma NatOfDigit(x: bv8, y: bv8)
    requires IsDigit(x) && IsDigit(y)
    ensures Nat(x) <= 9 && Nat(y) <= 9 && (Nat(x) == Nat(y) ==> x == y)
  {
  }

  /** Subtracting on any core undoes adding on any core, with the complemented
      carry in; the carry out is then the complement of the addition's. */
  lemma SubUndoesAdd(adder: Core, subtractor: Core, xs: seq<bv8>, ys: seq<bv8>, c: bool)
    requires |xs| == |ys| && AllBcd(xs) && AllBcd(ys)
    ensures var (zs, k) := AddBytes(adder, xs, ys, c);
            |zs| == |ys| && SubBytes(subtractor, zs, ys, !c) == (xs, !k)
  {
    hide AddBytes, SubBytes, AllBcd, Value, Pow100, Adc, Sbc;
    var (zs, k) := AddBytes(adder, xs, ys, c);
    AddIsExact(adder, xs, ys, c);
    SubIsExact(subtractor, zs, ys, !c);
    ValueIsBounded(xs);
    ValueIsBounded(ys);
    ValueIsInjective(SubBytes(subtractor, zs, ys, !c).0, xs);
  }
}
