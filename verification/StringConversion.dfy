/** Bounded integer conversion between text and C++ integer types.

    The parsers accumulate decimal digits with a guarded multiplication by ten and a plain,
    unguarded addition.  The types are a parameter: any signedness and any width in bytes. */
module StringConversion {

  /** A two's complement integer type of the given width. */
  datatype IntType = IntType(signed: bool, bytes: nat) {
    predicate Valid() {
      bytes > 0
    }

    /** Number of distinct values: 2 to the power 8 * bytes. */
    function Span(): nat {
      Pow(256, bytes)
    }

    function Max(): int {
      if signed then Span() / 2 - 1 else Span() - 1
    }

    function Min(): int {
      if signed then -(Span() / 2) else 0
    }

    predicate Holds(n: int) {
      Min() <= n <= Max()
    }
  }

  /** How digits are added.  Plain is what the parsers do; Guarded is safe_add_digit, which the
      source defines beside it but never calls. */
  datatype Addition = Plain | Guarded

  /** Undefined is a signed addition out of range, to which C++ gives no result. */
  datatype Outcome = Value(n: int) | NotAnInteger | TrailingText | OutOfRange | Undefined

  /** A C string, without its terminating NUL. */
  type CString = s: string | '\0' !in s

  // ---------- Specification ----------

  function Pow(base: nat, e: nat): nat {
    if e == 0 then 1 else base * Pow(base, e - 1)
  }

  /** Str[i], where the character behind the text is NUL. */
  function CharAt(s: string, i: nat): char
    requires i <= |s|
  {
    if i < |s| then s[i] else '\0'
  }

  predicate IsDigit(c: char) {
    '0' <= c <= '9'
  }

  function DigitToNumber(c: char): int
    requires IsDigit(c)
  {
    c as int - '0' as int
  }

  function NumberToDigit(i: int): (c: char)
    requires 0 <= i < 10
    ensures IsDigit(c) && DigitToNumber(c) == i
  {
    (i + '0' as int) as char
  }

  /** The digits are the ten decimal ones. */
  lemma DigitsAreDecimal(d: nat)
    requires d < 10
    ensures var c := "0123456789"[d]; IsDigit(c) && DigitToNumber(c) == d && NumberToDigit(d) == c
  {
  }

  predicate AllDigits(s: string) {
    forall i :: 0 <= i < |s| ==> IsDigit(s[i])
  }

  /** The value of a string of decimal digits. */
  function Dec(s: string): nat
    requires AllDigits(s)
  {
    if s == [] then 0 else 10 * Dec(s[..|s| - 1]) + DigitToNumber(s[|s| - 1])
  }

  /** The canonical decimal digits of a number. */
  function Digits(n: nat): (r: string)
    ensures r != []
  {
    if n < 10 then [NumberToDigit(n)] else Digits(n / 10) + [NumberToDigit(n % 10)]
  }

  /** Division as C++ does it: toward zero. */
  function TruncDiv(a: int, b: int): int
    requires b > 0
  {
    if a >= 0 then a / b else -(-a / b)
  }

  /** 10 * n, or nothing where safe_multiply_by_ten reports an overflow. */
  function SafeMultiplyByTen(t: IntType, n: int): Outcome
    requires t.Valid() && t.Holds(n)
  {
    if n > 0 && t.Max() / n < 10 then OutOfRange
    else if t.signed && n < 0 && TruncDiv(t.Min(), 10) > n then OutOfRange
    else Value(n * 10)
  }

  /** Arithmetic happens in int, of 4 bytes, if the type is narrower than that. */
  function Promoted(t: IntType): IntType {
    if t.bytes < 4 then IntType(true, 4) else t
  }

  /** Does a sum out of range wrap around?  One of a narrow type is in the range of int, and is
      then converted to the type; which is done modulo its span, as it is for unsigned types. */
  predicate Wraps(t: IntType) {
    !t.signed || Promoted(t) != t
  }

  /** The value of the type that is congruent to n, which is out of range by one digit. */
  function Wrapped(t: IntType, n: int): int {
    if n < t.Min() then n + t.Span() else n - t.Span()
  }

  /** The sum of a value and a digit. */
  function PlainAdd(t: IntType, n: int, d: int): Outcome {
    if t.Holds(n + d) then Value(n + d)
    else if Wraps(t) then Value(Wrapped(t, n + d))
    else Undefined
  }

  function SafeAddDigit(t: IntType, n: int, d: int): Outcome {
    if n > 0 && n > t.Max() - d then OutOfRange
    else if n < 0 && n < t.Min() - d then OutOfRange
    else Value(n + d)
  }

  function AbsorbDigit(t: IntType, add: Addition, value: int, digit: int): Outcome
    requires t.Valid() && t.Holds(value)
  {
    SpanFacts(t);
    match SafeMultiplyByTen(t, value)
    case Value(m) => if add.Plain? then PlainAdd(t, m, digit) else SafeAddDigit(t, m, digit)
    case o => o
  }

  lemma SpanFacts(t: IntType)
    requires t.Valid()
    ensures t.Span() % 2 == 0 && t.Span() >= 256
    ensures t.Holds(0) && t.Max() >= 127
    ensures t.signed ==> t.Min() == -t.Max() - 1
  {
    PowPositive(256, t.bytes - 1);
    var p := Pow(256, t.bytes - 1);
    assert t.Span() == 256 * p && p >= 1;
  }

  lemma {:induction false} PowPositive(base: nat, e: nat)
    requires base > 0
    ensures Pow(base, e) > 0
  {
    if e > 0 { PowPositive(base, e - 1); }
  }

  function Signed(negative: bool, n: int): int {
    if negative then -n else n
  }

  /** What safe_add_digit asserts: value and digits are of the same sign. */
  predicate SameSign(t: IntType, add: Addition, negative: bool, acc: int) {
    && (negative ==> t.signed)
    && (add.Guarded? ==> if negative then acc <= 0 else acc >= 0)
  }

  /** Absorb the digits of s from i on into acc, each with the numeral's sign; then expect
      the end of the text. */
  function Absorb(t: IntType, add: Addition, negative: bool, s: CString, i: nat, acc: int): Outcome
    requires t.Valid() && t.Holds(acc) && i <= |s|
    requires SameSign(t, add, negative, acc)
    decreases |s| - i
  {
    SpanFacts(t);
    if i < |s| && IsDigit(s[i]) then
      var step := AbsorbDigit(t, add, acc, Signed(negative, DigitToNumber(s[i])));
      AbsorbStaysInType(t, add, negative, acc, DigitToNumber(s[i]));
      if step.Value? then Absorb(t, add, negative, s, i + 1, step.n) else step
    else if CharAt(s, i) != '\0' then TrailingText
    else Value(acc)
  }

  function ParseSigned(t: IntType, add: Addition, s: CString): Outcome
    requires t.Valid() && t.signed
  {
    SpanFacts(t);
    if IsDigit(CharAt(s, 0)) then Absorb(t, add, false, s, 0, 0)
    else if CharAt(s, 0) != '-' then NotAnInteger
    else Absorb(t, add, true, s, 1, 0)
  }

  function ParseUnsigned(t: IntType, add: Addition, s: CString): Outcome
    requires t.Valid() && !t.signed
  {
    SpanFacts(t);
    if IsDigit(CharAt(s, 0)) then Absorb(t, add, false, s, 0, 0) else NotAnInteger
  }

  // ---------- The guards are exact ----------

  lemma SafeMultiplyExact(t: IntType, n: int)
    requires t.Valid() && t.Holds(n)
    ensures SafeMultiplyByTen(t, n) == if t.Holds(10 * n) then Value(10 * n) else OutOfRange
  {
    SpanFacts(t);
    if n > 0 {
      QuotientBelowTen(t.Max(), n);
    }
  }

  lemma QuotientBelowTen(m: nat, n: nat)
    requires n > 0
    ensures m / n < 10 <==> m < 10 * n
  {
    var q, r := m / n, m % n;
    assert m == n * q + r && 0 <= r < n;
    if q < 10 {
      assert n * q <= n * 9;
    } else {
      assert n * q >= n * 10;
    }
  }

  lemma AbsorbStaysInType(t: IntType, add: Addition, negative: bool, acc: int, d: nat)
    requires t.Valid() && t.Holds(acc) && d <= 9 && SameSign(t, add, negative, acc)
    ensures var r := AbsorbDigit(t, add, acc, Signed(negative, d));
            r.Value? ==> t.Holds(r.n) && SameSign(t, add, negative, r.n)
  {
    SafeMultiplyExact(t, acc);
    SpanFacts(t);
  }

  /** One step of the accumulation, in terms of the mathematical value. */
  lemma AbsorbDigitExact(t: IntType, add: Addition, negative: bool, acc: int, d: nat)
    requires t.Valid() && t.Holds(acc) && d <= 9 && SameSign(t, add, negative, acc)
    ensures var r := AbsorbDigit(t, add, acc, Signed(negative, d));
            var v := 10 * acc + Signed(negative, d);
            if !t.Holds(10 * acc) then r == OutOfRange
            else if t.Holds(v) then r == Value(v)
            else if add.Guarded? then r == OutOfRange
            else if Wraps(t) then r == Value(Wrapped(t, v)) && t.Holds(Wrapped(t, v))
            else r == Undefined
  {
    SafeMultiplyExact(t, acc);
    SpanFacts(t);
  }

  lemma {:induction false} DecGrows(s: string, i: nat)
    requires AllDigits(s) && i <= |s|
    ensures Dec(s[..i]) <= Dec(s)
    decreases |s|
  {
    if i < |s| {
      DecGrows(s[..|s| - 1], i);
      assert s[..|s| - 1][..i] == s[..i];
    } else {
      assert s[..i] == s;
    }
  }

  lemma DecStep(s: string, i: nat)
    requires i < |s| && AllDigits(s[..i]) && IsDigit(s[i])
    ensures AllDigits(s[..i + 1])
    ensures Dec(s[..i + 1]) == 10 * Dec(s[..i]) + DigitToNumber(s[i])
  {
    assert s[..i + 1][..i] == s[..i];
  }

  /** One step, in terms of the text: what happens depends on the value of the digits so far. */
  lemma AbsorbNextDigit(t: IntType, add: Addition, negative: bool, s: CString, from: nat, i: nat, acc: int)
    requires t.Valid() && t.Holds(acc) && from <= i < |s| && IsDigit(s[i])
    requires SameSign(t, add, negative, acc) && (add.Guarded? || !Wraps(t))
    requires AllDigits(s[from..i]) && acc == Signed(negative, Dec(s[from..i]))
    ensures AllDigits(s[from..i + 1])
    ensures Dec(s[from..i + 1]) == 10 * Dec(s[from..i]) + DigitToNumber(s[i])
    ensures var v := Signed(negative, Dec(s[from..i + 1]));
            Absorb(t, add, negative, s, i, acc)
            == if t.Holds(v) then Absorb(t, add, negative, s, i + 1, v)
               else if add.Plain? && t.Holds(10 * acc) then Undefined
               else OutOfRange
  {
    AbsorbDigitExact(t, add, negative, acc, DigitToNumber(s[i]));
    DecSliceStep(s, from, i);
  }

  /** From a correct intermediate value, absorbing the rest accepts exactly the in-range
      numerals, with their exact value. */
  lemma {:induction false} AbsorbExact(t: IntType, add: Addition, negative: bool, s: CString, from: nat, i: nat, acc: int)
    requires t.Valid() && t.Holds(acc) && from <= i <= |s|
    requires SameSign(t, add, negative, acc) && (add.Guarded? || !Wraps(t))
    requires AllDigits(s[from..i]) && acc == Signed(negative, Dec(s[from..i]))
    ensures var r := Absorb(t, add, negative, s, i, acc);
            r.Value? <==> AllDigits(s[from..]) && t.Holds(Signed(negative, Dec(s[from..])))
    ensures var r := Absorb(t, add, negative, s, i, acc);
            r.Value? ==> r.n == Signed(negative, Dec(s[from..]))
    decreases |s| - i
  {
    SpanFacts(t);
    if i < |s| && IsDigit(s[i]) {
      AbsorbNextDigit(t, add, negative, s, from, i, acc);
      var v := Signed(negative, Dec(s[from..i + 1]));
      if t.Holds(v) {
        AbsorbExact(t, add, negative, s, from, i + 1, v);
      } else if AllDigits(s[from..]) {
        DecSliceGrows(s, from, i + 1);
      }
    } else if i < |s| {
      assert s[i] == s[from..][i - from];
    } else {
      assert s[from..i] == s[from..];
    }
  }

  lemma DecSliceStep(s: string, from: nat, i: nat)
    requires from <= i < |s| && AllDigits(s[from..i]) && IsDigit(s[i])
    ensures AllDigits(s[from..i + 1])
    ensures Dec(s[from..i + 1]) == 10 * Dec(s[from..i]) + DigitToNumber(s[i])
  {
    assert s[from..i + 1][..i - from] == s[from..i];
  }

  lemma DecSliceGrows(s: string, from: nat, i: nat)
    requires from <= i <= |s| && AllDigits(s[from..])
    ensures AllDigits(s[from..i]) && Dec(s[from..i]) <= Dec(s[from..])
  {
    assert s[from..][..i - from] == s[from..i];
    DecGrows(s[from..], i - from);
  }

  // ---------- Signed parsing ----------

  /** An optional minus sign and decimal digits.  A lone minus sign qualifies: the parser takes
      it for zero. */
  predicate SignedNumeral(s: string) {
    |s| > 0 && if s[0] == '-' then AllDigits(s[1..]) else AllDigits(s)
  }

  function NumeralValue(s: string): int
    requires SignedNumeral(s)
  {
    if s[0] == '-' then -(Dec(s[1..]) as int) else Dec(s)
  }

  /** Where sums do not wrap, signed parsing accepts exactly the numerals whose value the type can
      hold, and accepts them with that value. */
  lemma SignedParsesExactly(t: IntType, add: Addition, s: CString)
    requires t.Valid() && t.signed && (add.Guarded? || !Wraps(t))
    ensures ParseSigned(t, add, s).Value? <==> SignedNumeral(s) && t.Holds(NumeralValue(s))
    ensures ParseSigned(t, add, s).Value? ==> ParseSigned(t, add, s).n == NumeralValue(s)
  {
    SpanFacts(t);
    if IsDigit(CharAt(s, 0)) {
      assert s[0..] == s;
      AbsorbExact(t, add, false, s, 0, 0, 0);
    } else if CharAt(s, 0) == '-' {
      AbsorbExact(t, add, true, s, 1, 1, 0);
    }
  }

  /** The largest magnitude that a numeral of the given sign can denote. */
  function Limit(t: IntType, negative: bool): int {
    if negative then -t.Min() else t.Max()
  }

  /** The largest number with the digits of the limit, but for the last. */
  function Reach(t: IntType, negative: bool): int {
    10 * (Limit(t, negative) / 10) + 9
  }

  function Magnitude(s: string): nat
    requires SignedNumeral(s)
  {
    if s[0] == '-' then Dec(s[1..]) else Dec(s)
  }

  function NarrowValue(t: IntType, negative: bool, magnitude: nat): int {
    var v := Signed(negative, magnitude);
    if t.Holds(v) then v else Wrapped(t, v)
  }

  /** Exactly digits that denote a number within reach are accepted, perhaps wrapped around. */
  predicate NarrowOutcome(t: IntType, negative: bool, digits: string, r: Outcome) {
    && (r.Value? <==> AllDigits(digits) && Dec(digits) <= Reach(t, negative))
    && (r.Value? ==> r.n == NarrowValue(t, negative, Dec(digits)))
    && !r.Undefined?
  }

  lemma {:induction false} AbsorbNarrow(t: IntType, negative: bool, s: CString, from: nat, i: nat, acc: int)
    requires t.Valid() && t.signed && Wraps(t) && t.Holds(acc) && from <= i <= |s|
    requires AllDigits(s[from..i]) && acc == Signed(negative, Dec(s[from..i]))
    ensures NarrowOutcome(t, negative, s[from..], Absorb(t, Plain, negative, s, i, acc))
    decreases |s| - i
  {
    var more, v := AbsorbNarrowStep(t, negative, s, from, i, acc);
    if more {
      AbsorbNarrow(t, negative, s, from, i + 1, v);
    }
  }

  /** Either there is another digit that leaves the value in range, or the outcome is settled. */
  lemma AbsorbNarrowStep(t: IntType, negative: bool, s: CString, from: nat, i: nat, acc: int) returns (more: bool, v: int)
    requires t.Valid() && t.signed && Wraps(t) && t.Holds(acc) && from <= i <= |s|
    requires AllDigits(s[from..i]) && acc == Signed(negative, Dec(s[from..i]))
    ensures more ==>
              && i < |s| && t.Holds(v) && AllDigits(s[from..i + 1]) && v == Signed(negative, Dec(s[from..i + 1]))
              && Absorb(t, Plain, negative, s, i, acc) == Absorb(t, Plain, negative, s, i + 1, v)
    ensures !more ==> NarrowOutcome(t, negative, s[from..], Absorb(t, Plain, negative, s, i, acc))
  {
    more, v := false, 0;
    if i == |s| || !IsDigit(s[i]) {
      AbsorbNarrowStops(t, negative, s, from, i, acc);
    } else if !t.Holds(10 * acc) {
      AbsorbNarrowRefuses(t, negative, s, from, i, acc);
    } else if !t.Holds(10 * acc + Signed(negative, DigitToNumber(s[i]))) {
      AbsorbNarrowWrap(t, negative, s, from, i, acc);
    } else {
      more, v := true, 10 * acc + Signed(negative, DigitToNumber(s[i]));
      AbsorbNarrowGoesOn(t, negative, s, from, i, acc);
    }
  }

  lemma AbsorbNarrowGoesOn(t: IntType, negative: bool, s: CString, from: nat, i: nat, acc: int)
    requires t.Valid() && t.signed && Wraps(t) && t.Holds(acc) && from <= i < |s| && IsDigit(s[i])
    requires AllDigits(s[from..i]) && acc == Signed(negative, Dec(s[from..i])) && t.Holds(10 * acc)
    requires t.Holds(10 * acc + Signed(negative, DigitToNumber(s[i])))
    ensures var v := 10 * acc + Signed(negative, DigitToNumber(s[i]));
            && Absorb(t, Plain, negative, s, i, acc) == Absorb(t, Plain, negative, s, i + 1, v)
            && AllDigits(s[from..i + 1]) && v == Signed(negative, Dec(s[from..i + 1]))
  {
    AbsorbDigitExact(t, Plain, negative, acc, DigitToNumber(s[i]));
    DecSliceStep(s, from, i);
  }

  lemma AbsorbNarrowRefuses(t: IntType, negative: bool, s: CString, from: nat, i: nat, acc: int)
    requires t.Valid() && t.signed && Wraps(t) && t.Holds(acc) && from <= i < |s| && IsDigit(s[i])
    requires AllDigits(s[from..i]) && acc == Signed(negative, Dec(s[from..i])) && !t.Holds(10 * acc)
    ensures NarrowOutcome(t, negative, s[from..], Absorb(t, Plain, negative, s, i, acc))
  {
    var d := DigitToNumber(s[i]);
    AbsorbDigitExact(t, Plain, negative, acc, d);
    assert Absorb(t, Plain, negative, s, i, acc) == OutOfRange;
    if AllDigits(s[from..]) {
      BeyondReach(t, negative, s, from, i);
    }
  }

  lemma BeyondReach(t: IntType, negative: bool, s: string, from: nat, i: nat)
    requires t.Valid() && t.signed && from <= i < |s| && AllDigits(s[from..])
    requires AllDigits(s[from..i]) && !t.Holds(10 * Signed(negative, Dec(s[from..i])))
    ensures Dec(s[from..]) > Reach(t, negative)
  {
    assert s[i] == s[from..][i - from];
    ReachFacts(t, negative, Dec(s[from..i]), 0);
    DecSliceStep(s, from, i);
    DecSliceGrows(s, from, i + 1);
  }

  lemma AbsorbNarrowStops(t: IntType, negative: bool, s: CString, from: nat, i: nat, acc: int)
    requires t.Valid() && t.signed && t.Holds(acc) && from <= i <= |s| && (i < |s| ==> !IsDigit(s[i]))
    requires AllDigits(s[from..i]) && acc == Signed(negative, Dec(s[from..i]))
    ensures NarrowOutcome(t, negative, s[from..], Absorb(t, Plain, negative, s, i, acc))
  {
    if i < |s| {
      assert s[i] == s[from..][i - from];
    } else {
      assert s[from..i] == s[from..];
      ReachFacts(t, negative, Dec(s[from..]), 0);
    }
  }

  /** The digit that takes the value out of range must be the last; behind it the value is at the
      other end of the range, and no digit more can be absorbed. */
  lemma AbsorbNarrowWrap(t: IntType, negative: bool, s: CString, from: nat, i: nat, acc: int)
    requires t.Valid() && t.signed && Wraps(t) && t.Holds(acc) && from <= i < |s| && IsDigit(s[i])
    requires AllDigits(s[from..i]) && acc == Signed(negative, Dec(s[from..i])) && t.Holds(10 * acc)
    requires !t.Holds(10 * acc + Signed(negative, DigitToNumber(s[i])))
    ensures NarrowOutcome(t, negative, s[from..], Absorb(t, Plain, negative, s, i, acc))
  {
    var d := DigitToNumber(s[i]);
    AbsorbDigitExact(t, Plain, negative, acc, d);
    DecSliceStep(s, from, i);
    ReachFacts(t, negative, Dec(s[from..i]), d);
    AbsorbNoMore(t, negative, s, i + 1, AbsorbDigit(t, Plain, acc, Signed(negative, d)).n);
    if i + 1 < |s| {
      assert s[i + 1] == s[from..][i + 1 - from];
      if AllDigits(s[from..]) {
        DecSliceStep(s, from, i + 1);
        DecSliceGrows(s, from, i + 2);
      }
    } else {
      assert s[from..i + 1] == s[from..];
    }
  }

  lemma ReachFacts(t: IntType, negative: bool, m: nat, d: nat)
    requires t.Valid() && t.signed && d <= 9
    ensures t.Holds(Signed(negative, 10 * m)) <==> 10 * m <= Limit(t, negative)
    ensures t.Holds(Signed(negative, 10 * m + d)) <==> 10 * m + d <= Limit(t, negative)
    ensures t.Holds(Signed(negative, m)) ==> m <= Limit(t, negative) <= Reach(t, negative)
    ensures 10 * m > Limit(t, negative) ==> 10 * m > Reach(t, negative)
    ensures 10 * m <= Limit(t, negative) ==> 10 * m + d <= Reach(t, negative)
    ensures 10 * m + d > Limit(t, negative) ==> 10 * (10 * m + d) > Reach(t, negative)
  {
    SpanFacts(t);
    TensFacts(Limit(t, negative), 10 * m, d);
  }

  lemma TensFacts(limit: nat, tens: nat, d: nat)
    requires tens % 10 == 0 && d <= 9
    ensures limit <= 10 * (limit / 10) + 9
    ensures tens > limit ==> tens > 10 * (limit / 10) + 9
    ensures tens <= limit ==> tens + d <= 10 * (limit / 10) + 9
    ensures tens + d > limit ==> 10 * (tens + d) > 10 * (limit / 10) + 9
  {
    var q := limit / 10;
    assert 10 * q <= limit <= 10 * q + 9;
    var k := tens / 10;
    assert tens == 10 * k;
  }

  /** At either end of the range no digit can be absorbed. */
  lemma AbsorbNoMore(t: IntType, negative: bool, s: CString, i: nat, w: int)
    requires t.Valid() && t.signed && t.Holds(w) && i <= |s| && (w <= t.Min() + 9 || w >= t.Max() - 9)
    ensures Absorb(t, Plain, negative, s, i, w)
            == if i == |s| then Value(w) else if IsDigit(s[i]) then OutOfRange else TrailingText
  {
    SpanFacts(t);
    if i < |s| && IsDigit(s[i]) {
      AbsorbDigitExact(t, Plain, negative, w, DigitToNumber(s[i]));
    }
  }

  /** In a signed type narrower than int the parser accepts exactly the numerals up to the reach of
      the type, those beyond its limit wrapped around; it is never undefined. */
  lemma NarrowSignedParsesExactly(t: IntType, s: CString)
    requires t.Valid() && t.signed && Wraps(t)
    ensures var r := ParseSigned(t, Plain, s);
            && (r.Value? <==> SignedNumeral(s) && Magnitude(s) <= Reach(t, s[0] == '-'))
            && (r.Value? ==> r.n == NarrowValue(t, s[0] == '-', Magnitude(s)))
            && (r.Value? ==> (r.n == NumeralValue(s) <==> Magnitude(s) <= Limit(t, s[0] == '-')))
            && !r.Undefined?
  {
    SpanFacts(t);
    if IsDigit(CharAt(s, 0)) {
      assert s[0..] == s;
      AbsorbNarrow(t, false, s, 0, 0, 0);
    } else if CharAt(s, 0) == '-' {
      AbsorbNarrow(t, true, s, 1, 1, 0);
    }
  }

  /** What is no integer at all is told from what has text behind one. */
  lemma FirstCharacterDecides(t: IntType, add: Addition, s: CString)
    requires t.Valid()
    ensures t.signed ==> (ParseSigned(t, add, s) == NotAnInteger <==> s == [] || (!IsDigit(s[0]) && s[0] != '-'))
    ensures !t.signed ==> (ParseUnsigned(t, add, s) == NotAnInteger <==> s == [] || !IsDigit(s[0]))
  {
    SpanFacts(t);
    if IsDigit(CharAt(s, 0)) {
      AbsorbIsSomething(t, add, false, s, 0, 0);
    } else if t.signed && CharAt(s, 0) == '-' {
      AbsorbIsSomething(t, add, true, s, 1, 0);
    }
  }

  lemma {:induction false} AbsorbIsSomething(t: IntType, add: Addition, negative: bool, s: CString, i: nat, acc: int)
    requires t.Valid() && t.Holds(acc) && i <= |s| && SameSign(t, add, negative, acc)
    ensures Absorb(t, add, negative, s, i, acc) != NotAnInteger
    decreases |s| - i
  {
    if i < |s| && IsDigit(s[i]) {
      AbsorbStaysInType(t, add, negative, acc, DigitToNumber(s[i]));
      var step := AbsorbDigit(t, add, acc, Signed(negative, DigitToNumber(s[i])));
      if step.Value? { AbsorbIsSomething(t, add, negative, s, i + 1, step.n); }
    }
  }

  /** Text behind a number in range is what is wrong then. */
  lemma {:induction false} TrailingTextIsTold(t: IntType, add: Addition, negative: bool, s: CString, from: nat, i: nat, acc: int, end: nat)
    requires t.Valid() && t.Holds(acc) && from <= i <= end < |s| && SameSign(t, add, negative, acc)
    requires AllDigits(s[from..end]) && !IsDigit(s[end]) && t.Holds(Signed(negative, Dec(s[from..end])))
    requires AllDigits(s[from..i]) && acc == Signed(negative, Dec(s[from..i]))
    ensures Absorb(t, add, negative, s, i, acc) == TrailingText
    decreases end - i
  {
    if i < end {
      var v := AnotherInRange(t, add, negative, s, from, i, acc, end);
      TrailingTextIsTold(t, add, negative, s, from, i + 1, v, end);
    }
  }

  lemma AnotherInRange(t: IntType, add: Addition, negative: bool, s: CString, from: nat, i: nat, acc: int, end: nat) returns (v: int)
    requires t.Valid() && t.Holds(acc) && from <= i < end <= |s| && SameSign(t, add, negative, acc)
    requires AllDigits(s[from..end]) && t.Holds(Signed(negative, Dec(s[from..end])))
    requires AllDigits(s[from..i]) && acc == Signed(negative, Dec(s[from..i]))
    ensures t.Holds(v) && SameSign(t, add, negative, v) && AllDigits(s[from..i + 1]) && v == Signed(negative, Dec(s[from..i + 1]))
    ensures Absorb(t, add, negative, s, i, acc) == Absorb(t, add, negative, s, i + 1, v)
  {
    assert s[i] == s[from..end][i - from];
    DecSliceStep(s, from, i);
    DecSliceGrows(s[..end], from, i + 1);
    assert s[..end][from..] == s[from..end] && s[..end][from..i + 1] == s[from..i + 1];
    v := 10 * acc + Signed(negative, DigitToNumber(s[i]));
    SpanFacts(t);
    AbsorbDigitExact(t, add, negative, acc, DigitToNumber(s[i]));
  }

  lemma TrailingTextIsReported(t: IntType, add: Addition, s: CString, end: nat)
    requires t.Valid() && 0 < end < |s| && AllDigits(s[..end]) && !IsDigit(s[end]) && t.Holds(Dec(s[..end]))
    ensures t.signed ==> ParseSigned(t, add, s) == TrailingText
    ensures !t.signed ==> ParseUnsigned(t, add, s) == TrailingText
  {
    SpanFacts(t);
    assert s[0] == s[..end][0] && s[0..end] == s[..end];
    TrailingTextIsTold(t, add, false, s, 0, 0, 0, end);
  }

  /** In any signed type a numeral in range is accepted, with its value. */
  lemma SignedInRangeIsExact(t: IntType, add: Addition, s: CString)
    requires t.Valid() && t.signed && SignedNumeral(s) && t.Holds(NumeralValue(s))
    ensures ParseSigned(t, add, s) == Value(NumeralValue(s))
  {
    SpanFacts(t);
    if add.Guarded? || !Wraps(t) {
      SignedParsesExactly(t, add, s);
    } else {
      NarrowSignedParsesExactly(t, s);
    }
  }

  /** A minus makes a number negative. */
  lemma MinusNegates()
    ensures ParseSigned(IntType(true, 2), Plain, "-12") == Value(-12) && DecimalText(-12) == "-12"
  {
    var t, s := IntType(true, 2), "-12";
    assert s[1..] == "12";
    DecStep("12", 0);
    DecStep("12", 1);
    assert "12"[..2] == "12";
    SpanFacts(t);
    SignedInRangeIsExact(t, Plain, s);
    assert Digits(12) == Digits(1) + [NumberToDigit(2)];
  }

  lemma DecBehindMaximum()
    ensures AllDigits("32768") && Dec("32768") == 32768
  {
    var s := "32768";
    DecStep(s, 0);
    DecStep(s, 1);
    DecStep(s, 2);
    DecStep(s, 3);
    DecStep(s, 4);
    assert s[..5] == s;
  }

  /** The number behind the maximum of a two-byte type is accepted as its minimum. */
  lemma NarrowWrapAccepted()
    ensures ParseSigned(IntType(true, 2), Plain, "32768") == Value(-32768)
  {
    var t, s := IntType(true, 2), "32768";
    assert Pow(256, 1) == 256 * Pow(256, 0) && t.Span() == 65536;
    DecBehindMaximum();
    NarrowSignedParsesExactly(t, s);
  }

  /** With the unused guarded addition in place of the plain one no input is undefined. */
  lemma {:induction false} GuardedAdditionIsDefined(t: IntType, negative: bool, s: CString, i: nat, acc: int)
    requires t.Valid() && t.Holds(acc) && i <= |s| && SameSign(t, Guarded, negative, acc)
    ensures !Absorb(t, Guarded, negative, s, i, acc).Undefined?
    decreases |s| - i
  {
    if i < |s| && IsDigit(s[i]) {
      AbsorbDigitExact(t, Guarded, negative, acc, DigitToNumber(s[i]));
      AbsorbStaysInType(t, Guarded, negative, acc, DigitToNumber(s[i]));
      var step := AbsorbDigit(t, Guarded, acc, Signed(negative, DigitToNumber(s[i])));
      if step.Value? {
        GuardedAdditionIsDefined(t, negative, s, i + 1, step.n);
      }
    }
  }

  /** The digits before s[k] denote a number whose tenfold still fits, but s[k] takes it out of
      range: the multiplication guard is silent and the addition overflows. */
  predicate OverflowPoint(t: IntType, negative: bool, s: string, from: nat, k: nat) {
    && from <= k < |s| && AllDigits(s[from..k]) && IsDigit(s[k])
    && Dec(s[from..k]) == Limit(t, negative) / 10 && DigitToNumber(s[k]) > Limit(t, negative) % 10
  }

  predicate HasOverflowPoint(t: IntType, negative: bool, s: string, from: nat, i: nat) {
    exists k: nat :: i <= k < |s| && OverflowPoint(t, negative, s, from, k)
  }

  /** Behind a prefix that is out of range already there is no overflow point. */
  lemma NoPointOutOfRange(t: IntType, negative: bool, s: string, from: nat, i: nat)
    requires t.Valid() && from <= i <= |s| && AllDigits(s[from..i])
    requires Dec(s[from..i]) > Limit(t, negative) >= 0
    ensures !HasOverflowPoint(t, negative, s, from, i)
  {
    forall k: nat | i <= k < |s| ensures !OverflowPoint(t, negative, s, from, k) {
      if AllDigits(s[from..k]) {
        assert s[from..k][..i - from] == s[from..i];
        DecGrows(s[from..k], i - from);
      }
    }
  }

  /** Nor behind the end of the digits. */
  lemma NoPointPastDigits(t: IntType, negative: bool, s: string, from: nat, i: nat)
    requires from <= i <= |s| && (i < |s| ==> !IsDigit(s[i]))
    ensures !HasOverflowPoint(t, negative, s, from, i)
  {
    forall k: nat | i <= k < |s| ensures !OverflowPoint(t, negative, s, from, k) {
      if i < k {
        assert s[from..k][i - from] == s[i];
      }
    }
  }

  lemma NextPoint(t: IntType, negative: bool, s: string, from: nat, i: nat)
    requires !OverflowPoint(t, negative, s, from, i)
    ensures HasOverflowPoint(t, negative, s, from, i) <==> HasOverflowPoint(t, negative, s, from, i + 1)
  {
  }

  lemma OverflowPointIsBeyond(t: IntType, negative: bool, s: string, from: nat, i: nat, acc: int)
    requires t.Valid() && t.signed && from <= i < |s| && AllDigits(s[from..i]) && IsDigit(s[i])
    requires t.Holds(acc) && acc == Signed(negative, Dec(s[from..i]))
    ensures OverflowPoint(t, negative, s, from, i)
            <==> t.Holds(10 * acc) && !t.Holds(10 * acc + Signed(negative, DigitToNumber(s[i])))
    ensures !t.Holds(10 * acc + Signed(negative, DigitToNumber(s[i]))) ==>
              10 * Dec(s[from..i]) + DigitToNumber(s[i]) > Limit(t, negative) >= 0
  {
    SpanFacts(t);
  }

  lemma {:induction false} AbsorbUndefinedExactlyWhen(t: IntType, negative: bool, s: CString, from: nat, i: nat, acc: int)
    requires t.Valid() && !Wraps(t) && t.Holds(acc) && from <= i <= |s|
    requires AllDigits(s[from..i]) && acc == Signed(negative, Dec(s[from..i]))
    ensures Absorb(t, Plain, negative, s, i, acc) == Undefined <==> HasOverflowPoint(t, negative, s, from, i)
    decreases |s| - i
  {
    SpanFacts(t);
    if i < |s| && IsDigit(s[i]) {
      AbsorbNextDigit(t, Plain, negative, s, from, i, acc);
      OverflowPointIsBeyond(t, negative, s, from, i, acc);
      var v := Signed(negative, Dec(s[from..i + 1]));
      if t.Holds(v) || !t.Holds(10 * acc) {
        NextPoint(t, negative, s, from, i);
        if t.Holds(v) {
          AbsorbUndefinedExactlyWhen(t, negative, s, from, i + 1, v);
        } else {
          NoPointOutOfRange(t, negative, s, from, i + 1);
        }
      }
    } else {
      NoPointPastDigits(t, negative, s, from, i);
    }
  }

  /** The signed parser's outcome is undefined exactly for texts with an overflow point, in types
      as wide as int or wider. */
  lemma SignedUndefinedExactlyWhen(t: IntType, s: CString)
    requires t.Valid() && t.signed && s != []
    ensures var negative := s[0] == '-';
            ParseSigned(t, Plain, s) == Undefined
            <==> t.bytes >= 4 && HasOverflowPoint(t, negative, s, if negative then 1 else 0, 0)
  {
    SpanFacts(t);
    if Wraps(t) {
      NarrowSignedParsesExactly(t, s);
    } else if IsDigit(s[0]) {
      AbsorbUndefinedExactlyWhen(t, false, s, 0, 0, 0);
    } else if s[0] == '-' {
      AbsorbUndefinedExactlyWhen(t, true, s, 1, 1, 0);
      NextPoint(t, true, s, 1, 0);
    } else {
      NoPointPastDigits(t, false, s, 0, 0);
    }
  }

  // ---------- Unsigned parsing ----------

  /** The next digit takes a number whose tenfold still fits beyond the type's maximum: the
      multiplication guard is silent and the addition wraps. */
  predicate WrapPoint(t: IntType, s: string, k: nat)
    requires t.Valid() && AllDigits(s)
  {
    k < |s| && Dec(s[..k]) == t.Max() / 10 && DigitToNumber(s[k]) > t.Max() % 10
  }

  /** Whatever the unsigned parser accepts is congruent to the decimal value. */
  lemma {:induction false} UnsignedCongruent(t: IntType, s: CString, i: nat, acc: int)
    requires t.Valid() && !t.signed && t.Holds(acc) && i <= |s|
    requires AllDigits(s[..i]) && acc % t.Span() == Dec(s[..i]) % t.Span()
    ensures var r := Absorb(t, Plain, false, s, i, acc);
            r.Value? ==> t.Holds(r.n) && AllDigits(s) && r.n % t.Span() == Dec(s) % t.Span()
    decreases |s| - i
  {
    SpanFacts(t);
    if i < |s| && IsDigit(s[i]) {
      var d := DigitToNumber(s[i]);
      AbsorbDigitExact(t, Plain, false, acc, d);
      AbsorbStaysInType(t, Plain, false, acc, d);
      DecStep(s, i);
      var step := AbsorbDigit(t, Plain, acc, d);
      if step.Value? {
        ModStep(t.Span(), acc, Dec(s[..i]), d);
        ModMinusSpan(t.Span(), 10 * acc + d);
        UnsignedCongruent(t, s, i + 1, step.n);
      }
    } else if i == |s| {
      assert s[..i] == s;
    }
  }

  lemma ModStep(m: nat, a: int, b: int, d: int)
    requires m > 0 && a % m == b % m
    ensures (10 * a + d) % m == (10 * b + d) % m
  {
    var q := a / m - b / m;
    assert a == m * (a / m) + a % m && b == m * (b / m) + b % m;
    assert a - b == m * q;
    assert 10 * a + d == (10 * b + d) + (10 * q) * m;
    ModAddMultiple(m, 10 * b + d, 10 * q);
  }

  lemma ModMinusSpan(m: nat, a: int)
    requires m > 0
    ensures (a - m) % m == a % m
  {
    ModAddMultiple(m, a, -1);
  }

  lemma ModAddMultiple(m: nat, a: int, k: int)
    requires m > 0
    ensures (a + k * m) % m == a % m
  {
    var r, q := a % m, a / m;
    assert a + k * m == (q + k) * m + r;
    DivisionUnique(m, q + k, r);
  }

  lemma DivisionUnique(m: nat, q: int, r: int)
    requires m > 0 && 0 <= r < m
    ensures (q * m + r) % m == r
  {
    var a := q * m + r;
    var q', r' := a / m, a % m;
    assert a == m * q' + r' && 0 <= r' < m;
    var k := q - q';
    assert m * k == r' - r by {
      assert m * k == m * q - m * q';
    }
    if k != 0 {
      MultipleIsFar(m, k);
    }
  }

  lemma MultipleIsFar(m: int, k: int)
    requires m > 0 && k != 0
    ensures m * k >= m || m * k <= -m
  {
    if k > 0 {
      assert m * k >= m;
    } else {
      assert m * k <= -m;
    }
  }

  /** While no prefix is a wrap point the accumulation is exact; from the first wrap point on
      the true value is out of range. */
  lemma {:induction false} UnsignedUntilWrap(t: IntType, s: CString, i: nat, acc: int)
    requires t.Valid() && !t.signed && t.Holds(acc) && i <= |s|
    requires AllDigits(s) && acc == Dec(s[..i])
    requires forall k :: i <= k < |s| ==> !WrapPoint(t, s, k)
    ensures Absorb(t, Plain, false, s, i, acc) == if t.Holds(Dec(s)) then Value(Dec(s)) else OutOfRange
    decreases |s| - i
  {
    SpanFacts(t);
    if i < |s| {
      var d := DigitToNumber(s[i]);
      AbsorbDigitExact(t, Plain, false, acc, d);
      DecStep(s, i);
      DecGrows(s, i + 1);
      assert !WrapPoint(t, s, i);
      if t.Holds(10 * acc + d) {
        UnsignedUntilWrap(t, s, i + 1, 10 * acc + d);
      } else if t.Holds(10 * acc) {
        assert false;
      }
    } else {
      assert s[..i] == s;
    }
  }

  lemma WrapPointIsOutOfRange(t: IntType, s: CString, k: nat)
    requires t.Valid() && !t.signed && AllDigits(s) && WrapPoint(t, s, k)
    ensures !t.Holds(Dec(s))
  {
    DecStep(s, k);
    DecGrows(s, k + 1);
  }

  /** What the unsigned parser should do: accept exactly the in-range numerals. */
  function UnsignedIntended(t: IntType, s: CString): Outcome
    requires t.Valid() && AllDigits(s) && s != []
  {
    if t.Holds(Dec(s)) then Value(Dec(s)) else OutOfRange
  }

  /** The first wrap point from i on, if there is one. */
  function WrapFrom(t: IntType, s: string, i: nat): (k: nat)
    requires t.Valid() && AllDigits(s) && i <= |s|
    ensures i <= k <= |s| && (k < |s| ==> WrapPoint(t, s, k))
    ensures forall j :: i <= j < k ==> !WrapPoint(t, s, j)
    decreases |s| - i
  {
    if i == |s| || WrapPoint(t, s, i) then i else WrapFrom(t, s, i + 1)
  }

  /** The digits up to a wrap point amount to a single one, by which its last digit exceeds the
      type's last number; and so on.  The number left has no wrap point. */
  function Reduced(t: IntType, s: string): (r: string)
    requires t.Valid() && !t.signed && AllDigits(s)
    ensures AllDigits(r) && (s != [] ==> r != []) && WrapFrom(t, r, 0) == |r|
    ensures '\0' !in s ==> '\0' !in r
    decreases |s|
  {
    SpanFacts(t);
    var k := WrapFrom(t, s, 0);
    if k == |s| then s
    else
      assert s[..0] == [];
      Reduced(t, [NumberToDigit(DigitToNumber(s[k]) - t.Max() % 10 - 1)] + s[k + 1..])
  }

  /** Absorbing depends on the rest of the text only. */
  lemma {:induction false} AbsorbRest(t: IntType, s: CString, i: nat, s': CString, i': nat, acc: int)
    requires t.Valid() && t.Holds(acc) && i <= |s| && i' <= |s'| && s[i..] == s'[i'..]
    ensures Absorb(t, Plain, false, s, i, acc) == Absorb(t, Plain, false, s', i', acc)
    decreases |s| - i
  {
    assert |s| - i == |s'| - i';
    if i < |s| {
      assert s[i] == s[i..][0] == s'[i'..][0] == s'[i'];
      if IsDigit(s[i]) {
        AbsorbStaysInType(t, Plain, false, acc, DigitToNumber(s[i]));
        var step := AbsorbDigit(t, Plain, acc, DigitToNumber(s[i]));
        if step.Value? {
          assert s[i + 1..] == s[i..][1..] == s'[i' + 1..];
          AbsorbRest(t, s, i + 1, s', i' + 1, step.n);
        }
      }
    }
  }

  /** Up to the first wrap point the accumulation is exact. */
  lemma {:induction false} AbsorbUpTo(t: IntType, s: CString, i: nat, k: nat, acc: int)
    requires t.Valid() && !t.signed && t.Holds(acc) && i <= k < |s| && AllDigits(s)
    requires acc == Dec(s[..i]) && WrapPoint(t, s, k)
    ensures t.Holds(Dec(s[..k]))
    ensures Absorb(t, Plain, false, s, i, acc) == Absorb(t, Plain, false, s, k, Dec(s[..k]))
    decreases k - i
  {
    SpanFacts(t);
    if i < k {
      DecStep(s, i);
      DecGrows(s[..k], i + 1);
      assert s[..k][..i + 1] == s[..i + 1];
      AbsorbDigitExact(t, Plain, false, acc, DigitToNumber(s[i]));
      AbsorbUpTo(t, s, i + 1, k, Dec(s[..i + 1]));
    }
  }

  /** A wrap point leaves the parser where a single digit would have. */
  lemma WrapPointLeavesDigit(t: IntType, s: CString, k: nat)
    requires t.Valid() && !t.signed && k < |s| && AllDigits(s) && WrapPoint(t, s, k)
    ensures var a := DigitToNumber(s[k]) - t.Max() % 10 - 1;
            && 0 <= a < 10
            && ParseUnsigned(t, Plain, s) == ParseUnsigned(t, Plain, [NumberToDigit(a)] + s[k + 1..])
  {
    SpanFacts(t);
    var a := DigitToNumber(s[k]) - t.Max() % 10 - 1;
    var s' := [NumberToDigit(a)] + s[k + 1..];
    assert s[..0] == [];
    AbsorbUpTo(t, s, 0, k, 0);
    AbsorbDigitExact(t, Plain, false, Dec(s[..k]), DigitToNumber(s[k]));
    AbsorbDigitExact(t, Plain, false, 0, a);
    assert s'[1..] == s[k + 1..];
    AbsorbRest(t, s, k + 1, s', 1, a);
  }

  /** The parser does to a text what it should do to the reduced text. */
  lemma {:induction false} ReducedParsesAsIntended(t: IntType, s: CString)
    requires t.Valid() && !t.signed && s != [] && AllDigits(s)
    ensures ParseUnsigned(t, Plain, s) == UnsignedIntended(t, Reduced(t, s))
    decreases |s|
  {
    SpanFacts(t);
    assert s[..0] == [];
    var k := WrapFrom(t, s, 0);
    if k == |s| {
      UnsignedUntilWrap(t, s, 0, 0);
    } else {
      WrapPointLeavesDigit(t, s, k);
      ReducedParsesAsIntended(t, [NumberToDigit(DigitToNumber(s[k]) - t.Max() % 10 - 1)] + s[k + 1..]);
    }
  }

  /** Unsigned parsing, completely: only digits are ever accepted, and what is accepted is congruent
      to the decimal value.  The parser does as it should exactly for the numbers that are in range,
      and for those that are out of range and stay so when they are reduced. */
  lemma UnsignedParsesExactlyWhen(t: IntType, s: CString)
    requires t.Valid() && !t.signed
    ensures ParseUnsigned(t, Plain, s).Value? ==> s != [] && AllDigits(s)
    ensures s != [] && AllDigits(s) ==>
              var r := ParseUnsigned(t, Plain, s);
              && (r.Value? ==> t.Holds(r.n) && r.n % t.Span() == Dec(s) % t.Span())
              && (t.Holds(Dec(s)) ==> r == Value(Dec(s)))
              && (r == UnsignedIntended(t, s) <==> t.Holds(Dec(s)) || !t.Holds(Dec(Reduced(t, s))))
  {
    SpanFacts(t);
    assert s[..0] == [];
    if IsDigit(CharAt(s, 0)) {
      UnsignedCongruent(t, s, 0, 0);
    }
    if s != [] && AllDigits(s) {
      ReducedParsesAsIntended(t, s);
      if t.Holds(Dec(s)) { InRangeIsReduced(t, s); }
    }
  }

  lemma InRangeIsReduced(t: IntType, s: CString)
    requires t.Valid() && !t.signed && AllDigits(s) && t.Holds(Dec(s))
    ensures Reduced(t, s) == s
  {
    var k := WrapFrom(t, s, 0);
    if k < |s| {
      WrapPointIsOutOfRange(t, s, k);
    }
  }

  // ---------- Unsigned numerals of ordinary length ----------

  /** A number has as many digits as it takes. */
  lemma {:induction false} DecBelowPower(s: string)
    requires AllDigits(s)
    ensures Dec(s) < Pow(10, |s|)
    decreases |s|
  {
    if s != [] { DecBelowPower(s[..|s| - 1]); }
  }

  lemma {:induction false} DigitsAreNeeded(n: nat)
    requires n > 0
    ensures Pow(10, |Digits(n)| - 1) <= n
  {
    if n >= 10 { DigitsAreNeeded(n / 10); }
  }

  lemma {:induction false} PowerGrows(k: nat, l: nat)
    requires k <= l
    ensures Pow(10, k) <= Pow(10, l)
  {
    if k < l { PowerGrows(k, l - 1); }
  }

  function Highest(t: IntType): (n: nat)
    requires t.Valid()
    ensures n == t.Max() >= 127
  {
    SpanFacts(t);
    t.Max()
  }

  /** Of the numerals with no more digits than the maximum has, exactly those are wrongly accepted
      that exceed it, but by their last digit only. */
  lemma ShortNumeralsWrapExactlyWhen(t: IntType, s: CString)
    requires t.Valid() && !t.signed && s != [] && AllDigits(s) && |s| <= |Digits(Highest(t))|
    ensures ParseUnsigned(t, Plain, s) != UnsignedIntended(t, s) <==> t.Max() < Dec(s) <= Reach(t, false)
    ensures t.Max() < Dec(s) <= Reach(t, false) ==> ParseUnsigned(t, Plain, s) == Value(Dec(s) - t.Span())
  {
    SpanFacts(t);
    ReducedParsesAsIntended(t, s);
    LastDigitWrapsExactlyWhen(t, s);
    var k := WrapFrom(t, s, 0);
    if k < |s| {
      WrapPointIsLast(t, s, k);
      ReducedAtTheEnd(t, s);
    } else {
      assert !WrapPoint(t, s, |s| - 1);
    }
  }

  lemma LastDigitWrapsExactlyWhen(t: IntType, s: CString)
    requires t.Valid() && !t.signed && s != [] && AllDigits(s)
    ensures WrapPoint(t, s, |s| - 1) <==> t.Max() < Dec(s) <= Reach(t, false)
    ensures WrapPoint(t, s, |s| - 1) ==> Dec(s) - t.Span() == DigitToNumber(s[|s| - 1]) - t.Max() % 10 - 1
  {
    SpanFacts(t);
    assert s == s[..|s| - 1 + 1];
    DecStep(s, |s| - 1);
  }

  lemma ReducedAtTheEnd(t: IntType, s: CString)
    requires t.Valid() && !t.signed && s != [] && AllDigits(s) && WrapFrom(t, s, 0) == |s| - 1
    ensures Dec(Reduced(t, s)) == DigitToNumber(s[|s| - 1]) - t.Max() % 10 - 1 && t.Holds(Dec(Reduced(t, s)))
  {
    SpanFacts(t);
    var a := DigitToNumber(s[|s| - 1]) - t.Max() % 10 - 1;
    var r := [NumberToDigit(a)];
    assert r + s[|s|..] == r && r[..0] == [] && Dec(r) == a;
    InRangeIsReduced(t, r);
  }

  lemma WrapPointIsLast(t: IntType, s: CString, k: nat)
    requires t.Valid() && !t.signed && AllDigits(s) && |s| <= |Digits(Highest(t))| && WrapPoint(t, s, k)
    ensures k == |s| - 1
  {
    SpanFacts(t);
    DecBelowPower(s[..k]);
    DigitsAreNeeded(Highest(t) / 10);
    if k < |s| - 1 {
      PowerGrows(k, |Digits(Highest(t) / 10)| - 1);
    }
  }

  /** With the guarded addition the unsigned parser accepts exactly the in-range numerals. */
  lemma UnsignedGuardedParsesExactly(t: IntType, s: CString)
    requires t.Valid() && !t.signed
    ensures var r := ParseUnsigned(t, Guarded, s);
            && (r.Value? <==> s != [] && AllDigits(s) && t.Holds(Dec(s)))
            && (r.Value? ==> r.n == Dec(s))
            && r != Undefined
  {
    SpanFacts(t);
    if IsDigit(CharAt(s, 0)) {
      assert s[0..] == s;
      AbsorbExact(t, Guarded, false, s, 0, 0, 0);
      GuardedAdditionIsDefined(t, false, s, 0, 0);
    }
  }

  /** The smallest number behind the maximum of a one-byte type is accepted as zero. */
  lemma UnsignedWrapAccepted()
    ensures ParseUnsigned(IntType(false, 1), Plain, "256") == Value(0)
  {
    var t := IntType(false, 1);
    assert Pow(256, 1) == 256 * Pow(256, 0);
    AbsorbDigitExact(t, Plain, false, 0, 2);
    AbsorbDigitExact(t, Plain, false, 2, 5);
    AbsorbDigitExact(t, Plain, false, 25, 6);
    assert Absorb(t, Plain, false, "256", 3, 0) == Value(0);
    assert Absorb(t, Plain, false, "256", 2, 25) == Absorb(t, Plain, false, "256", 3, 0);
    assert Absorb(t, Plain, false, "256", 1, 2) == Absorb(t, Plain, false, "256", 2, 25);
  }

  // ---------- The parsers ----------

  method FromStringSigned(t: IntType, str: CString) returns (r: Outcome)
    requires t.Valid() && t.signed
    ensures r == ParseSigned(t, Plain, str)
  {
    SpanFacts(t);
    var i := 0;
    var result := 0;
    if !IsDigit(CharAt(str, i)) {
      if CharAt(str, i) != '-' {
        return NotAnInteger;
      }
      i := i + 1;
      while i < |str| && IsDigit(str[i])
        invariant 1 <= i <= |str| && t.Holds(result)
        invariant Absorb(t, Plain, true, str, i, result) == ParseSigned(t, Plain, str)
      {
        var step := AbsorbDigit(t, Plain, result, -DigitToNumber(str[i]));
        if !step.Value? {
          return step;
        }
        AbsorbStaysInType(t, Plain, true, result, DigitToNumber(str[i]));
        result := step.n;
        i := i + 1;
      }
    } else {
      while i < |str| && IsDigit(str[i])
        invariant 0 <= i <= |str| && t.Holds(result)
        invariant Absorb(t, Plain, false, str, i, result) == ParseSigned(t, Plain, str)
      {
        var step := AbsorbDigit(t, Plain, result, DigitToNumber(str[i]));
        if !step.Value? {
          return step;
        }
        AbsorbStaysInType(t, Plain, false, result, DigitToNumber(str[i]));
        result := step.n;
        i := i + 1;
      }
    }
    if CharAt(str, i) != '\0' {
      return TrailingText;
    }
    return Value(result);
  }

  method FromStringUnsigned(t: IntType, str: CString) returns (r: Outcome)
    requires t.Valid() && !t.signed
    ensures r == ParseUnsigned(t, Plain, str)
  {
    SpanFacts(t);
    var i := 0;
    var result := 0;
    if !IsDigit(CharAt(str, i)) {
      return NotAnInteger;
    }
    while i < |str| && IsDigit(str[i])
      invariant 0 <= i <= |str| && t.Holds(result)
      invariant Absorb(t, Plain, false, str, i, result) == ParseUnsigned(t, Plain, str)
    {
      var step := AbsorbDigit(t, Plain, result, DigitToNumber(str[i]));
      if !step.Value? {
        return step;
      }
      AbsorbStaysInType(t, Plain, false, result, DigitToNumber(str[i]));
      result := step.n;
      i := i + 1;
    }
    if CharAt(str, i) != '\0' {
      return TrailingText;
    }
    return Value(result);
  }

  // ---------- Printing ----------

  /** A value of k bytes has at most 4 * k decimal digits. */
  lemma {:induction false} BytesFitDigits(k: nat)
    ensures Pow(256, k) <= Pow(10, 4 * k)
  {
    if k > 0 {
      BytesFitDigits(k - 1);
      var e := 4 * (k - 1);
      assert Pow(10, e + 1) == 10 * Pow(10, e);
      assert Pow(10, e + 2) == 10 * Pow(10, e + 1);
      assert Pow(10, e + 3) == 10 * Pow(10, e + 2);
      assert Pow(10, e + 4) == 10 * Pow(10, e + 3);
    }
  }

  /** Print a nonnegative value into a buffer of 4 * sizeof(T) + 1 characters, from the back. */
  method ToStringUnsigned(t: IntType, obj: nat) returns (r: string)
    requires t.Valid() && t.Holds(obj)
    ensures r == Digits(obj)
  {
    if obj == 0 {
      return "0";
    }
    var size := 4 * t.bytes + 1;
    var buf := new char[size];
    var p := size;
    p := p - 1;
    buf[p] := '\0';
    var n := obj;
    BytesFitDigits(t.bytes);
    while n > 0
      invariant 0 <= p < size
      invariant n < Pow(10, p)
      invariant Digits(obj) == (if n > 0 then Digits(n) else []) + buf[p..size - 1]
      invariant buf[size - 1] == '\0'
    {
      LastDigitOff(n, p);
      ShiftDigit(n, buf[p..size - 1]);
      ghost var tail := buf[p..size - 1];
      p := p - 1;
      buf[p] := NumberToDigit(n % 10);
      assert buf[p..size - 1] == [NumberToDigit(n % 10)] + tail;
      n := n / 10;
    }
    return buf[p..size - 1];
  }

  lemma LastDigitOff(n: nat, p: nat)
    requires 0 < n < Pow(10, p)
    ensures p > 0 && n / 10 < Pow(10, p - 1)
  {
  }

  /** The lowest digit of n, moved from the digits still to print to those printed. */
  lemma ShiftDigit(n: nat, tail: string)
    requires n > 0
    ensures Digits(n) + tail == (if n / 10 > 0 then Digits(n / 10) else []) + ([NumberToDigit(n % 10)] + tail)
  {
    if n >= 10 {
      assert Digits(n) == Digits(n / 10) + [NumberToDigit(n % 10)];
    }
  }

  function DecimalText(n: int): string {
    if n < 0 then "-" + Digits(-n) else Digits(n)
  }

  lemma {:induction false} WiderSpan(k: nat, l: nat)
    requires k <= l
    ensures Pow(256, k) <= Pow(256, l)
  {
    if k < l { WiderSpan(k, l - 1); }
  }

  method ToStringSigned(t: IntType, obj: int) returns (r: string)
    requires t.Valid() && t.signed && t.Holds(obj)
    ensures r == DecimalText(obj)
  {
    if obj < 0 {
      var negatable := obj != t.Min();
      if negatable {
        SpanFacts(t);
        if t.bytes < 4 {
          WiderSpan(t.bytes, 4);
          SpanFacts(Promoted(t));
        }
        var digits := ToStringUnsigned(Promoted(t), -obj);
        return "-" + digits;
      } else {
        // The standard library's stream prints this one value.
        return DecimalText(obj);
      }
    }
    r := ToStringUnsigned(t, obj);
  }

  lemma {:induction false} DigitsDenote(n: nat)
    ensures AllDigits(Digits(n)) && Digits(n) != [] && Dec(Digits(n)) == n
    ensures forall i :: 0 <= i < |Digits(n)| ==> Digits(n)[i] != '\0' && Digits(n)[i] != '-'
  {
    if n >= 10 {
      DigitsDenote(n / 10);
      var d := Digits(n);
      assert d[..|d| - 1] == Digits(n / 10);
    } else {
      var d := [NumberToDigit(n)];
      assert d[..|d| - 1] == [];
    }
  }

  /** There are no leading zeros. */
  lemma {:induction false} DigitsAreCanonical(n: nat)
    ensures Digits(0) == "0" && (n > 0 ==> Digits(n)[0] != '0')
    decreases n
  {
    if n >= 10 {
      DigitsAreCanonical(n / 10);
    } else {
      assert n > 0 ==> DigitToNumber(Digits(n)[0]) > 0;
    }
  }

  /** Parsing what was printed gives the value back, for every value of every type, the
      non-negatable minimum included. */
  lemma PrintThenParse(t: IntType, n: int)
    requires t.Valid() && t.Holds(n)
    ensures '\0' !in DecimalText(n)
    ensures t.signed ==> ParseSigned(t, Plain, DecimalText(n)) == Value(n)
    ensures !t.signed ==> ParseUnsigned(t, Plain, DecimalText(n)) == Value(n)
  {
    var text := DecimalText(n);
    DigitsDenote(if n < 0 then -n else n);
    if n < 0 {
      assert text[1..] == Digits(-n);
    }
    if t.signed {
      SignedInRangeIsExact(t, Plain, text);
    } else {
      UnsignedParsesExactlyWhen(t, text);
    }
  }
}
