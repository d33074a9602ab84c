/**
 * Parsing a decimal `i32`, as Rust's `str::parse::<i32>` does: an optional
 * `+` or `-`, then one or more ASCII digits and nothing else, with a value
 * inside the range of `i32`. Anything else is an error, here `None`
 * (the `.ok()` of the `Result`).
 *
 * The grammar and the value it denotes are given first as a reference
 * definition (IsI32Text, DecimalValue); ParseI32 is the digit-by-digit
 * parser with the overflow check on every step, and its contract says that
 * it accepts exactly the texts of the grammar and yields their value.
 */
module IntParse {
  import opened Prelude

  predicate IsDigit(c: char) {
    '0' <= c <= '9'
  }

  function DigitValue(c: char): (d: nat)
    requires IsDigit(c)
    ensures d <= 9
  {
    (c as int) - ('0' as int)
  }

  predicate AllDigits(ds: string) {
    forall i | 0 <= i < |ds| :: IsDigit(ds[i])
  }

  function Pow10(n: nat): (p: nat)
    ensures p >= 1
  {
    if n == 0 then 1 else 10 * Pow10(n - 1)
  }

  /** Positional value of a digit string: its first digit weighs 10^(|ds|-1). */
  ghost function Value(ds: string): nat
    requires AllDigits(ds)
  {
    if ds == [] then 0 else DigitValue(ds[0]) * Pow10(|ds| - 1) + Value(ds[1..])
  }

  predicate IsNegative(s: string) {
    |s| > 0 && s[0] == '-'
  }

  /** The text after an optional leading sign. */
  function Digits(s: string): (ds: string)
    ensures |ds| <= |s|
  {
    if |s| > 0 && (s[0] == '+' || s[0] == '-') then s[1..] else s
  }

  /** The grammar: optional sign, then one or more digits. */
  ghost predicate IsDecimal(s: string) {
    |Digits(s)| > 0 && AllDigits(Digits(s))
  }

  /** The integer a decimal text denotes. */
  ghost function DecimalValue(s: string): int
    requires IsDecimal(s)
  {
    var magnitude: int := Value(Digits(s));
    if IsNegative(s) then -magnitude else magnitude
  }

  /** The texts that `str::parse::<i32>` accepts. */
  ghost predicate IsI32Text(s: string) {
    IsDecimal(s) && IsI32(DecimalValue(s))
  }

  /**
   * Folds the digits into `acc` from the left, failing on a non-digit and as
   * soon as the magnitude passes `limit` (the checked multiply-and-add of the
   * library parser).
   */
  function Accumulate(ds: string, acc: nat, limit: nat): (r: Option<nat>)
    requires acc <= limit
    ensures r.Some? ==> r.value <= limit
    decreases |ds|
  {
    if ds == [] then Some(acc)
    else if !IsDigit(ds[0]) then None
    else
      var next := 10 * acc + DigitValue(ds[0]);
      if next > limit then None else Accumulate(ds[1..], next, limit)
  }

  /** `str::parse::<i32>` followed by `.ok()`. */
  function ParseI32(s: string): (r: Option<I32>)
    ensures r.Some? <==> IsI32Text(s)
    ensures r.Some? ==> r.value == DecimalValue(s)
  {
    var ds := Digits(s);
    var negative := IsNegative(s);
    if ds == [] then None
    else
      var limit: nat := if negative then -I32Min else I32Max;
      AccumulateValue(ds, 0, limit);
      match Accumulate(ds, 0, limit)
      case None => None
      case Some(m) => Some(if negative then -(m as int) else m)
  }

  /** The fold computes the positional value, and fails exactly when a digit is missing or the value passes the limit. */
  lemma {:induction false} AccumulateValue(ds: string, acc: nat, limit: nat)
    requires acc <= limit
    ensures Accumulate(ds, acc, limit)
         == if AllDigits(ds) && acc * Pow10(|ds|) + Value(ds) <= limit
            then Some(acc * Pow10(|ds|) + Value(ds)) else None
  {
    if ds == [] {
    } else if !IsDigit(ds[0]) {
    } else {
      var d, rest := DigitValue(ds[0]), ds[1..];
      var next := 10 * acc + d;
      assert AllDigits(ds) <==> AllDigits(rest) by {
        assert forall i | 0 <= i < |rest| :: rest[i] == ds[i + 1];
      }
      if AllDigits(ds) {
        assert Value(ds) == d * Pow10(|rest|) + Value(rest);
        ShiftDigit(acc, d, Pow10(|rest|), Value(rest));
      }
      if next <= limit {
        AccumulateValue(rest, next, limit);
      }
    }
  }

  /** One step of the fold: the digit moves from the value into the accumulator. */
  lemma ShiftDigit(acc: nat, d: nat, p: nat, v: nat)
    requires p >= 1
    ensures acc * (10 * p) + (d * p + v) == (10 * acc + d) * p + v
    ensures (10 * acc + d) * p + v >= 10 * acc + d
  {
  }

  /** The year of the `struct_impl` example. */
  lemma ParseYearExample()
    ensures ParseI32("1999") == Some(1999)
  {
  }

  /** Texts outside the grammar are refused. */
  lemma ParseRejectsMalformed()
    ensures ParseI32("") == None
    ensures ParseI32("-") == None
    ensures ParseI32("19x9") == None
  {
  }

  /** A text of the grammar whose value is past `i32::MAX` is refused. */
  lemma ParseRejectsOverflow()
    ensures ParseI32("2147483648") == None
  {
  }

  /** Appending a digit multiplies the value by ten and adds the digit. */
  lemma {:induction false} ValueSnoc(ds: string, c: char)
    requires AllDigits(ds) && IsDigit(c)
    ensures AllDigits(ds + [c]) && Value(ds + [c]) == 10 * Value(ds) + DigitValue(c)
  {
    var s := ds + [c];
    assert forall i | 0 <= i < |s| :: s[i] == if i < |ds| then ds[i] else c;
    if ds != [] {
      var h, t := DigitValue(ds[0]), ds[1..];
      assert s[0] == ds[0] && s[1..] == t + [c];
      assert AllDigits(t) by { assert forall i | 0 <= i < |t| :: t[i] == ds[i + 1]; }
      ValueSnoc(t, c);
      assert h * Pow10(|t| + 1) == 10 * (h * Pow10(|t|));
    }
  }

  /**
   * The first five digits of 2^31. The text is a parameter fixed by the
   * precondition rather than a literal in the body, so the solver does not
   * unfold the literal's value in one step but follows the digit chain.
   */
  lemma Magnitude2To31Prefix(s: string)
    requires s == "21474"
    ensures AllDigits(s) && Value(s) == 21474
  {
    var p0: string := [];
    ValueSnoc(p0, '2');
    var p1 := p0 + ['2'];
    ValueSnoc(p1, '1');
    var p2 := p1 + ['1'];
    ValueSnoc(p2, '4');
    var p3 := p2 + ['4'];
    ValueSnoc(p3, '7');
    var p4 := p3 + ['7'];
    ValueSnoc(p4, '4');
    var p5 := p4 + ['4'];
    assert p5 == s;
  }

  /**
   * The digits of 2^31, one more than `i32::MAX`, built up one digit at a
   * time; the text is a parameter for the same reason as in
   * Magnitude2To31Prefix.
   */
  lemma Magnitude2To31(s: string)
    requires s == "2147483648"
    ensures AllDigits(s) && Value(s) == 2147483648
  {
    var p5 := "21474";
    Magnitude2To31Prefix(p5);
    ValueSnoc(p5, '8');
    var p6 := p5 + ['8'];
    ValueSnoc(p6, '3');
    var p7 := p6 + ['3'];
    ValueSnoc(p7, '6');
    var p8 := p7 + ['6'];
    ValueSnoc(p8, '4');
    var p9 := p8 + ['4'];
    ValueSnoc(p9, '8');
    var p10 := p9 + ['8'];
    assert p10 == s;
  }

  /** The most negative `i32` has a text; its magnitude alone is refused (ParseRejectsOverflow). */
  lemma ParseI32MinExample()
    ensures ParseI32("-2147483648") == Some(I32Min)
  {
    var s := "-2147483648";
    var magnitude := "2147483648";
    assert Digits(s) == magnitude;
    Magnitude2To31(magnitude);
    assert IsDecimal(s) && DecimalValue(s) == I32Min;
  }
}
