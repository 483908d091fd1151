/**
 * The queue-number generator of `GET /api/queue/generate`: the successor of the latest
 * order's queue number, `Q-001` when there is none, and a clock-derived fallback when
 * the lookup fails.
 */
module QueueNumber {

  import opened Wrappers
  import opened Text
  import opened Decimal

  const Prefix: string := "Q-"
  const First: string := "Q-001"
  /** The width `padStart` fills the number to. */
  const Width: nat := 3

  /**
   * What the lookup of the most recent order gives: it failed (the route's `catch`), or it
   * found the latest order's queue number, `None` when there is no order.
   */
  datatype Lookup = LookupFailed | Latest(queueNumber: Option<string>)

  /** The number part of a queue number, read the way the generator reads it. */
  function NumberPart(queueNumber: string): Number
  {
    ParseInt(ReplaceFirst(queueNumber, Prefix, ""))
  }

  /** Strip `Q-`, parse, add one, left-pad with `0` to three characters, put `Q-` back. */
  function Successor(latest: string): (q: string)
    ensures Prefix <= q && |q| >= 5
  {
    Prefix + PadStart(NumberToString(Succ(NumberPart(latest))), Width, '0')
  }

  /** The fallback: `Q-` and the last four characters of the decimal clock reading. */
  function Fallback(nowMillis: nat): (q: string)
    ensures Prefix <= q && 3 <= |q| <= 6
    ensures AllDigits(q[2..]) && q[2..] == SliceFromEnd(NatToString(nowMillis), 4)
  {
    Prefix + SliceFromEnd(NatToString(nowMillis), 4)
  }

  /** The queue number the route answers with. */
  function Generate(lookup: Lookup, nowMillis: nat): (q: string)
    ensures Prefix <= q
    ensures lookup == Latest(None) || lookup == Latest(Some("")) ==> q == First
    ensures lookup == LookupFailed ==> q == Fallback(nowMillis)
    ensures lookup.Latest? && lookup.queueNumber.Some? && lookup.queueNumber.value != ""
            ==> q == Successor(lookup.queueNumber.value)
  {
    match lookup
    case LookupFailed => Fallback(nowMillis)
    case Latest(None) => First
    case Latest(Some(latest)) => if latest == "" then First else Successor(latest)
  }

  /**
   * The route's main path: after a well-formed latest queue number worth `v`, the answer
   * is well-formed again and its number part is `v + 1`.
   */
  lemma {:induction false} GenerateAfterWellFormed(latest: string, v: nat, nowMillis: nat)
    requires WellFormed(latest) && v == ValueOf(latest[2..])
    ensures WellFormed(Generate(Latest(Some(latest)), nowMillis))
    ensures NumberPart(Generate(Latest(Some(latest)), nowMillis)) == Int(v + 1)
  {
    assert latest != "";
    SuccessorOfWellFormed(latest, v);
  }

  /** A queue number of the intended shape: `Q-` followed by at least one decimal digit. */
  predicate WellFormed(q: string)
  {
    Prefix <= q && |q| > 2 && AllDigits(q[2..])
  }

  /**
   * On a well-formed queue number whose digits are worth `v`, the successor is again
   * well-formed, its digits are the decimal form of `v + 1` padded with zeros to at least
   * three (never truncated), and its number part is exactly `v + 1`.
   */
  lemma {:induction false} SuccessorOfWellFormed(q: string, v: nat)
    requires WellFormed(q) && v == ValueOf(q[2..])
    ensures Successor(q) == Prefix + PadStart(NatToString(v + 1), Width, '0')
    ensures WellFormed(Successor(q)) && |Successor(q)| >= 5
    ensures NumberPart(Successor(q)) == Int(v + 1)
  {
    SuccessorDigits(q, v);
    PrefixedPadded(v + 1);
  }

  /** `Q-` and the zero-padded decimal form of `n` is well-formed and reads back as `n`. */
  lemma PrefixedPadded(n: nat)
    ensures var r := Prefix + PadStart(NatToString(n), Width, '0');
      WellFormed(r) && |r| >= 5 && NumberPart(r) == Int(n)
  {
    var r := Prefix + PadStart(NatToString(n), Width, '0');
    var padded := PadStart(NatToString(n), Width, '0');
    PaddedValue(n);
    assert r[2..] == padded;
    ReplaceLeadingPattern(Prefix, padded);
    assert NumberPart(r) == ParseInt(padded);
  }

  /** The successor's digits are the decimal form of the old value plus one, padded. */
  lemma SuccessorDigits(q: string, v: nat)
    requires WellFormed(q) && v == ValueOf(q[2..])
    ensures Successor(q) == Prefix + PadStart(NatToString(v + 1), Width, '0')
  {
    NumberPartOfWellFormed(q);
    assert Succ(NumberPart(q)) == Int(v + 1);
    assert NumberToString(Int(v + 1)) == NatToString(v + 1);
  }

  /** The number part of a well-formed queue number is the value of its digits. */
  lemma {:induction false} NumberPartOfWellFormed(q: string)
    requires WellFormed(q)
    ensures NumberPart(q) == Int(ValueOf(q[2..]))
  {
    var d := q[2..];
    assert q == Prefix + d;
    ReplaceLeadingPattern(Prefix, d);
    ParseIntDigits(d);
  }

  /** Zero-padding the decimal form of `n` keeps it a digit string worth `n`. */
  lemma {:induction false} PaddedValue(n: nat)
    ensures AllDigits(PadStart(NatToString(n), Width, '0'))
    ensures |PadStart(NatToString(n), Width, '0')| >= Width
    ensures ParseInt(PadStart(NatToString(n), Width, '0')) == Int(n)
  {
    var digits := NatToString(n);
    var padded := PadStart(digits, Width, '0');
    var k := |padded| - |digits|;
    assert padded == seq(k, _ => '0') + digits;
    ValueOfLeadingZeros(k, digits);
    ValueOfNatToString(n);
    ParseIntDigits(padded);
  }

  /** Strictly increasing: the successor's number part exceeds the input's. */
  lemma {:induction false} SuccessorIncreases(q: string)
    requires WellFormed(q)
    ensures NumberPart(q).Int? && NumberPart(Successor(q)).Int?
    ensures NumberPart(Successor(q)).value > NumberPart(q).value
  {
    NumberPartOfWellFormed(q);
    SuccessorOfWellFormed(q, ValueOf(q[2..]));
  }

  /** `Q-047` is followed by `Q-048`: the zero padding is kept. */
  lemma {:induction false} SuccessorOf047(q: string)
    requires q == "Q-047"
    ensures Successor(q) == "Q-048"
  {
    DigitsValue047();
    SuccessorShape(q, "047", 47);
    PaddedValue048();
  }

  /** `Q-009` is followed by `Q-010`: a carry into a new digit is padded, not lost. */
  lemma {:induction false} SuccessorOf009(q: string)
    requires q == "Q-009"
    ensures Successor(q) == "Q-010"
  {
    DigitsValue009();
    SuccessorShape(q, "009", 9);
    PaddedValue010();
  }

  /** `Q-999` is followed by `Q-1000`: a fourth digit is never truncated. */
  lemma {:induction false} SuccessorOf999(q: string)
    requires q == "Q-999"
    ensures Successor(q) == "Q-1000"
  {
    DigitsValue999();
    SuccessorShape(q, "999", 999);
    PaddedValue1000();
  }

  /**
   * Without digits after `Q-` (`Q-abc`, say) `parseInt` gives `NaN`, and the next queue
   * number is `Q-NaN`: three characters after the prefix, none of them a digit.
   */
  lemma {:induction false} SuccessorOfNonNumber(rest: string)
    requires |rest| > 0 && 'a' <= rest[0] <= 'z'
    ensures Successor(Prefix + rest) == "Q-NaN"
  {
    NumberPartOfRest(rest);
    ParseIntOfLetter(rest);
    SuccessorOfNumber(Prefix + rest, NaN, "NaN");
    assert PadStart("NaN", Width, '0') == "NaN";
  }

  /** `Q--5` is followed by `Q-0-4`: the padding goes in front of the minus sign. */
  lemma {:induction false} SuccessorOfMinus5()
    ensures Successor(Prefix + "-5") == "Q-0-4"
  {
    NumberPartOfRest("-5");
    ParseIntMinus5();
    IntToStringMinus4();
    SuccessorOfNumber(Prefix + "-5", Int(-5), "-4");
    PaddedMinus4();
  }

  lemma {:induction false} NumberPartOfRest(rest: string)
    ensures NumberPart(Prefix + rest) == ParseInt(rest)
  {
    ReplaceLeadingPattern(Prefix, rest);
  }

  lemma {:induction false} SuccessorOfNumber(q: string, x: Number, text: string)
    requires NumberPart(q) == x && NumberToString(Succ(x)) == text
    ensures Successor(q) == Prefix + PadStart(text, Width, '0')
  {
  }

  lemma {:induction false} ParseIntOfLetter(rest: string)
    requires |rest| > 0 && 'a' <= rest[0] <= 'z'
    ensures ParseInt(rest) == NaN
  {
    assert !IsWhitespace(rest[0]);
    assert TrimStart(rest) == rest;
    assert DigitPrefix(rest) == [];
  }

  lemma {:induction false} ParseIntMinus5()
    ensures ParseInt("-5") == Int(-5)
  {
    var t := "-5";
    assert TrimStart(t) == t;
    assert t[1..] == "5";
    assert DigitPrefix("5") == "5";
    assert ValueOf("5") == 5;
  }

  lemma {:induction false} PaddedMinus4()
    ensures Prefix + PadStart("-4", Width, '0') == "Q-0-4"
  {
    assert PadStart("-4", Width, '0') == "0-4";
  }

  lemma {:induction false} IntToStringMinus4()
    ensures NumberToString(Succ(Int(-5))) == "-4"
  {
    assert NatToString(4) == "4";
  }

  /** The successor of `Q-` and a digit string worth `v`. */
  lemma {:induction false} SuccessorShape(q: string, digits: string, v: nat)
    requires q == Prefix + digits && |digits| > 0 && AllDigits(digits) && v == ValueOf(digits)
    ensures Successor(q) == Prefix + PadStart(NatToString(v + 1), Width, '0')
  {
    assert q[2..] == digits;
    SuccessorDigits(q, v);
  }

  lemma {:induction false} DigitsValue047()
    ensures AllDigits("047") && ValueOf("047") == 47
  {
    assert "047"[..2] == "04" && "04"[..1] == "0" && "0"[..0] == [];
  }

  lemma {:induction false} PaddedValue048()
    ensures Prefix + PadStart(NatToString(48), Width, '0') == "Q-048"
  {
    assert NatToString(48) == "48";
    assert PadStart("48", Width, '0') == "048";
  }

  lemma {:induction false} DigitsValue009()
    ensures AllDigits("009") && ValueOf("009") == 9
  {
    assert "009"[..2] == "00" && "00"[..1] == "0" && "0"[..0] == [];
  }

  lemma {:induction false} PaddedValue010()
    ensures Prefix + PadStart(NatToString(10), Width, '0') == "Q-010"
  {
    assert NatToString(10) == "10";
    assert PadStart("10", Width, '0') == "010";
  }

  lemma {:induction false} DigitsValue999()
    ensures AllDigits("999") && ValueOf("999") == 999
  {
    assert "999"[..2] == "99" && "99"[..1] == "9" && "9"[..0] == [];
  }

  lemma {:induction false} PaddedValue1000()
    ensures Prefix + PadStart(NatToString(1000), Width, '0') == "Q-1000"
  {
    assert NatToString(100) == "100";
    assert NatToString(1000) == "1000";
    assert PadStart("1000", Width, '0') == "1000";
  }
}
