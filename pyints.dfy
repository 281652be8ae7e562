/** How `int()` reads back what `str()` writes for a Python int. */
module PyInts {
  import opened Wrappers
  import opened PyText

  lemma {:induction false} NatToStringValue(n: nat)
    ensures DigitsValue(NatToString(n)) == n
  {
    var s := NatToString(n);
    if n >= 10 {
      NatToStringValue(n / 10);
      assert s[..|s| - 1] == NatToString(n / 10);
    }
  }

  lemma {:induction false} NoSpaceTrims(s: string)
    requires forall i :: 0 <= i < |s| ==> IsDigit(s[i]) || s[i] == '-'
    ensures TrimRight(TrimLeft(s)) == s
  {
    if |s| > 0 {
      assert !IsSpace(s[0]);
      assert TrimLeft(s) == s;
      assert !IsSpace(s[|s| - 1]);
      assert TrimRight(s) == s;
    }
  }

  /** A plain run of digits parses to its value. */
  lemma {:induction false} ParseDigits(d: string)
    requires |d| >= 1 && forall i :: 0 <= i < |d| ==> IsDigit(d[i])
    ensures ParseInt(d) == Some(DigitsValue(d))
  {
    NoSpaceTrims(d);
    assert IsDigit(d[0]) && d[0] != '-' && d[0] != '+';
    assert ValidDigits(d);
    var v := DigitsValue(d);
    assert ParseTrimmed(d) == Some(v);
    assert ParseInt(d) == ParseTrimmed(d);
  }

  /** A minus sign before a run of digits negates its value. */
  lemma {:induction false} ParseNegativeDigits(d: string)
    requires |d| >= 1 && forall i :: 0 <= i < |d| ==> IsDigit(d[i])
    ensures ParseInt("-" + d) == Some(-(DigitsValue(d) as int))
  {
    var s := "-" + d;
    forall i | 0 <= i < |s|
      ensures IsDigit(s[i]) || s[i] == '-'
    {
      if i > 0 {
        assert s[i] == d[i - 1];
      }
    }
    NoSpaceTrims(s);
    assert s[1..] == d;
    assert ValidDigits(d);
    assert ParseTrimmed(s) == Some(-(DigitsValue(d) as int));
  }

  /** `int(str(i)) == i` for every int. */
  lemma {:induction false} ParseIntRoundTrip(i: int)
    ensures ParseInt(IntToString(i)) == Some(i)
  {
    var n: nat := if i < 0 then -i else i;
    NatToStringValue(n);
    if i < 0 {
      ParseNegativeDigits(NatToString(n));
    } else {
      ParseDigits(NatToString(n));
    }
  }
}
