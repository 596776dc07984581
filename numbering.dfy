/** Document numbers `CODE-YEAR-NNN`: a code, the four-digit year and a
    sequence number zero-padded to at least three digits. The client store
    and the route handlers both write them; the route handlers also find
    earlier numbers of a year by searching for the text `CODE-YEAR`. */
module Numbering {
  import opened Types
  import opened Text

  /** `${code}-${year}`: the text the route handlers search for. */
  function NumberPrefix(code: string, year: int): string {
    code + "-" + IntText(year)
  }

  /** `String(n).padStart(3, '0')`. */
  function SequenceText(n: nat): (r: string)
    ensures |r| >= 3 && AllDigits(r)
    ensures ParseNat(r) == Some(n)
  {
    var t := NatText(n);
    var r := PadStart(t, 3, '0');
    assert AllDigits(r) by {
      forall i | 0 <= i < |r| ensures IsDigit(r[i]) {
        if i >= |r| - |t| {
          assert r[i] == r[|r| - |t|..][i - (|r| - |t|)];
        }
      }
    }
    ParsePadded(n, 3);
    r
  }

  /** `${code}-${year}-${String(n).padStart(3, '0')}`. */
  function DocumentNumber(code: string, year: int, n: nat): string {
    NumberPrefix(code, year) + "-" + SequenceText(n)
  }

  /** A number splits into its prefix, a dash and its sequence part; the
      sequence part has at least three digits, reads back as n and is never
      cut short (a number with more digits keeps them all). */
  lemma NumberParts(code: string, year: int, n: nat)
    ensures var s := DocumentNumber(code, year, n);
            var p := NumberPrefix(code, year);
            StartsWith(s, p + "-")
            && ParseNat(s[|p| + 1..]) == Some(n)
            && |s| - |p| - 1 == (if |NatText(n)| >= 3 then |NatText(n)| else 3)
  {
    var s := DocumentNumber(code, year, n);
    var p := NumberPrefix(code, year);
    assert s[..|p| + 1] == p + "-";
    assert s[|p| + 1..] == SequenceText(n);
  }

  /** Within one code and year, different sequence numbers give different
      document numbers. */
  lemma NumberInjective(code: string, year: int, a: nat, b: nat)
    requires DocumentNumber(code, year, a) == DocumentNumber(code, year, b)
    ensures a == b
  {
    NumberParts(code, year, a);
    NumberParts(code, year, b);
  }

  /** A number contains the search text of its own code and year. */
  lemma OwnPrefixFound(code: string, year: int, n: nat)
    ensures Contains(DocumentNumber(code, year, n), NumberPrefix(code, year))
  {
    var s := DocumentNumber(code, year, n);
    var p := NumberPrefix(code, year);
    assert s == p + ("-" + SequenceText(n));
    assert s[..|p|] == p;
    assert StartsWith(s, p);
  }

  lemma {:induction false} FourDigitText(y: int)
    requires 1000 <= y <= 9999
    ensures |IntText(y)| == 4 && AllDigits(IntText(y))
  {
    assert NatText(y) == NatText(y / 10) + [DigitChar(y % 10)];
    assert NatText(y / 10) == NatText(y / 100) + [DigitChar((y / 10) % 10)];
    assert NatText(y / 100) == NatText(y / 1000) + [DigitChar((y / 100) % 10)];
  }

  /** A code is searchable when its first character occurs nowhere else in a
      number written with a code of the same length: not later in that code,
      not as a digit and not as the dash. */
  predicate Distinguishes(code: string, other: string) {
    |code| == |other| && |code| >= 1
    && !IsDigit(code[0]) && code[0] != '-'
    && forall i :: 1 <= i < |other| ==> other[i] != code[0]
  }

  /** When the first character of `sub` occurs in `s` only at its start,
      `sub` occurs in `s` only as a prefix. */
  lemma OnlyAtStart(s: string, sub: string)
    requires |sub| >= 1
    requires forall j :: 1 <= j < |s| ==> s[j] != sub[0]
    ensures Contains(s, sub) <==> StartsWith(s, sub)
  {
    if s != [] {
      var t := s[1..];
      ContainsAt(t, sub);
      forall i ensures !OccursAt(t, sub, i) {
        if 0 <= i && i + |sub| <= |t| {
          assert t[i..i + |sub|][0] == s[i + 1];
        }
      }
    }
  }

  /** Comparing the opening `code-year` of two numbers whose codes and years
      have the same lengths compares the codes and the years. */
  lemma PrefixCompare(code: string, other: string, yt: string, yt2: string, q: string)
    requires |code| == |other| && |yt| == |yt2|
    ensures StartsWith(other + "-" + yt2 + "-" + q, code + "-" + yt) <==> other == code && yt2 == yt
  {
    var s := other + "-" + yt2 + "-" + q;
    var sub := code + "-" + yt;
    var w := other + "-" + yt2;
    assert s[..|sub|] == w;
    if w == sub {
      assert w[..|code|] == other && sub[..|code|] == code;
      assert w[|code| + 1..] == yt2 && sub[|code| + 1..] == yt;
    }
  }

  /** Under `Distinguishes`, the code's first character occurs in a number
      written with `other`, a digit year and a digit sequence part only at
      its start. */
  lemma FirstCharOnlyAtStart(code: string, other: string, yt: string, q: string)
    requires Distinguishes(code, other) && AllDigits(yt) && AllDigits(q)
    ensures var s := other + "-" + yt + "-" + q;
            forall i :: 1 <= i < |s| ==> s[i] != code[0]
  {
    var s := other + "-" + yt + "-" + q;
    var c := |other|;
    forall i | 1 <= i < |s| ensures s[i] != code[0] {
      if i < c {
        assert s[i] == other[i];
      } else if i == c {
      } else if i < c + 1 + |yt| {
        assert s[i] == yt[i - c - 1];
      } else if i == c + 1 + |yt| {
      } else {
        assert s[i] == q[i - c - 2 - |yt|];
      }
    }
  }

  /** The search for `CODE-YEAR` finds a number written with code `other` in
      year y2 only when the code and the year are the same. So numbers of
      other years, and numbers with a look-alike code, are never counted. */
  lemma PrefixFoundOnlyInOwn(code: string, year: int, other: string, y2: int, n: nat)
    requires Distinguishes(code, other)
    requires 1000 <= year <= 9999 && 1000 <= y2 <= 9999
    ensures Contains(DocumentNumber(other, y2, n), NumberPrefix(code, year)) <==> other == code && year == y2
  {
    FourDigitText(year);
    FourDigitText(y2);
    var yt := IntText(year);
    var yt2 := IntText(y2);
    var q := SequenceText(n);
    var s := DocumentNumber(other, y2, n);
    var sub := NumberPrefix(code, year);
    assert s == other + "-" + yt2 + "-" + q;
    assert sub == code + "-" + yt;
    FirstCharOnlyAtStart(code, other, yt2, q);
    OnlyAtStart(s, sub);
    PrefixCompare(code, other, yt, yt2, q);
    if yt == yt2 {
      IntTextInjective(year, y2);
    }
  }

  /** The characters of the code open the number. */
  lemma CodeOpensNumber(code: string, year: int, n: nat)
    ensures |DocumentNumber(code, year, n)| > |code|
    ensures forall i :: 0 <= i < |code| ==> DocumentNumber(code, year, n)[i] == code[i]
  {
    var s := DocumentNumber(code, year, n);
    var p := NumberPrefix(code, year);
    assert s == p + "-" + SequenceText(n);
    forall i | 0 <= i < |code| ensures s[i] == code[i] {
      assert s[i] == (p + "-")[i] == p[i];
      assert p[i] == (code + "-")[i];
    }
  }

  /** Codes that differ at some position give different numbers, whatever
      the years and sequence numbers. */
  lemma CodesSeparateNumbers(a: string, b: string, i: nat, y1: int, n1: nat, y2: int, n2: nat)
    requires i < |a| && i < |b| && a[i] != b[i]
    ensures DocumentNumber(a, y1, n1) != DocumentNumber(b, y2, n2)
  {
    CodeOpensNumber(a, y1, n1);
    CodeOpensNumber(b, y2, n2);
    assert DocumentNumber(a, y1, n1)[i] != DocumentNumber(b, y2, n2)[i];
  }
}
