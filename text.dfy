/** The few string operations of the Python standard library the integration relies on. */
module Text {

  /** Python's `s.split(sep)` for a one-character separator. */
  function Split(s: string, sep: char): (parts: seq<string>)
    ensures |parts| >= 1
    ensures forall i :: 0 <= i < |parts| ==> sep !in parts[i]
    decreases |s|
  {
    if |s| == 0 then [""]
    else if s[0] == sep then [""] + Split(s[1..], sep)
    else
      var rest := Split(s[1..], sep);
      [[s[0]] + rest[0]] + rest[1..]
  }

  /** Python's `sep.join(parts)` for a one-character separator. */
  function Join(parts: seq<string>, sep: char): string
    decreases |parts|
  {
    if |parts| == 0 then ""
    else if |parts| == 1 then parts[0]
    else parts[0] + [sep] + Join(parts[1..], sep)
  }

  /** Joining the parts of a split gives back the original text. */
  lemma {:induction false} JoinSplit(s: string, sep: char)
    ensures Join(Split(s, sep), sep) == s
    decreases |s|
  {
    if |s| == 0 {
    } else if s[0] == sep {
      JoinSplit(s[1..], sep);
      var p := Split(s[1..], sep);
      assert Split(s, sep) == [""] + p;
      assert ([""] + p)[1..] == p;
      assert s == [sep] + s[1..];
    } else {
      JoinSplit(s[1..], sep);
      var p := Split(s[1..], sep);
      var q := [[s[0]] + p[0]] + p[1..];
      assert Split(s, sep) == q;
      if |p| == 1 {
        assert s == [s[0]] + s[1..];
      } else {
        assert q[1..] == p[1..];
        assert Join(p, sep) == p[0] + [sep] + Join(p[1..], sep);
        assert s == [s[0]] + s[1..];
      }
    }
  }

  /** Splitting text that begins with a separator-free prefix `a`. */
  lemma {:induction false} SplitAfterPrefix(a: string, t: string, sep: char)
    requires sep !in a
    ensures Split(a + t, sep) == [a + Split(t, sep)[0]] + Split(t, sep)[1..]
    decreases |a|
  {
    if |a| == 0 {
      assert a + t == t;
      var p := Split(t, sep);
      assert a + p[0] == p[0];
      assert [p[0]] + p[1..] == p;
    } else {
      assert (a + t)[0] == a[0];
      assert (a + t)[1..] == a[1..] + t;
      SplitAfterPrefix(a[1..], t, sep);
      assert [a[0]] + (a[1..] + Split(t, sep)[0]) == a + Split(t, sep)[0];
    }
  }

  /** Splitting the join of separator-free parts gives back the parts. */
  lemma {:induction false} SplitJoin(parts: seq<string>, sep: char)
    requires |parts| >= 1
    requires forall i :: 0 <= i < |parts| ==> sep !in parts[i]
    ensures Split(Join(parts, sep), sep) == parts
    decreases |parts|
  {
    if |parts| == 1 {
      SplitAfterPrefix(parts[0], "", sep);
      assert parts[0] + "" == parts[0];
    } else {
      var rest := parts[1..];
      SplitJoin(rest, sep);
      var j := Join(rest, sep);
      assert Join(parts, sep) == parts[0] + ([sep] + j);
      assert ([sep] + j)[0] == sep && ([sep] + j)[1..] == j;
      assert Split([sep] + j, sep) == [""] + rest;
      SplitAfterPrefix(parts[0], [sep] + j, sep);
      assert parts[0] + "" == parts[0];
      assert ([""] + rest)[1..] == rest;
    }
  }

  /** The join of two or more parts ends with the separator and the last part. */
  lemma {:induction false} JoinLast(parts: seq<string>, sep: char)
    requires |parts| >= 2
    ensures Join(parts, sep) == Join(parts[..|parts| - 1], sep) + [sep] + parts[|parts| - 1]
    decreases |parts|
  {
    var n := |parts|;
    if n > 2 {
      JoinLast(parts[1..], sep);
      assert parts[1..][..n - 2] == parts[..n - 1][1..];
      assert parts[1..][n - 2] == parts[n - 1];
    }
  }

  /** Python's `s.split(sep)[-1]`: the text after the last separator. */
  function LastSegment(s: string, sep: char): (r: string)
    ensures sep !in r
    ensures r == s <==> sep !in s
    ensures r != s ==> |r| < |s| && s == s[..|s| - |r| - 1] + [sep] + r
  {
    var parts := Split(s, sep);
    JoinSplit(s, sep);
    if |parts| >= 2 then
      JoinLast(parts, sep);
      var r := parts[|parts| - 1];
      var prefix := Join(parts[..|parts| - 1], sep);
      assert s == prefix + [sep] + r;
      assert s[|prefix|] == sep;
      assert s[..|s| - |r| - 1] == prefix;
      r
    else
      parts[0]
  }

  /** A decimal digit character. */
  function DigitChar(d: nat): char
    requires d < 10
  {
    "0123456789"[d]
  }

  /** Python's `str(n)` for a natural number. */
  function DecimalString(n: nat): (s: string)
    ensures |s| >= 1
  {
    if n < 10 then [DigitChar(n)] else DecimalString(n / 10) + [DigitChar(n % 10)]
  }

  /** Python's `s.zfill(width)` for text without a sign. */
  function ZFill(s: string, width: nat): (r: string)
    ensures |r| == if |s| < width then width else |s|
    ensures r == seq(if |s| < width then width - |s| else 0, _ => '0') + s
    decreases width - |s|
  {
    if |s| >= width then s else ZFill(['0'] + s, width)
  }

  /** `str(n).zfill(2)` is the two digits of any `n` below 100. */
  lemma TwoDigitKey(n: nat)
    requires n < 100
    ensures ZFill(DecimalString(n), 2) == [DigitChar(n / 10), DigitChar(n % 10)]
  {
    if n < 10 {
      assert DecimalString(n) == [DigitChar(n)];
      assert ZFill([DigitChar(n)], 2) == ['0', DigitChar(n)];
    } else {
      assert DecimalString(n / 10) == [DigitChar(n / 10)];
    }
  }

  /** Distinct numbers below 100 give distinct two-digit keys. */
  lemma TwoDigitKeyInjective(m: nat, n: nat)
    requires m < 100 && n < 100 && m != n
    ensures ZFill(DecimalString(m), 2) != ZFill(DecimalString(n), 2)
  {
    TwoDigitKey(m);
    TwoDigitKey(n);
    DigitPairsDiffer(m, n);
  }

  /** Distinct numbers below 100 differ in their tens or their units digit. */
  lemma DigitPairsDiffer(m: nat, n: nat)
    requires m < 100 && n < 100 && m != n
    ensures [DigitChar(m / 10), DigitChar(m % 10)] != [DigitChar(n / 10), DigitChar(n % 10)]
  {
    assert m == 10 * (m / 10) + m % 10;
    assert n == 10 * (n / 10) + n % 10;
    if m / 10 != n / 10 {
      assert DigitChar(m / 10) != DigitChar(n / 10);
    } else {
      assert DigitChar(m % 10) != DigitChar(n % 10);
    }
  }
}
