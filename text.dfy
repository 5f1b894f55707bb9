/** String helpers: splitting on a delimiter as java.util.StringTokenizer does, and decimal text. */
module Text {

  /** Splits `s` at every occurrence of `d`, keeping the empty pieces ("a,,b" has three). */
  function SplitOn(s: string, d: char): (r: seq<string>)
    ensures |r| >= 1
    ensures forall k :: 0 <= k < |r| ==> d !in r[k]
    decreases |s|
  {
    if s == [] then [""]
    else
      var rest := SplitOn(s[1..], d);
      if s[0] == d then [""] + rest
      else [[s[0]] + rest[0]] + rest[1..]
  }

  /** Puts `d` between consecutive pieces. */
  function JoinOn(parts: seq<string>, d: char): string
    decreases |parts|
  {
    if |parts| == 0 then ""
    else if |parts| == 1 then parts[0]
    else parts[0] + [d] + JoinOn(parts[1..], d)
  }

  lemma {:induction false} JoinSnoc(parts: seq<string>, x: string, d: char)
    requires |parts| >= 1
    ensures JoinOn(parts + [x], d) == JoinOn(parts, d) + [d] + x
    decreases |parts|
  {
    if |parts| == 1 {
      assert parts + [x] == [parts[0], x];
      assert (parts + [x])[1..] == [x];
    } else {
      assert (parts + [x])[1..] == parts[1..] + [x];
      JoinSnoc(parts[1..], x, d);
    }
  }

  lemma {:induction false} JoinPrepend(c: char, p: string, tail: seq<string>, d: char)
    ensures JoinOn([[c] + p] + tail, d) == [c] + JoinOn([p] + tail, d)
  {
    assert ([[c] + p] + tail)[1..] == tail;
    assert ([p] + tail)[1..] == tail;
  }

  /** Splitting undoes joining when no piece holds the delimiter. */
  lemma {:induction false} SplitJoin(parts: seq<string>, d: char)
    requires |parts| >= 1
    requires forall k :: 0 <= k < |parts| ==> d !in parts[k]
    ensures SplitOn(JoinOn(parts, d), d) == parts
    decreases |parts|, |parts[0]|
  {
    var p := parts[0];
    if p == [] {
      if |parts| == 1 {
      } else {
        var j := JoinOn(parts[1..], d);
        assert JoinOn(parts, d) == [d] + j;
        assert ([d] + j)[1..] == j;
        SplitJoin(parts[1..], d);
      }
    } else {
      var parts' := [p[1..]] + parts[1..];
      assert parts'[1..] == parts[1..];
      forall k | 0 <= k < |parts'| ensures d !in parts'[k] {
        if k == 0 {
          assert forall x :: x in p[1..] ==> x in p;
        } else {
          assert parts'[k] == parts[k];
        }
      }
      assert [p[0]] + p[1..] == p;
      assert parts == [[p[0]] + p[1..]] + parts[1..];
      JoinPrepend(p[0], p[1..], parts[1..], d);
      var s := JoinOn(parts, d);
      assert s == [p[0]] + JoinOn(parts', d);
      assert s[1..] == JoinOn(parts', d);
      assert s[0] == p[0] && p[0] != d;
      SplitJoin(parts', d);
    }
  }

  /** Joining undoes splitting. */
  lemma {:induction false} JoinSplit(s: string, d: char)
    ensures JoinOn(SplitOn(s, d), d) == s
    decreases |s|
  {
    if s != [] {
      var rest := SplitOn(s[1..], d);
      JoinSplit(s[1..], d);
      if s[0] == d {
        assert ([""] + rest)[1..] == rest;
        assert [s[0]] + s[1..] == s;
      } else {
        JoinPrepend(s[0], rest[0], rest[1..], d);
        assert [rest[0]] + rest[1..] == rest;
        assert [s[0]] + s[1..] == s;
      }
    }
  }

  /** The pieces that are not empty, in order. */
  function NonEmpty(parts: seq<string>): (r: seq<string>)
    ensures |r| <= |parts|
    ensures forall x :: x in r ==> x in parts && x != ""
    decreases |parts|
  {
    if parts == [] then []
    else (if parts[0] == "" then [] else [parts[0]]) + NonEmpty(parts[1..])
  }

  lemma {:induction false} NonEmptyKeepsAll(parts: seq<string>)
    requires forall k :: 0 <= k < |parts| ==> parts[k] != ""
    ensures NonEmpty(parts) == parts
    decreases |parts|
  {
    if parts != [] {
      NonEmptyKeepsAll(parts[1..]);
      assert [parts[0]] + parts[1..] == parts;
    }
  }

  /**
   * The tokens java.util.StringTokenizer(s, d) hands out: the maximal runs of characters other than
   * `d`; empty runs (leading, trailing or doubled delimiters) yield no token.
   */
  function Tokens(s: string, d: char): (r: seq<string>)
    ensures forall k :: 0 <= k < |r| ==> r[k] != "" && d !in r[k]
  {
    var r := NonEmpty(SplitOn(s, d));
    assert forall k :: 0 <= k < |r| ==> r[k] in SplitOn(s, d);
    r
  }

  /** Tokenizing a line written from non-empty, delimiter-free fields gives those fields back. */
  lemma {:induction false} TokensOfJoin(fields: seq<string>, d: char)
    requires forall k :: 0 <= k < |fields| ==> fields[k] != "" && d !in fields[k]
    ensures Tokens(JoinOn(fields, d), d) == fields
  {
    if fields == [] {
      assert SplitOn("", d) == [""];
      assert NonEmpty([""]) == [] + NonEmpty([]);
    } else {
      SplitJoin(fields, d);
      NonEmptyKeepsAll(fields);
    }
  }

  /** The position of the first `d` in `s`, or |s| when there is none. */
  function IndexOf(s: string, d: char): (i: nat)
    ensures i <= |s|
    ensures i < |s| ==> s[i] == d
    ensures forall k :: 0 <= k < i ==> s[k] != d
    decreases |s|
  {
    if s == [] then 0 else if s[0] == d then 0 else 1 + IndexOf(s[1..], d)
  }

  /** `s` cut at its first `d`: the text before it and the text after it. */
  function Cut(s: string, d: char): (string, string) {
    var i := IndexOf(s, d);
    if i < |s| then (s[..i], s[i + 1..]) else (s, "")
  }

  /** Cutting at the first `d` undoes putting `d` after text that has none. */
  lemma CutJoin(a: string, b: string, d: char)
    requires d !in a
    ensures Cut(a + [d] + b, d) == (a, b)
  {
    var s := a + [d] + b;
    var i := IndexOf(s, d);
    assert s[|a|] == d;
    assert i == |a|;
    assert s[..i] == a && s[i + 1..] == b;
  }

  // ---- decimal text ----

  predicate IsDigit(ch: char) { '0' <= ch <= '9' }

  predicate IsDigits(s: string) { forall k :: 0 <= k < |s| ==> IsDigit(s[k]) }

  function DigitChar(n: nat): (ch: char)
    requires n < 10
    ensures IsDigit(ch) && ch as int - '0' as int == n
  {
    ('0' as int + n) as char
  }

  /** Decimal digits of `n`, most significant first, without leading zeros. */
  function NatText(n: nat): (r: string)
    ensures |r| >= 1 && IsDigits(r)
    decreases n
  {
    if n < 10 then [DigitChar(n)] else NatText(n / 10) + [DigitChar(n % 10)]
  }

  /** java.lang.Integer.toString: a minus sign before the digits of a negative number. */
  function IntText(k: int): string {
    if k < 0 then "-" + NatText(-k) else NatText(k)
  }

  /** The number a string of decimal digits denotes. */
  function NatValue(s: string): nat
    requires IsDigits(s)
    decreases |s|
  {
    if s == [] then 0
    else NatValue(s[..|s| - 1]) * 10 + (s[|s| - 1] as int - '0' as int)
  }

  /** Optional minus sign followed by at least one digit. */
  predicate IsDecimal(s: string) {
    (|s| >= 1 && IsDigits(s)) || (|s| >= 2 && s[0] == '-' && IsDigits(s[1..]))
  }

  function IntValue(s: string): int
    requires IsDecimal(s)
  {
    if s[0] == '-' then -(NatValue(s[1..]) as int) else NatValue(s)
  }

  lemma {:induction false} NatTextRoundTrip(n: nat)
    ensures NatValue(NatText(n)) == n
    decreases n
  {
    if n >= 10 {
      NatTextRoundTrip(n / 10);
      var s := NatText(n / 10) + [DigitChar(n % 10)];
      assert s[..|s| - 1] == NatText(n / 10);
    }
  }

  /** Integer.toString is read back by IntValue. */
  lemma IntTextRoundTrip(k: int)
    ensures IsDecimal(IntText(k)) && IntValue(IntText(k)) == k
  {
    if k < 0 {
      var t := NatText(-k);
      assert ("-" + t)[1..] == t;
      NatTextRoundTrip(-k);
    } else {
      NatTextRoundTrip(k);
      assert NatText(k)[0] != '-';
    }
  }
}
