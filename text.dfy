/**
  String helpers that stand in for the JavaScript built-ins the quote forms use:
  `String.prototype.trim`, the regular-expression classes `\s` and `\d`,
  `replace(/\D/g, "")` and `Array.prototype.join`.
  Strings are sequences of Unicode scalar values.
 */
module Text {
  import opened Seqs

  /** The characters ECMAScript counts as WhiteSpace or LineTerminator: the set
      that `trim` strips and that the regular-expression class `\s` matches. */
  predicate IsSpace(c: char) {
    if c <= ' ' then
      c == ' ' || '\t' <= c <= '\r'  // tab, line feed, vertical tab, form feed, carriage return
    else
      || c == '\U{00A0}' || c == '\U{1680}'
      || ('\U{2000}' <= c <= '\U{200A}')
      || c == '\U{2028}' || c == '\U{2029}' || c == '\U{202F}' || c == '\U{205F}'
      || c == '\U{3000}' || c == '\U{FEFF}'
  }

  /** The regular-expression class `\d`: ASCII decimal digits only. */
  predicate IsDigit(c: char) {
    '0' <= c <= '9'
  }

  predicate AllDigits(s: string) {
    forall i :: 0 <= i < |s| ==> IsDigit(s[i])
  }

  predicate AllSpace(s: string) {
    forall i :: 0 <= i < |s| ==> IsSpace(s[i])
  }

  /** Drops leading white space. */
  function TrimStart(s: string): (r: string)
    ensures |r| <= |s| && r == s[|s| - |r|..]
    ensures forall i :: 0 <= i < |s| - |r| ==> IsSpace(s[i])
    ensures r == [] || !IsSpace(r[0])
    decreases |s|
  {
    if |s| > 0 && IsSpace(s[0]) then TrimStart(s[1..]) else s
  }

  /** Drops trailing white space. */
  function TrimEnd(s: string): (r: string)
    ensures |r| <= |s| && r == s[..|r|]
    ensures forall i :: |r| <= i < |s| ==> IsSpace(s[i])
    ensures r == [] || !IsSpace(r[|r| - 1])
    decreases |s|
  {
    if |s| > 0 && IsSpace(s[|s| - 1]) then TrimEnd(s[..|s| - 1]) else s
  }

  /** `s.trim()`: the result neither starts nor ends with white space, and it is
      empty exactly when `s` is all white space (`TrimIsSlice` adds that it is
      the slice of `s` left once the white space around it is cut off). */
  function Trim(s: string): (r: string)
    ensures |r| <= |s|
    ensures r == [] <==> AllSpace(s)
    ensures r != [] ==> !IsSpace(r[0]) && !IsSpace(r[|r| - 1])
  {
    TrimEnd(TrimStart(s))
  }

  /** The `!s.trim()` test: nothing is left once white space is trimmed, that
      is, the string is all white space (`BlankIsTrimmedEmpty`). */
  predicate IsBlank(s: string) {
    AllSpace(s)
  }

  lemma BlankIsTrimmedEmpty(s: string)
    ensures IsBlank(s) <==> Trim(s) == []
  {
  }

  /** `Trim(s)` is a contiguous slice of `s`, and everything before and after
      that slice is white space. */
  lemma TrimIsSlice(s: string)
    ensures exists a ::
      && 0 <= a <= |s| - |Trim(s)| && Trim(s) <= s[a..]
      && (forall i :: 0 <= i < a ==> IsSpace(s[i]))
      && (forall i :: a + |Trim(s)| <= i < |s| ==> IsSpace(s[i]))
  {
    TrimSlices(s, |s| - |TrimStart(s)|);
  }

  /** The witness for `Trim`'s slice: `TrimStart` drops a blank prefix of
      length `a` and `TrimEnd` a blank suffix. */
  lemma TrimSlices(s: string, a: int)
    requires a == |s| - |TrimStart(s)|
    ensures 0 <= a <= |s| - |TrimEnd(TrimStart(s))|
    ensures TrimEnd(TrimStart(s)) <= s[a..]
    ensures forall i :: 0 <= i < a ==> IsSpace(s[i])
    ensures forall i :: a + |TrimEnd(TrimStart(s))| <= i < |s| ==> IsSpace(s[i])
  {
    var t := TrimStart(s);
    var r := TrimEnd(t);
    assert t == s[a..];
    forall i | a + |r| <= i < |s|
      ensures IsSpace(s[i])
    {
      assert s[i] == t[i - a];
    }
  }

  lemma {:induction false} TrimStartOfTrimmed(s: string)
    requires s == [] || !IsSpace(s[0])
    ensures TrimStart(s) == s
  {
  }

  lemma {:induction false} TrimEndOfTrimmed(s: string)
    requires s == [] || !IsSpace(s[|s| - 1])
    ensures TrimEnd(s) == s
  {
  }

  /** Trimming twice is trimming once. */
  lemma TrimIdempotent(s: string)
    ensures Trim(Trim(s)) == Trim(s)
  {
    var r := Trim(s);
    TrimStartOfTrimmed(r);
    TrimEndOfTrimmed(r);
  }

  /** `s.replace(/\D/g, "")`: the digits of `s`, in order. */
  function Digits(s: string): (r: string)
    ensures AllDigits(r)
    ensures |r| <= |s|
  {
    if s == [] then []
    else (if IsDigit(s[0]) then [s[0]] else []) + Digits(s[1..])
  }

  /** Stripping non-digits distributes over concatenation. */
  lemma {:induction false} DigitsAppend(a: string, b: string)
    ensures Digits(a + b) == Digits(a) + Digits(b)
  {
    if a == [] {
      assert a + b == b;
    } else {
      assert (a + b)[1..] == a[1..] + b;
      DigitsAppend(a[1..], b);
    }
  }

  /** Every digit of `Digits(s)` occurs in `s`. */
  lemma {:induction false} DigitsFromSource(s: string)
    ensures forall c :: c in Digits(s) ==> c in s
  {
    if s != [] {
      DigitsFromSource(s[1..]);
    }
  }

  /** Every digit of `s` is kept, as often as it occurs in `s`. */
  lemma {:induction false} DigitsKeepsDigits(s: string)
    ensures forall c :: IsDigit(c) ==> multiset(Digits(s))[c] == multiset(s)[c]
  {
    if s != [] {
      DigitsKeepsDigits(s[1..]);
      assert s == [s[0]] + s[1..];
      assert multiset(s) == multiset([s[0]]) + multiset(s[1..]);
    }
  }

  /** The kept digits appear in the order they have in `s`. */
  lemma {:induction false} DigitsKeepsOrder(s: string)
    ensures IsSubsequence(Digits(s), s)
  {
    if s != [] {
      DigitsKeepsOrder(s[1..]);
      assert s == [s[0]] + s[1..];
      if IsDigit(s[0]) {
        SubsequenceCons(s[0], Digits(s[1..]), s[1..]);
      } else {
        assert Digits(s) == Digits(s[1..]);
        SubsequenceSkip(s[0], Digits(s[1..]), s[1..]);
      }
    }
  }

  /** `xs.join(sep)`. */
  function Join(xs: seq<string>, sep: string): (r: string)
    ensures xs == [] ==> r == []
    ensures |xs| == 1 ==> r == xs[0]
    decreases |xs|
  {
    if |xs| == 0 then []
    else if |xs| == 1 then xs[0]
    else xs[0] + sep + Join(xs[1..], sep)
  }

  /** Position of the first `c` in `s`, or `|s|` when there is none. */
  function IndexOf(s: string, c: char): (r: nat)
    ensures r <= |s|
    ensures r < |s| ==> s[r] == c
    ensures forall i :: 0 <= i < r ==> s[i] != c
    ensures r == |s| <==> c !in s
  {
    if s == [] then 0
    else if s[0] == c then 0
    else 1 + IndexOf(s[1..], c)
  }

  lemma {:induction false} IndexOfAfterPrefix(a: string, b: string, c: char)
    requires c !in a
    ensures IndexOf(a + b, c) == |a| + IndexOf(b, c)
  {
    if a != [] {
      assert (a + b)[1..] == a[1..] + b;
      IndexOfAfterPrefix(a[1..], b, c);
    } else {
      assert a + b == b;
    }
  }

  /** Reads back a list written by `Join(_, ", ")`: cuts at every comma and drops
      the blank that follows it. */
  function SplitAtCommas(s: string): (r: seq<string>)
    ensures |r| >= 1
    decreases |s|
  {
    var k := IndexOf(s, ',');
    if k == |s| then [s]
    else [s[..k]] + SplitAtCommas(s[if k + 2 <= |s| then k + 2 else |s|..])
  }

  /** The comma-joined list can be read back exactly, as long as the list is
      non-empty and no label carries a comma itself. */
  lemma {:induction false} SplitJoinRoundTrip(xs: seq<string>)
    requires |xs| >= 1
    requires forall i :: 0 <= i < |xs| ==> ',' !in xs[i]
    ensures SplitAtCommas(Join(xs, ", ")) == xs
  {
    if |xs| == 1 {
      assert IndexOf(xs[0], ',') == |xs[0]|;
    } else {
      var rest := Join(xs[1..], ", ");
      var s := xs[0] + ", " + rest;
      assert s == xs[0] + (", " + rest);
      IndexOfAfterPrefix(xs[0], ", " + rest, ',');
      assert IndexOf(s, ',') == |xs[0]|;
      assert s[..|xs[0]|] == xs[0];
      assert s[|xs[0]| + 2..] == rest;
      SplitJoinRoundTrip(xs[1..]);
      assert [xs[0]] + xs[1..] == xs;
    }
  }
}
