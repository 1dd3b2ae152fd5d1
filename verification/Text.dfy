/** Whitespace, trimming, words and case folding of strings. Folding is character by character and keeps lengths. */
module Text {

  predicate IsSpace(c: char) {
    c in {' ', '\t', '\n', '\r'}
  }

  predicate Blank(s: string) {
    forall c | c in s :: IsSpace(c)
  }

  function TrimStart(s: string): string {
    if s != "" && IsSpace(s[0]) then TrimStart(s[1..]) else s
  }

  function TrimEnd(s: string): string {
    if s != "" && IsSpace(s[|s| - 1]) then TrimEnd(s[..|s| - 1]) else s
  }

  function Trim(s: string): string {
    TrimEnd(TrimStart(s))
  }

  lemma {:induction false} TrimStartBlank(s: string)
    ensures Blank(TrimStart(s)) <==> Blank(s)
  {
    if s != "" && IsSpace(s[0]) {
      TrimStartBlank(s[1..]);
      assert s == [s[0]] + s[1..];
    }
  }

  lemma {:induction false} TrimEndBlank(s: string)
    ensures TrimEnd(s) == "" <==> Blank(s)
  {
    if s != "" && IsSpace(s[|s| - 1]) {
      TrimEndBlank(s[..|s| - 1]);
      assert s == s[..|s| - 1] + [s[|s| - 1]];
    }
  }

  lemma TrimBlank(s: string)
    ensures Trim(s) == "" <==> Blank(s)
  {
    TrimStartBlank(s);
    TrimEndBlank(TrimStart(s));
  }

  lemma {:induction false} TrimStartIs(s: string) returns (n: nat)
    ensures n <= |s| && TrimStart(s) == s[n..] && Blank(s[..n]) && (n < |s| ==> !IsSpace(s[n]))
  {
    n := 0;
    if s != "" && IsSpace(s[0]) {
      n := TrimStartIs(s[1..]);
      assert s[..n + 1] == [s[0]] + s[1..][..n];
      n := n + 1;
    }
  }

  lemma {:induction false} TrimEndIs(s: string) returns (n: nat)
    ensures n <= |s| && TrimEnd(s) == s[..n] && Blank(s[n..]) && (n > 0 ==> !IsSpace(s[n - 1]))
  {
    n := |s|;
    if s != "" && IsSpace(s[|s| - 1]) {
      n := TrimEndIs(s[..|s| - 1]);
      assert s[n..] == s[..|s| - 1][n..] + [s[|s| - 1]];
    }
  }

  /** Trimming takes whitespace off both ends, and all of it. */
  lemma TrimIs(s: string) returns (before: string, after: string)
    ensures s == before + Trim(s) + after && Blank(before) && Blank(after)
    ensures Trim(s) != "" ==> !IsSpace(Trim(s)[0]) && !IsSpace(Trim(s)[|Trim(s)| - 1])
  {
    var n := TrimStartIs(s);
    var m := TrimEndIs(s[n..]);
    before, after := s[..n], s[n..][m..];
    assert s == s[..n] + s[n..] && s[n..] == s[n..][..m] + s[n..][m..];
  }

  lemma BlankConcat(a: string, b: string)
    ensures Blank(a + b) <==> Blank(a) && Blank(b)
  {
    assert forall c | c in a :: c in a + b;
    assert forall c | c in b :: c in a + b;
  }

  function Join(parts: seq<string>, separator: string): string {
    if parts == [] then "" else if |parts| == 1 then parts[0] else parts[0] + separator + Join(parts[1..], separator)
  }

  // ---------- words ----------

  /** The length of the word a string starts with. */
  function WordLength(s: string): (n: nat)
    ensures n <= |s|
    ensures s != "" && !IsSpace(s[0]) ==> n > 0
  {
    if s == "" || IsSpace(s[0]) then 0 else 1 + WordLength(s[1..])
  }

  /** The words of a string: its longest stretches without whitespace, in order. */
  function Words(s: string): seq<string> {
    if s == "" then []
    else if IsSpace(s[0]) then Words(s[1..])
    else [s[..WordLength(s)]] + Words(s[WordLength(s)..])
  }

  lemma {:induction false} WordLengthSplit(a: string, c: char, b: string)
    requires IsSpace(c)
    ensures WordLength(a + [c] + b) == WordLength(a)
  {
    if a == "" {
      assert (a + [c] + b)[0] == c;
    } else if !IsSpace(a[0]) {
      assert (a + [c] + b)[1..] == a[1..] + [c] + b;
      WordLengthSplit(a[1..], c, b);
    }
  }

  lemma WordsFrom(s: string, n: nat)
    requires s != "" && !IsSpace(s[0]) && n == WordLength(s)
    ensures 0 < n <= |s| && Words(s) == [s[..n]] + Words(s[n..])
  {
  }

  lemma SplitTail(a: string, c: char, b: string, n: nat)
    requires n <= |a|
    ensures (a + [c] + b)[..n] == a[..n] && (a + [c] + b)[n..] == a[n..] + [c] + b
  {
  }

  /** Words do not cross whitespace. */
  lemma {:induction false} WordsSplit(a: string, c: char, b: string)
    requires IsSpace(c)
    ensures Words(a + [c] + b) == Words(a) + Words(b)
    decreases |a|
  {
    if a == "" {
      assert (a + [c] + b)[0] == c && (a + [c] + b)[1..] == b;
    } else if IsSpace(a[0]) {
      SplitTail(a, c, b, 1);
      WordsSplit(a[1..], c, b);
    } else {
      WordsSplitWord(a, c, b, WordLength(a));
      WordsSplit(a[WordLength(a)..], c, b);
    }
  }

  lemma WordsSplitWord(a: string, c: char, b: string, n: nat)
    requires IsSpace(c) && a != "" && !IsSpace(a[0]) && n == WordLength(a)
    ensures Words(a) == [a[..n]] + Words(a[n..])
    ensures Words(a + [c] + b) == [a[..n]] + Words(a[n..] + [c] + b)
  {
    WordLengthSplit(a, c, b);
    WordsFrom(a, n);
    WordsFrom(a + [c] + b, n);
    SplitTail(a, c, b, n);
  }

  /** A string can be cut before any whitespace without losing words. */
  lemma WordsAtSpace(s: string, n: nat)
    requires n < |s| && IsSpace(s[n])
    ensures Words(s) == Words(s[..n]) + Words(s[n..])
  {
    WordsSplit(s[..n], s[n], s[n + 1..]);
    assert s == s[..n] + [s[n]] + s[n + 1..];
    assert s[n..][1..] == s[n + 1..];
  }

  lemma {:induction false} WordsOfBlank(s: string)
    ensures Words(s) == [] <==> Blank(s)
    decreases |s|
  {
    if s != "" && IsSpace(s[0]) {
      WordsOfBlank(s[1..]);
      assert s == [s[0]] + s[1..];
    }
  }

  lemma {:induction false} WordsTrimStart(s: string)
    ensures Words(TrimStart(s)) == Words(s)
    decreases |s|
  {
    if s != "" && IsSpace(s[0]) {
      WordsTrimStart(s[1..]);
    }
  }

  lemma {:induction false} WordsTrimEnd(s: string)
    ensures Words(TrimEnd(s)) == Words(s)
    decreases |s|
  {
    if s != "" && IsSpace(s[|s| - 1]) {
      var init := s[..|s| - 1];
      assert s == init + [s[|s| - 1]] + "";
      WordsSplit(init, s[|s| - 1], "");
      WordsTrimEnd(init);
    }
  }

  lemma WordsTrim(s: string)
    ensures Words(Trim(s)) == Words(s)
  {
    WordsTrimStart(s);
    WordsTrimEnd(TrimStart(s));
  }

  // ---------- case ----------

  function FoldChar(c: char): char {
    if 'A' <= c <= 'Z' then (c as int + 32) as char else c
  }

  function Fold(s: string): (r: string)
    ensures |r| == |s| && forall i {:trigger r[i]} | 0 <= i < |s| :: r[i] == FoldChar(s[i])
  {
    seq(|s|, i requires 0 <= i < |s| => FoldChar(s[i]))
  }

  lemma FoldConcat(a: string, b: string)
    ensures Fold(a + b) == Fold(a) + Fold(b)
  {
  }
}
