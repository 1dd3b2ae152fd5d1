/**
 What splitting a full name promises for the lists of names a session is opened with: which full names are
 accepted, and what the parts are, word by word.
 */
module FullNames {
  import opened Wrappers
  import opened Text
  import opened Names

  /** The only whitespace is single spaces between words. */
  ghost predicate SingleSpaced(s: string) {
    && (forall i | 0 <= i < |s| && IsSpace(s[i]) :: s[i] == ' ' && 0 < i < |s| - 1)
    && (forall i, j | 0 <= i < j < |s| && j == i + 1 :: !IsSpace(s[i]) || !IsSpace(s[j]))
  }

  predicate AllWords(names: seq<string>) {
    forall i | 0 <= i < |names| :: Word(names[i])
  }

  /** Two lists of words differ in casing only. */
  predicate SameFolds(a: seq<string>, b: seq<string>) {
    |a| == |b| && forall i | 0 <= i < |a| :: Fold(a[i]) == Fold(b[i])
  }

  // ---------- joining and cutting into words ----------

  lemma {:induction false} JoinIsSpaced(names: seq<string>)
    requires AllWords(names)
    ensures Words(Join(names, " ")) == names && SingleSpaced(Join(names, " "))
    ensures names != [] ==> Join(names, " ") != "" && !IsSpace(Join(names, " ")[0])
  {
    if names != [] {
      assert Word(names[0]);
      assert names[0][0] in names[0];
      OneWord(names[0]);
      WordIsSpaced(names[0]);
      if |names| > 1 {
        var rest := Join(names[1..], " ");
        JoinIsSpaced(names[1..]);
        WordsSplit(names[0], ' ', rest);
        assert names[0] + " " + rest == names[0] + [' '] + rest;
        WordThenSpaced(names[0], rest);
      }
    }
  }

  lemma WordIsSpaced(w: string)
    requires Word(w)
    ensures SingleSpaced(w)
  {
    forall i | 0 <= i < |w| ensures !IsSpace(w[i]) {
      assert w[i] in w;
    }
  }

  lemma WordThenSpaced(w: string, rest: string)
    requires Word(w) && SingleSpaced(rest) && rest != "" && !IsSpace(rest[0])
    ensures SingleSpaced(w + [' '] + rest)
  {
    var s := w + [' '] + rest;
    assert forall i | 0 <= i < |w| :: w[i] in w && s[i] == w[i];
    assert w != "" && s[|w| + 1] == rest[0];
    forall i | |w| < i < |s| ensures s[i] == rest[i - |w| - 1] {}
  }

  lemma SpacedSuffix(s: string, n: nat)
    requires SingleSpaced(s) && n <= |s| && (n < |s| ==> !IsSpace(s[n]))
    ensures SingleSpaced(s[n..])
  {
    var t := s[n..];
    forall i | 0 <= i < |t| ensures t[i] == s[n + i] {}
  }

  lemma {:induction false} WordStops(s: string)
    ensures WordLength(s) < |s| ==> IsSpace(s[WordLength(s)])
    ensures forall i | 0 <= i < WordLength(s) :: !IsSpace(s[i])
  {
    if s != "" && !IsSpace(s[0]) {
      WordStops(s[1..]);
    }
  }

  /** The first word of a single-spaced string, when there are more. */
  lemma FirstOfSeveral(s: string, n: nat)
    requires SingleSpaced(s) && s != "" && n == WordLength(s) && n < |s|
    ensures s[n] == ' ' && n + 1 < |s| && !IsSpace(s[n + 1]) && SingleSpaced(s[n + 1..])
    ensures Words(s) == [s[..n]] + Words(s[n + 1..])
  {
    assert !IsSpace(s[0]);
    WordStops(s);
    WordsFrom(s, n);
    assert s[n..][1..] == s[n + 1..];
    SpacedSuffix(s, n + 1);
  }

  lemma JoinFirst(first: string, rest: seq<string>)
    requires rest != []
    ensures Join([first] + rest, " ") == first + " " + Join(rest, " ")
  {
    assert ([first] + rest)[1..] == rest;
  }

  lemma OnlyWord(s: string)
    requires s != "" && !IsSpace(s[0]) && WordLength(s) == |s|
    ensures Words(s) == [s]
  {
    WordsFrom(s, |s|);
    assert s[..|s|] == s && s[|s|..] == "";
  }

  lemma SomeWord(s: string)
    requires s != "" && (!IsSpace(s[0]) || !IsSpace(s[|s| - 1]))
    ensures !Blank(s) && Words(s) != []
  {
    assert s[0] in s && s[|s| - 1] in s;
    WordsOfBlank(s);
  }

  lemma Glued(s: string, n: nat)
    requires n < |s| && s[n] == ' '
    ensures s == s[..n] + " " + s[n + 1..]
  {
  }

  /** A single-spaced string is its words, joined. */
  lemma {:induction false} SpacedIsJoined(s: string)
    requires SingleSpaced(s)
    ensures Join(Words(s), " ") == s
    decreases |s|
  {
    if s != "" {
      var n := WordLength(s);
      assert !IsSpace(s[0]);
      if n == |s| {
        OnlyWord(s);
      } else {
        FirstOfSeveral(s, n);
        var rest := s[n + 1..];
        SpacedIsJoined(rest);
        SomeWord(rest);
        JoinFirst(s[..n], Words(rest));
        Glued(s, n);
      }
    }
  }

  lemma {:induction false} JoinConcat(a: seq<string>, b: seq<string>)
    requires a != [] && b != []
    ensures Join(a + b, " ") == Join(a, " ") + " " + Join(b, " ")
  {
    if |a| == 1 {
      assert (a + b)[1..] == b;
    } else {
      assert (a + b)[1..] == a[1..] + b;
      JoinConcat(a[1..], b);
    }
  }

  // ---------- casing ----------

  lemma {:induction false} JoinFolds(a: seq<string>, b: seq<string>)
    requires SameFolds(a, b)
    ensures Fold(Join(a, " ")) == Fold(Join(b, " "))
  {
    if |a| > 1 {
      JoinFolds(a[1..], b[1..]);
      FoldConcat(a[0] + " ", Join(a[1..], " "));
      FoldConcat(b[0] + " ", Join(b[1..], " "));
      FoldConcat(a[0], " ");
      FoldConcat(b[0], " ");
    }
  }

  lemma FoldCut(s: string, t: string, n: nat)
    requires Fold(s) == Fold(t) && n <= |s|
    ensures |s| == |t| && Fold(s[..n]) == Fold(t[..n]) && Fold(s[n..]) == Fold(t[n..])
  {
    assert |s| == |Fold(s)| == |Fold(t)| == |t|;
    forall i | 0 <= i < |s| ensures FoldChar(s[i]) == FoldChar(t[i]) {
      assert Fold(s)[i] == Fold(t)[i];
    }
  }

  lemma FoldSpaces(s: string, t: string)
    requires Fold(s) == Fold(t)
    ensures |s| == |t| && forall i | 0 <= i < |s| :: (IsSpace(s[i]) <==> IsSpace(t[i])) && (s[i] == ' ' <==> t[i] == ' ')
  {
    assert |s| == |Fold(s)| == |Fold(t)| == |t|;
    forall i | 0 <= i < |s| ensures (IsSpace(s[i]) <==> IsSpace(t[i])) && (s[i] == ' ' <==> t[i] == ' ') {
      assert Fold(s)[i] == Fold(t)[i];
    }
  }

  lemma {:induction false} WordLengthFolds(s: string, t: string)
    requires Fold(s) == Fold(t)
    ensures WordLength(s) == WordLength(t)
  {
    FoldSpaces(s, t);
    if s != "" && !IsSpace(s[0]) {
      FoldCut(s, t, 1);
      WordLengthFolds(s[1..], t[1..]);
    }
  }

  /** Strings that differ in casing only have words that differ in casing only. */
  lemma {:induction false} WordsFold(s: string, t: string)
    requires Fold(s) == Fold(t)
    ensures SameFolds(Words(s), Words(t))
    decreases |s|
  {
    FoldSpaces(s, t);
    if s != "" && IsSpace(s[0]) {
      FoldCut(s, t, 1);
      WordsFold(s[1..], t[1..]);
    } else if s != "" {
      var n := WordLength(s);
      WordLengthFolds(s, t);
      FoldCut(s, t, n);
      WordsFold(s[n..], t[n..]);
    }
  }

  lemma SpacedFold(s: string, t: string)
    requires Fold(s) == Fold(t) && SingleSpaced(s)
    ensures SingleSpaced(t)
  {
    FoldSpaces(s, t);
  }

  // ---------- the names a session is opened with ----------

  /** A full name is accepted if and only if it is single-spaced and its words are those names, whatever their casing. */
  lemma MatchesExactly(fullName: string, givenNames: seq<string>, familyNames: seq<string>)
    requires givenNames != [] && AllWords(givenNames) && familyNames != [] && AllWords(familyNames)
    ensures Match(fullName, Join(givenNames, " "), Join(familyNames, " "))
       <==> SingleSpaced(fullName) && SameFolds(Words(fullName), givenNames + familyNames)
  {
    var names := givenNames + familyNames;
    var given, family, joined := Join(givenNames, " "), Join(familyNames, " "), Join(names, " ");
    JoinConcat(givenNames, familyNames);
    JoinIsSpaced(names);
    FoldConcat(given + " ", family);
    FoldConcat(given, " ");
    assert Fold(" ") == [' '];
    assert Match(fullName, given, family) <==> Fold(joined) == Fold(fullName);
    if Fold(joined) == Fold(fullName) {
      SpacedFold(joined, fullName);
      WordsFold(fullName, joined);
    }
    if SingleSpaced(fullName) && SameFolds(Words(fullName), names) {
      SpacedIsJoined(fullName);
      JoinFolds(Words(fullName), names);
    }
  }

  /** The two halves of a full name that is accepted. */
  lemma Halves(fullName: string, givenNames: seq<string>, familyNames: seq<string>)
    requires givenNames != [] && AllWords(givenNames) && familyNames != [] && AllWords(familyNames)
    requires Match(fullName, Join(givenNames, " "), Join(familyNames, " "))
    ensures var n := |Join(givenNames, " ")|;
            && n + 1 < |fullName| && fullName[n] == ' ' && !IsSpace(fullName[n + 1]) && !IsSpace(fullName[|fullName| - 1])
            && SingleSpaced(fullName[n + 1..]) && |givenNames| <= |Words(fullName)|
            && Words(fullName[..n]) == Words(fullName)[..|givenNames|]
            && Words(fullName[n + 1..]) == Words(fullName)[|givenNames|..]
  {
    var given, family := Join(givenNames, " "), Join(familyNames, " ");
    var n := |given|;
    MatchSplits(fullName, given, family);
    MatchesExactly(fullName, givenNames, familyNames);
    JoinIsSpaced(familyNames);
    assert IsSpace(fullName[n]);
    SpacedSuffix(fullName, n + 1);
    assert fullName == fullName[..n] + [' '] + fullName[n + 1..];
    WordsSplit(fullName[..n], ' ', fullName[n + 1..]);
    GivenCount(fullName, givenNames);
    assert SingleSpaced(fullName) && IsSpace(fullName[|fullName| - 1]) ==> |fullName| - 1 < |fullName| - 1;
  }

  lemma GivenCount(fullName: string, givenNames: seq<string>)
    requires AllWords(givenNames) && StandsAt(fullName, Join(givenNames, " "), 0)
    ensures |Words(fullName[..|Join(givenNames, " ")|])| == |givenNames|
  {
    var given := Join(givenNames, " ");
    var own := fullName[..|given|];
    JoinIsSpaced(givenNames);
    forall i | 0 <= i < |given| ensures Fold(own)[i] == Fold(given)[i] {
      assert FoldChar(fullName[i]) == FoldChar(given[i]);
    }
    WordsFold(own, given);
  }

  lemma TrimSpaced(s: string)
    requires s != "" && !IsSpace(s[0]) && !IsSpace(s[|s| - 1])
    ensures Trim([' '] + s) == s
  {
    assert ([' '] + s)[1..] == s;
    assert TrimStart([' '] + s) == TrimStart(s) == s;
  }

  lemma TrimAfter(s: string, n: nat)
    requires n + 1 < |s| && s[n] == ' ' && !IsSpace(s[n + 1]) && !IsSpace(s[|s| - 1])
    ensures Trim(s[n..]) == s[n + 1..]
  {
    assert s[n..] == [' '] + s[n + 1..];
    TrimSpaced(s[n + 1..]);
  }

  lemma TailIsLeft(s: string, p: nat, n: nat)
    requires p + n < |s| && !IsSpace(s[|s| - 1])
    ensures Words(s[..p] + s[p + n..]) != []
  {
    SomeWord(s[..p] + s[p + n..]);
  }

  lemma GivenIsLeft(fullName: string, given: string, family: string)
    requires Match(fullName, given, family) && !Blank(given)
    requires FirstFrom(fullName, family, 0) == Some(|given| + 1)
    ensures Words(Without(fullName, family)) != []
  {
    MatchSplits(fullName, given, family);
    GivenWords(fullName, given, family);
    SameBlank(fullName[..|given|], given, fullName);
    WordsOfBlank(fullName[..|given|]);
  }

  lemma TakenOut(fullName: string, given: string, family: string) returns (p: nat)
    requires Match(fullName, given, family)
    ensures FirstFrom(fullName, family, 0) == Some(p) && p + |family| <= |fullName| == |given| + 1 + |family|
    ensures Without(fullName, family) == fullName[..p] + fullName[p + |family|..]
  {
    MatchSplits(fullName, given, family);
    FirstFromIs(fullName, family, 0);
    p := FirstFrom(fullName, family, 0).value;
  }

  /** Wherever the family name is taken out, a word is left. */
  lemma WordIsLeft(fullName: string, given: string, family: string)
    requires Match(fullName, given, family) && !Blank(given) && fullName != "" && !IsSpace(fullName[|fullName| - 1])
    ensures Words(Without(fullName, family)) != []
  {
    var p := TakenOut(fullName, given, family);
    if p + |family| < |fullName| {
      TailIsLeft(fullName, p, |family|);
    } else {
      GivenIsLeft(fullName, given, family);
    }
  }

  /** What comes back for a full name that matches. */
  lemma MatchComesBack(fullName: string, given: string, family: string)
    requires Match(fullName, given, family) && !Blank(given)
    requires |given| + 1 < |fullName| && fullName[|given|] == ' '
    requires !IsSpace(fullName[|given| + 1]) && !IsSpace(fullName[|fullName| - 1])
    ensures
      var r := SplitName(fullName, given, family);
      && r.Ok? && |r.value| >= 2
      && r.value[|r.value| - 1] == NamePart("FamilyName", fullName[|given| + 1..])
      && forall i | 0 <= i < |r.value| - 1 :: r.value[i].kind == "GivenName"
  {
    var words := Words(Without(fullName, family));
    WordIsLeft(fullName, given, family);
    TrimAfter(fullName, |given|);
    Assembled(fullName, given, family, words);
    assert SplitName(fullName, given, family) == Ok(GivenParts(words) + [NamePart("FamilyName", fullName[|given| + 1..])]);
  }

  lemma NotBlank(names: seq<string>)
    requires names != [] && AllWords(names)
    ensures !Blank(Join(names, " "))
  {
    JoinIsSpaced(names);
    SomeWord(Join(names, " "));
  }

  lemma Shape(fullName: string, givenNames: seq<string>, familyNames: seq<string>)
    requires givenNames != [] && AllWords(givenNames) && familyNames != [] && AllWords(familyNames)
    requires Match(fullName, Join(givenNames, " "), Join(familyNames, " "))
    ensures var n := |Join(givenNames, " ")|;
            && !Blank(Join(givenNames, " "))
            && n + 1 < |fullName| && fullName[n] == ' ' && !IsSpace(fullName[n + 1]) && !IsSpace(fullName[|fullName| - 1])
  {
    NotBlank(givenNames);
    Halves(fullName, givenNames, familyNames);
  }

  /** The part of the family name, in a full name that matches. */
  lemma MatchedParts(fullName: string, givenNames: seq<string>, familyNames: seq<string>) returns (own: string)
    requires givenNames != [] && AllWords(givenNames) && familyNames != [] && AllWords(familyNames)
    requires Match(fullName, Join(givenNames, " "), Join(familyNames, " "))
    ensures
      var r := NamesFromPersonIdentity(fullName, givenNames, familyNames);
      && |Join(givenNames, " ")| < |fullName| && own == fullName[|Join(givenNames, " ")| + 1..]
      && r.Ok? && |r.value| >= 2 && r.value[|r.value| - 1] == NamePart("FamilyName", own)
      && forall i | 0 <= i < |r.value| - 1 :: r.value[i].kind == "GivenName"
  {
    Shape(fullName, givenNames, familyNames);
    MatchComesBack(fullName, Join(givenNames, " "), Join(familyNames, " "));
    own := fullName[|Join(givenNames, " ")| + 1..];
  }

  /**
   For any names a session is opened with and any full name: names come back if and only if the full name is
   single-spaced and its words are those names in order, whatever their casing; otherwise it is a mismatch. The
   last part is the family name, which is the last words of the full name in the document's casing.
   */
  lemma NamesComeBackExactly(fullName: string, givenNames: seq<string>, familyNames: seq<string>)
    requires givenNames != [] && AllWords(givenNames) && familyNames != [] && AllWords(familyNames)
    ensures
      var r := NamesFromPersonIdentity(fullName, givenNames, familyNames);
      && (r.Ok? <==> SingleSpaced(fullName) && SameFolds(Words(fullName), givenNames + familyNames))
      && (!r.Ok? ==> r == Err(Mismatch))
      && (r.Ok? ==>
            && |r.value| >= 2
            && var last := r.value[|r.value| - 1];
               && last.kind == "FamilyName" && SingleSpaced(last.value)
               && Words(last.value) == Words(fullName)[|givenNames|..]
               && forall i | 0 <= i < |r.value| - 1 :: r.value[i].kind == "GivenName")
  {
    MatchesExactly(fullName, givenNames, familyNames);
    if Match(fullName, Join(givenNames, " "), Join(familyNames, " ")) {
      var own := MatchedParts(fullName, givenNames, familyNames);
      Halves(fullName, givenNames, familyNames);
    }
  }

  lemma FirstFromPattern(s: string, f: string, g: string, i: nat)
    requires Fold(f) == Fold(g)
    ensures FirstFrom(s, f, i) == FirstFrom(s, g, i)
    decreases |s| - i
  {
    FoldSpaces(f, g);
    forall k: nat ensures StandsAt(s, f, k) <==> StandsAt(s, g, k) {
      forall j | 0 <= j < |f| ensures FoldChar(f[j]) == FoldChar(g[j]) {
        assert Fold(f)[j] == Fold(g)[j];
      }
      if k + |f| <= |s| {
        assert StandsAt(s, f, k) ==> forall j | k <= j < k + |g| :: FoldChar(s[j]) == FoldChar(f[j - k]) == FoldChar(g[j - k]);
        assert StandsAt(s, g, k) ==> forall j | k <= j < k + |f| :: FoldChar(s[j]) == FoldChar(g[j - k]) == FoldChar(f[j - k]);
      }
    }
    if i + |f| <= |s| && !StandsAt(s, f, i) {
      FirstFromPattern(s, f, g, i + 1);
    }
  }

  lemma SurnameStands(fullName: string, givenNames: seq<string>, familyNames: seq<string>, surname: string)
    requires Match(fullName, Join(givenNames, " "), Join(familyNames, " "))
    requires SingleSpaced(surname) && SameFolds(Words(surname), familyNames)
    requires forall i: nat | StandsAt(fullName, surname, i) :: i + |surname| == |fullName|
    ensures FirstFrom(fullName, Join(familyNames, " "), 0) == Some(|Join(givenNames, " ")| + 1)
  {
    var given, family := Join(givenNames, " "), Join(familyNames, " ");
    MatchSplits(fullName, given, family);
    SpacedIsJoined(surname);
    JoinFolds(Words(surname), familyNames);
    FirstFromPattern(fullName, surname, family, 0);
    FirstFromIs(fullName, surname, 0);
    FirstFromIs(fullName, family, 0);
    assert |surname| == |Fold(surname)| == |Fold(family)| == |family|;
  }

  /**
   The given names come back as the first words of the full name in the document's casing, when the family name,
   in any casing, stands in the full name only at its end.
   */
  lemma GivenNamesComeBack(fullName: string, givenNames: seq<string>, familyNames: seq<string>, surname: string)
    requires givenNames != [] && AllWords(givenNames) && familyNames != [] && AllWords(familyNames)
    requires SingleSpaced(fullName) && SameFolds(Words(fullName), givenNames + familyNames)
    requires SingleSpaced(surname) && SameFolds(Words(surname), familyNames)
    requires forall i: nat | StandsAt(fullName, surname, i) :: i + |surname| == |fullName|
    ensures
      var r := NamesFromPersonIdentity(fullName, givenNames, familyNames);
      && r.Ok? && |r.value| == |givenNames| + 1
      && forall i | 0 <= i < |givenNames| :: r.value[i] == NamePart("GivenName", Words(fullName)[i])
  {
    var given, family := Join(givenNames, " "), Join(familyNames, " ");
    MatchesExactly(fullName, givenNames, familyNames);
    SurnameStands(fullName, givenNames, familyNames, surname);
    JoinIsSpaced(givenNames);
    SomeWord(given);
    NamesReassemble(fullName, given, family);
    Halves(fullName, givenNames, familyNames);
    var r := NamesFromPersonIdentity(fullName, givenNames, familyNames);
    var own := Words(Without(fullName, family));
    GivenWords(fullName, given, family);
    assert r.value[..|r.value| - 1] == GivenParts(own);
  }
}
