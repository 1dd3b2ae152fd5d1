/**
 Splitting the full name read from a document back into given names and family name, guided by the names
 the session was opened with. Names are taken literally: none contains a pattern metacharacter.
 */
module Names {
  import opened Wrappers
  import opened Text

  datatype NamePart = NamePart(kind: string, value: string)

  datatype Failure =
    | Mismatch   // the names are not those the session was opened with
    | NoWord     // nothing is left once the family name is taken out: reading its words throws

  /** `f` stands in `s` at position `i`, whatever the case. */
  predicate StandsAt(s: string, f: string, i: nat) {
    i + |f| <= |s| && forall k | i <= k < i + |f| :: FoldChar(s[k]) == FoldChar(f[k - i])
  }

  /** The first place from `i` on where `f` stands in `s`. */
  function FirstFrom(s: string, f: string, i: nat): Option<nat>
    decreases |s| - i
  {
    if i + |f| > |s| then None
    else if StandsAt(s, f, i) then Some(i)
    else FirstFrom(s, f, i + 1)
  }

  /** A string with the first occurrence of `f` taken out. */
  function Without(s: string, f: string): string {
    match FirstFrom(s, f, 0)
    case None => s
    case Some(i) => if i + |f| <= |s| then s[..i] + s[i + |f|..] else s
  }

  function GivenParts(words: seq<string>): seq<NamePart> {
    seq(|words|, i requires 0 <= i < |words| => NamePart("GivenName", words[i]))
  }

  predicate Match(fullName: string, given: string, family: string) {
    Fold(given) + [' '] + Fold(family) == Fold(fullName)
  }

  /** Splitting a full name by the given names and the family name, each joined by spaces. */
  function SplitName(fullName: string, given: string, family: string): Result<seq<NamePart>, Failure> {
    if !Match(fullName, given, family) then Err(Mismatch)
    else
      var words := Words(Without(fullName, family));
      if words == [] then Err(NoWord)
      else Ok(GivenParts(words) + [NamePart("FamilyName", Trim(Without(fullName, given)))])
  }

  function NamesFromPersonIdentity(fullName: string, givenNames: seq<string>, familyNames: seq<string>)
    : Result<seq<NamePart>, Failure>
  {
    SplitName(fullName, Join(givenNames, " "), Join(familyNames, " "))
  }

  /** A full name that matches is the given names, a space and the family name, each in the document's casing. */
  lemma MatchSplits(fullName: string, given: string, family: string)
    requires Match(fullName, given, family)
    ensures |fullName| == |given| + 1 + |family| && fullName[|given|] == ' '
    ensures StandsAt(fullName, given, 0) && StandsAt(fullName, family, |given| + 1)
  {
    var folded := Fold(given) + [' '] + Fold(family);
    assert |folded| == |given| + 1 + |family|;
    forall k | 0 <= k < |fullName| ensures FoldChar(fullName[k]) == folded[k] {
      assert Fold(fullName)[k] == folded[k];
    }
    assert FoldChar(fullName[|given|]) == ' ';
  }

  lemma WithoutGiven(fullName: string, given: string, family: string)
    requires Match(fullName, given, family)
    ensures |given| < |fullName| && Without(fullName, given) == fullName[|given|..]
  {
    MatchSplits(fullName, given, family);
    assert FirstFrom(fullName, given, 0) == Some(0);
  }

  /** Whenever names come back, the last part is all that follows the given names, trimmed, as the document has it. */
  lemma FamilyIsRemainder(fullName: string, given: string, family: string)
    ensures SplitName(fullName, given, family).Ok? ==>
      var parts := SplitName(fullName, given, family).value;
      && |given| < |fullName| && |parts| >= 2
      && parts[|parts| - 1] == NamePart("FamilyName", Trim(fullName[|given|..]))
      && forall i | 0 <= i < |parts| - 1 :: parts[i].kind == "GivenName"
  {
    if Match(fullName, given, family) {
      WithoutGiven(fullName, given, family);
    }
  }

  function Values(parts: seq<NamePart>): seq<string> {
    seq(|parts|, i requires 0 <= i < |parts| => parts[i].value)
  }

  /** Taking the family name out of its own place leaves the words of the given names. */
  lemma GivenWords(fullName: string, given: string, family: string)
    requires Match(fullName, given, family) && FirstFrom(fullName, family, 0) == Some(|given| + 1)
    ensures |given| < |fullName| && Words(Without(fullName, family)) == Words(fullName[..|given|])
  {
    MatchSplits(fullName, given, family);
    var own := fullName[..|given|];
    assert Without(fullName, family) == own + [' '] + "";
    WordsSplit(own, ' ', "");
  }

  /** The words of a full name are those of its two halves, the space between them included in the second. */
  lemma HalvesWords(fullName: string, given: string, family: string)
    requires Match(fullName, given, family)
    ensures |given| < |fullName|
    ensures Words(fullName) == Words(fullName[..|given|]) + Words(fullName[|given|..])
  {
    MatchSplits(fullName, given, family);
    WordsAtSpace(fullName, |given|);
  }

  /**
   When the family name does not stand in the full name any earlier than at its own place, the given names
   come back word for word, and followed by the words of the family name they are those of the full name.
   */
  lemma NamesReassemble(fullName: string, given: string, family: string)
    requires Match(fullName, given, family) && !Blank(given)
    requires FirstFrom(fullName, family, 0) == Some(|given| + 1)
    ensures SplitName(fullName, given, family).Ok?
    ensures var parts := SplitName(fullName, given, family).value;
            && |parts| > 0 && |given| <= |fullName|
            && Values(parts[..|parts| - 1]) == Words(fullName[..|given|])
            && Values(parts[..|parts| - 1]) + Words(parts[|parts| - 1].value) == Words(fullName)
  {
    var own := fullName[..|given|];
    GivenWords(fullName, given, family);
    MatchSplits(fullName, given, family);
    SameBlank(own, given, fullName);
    WordsOfBlank(own);
    var words := Words(own);
    FamilyIsRemainder(fullName, given, family);
    var parts := SplitName(fullName, given, family).value;
    assert parts[..|parts| - 1] == GivenParts(words) && Values(GivenParts(words)) == words;
    WordsTrim(fullName[|given|..]);
    HalvesWords(fullName, given, family);
  }

  lemma SameBlank(own: string, given: string, fullName: string)
    requires StandsAt(fullName, given, 0) && own == fullName[..|given|]
    ensures Blank(own) <==> Blank(given)
  {
    forall i | 0 <= i < |given| ensures IsSpace(own[i]) <==> IsSpace(given[i]) {
      assert FoldChar(fullName[i]) == FoldChar(given[i]);
    }
    assert Blank(given) ==> forall i | 0 <= i < |given| :: given[i] in given;
    assert Blank(own) ==> forall i | 0 <= i < |given| :: own[i] in own;
  }

  predicate Word(s: string) {
    s != "" && forall c | c in s :: !IsSpace(c)
  }

  lemma EarlierMatches(given: string, family: string, fullName: string)
    requires fullName == given + [' '] + family
    ensures Match(fullName, given, family)
  {
    var folded := Fold(given) + [' '] + Fold(family);
    forall i | 0 <= i < |fullName| ensures Fold(fullName)[i] == folded[i] {
      assert Fold(fullName)[i] == FoldChar(fullName[i]);
    }
  }

  lemma EarlierTakenOut(family: string, rest: string, fullName: string)
    requires Word(family) && Word(rest) && fullName == family + rest + [' '] + family
    ensures Words(Without(fullName, family)) == [rest, family]
  {
    assert FirstFrom(fullName, family, 0) == Some(0);
    assert fullName[..0] + fullName[|family|..] == rest + [' '] + family;
    TwoWords(rest, family);
  }

  lemma TrimWord(s: string)
    requires Word(s)
    ensures Trim([' '] + s) == s
  {
    assert ([' '] + s)[1..] == s;
    assert s[0] in s && s[|s| - 1] in s;
    assert TrimStart([' '] + s) == TrimStart(s) == s;
  }

  lemma Assembled(fullName: string, given: string, family: string, words: seq<string>)
    requires Match(fullName, given, family) && words != [] && Words(Without(fullName, family)) == words
    ensures SplitName(fullName, given, family) ==
            Ok(GivenParts(words) + [NamePart("FamilyName", Trim(fullName[|given|..]))])
    ensures |given| <= |fullName|
  {
    FamilyIsRemainder(fullName, given, family);
  }

  lemma EarlierParts(family: string, rest: string, fullName: string)
    requires Word(family) && Word(rest) && fullName == family + rest + [' '] + family
    ensures GivenParts([rest, family]) + [NamePart("FamilyName", Trim(fullName[|family + rest|..]))] ==
            [NamePart("GivenName", rest), NamePart("GivenName", family), NamePart("FamilyName", family)]
  {
    assert fullName[|family + rest|..] == [' '] + family;
    TrimWord(family);
  }

  /**
   A family name that is also the start of the given name is taken out of the wrong place: the given names
   come back as the rest of the given name and the family name.
   */
  lemma EarlierFamilyNameBreaks(family: string, rest: string, fullName: string)
    requires Word(family) && Word(rest) && fullName == family + rest + [' '] + family
    ensures SplitName(fullName, family + rest, family) ==
            Ok([NamePart("GivenName", rest), NamePart("GivenName", family), NamePart("FamilyName", family)])
  {
    EarlierMatches(family + rest, family, fullName);
    EarlierTakenOut(family, rest, fullName);
    Assembled(fullName, family + rest, family, [rest, family]);
    EarlierParts(family, rest, fullName);
  }

  lemma TwoWords(a: string, b: string)
    requires Word(a) && Word(b)
    ensures Words(a + [' '] + b) == [a, b]
  {
    WordsSplit(a, ' ', b);
    OneWord(a);
    OneWord(b);
  }

  lemma OneWord(s: string)
    requires Word(s)
    ensures Words(s) == [s]
  {
    WholeWord(s);
    assert s[..|s|] == s && s[|s|..] == "";
  }

  lemma {:induction false} WholeWord(s: string)
    requires forall c | c in s :: !IsSpace(c)
    ensures WordLength(s) == |s|
  {
    if s != "" {
      WholeWord(s[1..]);
    }
  }

  // ---------- exactly when names reassemble ----------

  /** Names come back, and their words are those of the full name in order. */
  predicate Reassembles(fullName: string, given: string, family: string) {
    var r := SplitName(fullName, given, family);
    && r.Ok? && |r.value| > 0
    && var n := |r.value| - 1;
       Values(r.value[..n]) + Words(r.value[n].value) == Words(fullName)
  }

  /** A letter that has two cases. */
  predicate Cased(c: char) {
    'A' <= c <= 'Z' || 'a' <= c <= 'z'
  }

  function Folded(given: string, family: string): string {
    Fold(given) + [' '] + Fold(family)
  }

  lemma {:induction false} FirstFromIs(s: string, f: string, i: nat)
    ensures match FirstFrom(s, f, i)
            case None => forall k: nat | i <= k :: !StandsAt(s, f, k)
            case Some(p) => i <= p && StandsAt(s, f, p) && forall k: nat | i <= k < p :: !StandsAt(s, f, k)
    decreases |s| - i
  {
    if i + |f| <= |s| && !StandsAt(s, f, i) {
      FirstFromIs(s, f, i + 1);
    }
  }

  lemma StandsFold(s: string, t: string, f: string, k: nat)
    requires Fold(s) == Fold(t)
    ensures |s| == |t| && (StandsAt(s, f, k) <==> StandsAt(t, f, k))
  {
    assert |s| == |Fold(s)| == |Fold(t)| == |t|;
    forall j | 0 <= j < |s| ensures FoldChar(s[j]) == FoldChar(t[j]) {
      assert Fold(s)[j] == Fold(t)[j];
    }
  }

  /** Where a name stands first does not depend on casing. */
  lemma {:induction false} FirstFromFold(s: string, t: string, f: string, i: nat)
    requires Fold(s) == Fold(t)
    ensures FirstFrom(s, f, i) == FirstFrom(t, f, i)
    decreases |s| - i
  {
    StandsFold(s, t, f, i);
    if i + |f| <= |s| && !StandsAt(s, f, i) {
      FirstFromFold(s, t, f, i + 1);
    }
  }

  predicate Has(words: seq<string>, c: char) {
    exists w :: w in words && c in w
  }

  lemma HasConcat(a: seq<string>, b: seq<string>, c: char)
    ensures Has(a + b, c) <==> Has(a, c) || Has(b, c)
  {
  }

  /** The words of a string have the characters of the string that are not whitespace. */
  lemma {:induction false} WordsHave(s: string, c: char)
    requires !IsSpace(c)
    ensures Has(Words(s), c) <==> c in s
    decreases |s|
  {
    if s != "" && IsSpace(s[0]) {
      WordsHave(s[1..], c);
      assert s == [s[0]] + s[1..];
    } else if s != "" {
      var n := WordLength(s);
      WordsHave(s[n..], c);
      assert s == s[..n] + s[n..];
      HasConcat([s[..n]], Words(s[n..]), c);
      assert s[..n] in [s[..n]];
    }
  }

  /** A character that is nowhere outside the first occurrence of the family name keeps names from reassembling. */
  lemma LostCharacter(fullName: string, given: string, family: string, c: char)
    requires !IsSpace(c) && c in fullName && c !in Without(fullName, family)
    requires |given| <= |fullName| && c !in fullName[|given|..]
    ensures !Reassembles(fullName, given, family)
  {
    var r := SplitName(fullName, given, family);
    if r.Ok? {
      var rest := fullName[|given|..];
      var words := Words(Without(fullName, family));
      FamilyIsRemainder(fullName, given, family);
      assert r.value[..|r.value| - 1] == GivenParts(words) && Values(GivenParts(words)) == words;
      WordsHave(Without(fullName, family), c);
      WordsTrim(rest);
      WordsHave(rest, c);
      HasConcat(words, Words(rest), c);
      WordsHave(fullName, c);
    }
  }

  /** A letter of an earlier occurrence that reaches into the family name's own place is a letter further left too. */
  lemma ShiftedCased(given: string, family: string, p: nat, k: nat)
    requires StandsAt(Folded(given, family), family, p) && p < |given| + 1 <= p + k
    requires k < |family| && Cased(family[k])
    ensures p + k - (|given| + 1) < k && Cased(family[p + k - (|given| + 1)])
  {
    var z, j := Folded(given, family), p + k - (|given| + 1);
    assert FoldChar(z[p + k]) == FoldChar(family[k]);
    assert z[p + k] == Fold(family)[j] == FoldChar(family[j]);
  }

  /** So an earlier occurrence has a letter that lies within the given names. */
  lemma {:induction false} EarlierWithinGiven(given: string, family: string, p: nat, k0: nat) returns (k: nat)
    requires StandsAt(Folded(given, family), family, p) && p < |given| + 1
    requires k0 < |family| && Cased(family[k0])
    ensures k < |family| && Cased(family[k]) && p + k < |given|
    decreases k0
  {
    if p + k0 < |given| + 1 {
      var z := Folded(given, family);
      assert z[|given|] == ' ';
      assert FoldChar(z[p + k0]) == FoldChar(family[k0]);
      k := k0;
    } else {
      ShiftedCased(given, family, p, k0);
      k := EarlierWithinGiven(given, family, p, p + k0 - (|given| + 1));
    }
  }

  predicate Lower(s: string) {
    forall c | c in s :: FoldChar(c) == c
  }

  function Raised(c: char): char {
    if 'a' <= c <= 'z' then (c as int - 32) as char else c
  }

  /** The folded full name, with one letter in upper case. */
  lemma OneCapital(given: string, family: string, m: nat) returns (fullName: string)
    requires m < |Folded(given, family)| && Cased(Folded(given, family)[m])
    ensures |fullName| == |Folded(given, family)| && Match(fullName, given, family)
    ensures FoldChar(fullName[m]) != fullName[m] && !IsSpace(fullName[m])
    ensures forall i | 0 <= i < |fullName| && i != m :: FoldChar(fullName[i]) == fullName[i]
  {
    var z := Folded(given, family);
    assert forall i | 0 <= i < |z| :: FoldChar(z[i]) == z[i];
    fullName := z[m := Raised(z[m])];
    forall i | 0 <= i < |z| ensures Fold(fullName)[i] == z[i] {}
  }

  lemma CapitalLost(fullName: string, family: string, p: nat, m: nat, from: nat)
    requires FirstFrom(fullName, family, 0) == Some(p) && p <= m < p + |family| <= |fullName| && m < from <= |fullName|
    requires FoldChar(fullName[m]) != fullName[m]
    requires forall i | 0 <= i < |fullName| && i != m :: FoldChar(fullName[i]) == fullName[i]
    ensures fullName[m] !in Without(fullName, family) && fullName[m] !in fullName[from..]
  {
    assert Lower(fullName[..p]) && Lower(fullName[p + |family|..]) && Lower(fullName[from..]);
  }

  /** Every matching full name has the family name first where the folded one has it. */
  lemma FirstInAll(fullName: string, given: string, family: string)
    requires Match(fullName, given, family)
    ensures FirstFrom(fullName, family, 0) == FirstFrom(Folded(given, family), family, 0)
  {
    FoldedIsFolded(given, family);
    FirstFromFold(fullName, Folded(given, family), family, 0);
  }

  lemma BreaksAt(given: string, family: string, p: nat, m: nat) returns (fullName: string)
    requires FirstFrom(Folded(given, family), family, 0) == Some(p) && p <= m < p + |family| && m < |given|
    requires Cased(Folded(given, family)[m]) && p + |family| <= |Folded(given, family)|
    ensures Match(fullName, given, family) && !Reassembles(fullName, given, family)
  {
    fullName := OneCapital(given, family, m);
    FirstInAll(fullName, given, family);
    CapitalLost(fullName, family, p, m, |given|);
    LostCharacter(fullName, given, family, fullName[m]);
  }

  lemma EarlierBreaksSome(given: string, family: string, p: nat) returns (fullName: string)
    requires exists i :: 0 <= i < |family| && Cased(family[i])
    requires FirstFrom(Folded(given, family), family, 0) == Some(p) && p < |given| + 1
    ensures Match(fullName, given, family) && !Reassembles(fullName, given, family)
  {
    var z := Folded(given, family);
    FirstFromIs(z, family, 0);
    var k0 :| 0 <= k0 < |family| && Cased(family[k0]);
    var k := EarlierWithinGiven(given, family, p, k0);
    assert FoldChar(z[p + k]) == FoldChar(family[k]) && FoldChar(z[p + k]) == z[p + k];
    fullName := BreaksAt(given, family, p, p + k);
  }

  lemma FoldTwice(s: string)
    ensures Fold(Fold(s)) == Fold(s)
  {
    forall i | 0 <= i < |s| ensures Fold(Fold(s))[i] == Fold(s)[i] {
      assert Fold(Fold(s))[i] == FoldChar(FoldChar(s[i]));
    }
  }

  lemma FoldedIsFolded(given: string, family: string)
    ensures Fold(Folded(given, family)) == Folded(given, family)
  {
    FoldConcat(Fold(given) + [' '], Fold(family));
    FoldConcat(Fold(given), [' ']);
    FoldTwice(given);
    FoldTwice(family);
    assert Fold([' ']) == [' '];
  }

  /** Given names without a word leave nothing to read once the family name is taken out of its own place. */
  lemma BlankGivenFails(given: string, family: string)
    requires Blank(given) && FirstFrom(Folded(given, family), family, 0) == Some(|given| + 1)
    ensures Match(Folded(given, family), given, family) && !Reassembles(Folded(given, family), given, family)
  {
    var z := Folded(given, family);
    FoldedIsFolded(given, family);
    MatchSplits(z, given, family);
    GivenWords(z, given, family);
    SameBlank(z[..|given|], given, z);
    WordsOfBlank(z[..|given|]);
  }

  /**
   For a family name with a letter in it: whatever casing the document uses, the names reassemble, if and only if
   there is a given name and the family name stands nowhere before its own place.
   */
  lemma ReassemblesExactly(given: string, family: string)
    requires exists i :: 0 <= i < |family| && Cased(family[i])
    ensures (forall fullName | Match(fullName, given, family) :: Reassembles(fullName, given, family))
       <==> !Blank(given) && FirstFrom(Folded(given, family), family, 0) == Some(|given| + 1)
  {
    var z := Folded(given, family);
    FoldedIsFolded(given, family);
    MatchSplits(z, given, family);
    FirstFromIs(z, family, 0);
    var p := FirstFrom(z, family, 0).value;
    if p != |given| + 1 {
      var fullName := EarlierBreaksSome(given, family, p);
    } else if Blank(given) {
      BlankGivenFails(given, family);
    } else {
      forall fullName | Match(fullName, given, family) ensures Reassembles(fullName, given, family) {
        FirstInAll(fullName, given, family);
        NamesReassemble(fullName, given, family);
      }
    }
  }
}
