/**
 What is known of the stored person beyond its being usable: which names are collected and in what order, what is
 stored after any sequence of changes of preference, and the words of the profile sent to Yoti.
 */
module StoredPerson {
  import opened Wrappers
  import opened Text
  import opened Claims

  // ---------- the names collected ----------

  /** How many of the first `n` parts are of a kind. */
  function PartCount(parts: seq<NamePart>, kind: string, n: nat): nat
    requires n <= |parts|
  {
    if n == 0 then 0 else PartCount(parts, kind, n - 1) + (if parts[n - 1].kind == kind then 1 else 0)
  }

  /** How many parts of a kind the first `n` names have. */
  function PartsBefore(names: seq<Name>, kind: string, n: nat): nat
    requires n <= |names|
  {
    if n == 0 then 0
    else PartsBefore(names, kind, n - 1) + PartCount(names[n - 1].nameParts, kind, |names[n - 1].nameParts|)
  }

  lemma {:induction false} PartCountInit(parts: seq<NamePart>, kind: string, n: nat, k: nat)
    requires k <= n <= |parts|
    ensures PartCount(parts[..n], kind, k) == PartCount(parts, kind, k)
  {
    if k > 0 { PartCountInit(parts, kind, n, k - 1); }
  }

  lemma {:induction false} PartsExactly(parts: seq<NamePart>, kind: string, i: nat)
    requires i <= |parts|
    ensures |Parts(parts, kind)| == PartCount(parts, kind, |parts|)
    ensures i < |parts| && parts[i].kind == kind ==>
              && PartCount(parts, kind, i) < |Parts(parts, kind)|
              && Parts(parts, kind)[PartCount(parts, kind, i)] == parts[i].value
  {
    if parts != [] {
      var n := |parts| - 1;
      PartsExactly(parts[..n], kind, if i < n then i else n);
      PartCountInit(parts, kind, n, n);
      PartCountInit(parts, kind, n, if i < n then i else n);
    }
  }

  lemma {:induction false} PartsBeforeInit(names: seq<Name>, kind: string, n: nat, k: nat)
    requires k <= n <= |names|
    ensures PartsBefore(names[..n], kind, k) == PartsBefore(names, kind, k)
  {
    if k > 0 { PartsBeforeInit(names, kind, n, k - 1); }
  }

  /**
   The values collected are those of the parts of the kind asked for and no others, each at the place given by how
   many such parts come before it.
   */
  lemma {:induction false} AllPartsExactly(names: seq<Name>, kind: string, m: nat, i: nat)
    ensures |AllParts(names, kind)| == PartsBefore(names, kind, |names|)
    ensures m < |names| && i < |names[m].nameParts| && names[m].nameParts[i].kind == kind ==>
              var k := PartsBefore(names, kind, m) + PartCount(names[m].nameParts, kind, i);
              k < |AllParts(names, kind)| && AllParts(names, kind)[k] == names[m].nameParts[i].value
  {
    if names != [] {
      var n := |names| - 1;
      AllPartsExactly(names[..n], kind, m, i);
      PartsBeforeInit(names, kind, n, n);
      PartsExactly(names[n].nameParts, kind, if i < |names[n].nameParts| then i else 0);
      if m < n { PartsBeforeInit(names, kind, n, m); }
    }
  }

  // ---------- the preferences stored ----------

  /** The postal addresses that accepted requests for a letter give, other than the one known by this number, in order. */
  function Given(uprn: Option<int>, xs: seq<Preference>): seq<Address> {
    if xs == [] then []
    else
      var before, x := Given(uprn, xs[..|xs| - 1]), xs[|xs| - 1];
      if x.writeOk && x.pdfPreference == "PRINTED_LETTER" && x.postalAddress.Some? && x.postalAddress.value.uprn != uprn
      then before + [x.postalAddress.value] else before
  }

  /** The preference of the last accepted request, if any is. */
  function LastAccepted(xs: seq<Preference>, first: Option<string>): Option<string> {
    if xs == [] then first
    else if xs[|xs| - 1].writeOk then Some(xs[|xs| - 1].pdfPreference)
    else LastAccepted(xs[..|xs| - 1], first)
  }

  /**
   After any sequence of changes: the preference is the one accepted last; behind the addresses there were stand the
   postal addresses given with accepted letter requests, but for the number of the first address, in order; and the
   first address is no longer the preferred one if and only if there is one of those.
   */
  lemma {:induction false} PreferencesExactly(p: Person, xs: seq<Preference>)
    requires p.addresses != []
    ensures
      var after, given := WithPreferences(p, xs), Given(p.addresses[0].uprn, xs);
      var first := if given == [] then p.addresses[0] else p.addresses[0].(preferredAddress := false);
      after == p.(pdfPreference := LastAccepted(xs, p.pdfPreference), addresses := [first] + p.addresses[1..] + given)
  {
    if xs == [] {
      assert [p.addresses[0]] + p.addresses[1..] + [] == p.addresses;
    } else {
      var init, x := xs[..|xs| - 1], xs[|xs| - 1];
      PreferencesExactly(p, init);
      PreferenceStep(WithPreferences(p, init), x);
      var before := Given(p.addresses[0].uprn, init);
      var first := if before == [] then p.addresses[0] else p.addresses[0].(preferredAddress := false);
      Regrouped(first, p.addresses[1..], before);
    }
  }

  lemma Regrouped(first: Address, middle: seq<Address>, last: seq<Address>)
    ensures var all := [first] + middle + last;
            && all[0] == first
            && forall a: Address, b: Address :: [a] + all[1..] + [b] == [a] + middle + (last + [b])
    ensures [first] + middle + last + [] == [first] + middle + last
  {
    var all := [first] + middle + last;
    assert all[1..] == middle + last;
    forall a: Address, b: Address ensures [a] + all[1..] + [b] == [a] + middle + (last + [b]) {}
  }

  lemma PreferenceStep(p: Person, x: Preference)
    requires p.addresses != []
    ensures
      var letter := x.pdfPreference == "PRINTED_LETTER" && x.postalAddress.Some? && x.postalAddress.value.uprn != p.addresses[0].uprn;
      WithPreference(p, x) ==
        if !x.writeOk then p
        else if !letter then p.(pdfPreference := Some(x.pdfPreference))
        else p.(pdfPreference := Some(x.pdfPreference),
                addresses := [p.addresses[0].(preferredAddress := false)] + p.addresses[1..] + [x.postalAddress.value])
  {
  }

  // ---------- the words of the profile ----------

  lemma WordsBetween(a: string, b: string)
    ensures Words(a + " " + b) == Words(a) + Words(b)
  {
    WordsSplit(a, ' ', b);
    assert a + " " + b == a + [' '] + b;
  }

  lemma WordsBefore(a: string)
    ensures Words(a + " ") == Words(a)
  {
    WordsBetween(a, "");
    assert a + " " + "" == a + " ";
  }

  /**
   The address lines: a building that is named comes first, by its part and then its name, and its number with the
   street on the second line; otherwise number and street are the first line and the second is empty.
   */
  lemma LinesInWords(a: Address)
    ensures AddressLines(a).Some? <==> Locatable(a)
    ensures Locatable(a) ==>
      var (line1, line2) := AddressLines(a).value;
      var street := Words(if a.buildingNumber.Some? then a.buildingNumber.value else "undefined") +
                    Words(if a.streetName.Some? then a.streetName.value else "undefined");
      if Usable(a.subBuildingName) || Usable(a.buildingName) then
        && Words(line1) == Words(if a.subBuildingName.Some? then a.subBuildingName.value else "") +
                           Words(if a.buildingName.Some? then a.buildingName.value else "")
        && Words(line2) == street
      else Words(line1) == street && line2 == ""
  {
    ValidAddress(a);
    NamedBuilding(a);
    var number, street := Shown(a.buildingNumber), Shown(a.streetName);
    WordsTrim(number + " " + street);
    WordsBetween(number, street);
    var building := if IfAny(a.buildingName) == "" then "" else IfAny(a.buildingName) + " ";
    WordsTrim(IfAny(a.subBuildingName) + " " + building);
    WordsBetween(IfAny(a.subBuildingName), building);
    WordsBefore(IfAny(a.buildingName));
  }

  /** The words of some values, one after the other. */
  function WordsOf(values: seq<Option<string>>): seq<string> {
    if values == [] then []
    else (if values[0].Some? then Words(values[0].value) else []) + WordsOf(values[1..])
  }

  lemma {:induction false} JoinedWords(texts: seq<string>, values: seq<Option<string>>)
    requires |texts| == |values| && forall i | 0 <= i < |values| :: texts[i] == IfAny(values[i])
    ensures Words(Join(texts, " ")) == WordsOf(values)
  {
    if |texts| > 1 {
      JoinedWords(texts[1..], values[1..]);
      WordsBetween(texts[0], Join(texts[1..], " "));
    } else if |texts| == 1 {
      assert values[1..] == [];
    }
  }

  lemma JoinedInWords(values: seq<Option<string>>)
    requires values != [] && (|values| == 1 ==> values[0].Some?)
    ensures Words(Joined(values)) == WordsOf(values)
  {
    if |values| == 1 {
      assert values[1..] == [];
    } else {
      JoinedWords(seq(|values|, i requires 0 <= i < |values| => IfAny(values[i])), values);
    }
  }

  /**
   The profile of a person with names: the words of the full name are those of all given names and then of all family
   names, the date is the first birth date, and the lines are those of the first address.
   */
  lemma ProfileExactly(p: Person)
    requires p.addresses != []
    requires var given := AllParts(p.name, "GivenName"); given != [] && (|given| == 1 ==> given[0].Some?)
    requires var family := AllParts(p.name, "FamilyName"); family != [] && (|family| == 1 ==> family[0].Some?)
    ensures ApplicantProfile(p) == Err(BadCountry) <==> p.addresses[0].addressCountry != Some("GB")
    ensures ApplicantProfile(p).Ok? <==>
      && p.addresses[0].addressCountry == Some("GB") && p.birthDate.Some? && p.birthDate.value != []
      && Locatable(p.addresses[0])
    ensures ApplicantProfile(p).Ok? ==>
      var profile := ApplicantProfile(p).value;
      && Words(profile.fullName) == WordsOf(AllParts(p.name, "GivenName")) + WordsOf(AllParts(p.name, "FamilyName"))
      && profile.dateOfBirth == p.birthDate.value[0]
      && AddressLines(p.addresses[0]) == Some((profile.addressLine1, profile.addressLine2))
  {
    var given, family := AllParts(p.name, "GivenName"), AllParts(p.name, "FamilyName");
    LinesInWords(p.addresses[0]);
    JoinedInWords(given);
    JoinedInWords(family);
    WordsBetween(Joined(given), Joined(family));
  }
}
