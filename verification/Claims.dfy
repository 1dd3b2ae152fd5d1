/**
 The personal claims a session is opened with: what is checked, what is stored, and what the stored person
 can still be used for after any number of changes to how the instructions are to be sent.
 */
module Claims {
  import opened Wrappers
  import opened Text

  datatype NamePart = NamePart(kind: string, value: Option<string>)

  datatype Name = Name(nameParts: seq<NamePart>)

  /** The fields some rule looks at; all others are `rest`. */
  datatype Address = Address(
    uprn: Option<int>,
    subBuildingName: Option<string>,
    buildingName: Option<string>,
    buildingNumber: Option<string>,
    streetName: Option<string>,
    addressCountry: Option<string>,
    validUntil: Option<string>,
    rest: map<string, string>,
    preferredAddress: bool)

  datatype SharedClaims = SharedClaims(
    emailAddress: Option<string>,
    name: Option<seq<Name>>,
    address: Option<seq<Address>>,
    birthDate: Option<seq<string>>)

  datatype Person = Person(
    addresses: seq<Address>,
    name: seq<Name>,
    birthDate: Option<seq<string>>,
    emailAddress: Option<string>,
    pdfPreference: Option<string>)

  // ---------- the checks ----------

  predicate Usable(s: Option<string>) {
    s.Some? && !Blank(s.value)
  }

  /** Some string of these is present and not empty once trimmed. */
  predicate CheckIfValidString(params: seq<Option<string>>) {
    exists i :: 0 <= i < |params| && params[i].Some? && Trim(params[i].value) != ""
  }

  /** Trimming is what tells whitespace from content. */
  lemma ValidString(params: seq<Option<string>>)
    ensures CheckIfValidString(params) <==> exists i :: 0 <= i < |params| && Usable(params[i])
  {
    forall i | 0 <= i < |params| && params[i].Some? ensures Trim(params[i].value) != "" <==> Usable(params[i]) {
      TrimBlank(params[i].value);
    }
  }

  lemma ValidOne(s: Option<string>)
    ensures CheckIfValidString([s]) <==> Usable(s)
  {
    ValidString([s]);
    assert [s][0] == s;
  }

  predicate HasPart(name: Name, kind: string) {
    exists i :: 0 <= i < |name.nameParts| && name.nameParts[i].kind == kind && Usable(name.nameParts[i].value)
  }

  /** Every name has a given name and a family name that can be used, and there is a name. */
  predicate NamesUsable(names: seq<Name>) {
    names != [] && forall name | name in names :: HasPart(name, "GivenName") && HasPart(name, "FamilyName")
  }

  method UsableParts(name: Name) returns (givenNames: seq<Option<string>>, familyNames: seq<Option<string>>)
    ensures givenNames != [] <==> HasPart(name, "GivenName")
    ensures familyNames != [] <==> HasPart(name, "FamilyName")
  {
    givenNames, familyNames := [], [];
    for i := 0 to |name.nameParts|
      invariant givenNames != [] <==>
        exists j :: 0 <= j < i && name.nameParts[j].kind == "GivenName" && Usable(name.nameParts[j].value)
      invariant familyNames != [] <==>
        exists j :: 0 <= j < i && name.nameParts[j].kind == "FamilyName" && Usable(name.nameParts[j].value)
    {
      var part := name.nameParts[i];
      ValidOne(part.value);
      if part.kind == "GivenName" && CheckIfValidString([part.value]) {
        givenNames := givenNames + [part.value];
      }
      if part.kind == "FamilyName" && CheckIfValidString([part.value]) {
        familyNames := familyNames + [part.value];
      }
    }
  }

  /** The loop keeps a flag, and leaves early only when a name with parts lacks a kind of them. */
  method IsPersonNameValid(personName: seq<Name>) returns (isValid: bool)
    ensures isValid <==> NamesUsable(personName)
    ensures isValid <==>
      personName != [] && forall name | name in personName :: HasPart(name, "GivenName") && HasPart(name, "FamilyName")
  {
    isValid := true;
    if |personName| == 0 {
      isValid := false;
    } else {
      for i := 0 to |personName|
        invariant isValid <==>
          forall j | 0 <= j < i :: HasPart(personName[j], "GivenName") && HasPart(personName[j], "FamilyName")
      {
        var name := personName[i];
        if |name.nameParts| == 0 {
          isValid := false;
        } else {
          var givenNames, familyNames := UsableParts(name);
          if |givenNames| == 0 || |familyNames| == 0 {
            assert personName[i] in personName;
            return false;
          }
        }
      }
    }
  }

  /** Enough of an address to print one: a building, however it is called. */
  predicate Locatable(a: Address) {
    Usable(a.subBuildingName) || Usable(a.buildingName) || Usable(a.buildingNumber)
  }

  predicate CheckIfAddressIsValid(a: Address) {
    && CheckIfValidString([a.subBuildingName, a.buildingName, a.buildingNumber, a.streetName])
    && CheckIfValidString([a.subBuildingName, a.buildingName, a.buildingNumber])
  }

  /** The street never matters: an address is valid exactly when it names or numbers a building. */
  lemma ValidAddress(a: Address)
    ensures CheckIfAddressIsValid(a) <==> Locatable(a)
  {
    var mandatory := [a.subBuildingName, a.buildingName, a.buildingNumber, a.streetName];
    var building := [a.subBuildingName, a.buildingName, a.buildingNumber];
    ValidString(mandatory);
    ValidString(building);
    assert forall i | 0 <= i < 3 :: building[i] == mandatory[i];
    assert building[0] == a.subBuildingName && building[1] == a.buildingName && building[2] == a.buildingNumber;
  }

  datatype AddressCheck = Fine | MissingAddress | InvalidCountry | MissingFields

  function Fault(a: Address): AddressCheck {
    if a.addressCountry != Some("GB") then InvalidCountry else if !Locatable(a) then MissingFields else Fine
  }

  predicate AddressesUsable(addresses: Option<seq<Address>>) {
    addresses.Some? && addresses.value != [] && forall a | a in addresses.value :: Fault(a) == Fine
  }

  /** The first address at fault decides the message. */
  method IsAddressFormatValid(addresses: Option<seq<Address>>) returns (r: AddressCheck)
    ensures r == Fine <==> AddressesUsable(addresses)
    ensures r == Fine <==>
      && addresses.Some? && addresses.value != []
      && forall a | a in addresses.value ::
           a.addressCountry == Some("GB") && (Usable(a.subBuildingName) || Usable(a.buildingName) || Usable(a.buildingNumber))
    ensures r == MissingAddress <==> addresses.None? || addresses.value == []
    ensures r in {InvalidCountry, MissingFields} ==>
      exists k :: 0 <= k < |addresses.value| && r == Fault(addresses.value[k]) &&
                  forall i | 0 <= i < k :: Fault(addresses.value[i]) == Fine
  {
    if addresses.None? || |addresses.value| == 0 {
      return MissingAddress;
    }
    for i := 0 to |addresses.value|
      invariant forall j | 0 <= j < i :: Fault(addresses.value[j]) == Fine
    {
      var a := addresses.value[i];
      assert a in addresses.value;
      if a.addressCountry != Some("GB") {
        return InvalidCountry;
      }
      ValidAddress(a);
      if !CheckIfAddressIsValid(a) {
        return MissingFields;
      }
    }
    return Fine;
  }

  predicate Current(a: Address) {
    a.validUntil.None? || a.validUntil.value == ""
  }

  function FirstCurrent(addresses: seq<Address>): Option<Address> {
    if addresses == [] then None
    else if Current(addresses[0]) then Some(addresses[0])
    else FirstCurrent(addresses[1..])
  }

  /** Of several addresses, the first that is still current; there may be none. */
  function PreferredAddress(addresses: seq<Address>): Option<Address> {
    if |addresses| > 1 then FirstCurrent(addresses)
    else if |addresses| == 1 then Some(addresses[0])
    else None
  }

  /** Address `i` is the first that is not given an end, or an empty one. */
  ghost predicate FirstUnended(addresses: seq<Address>, i: nat) {
    && i < |addresses| && addresses[i].validUntil in {None, Some("")}
    && forall j | 0 <= j < i :: addresses[j].validUntil !in {None, Some("")}
  }

  lemma FirstUnendedShift(addresses: seq<Address>, i: nat)
    requires addresses != []
    ensures FirstUnended(addresses, 0) <==> Current(addresses[0])
    ensures FirstUnended(addresses, i + 1) <==> !Current(addresses[0]) && FirstUnended(addresses[1..], i)
  {
    var rest := addresses[1..];
    assert forall j | 0 <= j < |rest| :: rest[j] == addresses[j + 1];
    if FirstUnended(addresses, i + 1) {
      assert addresses[0].validUntil !in {None, Some("")} && rest[i] == addresses[i + 1];
      forall j | 0 <= j < i ensures rest[j].validUntil !in {None, Some("")} {
        assert addresses[j + 1].validUntil !in {None, Some("")};
      }
      assert FirstUnended(rest, i);
    }
    if !Current(addresses[0]) && FirstUnended(rest, i) {
      assert addresses[i + 1] == rest[i];
      forall j | 0 <= j < i + 1 ensures addresses[j].validUntil !in {None, Some("")} {
        assert j > 0 ==> addresses[j] == rest[j - 1];
      }
    }
  }

  lemma {:induction false} FoundIsFirst(addresses: seq<Address>) returns (i: nat)
    requires FirstCurrent(addresses).Some?
    ensures FirstUnended(addresses, i) && addresses[i] == FirstCurrent(addresses).value
  {
    if Current(addresses[0]) {
      i := 0;
    } else {
      i := FoundIsFirst(addresses[1..]);
      FirstUnendedShift(addresses, i);
      i := i + 1;
    }
  }

  lemma {:induction false} FirstIsFound(addresses: seq<Address>, i: nat)
    requires FirstUnended(addresses, i)
    ensures FirstCurrent(addresses) == Some(addresses[i])
  {
    if i > 0 {
      FirstUnendedShift(addresses, i - 1);
      FirstIsFound(addresses[1..], i - 1);
    }
  }

  /** The address found is the first that is not given an end, and none is found only if there is none. */
  lemma FirstCurrentIs(addresses: seq<Address>, a: Address)
    ensures FirstCurrent(addresses) == Some(a) <==> exists i: nat :: FirstUnended(addresses, i) && addresses[i] == a
    ensures FirstCurrent(addresses) == None <==> forall i: nat :: !FirstUnended(addresses, i)
  {
    if FirstCurrent(addresses).Some? {
      var i := FoundIsFirst(addresses);
    }
    forall i: nat | FirstUnended(addresses, i) ensures FirstCurrent(addresses) == Some(addresses[i]) {
      FirstIsFound(addresses, i);
    }
  }

  lemma {:induction false} SomeUnended(addresses: seq<Address>)
    ensures FirstCurrent(addresses).Some? <==> exists a :: a in addresses && Current(a)
  {
    if addresses != [] {
      SomeUnended(addresses[1..]);
      assert addresses == [addresses[0]] + addresses[1..];
    }
  }

  /** Address `i` is the one to store: the only one, or the first of several that is not given an end. */
  ghost predicate ToStore(addresses: seq<Address>, i: nat) {
    i < |addresses| && (|addresses| > 1 ==> FirstUnended(addresses, i))
  }

  lemma PreferredIs(addresses: seq<Address>)
    ensures PreferredAddress(addresses).Some? <==> HasPreferred(addresses)
    ensures PreferredAddress(addresses).Some? ==>
              exists i: nat :: ToStore(addresses, i) && addresses[i] == PreferredAddress(addresses).value
  {
    if |addresses| == 1 {
      assert ToStore(addresses, 0);
    } else if |addresses| > 1 {
      SomeUnended(addresses);
      if FirstCurrent(addresses).Some? {
        var i := FoundIsFirst(addresses);
        assert ToStore(addresses, i);
      }
    }
  }

  // ---------- opening a session ----------

  datatype Client = Client(jwksEndpoint: bool, redirectUri: string)

  /** The claims of a token about itself. */
  datatype Token = Token(complete: bool, exp: Option<int>, nbf: Option<int>, clientId: string, responseType: string, redirectUri: string)

  /** The request around the claims: who sends it, and what becomes of its token at each step. */
  datatype Envelope = Envelope(
    configured: bool,        // the client configuration can be read
    clientId: string,
    client: Option<Client>,  // the client configured under that identifier
    decrypted: bool,
    decoded: bool,
    verified: bool,
    token: Token,
    now: int)

  /** The token is one the client may use now. */
  predicate TokenValid(e: Envelope) {
    && e.token.complete
    && e.token.exp.Some? && e.now <= e.token.exp.value
    && e.token.nbf.Some? && e.token.nbf.value <= e.now
    && e.token.clientId == e.clientId && e.token.responseType == "code"
    && e.client.Some? && e.token.redirectUri == e.client.value.redirectUri
  }

  predicate Admits(e: Envelope) {
    && e.configured && e.client.Some? && e.client.value.jwksEndpoint
    && e.decrypted && e.decoded && e.verified && TokenValid(e)
  }

  /** The answer to a request that is not admitted: its sender is at fault, unless the configuration is. */
  function NotAdmitted(e: Envelope): int {
    if !e.configured || (e.client.Some? && e.decrypted && e.decoded && !e.client.value.jwksEndpoint) then 500
    else if e.client.None? then 400
    else 401
  }

  /** The checks on the request and its token, before the claims are looked at. */
  method CheckEnvelope(e: Envelope) returns (refusal: Option<int>)
    ensures refusal == if Admits(e) then None else Some(NotAdmitted(e))
  {
    if !e.configured {
      return Some(500);
    }
    if e.client.None? {
      return Some(400);
    }
    if !e.decrypted {
      return Some(401);
    }
    if !e.decoded {
      return Some(401);
    }
    if !e.client.value.jwksEndpoint {
      return Some(500);
    }
    if !e.verified {
      return Some(401);
    }
    var valid := IsJwtValid(e.token, e.clientId, e.client.value.redirectUri, e.now);
    return if valid then None else Some(401);
  }

  method IsJwtValid(token: Token, clientId: string, redirectUri: string, now: int) returns (valid: bool)
    ensures valid <==>
      && token.complete && token.exp.Some? && token.nbf.Some? && token.nbf.value <= now <= token.exp.value
      && token.clientId == clientId && token.responseType == "code" && token.redirectUri == redirectUri
  {
    if !token.complete {
      return false;
    }
    if token.exp.None? || now > token.exp.value {
      return false;
    }
    if token.nbf.None? || now < token.nbf.value {
      return false;
    }
    if token.clientId != clientId {
      return false;
    }
    if token.responseType != "code" {
      return false;
    }
    return token.redirectUri == redirectUri;
  }

  /** Calls to the session and person tables. */
  datatype Tables = Tables(lookupOk: bool, idTaken: bool, sessionSaved: bool, personSaved: bool)

  /** A session opened with its person; or a refusal, which may leave a session without a person behind. */
  datatype Opening = Opened(person: Person) | Refused(status: int, sessionLeft: bool)

  predicate DetailsUsable(c: SharedClaims) {
    Usable(c.emailAddress) && c.name.Some? && NamesUsable(c.name.value)
  }

  /** An address is left to store: there is one only, or a current one among them. */
  predicate HasPreferred(addresses: seq<Address>) {
    |addresses| == 1 || exists a :: a in addresses && Current(a)
  }

  predicate ClaimsUsable(c: SharedClaims) {
    DetailsUsable(c) && AddressesUsable(c.address)
  }

  method OpenSession(e: Envelope, c: SharedClaims, tables: Tables) returns (r: Opening)
    ensures r.Opened? <==>
      && e.configured && e.client.Some? && e.client.value.jwksEndpoint && e.decrypted && e.decoded && e.verified
      && e.token.complete && e.token.exp.Some? && e.token.nbf.Some? && e.token.nbf.value <= e.now <= e.token.exp.value
      && e.token.clientId == e.clientId && e.token.responseType == "code" && e.token.redirectUri == e.client.value.redirectUri
      && Usable(c.emailAddress) && c.name.Some? && NamesUsable(c.name.value) && AddressesUsable(c.address)
      && (|c.address.value| == 1 || exists a :: a in c.address.value && a.validUntil in {None, Some("")})
      && tables.lookupOk && !tables.idTaken && tables.sessionSaved && tables.personSaved
    ensures r.Refused? ==> r.status == (if !e.configured then 500
                                        else if e.client.None? then 400
                                        else if !e.decrypted || !e.decoded then 401
                                        else if !e.client.value.jwksEndpoint then 500
                                        else if e.verified && TokenValid(e) && ClaimsUsable(c) then 500
                                        else 401)
    ensures r.Refused? ==> (r.sessionLeft <==>
      && Admits(e) && ClaimsUsable(c) && tables.lookupOk && !tables.idTaken && tables.sessionSaved
      && (!HasPreferred(c.address.value) || !tables.personSaved))
    ensures r.Opened? ==>
      exists i: nat ::
        && ToStore(c.address.value, i)
        && r.person == Person([c.address.value[i].(preferredAddress := true)], c.name.value, c.birthDate, c.emailAddress, None)
  {
    var refusal := CheckEnvelope(e);
    if refusal.Some? {
      return Refused(refusal.value, false);
    }
    ValidOne(c.emailAddress);
    if !CheckIfValidString([c.emailAddress]) {
      return Refused(401, false);
    }
    if c.name.None? {
      return Refused(401, false);
    }
    var names := IsPersonNameValid(c.name.value);
    if !names {
      return Refused(401, false);
    }
    var format := IsAddressFormatValid(c.address);
    if format != Fine {
      return Refused(401, false);
    }
    if !tables.lookupOk || tables.idTaken || !tables.sessionSaved {
      return Refused(500, false);
    }
    var preferred := PreferredAddress(c.address.value);
    PreferredIs(c.address.value);
    if preferred.None? || !tables.personSaved {
      return Refused(500, true);
    }
    return Opened(Person([preferred.value.(preferredAddress := true)], c.name.value, c.birthDate, c.emailAddress, None));
  }

  // ---------- changing how the instructions are sent ----------

  datatype Preference = Preference(pdfPreference: string, postalAddress: Option<Address>, writeOk: bool)

  /** The request asks for a letter to an address other than the first one stored. */
  predicate AddsAddress(p: Person, x: Preference)
    requires p.addresses != []
  {
    x.pdfPreference == "PRINTED_LETTER" && x.postalAddress.Some? && p.addresses[0].uprn != x.postalAddress.value.uprn
  }

  function WithPreference(p: Person, x: Preference): (p': Person)
    requires p.addresses != []
    ensures p'.addresses != []
  {
    if !x.writeOk then p
    else
      var preferring := p.(pdfPreference := Some(x.pdfPreference));
      if AddsAddress(p, x) then
        preferring.(addresses := [p.addresses[0].(preferredAddress := false)] + p.addresses[1..] + [x.postalAddress.value])
      else preferring
  }

  class PersonRow {
    var person: Person

    constructor (person: Person)
      ensures this.person == person
    {
      this.person := person;
    }

    method SaveUserPdfPreferences(x: Preference) returns (ok: bool)
      requires person.addresses != []
      modifies this
      ensures person == WithPreference(old(person), x) && ok == x.writeOk
      ensures person.pdfPreference == if x.writeOk then Some(x.pdfPreference) else old(person).pdfPreference
    {
      var addresses := person.addresses;
      if x.pdfPreference == "PRINTED_LETTER" && x.postalAddress.Some? && addresses[0].uprn != x.postalAddress.value.uprn {
        addresses := addresses[0 := addresses[0].(preferredAddress := false)];
        addresses := addresses + [x.postalAddress.value];
        if !x.writeOk {
          return false;
        }
        assert addresses ==
          [person.addresses[0].(preferredAddress := false)] + person.addresses[1..] + [x.postalAddress.value];
        person := person.(pdfPreference := Some(x.pdfPreference), addresses := addresses);
      } else {
        if !x.writeOk {
          return false;
        }
        person := person.(pdfPreference := Some(x.pdfPreference));
      }
      return true;
    }
  }

  function WithPreferences(p: Person, xs: seq<Preference>): (p': Person)
    requires p.addresses != []
    ensures p'.addresses != []
  {
    if xs == [] then p else WithPreference(WithPreferences(p, xs[..|xs| - 1]), xs[|xs| - 1])
  }

  // ---------- using the stored person ----------

  function Parts(parts: seq<NamePart>, kind: string): seq<Option<string>> {
    if parts == [] then []
    else
      var n := |parts| - 1;
      Parts(parts[..n], kind) + (if parts[n].kind == kind then [parts[n].value] else [])
  }

  function AllParts(names: seq<Name>, kind: string): seq<Option<string>> {
    if names == [] then []
    else
      var n := |names| - 1;
      AllParts(names[..n], kind) + Parts(names[n].nameParts, kind)
  }

  method GetNames(names: seq<Name>) returns (givenNames: seq<Option<string>>, familyNames: seq<Option<string>>)
    ensures givenNames == AllParts(names, "GivenName") && familyNames == AllParts(names, "FamilyName")
  {
    givenNames, familyNames := [], [];
    for i := 0 to |names|
      invariant givenNames == AllParts(names[..i], "GivenName") && familyNames == AllParts(names[..i], "FamilyName")
    {
      var parts := names[i].nameParts;
      ghost var given, family := givenNames, familyNames;
      for j := 0 to |parts|
        invariant givenNames == given + Parts(parts[..j], "GivenName")
        invariant familyNames == family + Parts(parts[..j], "FamilyName")
      {
        assert parts[..j + 1][..j] == parts[..j];
        if parts[j].kind == "GivenName" {
          givenNames := givenNames + [parts[j].value];
        }
        if parts[j].kind == "FamilyName" {
          familyNames := familyNames + [parts[j].value];
        }
      }
      assert parts[..|parts|] == parts && names[..i + 1][..i] == names[..i];
    }
    assert names[..|names|] == names;
  }

  lemma {:induction false} PartIsThere(parts: seq<NamePart>, kind: string, i: nat)
    requires i < |parts| && parts[i].kind == kind
    ensures parts[i].value in Parts(parts, kind)
  {
    if i < |parts| - 1 {
      PartIsThere(parts[..|parts| - 1], kind, i);
    }
  }

  lemma {:induction false} AllPartsAreThere(names: seq<Name>, kind: string, n: nat, v: Option<string>)
    requires n < |names| && v in Parts(names[n].nameParts, kind)
    ensures v in AllParts(names, kind)
  {
    if n < |names| - 1 {
      AllPartsAreThere(names[..|names| - 1], kind, n, v);
    }
  }

  /** Names found valid yield a usable name of either kind. */
  lemma UsableNames(names: seq<Name>, kind: string)
    requires NamesUsable(names) && kind in {"GivenName", "FamilyName"}
    ensures exists v :: v in AllParts(names, kind) && Usable(v)
  {
    assert names[0] in names;
    var i :| 0 <= i < |names[0].nameParts| && names[0].nameParts[i].kind == kind && Usable(names[0].nameParts[i].value);
    PartIsThere(names[0].nameParts, kind, i);
    AllPartsAreThere(names, kind, 0, names[0].nameParts[i].value);
  }

  datatype Profile = Profile(fullName: string, dateOfBirth: string, addressLine1: string, addressLine2: string)

  datatype ProfileFailure = BadCountry | NoBirthDate | NoAddressLines

  /** A value put into a template string: an absent one reads "undefined". */
  function Shown(s: Option<string>): string {
    if s.Some? then s.value else "undefined"
  }

  function IfAny(s: Option<string>): string {
    if s.Some? then s.value else ""
  }

  function AddressLines(a: Address): Option<(string, string)> {
    if !CheckIfAddressIsValid(a) then None
    else
      var line := Trim(Shown(a.buildingNumber) + " " + Shown(a.streetName));
      if !CheckIfValidString([a.subBuildingName, a.buildingName]) then Some((line, ""))
      else
        var building := if IfAny(a.buildingName) == "" then "" else IfAny(a.buildingName) + " ";
        Some((Trim(IfAny(a.subBuildingName) + " " + building), line))
  }

  function Joined(names: seq<Option<string>>): string {
    if |names| > 1 then Join(seq(|names|, i requires 0 <= i < |names| => IfAny(names[i])), " ")
    else if |names| == 1 then Shown(names[0])
    else "undefined"
  }

  /** The profile sent to Yoti, built from the first address. */
  function ApplicantProfile(p: Person): Result<Profile, ProfileFailure>
    requires p.addresses != []
  {
    var a := p.addresses[0];
    if a.addressCountry != Some("GB") then Err(BadCountry)
    else if p.birthDate.None? || p.birthDate.value == [] then Err(NoBirthDate)
    else
      match AddressLines(a)
      case None => Err(NoAddressLines)
      case Some((line1, line2)) =>
        Ok(Profile(Joined(AllParts(p.name, "GivenName")) + " " + Joined(AllParts(p.name, "FamilyName")),
                   p.birthDate.value[0], line1, line2))
  }

  lemma BlankSpaced(a: string, b: string)
    ensures Trim(a + " " + b) == "" <==> Blank(a) && Blank(b)
  {
    TrimBlank(a + " " + b);
    BlankConcat(a + " ", b);
    BlankConcat(a, " ");
  }

  lemma NamedBuilding(a: Address)
    ensures CheckIfValidString([a.subBuildingName, a.buildingName]) <==> Usable(a.subBuildingName) || Usable(a.buildingName)
  {
    var names := [a.subBuildingName, a.buildingName];
    ValidString(names);
    assert names[0] == a.subBuildingName && names[1] == a.buildingName;
  }

  /** An address found valid has a first line that is not blank. */
  lemma FirstLineNotBlank(a: Address)
    requires Locatable(a)
    ensures AddressLines(a).Some? && AddressLines(a).value.0 != ""
  {
    ValidAddress(a);
    NamedBuilding(a);
    if Usable(a.subBuildingName) || Usable(a.buildingName) {
      var building := if IfAny(a.buildingName) == "" then "" else IfAny(a.buildingName) + " ";
      BlankConcat(IfAny(a.buildingName), " ");
      BlankSpaced(IfAny(a.subBuildingName), building);
    } else {
      BlankSpaced(Shown(a.buildingNumber), Shown(a.streetName));
    }
  }

  /** The addresses after some changes, compared with those before: only the first one's preference and the end may differ. */
  ghost predicate Extends(before: seq<Address>, after: seq<Address>)
    requires before != []
  {
    && |before| <= |after|
    && after[0] == before[0].(preferredAddress := after[0].preferredAddress)
    && forall i | 0 < i < |before| :: after[i] == before[i]
  }

  lemma {:induction false} PreferencesExtend(p: Person, xs: seq<Preference>, m: nat)
    requires p.addresses != [] && m <= |xs|
    ensures var before, after := WithPreferences(p, xs[..m]), WithPreferences(p, xs);
            && Extends(before.addresses, after.addresses)
            && after.name == p.name && after.birthDate == p.birthDate && after.emailAddress == p.emailAddress
    decreases |xs|
  {
    if m == |xs| {
      assert xs[..m] == xs;
      if xs != [] {
        PreferencesExtend(p, xs[..|xs| - 1], |xs| - 1);
        assert xs[..|xs| - 1][..|xs| - 1] == xs[..|xs| - 1];
      }
    } else {
      PreferencesExtend(p, xs[..|xs| - 1], m);
      assert xs[..|xs| - 1][..m] == xs[..m];
    }
  }

  /**
   A person whose claims were accepted stays usable through any changes of preference: both kinds of name
   are there, the first address keeps everything but its preference, addresses are only ever added at the
   end, and the profile can be built whenever there is a birth date: country and address never prevent it.
   */
  lemma AcceptedStaysUsable(c: SharedClaims, p: Person, xs: seq<Preference>, m: nat)
    requires DetailsUsable(c) && AddressesUsable(c.address) && m <= |xs|
    requires exists a :: a in c.address.value && p == Person([a.(preferredAddress := true)], c.name.value, c.birthDate,
                                                             c.emailAddress, None)
    ensures var before, after := WithPreferences(p, xs[..m]), WithPreferences(p, xs);
            && (exists v :: v in AllParts(after.name, "GivenName") && Usable(v))
            && (exists v :: v in AllParts(after.name, "FamilyName") && Usable(v))
            && Extends(before.addresses, after.addresses)
            && (ApplicantProfile(after).Ok? <==> c.birthDate.Some? && c.birthDate.value != [])
            && (ApplicantProfile(after).Ok? ==> ApplicantProfile(after).value.addressLine1 != "")
            && (ApplicantProfile(after).Err? ==> ApplicantProfile(after).error == NoBirthDate)
  {
    PreferencesExtend(p, xs, m);
    PreferencesExtend(p, xs, 0);
    assert xs[..0] == [];
    UsableNames(c.name.value, "GivenName");
    UsableNames(c.name.value, "FamilyName");
    var a :| a in c.address.value && p == Person([a.(preferredAddress := true)], c.name.value, c.birthDate,
                                                 c.emailAddress, None);
    assert Fault(a) == Fine;
    FirstLineNotBlank(WithPreferences(p, xs).addresses[0]);
  }
}
