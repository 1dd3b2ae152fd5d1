/**
 Turning a completed Yoti session into evidence: five mandatory checks, three scores, and the
 contra-indicators of a rejection. The list of checks is arbitrary; the first of each type counts.
 */
module Evidence {
  import opened Wrappers

  datatype SubCheck = SubCheck(name: string, result: string)

  datatype Recommendation = Recommendation(value: string, reason: Option<string>)

  datatype Report = Report(recommendation: Recommendation, breakdown: seq<SubCheck>)

  /** A check as Yoti lists it; one still in progress may have no report. */
  datatype Check = Check(kind: string, state: string, report: Option<Report>)

  datatype DocumentFields = DocumentFields(
    documentNumber: string,
    expirationDate: Option<string>,
    dateOfIssue: Option<string>,
    dateOfBirth: Option<string>,
    issuingCountry: Option<string>,
    issuingAuthority: Option<string>,
    placeOfIssue: Option<string>,
    formattedAddress: Option<string>)

  datatype Document =
    | Passport(documentNumber: string, expiryDate: Option<string>, icaoIssuerCode: Option<string>)
    | DrivingPermit(personalNumber: string, expiryDate: Option<string>, issueDate: Option<string>,
                    issuedBy: Option<string>, fullAddress: Option<string>, issuingCountry: Option<string>)
    | IdCard(documentNumber: string, expiryDate: Option<string>, issueDate: Option<string>, icaoIssuerCode: Option<string>)

  datatype CheckDetail = CheckDetail(
    checkMethod: string,
    identityCheckPolicy: Option<string>,
    photoLevel: Option<nat>,
    biometricLevel: Option<nat>)

  datatype Item = Item(
    strengthScore: nat,
    validityScore: nat,
    verificationScore: nat,
    ci: Option<seq<string>>,
    checkDetails: Option<seq<CheckDetail>>,
    failedCheckDetails: Option<seq<CheckDetail>>)

  datatype Rejection = Rejection(ci: string, reason: string)

  datatype Credential = Credential(birthDate: Option<string>, document: Document, evidence: Item, rejectionReasons: seq<Rejection>)

  datatype Failure =
    | NoReport        // reading the recommendation of a check without a report throws
    | MissingCheck
    | NotCompleted
    | BadDocument

  const AUTHENTICITY := "ID_DOCUMENT_AUTHENTICITY"
  const FACE_MATCH := "ID_DOCUMENT_FACE_MATCH"
  const MANDATORY := [AUTHENTICITY, FACE_MATCH, "IBV_VISUAL_REVIEW_CHECK", "DOCUMENT_SCHEME_VALIDITY_CHECK", "PROFILE_DOCUMENT_MATCH"]

  function First(checks: seq<Check>, kind: string): Option<Check> {
    if checks == [] then None
    else if checks[0].kind == kind then Some(checks[0])
    else First(checks[1..], kind)
  }

  lemma {:induction false} FirstIs(checks: seq<Check>, kind: string)
    ensures match First(checks, kind)
            case None => forall c | c in checks :: c.kind != kind
            case Some(c) => exists i :: 0 <= i < |checks| && checks[i] == c && c.kind == kind &&
                                        forall j | 0 <= j < i :: checks[j].kind != kind
  {
    if checks != [] && checks[0].kind != kind {
      FirstIs(checks[1..], kind);
      match First(checks, kind)
      case None => assert checks == [checks[0]] + checks[1..];
      case Some(c) =>
        var i :| 0 <= i < |checks| - 1 && checks[1..][i] == c && forall j | 0 <= j < i :: checks[1..][j].kind != kind;
        assert forall j | 0 < j < i + 1 :: checks[j] == checks[1..][j - 1];
        assert checks[i + 1] == c;
    }
  }

  predicate Done(checks: seq<Check>, kind: string) {
    First(checks, kind).Some? && First(checks, kind).value.report.Some? && First(checks, kind).value.state == "DONE"
  }

  predicate HasPass(breakdown: seq<SubCheck>, name: string) {
    SubCheck(name, "PASS") in breakdown
  }

  predicate ContainsValidChip(documentType: string, breakdown: seq<SubCheck>) {
    documentType in ["PASSPORT", "NATIONAL_ID"] && HasPass(breakdown, "chip_csca_trusted")
  }

  /** None where the service throws. */
  function StrengthScore(documentType: string, issuingCountry: string, chip: bool): Option<nat> {
    if documentType == "PASSPORT" then Some(if chip then 4 else 3)
    else if documentType == "DRIVING_LICENCE" then Some(3)
    else if documentType == "NATIONAL_ID" && issuingCountry != "GBR" then Some(if chip then 4 else 3)
    else None
  }

  function ValidityScore(authenticity: string, chip: bool): nat {
    if authenticity == "APPROVE" then (if chip then 3 else 2) else 0
  }

  function VerificationLevel(validityScore: nat, faceMatch: string): nat {
    if faceMatch == "APPROVE" && validityScore != 0 then 3 else 0
  }

  /** The identity document block; none where the service throws. `euCountries` maps three-letter to two-letter codes. */
  function DocumentOf(documentType: string, issuingCountry: string, f: DocumentFields, euCountries: map<string, string>)
    : Option<Document>
  {
    if documentType == "PASSPORT" then Some(Passport(f.documentNumber, f.expirationDate, f.issuingCountry))
    else if documentType == "DRIVING_LICENCE" && issuingCountry == "GBR" then
      Some(DrivingPermit(f.documentNumber, f.expirationDate, f.dateOfIssue, f.issuingAuthority, f.formattedAddress, None))
    else if documentType == "DRIVING_LICENCE" then
      if f.issuingCountry.Some? && f.issuingCountry.value in euCountries
      then Some(DrivingPermit(f.documentNumber, f.expirationDate, f.dateOfIssue, f.placeOfIssue, None,
                              Some(euCountries[f.issuingCountry.value])))
      else None
    else if documentType == "NATIONAL_ID" && issuingCountry != "GBR" then
      Some(IdCard(f.documentNumber, f.expirationDate, f.dateOfIssue, f.issuingCountry))
    else None
  }

  /** A document that can be attached can be scored: the score's own failure is never reached. */
  lemma AttachedIsScored(documentType: string, issuingCountry: string, f: DocumentFields, euCountries: map<string, string>,
                         breakdown: seq<SubCheck>)
    requires DocumentOf(documentType, issuingCountry, f, euCountries).Some?
    ensures var chip := ContainsValidChip(documentType, breakdown);
            StrengthScore(documentType, issuingCountry, chip) == Some(if chip then 4 else 3)
  {
  }

  /** Which document is attached, and which of the fields read goes where in it. */
  lemma DocumentExactly(documentType: string, issuingCountry: string, f: DocumentFields, euCountries: map<string, string>)
    ensures
      var d := DocumentOf(documentType, issuingCountry, f, euCountries);
      && (d.Some? <==>
            || documentType == "PASSPORT"
            || (documentType == "DRIVING_LICENCE" &&
                (issuingCountry == "GBR" || (f.issuingCountry.Some? && f.issuingCountry.value in euCountries)))
            || (documentType == "NATIONAL_ID" && issuingCountry != "GBR"))
      && (d.Some? ==>
            && d.value.expiryDate == f.expirationDate
            && (d.value.Passport? <==> documentType == "PASSPORT")
            && (d.value.DrivingPermit? <==> documentType == "DRIVING_LICENCE")
            && (d.value.Passport? || d.value.IdCard? ==>
                  d.value.documentNumber == f.documentNumber && d.value.icaoIssuerCode == f.issuingCountry)
            && (!d.value.Passport? ==> d.value.issueDate == f.dateOfIssue)
            && (d.value.DrivingPermit? ==>
                  && d.value.personalNumber == f.documentNumber
                  && if issuingCountry == "GBR"
                     then d.value.issuedBy == f.issuingAuthority && d.value.fullAddress == f.formattedAddress &&
                          d.value.issuingCountry == None
                     else d.value.issuedBy == f.placeOfIssue && d.value.fullAddress == None &&
                          d.value.issuingCountry == Some(euCountries[f.issuingCountry.value])))
  {
  }

  /** A chip is found valid in a passport or an identity card, by the outcome of one part of the authenticity check. */
  lemma ChipExactly(documentType: string, breakdown: seq<SubCheck>)
    ensures ContainsValidChip(documentType, breakdown) <==>
      && documentType in {"PASSPORT", "NATIONAL_ID"}
      && exists i :: 0 <= i < |breakdown| && breakdown[i].name == "chip_csca_trusted" && breakdown[i].result == "PASS"
  {
    if i :| 0 <= i < |breakdown| && breakdown[i].name == "chip_csca_trusted" && breakdown[i].result == "PASS" {
      assert breakdown[i] == SubCheck("chip_csca_trusted", "PASS");
    }
  }

  // ---------- contra-indicators ----------

  function FaceIndicator(r: Recommendation): Option<string> {
    if r.value == "REJECT" && r.reason.Some? &&
       r.reason.value in ["FACE_NOT_GENUINE", "LARGE_AGE_GAP", "PHOTO_OF_MASK", "PHOTO_OF_PHOTO", "DIFFERENT_PERSON"]
    then Some("V01") else None
  }

  function AuthenticityIndicator(r: Recommendation): Option<string> {
    if r.value != "REJECT" || r.reason.None? then None
    else if r.reason.value in ["COUNTERFEIT", "TAMPERED", "MISSING_HOLOGRAM", "NO_HOLOGRAM_MOVEMENT", "DOC_NUMBER_INVALID"]
    then Some("D14")
    else if r.reason.value == "EXPIRED_DOCUMENT" then Some("D16")
    else if r.reason.value == "FRAUD_LIST_MATCH" then Some("F03")
    else None
  }

  /** Every rejection that maps to an indicator, the face match first. */
  function Rejections(face: Recommendation, authenticity: Recommendation): seq<Rejection> {
    (if FaceIndicator(face).Some? then [Rejection(FaceIndicator(face).value, face.reason.value)] else []) +
    (if AuthenticityIndicator(authenticity).Some?
     then [Rejection(AuthenticityIndicator(authenticity).value, authenticity.reason.value)] else [])
  }

  /** Which rejection is reported as what: one of the face as V01, one of the document as D14, D16 or F03, and no other. */
  lemma RejectionsExactly(face: Recommendation, authenticity: Recommendation, ci: string, reason: string)
    ensures Rejection(ci, reason) in Rejections(face, authenticity) <==>
      || (face == Recommendation("REJECT", Some(reason)) && ci == "V01" &&
          reason in {"FACE_NOT_GENUINE", "LARGE_AGE_GAP", "PHOTO_OF_MASK", "PHOTO_OF_PHOTO", "DIFFERENT_PERSON"})
      || (authenticity == Recommendation("REJECT", Some(reason)) && ci == "D14" &&
          reason in {"COUNTERFEIT", "TAMPERED", "MISSING_HOLOGRAM", "NO_HOLOGRAM_MOVEMENT", "DOC_NUMBER_INVALID"})
      || (authenticity == Recommendation("REJECT", Some(reason)) && ci == "D16" && reason == "EXPIRED_DOCUMENT")
      || (authenticity == Recommendation("REJECT", Some(reason)) && ci == "F03" && reason == "FRAUD_LIST_MATCH")
    ensures var rejections := Rejections(face, authenticity);
            |rejections| <= 2 && (|rejections| == 2 ==> rejections[0].ci == "V01" && rejections[1].ci != "V01")
  {
  }

  method GetContraIndicator(face: Recommendation, authenticity: Recommendation)
    returns (contraIndicators: seq<string>, rejectionReasons: seq<Rejection>)
    ensures rejectionReasons == Rejections(face, authenticity)
    ensures |contraIndicators| == |rejectionReasons|
    ensures forall i | 0 <= i < |contraIndicators| :: contraIndicators[i] == rejectionReasons[i].ci
  {
    contraIndicators, rejectionReasons := [], [];
    if face.value == "REJECT" && face.reason.Some? {
      var reason := face.reason.value;
      if reason == "FACE_NOT_GENUINE" || reason == "LARGE_AGE_GAP" || reason == "PHOTO_OF_MASK" ||
         reason == "PHOTO_OF_PHOTO" || reason == "DIFFERENT_PERSON"
      {
        contraIndicators := contraIndicators + ["V01"];
        rejectionReasons := rejectionReasons + [Rejection("V01", reason)];
      }
    }
    if authenticity.value == "REJECT" && authenticity.reason.Some? {
      var reason := authenticity.reason.value;
      var contraIndicator: Option<string> := None;
      if reason == "COUNTERFEIT" || reason == "TAMPERED" || reason == "MISSING_HOLOGRAM" ||
         reason == "NO_HOLOGRAM_MOVEMENT" || reason == "DOC_NUMBER_INVALID"
      {
        contraIndicator := Some("D14");
      } else if reason == "EXPIRED_DOCUMENT" {
        contraIndicator := Some("D16");
      } else if reason == "FRAUD_LIST_MATCH" {
        contraIndicator := Some("F03");
      }
      if contraIndicator.Some? {
        contraIndicators := contraIndicators + [contraIndicator.value];
        rejectionReasons := rejectionReasons + [Rejection(contraIndicator.value, reason)];
      }
    }
  }

  // ---------- the evidence item ----------

  /** What the evidence says about the two checks that decide it, in terms of their recommendations alone. */
  ghost predicate Sound(e: Item, reasons: seq<Rejection>, documentType: string, authenticity: Report, face: Report) {
    var chip := ContainsValidChip(documentType, authenticity.breakdown);
    var genuine := authenticity.recommendation.value == "APPROVE";
    var sameFace := face.recommendation.value == "APPROVE";
    var second := if SubCheck("manual_face_match", "PASS") in face.breakdown then CheckDetail("pvr", None, Some(3), None)
                  else CheckDetail("bvr", None, None, Some(3));
    var details := [CheckDetail(if chip then "vcrypt" else "vri", Some("published"), None, None), second];
    var failed := [CheckDetail("vcrypt", Some("published"), None, None), second];
    && e.strengthScore == (if chip then 4 else 3)
    && e.validityScore == (if !genuine then 0 else if chip then 3 else 2)
    && e.verificationScore == (if genuine && sameFace then 3 else 0)
    && e.checkDetails == (if genuine && sameFace then Some(details) else None)
    && e.failedCheckDetails == (if genuine && sameFace then None else Some(failed))
    && reasons == Rejections(face.recommendation, authenticity.recommendation)
    && (e.ci.Some? <==> reasons != [])
    && (e.ci.Some? ==> |e.ci.value| == |reasons| && forall i | 0 <= i < |reasons| :: e.ci.value[i] == reasons[i].ci)
  }

  method CollectEvidence(documentType: string, strengthScore: nat, authenticity: Report, face: Report)
    returns (evidence: Item, rejectionReasons: seq<Rejection>)
    requires strengthScore == if ContainsValidChip(documentType, authenticity.breakdown) then 4 else 3
    ensures Sound(evidence, rejectionReasons, documentType, authenticity, face)
  {
    var chip := ContainsValidChip(documentType, authenticity.breakdown);
    var manual := HasPass(face.breakdown, "manual_face_match");
    var validityScore := ValidityScore(authenticity.recommendation.value, chip);
    var verificationScore := VerificationLevel(validityScore, face.recommendation.value);
    evidence := Item(strengthScore, validityScore, verificationScore, None, None, None);
    rejectionReasons := [];
    if strengthScore == 0 || validityScore == 0 || verificationScore == 0 {
      var contraIndicators;
      contraIndicators, rejectionReasons := GetContraIndicator(face.recommendation, authenticity.recommendation);
      if |contraIndicators| >= 1 {
        evidence := evidence.(ci := Some(contraIndicators));
      }
      var second := CheckDetail(if manual then "pvr" else "bvr", None, None, None);
      if manual {
        second := second.(photoLevel := Some(3));
      } else {
        second := second.(biometricLevel := Some(3));
      }
      evidence := evidence.(failedCheckDetails := Some([CheckDetail("vcrypt", Some("published"), None, None), second]));
    } else {
      var second := CheckDetail(if manual then "pvr" else "bvr", None, None, None);
      if manual {
        second := second.(photoLevel := Some(3));
      } else {
        second := second.(biometricLevel := Some(3));
      }
      var firstMethod := if chip then "vcrypt" else "vri";
      evidence := evidence.(checkDetails := Some([CheckDetail(firstMethod, Some("published"), None, None), second]));
    }
  }

  predicate Lacks(checks: seq<Check>, kind: string) { First(checks, kind).None? }

  predicate Unreported(checks: seq<Check>, kind: string) {
    First(checks, kind).Some? && First(checks, kind).value.report.None?
  }

  /** Why no credential can be generated, the first reason that applies. */
  ghost function Obstacle(checks: seq<Check>, documentType: string, issuingCountry: string, f: DocumentFields,
                          euCountries: map<string, string>): Option<Failure>
  {
    if exists kind :: kind in MANDATORY && Unreported(checks, kind) then Some(NoReport)
    else if exists kind :: kind in MANDATORY && Lacks(checks, kind) then Some(MissingCheck)
    else if exists kind :: kind in MANDATORY && !Done(checks, kind) then Some(NotCompleted)
    else if DocumentOf(documentType, issuingCountry, f, euCountries).None? then Some(BadDocument)
    else None
  }

  lemma MandatoryExactly(kind: string)
    ensures kind in MANDATORY <==>
      kind in {"ID_DOCUMENT_AUTHENTICITY", "ID_DOCUMENT_FACE_MATCH", "IBV_VISUAL_REVIEW_CHECK", "DOCUMENT_SCHEME_VALIDITY_CHECK",
               "PROFILE_DOCUMENT_MATCH"}
  {
    assert MANDATORY == ["ID_DOCUMENT_AUTHENTICITY", "ID_DOCUMENT_FACE_MATCH", "IBV_VISUAL_REVIEW_CHECK",
                         "DOCUMENT_SCHEME_VALIDITY_CHECK", "PROFILE_DOCUMENT_MATCH"];
  }

  /** What stands in the way, by the five checks that must be there: a missing report comes before a missing check. */
  lemma ObstacleExactly(checks: seq<Check>, documentType: string, issuingCountry: string, f: DocumentFields,
                        euCountries: map<string, string>)
    ensures
      var kinds := {"ID_DOCUMENT_AUTHENTICITY", "ID_DOCUMENT_FACE_MATCH", "IBV_VISUAL_REVIEW_CHECK",
                    "DOCUMENT_SCHEME_VALIDITY_CHECK", "PROFILE_DOCUMENT_MATCH"};
      var found := forall kind | kind in kinds :: First(checks, kind).Some?;
      var reported := forall kind | kind in kinds && First(checks, kind).Some? :: First(checks, kind).value.report.Some?;
      var done := forall kind | kind in kinds && First(checks, kind).Some? :: First(checks, kind).value.state == "DONE";
      Obstacle(checks, documentType, issuingCountry, f, euCountries) ==
        if !reported then Some(NoReport)
        else if !found then Some(MissingCheck)
        else if !done then Some(NotCompleted)
        else if DocumentOf(documentType, issuingCountry, f, euCountries).None? then Some(BadDocument)
        else None
  {
    var kinds := {"ID_DOCUMENT_AUTHENTICITY", "ID_DOCUMENT_FACE_MATCH", "IBV_VISUAL_REVIEW_CHECK",
                  "DOCUMENT_SCHEME_VALIDITY_CHECK", "PROFILE_DOCUMENT_MATCH"};
    forall kind ensures kind in MANDATORY <==> kind in kinds { MandatoryExactly(kind); }
    if kind :| kind in kinds && Unreported(checks, kind) { assert kind in MANDATORY; }
    if kind :| kind in kinds && Lacks(checks, kind) { assert kind in MANDATORY; }
    if kind :| kind in kinds && First(checks, kind).Some? && First(checks, kind).value.state != "DONE" {
      assert kind in MANDATORY && !Done(checks, kind);
    }
  }

  method GetVerifiedCredentialInformation(checks: seq<Check>, documentType: string, issuingCountry: string,
                                          f: DocumentFields, euCountries: map<string, string>)
    returns (r: Result<Credential, Failure>)
    ensures var obstacle := Obstacle(checks, documentType, issuingCountry, f, euCountries);
            if obstacle.Some? then r == Err(obstacle.value) else r.Ok?
    ensures r.Ok? ==>
      && (forall kind | kind in MANDATORY :: Done(checks, kind))
      && Done(checks, AUTHENTICITY) && Done(checks, FACE_MATCH)
      && Some(r.value.document) == DocumentOf(documentType, issuingCountry, f, euCountries)
      && r.value.birthDate == f.dateOfBirth
      && Sound(r.value.evidence, r.value.rejectionReasons, documentType,
               First(checks, AUTHENTICITY).value.report.value, First(checks, FACE_MATCH).value.report.value)
  {
    if exists kind :: kind in MANDATORY && Unreported(checks, kind) {
      return Err(NoReport);
    }
    if exists kind :: kind in MANDATORY && Lacks(checks, kind) {
      return Err(MissingCheck);
    }
    if exists kind :: kind in MANDATORY && !Done(checks, kind) {
      return Err(NotCompleted);
    }
    var document := DocumentOf(documentType, issuingCountry, f, euCountries);
    if document.None? {
      return Err(BadDocument);
    }
    assert MANDATORY[0] in MANDATORY && MANDATORY[1] in MANDATORY;
    assert Done(checks, AUTHENTICITY) && Done(checks, FACE_MATCH);
    var authenticity := First(checks, AUTHENTICITY).value.report.value;
    var face := First(checks, FACE_MATCH).value.report.value;
    var chip := ContainsValidChip(documentType, authenticity.breakdown);
    AttachedIsScored(documentType, issuingCountry, f, euCountries, authenticity.breakdown);
    var strengthScore := StrengthScore(documentType, issuingCountry, chip).value;
    var evidence, rejectionReasons := CollectEvidence(documentType, strengthScore, authenticity, face);
    return Ok(Credential(f.dateOfBirth, document.value, evidence, rejectionReasons));
  }
}
