/**
 What the guards of the completion callback look at in its payload: the first authenticity check, the first document
 it used, and the names of the document against those the session was opened with.
 */
module CompletionPayload {
  import opened Wrappers
  import opened Text
  import opened SessionModel
  import opened Protocol
  import opened Completion
  import opened CompletionMessages
  import opened HandlerSpec
  import opened Outcomes
  import opened FullNames
  import Evidence

  /** The authenticity check looked at is the first one listed; there is none only if none is listed. */
  lemma {:induction false} AuthenticityCheckIs(checks: seq<CompletedCheck>) returns (i: nat)
    ensures AuthenticityCheck(checks).None? ==> forall c | c in checks :: c.check.kind != "ID_DOCUMENT_AUTHENTICITY"
    ensures AuthenticityCheck(checks).Some? ==>
              && i < |checks| && checks[i] == AuthenticityCheck(checks).value
              && checks[i].check.kind == "ID_DOCUMENT_AUTHENTICITY"
              && forall j: nat | j < i :: checks[j].check.kind != "ID_DOCUMENT_AUTHENTICITY"
  {
    i := 0;
    if checks != [] && checks[0].check.kind != Evidence.AUTHENTICITY {
      var rest := checks[1..];
      i := AuthenticityCheckIs(rest);
      assert checks == [checks[0]] + rest;
      if AuthenticityCheck(rest).Some? {
        assert checks[i + 1] == rest[i];
        forall j: nat | j < i + 1 ensures checks[j].check.kind != "ID_DOCUMENT_AUTHENTICITY" {
          assert j > 0 ==> checks[j] == rest[j - 1];
        }
      }
      i := i + 1;
    }
  }

  /** Document `i` is the first with this identifier. */
  ghost predicate FirstWithId(documents: seq<IdDocument>, id: string, i: nat) {
    i < |documents| && documents[i].id == id && forall j: nat | j < i :: documents[j].id != id
  }

  lemma {:induction false} WithIdIs(documents: seq<IdDocument>, id: string, i: nat)
    requires FirstWithId(documents, id, i)
    ensures WithId(documents, id) != [] && WithId(documents, id)[0] == documents[i]
  {
    if i > 0 {
      assert forall j: nat | j < i - 1 :: documents[1..][j] == documents[j + 1];
      WithIdIs(documents[1..], id, i - 1);
    }
  }

  /** The document whose fields are fetched is the first listed with the identifier that check names first. */
  lemma UsedIs(s: CompletedSession, i: nat)
    requires AuthenticityCheck(s.checks).Some? && AuthenticityCheck(s.checks).value.resourcesUsed != []
    requires FirstWithId(s.idDocuments, AuthenticityCheck(s.checks).value.resourcesUsed[0], i)
    ensures Used(s) != [] && Used(s)[0] == s.idDocuments[i]
  {
    WithIdIs(s.idDocuments, AuthenticityCheck(s.checks).value.resourcesUsed[0], i);
  }

  /** A field is missing if it is not there or has no content. */
  lemma MissingExactly(field: Option<string>)
    ensures Missing(field) <==> field.None? || forall c | c in field.value :: IsSpace(c)
  {
    if field.Some? { TrimBlank(field.value); }
  }

  /**
   When the document lacks a kind of name, its full name fits the words of the stored names if and only if it is
   single-spaced and has those words in order, whatever their casing; otherwise a mismatch is reported, or the error
   of reading a full name that is not there.
   */
  lemma NamesFitExactly(row: Row, x: Callback)
    requires x.person.Got? && (Missing(MediaOf(x).givenNames) || Missing(MediaOf(x).familyName))
    requires x.person.value.givenNames != [] && AllWords(x.person.value.givenNames)
    requires x.person.value.familyNames != [] && AllWords(x.person.value.familyNames)
    ensures var fullName := MediaOf(x).fullName;
            && (Holds(NamesFit, row, x) <==>
                  && fullName.Some? && SingleSpaced(fullName.value)
                  && SameFolds(Words(fullName.value), x.person.value.givenNames + x.person.value.familyNames))
            && (!Holds(NamesFit, row, x) ==>
                  Consequence(NamesFit, x) ==
                  Stop(Some(if fullName.Some? then NamesMismatch else ErrorText(x.typeErrorText)), Thrown(500)))
  {
    if MediaOf(x).fullName.Some? {
      NamesComeBackExactly(MediaOf(x).fullName.value, x.person.value.givenNames, x.person.value.familyNames);
    }
  }

  /** The evidence is generated from all the checks listed and from the first document listed, whichever was used. */
  lemma EvidenceGuardExactly(row: Row, x: Callback)
    requires x.session.Got? && x.session.value.idDocuments != [] && x.media.Got?
    ensures var s := x.session.value;
            var checks := seq(|s.checks|, i requires 0 <= i < |s.checks| => s.checks[i].check);
            var first := s.idDocuments[0];
            Holds(EvidenceComplete, row, x) <==>
            Evidence.Obstacle(checks, first.documentType, first.issuingCountry, x.media.value.fields, x.euCountries) == None
  {
    var s := x.session.value;
    assert PlainChecks(s.checks) == seq(|s.checks|, i requires 0 <= i < |s.checks| => s.checks[i].check);
  }

  // ---------- what the callback leaves behind ----------

  lemma PushIs(st: Store, event: Event, ok: bool)
    ensures Push(st, event, ok).trail == st.trail + If(ok, event) && Push(st, event, ok).table == st.table
  {
  }

  /** A callback whose guards all hold: its events, audit events included, its row and its answer, by the first call that fails. */
  lemma PassedLeaves(st: Store, sid: SessionId, x: Callback)
    requires sid in st.table && AllPass(st.table[sid], x)
    ensures
      var (st', response) := Completed(st, sid, x);
      var received := If(x.responseEventOk, Audit(sid, YotiResponseReceived));
      var issued := [Credential(sid)];
      var told, stored := If(x.issuedEventOk, Audit(sid, VcIssued)), [Stored(sid, SetAuthState(CredentialIssued))];
      var typed := MediaOf(x).documentType in {"PASSPORT", "DRIVING_LICENCE", "NATIONAL_ID"};
      var done := x.credentialOk && typed && x.updateOk;
      && st'.trail == st.trail + (received + (if !x.credentialOk then []
                                              else if !typed then issued
                                              else if !x.updateOk then issued + told
                                              else issued + told + stored))
      && st'.table == (if done then st.table[sid := st.table[sid].(state := CredentialIssued)] else st.table)
      && response == (if done then Reply(200) else Thrown(500))
  {
    var row := st.table[sid];
    PassedGoesOn(row, x);
    PushIs(st, Audit(sid, YotiResponseReceived), x.responseEventOk);
    var audited := Push(st, Audit(sid, YotiResponseReceived), x.responseEventOk);
    var sent := Push(audited, Credential(sid), true);
    PushIs(audited, Credential(sid), true);
    PushIs(sent, Audit(sid, VcIssued), x.issuedEventOk);
    RecordedLeaves(sent, sid, x);
    assert Completed(st, sid, x) == if x.credentialOk then Recorded(sent, sid, x) else (audited, Thrown(500));
    Grouped(st.trail, If(x.responseEventOk, Audit(sid, YotiResponseReceived)), [Credential(sid)],
            If(x.issuedEventOk, Audit(sid, VcIssued)), [Stored(sid, SetAuthState(CredentialIssued))]);
  }

  lemma Grouped(a: seq<Event>, b: seq<Event>, c: seq<Event>, d: seq<Event>, e: seq<Event>)
    ensures a + b == a + (b + []) && a + b + c == a + (b + c)
    ensures a + b + c + d == a + (b + (c + d)) && a + b + c + d + e == a + (b + (c + d + e))
  {
  }

  lemma RecordedLeaves(st: Store, sid: SessionId, x: Callback)
    requires sid in st.table
    ensures
      var (st', response) := Recorded(st, sid, x);
      var told, stored := If(x.issuedEventOk, Audit(sid, VcIssued)), [Stored(sid, SetAuthState(CredentialIssued))];
      if MediaOf(x).documentType !in {"PASSPORT", "DRIVING_LICENCE", "NATIONAL_ID"} then (st', response) == (st, Thrown(500))
      else if !x.updateOk then st'.trail == st.trail + told && st'.table == st.table && response == Thrown(500)
      else
        && st'.trail == st.trail + told + stored && response == Reply(200)
        && st'.table == st.table[sid := st.table[sid].(state := CredentialIssued)]
  {
    PushIs(st, Audit(sid, VcIssued), x.issuedEventOk);
  }

  lemma StoppedLate(st: Store, sid: SessionId, x: Callback, g: Guard)
    requires sid in st.table && FirstBroken(g, st.table[sid], x) && Position(g) > 13
    ensures Completed(st, sid, x) ==
            Stopped(Push(st, Audit(sid, YotiResponseReceived), x.responseEventOk), sid, Consequence(g, x), x.reportOk)
  {
    YotiHolds(st.table[sid], x);
    CredentialBroken(g, st.table[sid], x);
  }

  lemma StoppedEarly(st: Store, sid: SessionId, x: Callback, g: Guard)
    requires sid in st.table && FirstBroken(g, st.table[sid], x) && Position(g) <= 13
    ensures Completed(st, sid, x) == Stopped(st, sid, Consequence(g, x), x.reportOk)
  {
    EntryHolds(Position(g), st.table[sid], x);
    if Position(g) == 13 {
      YotiHolds(st.table[sid], x);
    } else if Position(g) >= 2 {
      YotiBroken(g, st.table[sid], x);
    }
  }

  /** A callback stopped by a guard: its report, if the guard has one and it can be sent, and nothing else but what was received. */
  lemma StoppedLeaves(st: Store, sid: SessionId, x: Callback, g: Guard)
    requires sid in st.table && FirstBroken(g, st.table[sid], x)
    ensures
      var (st', response) := Completed(st, sid, x);
      var stop := Consequence(g, x);
      var checked := g in {NamesGiven, PersonFetched, PersonFound, NamesFit, EvidenceComplete, NoSigningError, CredentialSigned};
      && st'.table == st.table && response == stop.response
      && st'.trail == st.trail + If(checked && x.responseEventOk, Audit(sid, YotiResponseReceived)) +
                      (if stop.report.Some? then If(x.reportOk, CoreError(sid, stop.report.value)) else [])
  {
    var received := Push(st, Audit(sid, YotiResponseReceived), x.responseEventOk);
    PushIs(st, Audit(sid, YotiResponseReceived), x.responseEventOk);
    if Position(g) > 13 {
      StoppedLate(st, sid, x, g);
      StoppedTrail(received, sid, Consequence(g, x), x.reportOk);
    } else {
      StoppedEarly(st, sid, x, g);
      StoppedTrail(st, sid, Consequence(g, x), x.reportOk);
    }
  }

  lemma StoppedTrail(st: Store, sid: SessionId, stop: Stop, reportOk: bool)
    ensures Stopped(st, sid, stop, reportOk).0.table == st.table && Stopped(st, sid, stop, reportOk).1 == stop.response
    ensures Stopped(st, sid, stop, reportOk).0.trail ==
            st.trail + if stop.report.Some? then If(reportOk, CoreError(sid, stop.report.value)) else []
  {
    if stop.report.Some? { PushIs(st, CoreError(sid, stop.report.value), reportOk); }
  }
}
