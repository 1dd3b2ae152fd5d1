/**
 Sending through GOV.UK Notify: the retry loop every kind of message goes through, and the instructions
 pipeline, in which a printed letter is tried first and an email follows whatever became of the letter.
 Errors are thrown at every call of the pipeline. Those of the letter are caught on the spot; without that
 catch the email would not be sent exactly when the letter throws.
 */
module GovNotify {
  import opened Wrappers

  datatype NotifyAnswer =
    | Accepted(id: string)
    | Refused(status: int)  // an error response that carries a status code and a message
    | Broken                // an error with no such response

  datatype SendResult =
    | Sent(id: string)
    | NotSent(status: int)
    | TypeFailure           // reading the missing response throws

  type NotifyAnswers = nat -> NotifyAnswer

  predicate ShouldRetry(a: NotifyAnswer) {
    a == Refused(500) || a == Refused(429)
  }

  /** Attempt number `k`, counted from 0, is the last one. */
  ghost predicate EndsAt(answers: NotifyAnswers, maxRetries: nat, k: nat) {
    && k <= maxRetries
    && (forall i | 0 <= i < k :: ShouldRetry(answers(i)))
    && (k == maxRetries || !ShouldRetry(answers(k)))
  }

  /** The loop around one letter or one email. */
  method SendWithRetries(answers: NotifyAnswers, maxRetries: nat, backoffMs: nat)
    returns (result: SendResult, attempts: nat, slept: nat)
    ensures attempts > 0 && EndsAt(answers, maxRetries, attempts - 1)
    ensures match answers(attempts - 1)
            case Accepted(id) => result == Sent(id)
            case Refused(status) => result == NotSent(if status == 0 then 500 else status)
            case Broken => result == TypeFailure
    ensures slept == (attempts - 1) * backoffMs
  {
    var retryCount: nat := 0;
    slept := 0;
    while retryCount <= maxRetries
      invariant retryCount <= maxRetries
      invariant forall i | 0 <= i < retryCount :: ShouldRetry(answers(i))
      invariant slept == retryCount * backoffMs
    {
      var answer := answers(retryCount);
      attempts := retryCount + 1;
      match answer
      case Accepted(id) => return Sent(id), attempts, slept;
      case Broken => return TypeFailure, attempts, slept;
      case Refused(status) =>
        var shouldRetry := status == 500 || status == 429;
        if shouldRetry && retryCount < maxRetries {
          slept := slept + backoffMs;
          retryCount := retryCount + 1;
        } else {
          return NotSent(if status == 0 then 500 else status), attempts, slept;
        }
    }
    assert false;
  }

  /** An environment setting as a number; absent, empty and blank values are all absent. */
  type Setting = Option<nat>

  type Retries = n: nat | n <= 99
  type Millis = n: nat | n <= 59999

  function BackoffPeriod(configured: Setting): Millis {
    if configured.None? || configured.value == 0 || configured.value >= 60000 then 20000 else configured.value
  }

  function MaxRetries(configured: Setting): Retries {
    if configured.None? || configured.value >= 100 then 3 else configured.value
  }

  /** However it is configured, one loop sleeps for 99 periods of 59999 ms at most. */
  lemma SleepClamped(answers: NotifyAnswers, maxRetries: Retries, backoffMs: Millis, attempts: nat)
    requires attempts > 0 && EndsAt(answers, maxRetries, attempts - 1)
    ensures (attempts - 1) * backoffMs <= 99 * 59999
  {
    ProductBound(attempts - 1, backoffMs, 99, 59999);
  }

  lemma ProductBound(a: nat, b: nat, c: nat, d: nat)
    requires a <= c && b <= d
    ensures a * b <= c * d
  {
    assert a * b <= a * d <= c * d;
  }

  /** One place only to end; and the last attempt is the first that was accepted, if any of those made was. */
  lemma EndsOnce(answers: NotifyAnswers, maxRetries: nat, k: nat, m: nat)
    requires EndsAt(answers, maxRetries, k) && EndsAt(answers, maxRetries, m)
    ensures k == m
    ensures forall i | 0 <= i < k :: !answers(i).Accepted?
  {
    assert k < m ==> ShouldRetry(answers(k));
    assert m < k ==> ShouldRetry(answers(m));
    assert forall i | 0 <= i < k :: ShouldRetry(answers(i));
  }

  /** The number of attempts made, from attempt `k` on. */
  function Attempts(answers: NotifyAnswers, maxRetries: nat, k: nat): nat
    requires k <= maxRetries
    decreases maxRetries - k
  {
    if k < maxRetries && ShouldRetry(answers(k)) then Attempts(answers, maxRetries, k + 1) else k + 1
  }

  lemma {:induction false} AttemptsEnd(answers: NotifyAnswers, maxRetries: nat, k: nat)
    requires k <= maxRetries && forall i | 0 <= i < k :: ShouldRetry(answers(i))
    ensures Attempts(answers, maxRetries, k) > 0 && EndsAt(answers, maxRetries, Attempts(answers, maxRetries, k) - 1)
    decreases maxRetries - k
  {
    if k < maxRetries && ShouldRetry(answers(k)) {
      AttemptsEnd(answers, maxRetries, k + 1);
    }
  }

  // ---------- the instructions pipeline ----------

  datatype Message = Letter | Email

  /** What GOV.UK Notify and the audit queue get to see. */
  datatype Note =
    | Tried(message: Message, attempt: nat)
    | TakenOn(message: Message, id: string)
    | Audited(message: Message)

  /** A stored file: the fetch fails, there is no readable body, or there is one. */
  datatype File = Failed | Missing | Content(bytes: string)

  /** An audit event: queued, lost on the way, which is only logged, or never built, which throws. */
  datatype Auditing = Queued | Lost | Unbuilt

  /** What the pipeline finds and what its calls answer. */
  datatype Instructions = Instructions(
    sessionFound: bool,
    clientKnown: bool,
    personFound: bool,
    printedLetter: bool,
    mergedPdf: File,
    letterAnswers: NotifyAnswers,
    letterEvent: Auditing,
    instructionsPdf: File,
    emailBuilt: bool,    // the email's options can be built from the person's name
    emailAnswers: NotifyAnswers,
    emailEvent: Auditing)

  datatype Reply = Emailed(id: string) | CannotSend

  /** A stretch of the pipeline: what it leaves behind, and the identifier it returns unless it throws. */
  datatype Part = Part(notes: seq<Note>, returned: Option<string>)

  function Tries(m: Message, n: nat): seq<Note> {
    if n == 0 then [] else Tries(m, n - 1) + [Tried(m, n - 1)]
  }

  /** Sending a message and its audit event. */
  function Sending(m: Message, answers: NotifyAnswers, event: Auditing, maxRetries: nat): Part {
    var n := Attempts(answers, maxRetries, 0);
    AttemptsEnd(answers, maxRetries, 0);
    match answers(n - 1)
    case Accepted(id) =>
      Part(Tries(m, n) + [TakenOn(m, id)] + (if event.Queued? then [Audited(m)] else []),
           if event.Unbuilt? then None else Some(id))
    case _ => Part(Tries(m, n), None)
  }

  /** The body of the letter's try block. */
  function LetterPart(x: Instructions, maxRetries: nat): Part {
    match x.mergedPdf
    case Failed => Part([], None)
    case Missing => Part([], Some(""))
    case Content(_) => Sending(Letter, x.letterAnswers, x.letterEvent, maxRetries)
  }

  function EmailPart(x: Instructions, maxRetries: nat): Part {
    if x.instructionsPdf.Content? && x.emailBuilt then Sending(Email, x.emailAnswers, x.emailEvent, maxRetries)
    else Part([], None)
  }

  /** One part after another: an error in the first ends both. */
  function Then(a: Part, b: Part): Part {
    if a.returned.None? then a else Part(a.notes + b.notes, b.returned)
  }

  function Caught(a: Part): Part { Part(a.notes, Some("")) }

  /** The pipeline gets as far as trying the email. */
  predicate Prepared(x: Instructions) {
    x.sessionFound && x.clientKnown && x.personFound
  }

  function Pipeline(x: Instructions, maxRetries: nat): Part {
    if !Prepared(x) then Part([], None)
    else if x.printedLetter then Then(Caught(LetterPart(x, maxRetries)), EmailPart(x, maxRetries))
    else EmailPart(x, maxRetries)
  }

  /** The pipeline as it would be without the catch around the letter. */
  function UncaughtPipeline(x: Instructions, maxRetries: nat): Part {
    if !Prepared(x) then Part([], None)
    else if x.printedLetter then Then(LetterPart(x, maxRetries), EmailPart(x, maxRetries))
    else EmailPart(x, maxRetries)
  }

  /** Every error that reaches the end becomes one and the same. */
  function ReplyOf(p: Part): Reply {
    if p.returned.Some? then Emailed(p.returned.value) else CannotSend
  }

  class SendToGovNotifyService {
    const maxRetries: Retries
    const backoffMs: Millis
    var notes: seq<Note>

    constructor (backoff: Setting, retries: Setting)
      ensures maxRetries == match retries case None => 3 case Some(n) => if n < 100 then n else 3
      ensures backoffMs == match backoff case None => 20000 case Some(ms) => if 0 < ms < 60000 then ms else 20000
      ensures notes == []
    {
      maxRetries, backoffMs := MaxRetries(retries), BackoffPeriod(backoff);
      notes := [];
    }

    /** Sends a message, then its audit event. None is an error thrown. */
    method Send(m: Message, answers: NotifyAnswers, event: Auditing) returns (returned: Option<string>, slept: nat)
      modifies this
      ensures notes == old(notes) + Sending(m, answers, event, maxRetries).notes
      ensures returned == Sending(m, answers, event, maxRetries).returned
      ensures slept == (Attempts(answers, maxRetries, 0) - 1) * backoffMs && slept <= 99 * 59999
    {
      var result, attempts, pause := SendWithRetries(answers, maxRetries, backoffMs);
      AttemptsEnd(answers, maxRetries, 0);
      EndsOnce(answers, maxRetries, attempts - 1, Attempts(answers, maxRetries, 0) - 1);
      SleepClamped(answers, maxRetries, backoffMs, attempts);
      slept := pause;
      notes := notes + Tries(m, attempts);
      if !result.Sent? {
        return None, slept;
      }
      notes := notes + [TakenOn(m, result.id)];
      if event.Unbuilt? {
        return None, slept;
      }
      if event.Queued? {
        notes := notes + [Audited(m)];
      }
      return Some(result.id), slept;
    }

    /** The body of the letter's try block. */
    method TryLetter(x: Instructions) returns (returned: Option<string>, slept: nat)
      modifies this
      ensures notes == old(notes) + LetterPart(x, maxRetries).notes && returned == LetterPart(x, maxRetries).returned
      ensures slept <= 99 * 59999
    {
      if x.mergedPdf.Failed? {
        return None, 0;
      }
      returned, slept := Some(""), 0;
      if x.mergedPdf.Content? {
        returned, slept := Send(Letter, x.letterAnswers, x.letterEvent);
      }
    }

    /** The instructions of one session: a letter if one was asked for, then the email. */
    method SendYotiInstructions(x: Instructions) returns (reply: Reply, slept: nat)
      modifies this
      ensures notes == old(notes) + Pipeline(x, maxRetries).notes && reply == ReplyOf(Pipeline(x, maxRetries))
      ensures slept <= 2 * 99 * 59999
    {
      slept := 0;
      if !x.sessionFound {
        return CannotSend, slept;
      }
      if !x.clientKnown {
        return CannotSend, slept;
      }
      if !x.personFound {
        return CannotSend, slept;
      }
      if x.printedLetter {
        var _, pause := TryLetter(x);  // an error is caught here and logged
        slept := pause;
      }
      if !x.instructionsPdf.Content? || !x.emailBuilt {
        return CannotSend, slept;
      }
      var returned, pause := Send(Email, x.emailAnswers, x.emailEvent);
      slept := slept + pause;
      return if returned.Some? then Emailed(returned.value) else CannotSend, slept;
    }
  }

  // ---------- letters never hold up emails ----------

  /** What is seen of one kind of message. */
  function Only(m: Message, notes: seq<Note>): seq<Note> {
    if notes == [] then []
    else
      var n := |notes| - 1;
      Only(m, notes[..n]) + (if notes[n].message == m then [notes[n]] else [])
  }

  lemma {:induction false} OnlyAppend(m: Message, a: seq<Note>, b: seq<Note>)
    ensures Only(m, a + b) == Only(m, a) + Only(m, b)
    decreases |b|
  {
    if b == [] {
      assert a + b == a;
    } else {
      var n := |b| - 1;
      assert (a + b)[..|a + b| - 1] == a + b[..n];
      OnlyAppend(m, a, b[..n]);
    }
  }

  lemma {:induction false} OnlyOwn(m: Message, notes: seq<Note>, own: Message)
    requires forall note | note in notes :: note.message == own
    ensures Only(m, notes) == if m == own then notes else []
    decreases |notes|
  {
    if notes != [] {
      OnlyOwn(m, notes[..|notes| - 1], own);
    }
  }

  lemma {:induction false} TriesOwn(m: Message, n: nat)
    ensures |Tries(m, n)| == n && forall note | note in Tries(m, n) :: note.Tried? && note.message == m
  {
    if n > 0 { TriesOwn(m, n - 1); }
  }

  lemma SendingOwn(m: Message, answers: NotifyAnswers, event: Auditing, maxRetries: nat)
    ensures forall note | note in Sending(m, answers, event, maxRetries).notes :: note.message == m
  {
    TriesOwn(m, Attempts(answers, maxRetries, 0));
  }

  lemma PartsOwn(x: Instructions, maxRetries: nat)
    ensures Only(Email, LetterPart(x, maxRetries).notes) == []
    ensures Only(Email, EmailPart(x, maxRetries).notes) == EmailPart(x, maxRetries).notes
  {
    SendingOwn(Letter, x.letterAnswers, x.letterEvent, maxRetries);
    SendingOwn(Email, x.emailAnswers, x.emailEvent, maxRetries);
    OnlyOwn(Email, LetterPart(x, maxRetries).notes, Letter);
    OnlyOwn(Email, EmailPart(x, maxRetries).notes, Email);
  }

  /** The two agree on everything but the letter. */
  ghost predicate SameButLetter(x: Instructions, y: Instructions) {
    y == x.(printedLetter := y.printedLetter, mergedPdf := y.mergedPdf, letterAnswers := y.letterAnswers,
            letterEvent := y.letterEvent)
  }

  /**
   A letter never affects the email: whatever is thrown at whichever of its calls, the same is seen of the email,
   and the same reply is given, as if no letter had been asked for.
   */
  lemma LetterNeverBlocks(x: Instructions, y: Instructions, maxRetries: nat)
    requires SameButLetter(x, y)
    ensures Only(Email, Pipeline(x, maxRetries).notes) == Only(Email, Pipeline(y, maxRetries).notes)
    ensures ReplyOf(Pipeline(x, maxRetries)) == ReplyOf(Pipeline(y, maxRetries))
    ensures Prepared(x) ==> Only(Email, Pipeline(x, maxRetries).notes) == EmailPart(x, maxRetries).notes
  {
    if Prepared(x) {
      PipelineEmails(x, maxRetries);
      PipelineEmails(y, maxRetries);
    }
  }

  lemma PipelineEmails(x: Instructions, maxRetries: nat)
    requires Prepared(x)
    ensures Only(Email, Pipeline(x, maxRetries).notes) == EmailPart(x, maxRetries).notes
  {
    PartsOwn(x, maxRetries);
    OnlyAppend(Email, LetterPart(x, maxRetries).notes, EmailPart(x, maxRetries).notes);
  }

  /** One of the attempts a loop may make is accepted, and every one before it is worth a retry. */
  ghost predicate GetsAccepted(answers: NotifyAnswers, maxRetries: nat) {
    exists k | 0 <= k <= maxRetries :: answers(k).Accepted? && forall i | 0 <= i < k :: ShouldRetry(answers(i))
  }

  lemma LastIsAccepted(answers: NotifyAnswers, maxRetries: nat)
    ensures Attempts(answers, maxRetries, 0) > 0
    ensures answers(Attempts(answers, maxRetries, 0) - 1).Accepted? <==> GetsAccepted(answers, maxRetries)
  {
    AttemptsEnd(answers, maxRetries, 0);
    if k :| 0 <= k <= maxRetries && answers(k).Accepted? && forall i | 0 <= i < k :: ShouldRetry(answers(i)) {
      EndsOnce(answers, maxRetries, k, Attempts(answers, maxRetries, 0) - 1);
    }
  }

  /** The letter's file cannot be fetched; or it can, but the letter is never accepted, or its event not built. */
  ghost predicate LetterThrows(x: Instructions, maxRetries: nat) {
    || x.mergedPdf.Failed?
    || (x.mergedPdf.Content? && (!GetsAccepted(x.letterAnswers, maxRetries) || x.letterEvent.Unbuilt?))
  }

  lemma LetterThrowsIs(x: Instructions, maxRetries: nat)
    ensures LetterPart(x, maxRetries).returned.None? <==> LetterThrows(x, maxRetries)
  {
    LastIsAccepted(x.letterAnswers, maxRetries);
  }

  /**
   The catch is what keeps them apart: without it the email goes out as it does now, with the same reply, if and
   only if no letter is asked for or the letter throws nothing; otherwise nothing at all is seen of the email.
   */
  lemma UncaughtLetterBlocks(x: Instructions, maxRetries: nat)
    requires Prepared(x)
    ensures var now, without := Pipeline(x, maxRetries), UncaughtPipeline(x, maxRetries);
            if x.printedLetter && LetterThrows(x, maxRetries)
            then Only(Email, without.notes) == [] && ReplyOf(without) == CannotSend
            else Only(Email, without.notes) == Only(Email, now.notes) && ReplyOf(without) == ReplyOf(now)
  {
    PartsOwn(x, maxRetries);
    LetterThrowsIs(x, maxRetries);
  }

  /**
   The reply names an email if and only if that email was accepted and its event built. So a reply that the
   email cannot be sent follows an accepted email exactly when its event is not built.
   */
  lemma RepliesExactly(x: Instructions, maxRetries: nat, id: string)
    ensures ReplyOf(Pipeline(x, maxRetries)) == Emailed(id) <==>
            TakenOn(Email, id) in Pipeline(x, maxRetries).notes && !x.emailEvent.Unbuilt?
    ensures TakenOn(Email, id) in Pipeline(x, maxRetries).notes ==>
            Prepared(x) && x.instructionsPdf.Content? && x.emailBuilt && GetsAccepted(x.emailAnswers, maxRetries)
  {
    SendingOwn(Letter, x.letterAnswers, x.letterEvent, maxRetries);
    TriesOwn(Email, Attempts(x.emailAnswers, maxRetries, 0));
    LastIsAccepted(x.emailAnswers, maxRetries);
  }

  lemma {:induction false} TriesAt(m: Message, n: nat, i: nat)
    requires i < n
    ensures |Tries(m, n)| == n && Tries(m, n)[i] == Tried(m, i)
  {
    TriesOwn(m, n - 1);
    if i < n - 1 { TriesAt(m, n - 1, i); }
  }

  /** An audit event stands right behind the acceptance it reports, and that right behind the last of its attempts. */
  lemma EventsFollowAcceptance(m: Message, answers: NotifyAnswers, event: Auditing, maxRetries: nat, i: nat)
    requires i < |Sending(m, answers, event, maxRetries).notes|
    ensures var notes := Sending(m, answers, event, maxRetries).notes;
            && (notes[i].Audited? ==> i > 0 && notes[i - 1].TakenOn? && i == |notes| - 1)
            && (notes[i].TakenOn? ==> i > 0 && notes[i - 1] == Tried(m, i - 1) && answers(i - 1) == Accepted(notes[i].id))
            && (notes[i].Tried? ==> notes[i] == Tried(m, i) && i <= maxRetries)
  {
    var n := Attempts(answers, maxRetries, 0);
    AttemptsEnd(answers, maxRetries, 0);
    TriesOwn(m, n);
    TriesAt(m, n, if i < n then i else n - 1);
  }

  // ---------- exactly what is seen of a letter and of an email ----------

  /** Every attempt before attempt `k` was refused with a status worth a retry, and `k` is within the limit. */
  ghost predicate Reaches(answers: NotifyAnswers, maxRetries: nat, k: nat) {
    k <= maxRetries && forall i: nat | i < k :: answers(i) == Refused(500) || answers(i) == Refused(429)
  }

  lemma ReachesExactly(answers: NotifyAnswers, maxRetries: nat, k: nat)
    ensures Reaches(answers, maxRetries, k) <==> k < Attempts(answers, maxRetries, 0)
  {
    var n := Attempts(answers, maxRetries, 0);
    AttemptsEnd(answers, maxRetries, 0);
    if k < n {
      assert forall i | 0 <= i < n - 1 :: ShouldRetry(answers(i));
    } else if Reaches(answers, maxRetries, k) {
      assert ShouldRetry(answers(n - 1));
    }
  }

  lemma {:induction false} TriesExactly(m: Message, n: nat, k: nat)
    ensures Tried(m, k) in Tries(m, n) <==> k < n
  {
    if n > 0 { TriesExactly(m, n - 1, k); }
  }

  /** What is sent of one message: which attempts are made, when it is taken on, and when its event is queued. */
  lemma SendingExactly(m: Message, answers: NotifyAnswers, event: Auditing, maxRetries: nat, k: nat, id: string)
    ensures var notes := Sending(m, answers, event, maxRetries).notes;
            && (Tried(m, k) in notes <==> Reaches(answers, maxRetries, k))
            && (TakenOn(m, id) in notes <==> exists j: nat :: Reaches(answers, maxRetries, j) && answers(j) == Accepted(id))
            && (Audited(m) in notes <==>
                  event.Queued? && exists j: nat :: Reaches(answers, maxRetries, j) && answers(j).Accepted?)
  {
    var n := Attempts(answers, maxRetries, 0);
    AttemptsEnd(answers, maxRetries, 0);
    TriesOwn(m, n);
    TriesExactly(m, n, k);
    ReachesExactly(answers, maxRetries, k);
    ReachesExactly(answers, maxRetries, n - 1);
    if j: nat :| Reaches(answers, maxRetries, j) && answers(j).Accepted? {
      ReachesExactly(answers, maxRetries, j);
      ReachesExactly(answers, maxRetries, j + 1);
      LastReached(answers, maxRetries, j);
    }
  }

  lemma LastReached(answers: NotifyAnswers, maxRetries: nat, j: nat)
    requires Reaches(answers, maxRetries, j) && answers(j).Accepted?
    ensures Attempts(answers, maxRetries, 0) == j + 1
  {
    ReachesExactly(answers, maxRetries, j);
    ReachesExactly(answers, maxRetries, j + 1);
  }

  /** A note is of the letter if it comes from the letter's part, and of the email if it comes from the email's. */
  lemma NotesByMessage(x: Instructions, maxRetries: nat, note: Note)
    ensures note in Pipeline(x, maxRetries).notes <==>
              && x.sessionFound && x.clientKnown && x.personFound
              && if note.message == Letter
                 then x.printedLetter && x.mergedPdf.Content? &&
                      note in Sending(Letter, x.letterAnswers, x.letterEvent, maxRetries).notes
                 else x.instructionsPdf.Content? && x.emailBuilt &&
                      note in Sending(Email, x.emailAnswers, x.emailEvent, maxRetries).notes
  {
    SendingOwn(Letter, x.letterAnswers, x.letterEvent, maxRetries);
    SendingOwn(Email, x.emailAnswers, x.emailEvent, maxRetries);
  }

  /**
   An email is tried if and only if the session, its client and its person are found, the instructions can be read and
   the options built; it is taken on if and only if, besides, some attempt within the limit is accepted and all before
   it are refused with 500 or 429; its event is there if and only if, besides, it is queued.
   */
  lemma EmailExactly(x: Instructions, maxRetries: nat, k: nat, id: string)
    ensures var notes := Pipeline(x, maxRetries).notes;
            var asked := x.sessionFound && x.clientKnown && x.personFound && x.instructionsPdf.Content? && x.emailBuilt;
            && (Tried(Email, k) in notes <==> asked && Reaches(x.emailAnswers, maxRetries, k))
            && (TakenOn(Email, id) in notes <==>
                  asked && exists j: nat :: Reaches(x.emailAnswers, maxRetries, j) && x.emailAnswers(j) == Accepted(id))
            && (Audited(Email) in notes <==>
                  && asked && x.emailEvent.Queued?
                  && exists j: nat :: Reaches(x.emailAnswers, maxRetries, j) && x.emailAnswers(j).Accepted?)
  {
    SendingExactly(Email, x.emailAnswers, x.emailEvent, maxRetries, k, id);
    NotesByMessage(x, maxRetries, Tried(Email, k));
    NotesByMessage(x, maxRetries, TakenOn(Email, id));
    NotesByMessage(x, maxRetries, Audited(Email));
  }

  /** The same of a letter, which is tried if and only if one was asked for and its file can be read. */
  lemma LetterExactly(x: Instructions, maxRetries: nat, k: nat, id: string)
    ensures var notes := Pipeline(x, maxRetries).notes;
            var asked := x.sessionFound && x.clientKnown && x.personFound && x.printedLetter && x.mergedPdf.Content?;
            && (Tried(Letter, k) in notes <==> asked && Reaches(x.letterAnswers, maxRetries, k))
            && (TakenOn(Letter, id) in notes <==>
                  asked && exists j: nat :: Reaches(x.letterAnswers, maxRetries, j) && x.letterAnswers(j) == Accepted(id))
            && (Audited(Letter) in notes <==>
                  && asked && x.letterEvent.Queued?
                  && exists j: nat :: Reaches(x.letterAnswers, maxRetries, j) && x.letterAnswers(j).Accepted?)
  {
    SendingExactly(Letter, x.letterAnswers, x.letterEvent, maxRetries, k, id);
    NotesByMessage(x, maxRetries, Tried(Letter, k));
    NotesByMessage(x, maxRetries, TakenOn(Letter, id));
    NotesByMessage(x, maxRetries, Audited(Letter));
  }

  /** All that is seen of the letter is seen before anything of the email, and no note is there twice. */
  lemma LetterComesFirst(x: Instructions, maxRetries: nat, i: nat, j: nat)
    requires i < j < |Pipeline(x, maxRetries).notes|
    ensures var notes := Pipeline(x, maxRetries).notes;
            && (notes[i].message == Email ==> notes[j].message == Email)
            && notes[i] != notes[j]
  {
    SendingOwn(Letter, x.letterAnswers, x.letterEvent, maxRetries);
    SendingOwn(Email, x.emailAnswers, x.emailEvent, maxRetries);
    var a, b := LetterPart(x, maxRetries).notes, EmailPart(x, maxRetries).notes;
    var notes := Pipeline(x, maxRetries).notes;
    var from := if x.printedLetter then |a| else 0;
    if i < from {
      assert notes[i] == a[i] && notes[i] in a;
    } else {
      assert notes[i] == b[i - from] && notes[i] in b && notes[j] == b[j - from];
    }
    if j < from {
      assert notes[j] == a[j];
      SendingOnce(Letter, x.letterAnswers, x.letterEvent, maxRetries, i, j);
    } else {
      assert notes[j] == b[j - from] && notes[j] in b;
      if from <= i { SendingOnce(Email, x.emailAnswers, x.emailEvent, maxRetries, i - from, j - from); }
    }
  }

  lemma SendingOnce(m: Message, answers: NotifyAnswers, event: Auditing, maxRetries: nat, i: nat, j: nat)
    requires i < j < |Sending(m, answers, event, maxRetries).notes|
    ensures Sending(m, answers, event, maxRetries).notes[i] != Sending(m, answers, event, maxRetries).notes[j]
  {
    var n := Attempts(answers, maxRetries, 0);
    TriesOwn(m, n);
    if i < n {
      TriesAt(m, n, i);
      if j < n { TriesAt(m, n, j); }
    }
  }
}
