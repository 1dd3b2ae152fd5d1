# Verification of the face-to-face (F2F) credential issuer

This project models the F2F credential issuer in Dafny and proves properties of the model. About ten
handlers move one row of a session table through its states, with no lock and no conditional write, and
talk to IPV Core, TxMA, GOV.UK Notify and Yoti as they go. What they promise together is the subject here.

`dafny verify dfyconfig.toml` verifies everything.

## How the model is laid out

**The session lifecycle.** `Protocol` splits every handler into a read, which may return an old version of
the row, and one step for each later call. Any number of handlers are in flight; each call may fail; an
update lands on whatever row is stored by then. All effects go on one trail.

- `Interleaving` proves what survives every interleaving: the shape of every reachable row, and that each
  mark follows the message it stands for.
- `Guards` proves what holds of a session while its three guarded updates (Yoti id, authorization code, access
  token) still find the state their handler checked, whatever happens to other sessions: it never goes back, and
  gets one Yoti id, one code, one token. `LostGuards` proves the converse: over every run, the guards of a session
  are held at every landing if and only if it never goes back and nothing of the three is stored for it twice.
  Either promise may be the one that breaks. `Replay` is a run in which two requests overlap and two codes and two
  tokens are handed out, without any session going back; `LostGuards.SessionGoesBack` brings an aborted session back
  to its access token, without anything stored twice.
- `Credentials` proves that the credentials of a session and its thank-you callbacks alternate when each credential
  is recorded, and that a credential repeats when recording fails once. `Notices` does the same for expiry notices
  and for reminders, which repeat when a mark behind an accepted one fails or the index is behind on a flag.
- `Versions` proves that the versions a row has had are the replays of the updates on the trail.
- `Serial` proves that handlers run one after the other keep every guard, so what guards protect holds
  whatever fails; and that jobs run by themselves keep to one notice a session.
- `Plans` says of every handler at once what it leaves behind, whatever fails: its effects are its plan up to the
  first call that stops it, and it succeeds if and only if none does. `Outcomes` writes these effects, the audit
  events among them, and the answers out for each handler. `Journey` follows one session from its opening to its
  credential.
- `Handlers` is the same handlers as the service writes them, methods of a class over a mutable table, each
  proved equal to one invocation of the protocol (`HandlerSpec`), which is one serial episode
  (`HandlerEpisode`). `ExpiryJob` and `ReminderJob` are the scheduled jobs, each again one episode, on whatever
  versions of rows the index returns (`JobEpisode`, `ReminderEpisode`). `Completion` is the session completion
  callback on its payload, guard by guard;
  `CompletionMessages` proves that it stops at the first broken guard, sends IPV Core one message at most, and is
  the protocol's completion handler; `CompletionPayload` states what its guards look at and what it leaves behind.
- `Service` puts them together: any sequence of openings, handlers, callbacks and jobs is a serial run of the
  protocol, so everything serial runs promise a session holds of the table and the queues.

**Sweeps.** `Sweep`: the query loop with its duplicate check, the age filter, exactly which sessions are selected,
why a session that moves on between two queries is not missed, and when a schedule of sweeps reaches one in time.

**Retries.** `Retry`: the loop around each Yoti call and the loop around that loop. `GovNotify`: the send
loop and the instructions pipeline, with the errors thrown at each of its calls.

**Data.** `Jwks` (cached signing keys), `Obfuscation` (audit events in logs), `Names` and `FullNames` (splitting
a full name), `Claims` and `StoredPerson` (what a session is opened with, and what becomes of it), `Evidence`
(scores and contra-indicators). `Text` holds whitespace, words and case folding.

## Reading conventions

- `Env` is what a dependency answers at one step; a `Script` gives one `Env` per call. Thrown errors that
  reach the handler's caller are `Thrown(status)`, answers are `Reply(status)`.
- A read step uses one clock reading. The expiry job's cutoff is separate from the time at which a record
  was found unexpired.
- The session lifetime is the 21 days that every deployed environment configures.
- In the interleaved model an index lookup may return any version of any row that matched at some time;
  in the serial model a handler's lookup returns the row that matches now, and fails unless exactly one does,
  while the queries of the expiry job may return any version a row has had.
- When a query for an authorization code itself fails, the access token handler answers 401 and not 500: the
  error is not one of its own.
- Where code and its messages or comments differ, the code is followed. The completion callback checks for
  F2F_YOTI_SESSION_COMPLETE although its refusal names F2F_POST_OFFICE_VISITED;
  `authorizationCodeExpiryDate` is written but no handler reads it, so an authorization code does not
  expire in the model; no handler writes F2F_SESSION_ABORTED, which is proved never to occur.

## Model

| member | source | states |
|---|---|---|
| Interleaving.ReachableRows | src/services/F2fService.ts:322-405 | With any handlers in flight, stale reads and failures: every version of every row satisfies the row invariants, and what one version says about leaving CREATED or being flagged every later version says too |
| Interleaving.SentBeforeMarked | src/services/PostOfficeVisitProcessor.ts:185-200 | On every reachable trail CREDENTIAL_ISSUED comes after an accepted credential, that after YOTI_SESSION_COMPLETE, and that after F2F_DOCUMENT_UPLOADED; a Yoti id after its letter state machine, a reminder flag after the reminder, a code handed out after the code was stored, a token handed out after it was recorded |
| Interleaving.AuditsReportFacts | src/services/DocumentSelectionRequestProcessor.ts:176-300 | On every reachable trail every audit event comes after what it reports: F2F_YOTI_START after the Yoti id and the document are stored, the code and end events after the code is stored, the upload event after the Yoti id, F2F_YOTI_RESPONSE_RECEIVED after YOTI_SESSION_COMPLETE, F2F_CRI_VC_ISSUED after the credential, the abort event after the aborted state |
| Interleaving.UpdatesHaveGrounds | src/services/F2fService.ts:322-405 | On every reachable trail a code, a branch visit, a notice, a reminder and a mark come after a stored Yoti id, a token after a stored code, and only four states are ever written as such |
| Interleaving.RowsAreBacked | src/services/YotiSessionCompletionProcessor.ts:352-371 | Whatever a reachable row says was sent is on the trail |
| Interleaving.GroundedOk | src/services/F2fService.ts:525-543 | An unconditional update keeps the row invariants on any later version of the row the handler read, not only on that version |
| Interleaving.NextKeepsInv | src/services/F2fService.ts:134-160 | Every step of every handler keeps the invariant relating in-flight snapshots, rows and trail |
| Guards.HeldIffRaises | src/services/AuthorizationRequestProcessor.ts:59-63 | Where a session has not gone back, a guarded update of it finds the state its handler checked exactly when it moves the session strictly forward |
| Guards.AllHeldIffAllRaise | src/services/DocumentSelectionRequestProcessor.ts:166-187 | The same over whole runs, landing by landing: the guards of a session hold at every landing if and only if every guarded landing moves it strictly forward |
| Guards.UpdateOnward | src/services/F2fService.ts:343-405 | An update whose guard holds never lowers the rank of its session and never replaces a Yoti id |
| Guards.HandedOnce | src/services/AccessTokenRequestProcessor.ts:101-175 | In any interleaving in which the guards of a session are held at every landing, whatever happens to others, it never goes back, its Yoti id is stored once, and it is handed one code and one token at most |
| LostGuards.HeldExactly | src/services/F2fService.ts:134-160 | In every run, whatever interleaves and fails: the guards of a session are held at every landing if and only if it has not gone back and has not been stored a Yoti id, a code or a token twice |
| LostGuards.HeldEverywhere | src/services/F2fService.ts:343-405 | All guards are held at every landing if and only if both promises are kept about every session |
| LostGuards.SessionGoesBack | src/services/AbortRequestProcessor.ts:63-82 | From any world with a session that awaits its token: an abort that lands between the read of the token request and its update leaves the session aborted and then back in ACCESS_TOKEN_ISSUED, with only one token stored |
| Replay.HandedTwice | src/services/AuthorizationRequestProcessor.ts:59-63 | A concrete run, in which a guard is lost, that hands one session two codes and two tokens, although the session never goes back |
| Credentials.CredentialsAlternate | src/services/YotiSessionCompletionProcessor.ts:238-371 | When credentials of a session go out one at a time, while still awaited, and are recorded: never more of them than processed thank-you callbacks, and such a callback between any two, whatever else overwrites the state and whatever happens to other sessions |
| Credentials.UnrecordedCredentialRepeats | src/services/YotiSessionCompletionProcessor.ts:366-371 | From any world in which a session awaits its credential, one callback whose last update fails and another one issue two credentials with nothing between them |
| Notices.NoticedAtMostOnce | src/services/ExpiredSessionsProcessor.ts:51-98 | Expiry notices and reminders: in any interleaving in which the job's handlers of a session do not overlap, read its current flag once it has been sent one, and mark it behind one that was accepted, it is sent one at most, although callbacks may move it back into a state the job queries; `Serial` and `Service` derive this discipline for the jobs |
| Notices.UnmarkedNoticeRepeats | src/services/ReminderEmailProcessor.ts:75-91 | From any world with an unflagged session in a state the job queries, one accepted notice or reminder whose mark fails is followed by a second one |
| Notices.StaleNoticeRepeats | src/services/F2fService.ts:274-299 | From any world in which some version of a row is unflagged and in a state the job queries, two runs that read that version send two, although every mark succeeds |
| Versions.VersionsAreReplays | src/services/F2fService.ts:525-543 | In every run a row has had a version if and only if replaying the updates on the trail up to some event gives it, and replaying them all gives the row as it stands |
| Serial.SerialHolds | src/services/F2fService.ts:55-132 | A serial run is a run of the protocol in which every guard still holds when its update lands |
| Serial.SerialHandedOnce | src/services/AccessTokenRequestProcessor.ts:101-175 | In every serial run, whatever fails, a session never goes back, and gets one Yoti id, one code and one token at most |
| Serial.SerialCredentialsAlternate | src/services/PostOfficeVisitProcessor.ts:113-200 | In every serial run that records what it issues a session, its credentials and thank-you callbacks alternate |
| Serial.SerialNoticedOnce | src/services/ExpiredSessionsProcessor.ts:51-98 | In every serial run whose job reads the current flag of a session that has been sent a notice, and marks it behind an accepted one, whatever else fails, the session is sent one at most; the same for reminders |
| HandlerEpisode.HandleIsEpisode | src/services/DocumentSelectionRequestProcessor.ts:166-300 | One invocation of any handler, with any answers, is one serial episode with the same rows and the same trail, which records its credential if the invocation does |
| Handlers.F2fService.Find | src/services/F2fService.ts:107-132 | Returns a session if and only if it is the only one whose row matches the lookup |
| Handlers.F2fService.Update | src/services/F2fService.ts:525-543 | An accepted update rewrites that row only and is recorded; a failed one changes nothing |
| Handlers.F2fService.CreateSession | src/services/SessionRequestProcessor.ts:167-210 | A fresh identifier gets a row in the first state, created now, unflagged, expiring after 21 days; a failed lookup, a taken identifier or a failed session write leaves the table alone; a failed person write is refused with 500 and leaves the session behind |
| Handlers.F2fService.Process | src/services/F2fService.ts:55-132 | Every handler, on the row its lookup finds, does exactly what one invocation of the protocol does; when none is found or the lookup fails nothing changes, and which status each handler then answers or throws |
| Handlers.F2fService.ProcessDocumentSelection | src/services/DocumentSelectionRequestProcessor.ts:147-300 | The first guarded transition, from its guard to its audit event, equals the invocation of which `Outcomes.SelectionOutcome` states every event and answer |
| Handlers.F2fService.ProcessAuthorization | src/services/AuthorizationRequestProcessor.ts:42-123 | The code is stored before either event and handed out last; a wrong state is refused |
| Handlers.F2fService.ProcessAccessToken | src/services/AccessTokenRequestProcessor.ts:59-182 | The code is consumed by the update after which the token is returned |
| Handlers.F2fService.ProcessFirstBranchVisit | src/services/PostOfficeVisitProcessor.ts:84-119 | The state is overwritten from anywhere |
| Handlers.F2fService.ProcessThankYouEmail | src/services/PostOfficeVisitProcessor.ts:121-205 | Yoti is asked, then the event is sent, then the state overwritten; a failure stops the rest |
| Handlers.F2fService.ProcessAbort | src/services/AbortRequestProcessor.ts:46-107 | Aborting twice changes nothing the second time; otherwise the state is overwritten, then the event sent |
| Plans.HandlerKeepsToPlan | src/services/DocumentSelectionRequestProcessor.ts:166-303 | For every request, row and answer of every call: all effects, audit events included, are the prefix of the handler's plan up to the first call that stops it, followed by a report at most; the answer is that call's; the row changes as the effects say, no other session is touched, and the answer is success if and only if the handler starts and no call stops it, or an abort finds the session aborted |
| Outcomes.SelectionOutcome | src/services/DocumentSelectionRequestProcessor.ts:147-303 | A document selection, whatever its calls answer: exactly these events, with F2F_YOTI_START last and only if accepted, up to the first call that fails, and exactly this answer |
| Outcomes.AuthorizationOutcome | src/services/AuthorizationRequestProcessor.ts:42-123 | An authorization: the stored code, its event, the end event, each event only if accepted, and the code handed out; or nothing and a refusal |
| Outcomes.TokenOutcome | src/services/AccessTokenRequestProcessor.ts:59-182 | A token request: the update and the token, or nothing and which refusal; no audit event |
| Outcomes.VisitOutcome | src/services/PostOfficeVisitProcessor.ts:84-119 | A first branch visit: the overwritten state alone, or nothing |
| Outcomes.UploadOutcome | src/services/PostOfficeVisitProcessor.ts:121-205 | A thank-you callback: the upload event and then the state, the event alone, or nothing |
| Outcomes.AbortOutcome | src/services/AbortRequestProcessor.ts:46-107 | An abort: the state, then its event if accepted; nothing and success on a session aborted already; or nothing and an error |
| Outcomes.CompletionOutcome | src/services/YotiSessionCompletionProcessor.ts:123-384 | A completion once its guards are answered: the received event, the credential, the issued event, the state, each audit event only if accepted, up to the first call that fails; or the report and the answer of the guard that stops it |
| Outcomes.SuccessRow | src/services/F2fService.ts:322-405 | The row every successful request leaves, field by field, and no other row changed |
| Journey.JourneySucceeds | src/services/F2fService.ts:55-405 | On any table, a new session whose six requests' calls succeed, but for those whose failure is only logged, is found every time, ends with its credential issued and exactly the stated row, and adds exactly the stated events to the trail, in order |
| Service.UseIsSerial | src/services/F2fService.ts:55-405 | Any sequence of openings, handler invocations, completion callbacks, expiry jobs and reminder jobs, on any versions of rows the index returns, is a serial run of the protocol that ends in the same table and trail and keeps the discipline the sequence keeps on a session |
| Service.UseMovesOnward | src/services/DocumentSelectionRequestProcessor.ts:166-187 | In any such sequence, whatever fails, a session's rank never falls and a Yoti id once stored stays |
| Service.UseHandsOnce | src/services/AccessTokenRequestProcessor.ts:101-175 | In any such sequence a session is handed one code and one token at most, its Yoti id is stored once, and its row keeps the invariants |
| Service.UseCredentialsAlternate | src/services/YotiSessionCompletionProcessor.ts:352-376 | In any such sequence in which every callback that sends a credential for a session also records it, whatever else fails, a thank-you callback stands between any two of its credentials, and there are never more credentials than those |
| Service.UseNotifiesOnce | src/services/ExpiredSessionsProcessor.ts:51-98 | In any such sequence in which the job marks a session behind each notice it is sent, and the index is not behind on its flag by then, whatever else fails, the session is sent one expiry notice at most, and likewise one reminder |
| Service.FreshUseNotifiesOnce | src/services/ReminderEmailProcessor.ts:75-91 | Over indexes that are up to date it is enough that each accepted notice, or reminder, of the session is followed by its mark |
| Sweep.GetSessions | src/services/F2fService.ts:274-299 | The nested loop with its set of identifiers returns each session the first time it is seen unexpired, for arbitrary query results and a clock read at every item |
| Sweep.CollectedExactly | src/services/F2fService.ts:274-299 | At a fixed time: no session twice, and exactly those some query returned unexpired |
| Sweep.FirstByIdOrder | src/services/F2fService.ts:290-295 | Sessions come in the order in which they were first seen, each as first seen |
| Sweep.SweptExactly | src/services/ExpiredSessionsProcessor.ts:45-54 | An item is selected if and only if it is the first of its session found unexpired, is unflagged, and was created at least the configured days and one more ago, for a reminder five days ago, counted in seconds |
| Sweep.SweptInOrder | src/services/ReminderEmailProcessor.ts:40-43 | What is selected comes in the order in which the queries returned it |
| Sweep.SweepInTimeSelects | src/services/ExpiredSessionsProcessor.ts:50-54 | A sweep between due moment and expiry date selects an unflagged session its queries return, whatever else they return |
| Sweep.SweepsCover | src/services/ExpiredSessionsProcessor.ts:31-54 | If the longest gap between sweeps and the longest sweep fit between due moment and expiry date, to the second, a session the queries keep returning unflagged is selected before it expires |
| Sweep.QueriesNeverMiss | src/services/F2fService.ts:274-299 | The queries are made one after the other; over a complete index a session that stays in the states asked for and only moves forward is returned by one of them, whenever it moves |
| Sweep.CompleteSweepsCover | src/services/ExpiredSessionsProcessor.ts:31-54 | So over a complete index every regular schedule whose gap and sweep fit selects such a session before it expires |
| Sweep.RegularCoversIffGapFits | src/services/DocumentSelectionRequestProcessor.ts:189-191 | Every schedule with a given longest gap reaches a session in time if and only if the gap fits |
| ExpiryJob.ExpiredSessionsProcessor.SendNotices | src/services/ExpiredSessionsProcessor.ts:65-82 | One notice is tried for each session, in order; a failure does not stop the others |
| ExpiryJob.ExpiredSessionsProcessor.MarkSessions | src/services/ExpiredSessionsProcessor.ts:88-98 | One mark is tried for each session after all notices, whether its notice was accepted or not |
| ExpiryJob.ExpiredSessionsProcessor.ProcessRequest | src/services/ExpiredSessionsProcessor.ts:31-112 | The job's effects, every one of them a notice or a mark of a session that a query returned unexpired and unflagged and that is past its days and one more; the cases in which it does nothing, and which of those it reports as an error |
| ExpiryJob.OnlyDueAreExpired | src/services/ExpiredSessionsProcessor.ts:50-54 | No session that is not yet due is told of or marked, whatever the queries return and whatever fails |
| ExpiryJob.DueAreExpired | src/services/ExpiredSessionsProcessor.ts:50-98 | Of every session that is due a notice and a mark are tried: each is on the trail if and only if its call is accepted, and the row is expired and flagged if and only if the mark is |
| ExpiryJob.SelectsAgainExactly | src/services/ExpiredSessionsProcessor.ts:65-98 | After a run of the job a session it worked on would be selected again if and only if its mark failed, whatever became of its notice |
| ReminderJob.ReminderEmailProcessor.FetchUsers | src/services/ReminderEmailProcessor.ts:52-69 | Whose person is found, and whether some reading threw |
| ReminderJob.ReminderEmailProcessor.ProcessRequest | src/services/ReminderEmailProcessor.ts:31-103 | The job's effects and answer: each reminder and the flag behind it on their own, all of sessions that a query returned unexpired and unflagged and that are five days old, failed readings left out, and 500 exactly when a query failed or a reading threw |
| ReminderJob.OnlyOldAreReminded | src/services/ReminderEmailProcessor.ts:40-43 | No session younger than five days is reminded or flagged, whatever the queries return and whatever fails |
| ReminderJob.OldAreReminded | src/services/ReminderEmailProcessor.ts:40-91 | Every session old enough is reminded if and only if its person is read and the reminder accepted, and flagged if and only if the update behind it is accepted too |
| ReminderJob.RemindsAgainExactly | src/services/ReminderEmailProcessor.ts:75-91 | After a run of the job a session it worked on would be selected again if and only if one of its three calls failed |
| JobEpisode.JobIsEpisode | src/services/ExpiredSessionsProcessor.ts:65-98 | One run of the job over any number of distinct sessions, each with any version its row has had, is one serial episode with the same rows and trail, which keeps the marks of a session if its own mark succeeds behind an accepted or an earlier notice and the flag read is current |
| JobEpisode.SweepWorks | src/services/F2fService.ts:274-299 | Whatever versions the queries return, however often, a job selects distinct sessions with unflagged and old enough versions, in a state asked for, that their rows have had |
| ReminderEpisode.RemindersAreEpisode | src/services/ReminderEmailProcessor.ts:52-93 | One run of the reminder job over any number of distinct sessions, each with any version its row has had, is one serial episode with the same rows and trail |
| Retry.MakeRetryableYotiRequest | src/services/YotiService.ts:321-365 | Over any stream of answers: stops at the first answer that is not a 429 or 5xx error, or after the maximum; the result, the number of calls and the total sleep are exact |
| Retry.StopsOnce | src/services/YotiService.ts:327-364 | There is one place only at which the loop can stop |
| Retry.SleptIs | src/services/YotiService.ts:353-354 | The sleeps of k retries add up to backoff times k(k - 1)/2 |
| Retry.FetchInstructionsPdf | src/services/SendEmailService.ts:404-470 | The loop around the loop makes exactly the calls and sleeps of its recursive specification, and never runs past its end |
| Retry.FirstSuccess | src/services/SendEmailService.ts:426-435 | The fetch ends with the first success among its calls, and succeeds if there is one |
| Retry.FetchBounds | src/services/SendEmailService.ts:404-470 | At most (M+1)(N+1) calls; exactly so many, and M outer sleeps plus (M+1) inner series, when every call fails retryably |
| Retry.UnretryableIsRetried | src/services/SendEmailService.ts:441-460 | An unretryable inner failure has status 500, so the outer loop makes M+1 calls all the same |
| Retry.UnsignedIsRetried | src/services/SendEmailService.ts:417-460 | An attempt whose request cannot be signed costs one retry and one pause of the outer loop, and no call |
| GovNotify.SendWithRetries | src/services/SendToGovNotifyService.ts:325-411 | Stops at the first answer that is not status 500 or 429, or after M+1 attempts; the result, the attempts and the sleep are exact |
| GovNotify.SendToGovNotifyService.SendYotiInstructions | src/services/SendToGovNotifyService.ts:106-241 | What is tried, accepted and audited, in order, and the reply, for every combination of lookups, files, answers and errors thrown; and the total sleep is at most that of two clamped loops |
| GovNotify.LetterNeverBlocks | src/services/SendToGovNotifyService.ts:156-222 | Two runs that differ in everything about the letter, whatever it throws, show the same email attempts, acceptance and event and the same reply, and these are those of the email alone |
| GovNotify.UncaughtLetterBlocks | src/services/SendToGovNotifyService.ts:156-180 | Without the catch around the letter the email and the reply stay as they are if and only if no letter is asked for or it throws nothing, otherwise nothing of the email is seen; a letter throws exactly when its file cannot be fetched, or can but is never accepted or its event not built |
| GovNotify.RepliesExactly | src/services/SendToGovNotifyService.ts:212-241 | The reply names an email if and only if it was accepted and its event built, so an accepted email is reported as not sent exactly when its event is not built |
| GovNotify.EmailExactly | src/services/SendToGovNotifyService.ts:182-222 | The email is tried if and only if session, client and person are found, the instructions can be read and the options built; attempt k is made if and only if, besides, all before it are refused with 500 or 429; it is taken on if and only if an attempt made is accepted, and its event is there if and only if it is also queued |
| GovNotify.LetterExactly | src/services/SendToGovNotifyService.ts:156-180 | The same of the letter, which is tried if and only if one is asked for and its file can be read |
| GovNotify.LetterComesFirst | src/services/SendToGovNotifyService.ts:154-222 | Nothing of the email is seen before anything of the letter, and nothing is seen twice |
| GovNotify.EventsFollowAcceptance | src/services/SendToGovNotifyService.ts:325-455 | Of each kind of message: the attempts in order, at most M+1, then at most one acceptance, of the last attempt, then at most one audit event right behind it |
| Jwks.KmsJwtAdapter.SigningKey | src/utils/KmsJwtAdapter.ts:91-106 | The cache fields and the key returned after one call, a failing fetch and a response without keys included |
| Jwks.KeysAreFresh | src/utils/KmsJwtAdapter.ts:91-106 | Over every sequence of calls a key comes from the last fetched set, which is its own fetch or at most as old as its response allowed |
| Jwks.FetchesSpaced | src/utils/KmsJwtAdapter.ts:92-101 | Any two fetches are further apart than the earlier response's lifetime, if that response had a key set |
| Jwks.NoKeySetRefetches | src/utils/KmsJwtAdapter.ts:92-95 | A response without a key set is not cached: the next call that is answered fetches again |
| Jwks.SameAsUncached | src/utils/KmsJwtAdapter.ts:92-106 | While the published set is what it was at the last fetch, the key is the one an uncached lookup gives |
| Jwks.LookupIs | src/utils/KmsJwtAdapter.ts:102-106 | The key given is the first with the identifier asked for, and none is given if and only if no key has it |
| Jwks.MaxAgeReads | src/utils/KmsJwtAdapter.ts:98-100 | A header whose first max-age with a digit behind it is followed by the decimal digits of n keeps keys for n seconds, or 300 when n is 0 |
| Jwks.MaxAgeDefaults | src/utils/KmsJwtAdapter.ts:98-100 | Without such a place in the header, or without a header, keys are kept for 300 seconds |
| Jwks.UnwrapKey | src/utils/KmsJwtAdapter.ts:151-190 | The content key comes from the first alias that unwraps it, then from the legacy key, and otherwise there is none |
| Jwks.FirstPlaintextIs | src/utils/KmsJwtAdapter.ts:152-168 | The key that unwraps is that of the first alias for which the service has an answer, and there is none only if it has none for any |
| Obfuscation.RevealsExactly | src/services/F2fService.ts:162-182 | Two events have the same obfuscation if and only if they differ in hidden values only |
| Obfuscation.ObfuscatesExactly | src/services/F2fService.ts:162-182 | The obfuscation is the one event that differs from the original in hidden values only and has three asterisks, or nothing, in place of every hidden value |
| Obfuscation.Composes | src/services/F2fService.ts:162-182 | Obfuscating with a longer list of shown keys before or after a shorter one is the same as with the shorter one |
| Obfuscation.ObfuscateKeeps | src/services/F2fService.ts:162-182 | Obfuscating twice is obfuscating once; shape, keys, empty places and shown values are kept |
| Names.FamilyIsRemainder | src/utils/PersonIdentityUtils.ts:27-40 | Whenever names come back, the family name is what follows the given names, trimmed, in the document's casing |
| Names.NamesReassemble | src/utils/PersonIdentityUtils.ts:19-40 | When the family name does not stand in the full name before its own place, the parts give back the words of the full name in order |
| Names.ReassemblesExactly | src/utils/PersonIdentityUtils.ts:26-40 | Whatever casing the document uses, the parts give back the words of the full name if and only if there is a given name and the family name stands nowhere before its own place |
| Names.EarlierFamilyNameBreaks | src/utils/PersonIdentityUtils.ts:34-36 | For every family name and every given name that starts with it, the given names come back wrong |
| FullNames.NamesComeBackExactly | src/utils/PersonIdentityUtils.ts:19-40 | For all lists of names and every full name: names come back if and only if the full name is single-spaced and has the words of the given names and then of the family names, whatever the casing, and everything else is a mismatch; the last part is the family name, with the last words of the full name as the document writes them |
| FullNames.GivenNamesComeBack | src/utils/PersonIdentityUtils.ts:34-37 | When the family name stands in the full name only at its end, the parts before it are the first words of the full name, one given name each, as the document writes them |
| Claims.ValidAddress | src/utils/ValidationHelper.ts:215-221 | An address is valid if and only if it names or numbers a building; the street never matters |
| Claims.IsPersonNameValid | src/utils/ValidationHelper.ts:126-156 | The flag-and-break loop accepts exactly a non-empty list of names each with a usable given and family name |
| Claims.IsAddressFormatValid | src/utils/ValidationHelper.ts:157-185 | Accepts exactly a non-empty list of GB addresses that name or number a building; otherwise the first address at fault decides the message |
| Claims.FirstCurrentIs | src/utils/ValidationHelper.ts:188-195 | The preferred address is this one if and only if it is the first whose validUntil is absent or empty, and there is none if and only if no address is like that |
| Claims.OpenSession | src/services/SessionRequestProcessor.ts:73-224 | A session is opened if and only if client, token and its dates are as stated, the claims are valid, an address is left to store and the tables answer; the status of a refusal, and exactly when it leaves a session without a person behind; the address stored is, but for being preferred, the only one or the first of several whose validUntil is absent or empty |
| Claims.IsJwtValid | src/utils/ValidationHelper.ts:87-105 | A token is valid exactly when it is complete, used between its two dates, and names the client, the response type and the redirect address expected |
| Claims.PersonRow.SaveUserPdfPreferences | src/services/F2fService.ts:473-523 | The stored addresses and preference after one change, a failed write included |
| Claims.PreferencesExtend | src/services/F2fService.ts:479-497 | Over any sequence of changes addresses are only added at the end, and the first keeps everything but its preference |
| StoredPerson.PreferencesExactly | src/services/F2fService.ts:473-523 | After any sequence of changes: the preference accepted last, and behind the addresses there were the postal addresses of accepted letter requests, but for the number of the first address, in order; the first is no longer preferred if and only if there is one of those |
| Claims.GetNames | src/utils/PersonIdentityUtils.ts:43-60 | The nested loops collect the given names and the family names of all names in order |
| StoredPerson.AllPartsExactly | src/utils/PersonIdentityUtils.ts:43-60 | The values collected are those of the parts of the kind asked for and no others, each at the place given by how many such parts come before it |
| Claims.FirstLineNotBlank | src/utils/PersonIdentityUtils.ts:105-126 | A valid address has address lines, and the first is not blank |
| StoredPerson.LinesInWords | src/utils/PersonIdentityUtils.ts:105-126 | The words of the two address lines: a named building first, with number and street behind it, or number and street alone, an absent one reading undefined |
| StoredPerson.ProfileExactly | src/services/YotiService.ts:74-92 | When a profile can be built, and the words of its name, its date and its lines |
| Claims.AcceptedStaysUsable | src/services/YotiService.ts:74-92 | After any changes of preference, accepted claims still give both kinds of name, and the profile can be built if and only if there is a birth date |
| Evidence.FirstIs | src/services/GenerateVerifiableCredential.ts:347-348 | The check found for a type is the first of that type, and none is found only if there is none |
| Evidence.AttachedIsScored | src/services/GenerateVerifiableCredential.ts:66-94 | A document that can be attached can be scored: 4 with a valid chip, 3 without |
| Evidence.DocumentExactly | src/services/GenerateVerifiableCredential.ts:239-320 | Which document is attached, and which of the fields read goes where in it |
| Evidence.RejectionsExactly | src/services/GenerateVerifiableCredential.ts:127-201 | Which rejection reasons of which check are reported as V01, D14, D16 and F03, and that no others are |
| Evidence.GetContraIndicator | src/services/GenerateVerifiableCredential.ts:127-201 | Every mapped rejection is reported, the face match first, and the list of indicators is the projection of the reasons |
| Evidence.CollectEvidence | src/services/GenerateVerifiableCredential.ts:431-490 | Scores, indicators and details in terms of the two recommendations; exactly one of checkDetails and failedCheckDetails, the former if and only if both are APPROVE |
| Evidence.ObstacleExactly | src/services/GenerateVerifiableCredential.ts:347-390 | Among the five mandatory checks, the first of each type: a missing report is an obstacle before a missing check, that before an incomplete one, and the document comes last |
| Evidence.GetVerifiedCredentialInformation | src/services/GenerateVerifiableCredential.ts:324-497 | Succeeds exactly when the first check of each mandatory type has a report and is DONE and the document can be attached; otherwise the first obstacle decides the error |
| Completion.YotiSessionCompletionProcessor.ProcessRequest | src/services/YotiSessionCompletionProcessor.ts:97-384 | The callback's effects and answer for every payload and every answer of its dependencies |
| CompletionPayload.AuthenticityCheckIs | src/services/YotiSessionCompletionProcessor.ts:186-188 | The authenticity check looked at is the first one listed, and there is none only if none is listed |
| CompletionPayload.UsedIs | src/services/YotiSessionCompletionProcessor.ts:196-221 | The document whose fields are fetched is the first listed with the identifier that check names first |
| CompletionPayload.NamesFitExactly | src/services/YotiSessionCompletionProcessor.ts:283-302 | When stored names are needed, the callback goes on if and only if the full name is single-spaced with their words in order, whatever the casing; otherwise it reports a mismatch |
| CompletionPayload.PassedLeaves | src/services/YotiSessionCompletionProcessor.ts:238-384 | A callback whose guards all hold: exactly its events, audit events included, its row and its answer, by the first call that fails |
| CompletionPayload.StoppedLeaves | src/services/YotiSessionCompletionProcessor.ts:97-350 | A callback stopped by a guard leaves the table alone and adds the guard's report, if it can be sent, behind the received event if the guard comes after it, and nothing else |
| CompletionMessages.StopsAtFirstBroken | src/services/YotiSessionCompletionProcessor.ts:97-350 | The callback goes on to its credential if and only if all twenty-one guards hold, and stops with a report and an answer if and only if they are those of the first guard that is broken |
| CompletionMessages.OneMessage | src/services/YotiSessionCompletionProcessor.ts:352-511 | One message to IPV Core at most, never both kinds; a credential if and only if every guard holds and the queue accepts it; the table changes only after that |
| CompletionMessages.IssuesAgainExactly | src/services/YotiSessionCompletionProcessor.ts:352-371 | After a callback whose credential is accepted, some further callback can go on to a credential of its own if and only if the first did not record its own |
| CompletionMessages.CompletedIsHandle | src/services/YotiSessionCompletionProcessor.ts:97-384 | The callback does what one invocation of the protocol's completion handler does, for suitable answers |

## Left out

- Names.ReassemblesExactly: for a family name with a letter from A to Z; without such a letter a document has no choice of casing for it, and an earlier family name may do no harm (as in "8 8 8").
- Handlers.F2fService.Process: what a handler checks before its first read (body, headers, missing identifiers) is not modelled; it does not touch the table.
- JobEpisode.JobIsEpisode: orders the calls of each round by session; other orders are in the interleaved model, where the barrier between notices and marks is dropped.
- ExpiryJob.ExpiredSessionsProcessor.ProcessRequest: asks that every record the queries return has a row in the table, since rows are not deleted in the model.
- Retry.FetchInstructionsPdf: assumes that no successful response is empty; an empty one never advances the counter at src/services/SendEmailService.ts:430-435, and the loop would not end.
- Retry.MakeRetryableYotiRequest: settings are non-negative integers; with others the loop makes no call and returns nothing.
- GovNotify.SendToGovNotifyService.SendYotiInstructions: settings are non-negative integers here too.
- Names.FamilyIsRemainder: names are taken literally, although the source puts them into a regular expression, and letters fold one by one.
- Jwks.SameAsUncached: one endpoint; the cache of the source is shared by all endpoints it is called with.
- Claims.OpenSession: a body that is not JSON is not modelled, and decryption and signature succeed or fail; `Jwks` covers the key lookup.
- ReminderJob.ReminderEmailProcessor.ProcessRequest: asks that every record the query returns has a row in the table, as the expiry job does; when a reading threw, sends still under way at the answer are taken to succeed or fail like others.
- Completion.YotiSessionCompletionProcessor.ProcessRequest: payloads that lack other members the callback reads (resources, checks, the list of resources used) are not modelled.
- Writes to the person table, other than preferences: they succeed or fail, and nothing else of them is seen.
- Expiry of rows by the table itself, between a read and a write or otherwise, and the paging of query results.
- Two sessions with one identifier: identifiers are fresh when a session is created.
- Message wording: reasons reported to IPV Core are symbols, except the text of a caught error.
- The street name cut out of an address line by a pattern, and the names of the source's metrics and logs.
- Base64, JSON, signatures, encryption, PDF files, S3 and HTTP: each succeeds or fails.
- Whitespace other than space, tab, newline and carriage return, and case folding beyond A to Z.
- The table of European driving licence countries, which is a parameter of the evidence model.
