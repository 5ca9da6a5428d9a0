# Verification of easy-send

easy-send moves files between devices of a local network: devices announce themselves over UDP, a
sender asks the receiver's user for approval, and the files follow over HTTPS, one request each.
There are two implementations of the protocol, a Rust core used by the app and a Go command-line
peer written to cross-check the specification. This project models the protocol parts of both and
proves what they keep.

`dafny verify dfyconfig.toml` checks everything.

## Modules

The receiver, and what it guarantees under any interleaving of its handlers:

- `Receiving` is the receiver as a machine. The handlers share one state under a mutex and release
  it while they wait for the user or for the body; each lock-held region and each file operation is
  one action, timeouts and failures are actions of their own, and a history records what was asked,
  approved, opened, accepted and saved.
- `Receiver` is the same as an object whose methods are the regions of the source; each method is
  proved to be one action of the machine.
- `ReceiverInvariant` proves the invariant of all runs, `Folder` what follows for the save folder
  (no overwriting, conservation, provenance), `OneSession` the one-session rule and exactly when it
  fails, `CreateRace` exactly when resolving and creating a name in two steps matters.
- `Replies` says what is answered to whom, over whole runs, and what an approval records.
- `Collision` is the choice of a free name, in both implementations.

The protocol across machines:

- `Delivery` runs a sender's job against the receiver with messages in between: end-to-end delivery
  and the prefix theorem. `Completion` shows that a job can succeed exactly when it has a file,
  `Cancelling` follows the cancel of a job that does not, `Report` shows that the app is told how
  the job ended.
- `GoReceiving` and `GoReceiver` are the Go receiver; `Simulation` relates it to the Rust one.
- `SendJob` is the event stream of a job with its progress arithmetic, `Controller` its fold in the
  app. `Sse` and `SseCursor` are the encoding by which events and requests cross into the app,
  `SseLayout` its bytes.
- `Query` is the query string, as both senders print it and the receiver reads it.

Discovery and trust:

- `Discovery` is the table of devices with its expiry, `Notification` the way changes reach the
  app, `Sockets` the recovery of the socket. `Trust` is the list of approved devices.
- `Text`, `Utf8`, `Protocol` and `Api` hold what the others share.

## What the code does not keep

Some promises hold only under a condition. The lemmas named here state it, as an if-and-only-if
unless the line says otherwise, and give a concrete run or input that breaks the promise without it:

- One session at a time (the 409 rule). The error path of an upload sets the state to Idle without
  looking whose it is. The rule holds over a run if and only if no failed upload completes while
  a request is pending (`OneSession.RuleOverRuns`); `OneSession.LateFailureReplacesSession` is a
  run in which a live session is overwritten.
- Files of a session. The completion path counts a file in whatever session is live by then. Up to
  the first late completion a closed session is complete if and only if an upload of its own closed
  it (`OneSession.ClosesCompleteExactly`); `OneSession.LateCompletionClosesSession` closes one none
  of whose files was saved.
- No overwriting. The check for a free name and the creation of the file are two steps.
  `CreateRace.OverwritesExactly` says when a file is truncated, `CreateRace.RemovesOthersExactly`
  when a failed upload removes another's; `CreateRace.TwoUploadsOneName` and
  `CreateRace.FailedUploadRemovesOther` show both.
- The two receivers differ, exactly (`Simulation.StepRelates`), on requests without files, repeated
  uploads, bodies of another length than announced, taken names whose last dot is their first
  character, names that end in a dot component or have no component (`Collision.StoredAlikeExactly`:
  "..", say, is "unnamed" to one and numbered by the other), and uploads that complete late, into
  a pending request with nothing of the earlier session left or into a session that reaches its
  count with a foreign file.
- Change notification. Once no emission is pending, the list shown is the table if and only if no
  direct `devices()` call dropped an entry, provided the emission that took its snapshot last also
  stored and sent last (`Notification.QuietAgreement`; the proviso goes one way only, since an
  overtaken list can be the same by accident). `Notification.SilentQuery` breaks the first,
  `Notification.TwoUnderWay` with `Notification.OvertakingEndsWrong` the second.
- Socket recovery fails for good if and only if the slot holds a socket whose loop is over and no
  announcer holds a better one (`Sockets.RecoversInEveryRun`): when a socket dies within its own
  bind or two announcements bind at once (`Sockets.DiesBeforePublished`, `Sockets.TwoBindersCross`).
- The progress subtraction underflows if and only if the first chunk of a file does not get past
  what was reported for the files before (`SendJob.UnderflowsExactly`), which takes a file that
  grew after it was measured (`SendJob.GrowthUnderflows`).
- The comment on `url_decode` says undoing %XX and + is enough for the values sent. That is true
  (`Query.RustQueryReadExactly`), but the function also accepts "%+h", and panics if and only if
  some percent sign is followed by two bytes that cut a character (`Query.PanicsExactly`,
  `Query.PanicsOnText`).

## Reading the model

Requests are parsed values, bodies are byte sequences delivered in chunks, the folder is a map from
names to contents, fingerprints are opaque strings, clocks are natural numbers. Random ids are
inputs constrained to be fresh and non-empty. Losses, failures, timeouts and the user's answers are
nondeterministic actions, so a theorem about every run is a theorem about all of them.

## Model

| member | source | states |
|---|---|---|
| `ReceiverInvariant.StepKeeps` | app/rust/src/core/transfer/recv.rs:159-295 | every action of every handler, from any state, keeps the invariant: sessions, tickets, replies and history justify each other, an in-flight file holds exactly what was received, targets and saved files are pairwise different |
| `ReceiverInvariant.InvAlways` | app/rust/src/core/transfer/recv.rs:159-295 | the invariant holds in every state of every run, whatever the interleaving |
| `ReceiverInvariant.Elsewhere` | app/rust/src/core/transfer/recv.rs:159-295 | a lock-held region of one request changes nothing about any other request: not its waiting prepare, its upload or its reply |
| `ReceiverInvariant.LogGrows` | app/rust/src/core/transfer/recv.rs:159-295 | history is append-only |
| `ReceiverInvariant.TargetIsFree` | app/rust/src/core/transfer/recv.rs:298-304 | the path an upload creates is unused and is the announced file name or a number of it |
| `Folder.SettledStays` | app/rust/src/core/transfer/recv.rs:298-341 | no action changes, removes or takes over a file that no upload is writing; no invariant is needed for this |
| `Folder.SettledForever` | app/rust/src/core/transfer/recv.rs:298-341 | over runs: once settled, a file keeps its bytes for the rest of the run (no overwriting, with resolve and create as one step) |
| `Folder.FilesElsewhere` | app/rust/src/core/transfer/recv.rs:306-325 | an action touches no file but its own upload's; so a failed upload removes only its own target |
| `Folder.TargetsApart` | app/rust/src/core/transfer/recv.rs:298-341 | uploads in flight write to pairwise distinct files, none of which is a saved one |
| `Folder.AccountedStep` | app/rust/src/core/transfer/recv.rs:254-274 | one action keeps the account of the folder: initial files, saved files, files in flight, nothing else |
| `Folder.FolderConserved` | app/rust/src/core/transfer/recv.rs:254-326 | in every state of every run the initial files are untouched and every other file was saved or is still in flight, so nothing partial is left when nothing is in flight |
| `Folder.Provenance` | app/rust/src/core/transfer/recv.rs:189-267 | every save goes back, in order, to a request that was asked, approved by the user and opened as the only session of its id, and to an upload accepted on the token of that very file; it has the announced size and name, and its file holds the uploaded bytes from then on |
| `Folder.SavesAreAuthorized` | app/rust/src/core/transfer/recv.rs:189-267 | the chain of events behind one save |
| `Folder.Counting` | app/rust/src/core/transfer/recv.rs:209-261 | in every reachable live session there is a token per file and fewer files received than announced, late completions included; no finished session lingers |
| `Folder.LookupNeverMisses` | app/rust/src/core/transfer/recv.rs:244-251 | the unguarded file lookup of a valid upload never misses in any run |
| `Replies.OwnReply` | app/rust/src/core/transfer/recv.rs:159-295 | what one action answers: 400, 409, 408, 403, the grant, 404 for an upload that does not name a live session, its file, its token and a file still to come, 200, 500, and 200 or 404 for a cancel, each under its condition and under no other |
| `Replies.RepliesExactly` | app/rust/src/core/transfer/recv.rs:159-295 | in every run a request has a reply if and only if one of its actions earned it, and exactly that one; it never changes |
| `Replies.CancelExactly` | app/rust/src/core/transfer/recv.rs:287-294 | a cancel of the live session is answered 200 and leaves the receiver idle, any other is answered 404 and leaves the state alone |
| `Replies.ApprovalsRecorded` | app/rust/src/core/transfer/recv.rs:203-207 | over a run the trust list gains exactly the approved devices, each under the alias and date of its first approval, and keeps what it had |
| `OneSession.AskingMoves` | app/rust/src/core/transfer/recv.rs:171-220 | how each action moves the state and the set of prepare handlers waiting for the user |
| `OneSession.KeptExactly` | app/rust/src/core/transfer/recv.rs:269-273 | one action keeps "Pending exactly when one prepare handler waits" if and only if it is not a failed upload resetting somebody's pending request |
| `OneSession.RuleOverRuns` | app/rust/src/core/transfer/recv.rs:171-273 | a run obeys that rule in all its states if and only if no failed upload ever completes while a request is pending |
| `OneSession.NoneOutlivesKeepsRule` | app/rust/src/core/transfer/recv.rs:171-273 | if no upload outlives its session, the rule holds throughout the run |
| `OneSession.SessionNotReplaced` | app/rust/src/core/transfer/recv.rs:171-220 | under the rule a live session is followed only by itself or by Idle |
| `OneSession.TicketOfSession` | app/rust/src/core/transfer/recv.rs:239-252 | an upload of the live session carries one of its files |
| `OneSession.ReceivedUpTo` | app/rust/src/core/transfer/recv.rs:256-261 | when uploads complete into their own session, what it counts as received are files of its own, each of them saved |
| `OneSession.SavesAreCounted` | app/rust/src/core/transfer/recv.rs:254-261 | in every run, late completions included, whatever was saved in the live session is counted in it |
| `OneSession.ClosesCompleteExactly` | app/rust/src/core/transfer/recv.rs:256-261 | up to the first late completion, a completed upload that closes a session leaves every approved file saved in it if and only if the upload was of that session |
| `OneSession.LateFailureReplacesSession` | app/rust/src/core/transfer/recv.rs:269-273 | a run, from boot, in which a failed upload of a cancelled session resets another request and one live session is overwritten by another |
| `OneSession.LateCompletionClosesSession` | app/rust/src/core/transfer/recv.rs:256-261 | a run, from boot, in which a late upload of a cancelled session closes the next one with none of its files saved |
| `CreateRace.TakenExactly` | app/rust/src/core/transfer/recv.rs:328-341 | a path free when it was resolved is taken later exactly when a step in between created it and none removed it since |
| `CreateRace.OverwritesExactly` | app/rust/src/core/transfer/recv.rs:304-306 | with resolve and create apart: a create truncates a file if and only if its path was created after it was chosen and is still there |
| `CreateRace.TwoUploadsOneName` | app/rust/src/core/transfer/recv.rs:304-306 | a run in which two uploads of one name choose together and the second empties the file the first completed |
| `CreateRace.RemovesOthersExactly` | app/rust/src/core/transfer/recv.rs:321-324 | a failed upload removes another upload's file if and only if that was created at its path after its own and is still there |
| `CreateRace.FailedUploadRemovesOther` | app/rust/src/core/transfer/recv.rs:321-324 | a run in which an upload that fails removes the file another completed |
| `Receiver.Receiver.constructor` | app/rust/src/core/transfer/recv.rs:88-97 | a started receiver is in a boot state of the machine, with the given folder and trust list |
| `Receiver.Receiver.BeginPrepare` | app/rust/src/core/transfer/recv.rs:159-188 | the method is the machine's step: 400 without files, 409 unless Idle, else Pending |
| `Receiver.Receiver.Decide` | app/rust/src/core/transfer/recv.rs:189-207 | timeout 408, refusal 403, approval recorded in the trust list without overwriting: the machine's steps |
| `Receiver.Receiver.OpenSession` | app/rust/src/core/transfer/recv.rs:209-222 | the session with a token per file replaces whatever state there was: the machine's step |
| `Receiver.Receiver.BeginUpload` | app/rust/src/core/transfer/recv.rs:239-252 | the checks under the lock and the captured meta and alias: the machine's step |
| `Receiver.Receiver.EndUpload` | app/rust/src/core/transfer/recv.rs:254-274 | completion and failure regions, without a second look at the session: the machine's steps |
| `Receiver.Receiver.Cancel` | app/rust/src/core/transfer/recv.rs:277-295 | only the live session's own id cancels it |
| `Receiver.Receiver.WriteFrames` | app/rust/src/core/transfer/recv.rs:308-314 | the loop appends the data frames in order to the target and changes no other file; it fails exactly when a frame is an error |
| `Receiver.Receiver.SaveBody` | app/rust/src/core/transfer/recv.rs:298-326 | succeeds exactly when the file can be created, the body arrives whole and has the announced size; then the folder gains exactly one new file with exactly those bytes, else it is as before |
| `Receiver.UninterruptedSave` | app/rust/src/core/transfer/recv.rs:298-326 | the machine's chunk-by-chunk upload, however the body is cut, has the effect of `SaveBody` |
| `Collision.StemAndExt` | app/rust/src/core/transfer/recv.rs:329-333 | stem and extension put together are the name; the two splits differ exactly when the last dot is the first character, and then it starts no extension here |
| `Collision.CandidateInjective` | app/rust/src/core/transfer/recv.rs:334-339 | different numbers give different candidates, since decimal numerals are injective |
| `Text.ValueOfDecimal` | app/rust/src/core/transfer/recv.rs:337-337 | a decimal numeral denotes its number |
| `Collision.ProbeIsFirstFree` | app/rust/src/core/transfer/recv.rs:334-340 | the search finds the first free candidate |
| `Collision.ResolveIsFirstFree` | app/rust/src/core/transfer/recv.rs:328-341 | the result is unused, is the name or a number of it, and every earlier candidate is taken |
| `Collision.ComponentRead` | app/rust/src/core/transfer/recv.rs:300-303 | the name read out of a path is its last component that is neither empty nor a dot, and nothing for two dots; the second implementation skips trailing slashes only |
| `Collision.ResolveText` | app/rust/src/core/transfer/recv.rs:328-341 | a free name is kept; a taken one becomes stem, blank, the lowest free number from 1 in parentheses, extension, where the extension starts at the last dot unless that is the first character, and the number is at most the number of files |
| `Collision.ResolveCollision` | app/rust/src/core/transfer/recv.rs:328-341 | the loop ends after at most one probe more than the directory has entries, on that name |
| `Collision.StoredNameIsDirectChild` | app/rust/src/core/transfer/recv.rs:299-304 | whatever name was announced, the chosen one is a plain entry of the save folder |
| `Collision.BasesAgree` | go-cli/internal/transfer/recv.go:204-204 | the two read the same file name out of a path exactly when the second one's base is a file name; otherwise that base is a dot name or a slash |
| `Collision.GoResolvesAlike` | go-cli/internal/transfer/recv.go:203-213 | for a file name the two implementations choose the same path if and only if it is free or its last dot is not its first character |
| `Collision.StoredAlikeExactly` | go-cli/internal/transfer/recv.go:203-213 | for any announced name at all they choose the same path if and only if that holds of the common file name, or the path ends in a lone dot and the name before it is the very number the second one gives the dot |
| `Collision.GoResolveText` | go-cli/internal/transfer/recv.go:203-213 | the same of the second implementation, by its own split, with the folder and its parent counting as taken |
| `Delivery.MetaOfFile` | app/rust/src/api/easy_send.rs:365-372 | a file's id looks up its own entry among all of the request |
| `Completion.RequestExactly` | app/rust/src/api/easy_send.rs:351-373 | the request holds exactly the files "f1" to "fn", each with its own name, length and type |
| `Delivery.GrantIsOurs` | app/rust/src/api/easy_send.rs:421-425 | a granted job has a token for every file, so the unguarded token lookup never misses |
| `Delivery.AnswerMeansStored` | app/rust/src/core/transfer/recv.rs:254-268 | an upload answered 200 is stored, as that upload |
| `Delivery.MoveKeeps` | app/rust/src/api/easy_send.rs:385-464 | every move of the job, the network, the receiver or another client keeps the joint invariant |
| `Delivery.SysInvAlways` | app/rust/src/api/easy_send.rs:385-464 | the joint invariant of job, messages and receiver holds throughout every execution |
| `Delivery.EndToEnd` | app/rust/src/api/easy_send.rs:351-447 | a job that ends in Done had at least one file, and every file is stored byte for byte at its own path, unused when the receiver started and saved to by no other upload, whatever other clients did and whatever was delayed |
| `Delivery.PrefixOnDisk` | app/rust/src/api/easy_send.rs:393-459 | with one sender, at any moment with no upload in flight: the folder is the initial one plus exactly the first j files, complete and byte for byte, with acknowledged <= j <= acknowledged + 1, whatever was lost and wherever the job was aborted |
| `Cancelling.CancelsNameOurs` | app/rust/src/api/easy_send.rs:431-434 | in every execution every cancel on the wire names a session that was opened for this job |
| `Cancelling.SentCancel` | app/rust/src/core/transfer/send.rs:228-236 | a cancel keeps naming the session the job held when it sent it, until it arrives or is lost |
| `Cancelling.CancelEndsSession` | app/rust/src/api/easy_send.rs:451-457 | once it arrives the session the job held is not live: it was until then, and the receiver is idle and answers 200, or it was not, and the receiver answers 404 and stays as it was |
| `Cancelling.UnfinishedJobCancels` | app/rust/src/api/easy_send.rs:431-457 | a job that was granted a session and ends otherwise than in Done has sent that cancel, or lost it |
| `Completion.UploadRuns` | app/rust/src/core/transfer/recv.rs:254-326 | an accepted upload can always run to its end, with the session advanced |
| `Completion.EveryPlanCanFinish` | app/rust/src/api/easy_send.rs:385-447 | for every plan with a file and every receiver there is an execution in which the job ends in Done |
| `Completion.DoneExactly` | app/rust/src/core/transfer/recv.rs:167-169 | a job can end in Done if and only if it has a file to send |
| `Report.StoryFits` | app/rust/src/api/easy_send.rs:385-464 | what the event stream is told of a job follows its execution: all uploads sent when done, the last one begun failed or aborted otherwise, or the prepare request refused or interrupted |
| `Report.Send` | app/rust/src/api/easy_send.rs:338-464 | the stream of a job ends in Done, Failed or Canceled exactly as its execution did, and whenever the app is told Done every file is stored at the receiver as above |
| `GoReceiver.Receiver.constructor` | go-cli/internal/transfer/recv.go:58-62 | a new receiver is idle with nothing issued |
| `GoReceiver.Receiver.GoIdle` | go-cli/internal/transfer/recv.go:226-231 | `setIdle`: state and session id, nothing else |
| `GoReceiver.Receiver.BeginPrepare` | go-cli/internal/transfer/recv.go:106-113 | 409 unless idle, else pending; an empty file map is not refused |
| `GoReceiver.Receiver.Decide` | go-cli/internal/transfer/recv.go:118-134 | timeout, refusal, approval with a trust entry only for a new device |
| `GoReceiver.Receiver.IssueTokens` | go-cli/internal/transfer/recv.go:141-149 | after the loop the tokens are those drawn, one per file, and every file remains |
| `GoReceiver.Receiver.OpenSession` | go-cli/internal/transfer/recv.go:136-151 | the session fields and the answer: the second machine's step |
| `GoReceiver.Receiver.BeginUpload` | go-cli/internal/transfer/recv.go:158-166 | the checks, which do not ask whether the file was received before |
| `GoReceiver.Receiver.FreeTarget` | go-cli/internal/transfer/recv.go:203-213 | the search of `saveBody`: a base that is a free file name is kept, any other gets the lowest free number before its own extension; the folder itself and its parent count as taken |
| `GoReceiver.Receiver.AbandonUpload` | go-cli/internal/transfer/recv.go:168-174 | a failed upload makes the receiver idle, whatever it was doing |
| `GoReceiver.Receiver.FinishUpload` | go-cli/internal/transfer/recv.go:176-188 | the file leaves `remaining`; the last one makes the receiver idle |
| `GoReceiver.Receiver.Cancel` | go-cli/internal/transfer/recv.go:191-200 | always answers 200, cancels only the live session |
| `Simulation.FinishSession` | go-cli/internal/transfer/recv.go:176-183 | after a completed upload both hold the same session, with remaining = files - received, if and only if there was none, or a pending request with earlier files still remaining, or a session that has received files of its own only or lacks more than this one |
| `Simulation.StepRelates` | go-cli/internal/transfer/recv.go:99-200 | from related states one step leads to related states, replies included, if and only if: files were announced, the upload is no repeat, the announced name is one both store alike, the body has the announced length, and a completion meets the condition above |
| `Simulation.ClosingAgrees` | app/rust/src/core/transfer/recv.rs:259-261 | counting received files and looking for remaining ones close a session alike unless the count is reached with a file that is not the session's |
| `Simulation.OrdinaryAgrees` | go-cli/internal/transfer/recv.go:99-200 | an ordinary action meets that condition in every reachable state |
| `Simulation.ReceiversAgree` | go-cli/internal/transfer/recv.go:99-200 | on every run of ordinary actions the two receivers have, in every state, the same phase, session, files, handlers and trusted names, and what remains in one is what was not received in the other |
| `Simulation.AnswersAgree` | go-cli/internal/transfer/recv.go:99-200 | on such a run every request gets the same reply from both, but for a cancel that names no session live at that moment, which one answers 404 and the other 200 |
| `Simulation.GoApprovalRecorded` | go-cli/internal/transfer/recv.go:131-134 | an approval enters a new device under its alias and date, and leaves a known one as it is |
| `SendJob.UnderflowsExactly` | app/rust/src/api/easy_send.rs:407-411 | whatever a file has become since it was measured, the subtraction underflows in it if and only if its first chunk does not get past what was reported before it |
| `SendJob.UngrownReports` | app/rust/src/api/easy_send.rs:407-411 | it never does after files that did not outgrow their size |
| `SendJob.GrowthUnderflows` | app/rust/src/api/easy_send.rs:407-411 | two files, the first of which grew after it was measured, on which it does |
| `SendJob.StreamFile` | app/rust/src/api/easy_send.rs:391-420 | per file that did not grow: the subtraction never underflows, progress is monotone, fewer than 2^20 bytes are unreported, a whole file ends on its exact total, and each event but one accounts for 2^20 bytes |
| `SendJob.StartFile` | app/rust/src/api/easy_send.rs:393-401 | the event that opens a file reports the bytes of the files before it |
| `SendJob.UploadAll` | app/rust/src/api/easy_send.rs:391-437 | over all files: monotone progress, at most 2 * files + total / 2^20 events, the last one at the total when every upload succeeded; otherwise the first upload that did not decides the result, and no later file is begun |
| `SendJob.RunJob` | app/rust/src/api/easy_send.rs:385-438 | the spawned job: WaitingApproval, then progress; completed, failed with its message, or cancelled, by what came first |
| `SendJob.FirstUnreadable` | app/rust/src/api/easy_send.rs:353-360 | the metadata loop stops at the first unreadable path |
| `SendJob.SendFiles` | app/rust/src/api/easy_send.rs:336-464 | every outcome and abort point, and every list of paths, gives a stream of the language: nothing or WaitingApproval and progress, then exactly one terminal event. Done if and only if everything succeeded, Canceled if and only if an abort came first, Failed with a message if and only if an error with that message did, or the job could not start |
| `Controller.SendController.Send` | app/lib/src/send_controller.dart:59-69 | a second send while one is in flight changes nothing; a first one shows the alias, the number of files, the first name and nothing sent |
| `Controller.SendController.OnEvent` | app/lib/src/send_controller.dart:84-110 | one event changes the shown state as the fold says, whose meaning is the next rows; without a send it is ignored |
| `Controller.SendController.Dismiss` | app/lib/src/send_controller.dart:114-117 | a send in flight cannot be dismissed |
| `Controller.SendController.Listen` | app/lib/src/send_controller.dart:84-110 | the subscription computes the fold of all its events |
| `Controller.ProgressShown` | app/lib/src/send_controller.dart:90-99 | while only progress came, the send is uploading and shows the last event: its file index and that file's name, the number of files, its bytes and the true total |
| `Controller.StreamShown` | app/lib/src/send_controller.dart:84-110 | at the end of any stream of the language the send is not in flight, shows how it ended and where it stood, with the failure's own message or the cancel's, and after Done sent = total = the sum of the sizes |
| `Controller.RunSend` | app/lib/src/send_controller.dart:59-110 | from the button to the end of the stream, for every outcome of the job |
| `Discovery.AfterIsFaithful` | app/rust/src/core/discovery.rs:195-222 | after any history the table holds only latest announcements and lacks none that is fresh |
| `Discovery.VisibleExactly` | app/rust/src/core/discovery.rs:73-108 | for any monotone clock and any mix of announcements, ticks and queries: a device is listed if and only if it is what its latest compatible announcement by another device said, and that is at most 15 s old |
| `Discovery.OnlyAnnouncementsMatter` | app/rust/src/core/discovery.rs:73-91 | ticks and queries have no influence on what a later query lists |
| `Discovery.PruningIsInvisible` | go-cli/internal/discovery/discovery.go:145-158 | eager and lazy pruning are indistinguishable: same announcements, same devices, and the same column of aliases |
| `Discovery.Discoverer.Hear` | app/rust/src/core/discovery.rs:195-225 | the change flag is raised exactly when fingerprint, alias, address or port of an entry changed; skipped announcements change nothing |
| `Discovery.Discoverer.Prune` | app/rust/src/core/discovery.rs:73-91 | the change flag is raised exactly when an entry expired |
| `Discovery.Discoverer.Devices` | app/rust/src/core/discovery.rs:104-108 | the answer lists every visible device exactly once and nothing else, sorted by alias |
| `Discovery.Snapshot` | app/rust/src/core/discovery.rs:121-125 | the entries of the map, each once, sorted by alias, in whatever order the map yields them |
| `Discovery.GoDiscoverer.Hear` | go-cli/internal/discovery/discovery.go:115-142 | the upsert, with no change flag |
| `Discovery.GoDiscoverer.Collect` | go-cli/internal/discovery/discovery.go:148-155 | the loop that deletes expired entries while collecting leaves exactly the fresh ones, each collected once |
| `Discovery.GoDiscoverer.Devices` | go-cli/internal/discovery/discovery.go:145-158 | the same answer as the Rust discoverer's, by its own loop |
| `Text.SortedIsSorted` | app/rust/src/core/discovery.rs:121-125 | the sort sorts |
| `Text.SortedAlike` | go-cli/internal/discovery/discovery.go:156-156 | two sorted arrangements of the same elements show the same keys in the same places, whether or not the sort is stable |
| `Discovery.AlikeAfterExpiry` | app/rust/src/core/discovery.rs:78-86 | comparing lengths, as the pruner does, detects every change it makes |
| `Discovery.AlikeExactly` | app/rust/src/core/discovery.rs:205-211 | what counts as a change: the fingerprints listed, and alias, address and port of each |
| `Discovery.CountsExactly` | app/rust/src/core/discovery.rs:195-201 | the announcements that count: of this application, version "1" or "1.something", of another fingerprint |
| `Protocol.CompatibleExactly` | app/rust/src/core/protocol.rs:54-71 | which applications and version texts are compatible |
| `Text.LeExactly` | app/rust/src/core/discovery.rs:123-123 | the order of the sort: the first differing character decides, the smaller one first |
| `Notification.RunFollowed` | app/rust/src/core/discovery.rs:127-132 | in every run: when no emission waits, the newest snapshot covers the table, and equals it on the four fields exactly when no query dropped an entry since |
| `Notification.RunOrdered` | app/rust/src/api/easy_send.rs:206-214 | in every run: whichever of storing and sending was last done by the emission that took last shows the newest snapshot, and caught-up subscribers show the tail or the last list unless a newer one is still to be sent |
| `Notification.QuietAgreement` | app/rust/src/api/easy_send.rs:206-265 | once no emission is pending, and the one that took its snapshot last also stored last and sent last, the last list, the channel tail and every caught-up subscriber agree, whenever it joined and despite lag; and on fingerprint, alias, address and port that is the table if and only if no `devices()` call dropped an entry silently |
| `Notification.SerializedAgreement` | app/rust/src/api/easy_send.rs:206-265 | in particular when emissions do not overlap |
| `Notification.NoQueriesNoSilence` | app/rust/src/core/discovery.rs:104-108 | without direct `devices()` calls nothing is ever dropped silently |
| `Notification.OvertakingEndsWrong` | app/rust/src/core/discovery.rs:127-132 | from any state with two emissions under way, the older one outdated: if it is overtaken, the run goes quiet on the outdated list |
| `Notification.TwoUnderWay` | app/rust/src/core/discovery.rs:127-132 | such a state is reachable, so serialization is needed |
| `Notification.SilentQuery` | app/rust/src/core/discovery.rs:104-108 | a serialized run that goes quiet on a list showing a device the table no longer has |
| `Notification.TypeChangesAreSilent` | app/rust/src/core/discovery.rs:205-211 | a change of only the device type is inserted without an emission, so the agreement cannot include it |
| `Notification.Subscription.constructor` | app/rust/src/api/easy_send.rs:249-249 | subscribing is the machine's step: a cursor at the end, nothing shown yet |
| `Notification.Subscription.ShowLast` | app/rust/src/api/easy_send.rs:250-250 | the first list is the last one of that later moment: the machine's step |
| `Notification.Subscription.Receive` | app/rust/src/api/easy_send.rs:253-261 | one receive is the machine's step: the next snapshot, or a jump to the oldest kept |
| `Notification.Subscription.Drain` | app/rust/src/api/easy_send.rs:251-263 | the loop shows every snapshot the channel still keeps, in order, skipping only what was dropped |
| `Sockets.CalmKeepsMatched` | app/rust/src/core/discovery.rs:135-163 | an undisturbed bind, a failure, an aborted task and a stop each keep: the live loops are exactly the slot's |
| `Sockets.AlwaysMatched` | app/rust/src/core/discovery.rs:135-194 | in every run with undisturbed binds the slot is empty or its loop is live, and no other loop is |
| `Sockets.LateFailureIsHarmless` | app/rust/src/core/discovery.rs:185-194 | the late failure of a replaced loop leaves the newer socket and its loop as they are |
| `Sockets.AnnouncementRestores` | app/rust/src/core/discovery.rs:158-163 | in every reachable state one announcement with a working bind leaves a live socket, a new one if the slot was empty |
| `Sockets.DeafForever` | app/rust/src/core/discovery.rs:185-194 | with binds in three parts: a slot whose loop is over, with no announcer whose socket is alive, stays so in every continuation without a stop |
| `Sockets.RecoversExactly` | app/rust/src/core/discovery.rs:158-194 | discovery can come back without a restart if and only if the slot is not in that condition, binds under way included |
| `Sockets.RecoversInEveryRun` | app/rust/src/core/discovery.rs:135-194 | so it is in every reachable state |
| `Sockets.DiesBeforePublished` | app/rust/src/core/discovery.rs:151-156 | a run in which the new socket dies inside its own bind and the slot ends up deaf |
| `Sockets.TwoBindersCross` | app/rust/src/core/discovery.rs:158-163 | a run in which two concurrent announcements leave the slot with an aborted socket |
| `Sockets.Discoverer.CurrentOrRebind` | app/rust/src/core/discovery.rs:158-164 | returns the slot's socket, binding only if it is empty; afterwards the socket returned is live if the bind works |
| `Sockets.Discoverer.Bind` | app/rust/src/core/discovery.rs:135-156 | a new socket and loop, the old task aborted, the slot filled |
| `Sockets.Discoverer.ReadFailed` | app/rust/src/core/discovery.rs:185-194 | clears the slot only of the loop's own socket |
| `Sockets.Discoverer.StopAll` | app/rust/src/core/discovery.rs:110-118 | both slots empty and no loop live |
| `Trust.NoEntryMeansRemoved` | app/rust/src/core/security.rs:99-118 | an unlisted fingerprint was removed after each time it was added |
| `Trust.EntryIsFirstAddSinceRemove` | app/rust/src/core/security.rs:99-118 | after any history a fingerprint is listed exactly when it was added since its last removal, with alias and date of the first such add |
| `Trust.TrustStore.constructor` | app/rust/src/core/security.rs:83-92 | opening reads back what the file holds; no file, or one that does not parse, is an empty list |
| `Trust.TrustStore.Contains` | app/rust/src/core/security.rs:94-96 | membership by fingerprint |
| `Trust.TrustStore.Save` | app/rust/src/core/security.rs:130-136 | writes the whole map, or fails before it touched the file, or in the middle, and then the file reads as empty |
| `Trust.TrustStore.Add` | app/rust/src/core/security.rs:99-111 | a known device is not overwritten and nothing is written; a new one is entered and the whole map written |
| `Trust.TrustStore.Remove` | app/rust/src/core/security.rs:113-118 | removes that entry only, and writes the map if there was one |
| `Trust.TrustStore.All` | app/rust/src/core/security.rs:120-128 | the entries, each exactly once, sorted by date |
| `Trust.Replay` | app/rust/src/core/security.rs:83-136 | over a whole history of calls: the map follows it, and if the last save that was tried succeeded, whatever failed before, reopening gives the same map |
| `Sse.UintRoundTrip` | app/rust/src/frb_generated.rs:1322-1334 | fixed-width integers survive either byte order |
| `Sse.I64RoundTrip` | app/rust/src/frb_generated.rs:724-729 | 64-bit two's complement, with any rest |
| `Sse.VecRoundTripsExactly` | app/rust/src/frb_generated.rs:764-774 | a vector survives the trip if and only if its length fits an i32 |
| `Sse.StrRoundTrip` | app/rust/src/frb_generated.rs:654-660 | well-formed strings |
| `Sse.OptionRoundTrip` | app/rust/src/frb_generated.rs:830-839 | optional strings |
| `Sse.PhaseRoundTrip` | app/rust/src/frb_generated.rs:875-888 | the enum, by its i32 index |
| `Sse.SendEventRoundTrip` | app/rust/src/frb_generated.rs:853-873 | decoding an encoded event followed by any rest gives the event and leaves exactly the rest |
| `Sse.FilesRoundTrip` | app/rust/src/frb_generated.rs:764-774 | vectors of structs |
| `Sse.ApprovalRoundTrip` | app/rust/src/frb_generated.rs:662-676 | an approval request with its vector of structs inside |
| `Sse.SnapshotsRoundTrip` | app/rust/src/frb_generated.rs:750-762 | the device list |
| `SseLayout.ByteOrder` | app/rust/src/frb_generated.rs:1322-1334 | what the two byte orders mean |
| `SseLayout.SendEventLayout` | app/rust/src/frb_generated.rs:1432-1462 | the bytes of an event: phase index, file index and count in four bytes each, name behind its length, bytes sent and in all in eight each, a flag before the message |
| `SseLayout.FileItemLayout` | app/rust/src/frb_generated.rs:1313-1320 | the bytes of an item: id and name behind their lengths, size in eight |
| `SseLayout.ApprovalLayout` | app/rust/src/frb_generated.rs:1285-1300 | the bytes of a request: alias and fingerprint behind their lengths, one byte for a new device, items behind their number |
| `SseLayout.SnapshotLayout` | app/rust/src/frb_generated.rs:1302-1311 | the bytes of a device: four texts behind their lengths, the port in two |
| `Utf8.EncodedIsValid` | app/rust/src/frb_generated.rs:654-660 | the bytes of any characters are well-formed text |
| `Utf8.ValidExactly` | app/rust/src/frb_generated.rs:654-660 | and well-formed text is the bytes of some characters |
| `SseCursor.Serializer.WriteStr` | app/rust/src/frb_generated.rs:1278-1283 | appends the encoding of the string, byte by byte |
| `SseCursor.Serializer.WriteFiles` | app/rust/src/frb_generated.rs:1366-1374 | the loop appends the length and every item |
| `SseCursor.Serializer.WriteSendEvent` | app/rust/src/frb_generated.rs:1432-1443 | appends the event's fields in order |
| `SseCursor.Serializer.WriteApproval` | app/rust/src/frb_generated.rs:1285-1293 | appends the request's fields in order |
| `SseCursor.Deserializer.ReadI32` | app/rust/src/frb_generated.rs:717-722 | reads what the decoding function says and advances the cursor past it |
| `SseCursor.Deserializer.ReadBytes` | app/rust/src/frb_generated.rs:776-786 | the loop reads exactly the announced number of bytes |
| `SseCursor.Deserializer.ReadSendEvent` | app/rust/src/frb_generated.rs:853-873 | fails or yields the event, with the cursor where the decoding function leaves it |
| `SseCursor.Deserializer.ReadFiles` | app/rust/src/frb_generated.rs:764-774 | the loop reads item after item from the shared cursor |
| `SseCursor.Deserializer.ReadApproval` | app/rust/src/frb_generated.rs:662-676 | fails or yields the request, with the cursor behind it |
| `SseCursor.SendOver` | app/rust/src/frb_generated.rs:1285-1443 | two values written one after the other are read back as they were |
| `Query.UrlDecode` | app/rust/src/core/transfer/recv.rs:354-383 | the loop ends, reads only within the input, and computes the decoding; it panics exactly when somewhere a percent sign is followed by two bytes that cut a character |
| `Query.PanicsExactly` | app/rust/src/core/transfer/recv.rs:360-361 | no such percent sign can hide inside an effective escape, so one anywhere is enough |
| `Query.PanicsOnText` | app/rust/src/core/transfer/recv.rs:360-361 | a well-formed text on which it panics |
| `Query.ReadAsItself` | app/rust/src/core/transfer/recv.rs:354-383 | a text is read back as itself if and only if it holds no plus sign and no effective escape |
| `Query.HexDigitExactly` | app/rust/src/core/transfer/recv.rs:361-361 | the hex digits of both cases and their values |
| `Query.EscapeRead` | app/rust/src/core/transfer/recv.rs:360-365 | a percent sign and two digits of either case are one byte; a plus sign counts as a missing first digit |
| `Query.ByteRead` | app/rust/src/core/transfer/recv.rs:366-380 | any other byte is itself, a plus sign a blank, a percent sign without digits a percent sign |
| `Query.PieceExactly` | app/rust/src/core/transfer/recv.rs:344-349 | a piece is cut at its first equals sign, and skipped without one |
| `Query.DecodeEscaped` | app/rust/src/core/transfer/recv.rs:354-383 | decoding undoes form escaping, for every text |
| `Query.SplitJoined` | app/rust/src/core/transfer/recv.rs:343-351 | splitting undoes joining |
| `Query.GoQueryRead` | go-cli/internal/transfer/send.go:113-113 | every key and value of a form-encoded query is recovered, whatever bytes they hold |
| `Query.EscapeExactly` | go-cli/internal/transfer/send.go:113-113 | how that query is escaped: letters, digits and four signs stay, a blank is a plus sign, the rest upper-case escapes |
| `Query.KeysSpelled` | app/rust/src/core/transfer/recv.rs:233-237 | the keys and separators as text |
| `Query.SegmentGives` | app/rust/src/core/transfer/recv.rs:343-351 | an unescaped pair that is recovered intact has a value without separator, plus sign or escape, and gives nothing else |
| `Query.RustQueryReadExactly` | app/rust/src/core/transfer/send.rs:215-218 | the unescaped query is recovered exactly, three values and nothing else, if and only if none of the values holds an ampersand, a plus sign or an escape |
| `Query.AlphanumericIsPlain` | app/rust/src/core/transfer/recv.rs:385-389 | values of unreserved characters, such as the random names, are |

## Left out

- TLS, certificates and fingerprint computation: library cryptography; a fingerprint is an opaque string.
- HTTP framing, JSON parsing and the answer to malformed requests: requests arrive parsed.
- UDP sends, interface enumeration and broadcast addresses: announcements are inputs.
- A dropped connection that discards a handler in mid-flight: every handler of the model runs on or waits.
- A removal of a partial file that itself fails, directories, symbolic links and case-insensitive file systems: the folder is a map.
- Resolving and creating a file are one step in the machine `Receiving`; `CreateRace` treats them apart and says exactly when that matters.
- CreateRace.TwoUploadsOneName: writes append to the file of that name, where the code writes at the offset of its own handle; that does not affect which creations truncate a file or which removals hit another's.
- The saved-file callback: it is merged with the lock-held region before it.
- The new-device flag shown to the user: it reads the trust list and changes nothing.
- SendJob.SendFiles: totals and counts are assumed to fit the event fields (`Fits`) and files not to change while they are read (`Faithful`); what a grown file does to the callback is `SendJob.UnderflowsExactly`, what it does to the rest of the stream is not modelled.
- SendJob.SendFiles: the texts of failure messages are not modelled, and the check of the busy slot and its filling are not two racing steps.
- Controller.StreamShown: the stream's error callback of the app is not modelled, only its events.
- Query.UrlDecode: the replacement of bytes that are not UTF-8 is not modelled; the result is the bytes before that step.
- Sse: the remaining structs (NodeConfig, NodeStatus, SavedFileEvent, SendTarget, TrustedDeviceView and vectors of strings) have the same layout and no new case.
- Trust.TrustStore.Add: a failure to format the date is not modelled, and dates are strings ordered as text.
- Trust.TrustStore.constructor: a file that exists but cannot be read makes opening fail in the code; that error is not modelled.
- Sockets.AlwaysMatched: binds are single steps there; the rest of that module takes them apart.
- Node start and stop, port fallback, the command-line interface and the widgets of the app: plumbing with little to prove.
- The channel of saved-file events: a simpler copy of the one in `Notification`, without a last list.
