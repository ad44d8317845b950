# A verified model of the session engine, its UI mirror and its file share

The engine (`core/engine`, Go) runs sessions: servers, port forwards, uploads and downloads. Every session is
driven by goroutines that race with stop commands, failures and the shutdown of the engine, and reports what it
does through one bounded event queue. The UI (`app/lib/core`, Dart) polls that queue and folds the events back
into a table of sessions. A server can offer files over SFTP, and a client can copy trees to and from such a
share. This project models that behaviour in Dafny and proves what every interleaving, every request sequence
and every input keeps.

How the model is laid out:

* `Common`, `Decimal`, `Sorting`: vocabulary, decimal printing, sorting of integers.
* `Events`: the event queue, as a class over a buffer compacted in place and as a value it refines.
* `Sessions`, `Registry`: the session and engine objects with the methods the source has. Each lock-protected
  region is a function of the guarded fields; the methods are proved against these functions.
* `Lifecycle`: all goroutines as one transition system. A thread is the list of instructions it still has to run;
  each lock-protected region, each `Close()` and each push made after an unlock is one instruction, and a run is
  any list of labels, that is any interleaving of any number of threads, sessions, closers and polls. Network and
  library calls resolve in any way. `Placement`, `CloseOrder`, `Termination`, `StateEvents`, `DriverOrder`, `Tokens`,
  `TokenDelivery` and `Aftermath` are its invariants and results.
* `Stories`, `Jobs`, `JobErrors`, `JobResults`, `JobAssets`: what an observer of a run notes about one session (its job,
  how its calls ended, who ended it), and that this alone decides the state, the events, the closers and the token.
* `Mirror`, `Agreement`: the UI's fold, and when it agrees with the engine. `ConcreteRuns`, `OvertakenStop` and
  `LostToken` are two runs in which it does not.
* `Paths`, `Backend`, `Files`, `Share`, `PickedShare`, `Commands`: request paths, the virtual root of a picked-paths
  share, the filesystem, what each request may do in each mode, what a picked share gives back, and what the writing
  requests leave.
* `Trees`, `ClientPaths`, `Requests`, `Uploads`, `Downloads`, `Backup`: uploads and downloads of trees over those
  requests, and the round trip.
* `Tracker`, `Counter`, `Throttle`: the connection tracker, the transfer counter and the progress throttle.
* `ServedPorts`, `PeerTable`, `Recent`, `PortList`: announced ports, the peer-table probe, the list of recent peers,
  the port-list parser.

Time is a number handed to each operation. The order in which Go ranges over a map, the order in which goroutines
take a lock, the order and size of the pieces in which a file is written, and the outcome of every network call are
parameters, so what is proved holds for all of them.

## Where the code and what it promises part

* `setState` pushes its event after releasing the lock, so a later transition can be announced first. With
  everything pushed and polled the UI is right exactly when the last transition's event landed last; that can fail
  only for a finished session (`Agreement.AgreesIff`). `OvertakenStop.StopCanBeMissed` is a run that leaves a stopped
  session shown as starting for good.
* A token event for a session the UI has not seen yet is dropped and not repeated (`Agreement.TokenAgreesIff`). That
  happens only to a server stopped before its goroutine made a transition (`Agreement.ToldIsHeard`);
  `LostToken.TokenCanBeMissed` is such a run.
* `rel` trims white space before cleaning, so it is idempotent exactly on results without white space at
  either end (`Paths.RelIdempotentIff`), and the clean path of an entry whose name ends in a space does not reach it
  (`Paths.RelOfAbsoluteIff`, `Backend.EntryResolvesIff`). A longer clean path does: the same with a further component
  of one space (`Paths.RelOfSpacedOut`, `Backend.SpacedNameMissed`).
* `listSessions` says that its order is stable. It is by creation time in milliseconds; sessions of the same
  millisecond come in the order of the map (`Registry.TiesFollowTheMap`), all others do not depend on it
  (`Registry.NoTiesNoChoice`).
* The detail shown for the path of a server's clients depends on the order of the peer map
  (`PeerTable.EveryDetailShown`); the number of peers and the kind of path do not.
* A second `Close` of a share returns while connections are still open (`Tracker.SecondCloseDoesNotWait`).
* The byte count of an upload is the size of the file unless an empty piece was addressed past its end
  (`Counter.WritesEndAtSizeIff`, `Counter.EmptyPieceCounts`).
* Removing an entry from the bounded list of recent peers does not bring back entries pushed out before
  (`Recent.RemoveKeepsFirstIff`, `Recent.RemovalCanLose`).

## Model

| member | source | states |
|---|---|---|
| Events.EventQueue.Push | core/engine/events.go:36-49 | a push appends; a full queue first loses exactly its older half, moved within the same buffer, and the queue is the suffix that the number of pushes since the last drain leaves |
| Events.EventQueue.Drain | core/engine/events.go:52-68 | returns everything queued, headed by the overflow notice exactly when something was dropped, and hands over the buffer so that later pushes use another one |
| Events.PollThenBurst | core/engine/events.go:36-68 | a drained batch keeps its contents through any burst of pushes that follows it |
| Events.QueueRefinesLog | core/engine/events.go:36-68 | for every run of pushes and drains: pushed = returned + dropped + queued, and every batch is that part of an unbounded log |
| Events.LostOnlyFrom5001 | core/engine/events.go:42-47 | up to 5000 pushes since the last drain the queue is the log and nothing is dropped; the 5001st leaves exactly the newest 2501, and each further 2500th push drops 2500 more |
| Sessions.Session.SetState | core/engine/session.go:114-130 | the guarded transition: repeated and post-terminal calls change and push nothing, any other pushes exactly one event with the new state |
| Sessions.Session.AddCloser | core/engine/session.go:94-104 | kept while the session is open, closed at once afterwards |
| Sessions.Session.Shutdown | core/engine/session.go:178-194 | cancels; the first call takes the whole batch and closes it in reverse registration order, later calls close nothing |
| Sessions.Session.Stop | core/engine/session.go:173-176 | terminal, cancelled and shut down on return, with at most one event |
| Sessions.Session.Fail | core/engine/session.go:147-154 | the error event first, then terminal, cancelled and shut down |
| Sessions.Session.SetToken | core/engine/session.go:157-162 | stores the token and announces it |
| CloseOrder.EachDutyOnce | core/engine/session.go:94-104 | in every interleaving each closer and each state event is in exactly one place, closed or pushed at most once; a state event, or a closer of a shut-down session, is done exactly once or waiting in a thread, whatever other sessions do |
| CloseOrder.ClosedInReverse | core/engine/session.go:178-194 | closers registered before the shutdown's critical section are closed in reverse order of registration |
| CloseOrder.ClosedOnlyByShutdown | core/engine/session.go:178-194 | nothing is closed while its session is open |
| Placement.RunKeepsPlaced | core/engine/session.go:94-104 | every step of every thread keeps each duty held by its session, pending at one position of one thread, or done |
| Placement.TakeBatchKeepsPlaced | core/engine/session.go:184-193 | handing the batch over moves every closer from the session to its place in the closing thread, newest first |
| Termination.CancelledImpliesTerminal | core/engine/session.go:147-194 | a session whose context is done, by its own shutdown or by Engine.Close, is already terminal |
| Termination.NoStrandedSession | core/engine/files.go:87-109 | an active session has a live goroutine with a step that ends it, a blocking call that decides how it ends, or the path probe of a connected session; one that returned left it terminal |
| Termination.ProbeReturnsWhenOver | core/engine/path.go:47-59 | the path probe, which ends no session itself, returns only when the session is over |
| Termination.AcceptReturnsWhenOver | core/engine/forward.go:117-129 | the accept loop returns without failing the session only when the session is over |
| Termination.TerminalIsSticky | core/engine/session.go:120-124 | no later step of any thread changes a terminal state or its detail |
| Termination.ReturnedMeansStopped | core/engine/session.go:173-194 | once a call of stop, fail or a job's ending has returned, in any interleaving, its session is terminal, cancelled and shut down |
| Termination.StopAndFailPromise | core/engine/session.go:147-176 | the calls that stop, fail and finish a session are calls of that kind |
| Termination.StopCommandStops | core/engine/engine.go:122-129 | once a stop command has returned, in any interleaving, its session is terminal, cancelled and shut down |
| Termination.StopCommandBegins | core/engine/engine.go:122-129 | calling stop for a registered session is such a command |
| Termination.StartCommandBegins | core/engine/engine.go:100-110 | a start command registers a session of its kind, starting, unless the engine is closed |
| Termination.NeverStuck | core/engine/session.go:94-104 | no thread is ever stuck in front of something that is not there |
| Termination.ClosedForGood | core/engine/engine.go:78-90 | after Engine.Close has returned every session ever registered is terminal and none can be registered, whatever races with it |
| Aftermath.EndedIsShutDown | core/engine/session.go:147-194 | in every interleaving a session that is over, by whatever path, is cancelled and shut down, unless some thread is still about to do so |
| Aftermath.NothingIsLeftOpen | core/engine/session.go:178-194 | and then everything it owned has been closed exactly once or is about to be |
| JobResults.StateIsLed | core/engine/files.go:87-109 | in every interleaving the state and detail of a session are what the replies to its job's calls lead to, unless another thread ended it, by a stop or by a failed accept loop with its error |
| JobResults.FailedCallFails | core/engine/files.go:99-104 | a failed call of any job (opening the share, a transfer, warm-up, setup and start of a server, a listing) is its last; once the goroutine is through and unless another thread ended the session first, the state is failed with that error, and an error event with it was pushed |
| JobResults.FailureIsTold | core/engine/session.go:147-154 | no session is failed without an error event of the same text, whoever failed it; only a listing tells its caller instead |
| JobResults.DoneMeansAllDone | core/engine/files.go:107-108 | a session is done only by its own goroutine, after every call succeeded, all n transfers included, and never a server or a forward |
| JobResults.AllDoneMeansDone | core/engine/forward.go:133-155 | when every call succeeded and nobody ended the session, a transfer or listing is done, a server or forward is running |
| JobResults.ReturnedIsOver | core/engine/files.go:87-109 | a goroutine that has returned made all its calls, or the last one failed, or somebody else ended its session |
| JobResults.AcceptFails | core/engine/forward.go:117-129 | an accept loop that ends while the session lives and its listener is open fails the session with that error and an error event, unless another thread ended it first |
| JobAssets.WhatIsOpenedIsOwned | core/engine/files.go:94-95 | between its calls a job has registered exactly the closers of what they opened, its session has exactly the token the start of the server gave, and a forward has its accept loop |
| JobAssets.PathsAreTold | core/engine/forward.go:151-154 | every path to the peer that the warm-up or a probe found worth reporting was pushed as it was found |
| StateEvents.TransitionsAreEvents | core/engine/session.go:114-130 | no transition follows a terminal one, and each transition's event was pushed exactly once or is pending in one thread |
| StateEvents.OneTerminalEvent | core/engine/session.go:114-130 | at most one terminal session_state event of a session is ever emitted |
| Tokens.ReachableTokens | core/engine/server.go:157-169 | token work sits once, in the session's own goroutine; a token event carries the session's token, is the only one, and none is left to be sent |
| TokenDelivery.StoredTokenIsTold | core/engine/session.go:157-162 | a stored token has been announced or some thread is about to announce it |
| DriverOrder.ReachableDriving | core/engine/session.go:114-130 | only the goroutine in charge makes transitions that do not end the session, and pushes each before it goes on, so these events land in order |
| Mirror.FoldShowsHeeded | app/lib/core/providers.dart:32-63 | for any deliveries and dismissals: the row of a session is there exactly when a state event was heard since it was last dismissed when over; its state, detail and kind are those of the last state event, its token, path and error those of the last such event heard after a state event, each extra field the last value given for it |
| Mirror.FoldShowsLog | app/lib/core/providers.dart:32-54 | for a session never dismissed, of everything delivered |
| Mirror.ReachablePiped | app/lib/core/engine.dart:60-81 | while nothing overflowed, what the UI received and what is queued are together the pushes, in order |
| Agreement.MirrorRefinesEngineIff | app/lib/core/providers.dart:32-54 | with everything pushed and polled, for any session and any interleaving: state, detail, active id and token are the engine's if and only if the last transition landed last and the token, if there is one, was announced after some state event |
| Agreement.MirrorRefinesEngine | app/lib/core/providers.dart:32-54 | in particular when the pushes landed in order, and always for a session that is not over |
| Agreement.AgreesIff | app/lib/core/engine.dart:60-81 | state, detail and active id alone: right if and only if the last transition landed last, and always while the session is not over |
| Agreement.AgreesWhenLandedLast | app/lib/core/models.dart:146-164 | it is enough that the push of the last transition landed last |
| Agreement.FinishedAgreesIff | core/engine/session.go:128-129 | for a finished session the picture is right if and only if the terminal push landed last; otherwise it stays active |
| Agreement.TokenAgreesIff | app/lib/core/providers.dart:39-40 | the row of any session shows its token if and only if it has none or the token event landed after some state event |
| Agreement.ToldIsHeard | core/engine/server.go:157-169 | a pushed token event came after a state event unless the session was stopped before its goroutine made a transition |
| OvertakenStop.StopCanBeMissed | core/engine/session.go:128-129 | a concrete run after which a stopped session is shown as starting although everything was polled |
| LostToken.TokenCanBeMissed | core/engine/server.go:163-167 | a concrete run after which a session has a token and its row, right in all else, shows none |
| Registry.SortRows | core/engine/engine.go:139-143 | the in-place insertion sort leaves the array as the stable sort of what it held |
| Registry.SortIsSorted | core/engine/engine.go:138-143 | ordered by creation, and a permutation |
| Registry.SortIsStable | core/engine/engine.go:138-143 | rows of one moment keep their old order |
| Registry.NoTiesNoChoice | core/engine/engine.go:135-143 | without ties the listing does not depend on the order of the map |
| Registry.TiesFollowTheMap | core/engine/engine.go:135-143 | two sessions of the same moment are listed as the map gives them |
| Registry.Engine.NewSession | core/engine/engine.go:100-110 | a fresh session under a number never used before, or nothing once the engine is closed |
| Registry.Engine.StopSession | core/engine/engine.go:122-129 | stops the named session if it was going on, leaves its state if it was over, shuts it down either way, and leaves every other one as it was |
| Registry.Engine.Close | core/engine/engine.go:78-90 | every session that was going on is stopped, all are cancelled and shut down, and the engine is closed and cancelled |
| Registry.Engine.ActiveSessions | core/engine/engine.go:148-158 | the number of sessions that are not terminal |
| Registry.Engine.ListSessions | core/engine/engine.go:131-145 | one row for each session, by creation, with its number, kind, state, detail, creation time, extra fields, and its token if it has one |
| Paths.RelIsNormalForm | core/engine/fileshare/handlers.go:28-35 | the result is proper names joined by single slashes, or the lone dot, and leads where the trimmed request leads |
| Paths.ParentCancelsName | core/engine/fileshare/handlers.go:30 | in any text, a name and the `..` after it cancel each other |
| Paths.DotCancels | core/engine/fileshare/handlers.go:30 | in any text, empty components and `.` have no effect |
| Paths.ParentOfRoot | core/engine/fileshare/handlers.go:30 | `..` at the root is the root |
| Paths.CleanKeeps | core/engine/fileshare/client.go:159 | a rooted path of names, and a relative one of names behind any number of `..`, stay as they are; with the laws above this determines the cleaned form of every path |
| Paths.RelOfParent | core/engine/fileshare/handlers.go:28-35 | the same cancellations for rel, on whole request paths |
| Paths.TrimIs | core/engine/fileshare/handlers.go:29 | exactly the white space at the ends is removed |
| Paths.RelIdempotentIff | core/engine/fileshare/handlers.go:28-35 | applying it again changes nothing if and only if the result has no white space at either end |
| Paths.RelNeedsNoSpace | core/engine/fileshare/handlers.go:29 | a name beginning with a space, on which it is not idempotent |
| Paths.RelOfAbsoluteIff | core/engine/fileshare/handlers.go:28-35 | a clean absolute path names the same entry if and only if its last name does not end in white space |
| Paths.RelOfSpacedOut | core/engine/fileshare/handlers.go:28-35 | with a further component of one space it is still clean and names that entry, whatever its name ends in |
| Paths.TargetOfClean | core/engine/fileshare/handlers.go:29 | cleaning never changes where a path leads below the root |
| Paths.RootedAfterRelative | core/engine/fileshare/client.go:159 | cleaning a relative path first, climbing parents included, and rooting it afterwards leads to the same place |
| Backend.TooManyCandidates | core/engine/fileshare/backend.go:120-132 | k different numbered names and the name itself do not fit in k taken names |
| Backend.UniqueName | core/engine/fileshare/backend.go:120-132 | ends with a free name: the name itself if free, else the first free one among the first \|taken\| numbered candidates |
| Backend.CandidateReads | core/engine/fileshare/backend.go:124-127 | the number goes in brackets before the extension, or at the end of a name without one |
| Backend.NewPathsBackend | core/engine/fileshare/backend.go:94-118 | one entry per path, distinct names in sorted order, byName agreeing with the entries, roots exactly for the directories; on an error every opened root is closed |
| Backend.LocateOfRequest | core/engine/fileshare/backend.go:138-151 | any request resolves to the entry its first cleaned component names, and to nothing when that is not on offer |
| Backend.EntryResolvesIff | core/engine/fileshare/backend.go:138-151 | the path of something inside an entry resolves to that entry and inner path if and only if its last name does not end in white space |
| Backend.SpacedNameMissed | core/engine/fileshare/backend.go:138-151 | the entry "a " is missed by its own path and met by a longer clean one |
| Share.ReadOnlyChangesNothing | core/engine/fileshare/handlers.go:37-201 | for every request sequence a read-only share leaves the filesystem unchanged |
| Share.PickedKeepsDisk | core/engine/fileshare/backend.go:167-172 | whatever the mode, a picked-paths share changes nothing and denies every open for writing |
| Share.PickedChangesNothing | core/engine/fileshare/backend.go:224-231 | for every request sequence, even if the mode check were missing |
| PickedShare.TidyAsks | core/engine/fileshare/handlers.go:28-35 | names that do not end in white space arrive as they are written, so the following hold for them as texts |
| PickedShare.GetPicked | core/engine/fileshare/backend.go:153-165 | fetching name/sub from a readable picked share succeeds exactly when the name is on offer and a file is at sub below the picked path (sub empty for a picked file), and opens that file; otherwise it is missing, or a directory |
| PickedShare.StatPickedEntry | core/engine/fileshare/backend.go:174-191 | asking about name/sub gives what is there |
| PickedShare.ListPicked | core/engine/fileshare/backend.go:206-221 | listing name/sub gives the names in that directory |
| PickedShare.RootOfPicks | core/engine/fileshare/backend.go:193-205 | the root lists the entries: the directories, and the files still there |
| PickedShare.OtherNamesMissing | core/engine/fileshare/backend.go:138-151 | nothing is found under a name not on offer |
| PickedShare.LooksLikeOneDirectory | core/engine/fileshare/backend.go:138-221 | for every request path, asking, listing and fetching are answered as by a share of one directory that holds the picked paths under their names |
| Share.DropBox | core/engine/fileshare/server.go:31-38 | for every request sequence: nothing read back, nothing removed, renamed or turned into something else |
| Commands.RemoveServed | core/engine/fileshare/handlers.go:150-153 | takes exactly the named entry away, if it is no directory with something in it |
| Commands.RenameServed | core/engine/fileshare/handlers.go:148-149 | moves the entry with all it contains to the new place, from the old one, and changes nothing else |
| Commands.RenameToItself | core/engine/fileshare/handlers.go:148-149 | renaming to the same place changes nothing |
| Commands.SymlinkServed | core/engine/fileshare/handlers.go:154-155 | the link keeps the text it was given |
| Commands.LinkServed | core/engine/fileshare/handlers.go:156-157 | the request's path becomes a further name for what its target names |
| Commands.SetstatServed | core/engine/fileshare/handlers.go:119-141 | never fails; sets the mode, the times and, unless the share is a drop box, the size it is given, and nothing else |
| Commands.NoAttributes | core/engine/fileshare/handlers.go:122-125 | without attributes nothing happens, and nothing fails |
| Commands.PutServedByFlags | core/engine/fileshare/handlers.go:61-87 | which opens for writing succeed by their flags, and what the file then contains |
| Commands.OpenServedByFlags | core/engine/fileshare/handlers.go:91-108 | opening for both needs a share that allows both, and ignores exclusive creation and appending |
| Share.ListAt | core/engine/fileshare/handlers.go:224-233 | fills the buffer from the offset on, touches nothing behind it, and reports the end exactly when it is reached |
| Share.ListPages | core/engine/fileshare/handlers.go:224-233 | reading page after page gives the whole listing once, in order, for every page size |
| Trees.ChunksGiveContents | core/engine/fileshare/client.go:144-145 | pieces that cover a file, in any order and overlapping, leave exactly its contents |
| Trees.CopyStep | core/engine/fileshare/client.go:104-127 | copying one more entry of a walk keeps the destination equal to the grafted part of the tree visited so far |
| ClientPaths.Arrives | core/engine/fileshare/handlers.go:28-35 | a cleaned client path, rooted or climbing, reaches the entry it names unless its last name ends in white space |
| ClientPaths.ParseJoined | core/engine/fileshare/client.go:115 | joining a directory, the base name and the walked path appends their names to the cleaned directory |
| ClientPaths.UpIsParent | core/engine/fileshare/client.go:136 | the directory of a cleaned path leads to the parent, until the path is above the root |
| ClientPaths.RelToLeads | core/engine/fileshare/client.go:189 | followed from the one directory, the relative path leads to the other |
| Requests.MkdirAll | core/engine/fileshare/client.go:117 | on a share that can be written succeeds if and only if nothing but directories is on the way, and then makes exactly the missing ones; otherwise changes nothing |
| Requests.MakeDirsMakes | core/engine/fileshare/client.go:196 | os.MkdirAll likewise |
| Uploads.UploadFile | core/engine/fileshare/client.go:130-155 | succeeds if and only if the way can be made and no directory or link is there, and then creates or replaces the file with the local contents; otherwise changes nothing |
| Uploads.Upload | core/engine/fileshare/client.go:92-128 | succeeds if and only if nothing of another kind is in the way, and then a file or tree has arrived as its directories and regular files, for any walk order and any split of its files |
| Downloads.DownloadFile | core/engine/fileshare/client.go:211-236 | succeeds if and only if the share gives the file and it fits locally, and then the local file has the remote contents; the share is unchanged |
| Downloads.DownloadEntry | core/engine/fileshare/client.go:173-208 | succeeds if and only if the share can be read and nothing of another kind is in the way, and then the remote file or tree has arrived, for any walk order; the share is unchanged |
| Downloads.LocalPathOf | core/engine/fileshare/client.go:189-193 | the relative path of a walked entry keeps the last remote name and what is below it |
| Backup.Download | core/engine/fileshare/client.go:158-209 | "." fetches each top-level entry; it succeeds if and only if the share can be read and nothing of another kind is in the way, and then the whole share has arrived; anything else fetches that tree |
| Backup.UploadThenDownload | core/engine/fileshare/client.go:92-236 | Upload to a fresh place and then Download of it to a fresh place both succeed and give the same directories, files and contents back, without the entries that are neither |
| Backup.UploadedComesBack | core/engine/fileshare/client.go:92-236 | what one leaves is what the other can fetch, and their results undo each other |
| Backup.GraftProper | core/engine/fileshare/client.go:92-128 | an upload leaves only proper names on the share |
| Tracker.Server.Track | core/engine/fileshare/server.go:248-256 | admits a connection exactly while the share is not closed |
| Tracker.Server.Close | core/engine/fileshare/server.go:265-281 | the first call closes every tracked connection and then the root, any other nothing |
| Tracker.GoneIsClosed | core/engine/fileshare/server.go:179-206 | in every interleaving an admitted connection that is no longer tracked is closed |
| Tracker.TurnedAwayOrTracked | core/engine/fileshare/server.go:180-186 | a connection turned away is closed, one that is served is tracked |
| Tracker.HandlerCanFinish | core/engine/fileshare/server.go:179-206 | the handler of every connection can finish, and then the connection is closed and no longer tracked |
| Tracker.CloseCanFinish | core/engine/fileshare/server.go:265-281 | a Close that has begun can finish, whatever is still being served |
| Tracker.NoneAdmittedAfterDone | core/engine/fileshare/server.go:248-256 | once done is set no later run admits a connection |
| Tracker.AllClosedIff | core/engine/fileshare/server.go:265-281 | after Close has begun, every connection ever admitted is closed if and only if what it took over is |
| Tracker.RootClosedLast | core/engine/fileshare/server.go:277-280 | when Close has finished, every connection ever admitted is closed |
| Tracker.SecondCloseDoesNotWait | core/engine/fileshare/server.go:267-270 | a run in which a second Close returns with a connection open |
| Counter.CountingFile.Advance | core/engine/fileshare/handlers.go:272-283 | the count is the largest capped end seen and never falls |
| Counter.CountingFile.Close | core/engine/fileshare/handlers.go:285-296 | the final report carries that value, and as the total when the size was unknown |
| Counter.HighWaterIsMax | core/engine/fileshare/handlers.go:272-283 | the largest of the ends, each clamped to a known total: an upper bound that is reached |
| Counter.HighWaterWithin | core/engine/fileshare/handlers.go:272-283 | while nothing reaches past a known size it is plainly the largest end |
| Counter.OrderIrrelevant | core/engine/fileshare/handlers.go:260-283 | the count depends only on which ends were seen |
| Counter.ReadsEndAtSizeIff | core/engine/fileshare/handlers.go:274-276 | with a known size the count ends at it if and only if some read reached the end |
| Counter.WritesEndAtSizeIff | core/engine/fileshare/handlers.go:266-270 | for writes in any order the count is the size of the file if and only if no empty piece was addressed past its end |
| Counter.EmptyPieceCounts | core/engine/fileshare/handlers.go:266-270 | such a piece: the count is five, the file is empty |
| Throttle.ProgressEmitter.Report | core/engine/files.go:20-39 | pushes exactly the callbacks that the rule lets through, each as an event with its file, bytes, total and final mark |
| Throttle.LastIsLatest | core/engine/files.go:19-31 | the map holds exactly the files whose latest pushed event was not the final one, with its time |
| Throttle.HeldBackIff | core/engine/files.go:23-31 | a callback is held back if and only if it is not final and the latest pushed one of its file was not final either and is under 100 ms old; every final one is pushed |
| Throttle.SpacedOut | core/engine/files.go:15-26 | two pushed events of one file with no final one between them are at least 100 ms apart |
| ServedPorts.PlanPorts | core/engine/server.go:106-136 | announced in strictly increasing order are exactly the ports somebody answers on; serving all answers everywhere; port 22 and port 1 go to whom they should |
| PeerTable.ServerPathProbe | core/engine/path.go:49-84 | the loop emits what the specification of the probe emits, detail included, for any table order |
| PeerTable.FoldIs | core/engine/path.go:64-75 | the fold counts the peers that are active or have an address or relay, and the path is direct if one of them has an address |
| PeerTable.SameForEveryOrder | core/engine/path.go:64-75 | the number of peers and the kind of path do not depend on the order of the peer map |
| PeerTable.ShownIsPossible | core/engine/path.go:70-74 | the detail is the address of a direct peer if there is one, else the relay of some peer |
| PeerTable.EveryDetailShown | core/engine/path.go:65-75 | each of these details is shown for some order of the map |
| PeerTable.LastToldIsLatest | core/engine/path.go:76-82 | the last emitted pair equals the latest sample |
| PeerTable.ReportsAreSamples | core/engine/path.go:76-82 | every report is one sample, whole, detail included, and the reports keep the order of the samples |
| PeerTable.Heartbeat | core/engine/path.go:76-82 | with samples at most 5 s apart an emission is decided at most 65 s after the one before it, and a repeated one more than 60 s after it |
| Recent.RecentPeers.Touch | app/lib/core/recent.dart:56-62 | the list stays that of the run of calls made so far, for which the results below hold |
| Recent.RecentPeers.Remove | app/lib/core/recent.dart:69-72 | likewise for a removal |
| Recent.RefinesFull | app/lib/core/recent.dart:56-72 | after any run that removes nothing resident while something is pushed out, the list is the first maxItems entries of the unbounded one |
| Recent.TouchesNeverLossy | app/lib/core/recent.dart:56-67 | in particular after any run of touches and renames |
| Recent.FullReflects | app/lib/core/recent.dart:56-72 | the unbounded list has one entry for every token touched and not removed since, by last touch, with the name and time of that touch and the last alias it was given |
| Recent.RenameSets | app/lib/core/recent.dart:64-67 | renaming gives the listed entry that alias and changes nothing else |
| Recent.RemoveKeepsFirstIff | app/lib/core/recent.dart:69-72 | a removal keeps this if and only if the token was not listed or nothing is pushed out |
| Recent.RemovalCanLose | app/lib/core/recent.dart:69-72 | a run in which it does not |
| Recent.NeverTwice | app/lib/core/recent.dart:56-72 | no token twice and at most maxItems, whatever the clock does |
| Recent.NewestFirst | app/lib/core/recent.dart:56-62 | newest first under a clock that never falls |
| Recent.AliasSurvives | app/lib/core/recent.dart:56-72 | an alias stays for as long as its entry is listed and not renamed, whatever the clock does |
| Recent.EvictedLosesAlias | app/lib/core/recent.dart:57-60 | an entry that had been pushed out comes back without its alias |
| PortList.ParsePorts | app/lib/util/format.dart:18-33 | accepted text gives each port once, increasing, within 1..65535, exactly the union of its ranges; otherwise the first refused part is reported |
| PortList.TokensJoin | app/lib/util/format.dart:20-21 | the parts on either side of a comma or white space are parts for themselves |
| PortList.RangeReads | app/lib/util/format.dart:22-27 | a range reads from its first to its last number, and is accepted when it is in range, in order and at most 1024 wide |
| PortList.HexReads | app/lib/util/format.dart:23-24 | a number after 0x is read in hexadecimal, and nothing else is |
| PortList.TrimEndsIs | app/lib/util/format.dart:23-24 | white space around a number is dropped |
| PortList.OpenRangeRefused | app/lib/util/format.dart:22-27 | a range without one of its numbers is refused |
| PortList.PartsOfText | app/lib/core/models.dart:95-97 | a printed list is accepted, each part as its own port |
| PortList.ParseUndoesPrint | app/lib/util/format.dart:18-33 | parsing a printed list gives its ports, and the same list if and only if it was strictly increasing |

## Left out

* The tunnel, WireGuard, DERP, SSH and SFTP libraries: their calls succeed or fail in any way. The SFTP server library is
  modelled by what it passes on (one request with a cleaned absolute path) and the client library by `MkdirAll`,
  which stats, makes the parent and makes the directory.
* The filesystem is a finite map of directories, files and symbolic links: no permissions, no following of symbolic
  links (also not for a link given to Upload or met at the top of a share), no `os.Root` escape checks, no partial
  writes; a hard link is a copy. A file being read and written at once is not modelled.
* Directory walks are any list that names each entry once and directories before their contents. Cancelling a
  transfer half way, its progress callbacks and byte rates are left out.
* Per-connection goroutines of a forward (`dialPeerPort`, `waitReady`) and of a file session: they never change a
  session's state. A listener closed directly because its session could not be registered is left out too.
* Argument checks, token normalisation, manifests, SOCKS, the terminal, the C bridge, JSON and the isolates and timers of
  the app: no hard invariant.
* `setInfo` is a method of the session object but no step of the transition system, so extra fields are not followed
  from the engine into the UI's table; the fold itself merges them. The progress events of the transition system carry
  no byte counts; those are the subject of `Throttle` and `Counter`.
* The objects of `Sessions`, `Registry`, `Tracker` and `Requests` run one call at a time; races are the subject of the
  transition systems in `Lifecycle` and `Tracker`.
* `clientPathProbe`, `_seed`, `_load` and `_save`: the first is the server's probe with one field less, the others load or
  store outside the fold.
* Numbers are unbounded. Port numbers are within 16 bits by the checks made before; a hexadecimal number too long for
  64 bits is refused by the parser as out of range instead of as malformed.
- Requests.MkdirAll: says when it succeeds and what it makes for names that do not end in white space; for others only that a read-only share is unchanged.
- Uploads.UploadFile: likewise.
- Uploads.Upload: likewise for trees of such names. When something is in the way it says that the upload fails, not which entries were copied before; a link given as the source is refused, since links are not followed.
- Downloads.DownloadFile: says what happens for names that do not end in white space; for others only that the share is unchanged and that it fails when the share refuses a request.
- Downloads.DownloadEntry: likewise for trees of such names, and not which entries were copied before a failure.
- Backup.Download: likewise; for ".", the share must have no symbolic link at its top level, since links are not followed here.
