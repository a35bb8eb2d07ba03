# tortui: a verified model

tortui is a terminal program that searches torrent indexers and downloads what it finds.
This project models its state machines and proves what their comments promise over whole
runs: the torrent engine's bookkeeping under one lock and many goroutines, the indexer
registry with its cache and refresh floor, the fold that merges search results, the
key-value store and the session that restores torrents from it, the sync of configured
sources with the registry, the settings screen's copy of the built-in sources, the scroll
offset, the rotating log, the cell formatters, and the updates channel.

Each state machine comes as values with one function a critical section (a step), so that
a list of events is a run and every interleaving is some list; as lemmas about every run;
and as a class whose methods have the source's loops and in-place changes and are proved
to take exactly those steps. `dafny verify dfyconfig.toml` checks everything.

| file | contents |
|---|---|
| `engine_state.dfy`, `engine_steps.dfy` | the engine's state; its critical sections and unlocked windows |
| `engine_invariants.dfy`, `engine_proofs.dfy`, `engine_slots.dfy` | what every step keeps; the download slots |
| `engine_effects.dfy` | what one event does to one entry, one library torrent and one row of the tables |
| `engine_history.dfy` | what no event takes back |
| `engine_theorems.dfy` | what holds in every run, and where a promise is not kept |
| `engine_deletes.dfy`, `engine_gates.dfy`, `engine_sharing.dfy` | waiting for deletes; half-shut gates; shared torrents |
| `engine_live.dfy`, `engine_refused.dfy` | whose torrent the client holds; refused torrents that run again |
| `engine_data.dfy`, `engine_pauses.dfy` | what a Remove deletes and a refusal keeps; what a Resume gives back |
| `engine_calls.dfy`, `engine_tracking.dfy` | what a call leaves; ids, how long entries stay tracked, no torrent forgotten |
| `engine.dfy` | the engine's methods |
| `indexer.dfy`, `registry.dfy`, `merge.dfy` | category keys and filters; the registry; the merge |
| `store.dfy`, `session.dfy`, `restoring.dfy` | the store; the session; the session on the engine |
| `sync.dfy`, `builtins.dfy` | configured sources; built-in rows |
| `scroll.dfy`, `rotate.dfy`, `cells.dfy`, `updates.dfy` | the screens' and the log's arithmetic; the updates channel |
| `text.dfy`, `wrappers.dfy` | decimal, byte order, sorting; sequences |

## Where the code and its comments part

The model follows the code. Each point names the lemma that shows it, and the one that says
when the promise holds.

- The engine's comments say a paused entry's transfers are held. The space check shuts
  only the download and the seed policy only the upload, so the gate is then half open
  (`SpacePauseLeavesUploadOpen`), and a Resume that queues such an entry leaves it so.
  `GateFollowsPause` states what does hold, `HalfShutExactly` which gates are half shut.
- `Remove` drops the library torrent after it lets go of the lock. An Add of the same
  infohash in between is handed the same torrent, gate shut (`ReaddBeforeDropIsShut`), and
  the Drop then leaves it a download that cannot run (`ReaddBeforeDropIsDead`). Two
  .torrent addresses that turn out to be one torrent share it too, while both are tracked
  (`TwoFetchesShare`). A torrent becomes shared exactly when AddTorrentSpec answers an
  attach with one the client already had (`SharedExactly`), and that entry is then no longer
  tracked or one of the two was added by address (`SharedOnlyWith`). `GateFollowsPause` and
  `TorrentLives` speak of torrents handed to one entry; `UnsharedGates` of runs that have no
  others, and `OrderlyGates` of a condition on the claims that makes a run one of them.
- A refused entry, dropped from the library, can count as a running download again and
  hold a slot. An entry refused while it is queued stays in the queue, and its turn brings
  it back (`RefusedWhileQueued`). So does a Resume of one refused while the space check had
  it paused (`RefusedWhileSpacePaused`), or of one brought back and paused again.
  `RefusedRunsAgain` says exactly when, `RunsOnceRevived` over runs.
- A Resume of an entry whose fetch or attach is still in flight takes a slot beyond
  `max_active_downloads`; nothing else does (`SlotsHold`).
- A scraper entry's adapter calls itself what its definition declares. When that is not
  the entry's id, `built` and the registry disagree and the source cannot be taken out
  (`StraySourceStays`); `AgreesExactly` says when they agree.
- Two failed toggles of one built-in row can leave the settings screen showing the opposite
  of what is saved (`TwoFailuresDiverge`); `ShownExactly` says when a row is right.
- `flush` never resets `dirty`, so every flush after the first change writes again. What
  is saved is not affected.
- History numbers start over when the store is opened on a cleared history
  (`ClearedNumbersRestart`): they increase within a history, not across runs. The counter
  is 64 bits wide and wraps (`AddHistoryNumbers`).
- Resume can lose a record when an answer is the id of a later record that comes back
  under another (`KeptExactly`). An engine that starts empty never gives such an answer
  (`EmptyEngineLosesNothing`).

## Model

| member | source | states |
|---|---|---|
| EngineTheorems.DeletesSpareDownloads | internal/engine/anacrolix/engine.go:1519-1569 | In every interleaving, an unrefused tracked entry past its wait for deletes has a name no delete under way at a possibly same destination may cover |
| EngineDeletes.LaterDeletesSpare | internal/engine/anacrolix/engine.go:2284-2369 | In every run a delete recorded after an entry's name is known is of another name or at a destination shown to be another, for as long as the entry is tracked and not refused |
| EngineDeletes.WaitsForEarlier | internal/engine/anacrolix/engine.go:1536-1569 | In every run a waiting entry goes on to its data if and only if no delete of its name is left that was recorded before its name was known or that is at a destination shown to be another |
| EngineTheorems.GateFollowsPause | internal/engine/anacrolix/engine.go:1280-1432 | In every run the gate of a published, unrefused entry whose library torrent is its own is open exactly when it is neither paused nor queued; download alone is open exactly when the seed policy stopped it, upload alone only when it is queued or the space check paused it; a pause by the user shuts both |
| EngineTheorems.HeldJoinsShut | internal/engine/anacrolix/engine.go:1383-1432 | A torrent of its own that joins held has both directions shut before its info dictionary is set (UnsharedGates: in a run that hands no torrent twice every one) |
| EngineGates.HalfShutExactly | internal/engine/anacrolix/policy.go:454-531 | After an event an entry's gate lets it upload and not download if and only if the event was the space check stopping it, or it did so before and the event was not a Resume that runs it, its turn in the queue, a pause of it while queued, the acceptance of its info, its refusal, or a second entry joining its torrent |
| EngineGates.HalfShutOverRuns | internal/engine/anacrolix/policy.go:454-531 | In every run exactly the gates the space check half shut, and nothing settled since, are half shut |
| EngineSharing.SharedExactly | internal/engine/anacrolix/engine.go:1383-1432 | Over any run, whatever it adds and by whatever address, a torrent is handed to two entries at its end if and only if one was at its start, or AddTorrentSpec answered some attach of the run with a torrent the client already had |
| EngineSharing.UnsharedGates | internal/engine/anacrolix/engine.go:1280-1432 | In a run in which AddTorrentSpec never does, the gate law and the shut join hold for every unrefused entry |
| EngineSharing.SharedOnlyWith | internal/engine/anacrolix/engine.go:1383-1432 | In every run a torrent is handed to a second entry only if one of the two is no longer tracked or was added by a .torrent address; a torrent becomes shared only so, with the entry it was made for |
| EngineSharing.OrderlyGates | internal/engine/anacrolix/engine.go:1280-1432 | A run keeps to that when each Add, and each fetched .torrent address as it claims its infohash, finds that whoever waits in the queue to attach that infohash, is attaching it or holds the client's torrent of it is tracked and records it (and was not refused, if the engine is closed): no torrent is then handed twice, and the gate law and the shut join hold for every unrefused entry |
| EngineSharing.EventSolo | internal/engine/anacrolix/engine.go:1086-1121 | An event whose claim finds its infohash so keeps at most one entry with anything to do with any infohash, and none that failed or was refused while the client still holds its torrent |
| EngineLive.TorrentLives | internal/engine/anacrolix/engine.go:2284-2369 | In every run, while the engine is open, the client holds the torrent of every published, tracked entry that is neither refused nor being refused, unless that torrent was handed to another entry too |
| EngineTheorems.LeftDataHasOneOwner | internal/engine/anacrolix/engine.go:1678-1699 | Two tracked refused entries that own may-be-same left data are at destinations shown to differ; no entry both owns left data and shares some |
| EngineTheorems.RefusedDeletesExactly | internal/engine/anacrolix/engine.go:2380-2432 | Removing a refused entry deletes its left data exactly when no other tracked entry there has, may still take, or kept as shared that name; it deletes nothing else |
| EngineData.TargetExactly | internal/engine/anacrolix/engine.go:2399-2432 | Removing an entry with its data deletes the name it has (the info's, or left data it owns) if and only if it has one and no other tracked entry that may be at the same destination has a name that may be it (for left data, nor may still take any, nor kept it as shared); else that name, or the one it shares, is reported as kept, and as maybe another's when nobody is known to have it |
| EngineData.RemoveDeletes | internal/engine/anacrolix/engine.go:2284-2369 | Remove records exactly that delete, at the entry's destination, or none |
| EngineData.DeleteLasts | internal/engine/anacrolix/engine.go:2284-2378 | A delete is under way from the Remove that records it until it ends; no other event begins or ends one |
| EngineData.DeletesUnderWay | internal/engine/anacrolix/engine.go:2284-2378 | So in every run the deletes under way are those recorded and not ended since |
| EngineData.NamesMeet | internal/engine/anacrolix/samedir.go:92-100 | Two names may be one file's if and only if neither is empty and they differ in case alone |
| EngineData.KeepExactly | internal/engine/anacrolix/engine.go:1678-1699 | Data found on disk is the refused entry's own if and only if no other tracked entry that may be at the same destination has a known name that may be it, or is refused and kept it as shared; else it is kept as shared |
| EngineData.RefusalSettles | internal/engine/anacrolix/engine.go:1656-1699 | A refusal, and the clean-up of a failed attach from the queue, settles the entry's left data so |
| EngineData.RestoreSettles | internal/engine/anacrolix/resume.go:323-372 | So does a restore that cannot run |
| EngineData.LeftDataIsOwned | internal/engine/anacrolix/engine.go:1678-1699 | A run that reaches an entry owning left data: a Remove with data then deletes it, an Add of its infohash elsewhere is refused for it |
| EngineTheorems.OneEntryPerInfoHash | internal/engine/anacrolix/engine.go:1070-1121 | Entries findOrTrack minted have pairwise different infohashes in every reachable state; order lists the tracked ids once each |
| EngineTheorems.QueueListsQueued | internal/engine/anacrolix/policy.go:266-281 | In every run the queue holds each queued entry once, and besides those only entries refused while queued; what it holds can be started |
| EngineTheorems.AttachedOnce | internal/engine/anacrolix/engine.go:1280-1361 | While an entry is being attached nothing is left to attach it with again and the queue does not hold it |
| EngineTheorems.SlotsHoldOverRuns | internal/engine/anacrolix/policy.go:246-264 | Up to the first overshooting Resume no run has more active downloads than the limit |
| EngineSlots.SlotsHold | internal/engine/anacrolix/engine.go:2212-2273 | From at most the limit of active downloads an event goes past it if and only if it is a Resume of an entry whose fetch or attach is in flight with every slot taken |
| EngineTheorems.ResumeWhileFetchingOvershoots | internal/engine/anacrolix/engine.go:2212-2273 | A run in which such a Resume leaves two downloads active under a limit of one |
| EngineTheorems.AddAgain | internal/engine/anacrolix/engine.go:1859-1895 | Adding a tracked, unrefused infohash answers with its id and changes nothing |
| EngineTheorems.AddAfresh | internal/engine/anacrolix/engine.go:1086-1121 | With no live entry for the infohash: refused and unchanged exactly when a refused entry left data elsewhere that is still there; else the refused entries for it go, every other stays, one new entry records it |
| EngineTheorems.AddThenFail | internal/engine/anacrolix/engine.go:1040-1068 | However far a failed attach got, whatever the other goroutines did meanwhile, and whether it failed before the join, at setting the info or because the engine closed: what is tracked after the clean-up is what was tracked before the Add and still is, less the refused entries for the infohash; nothing else changes |
| EngineTheorems.AddFailsAtOnce | internal/engine/anacrolix/engine.go:1040-1068 | An Add whose attach fails at once leaves the tracked set, the order and the queue as they were, less the refused entries for that infohash |
| EngineTheorems.SpacePauseLeavesUploadOpen | internal/engine/anacrolix/policy.go:454-531 | A run in which the space check leaves a paused entry with its upload open: the gate is only half shut |
| EngineTheorems.ReaddBeforeDropIsShut | internal/engine/anacrolix/engine.go:2284-2369 | A run in which an infohash added again between Remove letting go of the lock and its Drop shares the dying torrent, gate shut though neither paused nor queued |
| EngineTheorems.ReaddBeforeDropIsDead | internal/engine/anacrolix/engine.go:2284-2369 | That run and then the Drop: the new entry is tracked, not refused and published on a dropped torrent, and the client is empty |
| EngineRefused.RefusedRunsAgain | internal/engine/anacrolix/policy.go:335-396 | An event makes a tracked, refused entry a running download if and only if it is its turn in the queue with a slot free, or a Resume of it with a slot free while the space check's pause holds it or it was paused while it ran |
| EngineRefused.RunsOnceRevived | internal/engine/anacrolix/engine.go:2212-2273 | In a run that starts with no refused entry running, one runs at some point if and only if some event of the run brings one back |
| EngineRefused.RefusedWhileQueued | internal/engine/anacrolix/engine.go:1656-1676 | A run that reaches an entry refused while it is queued, next and with a slot free |
| EngineRefused.RefusedWhileSpacePaused | internal/engine/anacrolix/engine.go:2215-2273 | A run that reaches an entry refused while the space check's pause holds it, which a Resume then makes a running download |
| EnginePauses.EventRests | internal/engine/anacrolix/engine.go:2134-2273 | A pause ends only by a Resume; until then no event changes whose pause it is or the state to come back to, but that the acceptance of the info makes that Downloading |
| EnginePauses.PauseHolds | internal/engine/anacrolix/engine.go:2134-2273 | So over any run without a Resume of it |
| EnginePauses.ResumeGivesBack | internal/engine/anacrolix/engine.go:2212-2273 | Whatever happens between a Pause and the next Resume of an entry neither paused nor errored, the Resume gives back its state (Downloading if the info was accepted meanwhile), or queues it last if it needs a slot and none is free, and nothing else of it but the pause changes |
| EnginePauses.SeedStopUndone | internal/engine/anacrolix/engine.go:2212-2273 | A Resume of an entry the seed policy stopped makes it seed, and in no later run does the seed policy stop it again |
| EnginePauses.SpaceStopUndone | internal/engine/anacrolix/policy.go:454-531 | A Resume of an entry the space check stopped makes it download, or queues it for a slot |
| EnginePauses.ShutdownStopsAll | internal/engine/anacrolix/engine.go:2191-2210 | A shutdown leaves every tracked entry paused, with the pauses of the user, the space check and the seed policy as they were |
| EngineTheorems.TwoFetchesShare | internal/engine/anacrolix/engine.go:1169-1279 | A run in which two .torrent addresses that turn out to be one torrent share it, both tracked, published and recording its infohash |
| EngineHistory.RunLasts | internal/engine/anacrolix/engine.go:221-330 | In every run an entry keeps its id, its destination and its torrent once published, a refused one stays refused, one forgotten is never tracked again, a known info is not replaced, a delete number is not used again |
| EngineProofs.RunKeeps | internal/engine/anacrolix/engine.go:416-537 | Every interleaving of critical sections and unlocked windows keeps every invariant |
| EngineProofs.KeptApart | internal/engine/anacrolix/engine.go:1678-1717 | Data kept as an entry's own is apart from what every other tracked refused entry left |
| EngineProofs.TargetApart | internal/engine/anacrolix/engine.go:2399-2432 | What a Remove deletes is no other tracked entry's known data name at its destination |
| EngineProofs.ClaimClears | internal/engine/anacrolix/engine.go:1846-1895 | After a clear claim no tracked entry but the claimer records the infohash |
| EngineProofs.HeadStarts | internal/engine/anacrolix/policy.go:317-396 | The queue's head is always a tracked, unpaused entry with something to start |
| EngineCalls.MovesTo | internal/engine/anacrolix/policy.go:292-315 | The torrent moved stands at the position asked for, or the nearest there is, the others as they stood to one another; nothing else changes |
| EngineCalls.HeadBegins | internal/engine/anacrolix/policy.go:335-396 | With a slot free the queue's head starts with what it has: its torrent, downloading once its info is known and its gate open, or its address, or its spec |
| EngineCalls.CompletionFreesSlot | internal/engine/anacrolix/policy.go:410-452 | A complete download that is not paused seeds and gives its slot up; nothing else changes |
| EngineCalls.SeedPolicyStops | internal/engine/anacrolix/policy.go:410-452 | The seed policy stops exactly what seeds and was not resumed to: it is paused, its upload shut, its download as it was |
| EngineCalls.PauseFreesSlot | internal/engine/anacrolix/policy.go:246-264 | A pause, of the user or for lack of space, frees the entry's slot and no other |
| EngineCalls.AddStarts | internal/engine/anacrolix/engine.go:1086-1121 | An Add that tracks: the entry is last in the order, at the destination, under the id wanted or the least free number, paused as asked, else queued last when the slots taken without the refused entries it replaces are all there are, else starting |
| EngineCalls.AddressStarts | internal/engine/anacrolix/engine.go:956-990 | An address starts out likewise, fetched at once unless it is queued |
| EngineCalls.AddBlocked | internal/engine/anacrolix/engine.go:1846-1895 | An Add with no live match is refused if and only if a refused entry for the infohash left data, not shown to be at the destination and not seen gone, and names that data |
| EngineTracking.IdsNotReused | internal/engine/anacrolix/resume.go:67-91 | In every run an id once given to a torrent, tracked still or not, goes to another only when that one asks for it by name |
| EngineTracking.TrackedUntil | internal/engine/anacrolix/engine.go:1040-1121 | An event takes a tracked entry out of the tables if and only if it is its Remove, the clean-up of its failed Add, or, the entry being refused, a claim of its infohash that nothing live and no data left elsewhere stops |
| EngineTracking.TrackedThroughout | internal/engine/anacrolix/engine.go:1056-1068 | So over any run |
| EngineTracking.EventSteps | internal/engine/anacrolix/engine.go:1280-1569 | Every event moves an entry one step along its attach or leaves it: the pause read is what the join is held by, a failure keeps the info's name, only a removed entry ends where it would be published |
| EngineTracking.AddressFailsInPlace | internal/engine/anacrolix/engine.go:1169-1279 | In every run an unrefused entry added by an address stays tracked until its Remove, and its failed attach leaves it errored |
| EngineTracking.NothingLeaks | internal/engine/anacrolix/engine.go:1280-1436 | In every run, while the engine is open, a torrent the client holds and only one entry was handed is being attached, or about to be dropped, or that of its entry, tracked and not refused |
| EngineSteps.Mint | internal/engine/anacrolix/resume.go:67-91 | A minted id names no tracked torrent |
| EngineSteps.NextFree | internal/engine/anacrolix/resume.go:83-90 | The next number is the least above the counter that names no tracked torrent |
| EngineSteps.FirstLive | internal/engine/anacrolix/engine.go:1859-1895 | The live match is one of the ids and matches, and there is none only when none of them does |
| EngineSteps.FirstBlocking | internal/engine/anacrolix/engine.go:1859-1895 | The blocking entry is one of the ids and blocks, and there is none only when none of them does |
| Engine.Engine.constructor | internal/engine/anacrolix/engine.go:416-537 | A new engine is the empty state and keeps every invariant |
| Engine.Engine.ActiveLocked | internal/engine/anacrolix/policy.go:246-264 | The loop counts exactly the ids that hold a slot |
| Engine.Engine.DataNameUsedLocked | internal/engine/anacrolix/engine.go:1719-1748 | The loop finds a name taken, and one pending, exactly when some other tracked entry has it or may still take it |
| Engine.Engine.SharedNameKeptLocked | internal/engine/anacrolix/engine.go:1701-1717 | True exactly when another refused entry there kept the name as shared |
| Engine.Engine.KeepLeftLocked | internal/engine/anacrolix/engine.go:1678-1699 | The data left is owned or shared as KeepExactly says |
| Engine.Engine.RemoveTargetLocked | internal/engine/anacrolix/engine.go:2380-2432 | The delete decided is the one TargetExactly says |
| Engine.Engine.DequeueLocked | internal/engine/anacrolix/policy.go:275-281 | The queue loses the first occurrence of the id and nothing else |
| Engine.Engine.UntrackLocked | internal/engine/anacrolix/engine.go:1056-1068 | The entry leaves the table, the order and the queue; nothing else changes |
| Engine.Engine.MintIDLocked | internal/engine/anacrolix/resume.go:67-91 | The loop gives the wanted id when free, else the next free number |
| Engine.Engine.MatchInfoHash | internal/engine/anacrolix/engine.go:1846-1895 | The first live match, or else every refused match in order |
| Engine.Engine.FindLeftData | internal/engine/anacrolix/engine.go:1846-1895 | The first refused entry whose left data the add would strand |
| Engine.Engine.UntrackEach | internal/engine/anacrolix/engine.go:1846-1895 | Each of them is untracked in turn |
| Engine.Engine.ClaimInfoHashLocked | internal/engine/anacrolix/engine.go:1846-1895 | The claim is the specification's, and untracks only when clear |
| Engine.Engine.MintAdded | internal/engine/anacrolix/engine.go:1086-1121 | A new entry is registered paused, queued or starting as the flags and slots decide |
| Engine.Engine.FindOrTrack | internal/engine/anacrolix/engine.go:1070-1121 | The whole new state and outcome are the specification's, and every invariant is kept |
| Engine.Engine.TrackErrored | internal/engine/anacrolix/resume.go:323-372 | A restore that cannot run is tracked as refused, its left data settled |
| Engine.Engine.SetGate | internal/engine/anacrolix/engine.go:2173-2189 | Only the library torrent's two gate flags change |
| Engine.Engine.Publish | internal/engine/anacrolix/engine.go:1303-1361 | Publication drops, fails or publishes, and settles the gate from what was read before |
| Engine.Engine.InfoAccepted | internal/engine/anacrolix/engine.go:1490-1517 | Info arrival settles state and gate in one critical section |
| Engine.Engine.RefuseMarks | internal/engine/anacrolix/engine.go:1656-1676 | A refusal fails the entry and settles its left data |
| Engine.Engine.AwaitDeletesOnce | internal/engine/anacrolix/engine.go:1536-1569 | One look at the deletes under way lets the entry pass exactly when none covers it |
| Engine.Engine.PausedFlags | internal/engine/anacrolix/engine.go:2171-2189 | An entry paused keeps its state to come back to, unless errored |
| Engine.Engine.PauseLocked | internal/engine/anacrolix/engine.go:2171-2189 | The entry is paused, off the queue, its gate shut |
| Engine.Engine.PauseByUser | internal/engine/anacrolix/engine.go:2134-2169 | The entry is paused, off the queue, gate shut, and marked as paused by the user |
| Engine.Engine.Pause | internal/engine/anacrolix/engine.go:2134-2169 | Pause of an unknown or paused id changes nothing; else the entry is paused by the user; invariants kept |
| Engine.Engine.PauseForShutdown | internal/engine/anacrolix/engine.go:2191-2210 | Every unpaused entry in order is paused, without the user's mark |
| Engine.Engine.PauseEach | internal/engine/anacrolix/engine.go:2195-2210 | The loop over the order pauses each unpaused entry |
| Engine.Engine.Resumed | internal/engine/anacrolix/engine.go:2215-2273 | The state an entry comes back to after a pause by user, space or seed policy, as ResumeGivesBack, SpaceStopUndone and SeedStopUndone say |
| Engine.Engine.ResumeLocked | internal/engine/anacrolix/engine.go:2215-2273 | Into the queue when every slot is taken, else running with its gate open |
| Engine.Engine.Resume | internal/engine/anacrolix/engine.go:2212-2273 | Resume of an unknown or unpaused id changes nothing; invariants kept |
| Engine.Engine.ActiveWith | internal/engine/anacrolix/policy.go:246-264 | The slots taken if the entry had its new state |
| Engine.Engine.PromoteOneLocked | internal/engine/anacrolix/policy.go:335-396 | The queue's head is started when a slot is free, its gate opened |
| Engine.Engine.MoveInQueue | internal/engine/anacrolix/policy.go:292-315 | The id moves to the clamped position, the rest keeping their order |
| Engine.Engine.ForgetLocked | internal/engine/anacrolix/engine.go:2284-2369 | A removed entry leaves the tables and its torrent is to be dropped |
| Engine.Engine.Remove | internal/engine/anacrolix/engine.go:2275-2369 | The delete is decided and recorded and the entry forgotten in one critical section; invariants kept |
| Engine.Engine.EndDelete | internal/engine/anacrolix/engine.go:2371-2378 | Exactly that delete is no longer under way |
| Engine.CutFirst | internal/engine/anacrolix/engine.go:1058-1068 | Cutting at the first index found removes the first occurrence |
| EngineHistory.OthersAddNone | internal/engine/anacrolix/engine.go:1086-1121 | No event but an addition makes an id tracked, or another entry of it |
| Restoring.AdditionAnswers | internal/engine/anacrolix/resume.go:67-91 | An addition answers with a tracked id, the wanted one, or another only when that is tracked; it tracks nothing else |
| Restoring.TryAddsNone | internal/engine/anacrolix/resume.go:263-274 | An Add whose attach fails, with whatever happens before and after its clean-up, leaves no id tracked that was not |
| Restoring.TrackedWasAnswered | internal/engine/anacrolix/resume.go:161-227 | In an engine that started empty every tracked id was an answer to an earlier restore |
| Restoring.AnswersFromEmpty | internal/engine/anacrolix/resume.go:161-227 | The answers of such an engine meet the condition under which Resume keeps everything |
| Restoring.EmptyEngineLosesNothing | internal/lifecycle/session.go:113-236 | Restoring into an engine that starts empty, whatever its goroutines do meanwhile and though an add may be tracked, fail to attach and be tracked again as errored, keeps the first record of every restored id and leaves the store those and no others |
| RegistryProofs.RefreshFloorHolds | internal/indexer/registry.go:694-733 | Over any run of registrations, removals and fan-outs two requests to one id are at least the refresh floor apart |
| RegistryProofs.ServedIsCurrent | internal/indexer/registry.go:492-528 | What a lookup serves was answered inside the TTL by the object registered now, to a query of the same mode, text, seeder floor, limit, offset and set of categories, and is what that answer is under the asker's filter |
| RegistryProofs.KeySame | internal/indexer/registry.go:606-647 | Two lookups share a cache key if and only if they are of one source and of queries equal in mode, text, seeder floor, limit and offset, with the same set of categories |
| RegistryProofs.LookupExact | internal/indexer/registry.go:649-692 | In every run a lookup gets exactly the latest answer to the same search by the source registered since, filtered for the asker if that source cannot, while it is younger than the TTL; else nothing |
| RegistryProofs.FloorExact | internal/indexer/registry.go:694-733 | In every run a request is refused for a source gone, held back if and only if one to its id was let through inside the refresh floor, and else sent as asked and counted |
| RegistryProofs.UnregisterForgets | internal/indexer/registry.go:337-364 | Unregister leaves no cached answer, no order entry and no source of the id, and every other answer as it was |
| RegistryProofs.ReregisterInherits | internal/indexer/registry.go:239-270 | Registered again at once under another object the id has exactly the floor it had; a blank id is refused |
| RegistryProofs.StaleAnswerDropped | internal/indexer/registry.go:670-692 | The answer of a source removed or replaced meanwhile is never stored |
| RegistryProofs.RunKeeps | internal/indexer/registry.go:247-733 | Every interleaving keeps the tables, the floor and the ownership of every cached answer |
| RegistryProofs.RegisterKeeps | internal/indexer/registry.go:247-270 | Registering a source keeps the tables, the floor between claims and the ownership of every cached answer |
| RegistryProofs.UnregisterKeeps | internal/indexer/registry.go:345-364 | Unregistering keeps them: the last claim is retired with its id and the id's answers go |
| RegistryProofs.ReserveKeeps | internal/indexer/registry.go:720-733 | A claimed request keeps them: it is at least the floor after every earlier claim of its id |
| RegistryProofs.AnswerKeeps | internal/indexer/registry.go:492-528 | An answer keeps them: it is stored only when its source is the one registered |
| Registry.Registry.constructor | internal/indexer/registry.go:220-237 | A new registry is empty and sound |
| Registry.Registry.PruneRetiredFetch | internal/indexer/registry.go:272-281 | Exactly the retired requests older than the floor go |
| Registry.Registry.Register | internal/indexer/registry.go:239-270 | The new state and outcome are the specification's |
| Registry.Registry.Unregister | internal/indexer/registry.go:337-364 | The new state is the specification's; an unknown id is reported |
| Registry.Registry.CutOrder | internal/indexer/registry.go:345-364 | The order loses the id and keeps the rest in order |
| Registry.Registry.ForgetAnswers | internal/indexer/registry.go:345-364 | Exactly the id's cached answers go |
| Registry.Registry.GetCached | internal/indexer/registry.go:649-668 | An answer inside the TTL is served, an older one dropped |
| Registry.Registry.Reserve | internal/indexer/registry.go:705-733 | A request is claimed, throttled or refused as the registered source decides |
| Registry.Registry.Store | internal/indexer/registry.go:670-692 | The answer is stored, and expired ones dropped, only while its source is registered |
| Registry.Registry.Answered | internal/indexer/registry.go:492-528 | What a fan-out gets is filtered exactly when its source cannot filter |
| Registry.Registry.SelectSources | internal/indexer/registry.go:366-405 | Every enabled source in order, or each id asked for once in the order asked |
| Registry.NamedSelection | internal/indexer/registry.go:377-399 | A fan-out by name asks each id once, in the order first named, loses none, and asks the source registered under it |
| Registry.EnabledSelection | internal/indexer/registry.go:377-399 | A fan-out without names asks exactly the enabled sources, as registered, in the order of registration |
| Registry.NewSourceAskedLast | internal/indexer/registry.go:247-270 | A source newly registered is enabled, asked after every other, and filters for itself as it says it can |
| Registry.SwitchedAlone | internal/indexer/registry.go:326-335 | Switching a source on or off is switching that one |
| Registry.RegisterAnswers | internal/indexer/registry.go:247-270 | A blank id and one in use are refused, each its way, and change nothing; any other names the new object |
| Registry.RetiredYoung | internal/indexer/registry.go:272-281 | What was last asked of a removed id is remembered for the floor's length and no longer, and then is what the id starts with when it is registered again |
| Indexer.CategoryKeyIsSet | internal/indexer/registry.go:629-647 | Two category lists have one key if and only if they name the same set |
| Indexer.FilterDependsOnSet | internal/indexer/registry.go:538-552 | Lists naming the same set filter any results alike |
| Indexer.FilterKeeps | internal/indexer/registry.go:530-550 | The filter keeps every unclassified result and every one of a category asked for, as often and in the order it came, and nothing else; no categories keep all |
| Indexer.CategoryKey | internal/indexer/registry.go:629-647 | The sort-and-join loop computes the key of the specification |
| Indexer.FilterByCategories | internal/indexer/registry.go:530-552 | The loop computes the filter of the specification |
| Merge.SameItem | internal/indexer/registry.go:832-853 | Two results are one item if and only if their infohashes match, or neither has one and normalised titles and sizes do |
| Merge.HashExact | internal/indexer/registry.go:834-837 | The infohash matched on is the one given, without the space around it, in lower case |
| Merge.TitleRules | internal/indexer/registry.go:844-853 | The title matched on is its words in lower case with one space between two: a title of one word, and one split anywhere between words, give it |
| Merge.FiledTogether | internal/indexer/registry.go:783-842 | Two copies share a row if and only if both have an identity and it is the same |
| Merge.MatchingExact | internal/indexer/registry.go:783-830 | The copies behind a row are exactly those filed under its key |
| Merge.BestIsFirstMax | internal/indexer/registry.go:779-814 | The surviving copy is a maximum of what replaces what, and the first such (RowExact says which that is) |
| Merge.RowExact | internal/indexer/registry.go:742-830 | A row is the copy with the most seeders, of those one whose count is known if any is, and of the rest the first met; it is marked with every source and with whether that copy was cached, and is otherwise that copy |
| Merge.MergedRow | internal/indexer/registry.go:742-830 | Every row of the output is so made of the copies of one item |
| Merge.OutputOrder | internal/indexer/registry.go:856-882 | Of two rows of the output the earlier has more seeders (in latest mode: was published later), then is the later published (has more seeders), then has the lower title, indexer id and id |
| Merge.SourcesFirstMet | internal/indexer/registry.go:742-830 | A row names its sources in the order their first copies were met |
| Merge.AllCopiesAt | internal/indexer/registry.go:783-800 | The copies merged are the answers, source by source in the order selected, each marked cached as its source's answer was, none missing |
| Merge.SourcesExact | internal/indexer/registry.go:783-830 | A row names each contributing source once and only those |
| Merge.MergedExact | internal/indexer/registry.go:769-882 | The output has one row for every key met, each once, in the mode's order; rows the mode does not rank keep the order of the list of keys |
| Merge.KeysFirstMet | internal/indexer/registry.go:785-830 | Of two keys the one listed first was met first |
| Merge.BeforeOrders | internal/indexer/registry.go:855-882 | The mode's order is a strict weak order |
| Merge.BeforeTotal | internal/indexer/registry.go:855-882 | Two rows it does not order agree in every field it compares |
| Merge.Absorb | internal/indexer/registry.go:783-830 | One copy opens a row or joins the one of its key |
| Merge.AbsorbGroup | internal/indexer/registry.go:783-830 | One source's results are folded in order |
| Merge.Finish | internal/indexer/registry.go:783-830 | The rows come out in first-met order with their sources |
| Merge.MergeResults | internal/indexer/registry.go:769-830 | The loops over sources and copies compute the merge of the specification |
| StoreState.BigEndianReads | internal/store/history.go:92-112 | An 8-byte big-endian key reads back as its number |
| StoreState.BigEndianOrder | internal/store/history.go:92-112 | Big-endian keys sort in byte order if and only if their numbers do |
| StoreState.RoundTrip | internal/store/store.go:137-186 | Loading what a flush wrote gives back the same torrents, preferences, destinations and history in the same order |
| StoreState.LoadExact | internal/store/store.go:139-187 | Opening any file is refused if and only if a history key is not 8 bytes; else memory is its contents, the history in key order under the keys' numbers, the counter the last of them |
| StoreState.LastWriteStands | internal/store/torrents.go:72-101 | While the store is open it holds under each id the record last set and not deleted since, and the preferences last set |
| StoreState.DestinationsUsed | internal/store/destinations.go:35-60 | The destinations are all those ever used, each once |
| StoreState.DestinationsByRecency | internal/store/destinations.go:35-60 | Of two destinations the one used later stands first; of two not used since, the one that stood first |
| StoreState.CounterCounts | internal/store/history.go:26-75 | The history counter counts every query run, cleared or not, up to its 64 bits |
| StoreState.FlushSaves | internal/store/store.go:218-256 | A flush that succeeds leaves in the file, whatever is called meanwhile, the memory it began with, which loads back; one that fails leaves the file |
| StoreState.RunKeeps | internal/store/history.go:24-43 | Over any run in which the 64-bit counter does not wrap onto a kept history, numbers strictly increase, history holds at most 50, records are filed under their ids, destinations do not repeat |
| StoreState.AddHistoryNumbers | internal/store/history.go:24-43 | Adding a query keeps the history's numbering and bound if and only if the counter does not wrap onto a kept history |
| StoreState.HistoryIsLatest | internal/store/history.go:24-55 | The history is always the latest 50 of the queries run since it was last cleared |
| StoreState.ClearedNumbersRestart | internal/store/history.go:57-90 | After clearing, closing and opening again the numbers start over |
| StoreState.FileIsOneSnapshot | internal/store/store.go:215-256 | After any run the file is what it was, or all of one memory state the store went through |
| StoreState.CloseSaves | internal/store/store.go:272-299 | After a Close that wrote, the file is the last memory and loads back as it, whatever is called later |
| StoreState.ClosedStays | internal/store/store.go:54-55 | A closed store changes no more, in memory or on disk |
| StoreState.OpenKeeps | internal/store/store.go:100-135 | A store opened on such a file, or on a new one, is sound and holds that memory |
| Store.SortLists | internal/store/torrents.go:112-123 | Sorting a listing keeps each record once |
| Store.Store.constructor | internal/store/store.go:137-186 | The load loop gives the memory and the last number of the file, in key order |
| Store.Store.SetTorrent | internal/store/torrents.go:69-85 | An empty id and a closed store are refused; else the record is in |
| Store.Store.DeleteTorrent | internal/store/torrents.go:87-101 | A closed store refuses; a missing id changes nothing; else the record is gone |
| Store.Store.ListTorrents | internal/store/torrents.go:111-123 | Every record once, sorted by id |
| Store.Store.AddHistory | internal/store/history.go:24-43 | The query is appended under the next number and the oldest beyond 50 dropped |
| Store.Store.ListHistory | internal/store/history.go:45-55 | The queries, latest first |
| Store.Store.ClearHistory | internal/store/history.go:57-76 | The history is empty and to be written |
| Store.Store.SetPrefs | internal/store/prefs.go:33-43 | The preferences are replaced unless closed |
| Store.Store.TouchDestination | internal/store/destinations.go:33-60 | The path is first and once, the others in their order |
| Store.Store.WriteHistory | internal/store/history.go:92-112 | The loop writes the bucket of the snapshot and nothing stale |
| Store.Store.WriteTorrents | internal/store/torrents.go:125-143 | The loop writes exactly the snapshot |
| Store.Store.FlushBegins | internal/store/store.go:215-233 | A dirty store's memory is copied under the lock |
| Store.Store.FlushEnds | internal/store/store.go:235-256 | The copy is written whole or not at all; dirty stays set |
| Store.Store.Close | internal/store/store.go:272-299 | No more changes, a last flush, the file closed |
| ResumeProofs.ResumeConserves | internal/lifecycle/session.go:113-236 | Restored and dropped add up to the records listed, each id restored once, and the store has no key but a restored one |
| ResumeProofs.KeptExactly | internal/lifecycle/session.go:157-203 | Every restored id keeps its first record, re-keyed and otherwise unchanged, if and only if no answer is the id of a later record that comes back under another |
| ResumeProofs.KeysAreRestored | internal/lifecycle/session.go:157-203 | The store's keys are exactly the restored ids if and only if no answer is the id of a later record that comes back under another |
| ResumeProofs.FromEmptyKeeps | internal/lifecycle/session.go:113-236 | An engine answering each record with its own id or one already answered meets the condition |
| ResumeProofs.OldestStays | internal/lifecycle/session.go:150-152 | Of the records restored onto one id the one added first stays, or of those added at one time the one with the first id |
| ResumeProofs.DroppedExact | internal/lifecycle/session.go:170-212 | A record is reported dropped, with its destination and the id kept, if and only if an earlier one was restored onto the id it comes back as |
| ResumeProofs.MovedAway | internal/lifecycle/session.go:190-199 | A record answered with another id leaves its own key empty, unless a later record is the first onto it |
| ResumeProofs.FirstStays | internal/lifecycle/session.go:188-203 | The first record onto an id stays there while no later move takes it away |
| SaveProofs.SaveExact | internal/lifecycle/session.go:321-376 | After a Save the store's ids are those reported, and those still tracked that had a record; without errors exactly those reported |
| SaveProofs.SaveHolds | internal/lifecycle/session.go:238-256 | In every run in which no Resume restores all its records no Save and no Close changes the store: the run ends as it does without them |
| SaveProofs.ClosedHolds | internal/lifecycle/session.go:280-320 | After Close or Seal a run changes the session and its store only as its Resumes do |
| SaveProofs.RecordOutlivesSaves | internal/lifecycle/session.go:258-278 | A record written for a torrent tracked from then on is never pruned, and its time and origin survive every later Save, Close and Resume that gives it back its id |
| SaveProofs.SetRemembered | internal/lifecycle/session.go:258-278 | A record SetTorrent writes on an open session is still there, time and origin as written, after any later Saves, Close, Resumes that give it back its id and other records, while the torrent stays tracked |
| SaveProofs.MergeIdempotent | internal/lifecycle/session.go:399-438 | Saving the same data again changes nothing, when SafeName is idempotent |
| SaveProofs.SavedComesBack | internal/lifecycle/session.go:380-438 | What a save wrote comes back as reported, but that an origin or metainfo not reported is the recorded one, the name is the recorded title while no metainfo is reported and else the reported name made safe, and the time added is the first recorded |
| SaveProofs.RecordAfterSaves | internal/lifecycle/session.go:322-438 | After any run of saves that list a torrent its record is what the last of them was told, under the time of the first, with the last origin and the last metainfo anyone told, and under its recorded title until a metainfo comes |
| SaveProofs.ResumedExactly | internal/lifecycle/session.go:125-236 | The session counts as resumed exactly from the first Resume on that restored every record it listed |
| SaveProofs.CloseSavesLast | internal/lifecycle/session.go:292-305 | Close is a last Save, after which the session is closed |
| SessionState.OlderWeak | internal/lifecycle/session.go:149-152 | The pass's order is a strict weak order |
| Session.Session.constructor | internal/lifecycle/session.go:61-69 | A new session is neither resumed nor closed |
| Session.Session.RestoreOne | internal/lifecycle/session.go:157-203 | One record is dropped, re-keyed or left, or ends the pass |
| Session.Session.RestoreEach | internal/lifecycle/session.go:157-203 | The loop is the pass of the specification, up to the first failure |
| Session.Session.OldestFirst | internal/lifecycle/session.go:149-152 | The records, each once, oldest first |
| Session.Session.Resume | internal/lifecycle/session.go:113-236 | The store and the flag are the specification's over that listing |
| Session.Session.MergeEach | internal/lifecycle/session.go:333-351 | The loop merges each listed torrent and tells tracked from failed |
| Session.Session.StillThere | internal/lifecycle/session.go:353-363 | Exactly the failed torrents listed again are kept |
| Session.Session.PruneEach | internal/lifecycle/session.go:365-373 | Exactly the untracked records go |
| Session.Session.SaveLocked | internal/lifecycle/session.go:321-376 | The store is the specification's, and the save reports an error if and only if a torrent still there failed |
| Session.Session.Save | internal/lifecycle/session.go:238-256 | A closed session saves nothing; else the store is the specification's and errors are reported exactly for torrents still there |
| Session.Session.SetTorrent | internal/lifecycle/session.go:258-278 | The record is written unless closed, or its id is empty |
| Session.Session.Close | internal/lifecycle/session.go:287-304 | One last save, then closed |
| Session.Session.Seal | internal/lifecycle/session.go:315-319 | Closed without a save |
| SyncProofs.DesiredExact | internal/app/registry.go:77-118 | What is wanted: bundled sources neither replaced nor off, and the first enabled entry of each id |
| SyncProofs.WorkExact | internal/app/registry.go:132-148 | The registration loops go through exactly what is wanted |
| SyncProofs.SweepAt | internal/app/registry.go:120-130 | The sweep takes out, record and source together, exactly what is not wanted as it is |
| SyncProofs.SyncReconciles | internal/app/registry.go:77-160 | After a sync the record and the registry agree, hold what is wanted and kept or buildable, keep unchanged sources as the same objects and make new ones for the rest; nothing is skipped if and only if all that is wanted is built |
| SyncProofs.EntryRuns | internal/app/registry.go:92-190 | After a sync the first enabled entry of its id is searched if it is a torznab entry, or a scraper whose definition is there and declares that id: by the object it had when it is unchanged and no scraper being reloaded, else a new one; a scraper is filtered by the registry, torznab filters itself |
| SyncProofs.BundledRuns | internal/app/registry.go:92-160 | So is a bundled source no entry replaces that is not turned off, rebuilt by every reload |
| SyncProofs.OthersGo | internal/app/registry.go:92-160 | And nothing else |
| SyncProofs.UnbuildableStays | internal/app/registry.go:164-190 | What cannot be built (a broken source, an unknown kind, a missing definition) is not: only a source that was there before may still run, and otherwise it is counted as skipped |
| SyncProofs.SecondSync | internal/app/registry.go:77-160 | A second sync unregisters nothing and, when nothing was skipped, changes nothing |
| SyncProofs.AgreesExactly | internal/app/registry.go:132-188 | They agree afterwards if and only if every wanted source calls itself the id it is wanted under, or is not registered: it does not build, names no id, or one of the two ids was kept or built before it |
| SyncProofs.OneAgrees | internal/app/registry.go:162-188 | One registration keeps the agreement if and only if it fails, does not happen, or is under its own id |
| SyncProofs.StraySourceStays | internal/app/registry.go:233-252 | A scraper entry whose definition declares another id is registered under that one and never unregistered |
| SyncProofs.SearchesKeepAgreement | internal/indexer/registry.go:492-528 | Searches between two syncs leave the agreement alone |
| Sync.LiveSources.constructor | internal/app/registry.go:67-75 | Nothing is built yet |
| Sync.LiveSources.DesiredSources | internal/app/registry.go:96-118 | The loops compute what is wanted |
| Sync.LiveSources.SweepOut | internal/app/registry.go:120-130 | The loop over what is built is the sweep |
| Sync.LiveSources.RegisterSource | internal/app/registry.go:162-188 | Built and registered unless there already; 1 when skipped |
| Sync.LiveSources.RegisterBundled | internal/app/registry.go:134-140 | The loop over the bundled sources |
| Sync.LiveSources.RegisterEntries | internal/app/registry.go:142-148 | The loop over the entries |
| Sync.LiveSources.RegisterDesired | internal/app/registry.go:132-148 | The bundled sources and then the entries are registered, the skipped ones counted |
| Sync.LiveSources.Sync | internal/app/registry.go:77-160 | The new state and the number skipped are the specification's |
| BuiltinProofs.RowsExact | internal/app/settings.go:160-191 | The rows are one for each bundled source no entry replaces, with its flag |
| BuiltinProofs.RowsInOrder | internal/app/settings.go:165-190 | They stand in the order of the definitions |
| BuiltinProofs.FlagSet | internal/app/settings.go:193-214 | Saving a flag sets that flag and no other |
| BuiltinProofs.PressToggles | internal/tui/settings.go:796-836 | A press flips the row on the screen at once; its save, whenever it comes, gives the source that flag and leaves the rest of the configuration, or fails, leaves all of it, and the row goes back to what it showed |
| BuiltinProofs.EntriesReplaced | internal/app/settings.go:93-118 | Saving entries, whenever it comes, replaces them and leaves the flags, or fails and leaves both |
| BuiltinProofs.ConfigSaved | internal/app/settings.go:359-400 | SaveConfig saves the preferences it is given, and no source whatever it is given |
| BuiltinProofs.VersionsKept | internal/app/settings.go:349-399 | A version stands for one list of rows; SaveConfig makes no version and changes no row |
| BuiltinProofs.SeqNeverDecreases | internal/tui/settings.go:1174-1209 | Over any run the screen's version never decreases and versions keep their rows |
| BuiltinProofs.ShownExactly | internal/tui/settings.go:773-834 | Once all messages are delivered the screen lists the manager's rows, and a row shows the manager's flag if and only if no failure of its toggles came after the last refresh, or the one that came last was of a toggle made while the row showed that flag |
| BuiltinProofs.ConvergesWhenSaved | internal/tui/settings.go:773-834 | Once all messages are delivered, in any order, a row none of whose toggles failed shows the manager's flag |
| BuiltinProofs.ConvergesOneAtATime | internal/tui/settings.go:773-834 | With failing saves too a row shows the manager's flag, when it is not toggled again while a toggle of it is under way |
| BuiltinProofs.ScreenConverges | internal/tui/settings.go:773-834 | The whole screen ends up right when each row has no failing toggle or none that overlaps another of it |
| BuiltinProofs.TwoFailuresDiverge | internal/tui/settings.go:815-831 | Two failed toggles of one row delivered in order leave the row showing the opposite of the manager |
| BuiltinProofs.StartsConverged | internal/tui/settings.go:1156-1172 | At startup every row meets the premises of the convergence theorems |
| Settings.SettingsManager.constructor | internal/app/settings.go:67-78 | The manager over a configuration, at version 0 |
| Settings.SettingsManager.BuiltinSources | internal/app/settings.go:160-191 | The loop gives the rows and the version of one state |
| Settings.SettingsManager.Delete | internal/app/settings.go:209-210 | Every occurrence goes, the rest stay in order |
| Settings.SettingsManager.Commit | internal/app/settings.go:97-109 | A written configuration is kept, counted and synced; a refused one changes nothing |
| Settings.SettingsManager.SaveSources | internal/app/settings.go:88-114 | The entries are replaced, the version rises by one, the registry agrees |
| Settings.SettingsManager.SetBuiltinEnabled | internal/app/settings.go:193-230 | The flag is set for a bundled id alone, the version rises by one, the registry agrees |
| Settings.SettingsManager.SaveConfig | internal/app/settings.go:349-399 | Only the preferences change |
| Settings.Flip | internal/tui/settings.go:794-812 | The loop flips the rows of that id |
| Settings.Restore | internal/tui/settings.go:818-828 | The loop puts the rows of that id back |
| Settings.KeepCursor | internal/tui/settings.go:1183-1208 | The cursor stays on its source if that is still there, else is clamped |
| Scroll.BuildValid | internal/tui/downloads.go:514-558 | Every layout has its blocks in order from line 0 and its selection on one of them |
| Scroll.BuildSelects | internal/tui/downloads.go:535-551 | The selected block is the row under the cursor, as tall as that row |
| Scroll.BuildLines | internal/tui/downloads.go:515-562 | Line by line: a title and rows with a blank line before each, sections a blank line apart, the selection on its row, an up-scroll to a section's first row going on to its title |
| Scroll.NextShows | internal/tui/downloads.go:571-607 | For every layout, offset and budget: 0 or a block start in range; a selected block that fits is wholly visible, with its title if that fits too; one that does not is shown from its first line |
| Scroll.NextIdempotent | internal/tui/downloads.go:571-607 | Taking the step again changes nothing |
| Scroll.NextStays | internal/tui/downloads.go:560-569 | An offset in range that shows the selection stays |
| Scroll.NextMovesLeast | internal/tui/downloads.go:560-569 | No block start that shows the selection is nearer the clamped offset |
| Scroll.AtOrAfterLeast | internal/tui/downloads.go:609-618 | The smallest start from n on, n when there is none |
| Scroll.AtOrBeforeGreatest | internal/tui/downloads.go:620-631 | The largest start up to n |
| Scroll.SectionsShare | internal/tui/downloads.go:126-148 | Every torrent is in exactly one section, as often as listed: the completed one if it seeds, or is paused with all of it there; each section keeps the order of the list |
| Scroll.WriteSection | internal/tui/downloads.go:522-552 | The loop appends the section of the specification |
| Scroll.DownloadsLayout | internal/tui/downloads.go:514-558 | The layout of both sections, its blocks in order and its selection on one of them |
| Scroll.PartitionDownloads | internal/tui/downloads.go:134-147 | The loop computes the two sections |
| Scroll.BlockStartAtOrAfter | internal/tui/downloads.go:609-618 | The loop finds the first block start from n on, n when there is none |
| Scroll.BlockStartAtOrBefore | internal/tui/downloads.go:620-631 | The loop finds the last block start up to n, 0 when there is none |
| Scroll.NextScrollOffset | internal/tui/downloads.go:571-607 | The loops compute the step |
| RotateState.RotateDropsOldest | internal/logging/rotate.go:87-129 | A rotation drops the oldest file kept and nothing else |
| RotateState.RunLosesOnlyOldest | internal/logging/rotate.go:59-129 | Over any run the backups, oldest first, and the active file are a suffix of all there was and was accepted; files beyond the last backup are untouched; the size is the active file's; a file written since opening is within the limit or holds one write |
| RotateState.RunLosesExactly | internal/logging/rotate.go:59-129 | Of all files there were and a run wrote, oldest first, it loses exactly as many as it rotates, from the oldest on, and the writer holds the others |
| RotateState.EmptyLosesExactly | internal/logging/rotate.go:59-129 | From an empty directory a run loses nothing if and only if it rotates at most maxBackups times; one that rotates more often loses exactly the first files it filled, one for each rotation too many |
| RotateState.WriteKeeps | internal/logging/rotate.go:59-85 | A write keeps the size and the bound |
| RotateState.OpenKeeps | internal/logging/rotate.go:34-57 | Opening the files an earlier run left gives the active file's size and no bound broken |
| Rotate.RotatingWriter.constructor | internal/logging/rotate.go:34-57 | The size is the active file's, whatever the directory holds |
| Rotate.RotatingWriter.Rename | internal/logging/rotate.go:105-112 | A missing source is ignored |
| Rotate.RotatingWriter.RotateFiles | internal/logging/rotate.go:87-129 | The descending loop of renames is the shift by one |
| Rotate.RotatingWriter.Write | internal/logging/rotate.go:59-85 | The files and the size are the specification's; a closed writer refuses |
| Rotate.RotatingWriter.Close | internal/logging/rotate.go:131-148 | Closing changes no file and no size |
| Cells.SizeTruncated | internal/tui/results.go:404-462 | A size cell reads back as no more than the size, short of it by less than a displayed step |
| Cells.SizeExact | internal/tui/results.go:404-435 | A size is shown in the largest unit of which one is full, to a tenth cut off, from 1000 on without the tenth |
| Cells.SizeInBytes | internal/tui/results.go:404-435 | It is shown in bytes if and only if it is below 1024 |
| Cells.SizeMonotone | internal/tui/results.go:404-462 | A larger size never reads as less, across every unit boundary |
| Cells.SizeLessTrue | internal/tui/results.go:464 | Sorting size cells never contradicts the sizes |
| Cells.SizeFits | internal/tui/results.go:404-435 | A size below 2^63 fits 8 cells |
| Cells.ParseFormat | internal/tui/results.go:437-462 | What the cell of any size reads back as |
| Cells.AgeTruncated | internal/tui/results.go:526-585 | An age cell reads back as no more than the time passed, short of it by less than its unit |
| Cells.AgeExact | internal/tui/results.go:526-557 | An age is shown in the largest unit of which one has passed, or seconds, as how many of it; the future as now |
| Cells.MissingExactly | internal/tui/results.go:526-593 | The cell of a result without a date, and of no other, is the dash by which the sort puts it last |
| Cells.AgeMonotone | internal/tui/results.go:526-585 | An older result never reads as younger, across every unit boundary |
| Cells.AgeLessTrue | internal/tui/results.go:595 | Sorting age cells never contradicts the ages |
| Cells.TieBreakTotal | internal/tui/results.go:94-109 | The tie break is a strict order in which no two rows with different ids tie |
| Cells.OneOrder | internal/tui/results.go:94-109 | Rows it ranks stand in one order only |
| Cells.RowsInOrder | internal/tui/results.go:94-109 | Of two rows it put in order the earlier has more seeders, then the lower title whatever its case, then the lower id |
| Cells.UnitGrows | internal/tui/results.go:414-420 | The unit grows with the size |
| Cells.ScaleDown | internal/tui/results.go:414-420 | The loop divides down to the unit, exactly |
| Cells.SizeCell | internal/tui/results.go:404-435 | The cell is the specification's |
| UpdatesState.LatestWins | internal/engine/anacrolix/engine.go:1995-2077 | In every interleaving no send finds the channel full, the received snapshots are a subsequence of the published ones, no two published in a row are alike, and a consumer that emptied the channel between ticks holds the latest sample |
| UpdatesState.PublishFinishes | internal/engine/anacrolix/engine.go:2059-2077 | Whatever the consumer does, two steps of the sampler's own finish a publication |
| Updates.Channel.constructor | internal/engine/anacrolix/engine.go:2115-2121 | An empty channel |
| Updates.Channel.SnapshotsEqual | internal/engine/anacrolix/engine.go:2079-2101 | True exactly for equal snapshots |
| Updates.Channel.Tick | internal/engine/anacrolix/engine.go:2015-2031 | Only news is published, as a copy |
| Updates.Channel.Drain | internal/engine/anacrolix/engine.go:2067-2071 | What was not taken is discarded |
| Updates.Channel.Send | internal/engine/anacrolix/engine.go:2073-2076 | The copy is sent and the sample kept as the last |
| Updates.Channel.Receive | internal/engine/anacrolix/engine.go:2112-2121 | What is there is taken |
| Updates.Channel.Edit | internal/engine/anacrolix/engine.go:2025-2029 | What the consumer does to a snapshot it took changes nothing the sampler or a later take sees |
| Sorting.SortSorted | internal/lifecycle/session.go:150-152 | A stable sort by a strict weak order leaves a sorted list |
| Sorting.SortStable | internal/indexer/registry.go:856-882 | It keeps the order of elements it does not rank |
| Sorting.StableUnique | internal/indexer/registry.go:856-882 | A sorted list that keeps that order is the only one: two such lists of the same elements are one list |
| Sorting.AscendingUnique | internal/store/torrents.go:121 | Two ascending lists of the same elements are one list |
| Text.JoinInjective | internal/indexer/registry.go:632-647 | Joining nonempty parts without the separator loses nothing |
| Text.ReadShow | internal/tui/results.go:531-585 | A number shown in decimal reads back as itself |
| Text.LessExact | internal/indexer/registry.go:872-880 | One string is below another if and only if they agree up to where it ends or has the smaller character |
| Text.LowerTells | internal/indexer/registry.go:834-853 | Two strings are equal lowered if and only if they differ in case alone |

## Left out

- EngineTheorems.GateFollowsPause: nothing is said of the gate of a torrent handed to two entries, which either of them may settle.
- EngineTheorems.HeldJoinsShut: nothing is said of a torrent handed to two entries, which joins as the other left it.
- EngineLive.TorrentLives: nothing is said of a torrent handed to two entries, which goes when the first of them lets go of it.
- Engine.Engine.Publish: addToClient's own steps (reading the pause, the join, shutting the gate, setting the info) are functions of the step model, not methods, because each is one library call between two critical sections.
- Session.Session.Resume: the Elsewhere flag and the split of errored torrents into missing and failed are not in the report; adding recorded destinations as engine roots is not modelled.
- SaveProofs.MergeIdempotent: SafeName is a function parameter; its URL parsing is not modelled.
- Store.Store.FlushEnds: flushes run one at a time; two at once writing out of order are not modelled, nor which error ClearHistory reports.
- BuiltinProofs.ConvergesWhenSaved: the manager's version is unbounded; its wrap after 2^64 saves is not modelled.
- SyncProofs.SyncReconciles: building a source is a function of its configuration and of what the definitions directory holds; reading files and clients is not modelled.
- Cells.SizeTruncated: fractions are exact where the source computes in float64; of the numbers ParseFloat accepts, only those the formatters write are read.
- Merge.SameItem: infohashes and titles are lowered, and letters and digits told apart, in ASCII only where the source goes by Unicode.
- Cells.TieBreakTotal: titles are lowered in ASCII only where the source goes by Unicode.
- Scroll.DownloadsLayout: lines are counted, not rendered; a row's height is given.
- Rotate.RotatingWriter.Write: file operations do not fail.
- Entries are numbered objects in a list: the pointers between goroutines are those numbers, and an entry removed stays in the list.
- Names fold case in ASCII only; comparing directories on disk is a map of outcomes read before the lock, as in the source.
- EngineTheorems.OneEntryPerInfoHash: not claimed for entries added by a .torrent address, for which it is false: fetching claims and publishes in two critical sections (TwoFetchesShare).
- Disk space, seed ratios and piece counts are not computed: the space check and the seed policy are events that may stop an entry at any time.
- JSON, bbolt pages, schema migration, lock files and quarantine of a bad store.
- The torrent library, HTTP, DHT, trackers, rate limits, metainfo and magnet parsing, definition parsing.
- Rendering, themes, dialogs, key maps, search and filter screens, log masking, shell completion, doctor.
- Shutdown timeouts, signals and abandoned goroutines.
