/** When a refused torrent, dropped from the library, is counted as a running download again. */
module EngineRefused {
  import opened Wrappers
  import opened EngineState
  import opened EngineSteps
  import opened EngineInvariants
  import opened EngineProofs
  import opened EngineEffects
  import opened EngineSlots
  import opened EngineHistory
  import opened EngineTheorems

  /** Entry r is tracked, was refused, and counts as a running download. */
  predicate RefusedRuns(s: State, r: Ref) {
    IsTracked(s, r) && s.entries[r].refused && IsActive(s.entries[r])
  }

  /** A Resume of it finds a download to go back to: the space check's pause, or a pause of an entry that ran. */
  predicate GoesBack(e: Tracked) {
    e.paused && (e.prePause == Checking || e.prePause == Downloading)
    && (e.spacePaused || (e.state == Paused && !e.seedDone))
  }

  /** The two calls that bring a refused entry r back: its turn in the queue, and a Resume, each with a slot free. */
  predicate Revives(s: State, ev: Event, r: Ref) {
    !s.closed && IsTracked(s, r) && s.entries[r].refused &&
    match ev
    case EvPromote => s.queue != [] && Lookup(s, s.queue[0]) == Some(r) && |ActiveIds(s)| < s.maxActive
    case EvResume(id) =>
      id == s.entries[r].id && GoesBack(s.entries[r]) && (|ActiveIds(s)| < s.maxActive || !Startable(s.entries[r]))
    case _ => false
  }

  // ----- one event -----

  lemma GoesBackExactly(e: Tracked)
    requires FlagsOk(e) && e.paused
    ensures IsActive(ResumedEntry(e)) <==> GoesBack(e)
    ensures ResumedEntry(e).id == e.id && ResumedEntry(e).refused == e.refused
  {
    if e.spacePaused { } else if e.seedDone && e.state != Errored { } else if e.state == Paused { } else { }
  }

  lemma ResumeRevives(s: State, id: Id, r: Ref)
    requires Inv(s) && IsTracked(s, r) && s.entries[r].refused
    ensures !RefusedRuns(s, r) && RefusedRuns(Resume(s, id), r) <==> Revives(s, EvResume(id), r)
  {
    hide Inv, Resume, ResumedEntry, AfterResume, ActiveIds, Startable;
    if s.closed || Lookup(s, id).None? || !s.entries[Lookup(s, id).value].paused {
      ResumeNothing(s, id);
      if id == s.entries[r].id { assert Lookup(s, id) == Some(r); }
    } else {
      var q := Lookup(s, id).value;
      StructureOf(s);
      TrackedOf(s, id);
      ResumeEntries(s, q);
      if q == r { ResumedRevives(s, r); }
    }
  }

  lemma ResumedRevives(s: State, r: Ref)
    requires Inv(s) && IsTracked(s, r) && s.entries[r].refused && s.entries[r].paused
    ensures var e := AfterResume(s, r);
      && e.id == s.entries[r].id && e.refused
      && (IsActive(e) <==> GoesBack(s.entries[r]) && (|ActiveIds(s)| < s.maxActive || !Startable(s.entries[r])))
  {
    hide Inv, ResumedEntry, ActiveIds, FlagsOk;
    LocalOf(s, r);
    GoesBackExactly(s.entries[r]);
    ResumedState(s, r);
    AfterState(s, r);
    if Waits(s, r) { } else { }
  }

  lemma PromotedRuns(s: State, e: Tracked)
    requires e.refused && EntryOk(s, e) && Startable(e) && !e.paused
    ensures IsActive(PromotedEntry(s, e)) && PromotedEntry(s, e).refused && PromotedEntry(s, e).id == e.id
  {
    if InfoOf(s, e.t.value).Some? { } else { }
  }

  lemma HeadIdle(s: State)
    requires Inv(s) && s.queue != []
    ensures !IsActive(s.entries[s.torrents[s.queue[0]]])
  {
  }

  lemma PromoteRevives(s: State, r: Ref)
    requires Inv(s) && IsTracked(s, r) && s.entries[r].refused
    ensures !RefusedRuns(s, r) && RefusedRuns(Promote(s), r) <==> Revives(s, EvPromote, r)
  {
    hide Inv, Promote, PromotedEntry, ActiveIds, EntryOk, FlagsOk, GateOk, SameLibs;
    if s.closed || s.queue == [] || |ActiveIds(s)| >= s.maxActive {
      PromoteNothing(s);
    } else {
      HeadStarts(s);
      HeadIdle(s);
      var q := s.torrents[s.queue[0]];
      PromotedMoved(s, q);
      PromoteTables(s);
      if q == r { PromotedRuns(s, s.entries[r]); }
    }
  }

  lemma PromoteTables(s: State)
    ensures Promote(s).torrents == s.torrents
  {
  }

  /** An event that starts nothing brings no refused entry back, and no entry is refused running. */
  lemma OthersReviveNone(s: State, ev: Event, r: Ref)
    requires Inv(s) && !Starts(ev)
    ensures RefusedRuns(Apply(s, ev), r) ==> RefusedRuns(s, r)
  {
    hide Inv, Apply;
    EventEffect(s, ev, At(r, 0, "", Numbered(0), 0));
    if Adds(ev) { AdditionAppends(s, ev); }
  }

  lemma ReviverStarts(s: State, ev: Event, r: Ref)
    ensures Revives(s, ev, r) ==> Starts(ev) && IsTracked(s, r) && s.entries[r].refused
  {
  }

  lemma StarterRefusesNone(s: State, ev: Event, r: Ref)
    requires Inv(s) && Starts(ev) && RefusedRuns(Apply(s, ev), r)
    ensures IsTracked(s, r) && s.entries[r].refused
  {
    hide Inv, Apply;
    EventEffect(s, ev, At(r, 0, "", Numbered(0), 0));
  }

  // ----- every event, every run -----

  /**
   An event makes a refused torrent count as a running download if and only if it is that
   torrent's turn in the queue with a slot free, or a Resume that finds a download to go back
   to and a slot free.
   */
  lemma RefusedRunsAgain(s: State, ev: Event, r: Ref)
    requires Inv(s)
    ensures !RefusedRuns(s, r) && RefusedRuns(Apply(s, ev), r) <==> Revives(s, ev, r)
  {
    hide Inv, Revives, RefusedRuns, Promote, Resume;
    ReviverStarts(s, ev, r);
    if !Starts(ev) {
      OthersReviveNone(s, ev, r);
    } else if IsTracked(s, r) && s.entries[r].refused {
      match ev
      case EvPromote => PromoteRevives(s, r);
      case EvResume(id) => ResumeRevives(s, id, r);
    } else if RefusedRuns(Apply(s, ev), r) {
      StarterRefusesNone(s, ev, r);
    }
  }

  /** A refused torrent counts as a running download at some point of the run. */
  ghost predicate EverRuns(s: State, evs: seq<Event>)
    decreases |evs|
  {
    (exists r: Ref :: RefusedRuns(s, r)) || (evs != [] && EverRuns(Apply(s, evs[0]), evs[1..]))
  }

  /** Some event of the run revives one. */
  ghost predicate EverRevives(s: State, evs: seq<Event>)
    decreases |evs|
  {
    evs != [] && ((exists r: Ref :: Revives(s, evs[0], r)) || EverRevives(Apply(s, evs[0]), evs[1..]))
  }

  lemma {:induction false} RunsOnceRevived(s: State, evs: seq<Event>)
    requires Inv(s) && !exists r: Ref :: RefusedRuns(s, r)
    ensures EverRuns(s, evs) <==> EverRevives(s, evs)
    decreases |evs|
  {
    if evs != [] {
      var s1 := Apply(s, evs[0]);
      ApplyKeeps(s, evs[0]);
      forall r: Ref
        ensures RefusedRuns(s1, r) <==> Revives(s, evs[0], r)
      {
        RefusedRunsAgain(s, evs[0], r);
      }
      if r: Ref :| RefusedRuns(s1, r) {
        assert EverRuns(s1, evs[1..]) && Revives(s, evs[0], r);
      } else {
        RunsOnceRevived(s1, evs[1..]);
      }
    }
  }

  // ----- both ways are reachable -----

  /** The paused first Add with the only slot taken by a second. */
  function SecondAdded(spec: Spec): State {
    var s := PausedFirst(spec);
    s.(entries := s.entries + [NewTracked(FRESH, TWO, "d").(infoHash := "g", byHash := true,
      phase := Starting(ViaAdd, Spec("g", None)))],
       torrents := map[ONE := 0, TWO := 1], order := [ONE, TWO], nextID := 2)
  }

  lemma AddSecond(spec: Spec)
    requires spec.hash == "h"
    ensures Apply(PausedFirst(spec), EvAdd(Spec("g", None), "d", FRESH, NO_VIEW)) == SecondAdded(spec)
  {
    var s := PausedFirst(spec);
    assert s.order == [ONE] && s.entries[0].infoHash == "h" && s.torrents[ONE] == 0;
    assert "h"[0] != "g"[0];
    assert !Matches(s, ONE, "g", None);
    assert s.order[0] == ONE && s.order[1..] == [];
    assert RefusedFor(s, s.order, "g", None) == [];
    assert DecideClaim(s, "g", None, "d", NO_VIEW) == ClaimClear([]);
    assert ActiveIds(s) == {} && Mint(s, None) == Minted(TWO, 2);
  }

  /** Resumed, the first waits in the queue, its torrent attached. */
  function FirstQueued(spec: Spec): State {
    var s := SecondAdded(spec);
    s.(entries := [ResumedEntry(s.entries[0]).(state := Queued), s.entries[1]], queue := [ONE])
  }

  lemma ResumeFirst(spec: Spec)
    ensures Apply(SecondAdded(spec), EvResume(ONE)) == FirstQueued(spec)
  {
    var s := SecondAdded(spec);
    var e := ResumedEntry(s.entries[0]);
    var s1 := Put(s, 0, e);
    assert s1.entries == [e, s.entries[1]];
    assert ONE in ActiveIds(s1) && TWO in ActiveIds(s1);
    assert |{ONE, TWO}| == 2;
    SubsetSize({ONE, TWO}, ActiveIds(s1));
    assert s1.entries[0 := e.(state := Queued)] == [e.(state := Queued), s.entries[1]];
  }

  /** From an engine just built: added, paused, and resumed into the queue behind a second. */
  function QueuedRun(spec: Spec): seq<Event> {
    AddRun(spec, "d", 0) + [EvPause(ONE), EvAdd(Spec("g", None), "d", FRESH, NO_VIEW), EvResume(ONE)]
  }

  lemma QueueFirst(spec: Spec)
    requires spec.hash == "h"
    ensures Run(Init(1), QueuedRun(spec)) == FirstQueued(spec)
  {
    var three := [EvPause(ONE), EvAdd(Spec("g", None), "d", FRESH, NO_VIEW), EvResume(ONE)];
    RunAppend(Init(1), AddRun(spec, "d", 0), three);
    FirstAdd(spec, 1);
    RunThree(Published(spec, 1), three[0], three[1], three[2]);
    PauseFirst(spec);
    AddSecond(spec);
    ResumeFirst(spec);
  }

  lemma RunThree(s: State, a: Event, b: Event, c: Event)
    ensures Run(s, [a, b, c]) == Apply(Apply(Apply(s, a), b), c)
  {
    assert [a, b, c] == [a, b] + [c];
    RunAppend(s, [a, b], [c]);
    RunTwo(s, a, b);
    RunOne(Apply(Apply(s, a), b), c);
  }

  /** The second gone, so that the first is next. */
  function FirstNext(spec: Spec): State {
    var s := FirstQueued(spec);
    s.(entries := [s.entries[0], s.entries[1].(removed := true)], torrents := map[ONE := 0], order := [ONE])
  }

  lemma RemovesNothing(s: State, r: Ref, dirs: map<string, DirMatch>)
    requires r < |s.entries|
    ensures RemoveTarget(s, r, false, dirs).name == ""
  {
  }

  lemma RemoveSecond(spec: Spec)
    ensures Apply(FirstQueued(spec), EvRemove(TWO, false, map[])) == FirstNext(spec)
  {
    hide RemoveTarget;
    var s := FirstQueued(spec);
    RemovesNothing(s, 1, map[]);
    assert s.torrents - {TWO} == map[ONE := 0];
    RemoveFirstAt(s.order, TWO, 1);
    assert s.order[..1] + s.order[2..] == [ONE];
    assert s.entries[1 := s.entries[1].(removed := true)] == FirstNext(spec).entries;
  }

  /** A first entry on its way to be refused: dropped, and then marked. */
  function Refused(s: State, info: Option<string>): State
    requires |s.entries| == 2 && |s.libs| == 1
  {
    s.(entries := [s.entries[0].(phase := Refusing(info)), s.entries[1]], libs := [s.libs[0].(dropped := true)],
      client := map[])
  }

  function Marked(s: State): State
    requires |s.entries| == 2
  {
    s.(entries := [FailEntry(s.entries[0]).(refused := true, leftName := "", sharedName := "", phase := Ended),
      s.entries[1]])
  }

  lemma RefuseFirst(s: State, info: Option<string>)
    requires |s.entries| == 2 && |s.libs| == 1 && s.entries[0].phase == Awaiting && s.entries[0].t == Some(0)
    requires s.libs[0].info == info && s.libs[0].hash == "h" && s.client == map["h" := 0]
    ensures Apply(s, EvRefuse(0)) == Refused(s, info)
  {
    assert map["h" := 0] - {"h"} == map[];
  }

  lemma MarkFirst(s: State, info: Option<string>)
    requires |s.entries| == 2 && s.entries[0].phase == Refusing(info) && s.shown == {}
    ensures Apply(s, EvRefuseMarks(0, "", map[])) == Marked(s)
  {
    assert LeftName(info, "") == "";
    assert ShownBy(s.entries[0].savePath, map[]) == {};
  }

  lemma RefuseNext()
    ensures var s := Apply(Apply(FirstNext(MAGNET), EvRefuse(0)), EvRefuseMarks(0, "", map[]));
      s.entries != [] && s.entries[0].refused && s.entries[0].state == Errored && Revives(s, EvPromote, 0)
  {
    hide Apply;
    var s := FirstNext(MAGNET);
    RefuseFirst(s, None);
    MarkFirst(Refused(s, None), None);
    assert ActiveIds(Marked(Refused(s, None))) == {};
  }

  /** Refused by its metadata timeout in the queue, and then next: its turn makes it a running download. */
  lemma RefusedWhileQueued()
    ensures var s := Run(Init(1), QueuedRun(MAGNET) + [EvRemove(TWO, false, map[]), EvRefuse(0),
      EvRefuseMarks(0, "", map[])]);
      Inv(s) && s.entries != [] && s.entries[0].refused && s.entries[0].state == Errored && Revives(s, EvPromote, 0)
  {
    var three := [EvRemove(TWO, false, map[]), EvRefuse(0), EvRefuseMarks(0, "", map[])];
    RunAppend(Init(1), QueuedRun(MAGNET), three);
    QueueFirst(MAGNET);
    RunThree(FirstQueued(MAGNET), three[0], three[1], three[2]);
    RemoveSecond(MAGNET);
    RefuseNext();
    InitInv(1);
    RunKeeps(Init(1), QueuedRun(MAGNET) + three);
  }

  /** Its dictionary known, promoted, and paused by the space check before its info was accepted. */
  function SpaceStopped(): State {
    var s := FirstNext(FILE);
    s.(entries := [s.entries[0].(paused := true, spacePaused := true, prePause := Downloading, state := Errored),
      s.entries[1]],
       queue := [], libs := [s.libs[0].(down := false, up := true)])
  }

  /** Its turn came. */
  function FirstPromoted(): State {
    var s := FirstNext(FILE);
    s.(entries := [s.entries[0].(state := Downloading), s.entries[1]], queue := [],
      libs := [s.libs[0].(down := true, up := true)])
  }

  lemma PromoteFirst()
    ensures Apply(FirstNext(FILE), EvPromote) == FirstPromoted()
  {
    assert ActiveIds(FirstNext(FILE)) == {};
  }

  lemma StopPromoted()
    ensures Apply(FirstPromoted(), EvSpaceStops(0)) == SpaceStopped()
  {
  }

  lemma RefuseStopped()
    ensures var s := Apply(Apply(SpaceStopped(), EvRefuse(0)), EvRefuseMarks(0, "", map[]));
      s.entries != [] && s.entries[0].refused && s.entries[0].state == Errored && s.queue == [] &&
        Revives(s, EvResume(ONE), 0)
  {
    hide Apply;
    var s := SpaceStopped();
    RefuseFirst(s, Some("n"));
    MarkFirst(Refused(s, Some("n")), Some("n"));
    assert ActiveIds(Marked(Refused(s, Some("n")))) == {};
  }

  /** Paused by the space check and then refused: a Resume makes it a running download, whatever the queue held. */
  lemma RefusedWhileSpacePaused()
    ensures var s := Run(Init(1), (QueuedRun(FILE) + [EvRemove(TWO, false, map[]), EvPromote, EvSpaceStops(0)])
                                  + [EvRefuse(0), EvRefuseMarks(0, "", map[])]);
      Inv(s) && s.entries != [] && s.entries[0].refused && s.entries[0].state == Errored && s.queue == [] &&
        Revives(s, EvResume(ONE), 0)
  {
    var three := [EvRemove(TWO, false, map[]), EvPromote, EvSpaceStops(0)];
    var two := [EvRefuse(0), EvRefuseMarks(0, "", map[])];
    RunAppend(Init(1), QueuedRun(FILE) + three, two);
    RunAppend(Init(1), QueuedRun(FILE), three);
    QueueFirst(FILE);
    RunThree(FirstQueued(FILE), three[0], three[1], three[2]);
    RemoveSecond(FILE);
    PromoteFirst();
    StopPromoted();
    RunTwo(SpaceStopped(), two[0], two[1]);
    RefuseStopped();
    InitInv(1);
    RunKeeps(Init(1), (QueuedRun(FILE) + three) + two);
  }
}
