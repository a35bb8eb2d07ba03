/** When a transfer gate is left half shut: download stopped, upload going on. */
module EngineGates {
  import opened Wrappers
  import opened EngineState
  import opened EngineSteps
  import opened EngineInvariants
  import opened EngineProofs
  import opened EngineEffects
  import opened EngineSlots
  import opened EngineTheorems

  /** Entry r is published on a torrent of its own, whose gate lets it upload and not download. */
  predicate UploadOnly(s: State, r: Ref) {
    r < |s.entries| && s.entries[r].t.Some? && !s.entries[r].refused && s.entries[r].t.value < |s.libs| &&
    var g := s.libs[s.entries[r].t.value];
    !g.shared && !g.down && g.up
  }

  /** The space check stops entry r. */
  predicate StopsDownload(s: State, ev: Event, r: Ref) {
    ev == EvSpaceStops(r) && r < |s.entries| &&
    var e := s.entries[r];
    !e.removed && !e.refused && e.t.Some? && e.t.value < |s.libs| && InfoOf(s, e.t.value).Some? &&
      !s.libs[e.t.value].shared
    && e.state == Downloading
  }

  /**
   The event settles the gate of entry r: a Resume that runs it, its turn in the queue, a pause
   of it while it is queued, the acceptance of its info, its refusal, or a second entry joining.
   */
  predicate SettlesGate(s: State, ev: Event, r: Ref) {
    r < |s.entries| &&
    var e := s.entries[r];
    match ev
    case EvResume(id) => !s.closed && Lookup(s, id) == Some(r) && e.paused && !Waits(s, r)
    case EvPromote => !s.closed && s.queue != [] && Lookup(s, s.queue[0]) == Some(r) && |ActiveIds(s)| < s.maxActive
    case EvPause(id) => !s.closed && Lookup(s, id) == Some(r) && !e.paused
    case EvPauseForShutdown => !s.closed && IsTracked(s, r) && !e.paused
    case EvInfoAccepted(q) => q == r && e.phase == Awaiting && e.t.Some? && InfoOf(s, e.t.value).Some?
    case EvRefuseMarks(q, _, _) => q == r && e.phase.Refusing?
    case EvAddTorrent(q) =>
      q < |s.entries| && s.entries[q].phase.Joining? && e.t.Some? &&
      var h := s.entries[q].phase.spec.hash;
      h in s.client && s.client[h] == e.t.value
    case _ => false
  }

  ghost predicate GateExact(s: State, ev: Event, r: Ref) {
    UploadOnly(Apply(s, ev), r) <==> StopsDownload(s, ev, r) || (UploadOnly(s, r) && !SettlesGate(s, ev, r))
  }

  // ----- an event that touches no gate -----

  /** A gate an event leaves alone, of an entry it does not refuse. */
  lemma SameGate(s: State, ev: Event, r: Ref)
    requires Inv(s) && r < |s.entries| && !Regates(ev) && !Refuses(ev, r)
    ensures UploadOnly(Apply(s, ev), r) <==>
      UploadOnly(s, r) && !(s.entries[r].t.Some? && HandedTo(s, ev, s.entries[r].t.value))
  {
    hide Inv, Apply, HandedTo, Refuses, Regates;
    LocalOf(s, r);
    var l := if s.entries[r].t.Some? then s.entries[r].t.value else 0;
    EventEffect(s, ev, At(r, l, "", Numbered(0), 0));
    PublishRegates(ev);
  }

  lemma PublishRegates(ev: Event)
    ensures ev.EvPublish? ==> Regates(ev)
  {
  }

  lemma MarkRefuses(s: State, r: Ref, left: string, dirs: map<string, DirMatch>)
    requires r < |s.entries|
    ensures var s' := MarkRefused(s, r, left, dirs); r < |s'.entries| && s'.entries[r].refused
  {
    hide KeepLeft;
  }

  lemma RefuseMarksGate(s: State, r: Ref, left: string, dirs: map<string, DirMatch>)
    requires r < |s.entries|
    ensures UploadOnly(RefuseMarks(s, r, left, dirs), r) <==> UploadOnly(s, r) && !s.entries[r].phase.Refusing?
  {
    hide MarkRefused;
    if s.entries[r].phase.Refusing? { MarkRefuses(s, r, LeftName(s.entries[r].phase.info, left), dirs); }
  }

  /** A clean-up is of an entry never published. */
  lemma CleanupGate(s: State, r: Ref, left: string, dirs: map<string, DirMatch>)
    requires Inv(s) && r < |s.entries|
    ensures UploadOnly(Cleanup(s, r, left, dirs), r) <==> UploadOnly(s, r)
  {
    hide Inv, Cleanup, EntryOk, FlagsOk;
    if s.entries[r].phase.Failed? {
      FailedUnpublished(s, r);
      EventEffect(s, EvCleanup(r, left, dirs), At(r, 0, "", Numbered(0), 0));
    } else {
      CleansNothing(s, r, left, dirs);
    }
  }

  lemma FailedUnpublished(s: State, r: Ref)
    requires Inv(s) && r < |s.entries| && s.entries[r].phase.Failed?
    ensures s.entries[r].t.None?
  {
    hide Inv;
    LocalOf(s, r);
  }

  lemma CleansNothing(s: State, r: Ref, left: string, dirs: map<string, DirMatch>)
    requires r < |s.entries| && !s.entries[r].phase.Failed?
    ensures Cleanup(s, r, left, dirs) == s
  {
  }

  lemma QuietGate(s: State, ev: Event, r: Ref)
    requires Inv(s) && r < |s.entries| && !Regates(ev)
    ensures GateExact(s, ev, r)
  {
    hide Inv, UploadOnly, Cleanup, RefuseMarks;
    if !Refuses(ev, r) {
      SameGate(s, ev, r);
    } else {
      match ev
      case EvRefuseMarks(_, left, dirs) => RefuseMarksGate(s, r, left, dirs);
      case EvCleanup(_, left, dirs) => CleanupGate(s, r, left, dirs);
    }
  }

  // ----- one that may open or shut a gate -----

  /** Another entry moves, and the gate of its torrent. */
  lemma OtherGate(s: State, s': State, q: Ref, e: Tracked, r: Ref)
    requires Structure(s) && q < |s.entries| && r < |s.entries| && q != r && e.lib == s.entries[q].lib
    requires s'.entries == s.entries[q := e]
    requires s'.libs == s.libs || (e.lib.Some? && e.lib.value < |s.libs| && exists g: Torrent ::
      s'.libs == s.libs[e.lib.value := g] && g.shared == s.libs[e.lib.value].shared)
    ensures UploadOnly(s', r) <==> UploadOnly(s, r)
  {
    assert OwnLib(s, q) && OwnLib(s, r) && EntryOk(s, s.entries[q]) && EntryOk(s, s.entries[r]);
  }

  lemma OtherRegates(s: State, q: Ref, e: Tracked, t: Option<LibRef>, down: bool, up: bool, r: Ref)
    requires Inv(s) && q < |s.entries| && r < |s.entries| && q != r && e.lib == s.entries[q].lib &&
      (t.Some? ==> t == e.lib)
    ensures UploadOnly(Gate(Put(s, q, e), t, down, up), r) <==> UploadOnly(s, r)
  {
    hide Inv, UploadOnly;
    StructureOf(s);
    LocalOf(s, q);
    var s' := Gate(Put(s, q, e), t, down, up);
    if t.Some? && t.value < |s.libs| {
      var g := s.libs[t.value].(down := down, up := up);
      assert s'.libs == s.libs[e.lib.value := g] && g.shared == s.libs[e.lib.value].shared;
    }
    OtherGate(s, s', q, e, r);
  }

  /** The entry itself moves, and the gate of its torrent with it. */
  lemma OwnRegates(s: State, r: Ref, e: Tracked, down: bool, up: bool)
    requires r < |s.entries| && e.t == s.entries[r].t && e.refused == s.entries[r].refused
    ensures UploadOnly(Gate(Put(s, r, e), e.t, down, up), r) <==>
      e.t.Some? && !e.refused && e.t.value < |s.libs| && !s.libs[e.t.value].shared && !down && up
  {
  }

  /** A gate that is half shut is of an entry queued, or paused by the space check. */
  lemma HalfShutIsHeld(s: State, r: Ref)
    requires Inv(s) && UploadOnly(s, r)
    ensures r < |s.entries| && Held(s.entries[r]) && !SeedStopped(s.entries[r]) && s.entries[r].state != Downloading
    ensures !Attaching(s.entries[r].phase)
  {
    hide Inv;
    LocalOf(s, r);
  }

  lemma ShutGatesGate(s: State, q: Ref, r: Ref)
    requires Inv(s) && r < |s.entries|
    ensures GateExact(s, EvShutGates(q), r)
  {
    hide Inv, UploadOnly;
    if q < |s.entries| && s.entries[q].phase.Added? {
      var e := s.entries[q];
      var e1 := e.(phase := Shut(e.phase.via, e.phase.spec));
      if q != r {
        OtherRegates(s, q, e1, e.lib, false, false, r);
      } else {
        UnpublishedGate(s, q, e1, e.lib, false, false);
      }
    }
  }

  /** While it is attached an entry has no gate of its own to speak of. */
  lemma UnpublishedGate(s: State, r: Ref, e: Tracked, t: Option<LibRef>, down: bool, up: bool)
    requires Inv(s) && r < |s.entries| && Attaching(s.entries[r].phase) && e.t == s.entries[r].t
    ensures !UploadOnly(s, r) && !UploadOnly(Gate(Put(s, r, e), t, down, up), r)
  {
    hide Inv;
    LocalOf(s, r);
  }

  lemma PublishGate(s: State, q: Ref, r: Ref)
    requires Inv(s) && r < |s.entries|
    ensures GateExact(s, EvPublish(q), r)
  {
    hide Inv, UploadOnly;
    if q < |s.entries| && s.entries[q].phase.Joined? && s.entries[q].lib.Some? {
      if q != r { PublishOther(s, q, r); } else { PublishOwn(s, r); }
    }
  }

  lemma PublishOther(s: State, q: Ref, r: Ref)
    requires Inv(s) && r < |s.entries| && q < |s.entries| && s.entries[q].phase.Joined? && s.entries[q].lib.Some? &&
      q != r
    ensures UploadOnly(Publish(s, q), r) <==> UploadOnly(s, r)
  {
    hide Inv, UploadOnly;
    StructureOf(s);
    var e := s.entries[q];
    var e1 := e.(infoHash := e.phase.spec.hash, t := e.lib, phase := Awaiting);
    OtherRegates(s, q, e1, e.lib, false, false, r);
    OtherRegates(s, q, e1, e.lib, true, true, r);
    OtherRegates(s, q, e1, None, true, true, r);
    OtherGate(s, Put(s, q, e.(phase := Ended)).(drops := s.drops + {e.lib.value}), q, e.(phase := Ended), r);
    OtherRegates(s, q, e.(phase := Failed(e.phase.via, e.phase.spec.info)), None, true, true, r);
  }

  /** It is published with its gate open or shut. */
  lemma PublishOwn(s: State, r: Ref)
    requires Inv(s) && r < |s.entries| && s.entries[r].phase.Joined? && s.entries[r].lib.Some?
    ensures !UploadOnly(s, r) && !UploadOnly(Publish(s, r), r)
  {
    hide Inv;
    LocalOf(s, r);
  }

  lemma AcceptedGate(s: State, q: Ref, r: Ref)
    requires Inv(s) && r < |s.entries|
    ensures GateExact(s, EvInfoAccepted(q), r)
  {
    hide Inv, UploadOnly;
    if q < |s.entries| && s.entries[q].phase == Awaiting && s.entries[q].t.Some? &&
        InfoOf(s, s.entries[q].t.value).Some? {
      if q != r { AcceptedOther(s, q, r); } else { AcceptedOwn(s, r); }
    }
  }

  lemma AcceptedOther(s: State, q: Ref, r: Ref)
    requires Inv(s) && r < |s.entries| && q < |s.entries| && q != r
    requires s.entries[q].phase == Awaiting && s.entries[q].t.Some? && InfoOf(s, s.entries[q].t.value).Some?
    ensures UploadOnly(InfoAccepted(s, q), r) <==> UploadOnly(s, r)
  {
    hide Inv, UploadOnly;
    LocalOf(s, q);
    var e := s.entries[q];
    var e1 := e.(phase := Waiting(InfoOf(s, e.t.value).value));
    OtherRegates(s, q, e1, e.t, false, false, r);
    OtherRegates(s, q, e1.(prePause := Downloading), e.t, false, false, r);
    OtherRegates(s, q, e1.(state := Downloading), None, true, true, r);
    OtherRegates(s, q, e1, None, true, true, r);
  }

  lemma AcceptedOwn(s: State, r: Ref)
    requires Inv(s) && r < |s.entries|
    requires s.entries[r].phase == Awaiting && s.entries[r].t.Some? && InfoOf(s, s.entries[r].t.value).Some?
    ensures !UploadOnly(InfoAccepted(s, r), r)
  {
    hide Inv, UploadOnly;
    var e := s.entries[r];
    var e1 := e.(phase := Waiting(InfoOf(s, e.t.value).value));
    if e.state == Queued {
      OwnRegates(s, r, e1, false, false);
    } else if e.paused {
      OwnRegates(s, r, e1.(prePause := Downloading), false, false);
    } else {
      if UploadOnly(s, r) { HalfShutIsHeld(s, r); }
      var e2 := if e.state == Checking then e1.(state := Downloading) else e1;
      if e.state == Checking { } else { }
      QueuedGate(s, InfoAccepted(s, r), r, e2, r);
    }
  }

  // ----- the calls -----

  lemma PausedGate(s: State, q: Ref, byUser: bool, r: Ref)
    requires Inv(s) && q < |s.entries| && r < |s.entries|
    ensures UploadOnly(PauseEntry(s, q, byUser), r) <==> UploadOnly(s, r) && q != r
    ensures r < |PauseEntry(s, q, byUser).entries| && (q != r ==> PauseEntry(s, q, byUser).entries[r] == s.entries[r])
    ensures PauseEntry(s, q, byUser).torrents == s.torrents
  {
    hide Inv, UploadOnly, PausedEntry;
    var e, e1 := s.entries[q], PausedEntry(s.entries[q], byUser);
    LocalOf(s, q);
    PausedKeeps(e, byUser);
    SameUploads(Gate(Put(s, q, e1), e.t, false, false), PauseEntry(s, q, byUser), r);
    if q != r { OtherRegates(s, q, e1, e.t, false, false, r); } else { OwnRegates(s, r, e1, false, false); }
  }

  lemma PausedKeeps(e: Tracked, byUser: bool)
    ensures var e1 := PausedEntry(e, byUser);
      e1.t == e.t && e1.lib == e.lib && e1.refused == e.refused && e1.id == e.id && e1.paused
  {
    if e.state != Errored { } else { }
  }

  lemma {:induction false} PauseAllGate(s: State, ids: seq<Id>, r: Ref)
    requires Inv(s) && r < |s.entries|
    ensures UploadOnly(PauseAll(s, ids), r) <==>
      (UploadOnly(s, r) && !(IsTracked(s, r) && !s.entries[r].paused && s.entries[r].id in ids))
    decreases |ids|
  {
    hide Inv, UploadOnly, PauseEntry;
    if ids != [] {
      var x := Lookup(s, ids[0]);
      assert ids == [ids[0]] + ids[1..];
      if x.Some? && !s.entries[x.value].paused {
        TrackedOf(s, ids[0]);
        PausedGate(s, x.value, false, r);
        PauseEntryKeeps(s, x.value, false);
        PauseAllGate(PauseEntry(s, x.value, false), ids[1..], r);
      } else {
        PauseAllGate(s, ids[1..], r);
      }
    }
  }

  lemma PauseGate(s: State, id: Id, r: Ref)
    requires Inv(s) && r < |s.entries|
    ensures GateExact(s, EvPause(id), r)
  {
    hide Inv, UploadOnly, PauseEntry;
    if s.closed || Lookup(s, id).None? || s.entries[Lookup(s, id).value].paused {
      assert Pause(s, id) == s;
    } else {
      PausedGate(s, Lookup(s, id).value, true, r);
    }
  }

  lemma PauseForShutdownGate(s: State, r: Ref)
    requires Inv(s) && r < |s.entries|
    ensures GateExact(s, EvPauseForShutdown, r)
  {
    hide Inv, UploadOnly, PauseAll;
    StructureOf(s);
    PauseAllGate(s, s.order, r);
  }

  lemma ResumeGate(s: State, id: Id, r: Ref)
    requires Inv(s) && r < |s.entries|
    ensures GateExact(s, EvResume(id), r)
  {
    hide Inv, UploadOnly, Resume, Waits, ResumedEntry;
    if s.closed || Lookup(s, id).None? || !s.entries[Lookup(s, id).value].paused {
      ResumeNothing(s, id);
    } else {
      TrackedOf(s, id);
      ResumedGate(s, Lookup(s, id).value, r);
    }
  }

  lemma ResumedGate(s: State, q: Ref, r: Ref)
    requires Inv(s) && r < |s.entries| && !s.closed && IsTracked(s, q) && s.entries[q].paused
    ensures UploadOnly(Resume(s, s.entries[q].id), r) <==> UploadOnly(s, r) && !(q == r && !Waits(s, q))
  {
    hide Inv, UploadOnly, Resume, Waits, ResumedEntry, Startable;
    var e := ResumedEntry(s.entries[q]);
    StructureOf(s);
    LocalOf(s, q);
    WaitsExactly(s, q);
    ResumeUnfolds(s, q, e);
    ResumedKeeps(s.entries[q]);
    if Waits(s, q) {
      QueuedGate(s, Resume(s, s.entries[q].id), q, e.(state := Queued), r);
    } else if q != r {
      OtherRegates(s, q, e, e.t, true, true, r);
    } else {
      OwnRegates(s, r, e, true, true);
    }
  }

  lemma QueuedGate(s: State, s': State, q: Ref, e: Tracked, r: Ref)
    requires q < |s.entries| && s'.entries == s.entries[q := e] && s'.libs == s.libs
    requires e.t == s.entries[q].t && e.refused == s.entries[q].refused
    ensures UploadOnly(s', r) <==> UploadOnly(s, r)
  {
  }

  lemma PromotedKeeps(s: State, e: Tracked)
    requires Startable(e)
    ensures var e1 := PromotedEntry(s, e); e1.t == e.t && e1.lib == e.lib && e1.refused == e.refused
  {
    if e.t.Some? { } else if e.url { } else { }
  }

  lemma PromoteGate(s: State, r: Ref)
    requires Inv(s) && r < |s.entries|
    ensures GateExact(s, EvPromote, r)
  {
    hide Inv, Local, UploadOnly, Promote, PromotedEntry, ActiveIds;
    if s.closed || s.queue == [] || |ActiveIds(s)| >= s.maxActive {
      PromoteNothing(s);
    } else {
      HeadStarts(s);
      PromotedGate(s, s.torrents[s.queue[0]], r);
    }
  }

  lemma PromotedUnfolds(s: State, q: Ref)
    requires !s.closed && s.queue != [] && |ActiveIds(s)| < s.maxActive
    requires Lookup(s, s.queue[0]) == Some(q) && Startable(s.entries[q]) &&
      (s.entries[q].t.Some? || s.entries[q].lib.None?)
    ensures var e, s1 := PromotedEntry(s, s.entries[q]), Promote(s);
      s1.entries == s.entries[q := e] && s1.libs == Gate(Put(s, q, e), s.entries[q].t, true, true).libs
  {
  }

  lemma PromotedGate(s: State, q: Ref, r: Ref)
    requires Inv(s) && r < |s.entries| && !s.closed && s.queue != [] && |ActiveIds(s)| < s.maxActive
    requires Lookup(s, s.queue[0]) == Some(q) && Startable(s.entries[q])
    ensures UploadOnly(Promote(s), r) <==> UploadOnly(s, r) && q != r
  {
    hide Inv, UploadOnly, Promote, PromotedEntry, ActiveIds, GateOk, FlagsOk;
    var e := PromotedEntry(s, s.entries[q]);
    LocalOf(s, q);
    PromotedKeeps(s, s.entries[q]);
    PromotedUnfolds(s, q);
    SameUploads(Promote(s), Gate(Put(s, q, e), e.t, true, true), r);
    if q != r {
      OtherRegates(s, q, e, e.t, true, true, r);
    } else {
      OwnRegates(s, r, e, true, true);
      HeadQueued(s, q);
    }
  }

  lemma SameUploads(s: State, s': State, r: Ref)
    requires s'.entries == s.entries && s'.libs == s.libs
    ensures UploadOnly(s', r) <==> UploadOnly(s, r)
  {
  }

  lemma HeadQueued(s: State, q: Ref)
    requires Inv(s) && s.queue != [] && Lookup(s, s.queue[0]) == Some(q)
    ensures !s.entries[q].paused
  {
  }

  lemma SeedStopsGate(s: State, id: Id, r: Ref)
    requires Inv(s) && r < |s.entries|
    ensures UploadOnly(SeedStops(s, id), r) <==> UploadOnly(s, r)
  {
    hide Inv, UploadOnly;
    if SeedStops(s, id) != s {
      var q := Lookup(s, id).value;
      var e := s.entries[q];
      LocalOf(s, q);
      if q != r {
        OtherRegates(s, q, SeedHeld(e), e.t, s.libs[e.t.value].down, false, r);
      } else {
        OwnRegates(s, r, SeedHeld(e), s.libs[e.t.value].down, false);
        if UploadOnly(s, r) { HalfShutIsHeld(s, r); }
      }
    }
  }

  lemma SpaceStopsGate(s: State, q: Ref, r: Ref)
    requires Inv(s) && r < |s.entries|
    ensures GateExact(s, EvSpaceStops(q), r)
  {
    hide Inv, UploadOnly;
    if SpaceStops(s, q) != s {
      var e := s.entries[q];
      LocalOf(s, q);
      if q != r {
        OtherRegates(s, q, SpaceHeld(e), e.t, false, s.libs[e.t.value].up, r);
      } else {
        OwnRegates(s, r, SpaceHeld(e), false, s.libs[e.t.value].up);
        SpaceFinds(s, r);
      }
    }
  }

  /** A download's gate is open. */
  lemma SpaceFinds(s: State, r: Ref)
    requires Inv(s) && r < |s.entries| && s.entries[r].state == Downloading && s.entries[r].t.Some? &&
      s.entries[r].t.value < |s.libs|
    ensures !s.entries[r].refused && !s.libs[s.entries[r].t.value].shared ==> s.libs[s.entries[r].t.value].up
    ensures !UploadOnly(s, r)
  {
    hide Inv;
    LocalOf(s, r);
  }

  lemma RegatesExact(s: State, ev: Event, r: Ref)
    requires Inv(s) && r < |s.entries| && Regates(ev)
    ensures GateExact(s, ev, r)
  {
    hide Inv, GateExact;
    match ev
    case EvShutGates(q) => ShutGatesGate(s, q, r);
    case EvPublish(q) => PublishGate(s, q, r);
    case EvInfoAccepted(q) => AcceptedGate(s, q, r);
    case EvPause(id) => PauseGate(s, id, r);
    case EvPauseForShutdown => PauseForShutdownGate(s, r);
    case EvResume(id) => ResumeGate(s, id, r);
    case EvPromote => PromoteGate(s, r);
    case EvSeedStops(id) => SeedStopsExact(s, id, r);
    case EvSpaceStops(q) => SpaceStopsGate(s, q, r);
  }

  lemma SeedStopsExact(s: State, id: Id, r: Ref)
    requires Inv(s) && r < |s.entries|
    ensures GateExact(s, EvSeedStops(id), r)
  {
    hide Inv, UploadOnly, SeedStops;
    SeedStopsGate(s, id, r);
  }

  /** A new entry has no torrent yet. */
  lemma NewGate(s: State, ev: Event, r: Ref)
    requires Inv(s) && r >= |s.entries|
    ensures !UploadOnly(Apply(s, ev), r)
  {
    hide Inv, Apply;
    EventEffect(s, ev, At(r, 0, "", Numbered(0), 0));
    if Adds(ev) { AdditionAppends(s, ev); }
  }

  /**
   After an event the gate of entry r lets it upload and not download if and only if the event
   was the space check stopping it, or it did so before and the event did not settle the gate.
   */
  lemma HalfShutExactly(s: State, ev: Event, r: Ref)
    requires Inv(s) && r < |s.entries|
    ensures UploadOnly(Apply(s, ev), r) <==> StopsDownload(s, ev, r) || (UploadOnly(s, r) && !SettlesGate(s, ev, r))
  {
    hide Inv, UploadOnly, StopsDownload, SettlesGate, Apply;
    if Regates(ev) {
      RegatesExact(s, ev, r);
    } else {
      QuietGate(s, ev, r);
    }
  }

  /** The space check stopped entry r in the run, and nothing settled its gate since. */
  predicate LastStopped(s: State, evs: seq<Event>, r: Ref)
    decreases |evs|
  {
    evs != [] &&
    var before, ev := evs[..|evs| - 1], evs[|evs| - 1];
    StopsDownload(Run(s, before), ev, r) || (LastStopped(s, before, r) && !SettlesGate(Run(s, before), ev, r))
  }

  /** In every run exactly those gates are half shut. */
  lemma {:induction false} HalfShutOverRuns(maxActive: nat, evs: seq<Event>, r: Ref)
    ensures UploadOnly(Run(Init(maxActive), evs), r) <==> LastStopped(Init(maxActive), evs, r)
    decreases |evs|
  {
    if evs != [] {
      var before, ev := evs[..|evs| - 1], evs[|evs| - 1];
      var s := Run(Init(maxActive), before);
      assert evs == before + [ev];
      RunAppend(Init(maxActive), before, [ev]);
      RunOne(s, ev);
      InitInv(maxActive);
      RunKeeps(Init(maxActive), before);
      HalfShutOverRuns(maxActive, before, r);
      if r < |s.entries| { HalfShutExactly(s, ev, r); } else { NewGate(s, ev, r); }
    }
  }
}
