/** While the engine is open, whose torrent the client still holds. */
module EngineLive {
  import opened Wrappers
  import opened EngineState
  import opened EngineSteps
  import opened EngineInvariants
  import opened EngineProofs
  import opened EngineEffects
  import opened EngineSlots
  import opened EngineSharing

  /** Removed, entry r is tracked no more. */
  predicate Gone(s: State, r: Ref)
    requires r < |s.entries|
  {
    s.entries[r].removed ==> !IsTracked(s, r)
  }

  /** A torrent still to be dropped is of an entry no longer tracked, unless another was handed it meanwhile. */
  predicate Leaving(s: State, l: LibRef) {
    l in s.drops ==> l < |s.libs| && (!s.libs[l].shared ==> !IsTracked(s, s.libs[l].creator))
  }

  /** Tracked, not refused, and attaching or published on a torrent. */
  predicate Keeps(s: State, r: Ref)
    requires r < |s.entries|
  {
    var e := s.entries[r];
    && IsTracked(s, r) && !e.refused && !e.phase.Refusing? && (e.t.Some? || HoldsSpec(e.phase))
    && e.lib.Some? && e.lib.value < |s.libs| && !s.libs[e.lib.value].shared
  }

  predicate Kept(s: State, r: Ref)
    requires r < |s.entries|
  {
    Keeps(s, r) ==> Live(s, s.entries[r].lib.value)
  }

  ghost predicate Holds(s: State) {
    && (forall r | 0 <= r < |s.entries| :: Gone(s, r) && Kept(s, r))
    && (forall l | l in s.drops :: Leaving(s, l))
  }

  lemma GoneKept(s: State, ev: Event, q: Ref)
    requires Inv(s) && q < |s.entries| && Gone(s, q)
    ensures q < |Apply(s, ev).entries| && Gone(Apply(s, ev), q)
  {
    hide Inv, Apply;
    EventEffect(s, ev, AtEntry(q, 0));
  }

  lemma FreshHolds(s: State, s': State)
    requires AppendsFresh(s, s')
    ensures Gone(s', |s.entries|) && Kept(s', |s.entries|)
  {
  }

  // ----- torrents to be dropped -----

  lemma RemovedLeaves(s: State, ev: Event, l: LibRef)
    requires Inv(s) && ev.EvRemove? && Leaves(s, ev, l)
    ensures l < |s.libs| && (!s.libs[l].shared ==> !IsTracked(Apply(s, ev), s.libs[l].creator))
  {
    hide Inv, Remove;
    var r := Lookup(s, ev.id).value;
    TrackedOf(s, ev.id);
    LocalOf(s, r);
    RemovedShape(s, ev.id, ev.deleteData, ev.dirs);
  }

  lemma PublishedLeaves(s: State, ev: Event, l: LibRef)
    requires Inv(s) && ev.EvPublish? && Leaves(s, ev, l) && Gone(s, ev.r)
    ensures l < |s.libs| && (!s.libs[l].shared ==> !IsTracked(Apply(s, ev), s.libs[l].creator))
  {
    hide Inv, Apply;
    LocalOf(s, ev.r);
    EventEffect(s, ev, AtEntry(ev.r, l));
  }

  /** One that leaves already goes on doing so. */
  lemma StillLeaves(s: State, ev: Event, l: LibRef)
    requires Inv(s) && l < |s.libs| && (!s.libs[l].shared ==> !IsTracked(s, s.libs[l].creator))
    ensures Leaving(Apply(s, ev), l)
  {
    hide Inv, Apply;
    CreatorHolds(s, l);
    EventEffect(s, ev, AtEntry(s.libs[l].creator, l));
  }

  lemma LeavingKept(s: State, ev: Event, l: LibRef)
    requires Inv(s) && Holds(s) && l in Apply(s, ev).drops
    ensures Leaving(Apply(s, ev), l)
  {
    hide Inv, Apply, Leaves, Kept;
    EventEffect(s, ev, AtEntry(0, l));
    if l in s.drops {
      assert Leaving(s, l);
      StillLeaves(s, ev, l);
    } else {
      LeaveEvents(s, ev, l);
      if ev.EvRemove? { RemovedLeaves(s, ev, l); } else { assert Gone(s, ev.r); PublishedLeaves(s, ev, l); }
    }
  }

  lemma LeaveEvents(s: State, ev: Event, l: LibRef)
    requires Leaves(s, ev, l)
    ensures ev.EvRemove? || (ev.EvPublish? && ev.r < |s.entries|)
  {
  }

  // ----- torrents kept -----

  /** What keeps a torrent after an event kept it before, and the event does not drop it. */
  lemma KeptBefore(s: State, ev: Event, q: Ref)
    requires Inv(s) && q < |s.entries| && !(ev.EvAddTorrent? && ev.r == q)
    requires q < |Apply(s, ev).entries| && Keeps(Apply(s, ev), q)
    ensures Keeps(s, q) && Apply(s, ev).entries[q].lib == s.entries[q].lib
    ensures Live(s, LibOf(s.entries[q])) ==>
      Live(Apply(s, ev), LibOf(s.entries[q])) || Drops(s, ev, LibOf(s.entries[q]))
  {
    hide Inv, Apply, Drops;
    LocalOf(s, q);
    EventEffect(s, ev, AtEntry(q, LibOf(s.entries[q])));
  }

  lemma OwnerOf(s: State, q: Ref, r: Ref)
    requires Inv(s) && q < |s.entries| && r < |s.entries| && s.entries[q].lib.Some? &&
      s.entries[r].lib == s.entries[q].lib
    ensures s.entries[q].lib.value < |s.libs|
    ensures !s.libs[s.entries[q].lib.value].shared ==> q == r && s.libs[s.entries[q].lib.value].creator == q
  {
    hide Inv;
    LocalOf(s, q);
    LocalOf(s, r);
  }

  /** An event that drops a torrent nobody else was handed leaves its entry refused, failed or untracked. */
  lemma DropLetsGo(s: State, ev: Event, q: Ref)
    requires Inv(s) && q < |s.entries| && Keeps(s, q) && Drops(s, ev, s.entries[q].lib.value) &&
      (ev.EvRefuse? || ev.EvSetInfo?)
    requires q < |Apply(s, ev).entries|
    ensures !Keeps(Apply(s, ev), q)
  {
    hide Inv, Apply, Keeps;
    match ev
    case EvRefuse(r) => RefusedLetsGo(s, r, q);
    case EvSetInfo(r, ok) => FailedLetsGo(s, r, ok, q);
  }

  /** What an entry keeps is not to be dropped later. */
  lemma KeptNotLeaving(s: State, q: Ref)
    requires Inv(s) && Holds(s) && q < |s.entries| && Keeps(s, q)
    ensures s.entries[q].lib.value !in s.drops
  {
    hide Inv, Live;
    OwnerOf(s, q, q);
    assert s.entries[q].lib.value in s.drops ==> Leaving(s, s.entries[q].lib.value);
  }

  lemma DropEvents(s: State, ev: Event, l: LibRef)
    ensures Drops(s, ev, l) ==> ev.EvRefuse? || ev.EvSetInfo? || l in s.drops
  {
  }

  lemma RefusedLetsGo(s: State, r: Ref, q: Ref)
    requires Inv(s) && q < |s.entries| && Keeps(s, q) && Drops(s, EvRefuse(r), s.entries[q].lib.value)
    requires q < |Apply(s, EvRefuse(r)).entries|
    ensures !Keeps(Apply(s, EvRefuse(r)), q)
  {
    hide Inv;
    LocalOf(s, r);
    OwnerOf(s, q, r);
  }

  lemma FailedLetsGo(s: State, r: Ref, ok: bool, q: Ref)
    requires Inv(s) && q < |s.entries| && Keeps(s, q) && Drops(s, EvSetInfo(r, ok), s.entries[q].lib.value)
    requires q < |Apply(s, EvSetInfo(r, ok)).entries|
    ensures !Keeps(Apply(s, EvSetInfo(r, ok)), q)
  {
    hide Inv;
    LocalOf(s, r);
    OwnerOf(s, q, r);
  }

  lemma JoinedLives(s: State, r: Ref)
    requires Inv(s) && r < |s.entries| && s.entries[r].phase.Joining? && r < |AddTorrent(s, r).entries|
    ensures Kept(AddTorrent(s, r), r)
  {
    hide Inv, AddTorrent, JoinedEntry;
    var e, h := s.entries[r], s.entries[r].phase.spec.hash;
    LocalOf(s, r);
    AddTorrentUnfolds(s, r);
    ClientOf(s, h);
    JoinedGoes(e, |s.libs|);
    JoinedLib(e, |s.libs|);
    if h in s.client { JoinedGoes(e, s.client[h]); JoinedLib(e, s.client[h]); }
  }

  lemma KeptOn(s: State, ev: Event, q: Ref)
    requires Inv(s) && Holds(s) && q < |s.entries| && q < |Apply(s, ev).entries|
    ensures Kept(Apply(s, ev), q)
  {
    hide Inv, Holds, Keeps, Apply, Live, Drops;
    if ev.EvAddTorrent? && ev.r == q {
      JoinedKept(s, q);
    } else if Keeps(Apply(s, ev), q) {
      KeptBefore(s, ev, q);
      KeptNow(s, q);
      KeptNotLeaving(s, q);
      DropEvents(s, ev, LibOf(s.entries[q]));
      if Drops(s, ev, LibOf(s.entries[q])) { DropLetsGo(s, ev, q); }
    }
  }

  lemma KeptNow(s: State, q: Ref)
    requires Holds(s) && q < |s.entries| && Keeps(s, q)
    ensures s.entries[q].lib.Some? && Live(s, s.entries[q].lib.value)
  {
    assert Kept(s, q);
  }

  lemma JoinedKept(s: State, r: Ref)
    requires Inv(s) && Holds(s) && r < |s.entries| && r < |Apply(s, EvAddTorrent(r)).entries|
    ensures Kept(Apply(s, EvAddTorrent(r)), r)
  {
    hide Inv, AddTorrent, Kept, Gone, Leaving;
    if s.entries[r].phase.Joining? { JoinedLives(s, r); } else { AddTorrentNothing(s, r); }
  }

  // ----- every event, every run -----

  lemma EventHolds(s: State, ev: Event)
    requires Inv(s) && Holds(s)
    ensures Holds(Apply(s, ev))
  {
    hide Inv, Apply, Gone, Kept, Leaving, AppendsFresh;
    var s' := Apply(s, ev);
    EntryCount(s, ev);
    AppendedCount(s, s');
    forall r | 0 <= r < |s'.entries|
      ensures Gone(s', r) && Kept(s', r)
    {
      if r < |s.entries| {
        GoneKept(s, ev, r);
        KeptOn(s, ev, r);
      } else {
        FreshHolds(s, s');
      }
    }
    forall l | l in s'.drops
      ensures Leaving(s', l)
    {
      LeavingKept(s, ev, l);
    }
  }

  lemma {:induction false} RunHolds(s: State, evs: seq<Event>)
    requires Inv(s) && Holds(s)
    ensures Holds(Run(s, evs))
    decreases |evs|
  {
    if evs != [] {
      hide Inv, Apply, Holds;
      EventHolds(s, evs[0]);
      ApplyKeeps(s, evs[0]);
      RunHolds(Apply(s, evs[0]), evs[1..]);
    }
  }

  /**
   In every run, while the engine is open, the client holds the torrent of every published,
   tracked entry that is not refused, unless it was handed to another entry too.
   */
  lemma TorrentLives(maxActive: nat, evs: seq<Event>, r: Ref)
    ensures var s := Run(Init(maxActive), evs);
      !s.closed && r < |s.entries| && IsTracked(s, r) && s.entries[r].t.Some? && !s.entries[r].refused &&
        !s.entries[r].phase.Refusing? ==>
        var l := s.entries[r].t.value;
        l < |s.libs| && (!s.libs[l].shared ==> Live(s, l))
  {
    RunKeeps(Init(maxActive), evs);
    RunHolds(Init(maxActive), evs);
    hide Inv, Run;
    var s := Run(Init(maxActive), evs);
    if r < |s.entries| {
      LocalOf(s, r);
      assert Kept(s, r);
    }
  }
}
