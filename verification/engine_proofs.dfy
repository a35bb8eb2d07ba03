/** Every event keeps every invariant: one entry at a time, then the library, then the engine's tables. */
module EngineProofs {
  import opened Wrappers
  import opened EngineState
  import opened EngineSteps
  import opened EngineInvariants

  // ----- one entry moves -----

  predicate SameIdentity(a: Tracked, b: Tracked) {
    && a.id == b.id && a.savePath == b.savePath && a.byHash == b.byHash && (a.byHash ==> a.infoHash == b.infoHash)
    && a.lib == b.lib
  }

  /**
   Entry r becoming e, and the gate of its torrent t (when given) down and up, satisfies what the
   invariant says of one entry.
   */
  ghost predicate Fits(s: State, r: Ref, e: Tracked, t: Option<LibRef>, down: bool, up: bool)
    requires r < |s.entries|
  {
    && EntryOk(s, e) && FlagsOk(e)
    && (t.Some? ==> t == e.lib)
    && (e.lib.Some? && !s.libs[e.lib.value].shared && !e.refused ==>
          var g := if t.Some? then s.libs[e.lib.value].(down := down, up := up) else s.libs[e.lib.value];
          JoiningGate(e, g) && (e.t.Some? ==> GateLaw(e, g)))
  }

  /** The move neither refuses the entry, nor takes it past the deletes, nor in or out of the queue. */
  predicate Quiet(a: Tracked, b: Tracked) {
    && SameIdentity(a, b)
    && b.leftName == a.leftName && b.sharedName == a.sharedName && b.refused == a.refused
    && (b.phase.Wanted? ==> a.phase.Wanted? && b.t == a.t)
    && KeepsPlace(a, b)
  }

  /** The same, but for the deletes. */
  ghost predicate Quieter(a: Tracked, b: Tracked) {
    && SameIdentity(a, b) && FlagsOk(b) && KeepsPlace(a, b)
    && b.leftName == a.leftName && b.sharedName == a.sharedName && b.refused == a.refused
  }

  /** The move takes the entry neither on nor off the queue. */
  predicate KeepsPlace(a: Tracked, b: Tracked) {
    && (b.state == Queued ==> a.state == Queued)
    && (Startable(a) && !a.paused && InLine(a) ==> Startable(b) && !b.paused && InLine(b))
  }

  ghost predicate Local(s: State, r: Ref)
    requires r < |s.entries|
  {
    EntryOk(s, s.entries[r]) && FlagsOk(s.entries[r]) && GateOk(s, r)
  }

  // ----- what the invariant says of one entry, one id, one infohash -----

  lemma LocalOf(s: State, r: Ref)
    requires Inv(s) && r < |s.entries|
    ensures Local(s, r) && OwnLib(s, r)
  {
  }

  lemma TrackedOf(s: State, id: Id)
    requires Inv(s) && Lookup(s, id).Some?
    ensures IsTracked(s, Lookup(s, id).value) && s.entries[Lookup(s, id).value].id == id
  {
  }

  lemma ClientOf(s: State, h: string)
    requires Inv(s)
    ensures h in s.client ==> s.client[h] < |s.libs|
  {
  }

  lemma StructureOf(s: State)
    requires Inv(s)
    ensures Structure(s)
  {
  }

  lemma QueueOf(s: State)
    requires Inv(s)
    ensures QueueOk(s)
  {
  }

  // ----- a move keeps each part -----

  lemma MoveEntryOk(s: State, r: Ref, e: Tracked, t: Option<LibRef>, down: bool, up: bool, q: Ref)
    requires r < |s.entries| && q < |s.entries| && EntryOk(s, s.entries[q]) && OwnLib(s, q)
    requires SameIdentity(s.entries[r], e) && Fits(s, r, e, t, down, up)
    ensures var s' := Gate(Put(s, r, e), t, down, up); EntryOk(s', s'.entries[q]) && OwnLib(s', q)
  {
    if q == r { } else { }
  }

  lemma MoveStructure(s: State, r: Ref, e: Tracked, t: Option<LibRef>, down: bool, up: bool)
    requires Structure(s) && r < |s.entries| && SameIdentity(s.entries[r], e) && Fits(s, r, e, t, down, up)
    ensures Structure(Gate(Put(s, r, e), t, down, up))
  {
    hide EntryOk, OwnLib, Fits;
    var s' := Gate(Put(s, r, e), t, down, up);
    forall q | 0 <= q < |s'.entries|
      ensures EntryOk(s', s'.entries[q]) && OwnLib(s', q)
    {
      MoveEntryOk(s, r, e, t, down, up, q);
    }
  }

  lemma MoveGates(s: State, r: Ref, e: Tracked, t: Option<LibRef>, down: bool, up: bool)
    requires Structure(s) && Gates(s) && r < |s.entries| && SameIdentity(s.entries[r], e) && Fits(s, r, e, t, down, up)
    ensures Gates(Gate(Put(s, r, e), t, down, up))
  {
    var s' := Gate(Put(s, r, e), t, down, up);
    forall q | 0 <= q < |s'.entries|
      ensures GateOk(s', q)
    {
      if q != r { assert GateOk(s, q) && OwnLib(s, q) && OwnLib(s, r) && EntryOk(s, s.entries[q]); }
    }
  }

  lemma MoveApart(s: State, r: Ref, e: Tracked, t: Option<LibRef>, down: bool, up: bool, d: InflightDelete, q: Ref)
    requires r < |s.entries| && q < |s.entries| && Apart(s, d, q) && EntryOk(s, s.entries[q]) &&
      SameIdentity(s.entries[r], e) && Fits(s, r, e, t, down, up)
    requires e.phase.Wanted? && !e.refused ==>
      s.entries[r].phase.Wanted? && !s.entries[r].refused && e.t == s.entries[r].t
    ensures Apart(Gate(Put(s, r, e), t, down, up), d, q)
  {
    if q == r { } else { }
  }

  lemma MoveDeletes(s: State, r: Ref, e: Tracked, t: Option<LibRef>, down: bool, up: bool)
    requires Structure(s) && Deletes(s) && r < |s.entries| && SameIdentity(s.entries[r], e) &&
      Fits(s, r, e, t, down, up)
    requires e.phase.Wanted? && !e.refused ==>
      s.entries[r].phase.Wanted? && !s.entries[r].refused && e.t == s.entries[r].t
    ensures Deletes(Gate(Put(s, r, e), t, down, up))
  {
    hide Apart, EntryOk, Fits, SameIdentity;
    var s' := Gate(Put(s, r, e), t, down, up);
    forall k, q | k in s'.deleting && 0 <= q < |s'.entries|
      ensures Apart(s', s'.deleting[k], q)
    {
      MoveApart(s, r, e, t, down, up, s.deleting[k], q);
    }
  }

  lemma MoveHashes(s: State, r: Ref, e: Tracked, t: Option<LibRef>, down: bool, up: bool)
    requires Hashes(s) && r < |s.entries| && SameIdentity(s.entries[r], e)
    ensures Hashes(Gate(Put(s, r, e), t, down, up))
  {
    var s' := Gate(Put(s, r, e), t, down, up);
    forall p, q | 0 <= p < |s'.entries| && 0 <= q < |s'.entries|
      ensures HashApart(s', p, q)
    {
      assert HashApart(s, p, q);
    }
  }

  lemma MoveLeft(s: State, r: Ref, e: Tracked, t: Option<LibRef>, down: bool, up: bool)
    requires LeftData(s) && r < |s.entries| && SameIdentity(s.entries[r], e)
    requires e.leftName == s.entries[r].leftName && e.sharedName == s.entries[r].sharedName &&
      e.refused == s.entries[r].refused
    ensures LeftData(Gate(Put(s, r, e), t, down, up))
  {
    var s' := Gate(Put(s, r, e), t, down, up);
    forall p, q | 0 <= p < |s'.entries| && 0 <= q < |s'.entries|
      ensures LeftApart(s', p, q)
    {
      assert LeftApart(s, p, q);
    }
  }

  lemma MoveFlags(s: State, r: Ref, e: Tracked, t: Option<LibRef>, down: bool, up: bool)
    requires Flags(s) && r < |s.entries| && FlagsOk(e)
    ensures forall q | 0 <= q < |s.entries| :: FlagsOk(Gate(Put(s, r, e), t, down, up).entries[q])
  {
  }

  lemma MoveQueue(s: State, r: Ref, e: Tracked, t: Option<LibRef>, down: bool, up: bool)
    requires QueueOk(s) && r < |s.entries| && KeepsPlace(s.entries[r], e)
    ensures QueueOk(Gate(Put(s, r, e), t, down, up))
  {
  }

  lemma MovedFlagsOk(s: State, r: Ref, e: Tracked, t: Option<LibRef>, down: bool, up: bool)
    requires r < |s.entries| && Fits(s, r, e, t, down, up)
    ensures FlagsOk(e) && |Gate(Put(s, r, e), t, down, up).entries| == |s.entries|
  {
  }

  /** A quiet move that fits keeps every invariant. */
  lemma Moves(s: State, r: Ref, e: Tracked, t: Option<LibRef>, down: bool, up: bool)
    requires Inv(s) && r < |s.entries| && Quiet(s.entries[r], e) && Fits(s, r, e, t, down, up)
    ensures Inv(Gate(Put(s, r, e), t, down, up))
  {
    hide Structure, Gates, Deletes, Hashes, LeftData, QueueOk, Fits, Gate, Put, FlagsOk;
    MovedFlagsOk(s, r, e, t, down, up);
    MoveStructure(s, r, e, t, down, up);
    MoveFlags(s, r, e, t, down, up);
    MoveQueue(s, r, e, t, down, up);
    MoveGates(s, r, e, t, down, up);
    MoveDeletes(s, r, e, t, down, up);
    MoveHashes(s, r, e, t, down, up);
    MoveLeft(s, r, e, t, down, up);
  }

  // ----- what the library does -----

  /** The library keeps its torrents, their gates, and every dictionary once known; the engine is as it was. */
  ghost predicate LibsFollow(s: State, s': State) {
    && s'.entries == s.entries && s'.torrents == s.torrents && s'.order == s.order && s'.queue == s.queue
    && s'.deleting == s.deleting && s'.nextDelete == s.nextDelete && s'.shown == s.shown
    && |s'.libs| == |s.libs|
    && (forall l | 0 <= l < |s.libs| ::
          && s'.libs[l].creator == s.libs[l].creator && s'.libs[l].shared == s.libs[l].shared
          && s'.libs[l].down == s.libs[l].down && s'.libs[l].up == s.libs[l].up
          && (s.libs[l].info.Some? ==> s'.libs[l].info == s.libs[l].info))
    && (forall h | h in s'.client :: h in s.client && s'.client[h] == s.client[h])
  }

  lemma FollowStructure(s: State, s': State)
    requires Structure(s) && LibsFollow(s, s')
    ensures Structure(s')
  {
    forall q | 0 <= q < |s'.entries|
      ensures EntryOk(s', s'.entries[q]) && OwnLib(s', q)
    {
      assert EntryOk(s, s.entries[q]) && OwnLib(s, q);
    }
  }

  lemma FollowGates(s: State, s': State)
    requires Gates(s) && LibsFollow(s, s')
    ensures Gates(s')
  {
    forall q | 0 <= q < |s'.entries|
      ensures GateOk(s', q)
    {
      assert GateOk(s, q);
    }
  }

  lemma FollowDeletes(s: State, s': State)
    requires Structure(s) && Deletes(s) && LibsFollow(s, s')
    ensures Deletes(s')
  {
    forall k, q | k in s'.deleting && 0 <= q < |s'.entries|
      ensures Apart(s', s'.deleting[k], q)
    {
      assert Apart(s, s.deleting[k], q) && EntryOk(s, s.entries[q]);
    }
  }

  lemma FollowPairs(s: State, s': State)
    requires Hashes(s) && LeftData(s) && LibsFollow(s, s')
    ensures Hashes(s') && LeftData(s')
  {
    forall p, q | 0 <= p < |s'.entries| && 0 <= q < |s'.entries|
      ensures HashApart(s', p, q) && LeftApart(s', p, q)
    {
      assert HashApart(s, p, q) && LeftApart(s, p, q);
    }
  }

  lemma Follows(s: State, s': State)
    requires Inv(s) && LibsFollow(s, s')
    ensures Inv(s')
  {
    FollowStructure(s, s');
    FollowGates(s, s');
    FollowDeletes(s, s');
    FollowPairs(s, s');
  }

  lemma LearnFollows(s: State, l: LibRef, info: Option<string>)
    ensures LibsFollow(s, Learn(s, l, info))
  {
  }

  lemma LearnKeeps(s: State, l: LibRef, info: Option<string>)
    requires Inv(s)
    ensures Inv(Learn(s, l, info))
  {
    hide Inv;
    LearnFollows(s, l, info);
    Follows(s, Learn(s, l, info));
  }

  lemma DropFollows(s: State, l: LibRef)
    ensures LibsFollow(s, Drop(s, l))
  {
  }

  lemma DropKeeps(s: State, l: LibRef)
    requires Inv(s)
    ensures Inv(Drop(s, l))
  {
    hide Inv;
    DropFollows(s, l);
    Follows(s, Drop(s, l));
  }

  // ----- steps of one entry's goroutine -----

  lemma ReadHeldKeeps(s: State, r: Ref)
    requires Inv(s)
    ensures Inv(ReadHeld(s, r))
  {
    hide Inv;
    if r < |s.entries| && s.entries[r].phase.Starting? {
      var e := s.entries[r];
      LocalOf(s, r);
      Moves(s, r, e.(phase := Joining(e.phase.via, e.phase.spec, e.paused)), None, true, true);
    }
  }

  lemma AttachFailsKeeps(s: State, r: Ref)
    requires Inv(s)
    ensures Inv(AttachFails(s, r))
  {
    hide Inv;
    if r < |s.entries| && (s.entries[r].phase.Starting? || s.entries[r].phase.Joining?) {
      var e := s.entries[r];
      LocalOf(s, r);
      Moves(s, r, e.(phase := Failed(e.phase.via, e.phase.spec.info)), None, true, true);
    }
  }

  lemma ShutGatesKeeps(s: State, r: Ref)
    requires Inv(s)
    ensures Inv(ShutGates(s, r))
  {
    hide Inv;
    if r < |s.entries| && s.entries[r].phase.Added? {
      var e := s.entries[r];
      LocalOf(s, r);
      Moves(s, r, e.(phase := Shut(e.phase.via, e.phase.spec)), e.lib, false, false);
    }
  }

  lemma QuitKeeps(s: State, r: Ref)
    requires Inv(s)
    ensures Inv(Quit(s, r))
  {
    hide Inv;
    if r < |s.entries| && (s.entries[r].phase == Awaiting || s.entries[r].phase.Waiting?) &&
        (s.closed || s.entries[r].removed) {
      var e := s.entries[r];
      LocalOf(s, r);
      Moves(s, r, e.(phase := Ended), None, true, true);
    }
  }

  lemma FetchFailsKeeps(s: State, r: Ref)
    requires Inv(s)
    ensures Inv(FetchFails(s, r))
  {
    hide Inv;
    if r < |s.entries| && s.entries[r].phase == Fetching {
      var e := s.entries[r];
      LocalOf(s, r);
      Moves(s, r, FailEntry(e).(phase := Ended), None, true, true);
    }
  }

  /** AddTorrentSpec hands entry r the torrent the client holds, which it shares from now on. */
  lemma JoinsShared(s: State, r: Ref, e: Tracked, l: LibRef, info: Option<string>, s': State)
    requires Inv(s) && r < |s.entries| && s.entries[r].lib.None? && s.entries[r].phase.Joining? && l < |s.libs|
    requires e == s.entries[r].(lib := Some(l), phase := e.phase) && (e.phase.Added? || e.phase.Joined?)
    requires e.phase.spec == s.entries[r].phase.spec
    requires s' == Put(s, r, e).(libs :=
      s.libs[l := s.libs[l].(info := if s.libs[l].info.None? then info else s.libs[l].info, shared := true)])
    ensures Inv(s')
  {
    hide QueueOk, EntryOk, OwnLib, GateOk, FlagsOk, Flags, Deletes, LeftData, Hashes;
    forall q | 0 <= q < |s'.entries|
      ensures EntryOk(s', s'.entries[q]) && OwnLib(s', q) && GateOk(s', q)
    {
      LocalOf(s, q);
      LocalOf(s, r);
      JoinsSharedAt(s, r, e, l, info, s', q);
    }
    JoinsRest(s, r, e, s');
  }

  lemma JoinsSharedAt(s: State, r: Ref, e: Tracked, l: LibRef, info: Option<string>, s': State, q: Ref)
    requires r < |s.entries| && q < |s.entries| && Local(s, r) && OwnLib(s, q) && Local(s, q)
    requires s.entries[r].lib.None? && s.entries[r].phase.Joining? && l < |s.libs|
    requires e == s.entries[r].(lib := Some(l), phase := e.phase) && (e.phase.Added? || e.phase.Joined?)
    requires e.phase.spec == s.entries[r].phase.spec
    requires s' == Put(s, r, e).(libs :=
      s.libs[l := s.libs[l].(info := if s.libs[l].info.None? then info else s.libs[l].info, shared := true)])
    ensures Local(s', q) && OwnLib(s', q)
  {
    if q == r { } else { }
  }

  /** Or a torrent made for it. */
  lemma JoinsNew(s: State, r: Ref, e: Tracked, g: Torrent, s': State)
    requires Inv(s) && r < |s.entries| && s.entries[r].lib.None? && s.entries[r].phase.Joining?
    requires e == s.entries[r].(lib := Some(|s.libs|), phase := e.phase)
    requires e.phase.Added? || (e.phase.Joined? && !e.phase.held)
    requires e.phase.spec == s.entries[r].phase.spec
    requires g.creator == r && g.down && g.up
    requires s' == Put(s, r, e).(libs := s.libs + [g], client := s.client[e.phase.spec.hash := |s.libs|])
    ensures Inv(s')
  {
    hide QueueOk, EntryOk, OwnLib, GateOk, FlagsOk, Flags, Deletes, LeftData, Hashes;
    forall q | 0 <= q < |s'.entries|
      ensures EntryOk(s', s'.entries[q]) && OwnLib(s', q) && GateOk(s', q)
    {
      LocalOf(s, q);
      LocalOf(s, r);
      JoinsNewAt(s, r, e, g, s', q);
    }
    JoinsRest(s, r, e, s');
  }

  lemma JoinsNewAt(s: State, r: Ref, e: Tracked, g: Torrent, s': State, q: Ref)
    requires r < |s.entries| && q < |s.entries| && Local(s, r) && OwnLib(s, q) && Local(s, q)
    requires s.entries[r].lib.None? && s.entries[r].phase.Joining?
    requires e == s.entries[r].(lib := Some(|s.libs|), phase := e.phase)
    requires e.phase.Added? || (e.phase.Joined? && !e.phase.held)
    requires e.phase.spec == s.entries[r].phase.spec
    requires g.creator == r && g.down && g.up
    requires s' == Put(s, r, e).(libs := s.libs + [g], client := s.client[e.phase.spec.hash := |s.libs|])
    ensures Local(s', q) && OwnLib(s', q)
  {
    if q == r { } else { }
  }

  lemma JoinsRest(s: State, r: Ref, e: Tracked, s': State)
    requires Inv(s) && r < |s.entries| && s.entries[r].phase.Joining?
    requires e == s.entries[r].(lib := e.lib, phase := e.phase) && (e.phase.Added? || e.phase.Joined?)
    requires s'.entries == s.entries[r := e] && s'.torrents == s.torrents && s'.queue == s.queue &&
      s'.deleting == s.deleting
    requires s'.nextDelete == s.nextDelete && s'.shown == s.shown && |s.libs| <= |s'.libs|
    requires forall l | 0 <= l < |s.libs| :: s.libs[l].info.Some? ==> s'.libs[l].info == s.libs[l].info
    ensures Flags(s') && Deletes(s') && LeftData(s') && Hashes(s')
  {
    assert EntryOk(s, s.entries[r]) && FlagsOk(s.entries[r]);
    assert QueueOk(s') by {
      forall id | id in s'.torrents && s'.torrents[id] < |s'.entries| && s'.entries[s'.torrents[id]].state == Queued
        ensures id in s'.queue
      {
        assert s.entries[s.torrents[id]].state == Queued;
      }
    }
    forall k, q | k in s'.deleting && 0 <= q < |s'.entries|
      ensures Apart(s', s'.deleting[k], q)
    {
      JoinsApart(s, r, e, s', s.deleting[k], q);
    }
    forall p, q | 0 <= p < |s'.entries| && 0 <= q < |s'.entries|
      ensures HashApart(s', p, q) && LeftApart(s', p, q)
    {
      assert HashApart(s, p, q) && LeftApart(s, p, q);
    }
  }

  lemma JoinsApart(s: State, r: Ref, e: Tracked, s': State, d: InflightDelete, q: Ref)
    requires q < |s.entries| && Apart(s, d, q) && EntryOk(s, s.entries[q])
    requires r < |s.entries| && s'.entries == s.entries[r := e] && s'.torrents == s.torrents && |s.libs| <= |s'.libs|
    requires !e.phase.Wanted? && e.id == s.entries[r].id
    requires forall l | 0 <= l < |s.libs| :: s.libs[l].info.Some? ==> s'.libs[l].info == s.libs[l].info
    ensures Apart(s', d, q)
  {
    if q == r { } else { }
  }

  lemma JoinsHeld(s: State, r: Ref)
    requires Inv(s) && r < |s.entries| && s.entries[r].phase.Joining? && s.entries[r].phase.held &&
      s.entries[r].lib.None?
    requires s.entries[r].phase.spec.hash in s.client ==> s.client[s.entries[r].phase.spec.hash] < |s.libs|
    ensures Inv(AddTorrent(s, r))
  {
    hide Inv;
    var spec, s' := s.entries[r].phase.spec, AddTorrent(s, r);
    if spec.hash in s.client {
      JoinsShared(s, r, s'.entries[r], s.client[spec.hash], None, s');
    } else {
      JoinsNew(s, r, s'.entries[r], s'.libs[|s.libs|], s');
    }
  }

  lemma JoinsOpen(s: State, r: Ref)
    requires Inv(s) && r < |s.entries| && s.entries[r].phase.Joining? && !s.entries[r].phase.held &&
      s.entries[r].lib.None?
    requires s.entries[r].phase.spec.hash in s.client ==> s.client[s.entries[r].phase.spec.hash] < |s.libs|
    ensures Inv(AddTorrent(s, r))
  {
    hide Inv;
    var spec, s' := s.entries[r].phase.spec, AddTorrent(s, r);
    if spec.hash in s.client {
      JoinsShared(s, r, s'.entries[r], s.client[spec.hash], spec.info, s');
    } else {
      JoinsNew(s, r, s'.entries[r], s'.libs[|s.libs|], s');
    }
  }

  lemma AddTorrentKeeps(s: State, r: Ref)
    requires Inv(s)
    ensures Inv(AddTorrent(s, r))
  {
    hide Inv;
    if r < |s.entries| && s.entries[r].phase.Joining? {
      LocalOf(s, r);
      var p := s.entries[r].phase;
      ClientOf(s, p.spec.hash);
      if p.held { JoinsHeld(s, r); } else { JoinsOpen(s, r); }
    }
  }

  lemma SetInfoKeeps(s: State, r: Ref, ok: bool)
    requires Inv(s)
    ensures Inv(SetInfo(s, r, ok))
  {
    hide Inv;
    if r < |s.entries| && s.entries[r].phase.Shut? {
      var e := s.entries[r];
      LocalOf(s, r);
      var l, spec := e.lib.value, e.phase.spec;
      if ok || spec.info.None? {
        var e1 := e.(phase := Joined(e.phase.via, spec, true));
        Moves(s, r, e1, None, true, true);
        LearnKeeps(Put(s, r, e1), l, spec.info);
      } else {
        SetInfoFails(s, r);
      }
    }
  }

  lemma SetInfoFails(s: State, r: Ref)
    requires Inv(s) && r < |s.entries| && s.entries[r].phase.Shut? && s.entries[r].phase.spec.info.Some?
    ensures Inv(SetInfo(s, r, false))
  {
    hide Inv;
    var e := s.entries[r];
    LocalOf(s, r);
    var e1 := e.(phase := Failed(e.phase.via, e.phase.spec.info));
    Moves(s, r, e1, None, true, true);
    DropKeeps(Put(s, r, e1), e.lib.value);
  }

  lemma PublishKeeps(s: State, r: Ref)
    requires Inv(s)
    ensures Inv(Publish(s, r))
  {
    hide Inv;
    if r < |s.entries| && s.entries[r].phase.Joined? {
      var e := s.entries[r];
      LocalOf(s, r);
      if e.removed {
        Moves(s, r, e.(phase := Ended), None, true, true);
        Follows(Put(s, r, e.(phase := Ended)), Publish(s, r));
      } else if s.closed {
        Moves(s, r, e.(phase := Failed(e.phase.via, e.phase.spec.info)), None, true, true);
      } else {
        var e1 := e.(infoHash := e.phase.spec.hash, t := e.lib, phase := Awaiting);
        if !e.phase.held && e.paused { Moves(s, r, e1, e.lib, false, false); }
        else if e.phase.held && !e.paused && e.state != Queued { Moves(s, r, e1, e.lib, true, true); }
        else { Moves(s, r, e1, None, true, true); }
      }
    }
  }

  lemma RefuseKeeps(s: State, r: Ref)
    requires Inv(s)
    ensures Inv(Refuse(s, r))
  {
    hide Inv;
    if r < |s.entries| && s.entries[r].phase == Awaiting {
      var e := s.entries[r];
      LocalOf(s, r);
      var e1 := e.(phase := Refusing(InfoOf(s, e.t.value)));
      Moves(s, r, e1, None, true, true);
      DropKeeps(Put(s, r, e1), e.t.value);
    }
  }

  lemma InfoAcceptedKeeps(s: State, r: Ref)
    requires Inv(s)
    ensures Inv(InfoAccepted(s, r))
  {
    hide Inv;
    if r < |s.entries| && s.entries[r].phase == Awaiting {
      var e := s.entries[r];
      LocalOf(s, r);
      if InfoOf(s, e.t.value).Some? {
        var e1 := e.(phase := Waiting(InfoOf(s, e.t.value).value));
        if e.state == Queued { Moves(s, r, e1, e.t, false, false); }
        else if e.paused { Moves(s, r, e1.(prePause := Downloading), e.t, false, false); }
        else if e.state == Checking { Moves(s, r, e1.(state := Downloading), None, true, true); }
        else { Moves(s, r, e1, None, true, true); }
      }
    }
  }

  lemma SpaceStopsKeeps(s: State, r: Ref)
    requires Inv(s)
    ensures Inv(SpaceStops(s, r))
  {
    hide Inv;
    if r < |s.entries| && s.entries[r].t.Some? && !s.entries[r].removed && s.entries[r].state == Downloading &&
        InfoOf(s, s.entries[r].t.value).Some? {
      var e := s.entries[r];
      LocalOf(s, r);
      Moves(s, r, e.(paused := true, spacePaused := true, prePause := Downloading, state := Errored), e.t, false,
        s.libs[e.t.value].up);
    }
  }

  lemma CompleteKeeps(s: State, id: Id)
    requires Inv(s)
    ensures Inv(Complete(s, id))
  {
    hide Inv;
    if Complete(s, id) != s {
      var r := Lookup(s, id).value;
      LocalOf(s, r);
      Moves(s, r, s.entries[r].(state := Seeding), None, true, true);
    }
  }

  lemma SeedStopsKeeps(s: State, id: Id)
    requires Inv(s)
    ensures Inv(SeedStops(s, id))
  {
    hide Inv;
    if SeedStops(s, id) != s {
      var r := Lookup(s, id).value;
      var e := s.entries[r];
      LocalOf(s, r);
      Moves(s, r, e.(paused := true, seedDone := true, prePause := Seeding, state := Paused), e.t,
        s.libs[e.t.value].down, false);
    }
  }

  lemma MakeDropKeeps(s: State, l: LibRef)
    requires Inv(s)
    ensures Inv(MakeDrop(s, l))
  {
    hide Inv;
    if l in s.drops {
      Follows(s, s.(drops := s.drops - {l}));
      DropKeeps(s.(drops := s.drops - {l}), l);
    }
  }

  /** Only an entry no delete covers gets past awaitDeletes. */
  lemma PassDeletesKeeps(s: State, r: Ref)
    requires Inv(s)
    ensures Inv(PassDeletes(s, r))
  {
    hide Structure, Gates, Deletes, Hashes, LeftData, QueueOk, Fits, FlagsOk, Local, Covered;
    if PassDeletes(s, r) != s {
      var e := s.entries[r].(phase := Wanted);
      LocalOf(s, r);
      PassFits(s, r, e);
      MoveStructure(s, r, e, None, true, true);
      MoveFlags(s, r, e, None, true, true);
      MoveQueue(s, r, e, None, true, true);
      MoveGates(s, r, e, None, true, true);
      MoveHashes(s, r, e, None, true, true);
      MoveLeft(s, r, e, None, true, true);
      PassApart(s, r);
    }
  }

  lemma PassFits(s: State, r: Ref, e: Tracked)
    requires r < |s.entries| && Local(s, r) && s.entries[r].phase.Waiting? && e == s.entries[r].(phase := Wanted)
    ensures Fits(s, r, e, None, true, true) && Quieter(s.entries[r], e)
  {
  }

  lemma PassApart(s: State, r: Ref)
    requires Deletes(s) && r < |s.entries| && Local(s, r)
    ensures Deletes(PassDeletes(s, r))
  {
    var s' := PassDeletes(s, r);
    forall k, q | k in s'.deleting && 0 <= q < |s'.entries|
      ensures Apart(s', s'.deleting[k], q)
    {
      assert Apart(s, s.deleting[k], q);
      assert s' != s ==> !MayBeSameName(s.deleting[k].name, s.entries[r].phase.name);
    }
  }

  // ----- in and out of the queue -----

  /** The move neither refuses the entry nor takes it past the deletes. */
  predicate Steady(a: Tracked, b: Tracked) {
    && SameIdentity(a, b)
    && b.leftName == a.leftName && b.sharedName == a.sharedName && b.refused == a.refused
    && (b.phase.Wanted? ==> a.phase.Wanted? && b.t == a.t)
  }

  /** What a move leaves as it was. */
  lemma MovedParts(s: State, r: Ref, e: Tracked, t: Option<LibRef>, down: bool, up: bool)
    requires r < |s.entries|
    ensures var s' := Gate(Put(s, r, e), t, down, up);
      && s'.entries == s.entries[r := e] && s'.torrents == s.torrents && s'.shown == s.shown && s'.queue == s.queue
  {
  }

  /** A move that may also put the entry on the queue or take it off. */
  lemma Requeues(s: State, r: Ref, e: Tracked, t: Option<LibRef>, down: bool, up: bool, queue: seq<Id>)
    requires Inv(s) && IsTracked(s, r) && Steady(s.entries[r], e) && Fits(s, r, e, t, down, up)
    requires NoDup(queue) && forall id :: id != e.id ==> (id in queue <==> id in s.queue)
    requires e.id in queue ==> Startable(e) && !e.paused && InLine(e)
    requires e.state == Queued ==> e.id in queue
    ensures Inv(Gate(Put(s, r, e), t, down, up).(queue := queue))
  {
    hide Structure, Gates, Deletes, Hashes, LeftData, QueueOk, Fits, Gate, Put, FlagsOk, OwnLib, EntryOk;
    MovedFlagsOk(s, r, e, t, down, up);
    MovedParts(s, r, e, t, down, up);
    MoveStructure(s, r, e, t, down, up);
    MoveFlags(s, r, e, t, down, up);
    MoveGates(s, r, e, t, down, up);
    MoveDeletes(s, r, e, t, down, up);
    MoveHashes(s, r, e, t, down, up);
    MoveLeft(s, r, e, t, down, up);
    var s1 := Gate(Put(s, r, e), t, down, up);
    RequeueQueue(s, r, e, s1.(queue := queue));
    SameTables(s1, s1.(queue := queue));
  }

  lemma RequeueQueue(s: State, r: Ref, e: Tracked, s': State)
    requires Structure(s) && QueueOk(s) && IsTracked(s, r) && e.id == s.entries[r].id
    requires s'.entries == s.entries[r := e] && s'.torrents == s.torrents && NoDup(s'.queue)
    requires forall id :: id != e.id ==> (id in s'.queue <==> id in s.queue)
    requires e.id in s'.queue ==> Startable(e) && !e.paused && InLine(e)
    requires e.state == Queued ==> e.id in s'.queue
    ensures QueueOk(s')
  {
  }

  lemma SameQueue(s: State, s': State)
    requires s'.entries == s.entries && s'.torrents == s.torrents
    ensures s'.queue == s.queue && QueueOk(s) ==> QueueOk(s')
  {
  }

  /** The queue, the drops to come and what was shown to differ do not enter these. */
  lemma SameTables(s: State, s': State)
    requires s'.entries == s.entries && s'.libs == s.libs && s'.client == s.client && s'.torrents == s.torrents
    requires s'.order == s.order && s'.deleting == s.deleting && s'.nextDelete == s.nextDelete
    ensures Structure(s) ==> Structure(s')
    ensures Gates(s) ==> Gates(s')
    ensures Deletes(s) ==> Deletes(s')
    ensures Hashes(s) ==> Hashes(s')
    ensures LeftData(s) && s.shown <= s'.shown ==> LeftData(s')
    ensures s'.queue == s.queue && QueueOk(s) ==> QueueOk(s')
  {
    SameQueue(s, s');
    hide QueueOk;
    hide EntryOk, OwnLib, GateOk;
    SameLocals(s, s');
    assert forall k, r | k in s.deleting && 0 <= r < |s.entries| ::
      Apart(s', s.deleting[k], r) == Apart(s, s.deleting[k], r);
    assert forall q, r | 0 <= q < |s.entries| && 0 <= r < |s.entries| :: HashApart(s', q, r) == HashApart(s, q, r);
    assert s.shown <= s'.shown ==>
      forall q, r | 0 <= q < |s.entries| && 0 <= r < |s.entries| :: LeftApart(s, q, r) ==> LeftApart(s', q, r);
  }

  lemma SameInv(s: State, s': State)
    requires Inv(s) && s'.entries == s.entries && s'.libs == s.libs && s'.client == s.client &&
      s'.torrents == s.torrents
    requires s'.order == s.order && s'.queue == s.queue && s'.deleting == s.deleting && s'.nextDelete == s.nextDelete
    requires s.shown <= s'.shown
    ensures Inv(s')
  {
    hide Structure, Gates, Deletes, Hashes, LeftData, QueueOk, FlagsOk;
    SameTables(s, s');
  }

  /** A paused entry's own invariant, whatever it was doing. */
  lemma PausedFits(s: State, r: Ref, byUser: bool)
    requires r < |s.entries| && Local(s, r)
    ensures Fits(s, r, PausedEntry(s.entries[r], byUser), s.entries[r].t, false, false)
  {
    if s.entries[r].state != Errored { } else { }
  }

  lemma PausedSteady(a: Tracked, byUser: bool)
    ensures var e := PausedEntry(a, byUser); Steady(a, e) && e.state != Queued
  {
    if a.state != Errored { } else { }
  }

  lemma PauseEntryKeeps(s: State, r: Ref, byUser: bool)
    requires Inv(s) && IsTracked(s, r)
    ensures Inv(PauseEntry(s, r, byUser))
  {
    hide Inv, PausedEntry, Fits, Local, Steady;
    var e := s.entries[r];
    LocalOf(s, r);
    QueueOf(s);
    PausedFits(s, r, byUser);
    PausedSteady(e, byUser);
    assert PausedEntry(e, byUser).id == e.id by { SteadyId(e, PausedEntry(e, byUser)); }
    RemoveFirstNoDup(s.queue, e.id);
    Requeues(s, r, PausedEntry(e, byUser), e.t, false, false, RemoveFirst(s.queue, e.id));
  }

  lemma PauseKeeps(s: State, id: Id)
    requires Inv(s)
    ensures Inv(Pause(s, id))
  {
    hide Inv;
    if Pause(s, id) != s {
      TrackedOf(s, id);
      PauseEntryKeeps(s, Lookup(s, id).value, true);
    }
  }

  lemma {:induction false} PauseAllKeeps(s: State, ids: seq<Id>)
    requires Inv(s)
    ensures Inv(PauseAll(s, ids))
    decreases |ids|
  {
    hide Inv;
    if ids != [] {
      var l := Lookup(s, ids[0]);
      if l.Some? && !s.entries[l.value].paused {
        TrackedOf(s, ids[0]);
        PauseEntryKeeps(s, l.value, false);
        PauseAllKeeps(PauseEntry(s, l.value, false), ids[1..]);
      } else {
        PauseAllKeeps(s, ids[1..]);
      }
    }
  }

  lemma ResumedSteady(a: Tracked)
    ensures Steady(a, ResumedEntry(a)) && Steady(a, ResumedEntry(a).(state := Queued)) && !ResumedEntry(a).paused
  {
    if a.spacePaused { } else if a.seedDone && a.state != Errored { } else if a.state == Paused { } else { }
  }

  /** EntryOk is about where an entry's goroutine is, not about its state and pauses. */
  lemma SameEntryOk(s: State, a: Tracked, b: Tracked)
    requires EntryOk(s, a) && b.lib == a.lib && b.t == a.t && b.spec == a.spec && b.url == a.url && b.phase == a.phase
    requires b.refused == a.refused && b.byHash == a.byHash && b.infoHash == a.infoHash
    ensures EntryOk(s, b)
  {
  }

  lemma ResumedFlags(a: Tracked)
    requires FlagsOk(a) && a.paused
    ensures var e := ResumedEntry(a);
      FlagsOk(e) && !e.paused &&
      (Startable(e) && (e.state == Queued || e.state == Checking || e.state == Downloading) ==>
        FlagsOk(e.(state := Queued)))
  {
  }

  /** A half-open gate says which pause it is, so a resumed entry that stays queued keeps a lawful one. */
  lemma ResumedGate(a: Tracked, g: Torrent)
    requires FlagsOk(a) && a.paused && !a.refused && GateLaw(a, g) && a.t.Some?
    ensures var e := ResumedEntry(a);
      && (e.state != Queued ==> GateLaw(e, g.(down := true, up := true)))
      && (e.state == Queued || e.state == Checking || e.state == Downloading ==> GateLaw(e.(state := Queued), g))
  {
  }

  /** A Resume is about state and pauses alone. */
  lemma ResumedSame(a: Tracked)
    ensures var e := ResumedEntry(a);
      && e.id == a.id && e.lib == a.lib && e.t == a.t && e.spec == a.spec && e.url == a.url && e.phase == a.phase
      && e.refused == a.refused && e.byHash == a.byHash && e.infoHash == a.infoHash
  {
  }

  lemma ResumedStarts(a: Tracked)
    requires FlagsOk(a) && a.paused
    ensures ResumedEntry(a).state == Queued ==> Startable(ResumedEntry(a))
  {
  }

  /** A resumed entry that runs fits with its gate opened. */
  lemma ResumedRunFits(s: State, r: Ref)
    requires r < |s.entries| && Local(s, r) && s.entries[r].paused
    ensures var e := ResumedEntry(s.entries[r]);
      (e.state == Queued ==> Startable(e)) && (e.state != Queued ==> Fits(s, r, e, e.t, true, true))
  {
    hide ResumedEntry, FlagsOk, GateLaw;
    var a := s.entries[r];
    ResumedSame(a);
    ResumedStarts(a);
    ResumedFlags(a);
    SameEntryOk(s, a, ResumedEntry(a));
    if a.t.Some? && !a.refused && !s.libs[a.lib.value].shared { ResumedGate(a, s.libs[a.lib.value]); }
  }

  /** One that goes to the queue fits with its gate as the pause left it. */
  lemma ResumedQueueFits(s: State, r: Ref)
    requires r < |s.entries| && Local(s, r) && s.entries[r].paused
    ensures var e := ResumedEntry(s.entries[r]);
      Startable(e) && (e.state == Queued || e.state == Checking || e.state == Downloading) ==>
        Fits(s, r, e.(state := Queued), None, true, true)
  {
    hide ResumedEntry, FlagsOk, EntryOk, GateLaw;
    var a := s.entries[r];
    ResumedSame(a);
    ResumedFlags(a);
    SameEntryOk(s, a, ResumedEntry(a).(state := Queued));
    if a.t.Some? && !a.refused && !s.libs[a.lib.value].shared { ResumedGate(a, s.libs[a.lib.value]); }
  }

  /** A paused entry is not on the queue. */
  lemma PausedOffQueue(s: State, r: Ref)
    requires QueueOk(s) && IsTracked(s, r) && s.entries[r].paused
    ensures s.entries[r].id !in s.queue
  {
  }

  lemma ResumeQueues(s: State, r: Ref, e: Tracked)
    requires Inv(s) && IsTracked(s, r) && s.entries[r].paused && Steady(s.entries[r], e)
    requires Startable(e) && e.state == Queued && !e.paused && Fits(s, r, e, None, true, true)
    ensures Inv(Put(s, r, e).(queue := s.queue + [e.id]))
  {
    PausedOffQueue(s, r);
    Requeues(s, r, e, None, true, true, s.queue + [e.id]);
  }

  lemma ResumeRuns(s: State, r: Ref, e: Tracked)
    requires Inv(s) && IsTracked(s, r) && s.entries[r].paused && Steady(s.entries[r], e)
    requires e.state != Queued && Fits(s, r, e, e.t, true, true)
    ensures Inv(Gate(Put(s, r, e), e.t, true, true))
  {
    PausedOffQueue(s, r);
    Requeues(s, r, e, e.t, true, true, s.queue);
  }

  /** What a Resume does, written out. */
  lemma ResumeUnfolds(s: State, r: Ref, e: Tracked)
    requires IsTracked(s, r) && s.entries[r].paused && !s.closed && e == ResumedEntry(s.entries[r])
    ensures var toQueue := Startable(e) && (e.state == Queued ||
        ((e.state == Checking || e.state == Downloading) && |ActiveIds(Put(s, r, e))| > s.maxActive));
      Resume(s, s.entries[r].id) ==
        if toQueue then
          s.(entries := s.entries[r := e.(state := Queued)],
             queue := if e.id in s.queue then s.queue else s.queue + [e.id])
        else Gate(Put(s, r, e), e.t, true, true)
  {
  }

  lemma ResumeKeeps(s: State, id: Id)
    requires Inv(s)
    ensures Inv(Resume(s, id))
  {
    if Resume(s, id) != s {
      hide Inv, Resume, ResumedEntry, Local, Fits, ActiveIds, Steady;
      TrackedOf(s, id);
      ResumeEntryKeeps(s, Lookup(s, id).value);
    }
  }

  lemma ResumeEntryKeeps(s: State, r: Ref)
    requires Inv(s) && IsTracked(s, r) && s.entries[r].paused && !s.closed
    ensures Inv(Resume(s, s.entries[r].id))
  {
    hide Inv, Resume, ResumedEntry, Local, Fits, ActiveIds, Steady, Gate;
    var e := ResumedEntry(s.entries[r]);
    LocalOf(s, r);
    QueueOf(s);
    PausedOffQueue(s, r);
    ResumedSteady(s.entries[r]);
    ResumedQueueFits(s, r);
    ResumedRunFits(s, r);
    ResumeUnfolds(s, r, e);
    assert e.id == s.entries[r].id by { SteadyId(s.entries[r], e); }
    if Startable(e) && (e.state == Queued ||
       ((e.state == Checking || e.state == Downloading) && |ActiveIds(Put(s, r, e))| > s.maxActive)) {
      ResumeQueues(s, r, e.(state := Queued));
    } else {
      ResumeRuns(s, r, e);
    }
  }

  lemma SteadyId(a: Tracked, b: Tracked)
    requires Steady(a, b)
    ensures b.id == a.id
  {
  }

  /** Only which ids are queued matters, not their order. */
  lemma ReorderedQueue(s: State, queue: seq<Id>)
    requires QueueOk(s) && NoDup(queue) && forall id :: id in queue <==> id in s.queue
    ensures QueueOk(s.(queue := queue))
  {
  }

  lemma MoveInQueueKeeps(s: State, id: Id, position: int)
    requires Inv(s)
    ensures Inv(MoveInQueue(s, id, position))
  {
    if MoveInQueue(s, id, position) != s {
      var q := RemoveFirst(s.queue, id);
      RemoveFirstNoDup(s.queue, id);
      InsertNoDup(q, id, Clamp(position, |q|));
      ReorderedQueue(s, MoveInQueue(s, id, position).queue);
      SameTables(s, MoveInQueue(s, id, position));
    }
  }

  /** What the queue makes of the entry it starts: its gate opened, its fetch begun, or its attach begun. */
  function PromotedEntry(s: State, e: Tracked): Tracked
    requires Startable(e)
  {
    if e.t.Some? then e.(state := if InfoOf(s, e.t.value).Some? then Downloading else Checking)
    else if e.url then e.(state := Checking, url := false, phase := Fetching)
    else e.(state := Checking, spec := None, phase := Starting(ViaQueue, e.spec.value))
  }

  lemma PromotedFits(s: State, r: Ref)
    requires r < |s.entries| && Local(s, r) && !s.entries[r].paused && Startable(s.entries[r])
    ensures var e := PromotedEntry(s, s.entries[r]); Fits(s, r, e, e.t, true, true) && Steady(s.entries[r], e)
    ensures var e := PromotedEntry(s, s.entries[r]); e.state != Queued
  {
  }

  /** The queue always has something to start: it never finds an entry with no torrent, address or spec. */
  lemma HeadStarts(s: State)
    requires Inv(s) && s.queue != []
    ensures s.queue[0] in s.torrents && Lookup(s, s.queue[0]).Some?
    ensures var r := s.torrents[s.queue[0]];
      IsTracked(s, r) && Startable(s.entries[r]) && Local(s, r) && !s.entries[r].paused
  {
  }

  lemma PromoteUnfolds(s: State, r: Ref)
    requires !s.closed && s.queue != [] && |ActiveIds(s)| < s.maxActive && Lookup(s, s.queue[0]) == Some(r) &&
      Startable(s.entries[r])
    ensures var e := PromotedEntry(s, s.entries[r]);
      Promote(s) == Gate(Put(s, r, e), e.t, true, true).(queue := s.queue[1..])
  {
    if s.entries[r].t.Some? { } else if s.entries[r].url { } else { }
  }

  /** The queue without its head. */
  lemma TailNoDup(q: seq<Id>)
    requires NoDup(q) && q != []
    ensures NoDup(q[1..]) && q[0] !in q[1..] && forall id :: id != q[0] ==> (id in q[1..] <==> id in q)
  {
    assert q == [q[0]] + q[1..];
  }

  lemma PromoteKeeps(s: State)
    requires Inv(s)
    ensures Inv(Promote(s))
  {
    if s.closed || s.queue == [] || |ActiveIds(s)| >= s.maxActive {
    } else {
      HeadStarts(s);
      HeadPromotes(s, s.torrents[s.queue[0]]);
    }
  }

  lemma HeadPromotes(s: State, r: Ref)
    requires Inv(s) && !s.closed && s.queue != [] && |ActiveIds(s)| < s.maxActive && Lookup(s, s.queue[0]) == Some(r)
    requires IsTracked(s, r) && Startable(s.entries[r]) && Local(s, r) && !s.entries[r].paused
    ensures Inv(Promote(s))
  {
    hide Inv, Promote, PromotedEntry, Local, ActiveIds, Fits;
    var e := PromotedEntry(s, s.entries[r]);
    PromotedFits(s, r);
    QueueOf(s);
    TrackedOf(s, s.queue[0]);
    TailNoDup(s.queue);
    PromoteUnfolds(s, r);
    Requeues(s, r, e, e.t, true, true, s.queue[1..]);
  }

  // ----- the engine's tables -----

  /** What the invariant says of one entry reads the entries and the library alone. */
  lemma SameLocals(s: State, s': State)
    requires s'.entries == s.entries && s'.libs == s.libs
    ensures forall r | 0 <= r < |s.entries| ::
      EntryOk(s', s.entries[r]) == EntryOk(s, s.entries[r]) && OwnLib(s', r) == OwnLib(s, r) &&
        GateOk(s', r) == GateOk(s, r)
  {
  }

  lemma UntrackQueue(s: State, id: Id)
    requires QueueOk(s)
    ensures QueueOk(Untrack(s, id))
  {
    RemoveFirstNoDup(s.queue, id);
  }

  lemma UntrackTables(s: State, id: Id)
    requires Structure(s) && Flags(s) && Gates(s)
    ensures Structure(Untrack(s, id)) && Flags(Untrack(s, id)) && Gates(Untrack(s, id))
  {
    hide QueueOk, EntryOk, OwnLib, GateOk, FlagsOk;
    RemoveFirstNoDup(s.order, id);
    UntrackQueue(s, id);
    SameLocals(s, Untrack(s, id));
  }

  lemma UntrackPairs(s: State, id: Id)
    requires Deletes(s) && LeftData(s) && Hashes(s)
    ensures Deletes(Untrack(s, id)) && LeftData(Untrack(s, id)) && Hashes(Untrack(s, id))
  {
    var s' := Untrack(s, id);
    forall k, q | k in s'.deleting && 0 <= q < |s'.entries|
      ensures Apart(s', s'.deleting[k], q)
    {
      assert Apart(s, s.deleting[k], q);
    }
    forall p, q | 0 <= p < |s'.entries| && 0 <= q < |s'.entries|
      ensures HashApart(s', p, q) && LeftApart(s', p, q)
    {
      assert HashApart(s, p, q) && LeftApart(s, p, q);
    }
  }

  /** Forgetting an entry. */
  lemma UntrackKeeps(s: State, id: Id)
    requires Inv(s)
    ensures Inv(Untrack(s, id))
  {
    UntrackTables(s, id);
    UntrackPairs(s, id);
  }

  lemma {:induction false} UntrackAllKeeps(s: State, ids: seq<Id>)
    requires Inv(s)
    ensures Inv(UntrackAll(s, ids))
    decreases |ids|
  {
    hide Inv;
    if ids != [] {
      UntrackKeeps(s, ids[0]);
      UntrackAllKeeps(Untrack(s, ids[0]), ids[1..]);
    }
  }

  /** Untracking a list of ids takes exactly those out of the tables and leaves every entry as it was. */
  lemma {:induction false} UntrackAllEffect(s: State, ids: seq<Id>)
    ensures var s' := UntrackAll(s, ids);
      && s'.entries == s.entries && s'.libs == s.libs && s'.client == s.client && s'.drops == s.drops
      && s'.deleting == s.deleting
      && s'.nextDelete == s.nextDelete && s'.shown == s.shown && s'.closed == s.closed && s'.maxActive == s.maxActive
      && s'.nextID == s.nextID
      && s'.torrents == map id | id in s.torrents && id !in ids :: s.torrents[id]
    decreases |ids|
  {
    if ids == [] {
      assert s.torrents == map id | id in s.torrents && id !in ids :: s.torrents[id];
    } else {
      UntrackAllEffect(Untrack(s, ids[0]), ids[1..]);
      assert ids == [ids[0]] + ids[1..];
    }
  }

  /** A newly minted entry, which no goroutine but its own knows. */
  predicate IsNew(e: Tracked) {
    && e.t.None? && e.lib.None? && (e.phase.Parked? || e.phase.Fetching? || e.phase.Starting? || e.phase.Ended?)
    && (e.byHash && e.phase.Starting? ==> e.phase.spec.hash == e.infoHash)
    && (e.byHash && e.spec.Some? ==> e.spec.value.hash == e.infoHash)
    && (e.spec.Some? || e.url ==> e.phase.Parked? && !e.refused) && !(e.spec.Some? && e.url)
    && (e.byHash ==> !e.url && !e.phase.Fetching?)
  }

  lemma InsertLocals(s: State, e: Tracked, nextID: nat, r: Ref)
    requires r < |s.entries| && Local(s, r) && OwnLib(s, r)
    ensures var s' := Insert(s, e, nextID); Local(s', r) && OwnLib(s', r)
  {
  }

  lemma InsertedLocal(s: State, e: Tracked, nextID: nat)
    requires IsNew(e) && FlagsOk(e)
    ensures var s' := Insert(s, e, nextID); Local(s', |s.entries|) && OwnLib(s', |s.entries|)
  {
  }

  lemma InsertQueue(s: State, e: Tracked, nextID: nat)
    requires QueueOk(s) && e.id !in s.torrents && FlagsOk(e) && (e.state == Queued ==> !e.paused)
    requires forall id | id in s.torrents :: s.torrents[id] < |s.entries|
    ensures QueueOk(Insert(s, e, nextID))
  {
    hide FlagsOk;
    var s' := Insert(s, e, nextID);
    assert e.id !in s.queue;
    assert NoDup(s'.queue);
    assert forall id | id in s'.torrents && id != e.id :: s'.torrents[id] == s.torrents[id];
    assert e.state == Queued ==> Startable(e) by { QueuedStarts(e); }
  }

  lemma QueuedStarts(e: Tracked)
    requires FlagsOk(e)
    ensures e.state == Queued ==> Startable(e)
  {
  }

  lemma InsertTables(s: State, e: Tracked, nextID: nat)
    requires Inv(s) && e.id !in s.torrents && IsNew(e) && FlagsOk(e)
    requires e.state == Queued ==> !e.paused
    ensures var s' := Insert(s, e, nextID); Structure(s') && Flags(s') && Gates(s')
  {
    hide Deletes, LeftData, Hashes, QueueOk, EntryOk, OwnLib, GateOk, FlagsOk, IsNew;
    var s' := Insert(s, e, nextID);
    InsertQueue(s, e, nextID);
    InsertedLocal(s, e, nextID);
    forall r | 0 <= r < |s'.entries|
      ensures EntryOk(s', s'.entries[r]) && OwnLib(s', r) && GateOk(s', r) && FlagsOk(s'.entries[r])
    {
      if r < |s.entries| { InsertLocals(s, e, nextID, r); }
    }
  }

  lemma InsertDeletes(s: State, e: Tracked, nextID: nat)
    requires Deletes(s) && e.id !in s.torrents && IsNew(e)
    ensures Deletes(Insert(s, e, nextID))
  {
    var s' := Insert(s, e, nextID);
    forall k, q | k in s'.deleting && 0 <= q < |s'.entries|
      ensures Apart(s', s'.deleting[k], q)
    {
      if q < |s.entries| { assert Apart(s, s.deleting[k], q); }
    }
  }

  lemma InsertHashes(s: State, e: Tracked, nextID: nat)
    requires Hashes(s) && e.id !in s.torrents
    requires e.byHash ==> forall q | 0 <= q < |s.entries| && IsTracked(s, q) :: s.entries[q].infoHash != e.infoHash
    ensures Hashes(Insert(s, e, nextID))
  {
    var s' := Insert(s, e, nextID);
    forall p, q | 0 <= p < |s'.entries| && 0 <= q < |s'.entries|
      ensures HashApart(s', p, q)
    {
      if p < |s.entries| && q < |s.entries| { assert HashApart(s, p, q); }
    }
  }

  lemma InsertLeft(s: State, e: Tracked, nextID: nat)
    requires LeftData(s) && e.id !in s.torrents && (e.leftName == "" || e.sharedName == "")
    requires !e.refused ==> e.leftName == "" && e.sharedName == ""
    requires forall q | 0 <= q < |s.entries| && IsTracked(s, q) && s.entries[q].refused && e.refused ::
      MayBeSameName(s.entries[q].leftName, e.leftName) ==> ShownDifferent(s, s.entries[q].savePath, e.savePath)
    ensures LeftData(Insert(s, e, nextID))
  {
    var s' := Insert(s, e, nextID);
    forall p, q | 0 <= p < |s'.entries| && 0 <= q < |s'.entries|
      ensures LeftApart(s', p, q)
    {
      if p < |s.entries| && q < |s.entries| { assert LeftApart(s, p, q); }
    }
  }

  // ----- claiming and adding -----

  lemma {:induction false} RefusedForComplete(s: State, ids: seq<Id>, hex: string, self: Option<Ref>)
    ensures forall id :: id in RefusedFor(s, ids, hex, self) <==> id in ids && MatchesRefused(s, id, hex, self)
  {
    if ids != [] {
      RefusedForComplete(s, ids[1..], hex, self);
      assert ids == [ids[0]] + ids[1..];
    }
  }

  /** After a clear claim no tracked entry but the claimer records the infohash. */
  lemma ClaimClears(s: State, hex: string, self: Option<Ref>, dest: string, view: LeftView)
    requires Inv(s) && hex != "" && DecideClaim(s, hex, self, dest, view).ClaimClear?
    ensures var s' := UntrackAll(s, DecideClaim(s, hex, self, dest, view).refused);
      Inv(s') && s'.entries == s.entries &&
      forall q | 0 <= q < |s'.entries| && IsTracked(s', q) && Some(q) != self :: s'.entries[q].infoHash != hex
  {
    var refused := DecideClaim(s, hex, self, dest, view).refused;
    RefusedForComplete(s, s.order, hex, self);
    UntrackAllKeeps(s, refused);
    UntrackAllEffect(s, refused);
    var s' := UntrackAll(s, refused);
    forall q | 0 <= q < |s'.entries| && IsTracked(s', q) && Some(q) != self
      ensures s'.entries[q].infoHash != hex
    {
      var id := s.entries[q].id;
      assert id in s.order && !MatchesLive(s, id, hex, self);
    }
  }

  /** The entry findOrTrack mints. */
  function AddedEntry(s: State, spec: Spec, dest: string, prov: Provenance): Tracked {
    var e := NewTracked(prov, Mint(s, prov.want).id, dest).(infoHash := spec.hash, byHash := true);
    if e.paused then e.(prePause := Checking, state := Paused, phase := Starting(ViaAdd, spec))
    else if |ActiveIds(s)| >= s.maxActive then e.(state := Queued, spec := Some(spec))
    else e.(phase := Starting(ViaAdd, spec))
  }

  lemma AddedEntryNew(s: State, spec: Spec, dest: string, prov: Provenance)
    ensures var e := AddedEntry(s, spec, dest, prov);
      IsNew(e) && FlagsOk(e) && !e.refused && e.leftName == "" && e.sharedName == ""
    ensures var e := AddedEntry(s, spec, dest, prov);
      (e.state == Queued ==> !e.paused) && e.infoHash == spec.hash && e.id !in s.torrents
  {
  }

  lemma InsertKeeps(s: State, e: Tracked, nextID: nat)
    requires Inv(s) && e.id !in s.torrents && IsNew(e) && FlagsOk(e) && (e.state == Queued ==> !e.paused)
    requires !e.refused && e.leftName == "" && e.sharedName == ""
    requires e.byHash ==> forall q | 0 <= q < |s.entries| && IsTracked(s, q) :: s.entries[q].infoHash != e.infoHash
    ensures Inv(Insert(s, e, nextID))
  {
    InsertTables(s, e, nextID);
    InsertDeletes(s, e, nextID);
    InsertHashes(s, e, nextID);
    InsertLeft(s, e, nextID);
  }

  lemma FindOrTrackUnfolds(s: State, spec: Spec, dest: string, prov: Provenance, view: LeftView)
    requires !s.closed && DecideClaim(s, spec.hash, None, dest, view).ClaimClear?
    ensures var s1 := UntrackAll(s, DecideClaim(s, spec.hash, None, dest, view).refused);
      FindOrTrack(s, spec, dest, prov, view).0 ==
        Insert(s1, AddedEntry(s1, spec, dest, prov), Mint(s1, prov.want).nextID)
  {
    hide DecideClaim, Mint, UntrackAll, Insert, ActiveIds;
    var c := DecideClaim(s, spec.hash, None, dest, view);
    UntrackAllEffect(s, c.refused);
    if prov.paused { } else if |ActiveIds(UntrackAll(s, c.refused))| >= s.maxActive { } else { }
  }

  lemma FindOrTrackKeeps(s: State, spec: Spec, dest: string, prov: Provenance, view: LeftView)
    requires Inv(s) && spec.hash != ""
    ensures Inv(FindOrTrack(s, spec, dest, prov, view).0)
  {
    hide Inv, DecideClaim, Mint, UntrackAll, Insert, AddedEntry, IsNew, FlagsOk;
    if !s.closed && DecideClaim(s, spec.hash, None, dest, view).ClaimClear? {
      hide FindOrTrack;
      ClaimClears(s, spec.hash, None, dest, view);
      var s1 := UntrackAll(s, DecideClaim(s, spec.hash, None, dest, view).refused);
      AddedEntryNew(s1, spec, dest, prov);
      InsertKeeps(s1, AddedEntry(s1, spec, dest, prov), Mint(s1, prov.want).nextID);
      FindOrTrackUnfolds(s, spec, dest, prov, view);
    }
  }

  lemma TrackURLKeeps(s: State, dest: string, prov: Provenance)
    requires Inv(s)
    ensures Inv(TrackURL(s, dest, prov))
  {
    hide Inv;
    if !s.closed {
      var m := Mint(s, prov.want);
      var e := NewTracked(prov, m.id, dest);
      if e.paused { InsertKeeps(s, e.(prePause := Checking, state := Paused, phase := Fetching), m.nextID); }
      else if |ActiveIds(s)| + 1 > s.maxActive { InsertKeeps(s, e.(state := Queued, url := true), m.nextID); }
      else { InsertKeeps(s, e.(phase := Fetching), m.nextID); }
    }
  }

  lemma FetchClaimsKeeps(s: State, r: Ref, spec: Spec, view: LeftView)
    requires Inv(s) && spec.hash != ""
    ensures Inv(FetchClaims(s, r, spec, view))
  {
    hide Inv, DecideClaim, UntrackAll;
    if r < |s.entries| && s.entries[r].phase == Fetching {
      var c := DecideClaim(s, spec.hash, Some(r), s.entries[r].savePath, view);
      if c.ClaimClear? {
        ClaimClears(s, spec.hash, Some(r), s.entries[r].savePath, view);
        FetchStarts(UntrackAll(s, c.refused), r, spec);
      } else {
        FetchFailsKeeps(s, r);
      }
    }
  }

  lemma FetchStarts(s: State, r: Ref, spec: Spec)
    requires Inv(s) && r < |s.entries| && s.entries[r].phase == Fetching
    ensures Inv(Put(s, r, s.entries[r].(phase := Starting(ViaFetch, spec))))
  {
    hide Inv;
    LocalOf(s, r);
    Moves(s, r, s.entries[r].(phase := Starting(ViaFetch, spec)), None, true, true);
  }

  // ----- refusing -----

  /** Data kept as an entry's own lies apart from what every other refused entry left. */
  lemma KeptApart(s: State, self: Option<Ref>, savePath: string, left: string, dirs: map<string, DirMatch>)
    ensures var k := KeepLeft(s, self, savePath, left, dirs);
      (k.leftName == "" || k.sharedName == "") &&
      forall q | 0 <= q < |s.entries| && IsTracked(s, q) && Some(q) != self && s.entries[q].refused ::
        MayBeSameName(s.entries[q].leftName, k.leftName) ==>
          s.entries[q].savePath != savePath && (savePath, s.entries[q].savePath) in ShownBy(savePath, dirs)
  {
  }

  lemma TrackErroredKeeps(s: State, hex: string, dest: string, prov: Provenance, left: string,
      dirs: map<string, DirMatch>)
    requires Inv(s)
    ensures Inv(TrackErrored(s, hex, dest, prov, left, dirs))
  {
    if !s.closed {
      var m := Mint(s, prov.want);
      var kept := KeepLeft(s, None, dest, left, dirs);
      var e := NewTracked(prov, m.id, dest).(state := Errored, infoHash := hex, refused := true,
                 leftName := kept.leftName, sharedName := kept.sharedName, phase := Ended);
      var s1 := s.(shown := s.shown + ShownBy(dest, dirs));
      SameTables(s, s1);
      KeptApart(s, None, dest, left, dirs);
      InsertTables(s1, e, m.nextID);
      InsertDeletes(s1, e, m.nextID);
      InsertHashes(s1, e, m.nextID);
      InsertLeft(s1, e, m.nextID);
    }
  }

  lemma MarkedFits(s: State, r: Ref, leftName: string, sharedName: string)
    requires r < |s.entries| && Local(s, r) && (s.entries[r].phase.Failed? || s.entries[r].phase.Refusing?)
    ensures var e := FailEntry(s.entries[r]).(refused := true, leftName := leftName, sharedName := sharedName,
      phase := Ended);
      Fits(s, r, e, None, true, true) && KeepsPlace(s.entries[r], e) && SameIdentity(s.entries[r], e) && FlagsOk(e)
  {
  }

  lemma MarkedLeft(s: State, r: Ref, left: string, dirs: map<string, DirMatch>)
    requires LeftData(s) && r < |s.entries|
    ensures LeftData(MarkRefused(s, r, left, dirs))
  {
    var s' := MarkRefused(s, r, left, dirs);
    KeptApart(s, Some(r), s.entries[r].savePath, left, dirs);
    forall p, q | 0 <= p < |s'.entries| && 0 <= q < |s'.entries|
      ensures LeftApart(s', p, q)
    {
      assert LeftApart(s, p, q);
    }
  }

  lemma MarkRefusedKeeps(s: State, r: Ref, left: string, dirs: map<string, DirMatch>)
    requires Inv(s) && r < |s.entries| && (s.entries[r].phase.Failed? || s.entries[r].phase.Refusing?)
    ensures Inv(MarkRefused(s, r, left, dirs))
  {
    hide Structure, Gates, Deletes, Hashes, LeftData, QueueOk, Fits, FlagsOk, Local, KeepsPlace, KeepLeft;
    LocalOf(s, r);
    var kept := KeepLeft(s, Some(r), s.entries[r].savePath, left, dirs);
    MarkedFits(s, r, kept.leftName, kept.sharedName);
    var e := FailEntry(s.entries[r]).(refused := true, leftName := kept.leftName, sharedName := kept.sharedName,
        phase := Ended);
    MoveStructure(s, r, e, None, true, true);
    MoveFlags(s, r, e, None, true, true);
    MoveQueue(s, r, e, None, true, true);
    MoveGates(s, r, e, None, true, true);
    MoveDeletes(s, r, e, None, true, true);
    MoveHashes(s, r, e, None, true, true);
    MarkedLeft(s, r, left, dirs);
    SameTables(Put(s, r, e), MarkRefused(s, r, left, dirs));
  }

  lemma RefuseMarksKeeps(s: State, r: Ref, left: string, dirs: map<string, DirMatch>)
    requires Inv(s)
    ensures Inv(RefuseMarks(s, r, left, dirs))
  {
    hide Inv;
    if r < |s.entries| && s.entries[r].phase.Refusing? {
      MarkRefusedKeeps(s, r, LeftName(s.entries[r].phase.info, left), dirs);
    }
  }

  lemma CleanupUntracks(s: State, r: Ref)
    requires Inv(s) && r < |s.entries| && s.entries[r].phase.Failed?
    ensures Inv(Put(s, r, s.entries[r].(phase := Ended)))
    ensures Inv(Untrack(Put(s, r, s.entries[r].(phase := Ended)), s.entries[r].id))
  {
    hide Inv;
    var e := s.entries[r].(phase := Ended);
    LocalOf(s, r);
    Moves(s, r, e, None, true, true);
    UntrackKeeps(Put(s, r, e), e.id);
  }

  lemma CleanupKeeps(s: State, r: Ref, left: string, dirs: map<string, DirMatch>)
    requires Inv(s)
    ensures Inv(Cleanup(s, r, left, dirs))
  {
    hide Inv;
    if r < |s.entries| && s.entries[r].phase.Failed? {
      var e := s.entries[r];
      LocalOf(s, r);
      match e.phase.via
      case ViaAdd => CleanupUntracks(s, r);
      case ViaQueue => MarkRefusedKeeps(s, r, LeftName(e.phase.info, left), dirs);
      case ViaFetch => Moves(s, r, FailEntry(e).(phase := Ended), None, true, true);
    }
  }

  // ----- removing -----

  /** What a Remove deletes is no other tracked entry's known data name there, as far as it read. */
  lemma TargetApart(s: State, r: Ref, deleteData: bool, dirs: map<string, DirMatch>)
    requires r < |s.entries|
    ensures var name := RemoveTarget(s, r, deleteData, dirs).name;
      name != "" ==> forall q | 0 <= q < |s.entries| && IsTracked(s, q) && q != r && DataName(s, s.entries[q]).Some? ::
        MayBeSameName(DataName(s, s.entries[q]).value, name) ==>
          !MayBeSameDir(s.entries[r].savePath, s.entries[q].savePath, dirs)
  {
  }

  lemma RecordKeeps(s: State, d: InflightDelete)
    requires Inv(s) && forall r | 0 <= r < |s.entries| :: Apart(s, d, r)
    ensures Inv(RecordDelete(s, d))
  {
    hide QueueOk, EntryOk, OwnLib, GateOk, FlagsOk;
    var s' := RecordDelete(s, d);
    SameQueue(s, s');
    SameLocals(s, s');
    forall k, q | k in s'.deleting && 0 <= q < |s'.entries|
      ensures Apart(s', s'.deleting[k], q)
    {
      if k in s.deleting { assert Apart(s, s.deleting[k], q); }
      assert Apart(s, d, q);
    }
    assert forall q, r | 0 <= q < |s.entries| && 0 <= r < |s.entries| ::
      HashApart(s', q, r) == HashApart(s, q, r) && LeftApart(s', q, r) == LeftApart(s, q, r);
  }

  lemma ForgetKeeps(s: State, r: Ref, drops: set<LibRef>)
    requires Inv(s) && r < |s.entries|
    ensures Inv(Untrack(Put(s, r, s.entries[r].(removed := true)), s.entries[r].id).(drops := drops))
  {
    hide Inv;
    var e := s.entries[r].(removed := true);
    LocalOf(s, r);
    Moves(s, r, e, None, true, true);
    UntrackKeeps(Put(s, r, e), e.id);
    SameInv(Untrack(Put(s, r, e), e.id), Untrack(Put(s, r, e), e.id).(drops := drops));
  }

  lemma RemoveKeeps(s: State, id: Id, deleteData: bool, dirs: map<string, DirMatch>)
    requires Inv(s)
    ensures Inv(Remove(s, id, deleteData, dirs))
  {
    hide Inv, RemoveTarget;
    if !s.closed && Lookup(s, id).Some? {
      TrackedOf(s, id);
      var r := s.torrents[id];
      var e := s.entries[r];
      var drops := if e.t.Some? then s.drops + {e.t.value} else s.drops;
      ForgetKeeps(s, r, drops);
      var name := RemoveTarget(s, r, deleteData, dirs).name;
      if name != "" {
        var s1 := Untrack(Put(s, r, e.(removed := true)), id).(drops := drops);
        StructureOf(s);
        RemovedApart(s, r, deleteData, dirs, s1);
        RecordKeeps(s1, InflightDelete(e.savePath, name, dirs));
      }
    }
  }

  lemma RemovedApart(s: State, r: Ref, deleteData: bool, dirs: map<string, DirMatch>, s': State)
    requires Structure(s) && r < |s.entries| && IsTracked(s, r)
    requires s'.entries == s.entries[r := s.entries[r].(removed := true)] && s'.libs == s.libs
    requires s'.torrents == s.torrents - {s.entries[r].id}
    ensures var name := RemoveTarget(s, r, deleteData, dirs).name;
      name != "" ==> forall q | 0 <= q < |s'.entries| :: Apart(s', InflightDelete(s.entries[r].savePath, name, dirs), q)
  {
    TargetApart(s, r, deleteData, dirs);
  }

  lemma EndDeleteKeeps(s: State, k: nat)
    requires Inv(s)
    ensures Inv(EndDelete(s, k))
  {
    hide QueueOk, EntryOk, OwnLib, GateOk, FlagsOk;
    var s' := EndDelete(s, k);
    SameQueue(s, s');
    SameLocals(s, s');
    forall j, q | j in s'.deleting && 0 <= q < |s'.entries|
      ensures Apart(s', s'.deleting[j], q)
    {
      assert Apart(s, s.deleting[j], q);
    }
    assert forall q, r | 0 <= q < |s.entries| && 0 <= r < |s.entries| ::
      HashApart(s', q, r) == HashApart(s, q, r) && LeftApart(s', q, r) == LeftApart(s, q, r);
  }

  // ----- every event, every run -----

  /** The goroutine serving an entry: attach, info, refusal. */
  predicate OfService(ev: Event) {
    ev.EvFetchFails? || ev.EvFetchClaims? || ev.EvReadHeld? || ev.EvAttachFails? || ev.EvAddTorrent? || ev.EvShutGates?
    || ev.EvSetInfo? || ev.EvPublish? || ev.EvCleanup? || ev.EvInfoArrives?
  }

  lemma ServiceKeeps(s: State, ev: Event)
    requires Inv(s) && OfService(ev)
    ensures Inv(Apply(s, ev))
  {
    hide Inv, FetchFails, FetchClaims, ReadHeld, AttachFails, AddTorrent, ShutGates, SetInfo, Publish, Cleanup, Learn;
    match ev
    case EvFetchFails(r) => FetchFailsKeeps(s, r);
    case EvFetchClaims(r, spec, view) => if spec.hash != "" { FetchClaimsKeeps(s, r, spec, view); }
    case EvReadHeld(r) => ReadHeldKeeps(s, r);
    case EvAttachFails(r) => AttachFailsKeeps(s, r);
    case EvAddTorrent(r) => AddTorrentKeeps(s, r);
    case EvShutGates(r) => ShutGatesKeeps(s, r);
    case EvSetInfo(r, ok) => SetInfoKeeps(s, r, ok);
    case EvPublish(r) => PublishKeeps(s, r);
    case EvCleanup(r, left, dirs) => CleanupKeeps(s, r, left, dirs);
    case EvInfoArrives(l, name) => LearnKeeps(s, l, Some(name));
  }

  predicate OfWaiting(ev: Event) {
    ev.EvRefuse? || ev.EvRefuseMarks? || ev.EvInfoAccepted? || ev.EvPassDeletes? || ev.EvQuit?
    || ev.EvMakeDrop? || ev.EvEndDelete? || ev.EvClose? || ev.EvRemove?
  }

  lemma WaitingKeeps(s: State, ev: Event)
    requires Inv(s) && OfWaiting(ev)
    ensures Inv(Apply(s, ev))
  {
    hide Inv, Refuse, RefuseMarks, InfoAccepted, PassDeletes, Quit, Remove, MakeDrop, EndDelete;
    match ev
    case EvRefuse(r) => RefuseKeeps(s, r);
    case EvRefuseMarks(r, left, dirs) => RefuseMarksKeeps(s, r, left, dirs);
    case EvInfoAccepted(r) => InfoAcceptedKeeps(s, r);
    case EvPassDeletes(r) => PassDeletesKeeps(s, r);
    case EvQuit(r) => QuitKeeps(s, r);
    case EvRemove(id, deleteData, dirs) => RemoveKeeps(s, id, deleteData, dirs);
    case EvMakeDrop(l) => MakeDropKeeps(s, l);
    case EvEndDelete(k) => EndDeleteKeeps(s, k);
    case EvClose => Follows(s, s.(closed := true));
  }

  lemma ApplyKeeps(s: State, ev: Event)
    requires Inv(s)
    ensures Inv(Apply(s, ev))
  {
    hide Inv, Apply;
    if OfService(ev) {
      ServiceKeeps(s, ev);
    } else if OfWaiting(ev) {
      WaitingKeeps(s, ev);
    } else {
      CallKeeps(s, ev);
    }
  }

  lemma CallKeeps(s: State, ev: Event)
    requires Inv(s) && !OfService(ev) && !OfWaiting(ev)
    ensures Inv(Apply(s, ev))
  {
    hide Inv;
    match ev
    case EvAdd(spec, dest, prov, view) => if spec.hash != "" { FindOrTrackKeeps(s, spec, dest, prov, view); }
    case EvAddURL(dest, prov) => TrackURLKeeps(s, dest, prov);
    case EvRestoreErrored(hex, dest, prov, left, dirs) => TrackErroredKeeps(s, hex, dest, prov, left, dirs);
    case EvPause(id) => PauseKeeps(s, id);
    case EvPauseForShutdown => PauseAllKeeps(s, s.order);
    case EvResume(id) => ResumeKeeps(s, id);
    case EvMoveInQueue(id, position) => MoveInQueueKeeps(s, id, position);
    case EvPromote => PromoteKeeps(s);
    case EvComplete(id) => CompleteKeeps(s, id);
    case EvSeedStops(id) => SeedStopsKeeps(s, id);
    case EvSpaceStops(r) => SpaceStopsKeeps(s, r);
    case _ =>
  }

  /** Every interleaving, from an engine just built, keeps every invariant. */
  lemma {:induction false} RunKeeps(s: State, evs: seq<Event>)
    requires Inv(s)
    ensures Inv(Run(s, evs))
    decreases |evs|
  {
    hide Inv;
    if evs != [] {
      ApplyKeeps(s, evs[0]);
      RunKeeps(Apply(s, evs[0]), evs[1..]);
    }
  }
}
