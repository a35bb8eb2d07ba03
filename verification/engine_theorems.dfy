/** What the engine promises of every run from an engine just built, and where it does not keep the promise. */
module EngineTheorems {
  import opened Wrappers
  import opened EngineState
  import opened EngineSteps
  import opened EngineInvariants
  import opened EngineProofs
  import opened EngineEffects
  import opened EngineSlots
  import opened EngineHistory

  lemma InitInv(maxActive: nat)
    ensures Inv(Init(maxActive))
  {
  }

  /**
   No download under way is ever deleted from under itself: an entry past awaitDeletes, at a
   destination the Remove could not show to be elsewhere, has a name no delete under way covers.
   */
  lemma DeletesSpareDownloads(maxActive: nat, evs: seq<Event>, k: nat, r: Ref)
    ensures var s := Run(Init(maxActive), evs);
      k in s.deleting && r < |s.entries| && IsTracked(s, r) && s.entries[r].phase.Wanted? && !s.entries[r].refused ==>
        var d, e := s.deleting[k], s.entries[r];
        && e.t.Some? && InfoOf(s, e.t.value).Some?
        && (MayBeSameDir(d.savePath, e.savePath, d.dirs) ==> !MayBeSameName(d.name, InfoOf(s, e.t.value).value))
  {
    InitInv(maxActive);
    RunKeeps(Init(maxActive), evs);
    var s := Run(Init(maxActive), evs);
    if k in s.deleting && r < |s.entries| {
      assert Apart(s, s.deleting[k], r) && EntryOk(s, s.entries[r]);
    }
  }

  /**
   The transfer gate of every published, unrefused entry whose library torrent is its own is
   open exactly when the entry is neither paused nor queued, whatever landed between the read
   of the pause, the join, the publication and awaitInfo. It lets the entry download alone
   exactly when the seed policy stopped it, and upload alone only when it is queued or the
   space check paused it.
   */
  lemma GateFollowsPause(maxActive: nat, evs: seq<Event>, r: Ref)
    ensures var s := Run(Init(maxActive), evs);
      r < |s.entries| && s.entries[r].t.Some? && !s.entries[r].refused ==>
        var e := s.entries[r];
        && e.t.value < |s.libs|
        && (!s.libs[e.t.value].shared ==>
              var g := s.libs[e.t.value];
              && (g.down && g.up <==> !e.paused && e.state != Queued)
              && (g.down && !g.up <==> SeedStopped(e))
              && (!g.down && g.up ==> e.state == Queued || (e.paused && e.spacePaused && !e.userPaused))
              && (e.userPaused ==> !g.down && !g.up)
              && (e.paused && !e.seedDone && !e.spacePaused ==> !g.down && !g.up))
  {
    InitInv(maxActive);
    RunKeeps(Init(maxActive), evs);
    var s := Run(Init(maxActive), evs);
    if r < |s.entries| {
      assert EntryOk(s, s.entries[r]) && FlagsOk(s.entries[r]) && GateOk(s, r);
    }
  }

  /** A torrent that joins held is shut before the engine sets its info dictionary. */
  lemma HeldJoinsShut(maxActive: nat, evs: seq<Event>, r: Ref)
    ensures var s := Run(Init(maxActive), evs);
      r < |s.entries| && !s.entries[r].refused &&
      (s.entries[r].phase.Shut? || (s.entries[r].phase.Joined? && s.entries[r].phase.held)) ==>
        var e := s.entries[r];
        e.lib.Some? && e.lib.value < |s.libs| &&
        (!s.libs[e.lib.value].shared ==> !s.libs[e.lib.value].down && !s.libs[e.lib.value].up)
  {
    InitInv(maxActive);
    RunKeeps(Init(maxActive), evs);
    var s := Run(Init(maxActive), evs);
    if r < |s.entries| {
      assert EntryOk(s, s.entries[r]) && GateOk(s, r);
    }
  }

  /** Two tracked refused entries never both own data that may be one: their destinations were shown to differ. */
  lemma LeftDataHasOneOwner(maxActive: nat, evs: seq<Event>, q: Ref, r: Ref)
    ensures var s := Run(Init(maxActive), evs);
      q < |s.entries| && r < |s.entries| && q != r && IsTracked(s, q) && IsTracked(s, r) &&
      MayBeSameName(s.entries[q].leftName, s.entries[r].leftName) ==>
        ShownDifferent(s, s.entries[q].savePath, s.entries[r].savePath)
    ensures var s := Run(Init(maxActive), evs);
      q < |s.entries| ==> s.entries[q].leftName == "" || s.entries[q].sharedName == ""
  {
    InitInv(maxActive);
    RunKeeps(Init(maxActive), evs);
    var s := Run(Init(maxActive), evs);
    if q < |s.entries| && r < |s.entries| {
      assert LeftApart(s, q, r);
    }
  }

  /** Entry q keeps data, or may yet name data, that may be name at savePath. */
  predicate Claims(s: State, q: Ref, savePath: string, name: string, dirs: map<string, DirMatch>)
    requires q < |s.entries|
  {
    var o := s.entries[q];
    MayBeSameDir(savePath, o.savePath, dirs) &&
    (DataName(s, o).None? || MayBeSameName(DataName(s, o).value, name) ||
      (o.refused && MayBeSameName(o.sharedName, name)))
  }

  /**
   Removing a refused entry deletes the data it left exactly when no other tracked entry
   that may be at its destination has that name, may still take it, or kept it as shared;
   it never deletes anything else.
   */
  lemma RefusedDeletesExactly(s: State, r: Ref, deleteData: bool, dirs: map<string, DirMatch>)
    requires Structure(s) && r < |s.entries| && s.entries[r].refused
    ensures var e, name := s.entries[r], RemoveTarget(s, r, deleteData, dirs).name;
      && (name != "" <==> (deleteData && e.leftName != "" &&
                           forall q | 0 <= q < |s.entries| && IsTracked(s, q) && q != r ::
                             !Claims(s, q, e.savePath, e.leftName, dirs)))
      && (name != "" ==> name == e.leftName)
  {
    var e := s.entries[r];
    var self := Some(r);
    forall q | 0 <= q < |s.entries| && IsTracked(s, q) && q != r
      ensures Claims(s, q, e.savePath, e.leftName, dirs) <==>
        UsesName(s, s.entries[q].id, self, e.savePath, e.leftName, dirs) ||
          MayUseName(s, s.entries[q].id, self, e.savePath, dirs)
        || KeepsShared(s, s.entries[q].id, self, e.savePath, e.leftName, dirs)
    {
    }
    forall id | id in s.torrents
      ensures s.torrents[id] < |s.entries| && IsTracked(s, s.torrents[id]) && s.entries[s.torrents[id]].id == id
    {
    }
  }

  /** One entry per infohash among those findOrTrack minted, and the order lists the tracked ids once each. */
  lemma OneEntryPerInfoHash(maxActive: nat, evs: seq<Event>, q: Ref, r: Ref)
    ensures var s := Run(Init(maxActive), evs);
      q < |s.entries| && r < |s.entries| && q != r && IsTracked(s, q) && IsTracked(s, r) &&
      s.entries[q].byHash && s.entries[r].byHash && s.entries[q].infoHash != "" ==>
        s.entries[q].infoHash != s.entries[r].infoHash
    ensures var s := Run(Init(maxActive), evs); NoDup(s.order) && forall id :: id in s.order <==> id in s.torrents
  {
    InitInv(maxActive);
    RunKeeps(Init(maxActive), evs);
    var s := Run(Init(maxActive), evs);
    if q < |s.entries| && r < |s.entries| {
      assert HashApart(s, q, r);
    }
  }

  /** The queue holds, once each, every tracked queued entry, and besides those only entries refused while queued. */
  lemma QueueListsQueued(maxActive: nat, evs: seq<Event>, id: Id)
    ensures var s := Run(Init(maxActive), evs);
      NoDup(s.queue) && (id in s.torrents && s.torrents[id] < |s.entries| ==>
        var e := s.entries[s.torrents[id]];
        && (id in s.queue <==> e.state == Queued || (id in s.queue && e.refused && e.state == Errored))
        && (id in s.queue ==> !e.paused && Startable(e)))
  {
    InitInv(maxActive);
    RunKeeps(Init(maxActive), evs);
  }

  /**
   attach runs for an entry at most once: while it is under way nothing is left to attach, and the
   queue cannot hold the entry.
   */
  lemma AttachedOnce(maxActive: nat, evs: seq<Event>, r: Ref)
    ensures var s := Run(Init(maxActive), evs);
      r < |s.entries| && Attaching(s.entries[r].phase) ==>
        var e := s.entries[r];
        e.t.None? && e.spec.None? && !e.url && e.state != Queued && (IsTracked(s, r) ==> e.id !in s.queue)
  {
    InitInv(maxActive);
    RunKeeps(Init(maxActive), evs);
    var s := Run(Init(maxActive), evs);
    if r < |s.entries| {
      assert EntryOk(s, s.entries[r]) && FlagsOk(s.entries[r]);
    }
  }

  lemma RestSpared(s: State, evs: seq<Event>)
    requires evs != [] && forall i | 0 <= i < |evs| :: !Overshoots(Run(s, evs[..i]), evs[i])
    ensures !Overshoots(s, evs[0])
    ensures forall i | 0 <= i < |evs| - 1 :: !Overshoots(Run(Apply(s, evs[0]), evs[1..][..i]), evs[1..][i])
  {
    assert evs[..0] == [];
    assert !Overshoots(Run(s, evs[..0]), evs[0]);
    forall i | 0 <= i < |evs| - 1
      ensures !Overshoots(Run(Apply(s, evs[0]), evs[1..][..i]), evs[1..][i])
    {
      assert evs[..i + 1] == [evs[0]] + evs[1..][..i];
      assert !Overshoots(Run(s, evs[..i + 1]), evs[i + 1]);
    }
  }

  /** Up to the first Resume that overshoots, no run holds more slots than max_active_downloads. */
  lemma {:induction false} SlotsHoldOverRuns(s: State, evs: seq<Event>)
    requires Inv(s) && |ActiveIds(s)| <= s.maxActive
    requires forall i | 0 <= i < |evs| :: !Overshoots(Run(s, evs[..i]), evs[i])
    ensures |ActiveIds(Run(s, evs))| <= s.maxActive
    decreases |evs|
  {
    if evs != [] {
      RestSpared(s, evs);
      SlotsHold(s, evs[0]);
      ApplyKeeps(s, evs[0]);
      SlotsHoldOverRuns(Apply(s, evs[0]), evs[1..]);
    }
  }

  // ----- what an Add does -----

  /** Adding a torrent already tracked and not refused returns its id and changes nothing. */
  lemma AddAgain(s: State, spec: Spec, dest: string, prov: Provenance, view: LeftView, r: Ref)
    requires Inv(s) && !s.closed && spec.hash != "" && r < |s.entries| && IsTracked(s, r)
    requires s.entries[r].infoHash == spec.hash && !s.entries[r].refused
    ensures var (s', out) := FindOrTrack(s, spec, dest, prov, view);
      s' == s && out.AddExisting? && out.id in s.torrents && MatchesLive(s, out.id, spec.hash, None)
    ensures s.entries[r].byHash &&
      (forall q | 0 <= q < |s.entries| && IsTracked(s, q) && s.entries[q].infoHash == spec.hash :: s.entries[q].byHash)
      ==> FindOrTrack(s, spec, dest, prov, view).1 == AddExisting(s.entries[r].id)
  {
    var id := s.entries[r].id;
    assert id in s.order && MatchesLive(s, id, spec.hash, None);
    var found := FirstLive(s, s.order, spec.hash, None).value;
    assert HashApart(s, s.torrents[found], r);
  }

  /** The claim when nothing live records h: of its refused entries, unless one blocks. */
  lemma AfreshClaim(s: State, h: string, dest: string, view: LeftView)
    requires Inv(s) && h != ""
    requires forall r | 0 <= r < |s.entries| && IsTracked(s, r) && s.entries[r].infoHash == h :: s.entries[r].refused
    ensures var blocked := exists id | id in s.torrents :: MatchesRefused(s, id, h, None) && Blocks(s, id, dest, view);
      var c := DecideClaim(s, h, None, dest, view);
      if blocked then c.ClaimLeftData? else c == ClaimClear(RefusedFor(s, s.order, h, None))
  {
    hide Inv, Blocks;
    StructureOf(s);
    RefusedForComplete(s, s.order, h, None);
    forall id | id in s.torrents
      ensures s.torrents[id] < |s.entries| && IsTracked(s, s.torrents[id])
    {
    }
  }

  lemma ClaimRefuses(s: State, spec: Spec, dest: string, prov: Provenance, view: LeftView)
    requires !s.closed && DecideClaim(s, spec.hash, None, dest, view).ClaimLeftData?
    ensures var (s', out) := FindOrTrack(s, spec, dest, prov, view); s' == s && out.AddLeftData?
  {
    hide DecideClaim;
  }

  lemma AfreshTracks(s: State, spec: Spec, dest: string, prov: Provenance, view: LeftView)
    requires Inv(s) && !s.closed && spec.hash != ""
    requires DecideClaim(s, spec.hash, None, dest, view) == ClaimClear(RefusedFor(s, s.order, spec.hash, None))
    requires forall r | 0 <= r < |s.entries| && IsTracked(s, r) && s.entries[r].infoHash == spec.hash ::
      s.entries[r].refused
    ensures var (s', out) := FindOrTrack(s, spec, dest, prov, view);
      && out.AddTracked? && out.r == |s.entries| && |s'.entries| == |s.entries| + 1
      && s'.entries[..|s.entries|] == s.entries && s'.entries[out.r].infoHash == spec.hash && IsTracked(s', out.r)
      && (forall id | id in s.torrents ::
            if s.entries[s.torrents[id]].infoHash == spec.hash
            then id in s'.torrents ==> s'.torrents[id] == out.r
            else id in s'.torrents && s'.torrents[id] == s.torrents[id])
      && (forall id | id in s'.torrents :: id in s.torrents || s'.torrents[id] == out.r)
  {
    hide Inv, FindOrTrack, DecideClaim, UntrackAll, AddedEntry;
    StructureOf(s);
    var refused := RefusedFor(s, s.order, spec.hash, None);
    var s0 := UntrackAll(s, refused);
    RefusedForComplete(s, s.order, spec.hash, None);
    UntrackAllEffect(s, refused);
    ClearTracks(s, spec, dest, prov, view);
    TrackedInserts(s, spec, dest, prov, view);
    AddedEntryNew(s0, spec, dest, prov);
    forall id | id in s.torrents
      ensures s.torrents[id] < |s.entries| && (id in refused <==> s.entries[s.torrents[id]].infoHash == spec.hash)
    {
      assert IsTracked(s, s.torrents[id]);
    }
  }

  lemma ClearTracks(s: State, spec: Spec, dest: string, prov: Provenance, view: LeftView)
    requires !s.closed && DecideClaim(s, spec.hash, None, dest, view).ClaimClear?
    ensures FindOrTrack(s, spec, dest, prov, view).1.AddTracked?
  {
    hide DecideClaim, UntrackAll, Insert;
  }

  /**
   When nothing live records the infohash: the add is refused, changing nothing, exactly when a
   refused entry for it left data elsewhere that is still there; else the refused entries for it
   are untracked, every other entry stays, and exactly one new entry records it.
   */
  lemma AddAfresh(s: State, spec: Spec, dest: string, prov: Provenance, view: LeftView)
    requires Inv(s) && !s.closed && spec.hash != ""
    requires forall r | 0 <= r < |s.entries| && IsTracked(s, r) && s.entries[r].infoHash == spec.hash ::
      s.entries[r].refused
    ensures var (s', out) := FindOrTrack(s, spec, dest, prov, view);
      var blocked := exists id | id in s.torrents ::
          MatchesRefused(s, id, spec.hash, None) && Blocks(s, id, dest, view);
      && (blocked ==> s' == s && out.AddLeftData?)
      && (!blocked ==>
            && out.AddTracked? && out.r == |s.entries| && |s'.entries| == |s.entries| + 1
            && s'.entries[..|s.entries|] == s.entries && s'.entries[out.r].infoHash == spec.hash && IsTracked(s', out.r)
            && (forall id | id in s.torrents ::
                  if s.entries[s.torrents[id]].infoHash == spec.hash
                  then id in s'.torrents ==> s'.torrents[id] == out.r
                  else id in s'.torrents && s'.torrents[id] == s.torrents[id])
            && (forall id | id in s'.torrents :: id in s.torrents || s'.torrents[id] == out.r))
  {
    hide Inv, FindOrTrack, DecideClaim, Matches, Blocks;
    AfreshClaim(s, spec.hash, dest, view);
    if DecideClaim(s, spec.hash, None, dest, view).ClaimClear? {
      AfreshTracks(s, spec, dest, prov, view);
    } else {
      ClaimRefuses(s, spec, dest, prov, view);
    }
  }

  /** Registering an entry, failing its attach and cleaning up leaves the tables as they were. */
  lemma FailForgets(s: State, e: Tracked, nextID: nat, left: string, dirs: map<string, DirMatch>)
    requires e.id !in s.torrents && e.id !in s.order && e.id !in s.queue && e.state != Queued
    requires e.phase.Starting? && e.phase.via.ViaAdd?
    ensures var s' := Cleanup(AttachFails(Insert(s, e, nextID), |s.entries|), |s.entries|, left, dirs);
      s'.torrents == s.torrents && s'.order == s.order && s'.queue == s.queue
  {
    RemoveFirstAt(s.order + [e.id], e.id, |s.order|);
    assert s.torrents[e.id := |s.entries|] - {e.id} == s.torrents;
  }

  /** Entry r was added by a call that waits for its attach, and that attach failed. */
  predicate AddFailed(s: State, r: Ref) {
    r < |s.entries| && s.entries[r].phase.Failed? && s.entries[r].phase.via.ViaAdd?
  }

  /** The clean-up takes that entry out of the tables, if it is still there, and changes nothing else. */
  lemma CleanupForgets(s: State, r: Ref, left: string, dirs: map<string, DirMatch>)
    requires Inv(s) && AddFailed(s, r) && (s.entries[r].id in s.torrents ==> IsTracked(s, r))
    ensures var e, s' := s.entries[r], Cleanup(s, r, left, dirs);
      && s'.torrents == s.torrents - {e.id} && s'.order == RemoveFirst(s.order, e.id) && s'.queue == s.queue
      && s' == s.(entries := s.entries[r := e.(phase := Ended)], torrents := s'.torrents, order := s'.order)
  {
    var e := s.entries[r];
    assert Local(s, r);
    assert e.id !in s.queue;
    if e.id !in s.torrents {
      assert e.id !in s.order;
      assert s.torrents - {e.id} == s.torrents;
    }
  }

  /**
   An Add whose attach fails, however far it got and whatever other entries did meanwhile, is
   forgotten: what its clean-up leaves tracked is what was tracked before the Add and is still,
   less the refused entries for the infohash; no other entry, no torrent and no delete changes.
   */
  lemma AddThenFail(s: State, spec: Spec, dest: string, prov: Provenance, view: LeftView, evs: seq<Event>, left: string,
      dirs: map<string, DirMatch>)
    requires Inv(s) && spec.hash != ""
    requires FindOrTrack(s, spec, dest, prov, view).1.AddTracked?
    requires forall ev | ev in evs :: !Adds(ev)
    requires var (s1, out) := FindOrTrack(s, spec, dest, prov, view); AddFailed(Run(s1, evs), out.r)
    ensures var (s1, out) := FindOrTrack(s, spec, dest, prov, view);
      var s2 := Run(s1, evs);
      var e, s3 := s2.entries[out.r], Cleanup(s2, out.r, left, dirs);
      var s0 := UntrackAll(s, RefusedFor(s, s.order, spec.hash, None));
      && (forall id :: id in s3.torrents <==> id in s2.torrents && id in s0.torrents)
      && Within(s3, s0) && Within(s3, s2)
      && s3.order == RemoveFirst(s2.order, e.id) && s3.queue == s2.queue
      && s3 == s2.(entries := s2.entries[out.r := e.(phase := Ended)], torrents := s3.torrents, order := s3.order)
  {
    var (s1, out) := FindOrTrack(s, spec, dest, prov, view);
    var s2 := Run(s1, evs);
    var refused := RefusedFor(s, s.order, spec.hash, None);
    var s0 := UntrackAll(s, refused);
    UntrackAllEffect(s, refused);
    UntrackAllKeeps(s, refused);
    TrackedInserts(s, spec, dest, prov, view);
    AddedUnknown(s0, spec, dest, prov);
    FindOrTrackKeeps(s, spec, dest, prov, view);
    RunKeeps(s1, evs);
    RunLasts(s1, evs, out.r, 0);
    BackgroundAddsNone(s1, evs);
    CleanupForgets(s2, out.r, left, dirs);
  }

  /** An Add whose attach fails at once leaves tracked what it found, less the refused entries for the infohash. */
  lemma AddFailsAtOnce(s: State, spec: Spec, dest: string, prov: Provenance, view: LeftView, left: string,
      dirs: map<string, DirMatch>)
    requires Inv(s) && spec.hash != ""
    requires FindOrTrack(s, spec, dest, prov, view).1.AddTracked? && !FindOrTrack(s, spec, dest, prov, view).1.queued
    ensures var (s1, out) := FindOrTrack(s, spec, dest, prov, view);
      var s' := Cleanup(AttachFails(s1, out.r), out.r, left, dirs);
      var s0 := UntrackAll(s, RefusedFor(s, s.order, spec.hash, None));
      s'.torrents == s0.torrents && s'.order == s0.order && s'.queue == s0.queue
  {
    var refused := RefusedFor(s, s.order, spec.hash, None);
    var s0 := UntrackAll(s, refused);
    UntrackAllEffect(s, refused);
    UntrackAllKeeps(s, refused);
    TrackedInserts(s, spec, dest, prov, view);
    AddedUnknown(s0, spec, dest, prov);
    FailForgets(s0, AddedEntry(s0, spec, dest, prov), Mint(s0, prov.want).nextID, left, dirs);
  }

  lemma TrackedInserts(s: State, spec: Spec, dest: string, prov: Provenance, view: LeftView)
    requires FindOrTrack(s, spec, dest, prov, view).1.AddTracked? && spec.hash != ""
    ensures var s0 := UntrackAll(s, RefusedFor(s, s.order, spec.hash, None));
      var (s1, out) := FindOrTrack(s, spec, dest, prov, view);
      var e := AddedEntry(s0, spec, dest, prov);
      s1 == Insert(s0, e, Mint(s0, prov.want).nextID) && out.r == |s0.entries|
      && (out.queued <==> e.state == Queued) && (!out.queued ==> e.phase == Starting(ViaAdd, spec))
  {
    UntrackAllEffect(s, RefusedFor(s, s.order, spec.hash, None));
  }

  lemma AddedUnknown(s: State, spec: Spec, dest: string, prov: Provenance)
    requires Inv(s)
    ensures var id := AddedEntry(s, spec, dest, prov).id; id !in s.torrents && id !in s.order && id !in s.queue
  {
  }

  // ----- where the promise is not kept -----

  const FRESH: Provenance := Provenance(None, false, false)
  const NO_VIEW: LeftView := LeftView({}, map[])

  /** The events that take a fresh Add of spec, as entry r, through attach. */
  function AddRun(spec: Spec, dest: string, r: Ref): seq<Event> {
    [EvAdd(spec, dest, FRESH, NO_VIEW), EvReadHeld(r), EvAddTorrent(r), EvPublish(r)]
  }

  lemma {:induction false} RunAppend(s: State, a: seq<Event>, b: seq<Event>)
    ensures Run(s, a + b) == Run(Run(s, a), b)
    decreases |a|
  {
    if a == [] {
      assert a + b == b;
    } else {
      assert (a + b)[1..] == a[1..] + b;
      RunAppend(Apply(s, a[0]), a[1..], b);
    }
  }

  lemma RunOne(s: State, ev: Event)
    ensures Run(s, [ev]) == Apply(s, ev)
  {
  }

  lemma RunTwo(s: State, a: Event, b: Event)
    ensures Run(s, [a, b]) == Apply(Apply(s, a), b)
  {
    assert [a, b] == [a] + [b];
    RunAppend(s, [a], [b]);
    RunOne(s, a);
    RunOne(Apply(s, a), b);
  }

  lemma RunFour(s: State, a: Event, b: Event, c: Event, d: Event)
    ensures Run(s, [a, b, c, d]) == Apply(Apply(Apply(Apply(s, a), b), c), d)
  {
    assert [a, b, c, d] == [a, b] + [c, d];
    RunAppend(s, [a, b], [c, d]);
    RunTwo(s, a, b);
    RunTwo(Apply(Apply(s, a), b), c, d);
  }

  /** The first Add of an engine just built, once its torrent is published. */
  function Published(spec: Spec, maxActive: nat): State {
    var e := NewTracked(FRESH, Numbered(1), "d").(infoHash := spec.hash, byHash := true, t := Some(0), lib := Some(0),
        phase := Awaiting);
    State([e], map[Numbered(1) := 0], [Numbered(1)], [], [Torrent(spec.hash, spec.info, true, true, false, 0, false)],
          map[spec.hash := 0], {}, map[], 0, {}, 1, maxActive, false)
  }

  lemma FirstAdd(spec: Spec, maxActive: nat)
    requires spec.hash != "" && maxActive > 0
    ensures Run(Init(maxActive), AddRun(spec, "d", 0)) == Published(spec, maxActive)
  {
    var s0 := Init(maxActive);
    var evs := AddRun(spec, "d", 0);
    RunFour(s0, evs[0], evs[1], evs[2], evs[3]);
    assert ActiveIds(s0) == {};
    assert Mint(s0, None) == Minted(Numbered(1), 1);
    var s1 := Apply(s0, evs[0]);
    assert s1.entries == [NewTracked(FRESH, Numbered(1), "d").(infoHash := spec.hash, byHash := true,
      phase := Starting(ViaAdd, spec))];
    assert Apply(Apply(Apply(s1, evs[1]), evs[2]), evs[3]) == Published(spec, maxActive);
  }

  const MAGNET: Spec := Spec("h", None)
  const FILE: Spec := Spec("h", Some("n"))
  const ONE: Id := Numbered(1)
  const TWO: Id := Numbered(2)

  /** A first Add whose .torrent carried its info, accepted. */
  function AcceptedFirst(): State {
    var s := Published(FILE, 1);
    s.(entries := [s.entries[0].(phase := Waiting("n"), state := Downloading)])
  }

  lemma AcceptFirst()
    ensures Apply(Published(FILE, 1), EvInfoAccepted(0)) == AcceptedFirst()
  {
  }

  /** The space check pauses a download and shuts download alone: its upload stays open. */
  lemma SpacePauseLeavesUploadOpen()
    ensures var s := Run(Init(1), AddRun(FILE, "d", 0) + [EvInfoAccepted(0), EvSpaceStops(0)]);
      |s.entries| == 1 && |s.libs| == 1 && s.entries[0].paused && !s.libs[0].down && s.libs[0].up
  {
    hide AcceptedFirst, Published;
    RunAppend(Init(1), AddRun(FILE, "d", 0), [EvInfoAccepted(0), EvSpaceStops(0)]);
    FirstAdd(FILE, 1);
    RunTwo(Published(FILE, 1), EvInfoAccepted(0), EvSpaceStops(0));
    AcceptFirst();
    StopFirst();
  }

  lemma StopFirst()
    ensures var s := Apply(AcceptedFirst(), EvSpaceStops(0));
      |s.entries| == 1 && |s.libs| == 1 && s.entries[0].paused && !s.libs[0].down && s.libs[0].up
  {
  }

  /** The first Add, paused by the user before its info was accepted. */
  function PausedFirst(spec: Spec): State {
    var s := Published(spec, 1);
    s.(entries := [PausedEntry(s.entries[0], true)],
      libs := [Torrent(spec.hash, spec.info, false, false, false, 0, false)])
  }

  lemma PauseFirst(spec: Spec)
    ensures Apply(Published(spec, 1), EvPause(ONE)) == PausedFirst(spec)
  {
  }

  /** And removed, its Drop still to come. */
  function RemovedFirst(): State {
    var s := PausedFirst(MAGNET);
    s.(entries := [s.entries[0].(removed := true)], torrents := map[], order := [], drops := {0})
  }

  lemma RemoveFirstAdd()
    ensures Apply(PausedFirst(MAGNET), EvRemove(ONE, false, map[])) == RemovedFirst()
  {
    assert map[ONE := 0] - {ONE} == map[];
  }

  /** What attaching the second Add of the infohash does to its entry, the torrent and the Drop as they were. */
  function Readding(p: Phase, shared: bool): State {
    var s := RemovedFirst();
    s.(entries := s.entries + [NewTracked(FRESH, TWO, "d").(infoHash := "h", byHash := true, phase := p,
      lib := if shared then Some(0) else None)],
       torrents := map[TWO := 1], order := [TWO], nextID := 2,
         libs := [Torrent("h", None, false, false, false, 0, shared)])
  }

  lemma ReaddStarts()
    ensures Apply(RemovedFirst(), EvAdd(MAGNET, "d", FRESH, NO_VIEW)) == Readding(Starting(ViaAdd, MAGNET), false)
  {
    var s := RemovedFirst();
    assert ActiveIds(s) == {} && Mint(s, None) == Minted(TWO, 2);
  }

  lemma ReaddReads()
    ensures Apply(Readding(Starting(ViaAdd, MAGNET), false), EvReadHeld(1)) ==
      Readding(Joining(ViaAdd, MAGNET, false), false)
  {
  }

  lemma ReaddHanded()
    ensures Apply(Readding(Joining(ViaAdd, MAGNET, false), false), EvAddTorrent(1)) ==
      Readding(Joined(ViaAdd, MAGNET, false), true)
  {
  }

  /** Added again before that Drop: the client handed back the torrent it still held. */
  function Readded(): State {
    var s := Readding(Awaiting, true);
    s.(entries := [s.entries[0], s.entries[1].(t := Some(0))])
  }

  lemma ReaddPublishes()
    ensures Apply(Readding(Joined(ViaAdd, MAGNET, false), true), EvPublish(1)) == Readded()
  {
  }

  function ReaddRun(): seq<Event> {
    (AddRun(MAGNET, "d", 0) + [EvPause(ONE), EvRemove(ONE, false, map[])]) + AddRun(MAGNET, "d", 1)
  }

  lemma ReaddJoins()
    ensures Run(Init(1), ReaddRun()) == Readded()
  {
    hide Apply, Published, PausedFirst, RemovedFirst, Readding, Readded;
    var pre, mid := AddRun(MAGNET, "d", 0), [EvPause(ONE), EvRemove(ONE, false, map[])];
    RunAppend(Init(1), pre + mid, AddRun(MAGNET, "d", 1));
    RunAppend(Init(1), pre, mid);
    FirstAdd(MAGNET, 1);
    RunTwo(Published(MAGNET, 1), mid[0], mid[1]);
    PauseFirst(MAGNET);
    RemoveFirstAdd();
    RunFour(RemovedFirst(), EvAdd(MAGNET, "d", FRESH, NO_VIEW), EvReadHeld(1), EvAddTorrent(1), EvPublish(1));
    ReaddStarts();
    ReaddReads();
    ReaddHanded();
    ReaddPublishes();
  }

  /**
   Remove drops the torrent only after it lets go of the lock. An Add of the same infohash in
   between is handed that same torrent, gate shut, so it runs neither paused nor queued with
   its transfers held.
   */
  lemma ReaddBeforeDropIsShut()
    ensures var s := Run(Init(1), ReaddRun());
      |s.entries| == 2 && |s.libs| == 1 && s.entries[1].t == Some(0) && s.libs[0].shared && IsTracked(s, 1) &&
      !Held(s.entries[1]) && !s.entries[1].refused && !s.libs[0].down && !s.libs[0].up
  {
    ReaddJoins();
  }

  /** When the Drop then comes, the entry is left on a torrent the client no longer has. */
  lemma ReaddBeforeDropIsDead()
    ensures var s := Run(Init(1), ReaddRun() + [EvMakeDrop(0)]);
      |s.entries| == 2 && |s.libs| == 1 && s.entries[1].t == Some(0) && IsTracked(s, 1) && !s.entries[1].refused &&
      s.libs[0].dropped && s.client == map[]
  {
    hide Apply, ReaddRun, Readded;
    RunAppend(Init(1), ReaddRun(), [EvMakeDrop(0)]);
    ReaddJoins();
    RunOne(Readded(), EvMakeDrop(0));
    DropReadded();
  }

  lemma DropReadded()
    ensures var s := Apply(Readded(), EvMakeDrop(0));
      |s.entries| == 2 && |s.libs| == 1 && s.entries[1].t == Some(0) && IsTracked(s, 1) && !s.entries[1].refused &&
      s.libs[0].dropped && s.client == map[]
  {
    assert map["h" := 0] - {"h"} == map[];
  }

  /** Two addresses being fetched, with two slots. */
  function TwoFetching(): State {
    var e := NewTracked(FRESH, ONE, "d").(phase := Fetching);
    Init(2).(entries := [e, e.(id := TWO)], torrents := map[ONE := 0, TWO := 1], order := [ONE, TWO], nextID := 2)
  }

  lemma AddTwoURLs()
    ensures Run(Init(2), [EvAddURL("d", FRESH), EvAddURL("d", FRESH)]) == TwoFetching()
  {
    RunTwo(Init(2), EvAddURL("d", FRESH), EvAddURL("d", FRESH));
    assert ActiveIds(Init(2)) == {} && Mint(Init(2), None) == Minted(ONE, 1);
    var s1 := Apply(Init(2), EvAddURL("d", FRESH));
    assert s1.entries == [TwoFetching().entries[0]] && s1.torrents == map[ONE := 0] && s1.order == [ONE];
    assert ActiveIds(s1) == {ONE} && Mint(s1, None) == Minted(TWO, 2);
  }

  /** Both are found to be one torrent, attached: neither records the infohash before it is published. */
  function TwoJoining(): State {
    var s := TwoFetching();
    s.(entries := [s.entries[0].(phase := Joining(ViaFetch, MAGNET, false)),
      s.entries[1].(phase := Joining(ViaFetch, MAGNET, false))])
  }

  lemma ClaimTwice()
    ensures Run(TwoFetching(), [EvFetchClaims(0, MAGNET, NO_VIEW), EvReadHeld(0), EvFetchClaims(1, MAGNET, NO_VIEW),
      EvReadHeld(1)]) == TwoJoining()
  {
    hide Apply, TwoFetching, FirstClaimed, TwoJoining;
    var s := TwoFetching();
    RunFour(s, EvFetchClaims(0, MAGNET, NO_VIEW), EvReadHeld(0), EvFetchClaims(1, MAGNET, NO_VIEW), EvReadHeld(1));
    ClaimOne();
    ClaimOther();
  }

  function FirstClaimed(): State {
    var s := TwoFetching();
    s.(entries := [s.entries[0].(phase := Joining(ViaFetch, MAGNET, false)), s.entries[1]])
  }

  lemma ClaimOne()
    ensures Apply(Apply(TwoFetching(), EvFetchClaims(0, MAGNET, NO_VIEW)), EvReadHeld(0)) == FirstClaimed()
  {
    ClaimsNothing(TwoFetching(), 0);
  }

  lemma ClaimOther()
    ensures Apply(Apply(FirstClaimed(), EvFetchClaims(1, MAGNET, NO_VIEW)), EvReadHeld(1)) == TwoJoining()
  {
    ClaimsNothing(FirstClaimed(), 1);
  }

  lemma HoldsSome(ids: seq<Id>)
    ensures ids == [] || exists id :: id in ids
  {
    if ids != [] { assert ids[0] in ids; }
  }

  lemma ClaimsNothing(s: State, r: Ref)
    requires s.order == [ONE, TWO] && |s.entries| == 2 && forall q | 0 <= q < 2 :: s.entries[q].infoHash == ""
    ensures DecideClaim(s, "h", Some(r), "d", NO_VIEW) == ClaimClear([])
  {
    hide RefusedFor, FirstLive;
    assert |"h"| == 1;
    assert !Matches(s, ONE, "h", Some(r)) && !Matches(s, TWO, "h", Some(r));
    RefusedForComplete(s, s.order, "h", Some(r));
    HoldsSome(RefusedFor(s, s.order, "h", Some(r)));
    assert FirstLive(s, s.order, "h", Some(r)).None?;
    assert FirstBlocking(s, [], "d", NO_VIEW).None?;
  }

  /** The one torrent handed to both. */
  function TwoJoined(): State {
    var s := TwoJoining();
    s.(entries := [s.entries[0].(lib := Some(0), phase := Joined(ViaFetch, MAGNET, false)),
                   s.entries[1].(lib := Some(0), phase := Joined(ViaFetch, MAGNET, false))],
       libs := [Torrent("h", None, true, true, false, 0, true)], client := map["h" := 0])
  }

  lemma JoinTwice()
    ensures Run(TwoJoining(), [EvAddTorrent(0), EvAddTorrent(1)]) == TwoJoined()
  {
    RunTwo(TwoJoining(), EvAddTorrent(0), EvAddTorrent(1));
    var s1 := Apply(TwoJoining(), EvAddTorrent(0));
    assert s1.entries == [TwoJoined().entries[0], TwoJoining().entries[1]];
    assert s1.libs == [Torrent("h", None, true, true, false, 0, false)] && s1.client == map["h" := 0];
    assert s1.libs[0 := s1.libs[0].(shared := true)] == TwoJoined().libs;
  }

  lemma PublishTwice()
    ensures var s := Run(TwoJoined(), [EvPublish(0), EvPublish(1)]);
      |s.entries| == 2 && s.libs == TwoJoined().libs && s.torrents == TwoJoined().torrents
      && forall r | 0 <= r < 2 ::
           s.entries[r].id == TwoJoined().entries[r].id && s.entries[r].t == Some(0) && s.entries[r].infoHash == "h"
  {
    RunTwo(TwoJoined(), EvPublish(0), EvPublish(1));
  }

  /** Two addresses that turn out to be one torrent share it, both tracked, published and recording its infohash. */
  lemma TwoFetchesShare()
    ensures var s := Run(Init(2), (([EvAddURL("d", FRESH), EvAddURL("d", FRESH)] +
        [EvFetchClaims(0, MAGNET, NO_VIEW), EvReadHeld(0), EvFetchClaims(1, MAGNET, NO_VIEW), EvReadHeld(1)]) +
        [EvAddTorrent(0), EvAddTorrent(1)]) + [EvPublish(0), EvPublish(1)]);
      |s.entries| == 2 && |s.libs| == 1 && s.libs[0].shared
      && forall r | 0 <= r < 2 :: IsTracked(s, r) && s.entries[r].t == Some(0) && s.entries[r].infoHash == "h"
  {
    var two := [EvAddURL("d", FRESH), EvAddURL("d", FRESH)];
    var four := [EvFetchClaims(0, MAGNET, NO_VIEW), EvReadHeld(0), EvFetchClaims(1, MAGNET, NO_VIEW), EvReadHeld(1)];
    var join, publish := [EvAddTorrent(0), EvAddTorrent(1)], [EvPublish(0), EvPublish(1)];
    RunAppend(Init(2), (two + four) + join, publish);
    RunAppend(Init(2), two + four, join);
    RunAppend(Init(2), two, four);
    AddTwoURLs();
    ClaimTwice();
    JoinTwice();
    PublishTwice();
  }

  /** The Resume that overshoots is reachable: the entry's address was still being fetched when it was paused. */
  lemma ResumeWhileFetchingOvershoots()
    ensures var s := Run(Init(1), [EvAddURL("d", FRESH), EvPause(ONE), EvAdd(MAGNET, "d", FRESH, NO_VIEW),
      EvResume(ONE)]);
      |ActiveIds(s)| == 2 && s.maxActive == 1
  {
    hide Apply, ActiveIds, PausedFetch, AddedBehind;
    RunFour(Init(1), EvAddURL("d", FRESH), EvPause(ONE), EvAdd(MAGNET, "d", FRESH, NO_VIEW), EvResume(ONE));
    FetchPaused();
    AddBehind();
    ResumeBehind();
  }

  /** Another torrent added while the fetch is paused. */
  function AddedBehind(): State {
    var s := PausedFetch();
    s.(entries := s.entries + [NewTracked(FRESH, TWO, "d").(infoHash := "h", byHash := true,
      phase := Starting(ViaAdd, MAGNET))],
       torrents := map[ONE := 0, TWO := 1], order := [ONE, TWO], nextID := 2)
  }

  lemma AddBehind()
    ensures Apply(PausedFetch(), EvAdd(MAGNET, "d", FRESH, NO_VIEW)) == AddedBehind()
  {
    var s := PausedFetch();
    assert ActiveIds(s) == {} && Mint(s, None) == Minted(TWO, 2);
  }

  lemma ResumeBehind()
    ensures var s := Apply(AddedBehind(), EvResume(ONE)); |ActiveIds(s)| == 2 && s.maxActive == 1
  {
    var s, e := AddedBehind(), ResumedEntry(AddedBehind().entries[0]);
    assert IsActive(e) && !Startable(e) && e.t.None?;
    var s' := Apply(s, EvResume(ONE));
    assert s'.entries == [e, s.entries[1]];
    assert ActiveIds(s') == {ONE, TWO};
  }

  function PausedFetch(): State {
    Init(1).(entries := [PausedEntry(NewTracked(FRESH, ONE, "d").(phase := Fetching), true)], torrents := map[ONE := 0],
      order := [ONE], nextID := 1)
  }

  lemma FetchPaused()
    ensures Apply(Apply(Init(1), EvAddURL("d", FRESH)), EvPause(ONE)) == PausedFetch()
  {
  }
}
