/** What a call leaves, entry by entry: additions, the order of the queue, and the slots. */
module EngineCalls {
  import opened Wrappers
  import opened EngineState
  import opened EngineSteps
  import opened EngineInvariants
  import opened EngineProofs
  import opened EngineEffects
  import opened EngineHistory
  import opened EngineSlots
  import opened EngineTheorems

  // ----- the order of the queue -----

  lemma {:induction false} RemoveFirstLength<T>(s: seq<T>, x: T)
    ensures |RemoveFirst(s, x)| == |s| - (if x in s then 1 else 0)
  {
    if s != [] {
      RemoveFirstLength(s[1..], x);
      assert s == [s[0]] + s[1..];
    }
  }

  /** The place a move asks for, as far as there is one. */
  function Place(position: int, last: nat): nat {
    if position < 0 then 0 else if position > last then last else position
  }

  /** The torrent moved stands at the place asked for, the others as they stood to one another; nothing else changes. */
  lemma MovesTo(s: State, id: Id, position: int, x: Id, y: Id)
    requires Inv(s) && !s.closed && id in s.queue
    ensures var s' := MoveInQueue(s, id, position);
      && s' == s.(queue := s'.queue) && NoDup(s'.queue) && |s'.queue| == |s.queue|
      && s'.queue[Place(position, |s.queue| - 1)] == id
      && (x in s'.queue <==> x in s.queue)
      && (x != id && y != id ==> (Ahead(s'.queue, x, y) <==> Ahead(s.queue, x, y)))
  {
    hide Inv;
    QueueOf(s);
    var q := RemoveFirst(s.queue, id);
    RemoveFirstLength(s.queue, id);
    RemoveFirstNoDup(s.queue, id);
    var p := Place(position, |q|);
    InsertNoDup(q, id, p);
    if x != id && y != id {
      RemoveFirstAhead(s.queue, id, x, y);
      InsertAhead(q, id, p, x, y);
    }
  }

  // ----- what an addition tracks -----

  /** How an entry starts out: paused as asked, else waiting when every slot is taken, else at work. */
  predicate StartsOut(e: Tracked, prov: Provenance, full: bool) {
    && e.paused == (prov.paused || prov.seedDone) && e.userPaused == prov.paused && e.seedDone == prov.seedDone
    && !e.seedOverride && !e.spacePaused && !e.removed && e.t.None?
    && e.state == (if e.paused then Paused else if full then Queued else Checking)
    && (e.paused ==> e.prePause == Checking)
  }

  /** Its id: the one wanted if no torrent tracked has it, else the least number free above the counter. */
  predicate IdFor(s: State, want: Option<Id>, id: Id) {
    if want.Some? && want.value !in s.torrents then id == want.value
    else
      && id.Numbered? && id.n > s.nextID && id !in s.torrents
      && forall k | s.nextID < k < id.n :: Numbered(k) in s.torrents
  }

  /** Whose slots are taken once the refused entries for hex are gone. */
  function TakenBut(s: State, hex: string): set<Id> {
    set id | id in ActiveIds(s) && !(s.entries[s.torrents[id]].infoHash == hex && s.entries[s.torrents[id]].refused)
  }

  lemma MintsFor(s: State, want: Option<Id>)
    ensures IdFor(s, want, Mint(s, want).id)
    ensures Mint(s, want).nextID >= s.nextID
  {
  }

  lemma AddedStarts(s: State, spec: Spec, dest: string, prov: Provenance)
    ensures var e := AddedEntry(s, spec, dest, prov);
      && e.savePath == dest && e.infoHash == spec.hash && !e.refused
      && e.id == Mint(s, prov.want).id && StartsOut(e, prov, |ActiveIds(s)| >= s.maxActive)
      && (if e.state == Queued then e.phase == Parked && e.spec == Some(spec) else e.phase == Starting(ViaAdd, spec))
  {
    hide Mint, ActiveIds;
    if prov.paused || prov.seedDone { } else if |ActiveIds(s)| >= s.maxActive { } else { }
  }

  lemma ClearActive(s: State, hex: string)
    requires Inv(s) && hex != ""
    ensures ActiveIds(UntrackAll(s, RefusedFor(s, s.order, hex, None))) == TakenBut(s, hex)
  {
    hide Inv, UntrackAll, ActiveIds, TakenBut, RefusedFor;
    StructureOf(s);
    var refused := RefusedFor(s, s.order, hex, None);
    RefusedForComplete(s, s.order, hex, None);
    UntrackAllEffect(s, refused);
    ActiveBut(s, UntrackAll(s, refused), refused, hex);
  }

  lemma ActiveBut(s: State, s1: State, ids: seq<Id>, hex: string)
    requires Structure(s) && hex != "" && s1.entries == s.entries
    requires forall id :: id in ids <==> id in s.order && MatchesRefused(s, id, hex, None)
    requires s1.torrents == map id | id in s.torrents && id !in ids :: s.torrents[id]
    ensures ActiveIds(s1) == TakenBut(s, hex)
  {
    hide EntryOk, OwnLib, NoDup;
  }

  /** Untracking the refused entries frees their ids; everything else an Add tracks is as asked for. */
  lemma AddStarts(s: State, spec: Spec, dest: string, prov: Provenance, view: LeftView)
    requires Inv(s) && !s.closed && spec.hash != "" && FindOrTrack(s, spec, dest, prov, view).1.AddTracked?
    ensures var (s', out) := FindOrTrack(s, spec, dest, prov, view);
      && out.r == |s.entries| && |s'.entries| == |s.entries| + 1
      && var e := s'.entries[out.r];
         && e.savePath == dest && e.infoHash == spec.hash && !e.refused
         && StartsOut(e, prov, |TakenBut(s, spec.hash)| >= s.maxActive) && out.queued == (e.state == Queued)
         && (if e.state == Queued then e.phase == Parked && e.spec == Some(spec)
             else e.phase == Starting(ViaAdd, spec) && e.id !in s'.queue)
         && s'.order != [] && s'.order[|s'.order| - 1] == e.id
         && (e.state == Queued ==> s'.queue != [] && s'.queue[|s'.queue| - 1] == e.id)
         && IdFor(UntrackAll(s, RefusedFor(s, s.order, spec.hash, None)), prov.want, e.id)
  {
    hide Inv, FindOrTrack, DecideClaim, UntrackAll, AddedEntry, ActiveIds, TakenBut, Mint;
    ClaimedClear(s, spec, dest, prov, view);
    var refused := RefusedFor(s, s.order, spec.hash, None);
    var s1 := UntrackAll(s, refused);
    ClearActive(s, spec.hash);
    UntrackAllEffect(s, refused);
    UntrackAllKeeps(s, refused);
    QueueOf(s1);
    FindOrTrackUnfolds(s, spec, dest, prov, view);
    AddedStarts(s1, spec, dest, prov);
    MintsFor(s1, prov.want);
    NewIsNotQueued(s1, AddedEntry(s1, spec, dest, prov).id);
    TracksLast(s, spec, dest, prov, view);
  }

  lemma NewIsNotQueued(s: State, id: Id)
    requires QueueOk(s)
    ensures id !in s.torrents ==> id !in s.queue
  {
  }

  lemma ClaimedClear(s: State, spec: Spec, dest: string, prov: Provenance, view: LeftView)
    requires Inv(s) && !s.closed && spec.hash != "" && FindOrTrack(s, spec, dest, prov, view).1.AddTracked?
    ensures DecideClaim(s, spec.hash, None, dest, view) == ClaimClear(RefusedFor(s, s.order, spec.hash, None))
  {
    hide Inv, FirstLive, FirstBlocking, RefusedFor, UntrackAll, Mint, Insert, ActiveIds;
    var c := DecideClaim(s, spec.hash, None, dest, view);
    assert c.ClaimExisting? || c.ClaimLeftData? || c.ClaimClear?;
  }

  lemma TracksLast(s: State, spec: Spec, dest: string, prov: Provenance, view: LeftView)
    requires !s.closed && DecideClaim(s, spec.hash, None, dest, view).ClaimClear?
    requires var s1 := UntrackAll(s, DecideClaim(s, spec.hash, None, dest, view).refused); s1.entries == s.entries
    ensures var out := FindOrTrack(s, spec, dest, prov, view).1;
      && out.AddTracked? && out.r == |s.entries|
      && out.queued == (!prov.paused && !prov.seedDone &&
           |ActiveIds(UntrackAll(s, DecideClaim(s, spec.hash, None, dest, view).refused))| >= s.maxActive)
  {
    hide DecideClaim, UntrackAll, ActiveIds, Mint;
  }

  /** An address starts out likewise; it is fetched at once unless it waits in the queue. */
  lemma AddressStarts(s: State, dest: string, prov: Provenance)
    requires Inv(s) && !s.closed
    ensures var s' := TrackURL(s, dest, prov);
      && |s'.entries| == |s.entries| + 1 && s'.entries[..|s.entries|] == s.entries
      && var e := s'.entries[|s.entries|];
         && e.savePath == dest && e.infoHash == "" && !e.byHash && !e.refused && IdFor(s, prov.want, e.id)
         && StartsOut(e, prov, |ActiveIds(s)| >= s.maxActive)
         && s'.torrents == s.torrents[e.id := |s.entries|] && s'.order == s.order + [e.id]
         && (if e.state == Queued then e.phase == Parked && e.url && s'.queue == s.queue + [e.id]
             else e.phase == Fetching && !e.url && s'.queue == s.queue)
  {
    hide Inv, ActiveIds, Mint;
    MintsFor(s, prov.want);
    QueueOf(s);
    NewIsNotQueued(s, Mint(s, prov.want).id);
    if prov.paused || prov.seedDone { } else if |ActiveIds(s)| >= s.maxActive { } else { }
  }

  // ----- what blocks an Add -----

  /** A refused entry for the infohash left data elsewhere than dest, for all that is shown, and still on disk. */
  predicate LeftElsewhere(s: State, q: Ref, hex: string, dest: string, view: LeftView) {
    IsTracked(s, q) &&
    var e := s.entries[q];
    && e.refused && e.infoHash == hex && e.leftName != ""
    && e.savePath != dest && !(e.savePath in view.dirs && view.dirs[e.savePath] == DirSame)
    && (e.savePath, e.leftName) !in view.gone
  }

  /** An Add that finds no live entry is refused exactly for such data, and names it. */
  lemma AddBlocked(s: State, spec: Spec, dest: string, prov: Provenance, view: LeftView)
    requires Inv(s) && !s.closed && spec.hash != ""
    requires forall q | 0 <= q < |s.entries| && IsTracked(s, q) && s.entries[q].infoHash == spec.hash ::
      s.entries[q].refused
    ensures var (s', out) := FindOrTrack(s, spec, dest, prov, view);
      && (out.AddLeftData? <==> exists q: Ref :: LeftElsewhere(s, q, spec.hash, dest, view))
      && (out.AddLeftData? ==> s' == s && exists q: Ref :: (
            LeftElsewhere(s, q, spec.hash, dest, view)
            && out.savePath == s.entries[q].savePath && out.name == s.entries[q].leftName))
  {
    hide Inv, FindOrTrack, DecideClaim, RefusedFor;
    StructureOf(s);
    AfreshClaim(s, spec.hash, dest, view);
    BlocksExactly(s, spec.hash, dest, view);
    ClaimNames(s, spec, dest, prov, view);
  }

  lemma BlocksExactly(s: State, hex: string, dest: string, view: LeftView)
    requires Structure(s)
    ensures (exists id | id in s.torrents :: MatchesRefused(s, id, hex, None) && Blocks(s, id, dest, view))
       <==> (exists q: Ref :: LeftElsewhere(s, q, hex, dest, view))
  {
    if id :| id in s.torrents && MatchesRefused(s, id, hex, None) && Blocks(s, id, dest, view) {
      assert LeftElsewhere(s, s.torrents[id], hex, dest, view);
    }
    if q: Ref :| LeftElsewhere(s, q, hex, dest, view) {
      var id := s.entries[q].id;
      assert id in s.torrents && MatchesRefused(s, id, hex, None) && Blocks(s, id, dest, view);
    }
  }

  lemma ClaimNames(s: State, spec: Spec, dest: string, prov: Provenance, view: LeftView)
    requires Structure(s) && !s.closed && spec.hash != ""
    ensures var c, out := DecideClaim(s, spec.hash, None, dest, view), FindOrTrack(s, spec, dest, prov, view).1;
      && (out.AddLeftData? <==> c.ClaimLeftData?)
      && (c.ClaimLeftData? ==>
            && FindOrTrack(s, spec, dest, prov, view).0 == s
            && exists q: Ref :: (LeftElsewhere(s, q, spec.hash, dest, view)
                                 && out.savePath == s.entries[q].savePath && out.name == s.entries[q].leftName))
  {
    hide UntrackAll, Mint, Insert, ActiveIds, Structure;
    var c := DecideClaim(s, spec.hash, None, dest, view);
    if c.ClaimLeftData? {
      var refused := RefusedFor(s, s.order, spec.hash, None);
      var id := FirstBlocking(s, refused, dest, view).value;
      RefusedForComplete(s, s.order, spec.hash, None);
      TracksIn(s, id);
      assert LeftElsewhere(s, s.torrents[id], spec.hash, dest, view);
    }
  }

  lemma TracksIn(s: State, id: Id)
    requires Structure(s)
    ensures id in s.torrents ==> IsTracked(s, s.torrents[id])
  {
  }

  // ----- slots -----

  /** The queue's head starts with what it has: its torrent, its address, or its spec. */
  lemma HeadBegins(s: State)
    requires Inv(s) && !s.closed && s.queue != [] && |ActiveIds(s)| < s.maxActive
    ensures var s' := Promote(s);
      s.queue[0] in s.torrents &&
      var r := s.torrents[s.queue[0]];
      && r < |s.entries| && s'.queue == s.queue[1..]
      && var e := s.entries[r];
         s'.entries == s.entries[r :=
           if e.t.Some? then e.(state := if s.libs[e.t.value].info.Some? then Downloading else Checking)
           else if e.url then e.(state := Checking, url := false, phase := Fetching)
           else e.(state := Checking, spec := None, phase := Starting(ViaQueue, e.spec.value))]
         && (e.t.Some? ==> s'.libs[e.t.value].down && s'.libs[e.t.value].up)
  {
    hide Inv, ActiveIds;
    HeadStarts(s);
  }

  /** A download complete gives its slot up and seeds; nothing else changes. */
  lemma CompletionFreesSlot(s: State, id: Id)
    requires Inv(s) && id in s.torrents
    ensures var r, s' := s.torrents[id], Complete(s, id);
      r < |s.entries| &&
      var e := s.entries[r];
      if e.t.Some? && InfoOf(s, e.t.value).Some? && !e.paused && e.state == Downloading then
        && s' == s.(entries := s.entries[r := e.(state := Seeding)])
        && id in ActiveIds(s) && ActiveIds(s') == ActiveIds(s) - {id}
      else s' == s
  {
    hide Inv, EntryOk, OwnLib, NoDup;
    StructureOf(s);
    FreesOnly(s, Complete(s, id), id);
  }

  /** An entry that alone changes and is active no more frees just its own slot. */
  lemma FreesOnly(s: State, s': State, id: Id)
    requires Structure(s) && id in s.torrents
    requires s'.torrents == s.torrents && |s'.entries| == |s.entries|
    requires s'.entries == s.entries[s.torrents[id] := s'.entries[s.torrents[id]]]
    ensures !IsActive(s'.entries[s.torrents[id]]) ==> ActiveIds(s') == ActiveIds(s) - {id}
  {
    hide EntryOk, OwnLib, NoDup;
  }

  /** The seed policy stops exactly what seeds unasked: its upload is shut, and it seeds again only when resumed. */
  lemma SeedPolicyStops(s: State, id: Id)
    requires Inv(s) && id in s.torrents
    ensures var r, s' := s.torrents[id], SeedStops(s, id);
      r < |s.entries| &&
      var e := s.entries[r];
      if e.t.Some? && InfoOf(s, e.t.value).Some? && !e.paused && e.state == Seeding && !e.seedOverride then
        && s'.entries == s.entries[r := e.(paused := true, seedDone := true, state := Paused, prePause := Seeding)]
        && e.t.value < |s'.libs| && !s'.libs[e.t.value].up && s'.libs[e.t.value].down == s.libs[e.t.value].down
      else s' == s
  {
    hide Inv;
    StructureOf(s);
    LocalOf(s, s.torrents[id]);
  }

  /** A pause, of the user or for lack of space, gives the slot up. */
  lemma PauseFreesSlot(s: State, r: Ref)
    requires Inv(s) && !s.closed && IsTracked(s, r) && IsActive(s.entries[r])
    ensures var id := s.entries[r].id;
      && id in ActiveIds(s) && ActiveIds(Pause(s, id)) == ActiveIds(s) - {id}
      && (SpaceStops(s, r) != s ==> ActiveIds(SpaceStops(s, r)) == ActiveIds(s) - {id})
  {
    hide Inv, Pause, SpaceStops, PausedEntry;
    StructureOf(s);
    PausesOnly(s, r);
    SpacePausesOnly(s, r);
  }

  lemma PausesOnly(s: State, r: Ref)
    requires Structure(s) && !s.closed && IsTracked(s, r) && IsActive(s.entries[r])
    ensures var s' := Pause(s, s.entries[r].id);
      && s'.torrents == s.torrents && |s'.entries| == |s.entries|
      && s'.entries[r].paused && s'.entries == s.entries[r := s'.entries[r]]
  {
    hide EntryOk, OwnLib, NoDup;
    if s.entries[r].state != Errored { } else { }
  }

  lemma SpacePausesOnly(s: State, r: Ref)
    requires Structure(s) && !s.closed && IsTracked(s, r) && IsActive(s.entries[r])
    ensures var s' := SpaceStops(s, r);
      && s'.torrents == s.torrents && |s'.entries| == |s.entries| && s'.entries == s.entries[r := s'.entries[r]]
      && (s' != s ==> s'.entries[r].paused)
  {
    hide EntryOk, OwnLib, NoDup;
  }
}
