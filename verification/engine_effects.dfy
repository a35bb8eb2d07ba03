/**
 What one event does to one entry, one library torrent and one row of the tables: the facts
 the theorems about runs are made of, each event unfolded once.
 */
module EngineEffects {
  import opened Wrappers
  import opened EngineState
  import opened EngineSteps
  import opened EngineInvariants
  import opened EngineProofs

  // ----- which event does what -----

  predicate Adds(ev: Event) {
    ev.EvAdd? || ev.EvAddURL? || ev.EvRestoreErrored?
  }

  /** The calls after which an entry may hold a slot that held none. */
  predicate Starts(ev: Event) {
    ev.EvPromote? || ev.EvResume?
  }

  /** The events that may open or shut a gate. */
  predicate Regates(ev: Event) {
    ev.EvShutGates? || ev.EvPublish? || ev.EvInfoAccepted? || ev.EvPause? || ev.EvPauseForShutdown? || Starts(ev)
    || ev.EvSeedStops? || ev.EvSpaceStops?
  }

  /** AddTorrentSpec hands an entry the torrent the client already holds for its infohash: isNew is false. */
  predicate Handed(s: State, ev: Event) {
    ev.EvAddTorrent? && ev.r < |s.entries| && s.entries[ev.r].phase.Joining? &&
      s.entries[ev.r].phase.spec.hash in s.client
  }

  predicate HandedTo(s: State, ev: Event, l: LibRef) {
    Handed(s, ev) && s.client[s.entries[ev.r].phase.spec.hash] == l
  }

  /** The clean-up or the refusal of entry q. */
  predicate Refuses(ev: Event, q: Ref) {
    (ev.EvRefuseMarks? || ev.EvCleanup?) && ev.r == q
  }

  /** The event has the client drop torrent l. */
  predicate Drops(s: State, ev: Event, l: LibRef) {
    match ev
    case EvMakeDrop(k) => k == l && l in s.drops
    case EvRefuse(r) => r < |s.entries| && s.entries[r].phase == Awaiting && s.entries[r].t == Some(l)
    case EvSetInfo(r, ok) =>
      r < |s.entries| && s.entries[r].phase.Shut? && s.entries[r].lib == Some(l) && !ok &&
        s.entries[r].phase.spec.info.Some?
    case _ => false
  }

  /**
   The event has the client asked, later, to drop torrent l: that of an entry it removes, or of one
   removed while it attached.
   */
  predicate Leaves(s: State, ev: Event, l: LibRef) {
    match ev
    case EvRemove(id, _, _) => !s.closed && Lookup(s, id).Some? && s.entries[Lookup(s, id).value].t == Some(l)
    case EvPublish(r) => r < |s.entries| && s.entries[r].phase.Joined? && s.entries[r].lib == Some(l) &&
        s.entries[r].removed
    case _ => false
  }

  // ----- one entry -----

  /** Its attach failed, or it was refused: it is to let go of its torrent. */
  predicate Fallen(e: Tracked) {
    e.phase.Failed? || e.phase.Refusing? || e.refused
  }

  /**
   An entry keeps its id, its destination, how it was added and what torrent it has; the infohash
   it records changes at most when its torrent is published, to that torrent's; refused it stays
   so, and is errored when it is refused.
   */
  predicate Goes(a: Tracked, b: Tracked) {
    && b.id == a.id && b.savePath == a.savePath && b.byHash == a.byHash
    && (a.lib.Some? ==> b.lib == a.lib) && (a.t.Some? ==> b.t == a.t)
    && (a.removed ==> b.removed)
    && (a.refused ==> b.refused) && (b.refused && !a.refused ==> b.state == Errored)
    && (a.byHash || b.t.None? || a.t.Some? ==> b.infoHash == a.infoHash)
    && (b.t.Some? && a.t.None? ==> HoldsSpec(a.phase) && b.infoHash == a.phase.spec.hash)
    && (b.spec.Some? ==> b.spec == a.spec)
    && (HoldsSpec(b.phase) ==> Had(a, b.phase.spec))
    && (a.phase.Refusing? ==> b.phase.Refusing? || b.refused)
  }

  /** The spec was the entry's own, or comes with its first attach. */
  predicate Had(a: Tracked, spec: Spec) {
    (HoldsSpec(a.phase) && a.phase.spec == spec) || (a.lib.None? && (a.spec == Some(spec) || a.phase.Fetching?))
  }

  /** The client still holds the torrent. */
  predicate Live(s: State, l: LibRef) {
    l < |s.libs| && s.libs[l].hash in s.client && s.client[s.libs[l].hash] == l
  }

  /**
   Entry a becoming e lets go of a torrent the client holds only if it was to already, shares it, or
   the engine closed.
   */
  predicate LetsGo(s': State, a: Tracked, e: Tracked) {
    Fallen(e) && !Fallen(a) && e.lib.Some? && Live(s', e.lib.value) ==> s'.closed || s'.libs[e.lib.value].shared
  }

  // ----- the effects -----

  predicate EntryEffect(s: State, ev: Event, s': State, q: Ref) {
    && (!Adds(ev) ==> |s'.entries| == |s.entries|)
    && (q < |s.entries| ==>
          && q < |s'.entries| && Goes(s.entries[q], s'.entries[q])
          && LetsGo(s', s.entries[q], s'.entries[q])
          && (IsTracked(s', q) ==> IsTracked(s, q))
          && (!Starts(ev) && IsActive(s'.entries[q]) ==> IsActive(s.entries[q]))
          && (!(ev.EvAddTorrent? && ev.r == q) ==> s'.entries[q].lib == s.entries[q].lib)
          && (!ev.EvPublish? ==> s'.entries[q].t == s.entries[q].t)
          && (!Refuses(ev, q) ==> s'.entries[q].refused == s.entries[q].refused)
          && (s'.entries[q].removed && !s.entries[q].removed ==> !IsTracked(s', q))
          && (HoldsSpec(s'.entries[q].phase) && !HoldsSpec(s.entries[q].phase) ==>
                Begins(s, ev, q, s'.entries[q].phase.spec))
          && Steps(ev, s.entries[q], s'.entries[q]))
  }

  /** Where an event may take an entry from its phase: one step along the attach, or nowhere. */
  predicate Steps(ev: Event, a: Tracked, b: Tracked) {
    b.phase == a.phase ||
    match a.phase
    case Parked =>
      ev.EvPromote? &&
      if a.url then b.phase == Fetching else a.spec.Some? && b.phase == Starting(ViaQueue, a.spec.value)
    case Fetching =>
      if ev.EvFetchClaims? && b.phase.Starting? then b.phase == Starting(ViaFetch, ev.spec)
      else b.phase == Ended && b.state == Errored
    case Starting(via, spec) => b.phase == Joining(via, spec, a.paused) || b.phase == Phase.Failed(via, spec.info)
    case Joining(via, spec, held) =>
      || b.phase == (if held then Added(via, spec) else Joined(via, spec, false))
      || b.phase == Phase.Failed(via, spec.info)
    case Added(via, spec) => b.phase == Shut(via, spec)
    case Shut(via, spec) => b.phase == Joined(via, spec, true) || b.phase == Phase.Failed(via, spec.info)
    case Joined(via, spec, _) =>
      ev.EvPublish? &&
      if a.removed then b.phase == Ended
      else (b.phase == Awaiting && b.t == a.lib && b.infoHash == spec.hash) || b.phase == Phase.Failed(via, spec.info)
    case Failed(via, _) =>
      b.phase == Ended && (via == ViaQueue ==> b.refused) &&
      (via == ViaFetch ==> b.state == Errored && b.refused == a.refused)
    case Awaiting =>
      || (b.phase.Waiting? && (a.state == Checking && !a.paused ==> b.state == Downloading))
      || b.phase.Refusing? || b.phase == Ended
    case Waiting(_) => b.phase == Wanted || b.phase == Ended
    case Refusing(_) => b.phase == Ended && b.refused
    case Wanted => false
    case Ended => false
  }

  lemma SamePhase(ev: Event, a: Tracked, b: Tracked)
    ensures b.phase == a.phase ==> Steps(ev, a, b)
  {
  }

  /** The attach of spec begins for entry q: its turn in the queue came, or its address was fetched. */
  predicate Begins(s: State, ev: Event, q: Ref, spec: Spec)
    requires q < |s.entries|
  {
    (IsTracked(s, q) && s.entries[q].spec == Some(spec)) || (ev.EvFetchClaims? && ev.r == q && ev.spec == spec)
  }

  predicate LibEffect(s: State, ev: Event, s': State, l: LibRef, h: string) {
    && (l < |s.libs| ==>
          && l < |s'.libs| && s'.libs[l].hash == s.libs[l].hash && s'.libs[l].creator == s.libs[l].creator
          && (s.libs[l].info.Some? ==> s'.libs[l].info == s.libs[l].info)
          && (s'.libs[l].shared <==> s.libs[l].shared || HandedTo(s, ev, l))
          && (!Regates(ev) ==> s'.libs[l].down == s.libs[l].down && s'.libs[l].up == s.libs[l].up)
          && (Live(s, l) ==> Live(s', l) || Drops(s, ev, l)))
    && (|s.libs| <= l < |s'.libs| ==>
          ev.EvAddTorrent? && s'.libs[l].creator == ev.r && !s'.libs[l].shared && Live(s', l))
    && (l in s'.drops ==> l in s.drops || Leaves(s, ev, l))
    && (h in s'.client ==>
          || (h in s.client && s'.client[h] == s.client[h])
          || (ev.EvAddTorrent? && s'.client[h] == |s.libs| && |s'.libs| == |s.libs| + 1 && s'.libs[|s.libs|].hash == h))
    && (!ev.EvAddTorrent? ==> |s'.libs| == |s.libs|)
  }

  predicate TableEffect(s: State, ev: Event, s': State, id: Id, k: nat) {
    && s.nextDelete <= s'.nextDelete && (s.closed ==> s'.closed) && s'.maxActive == s.maxActive
    && (!Adds(ev) && id in s'.torrents ==> id in s.torrents && s'.torrents[id] == s.torrents[id])
    && (!ev.EvRemove? ==>
          && (k in s'.deleting <==> k in s.deleting && ev != EvEndDelete(k))
          && (k in s'.deleting ==> s'.deleting[k] == s.deleting[k]))
  }

  /** An entry, a library torrent, an infohash, an id and a delete to look at. */
  datatype At = At(q: Ref, l: LibRef, h: string, id: Id, k: nat)

  predicate Effect(s: State, ev: Event, at: At) {
    var s' := Apply(s, ev);
    EntryEffect(s, ev, s', at.q) && LibEffect(s, ev, s', at.l, at.h) && TableEffect(s, ev, s', at.id, at.k)
  }

  // ----- the shapes an event takes -----

  /**
   The client, and its torrents but for what is learnt of them and, when it may regate, for their
   gates, are as they were.
   */
  ghost predicate SameLibs(s: State, s': State, regates: bool) {
    && s'.client == s.client && s'.drops == s.drops && |s'.libs| == |s.libs|
    && forall l | 0 <= l < |s.libs| :: SameLib(s.libs[l], s'.libs[l], regates)
  }

  predicate SameLib(a: Torrent, b: Torrent, regates: bool) {
    && b.hash == a.hash && b.creator == a.creator && b.shared == a.shared
    && (a.info.Some? ==> b.info == a.info) && (regates || (b.down == a.down && b.up == a.up))
  }

  ghost predicate SameTables(s: State, s': State) {
    && s'.nextDelete == s.nextDelete && s'.closed == s.closed && s'.maxActive == s.maxActive
    && s'.deleting == s.deleting
    && forall id | id in s'.torrents :: id in s.torrents && s'.torrents[id] == s.torrents[id]
  }

  /** Entry r moves to e, the gates of the library and the queue with it. */
  ghost predicate Moved(s: State, s': State, r: Ref, e: Tracked, regates: bool) {
    r < |s.entries| && s'.entries == s.entries[r := e] && SameLibs(s, s', regates) && SameTables(s, s')
  }

  /** What is asked of the move. */
  predicate MoveOk(s: State, ev: Event, r: Ref, e: Tracked)
    requires r < |s.entries|
  {
    var a := s.entries[r];
    && Goes(a, e) && e.lib == a.lib && (ev.EvPublish? || e.t == a.t) && (Refuses(ev, r) || e.refused == a.refused)
    && (Fallen(e) ==> Fallen(a) || s.closed || e.lib.None? || (e.lib.value < |s.libs| && s.libs[e.lib.value].shared))
    && (IsActive(e) ==> IsActive(a) || Starts(ev))
    && e.removed == a.removed
    && (HoldsSpec(e.phase) ==> HoldsSpec(a.phase) || Begins(s, ev, r, e.phase.spec))
    && Steps(ev, a, e)
  }

  lemma GateMoved(s: State, r: Ref, e: Tracked, t: Option<LibRef>, down: bool, up: bool)
    requires r < |s.entries|
    ensures Moved(s, Gate(Put(s, r, e), t, down, up), r, e, true)
  {
  }

  lemma PutMoved(s: State, r: Ref, e: Tracked)
    requires r < |s.entries|
    ensures forall regates :: Moved(s, Put(s, r, e), r, e, regates)
  {
  }

  lemma MovedEntry(s: State, ev: Event, s': State, r: Ref, e: Tracked, q: Ref)
    requires Moved(s, s'.(drops := s.drops), r, e, Regates(ev)) && MoveOk(s, ev, r, e)
    ensures EntryEffect(s, ev, s', q)
  {
    hide Steps;
    if q < |s.entries| && q != r {
      GoesSelf(s.entries[q]);
      SamePhase(ev, s.entries[q], s.entries[q]);
    }
  }

  lemma MovedLib(s: State, ev: Event, s': State, l: LibRef, h: string)
    requires SameLibs(s, s'.(drops := s.drops), Regates(ev)) && !Handed(s, ev)
    requires l in s'.drops ==> l in s.drops || Leaves(s, ev, l)
    ensures LibEffect(s, ev, s', l, h)
  {
  }

  lemma MovedTables(s: State, ev: Event, s': State, id: Id, k: nat)
    requires SameTables(s, s') && !ev.EvEndDelete?
    ensures TableEffect(s, ev, s', id, k)
  {
  }

  lemma MovedEffect(s: State, ev: Event, r: Ref, e: Tracked, at: At)
    requires Moved(s, Apply(s, ev), r, e, Regates(ev)) && MoveOk(s, ev, r, e) && !Handed(s, ev)
    requires !ev.EvEndDelete?
    ensures Effect(s, ev, at)
  {
    hide Apply, MoveOk, EntryEffect, LibEffect, TableEffect, SameTables;
    var s' := Apply(s, ev);
    assert s'.(drops := s.drops) == s';
    MovedEntry(s, ev, s', r, e, at.q);
    MovedLib(s, ev, s', at.l, at.h);
    MovedTables(s, ev, s', at.id, at.k);
  }

  lemma GoesSelf(a: Tracked)
    ensures Goes(a, a)
  {
  }

  /** No entry moves. */
  lemma StillEntry(s: State, ev: Event, s': State, q: Ref)
    requires s'.entries == s.entries && SameTables(s, s')
    ensures EntryEffect(s, ev, s', q)
  {
    hide Steps;
    if q < |s.entries| {
      GoesSelf(s.entries[q]);
      SamePhase(ev, s.entries[q], s.entries[q]);
    }
  }

  lemma StillEffect(s: State, ev: Event, at: At)
    requires Apply(s, ev).entries == s.entries && SameLibs(s, Apply(s, ev), Regates(ev)) &&
      SameTables(s, Apply(s, ev)) && !Handed(s, ev)
    requires !ev.EvEndDelete?
    ensures Effect(s, ev, at)
  {
    hide Apply, EntryEffect, LibEffect, TableEffect, SameTables;
    var s' := Apply(s, ev);
    assert s'.(drops := s.drops) == s';
    StillEntry(s, ev, s', at.q);
    MovedLib(s, ev, s', at.l, at.h);
    MovedTables(s, ev, s', at.id, at.k);
  }

  lemma NothingEffect(s: State, ev: Event, at: At)
    requires Apply(s, ev) == s && !Handed(s, ev)
    requires !ev.EvEndDelete?
    ensures Effect(s, ev, at)
  {
    hide Apply, Effect;
    StillEffect(s, ev, at);
  }

  // ----- attaching -----

  lemma ClaimMoved(s: State, r: Ref, spec: Spec, refused: seq<Id>)
    requires r < |s.entries|
    ensures var e := s.entries[r].(phase := Starting(ViaFetch, spec));
      Moved(s, Put(UntrackAll(s, refused), r, e), r, e, false)
  {
    UntrackAllEffect(s, refused);
  }

  /** A fetch that failed, or was answered by a claim. */
  lemma FetchEndsEffect(s: State, ev: Event, r: Ref, at: At)
    requires r < |s.entries| && s.entries[r].phase == Fetching && EntryOk(s, s.entries[r])
    requires Apply(s, ev) == Put(s, r, FailEntry(s.entries[r]).(phase := Ended))
    requires !ev.EvAddTorrent? && !ev.EvEndDelete?
    ensures Effect(s, ev, at)
  {
    hide Effect, Apply;
    var e := FailEntry(s.entries[r]).(phase := Ended);
    PutMoved(s, r, e);
    MovedEffect(s, ev, r, e, at);
  }

  lemma FetchFailsEffect(s: State, r: Ref, at: At)
    requires Inv(s)
    ensures Effect(s, EvFetchFails(r), at)
  {
    hide Inv, Effect, GateOk, FlagsOk;
    if r < |s.entries| && s.entries[r].phase == Fetching {
      LocalOf(s, r);
      FetchEndsEffect(s, EvFetchFails(r), r, at);
    } else {
      NothingEffect(s, EvFetchFails(r), at);
    }
  }

  lemma ClaimedEffect(s: State, ev: Event, r: Ref, spec: Spec, refused: seq<Id>, at: At)
    requires r < |s.entries| && s.entries[r].phase == Fetching && EntryOk(s, s.entries[r])
    requires ev.EvFetchClaims? && ev.r == r && ev.spec == spec
    requires Apply(s, ev) == Put(UntrackAll(s, refused), r, s.entries[r].(phase := Starting(ViaFetch, spec)))
    ensures Effect(s, ev, at)
  {
    hide Effect, Apply, Moved, UntrackAll;
    ClaimMoved(s, r, spec, refused);
    MovedEffect(s, ev, r, s.entries[r].(phase := Starting(ViaFetch, spec)), at);
  }

  lemma FetchClaimsEffect(s: State, r: Ref, spec: Spec, view: LeftView, at: At)
    requires Inv(s)
    ensures Effect(s, EvFetchClaims(r, spec, view), at)
  {
    hide Inv, Effect, DecideClaim, UntrackAll, GateOk, FlagsOk;
    var ev := EvFetchClaims(r, spec, view);
    if spec.hash != "" && r < |s.entries| && s.entries[r].phase == Fetching {
      LocalOf(s, r);
      match DecideClaim(s, spec.hash, Some(r), s.entries[r].savePath, view)
      case ClaimClear(refused) => ClaimedEffect(s, ev, r, spec, refused, at);
      case ClaimExisting(_) => FetchEndsEffect(s, ev, r, at);
      case ClaimLeftData(_, _) => FetchEndsEffect(s, ev, r, at);
    } else {
      NothingEffect(s, ev, at);
    }
  }

  lemma ReadHeldEffect(s: State, r: Ref, at: At)
    ensures Effect(s, EvReadHeld(r), at)
  {
    hide Effect;
    if r < |s.entries| && s.entries[r].phase.Starting? {
      var e := s.entries[r];
      var e1 := e.(phase := Joining(e.phase.via, e.phase.spec, e.paused));
      PutMoved(s, r, e1);
      MovedEffect(s, EvReadHeld(r), r, e1, at);
    } else {
      NothingEffect(s, EvReadHeld(r), at);
    }
  }

  lemma AttachFailsEffect(s: State, r: Ref, at: At)
    requires Inv(s)
    ensures Effect(s, EvAttachFails(r), at)
  {
    hide Inv, Effect;
    if r < |s.entries| && (s.entries[r].phase.Starting? || s.entries[r].phase.Joining?) {
      LocalOf(s, r);
      var e := s.entries[r];
      var e1 := e.(phase := Failed(e.phase.via, e.phase.spec.info));
      PutMoved(s, r, e1);
      MovedEffect(s, EvAttachFails(r), r, e1, at);
    } else {
      NothingEffect(s, EvAttachFails(r), at);
    }
  }

  lemma ShutGatesEffect(s: State, r: Ref, at: At)
    ensures Effect(s, EvShutGates(r), at)
  {
    hide Effect;
    if r < |s.entries| && s.entries[r].phase.Added? {
      var e := s.entries[r];
      var e1 := e.(phase := Shut(e.phase.via, e.phase.spec));
      GateMoved(s, r, e1, e.lib, false, false);
      MovedEffect(s, EvShutGates(r), r, e1, at);
    } else {
      NothingEffect(s, EvShutGates(r), at);
    }
  }

  lemma PublishEffect(s: State, r: Ref, at: At)
    requires Inv(s)
    ensures Effect(s, EvPublish(r), at)
  {
    hide Inv, Effect;
    var ev := EvPublish(r);
    if r < |s.entries| && s.entries[r].phase.Joined? {
      LocalOf(s, r);
      var e := s.entries[r];
      if e.removed {
        LeftEffect(s, r, at);
      } else if s.closed {
        PutMoved(s, r, e.(phase := Failed(e.phase.via, e.phase.spec.info)));
        MovedEffect(s, ev, r, e.(phase := Failed(e.phase.via, e.phase.spec.info)), at);
      } else {
        PublishedEffect(s, r, at);
      }
    } else {
      NothingEffect(s, ev, at);
    }
  }

  /** Removed while it attached: its torrent is to be dropped. */
  lemma LeftEffect(s: State, r: Ref, at: At)
    requires r < |s.entries| && s.entries[r].phase.Joined? && s.entries[r].removed && s.entries[r].lib.Some?
    ensures Effect(s, EvPublish(r), at)
  {
    hide EntryEffect, LibEffect, TableEffect;
    var ev, e := EvPublish(r), s.entries[r].(phase := Ended);
    var s' := Apply(s, ev);
    PutMoved(s, r, e);
    assert s'.(drops := s.drops) == Put(s, r, e);
    MovedEntry(s, ev, s', r, e, at.q);
    MovedLib(s, ev, s', at.l, at.h);
    MovedTables(s, ev, s', at.id, at.k);
  }

  lemma PublishedEffect(s: State, r: Ref, at: At)
    requires r < |s.entries| && s.entries[r].phase.Joined? && !s.entries[r].removed && !s.closed && Local(s, r)
    ensures Effect(s, EvPublish(r), at)
  {
    hide Effect, Moved, GateOk;
    var e := s.entries[r];
    var e1 := e.(infoHash := e.phase.spec.hash, t := e.lib, phase := Awaiting);
    PutMoved(s, r, e1);
    GateMoved(s, r, e1, e.lib, false, false);
    GateMoved(s, r, e1, e.lib, true, true);
    MovedEffect(s, EvPublish(r), r, e1, at);
  }

  lemma LearnMoved(s: State, r: Ref, e: Tracked, l: LibRef, info: Option<string>)
    requires r < |s.entries|
    ensures Moved(s, Learn(Put(s, r, e), l, info), r, e, false)
  {
  }

  // ----- dropping -----

  ghost predicate Dropped(s: State, s': State, k: LibRef) {
    s'.libs == Drop(s, k).libs && s'.client == Drop(s, k).client && forall l | l in s'.drops :: l in s.drops
  }

  lemma DroppedLib(s: State, ev: Event, s': State, k: LibRef, l: LibRef, h: string)
    requires k < |s.libs| && Dropped(s, s', k) && Drops(s, ev, k)
    ensures LibEffect(s, ev, s', l, h)
  {
  }

  lemma DroppedEntry(s: State, ev: Event, s': State, r: Ref, e: Tracked, k: LibRef, q: Ref)
    requires r < |s.entries| && s'.entries == s.entries[r := e] && SameTables(s, s')
    requires k < |s.libs| && Dropped(s, s', k) && e.lib == Some(k) && s.entries[r].lib == e.lib
    requires Goes(s.entries[r], e) && e.t == s.entries[r].t && e.refused == s.entries[r].refused &&
      e.removed == s.entries[r].removed
    requires !HoldsSpec(e.phase) && (IsActive(e) ==> IsActive(s.entries[r])) && Steps(ev, s.entries[r], e)
    ensures EntryEffect(s, ev, s', q)
  {
    assert !Live(s', k);
    hide Steps, Goes, Live, HoldsSpec, IsActive;
    if q < |s.entries| && q != r {
      GoesSelf(s.entries[q]);
      SamePhase(ev, s.entries[q], s.entries[q]);
    }
  }

  lemma DroppedEffect(s: State, ev: Event, r: Ref, e: Tracked, k: LibRef, at: At)
    requires r < |s.entries| && k < |s.libs| && Apply(s, ev) == Drop(Put(s, r, e), k) && Drops(s, ev, k)
    requires e.lib == Some(k) && s.entries[r].lib == e.lib && e == s.entries[r].(phase := e.phase)
    requires Goes(s.entries[r], e) && !HoldsSpec(e.phase) && Steps(ev, s.entries[r], e)
    ensures Effect(s, ev, at)
  {
    hide Apply, EntryEffect, LibEffect, TableEffect, Goes;
    var s' := Apply(s, ev);
    assert Dropped(s, s', k) && s'.entries == s.entries[r := e] && SameTables(s, s');
    DroppedEntry(s, ev, s', r, e, k, at.q);
    DroppedLib(s, ev, s', k, at.l, at.h);
    MovedTables(s, ev, s', at.id, at.k);
  }

  lemma SetInfoEffect(s: State, r: Ref, ok: bool, at: At)
    requires Inv(s)
    ensures Effect(s, EvSetInfo(r, ok), at)
  {
    hide Inv, Effect;
    var ev := EvSetInfo(r, ok);
    if r < |s.entries| && s.entries[r].phase.Shut? {
      LocalOf(s, r);
      var e := s.entries[r];
      if ok || e.phase.spec.info.None? {
        var e1 := e.(phase := Joined(e.phase.via, e.phase.spec, true));
        LearnMoved(s, r, e1, e.lib.value, e.phase.spec.info);
        MovedEffect(s, ev, r, e1, at);
      } else {
        SetInfoFailsEffect(s, r, at);
      }
    } else {
      NothingEffect(s, ev, at);
    }
  }

  /** Unless the torrent was handed to it, in which case it was shared. */
  lemma SetInfoFailsEffect(s: State, r: Ref, at: At)
    requires r < |s.entries| && s.entries[r].phase.Shut? && s.entries[r].phase.spec.info.Some? && Local(s, r) &&
      OwnLib(s, r)
    ensures Effect(s, EvSetInfo(r, false), at)
  {
    hide Effect, GateOk;
    var e, k := s.entries[r], s.entries[r].lib.value;
    var e1 := e.(phase := Failed(e.phase.via, e.phase.spec.info));
    if s.libs[k].creator == r {
      DroppedEffect(s, EvSetInfo(r, false), r, e1, k, at);
    } else {
      PutMoved(s, r, e1);
      MovedEffect(s, EvSetInfo(r, false), r, e1, at);
    }
  }

  lemma RefuseEffect(s: State, r: Ref, at: At)
    requires Inv(s)
    ensures Effect(s, EvRefuse(r), at)
  {
    hide Inv, Effect;
    if r < |s.entries| && s.entries[r].phase == Awaiting && s.entries[r].t.Some? {
      LocalOf(s, r);
      var e := s.entries[r];
      DroppedEffect(s, EvRefuse(r), r, e.(phase := Refusing(InfoOf(s, e.t.value))), e.t.value, at);
    } else {
      NothingEffect(s, EvRefuse(r), at);
    }
  }

  lemma MakeDropEffect(s: State, k: LibRef, at: At)
    ensures Effect(s, EvMakeDrop(k), at)
  {
    hide EntryEffect, LibEffect, TableEffect;
    var ev := EvMakeDrop(k);
    if k in s.drops && k < |s.libs| {
      var s' := Apply(s, ev);
      StillEntry(s, ev, s', at.q);
      DroppedLib(s, ev, s', k, at.l, at.h);
      MovedTables(s, ev, s', at.id, at.k);
    } else {
      StillEntry(s, ev, Apply(s, ev), at.q);
      MovedLib(s, ev, Apply(s, ev), at.l, at.h);
      MovedTables(s, ev, Apply(s, ev), at.id, at.k);
    }
  }

  // ----- refusing -----

  lemma MarkedEffect(s: State, ev: Event, r: Ref, left: string, dirs: map<string, DirMatch>, at: At)
    requires r < |s.entries|
    requires s.entries[r].phase.Refusing? || (s.entries[r].phase.Failed? && s.entries[r].phase.via == ViaQueue)
    requires Apply(s, ev) == MarkRefused(s, r, left, dirs) && Refuses(ev, r)
    ensures Effect(s, ev, at)
  {
    hide Effect, Apply, KeepLeft;
    var e := s.entries[r];
    var kept := KeepLeft(s, Some(r), e.savePath, left, dirs);
    var e1 := FailEntry(e).(refused := true, leftName := kept.leftName, sharedName := kept.sharedName, phase := Ended);
    assert Moved(s, Apply(s, ev), r, e1, false);
    MovedEffect(s, ev, r, e1, at);
  }

  lemma RefuseMarksEffect(s: State, r: Ref, left: string, dirs: map<string, DirMatch>, at: At)
    ensures Effect(s, EvRefuseMarks(r, left, dirs), at)
  {
    hide Effect, MarkRefused;
    var ev := EvRefuseMarks(r, left, dirs);
    if r < |s.entries| && s.entries[r].phase.Refusing? {
      MarkedEffect(s, ev, r, LeftName(s.entries[r].phase.info, left), dirs, at);
    } else {
      NothingEffect(s, ev, at);
    }
  }

  lemma UntrackMoved(s: State, r: Ref, e: Tracked, id: Id)
    requires r < |s.entries|
    ensures Moved(s, Untrack(Put(s, r, e), id), r, e, false)
  {
  }

  lemma EndedOk(s: State, ev: Event, r: Ref)
    requires r < |s.entries| && s.entries[r].phase.Failed? && s.entries[r].phase.via == ViaAdd
    ensures MoveOk(s, ev, r, s.entries[r].(phase := Ended))
  {
    hide Steps;
    EndsFailed(ev, s.entries[r]);
  }

  lemma EndsFailed(ev: Event, a: Tracked)
    requires a.phase.Failed? && a.phase.via == ViaAdd
    ensures Steps(ev, a, a.(phase := Ended))
  {
  }

  lemma FailedOk(s: State, ev: Event, r: Ref)
    requires r < |s.entries| && s.entries[r].phase.Failed? && s.entries[r].phase.via == ViaFetch
    ensures MoveOk(s, ev, r, FailEntry(s.entries[r]).(phase := Ended))
  {
  }

  lemma CleanupEffect(s: State, r: Ref, left: string, dirs: map<string, DirMatch>, at: At)
    ensures Effect(s, EvCleanup(r, left, dirs), at)
  {
    hide Effect, MarkRefused, Moved, Untrack, MoveOk, LeftName;
    var ev := EvCleanup(r, left, dirs);
    if r < |s.entries| && s.entries[r].phase.Failed? {
      var e := s.entries[r];
      match e.phase.via
      case ViaAdd =>
        PutMoved(s, r, e.(phase := Ended));
        UntrackMoved(s, r, e.(phase := Ended), e.id);
        EndedOk(s, ev, r);
        MovedEffect(s, ev, r, e.(phase := Ended), at);
      case ViaQueue => MarkedEffect(s, ev, r, LeftName(e.phase.info, left), dirs, at);
      case ViaFetch =>
        PutMoved(s, r, FailEntry(e).(phase := Ended));
        FailedOk(s, ev, r);
        MovedEffect(s, ev, r, FailEntry(e).(phase := Ended), at);
    } else {
      NothingEffect(s, ev, at);
    }
  }

  // ----- waiting for info and deletes -----

  lemma LearnStill(s: State, l: LibRef, info: Option<string>)
    ensures var s' := Learn(s, l, info); s'.entries == s.entries && SameLibs(s, s', false) && SameTables(s, s')
  {
  }

  lemma InfoArrivesEffect(s: State, l: LibRef, name: string, at: At)
    ensures Effect(s, EvInfoArrives(l, name), at)
  {
    hide Effect, SameLibs, SameTables, Learn;
    if l < |s.libs| && !s.libs[l].dropped {
      LearnStill(s, l, Some(name));
      StillEffect(s, EvInfoArrives(l, name), at);
    } else {
      NothingEffect(s, EvInfoArrives(l, name), at);
    }
  }

  lemma InfoAcceptedEffect(s: State, r: Ref, at: At)
    ensures Effect(s, EvInfoAccepted(r), at)
  {
    hide Effect, Gate, Put;
    if r < |s.entries| && s.entries[r].phase == Awaiting && s.entries[r].t.Some? &&
        InfoOf(s, s.entries[r].t.value).Some? {
      var e := s.entries[r];
      var e1 := e.(phase := Waiting(InfoOf(s, e.t.value).value));
      if e.state == Queued {
        AcceptedEffect(s, r, e1, true, at);
      } else if e.paused {
        AcceptedEffect(s, r, e1.(prePause := Downloading), true, at);
      } else if e.state == Checking {
        AcceptedEffect(s, r, e1.(state := Downloading), false, at);
      } else {
        AcceptedEffect(s, r, e1, false, at);
      }
    } else {
      NothingEffect(s, EvInfoAccepted(r), at);
    }
  }

  lemma AcceptedEffect(s: State, r: Ref, e: Tracked, shut: bool, at: At)
    requires r < |s.entries| && s.entries[r].phase == Awaiting && e.phase.Waiting?
    requires e == s.entries[r].(phase := e.phase, prePause := e.prePause, state := e.state)
    requires e.state == s.entries[r].state || (s.entries[r].state == Checking && e.state == Downloading)
    requires s.entries[r].state == Checking && !s.entries[r].paused ==> e.state == Downloading
    requires InfoAccepted(s, r) == if shut then Gate(Put(s, r, e), s.entries[r].t, false, false) else Put(s, r, e)
    ensures Effect(s, EvInfoAccepted(r), at)
  {
    hide Effect, Moved, MoveOk, InfoAccepted, Gate, Put;
    AcceptedOk(s, r, e);
    GateMoved(s, r, e, s.entries[r].t, false, false);
    PutMoved(s, r, e);
    MovedEffect(s, EvInfoAccepted(r), r, e, at);
  }

  /** The phase moves on, and with it the state or the state to come back to. */
  lemma AcceptedOk(s: State, r: Ref, e: Tracked)
    requires r < |s.entries| && s.entries[r].phase == Awaiting && e.phase.Waiting?
    requires e == s.entries[r].(phase := e.phase, prePause := e.prePause, state := e.state)
    requires e.state == s.entries[r].state || (s.entries[r].state == Checking && e.state == Downloading)
    requires s.entries[r].state == Checking && !s.entries[r].paused ==> e.state == Downloading
    ensures MoveOk(s, EvInfoAccepted(r), r, e)
  {
  }

  lemma PassDeletesEffect(s: State, r: Ref, at: At)
    ensures Effect(s, EvPassDeletes(r), at)
  {
    hide Effect, Covered;
    var ev := EvPassDeletes(r);
    if r < |s.entries| && s.entries[r].phase.Waiting? && !Covered(s, s.entries[r].phase.name) {
      var e := s.entries[r].(phase := Wanted);
      PutMoved(s, r, e);
      MovedEffect(s, ev, r, e, at);
    } else {
      NothingEffect(s, ev, at);
    }
  }

  lemma QuitEffect(s: State, r: Ref, at: At)
    ensures Effect(s, EvQuit(r), at)
  {
    hide Effect;
    var ev := EvQuit(r);
    if r < |s.entries| && (s.entries[r].phase == Awaiting || s.entries[r].phase.Waiting?) &&
        (s.closed || s.entries[r].removed) {
      var e := s.entries[r].(phase := Ended);
      PutMoved(s, r, e);
      MovedEffect(s, ev, r, e, at);
    } else {
      NothingEffect(s, ev, at);
    }
  }

  lemma TablesStill(s: State, ev: Event, at: At)
    requires (ev.EvEndDelete? || ev.EvClose? || ev.EvMoveInQueue?)
    ensures Effect(s, ev, at)
  {
    hide Goes, Steps;
    if at.q < |s.entries| {
      GoesSelf(s.entries[at.q]);
      SamePhase(ev, s.entries[at.q], s.entries[at.q]);
    }
  }

  // ----- removing -----

  lemma RemovedShape(s: State, id: Id, deleteData: bool, dirs: map<string, DirMatch>)
    requires !s.closed && Lookup(s, id).Some?
    ensures var r, s' := Lookup(s, id).value, Remove(s, id, deleteData, dirs);
      && s'.entries == s.entries[r := s.entries[r].(removed := true)] && s'.libs == s.libs && s'.client == s.client
      && s'.drops == (if s.entries[r].t.Some? then s.drops + {s.entries[r].t.value} else s.drops)
      && s'.torrents == s.torrents - {id} && s'.closed == s.closed && s'.maxActive == s.maxActive
      && s.nextDelete <= s'.nextDelete
  {
    hide RemoveTarget;
  }

  lemma RemovedEntry(s: State, ev: Event, s': State, r: Ref, id: Id, q: Ref)
    requires r < |s.entries| && s'.entries == s.entries[r := s.entries[r].(removed := true)] &&
      s'.torrents == s.torrents - {id}
    requires s.entries[r].id == id
    ensures EntryEffect(s, ev, s', q)
  {
    hide Steps;
    if q < |s.entries| { SamePhase(ev, s.entries[q], s'.entries[q]); }
  }

  lemma RemoveEffect(s: State, id: Id, deleteData: bool, dirs: map<string, DirMatch>, at: At)
    requires Inv(s)
    ensures Effect(s, EvRemove(id, deleteData, dirs), at)
  {
    hide Inv, Remove, EntryEffect, LibEffect;
    var ev := EvRemove(id, deleteData, dirs);
    if s.closed || Lookup(s, id).None? {
      RemoveNothing(s, id, deleteData, dirs);
      NothingEffect(s, ev, at);
    } else {
      TrackedOf(s, id);
      RemovedShape(s, id, deleteData, dirs);
      RemovedEntry(s, ev, Apply(s, ev), Lookup(s, id).value, id, at.q);
      MovedLib(s, ev, Apply(s, ev), at.l, at.h);
    }
  }

  lemma RemoveNothing(s: State, id: Id, deleteData: bool, dirs: map<string, DirMatch>)
    requires s.closed || Lookup(s, id).None?
    ensures Remove(s, id, deleteData, dirs) == s
  {
  }

  // ----- pausing and resuming -----

  lemma PausedHow(a: Tracked, byUser: bool)
    ensures var b := PausedEntry(a, byUser);
      && b.phase == a.phase && b.refused == a.refused && b.lib == a.lib && b.t == a.t && b.removed == a.removed
      && b.paused && Fallen(b) == Fallen(a) && HoldsSpec(b.phase) == HoldsSpec(a.phase)
  {
    if a.state != Errored { } else { }
  }

  lemma PausedOk(s: State, ev: Event, r: Ref, byUser: bool)
    requires r < |s.entries|
    ensures MoveOk(s, ev, r, PausedEntry(s.entries[r], byUser))
  {
    hide Goes, Steps, Fallen, HoldsSpec;
    PausedGoes(s.entries[r], byUser);
    SamePhase(ev, s.entries[r], PausedEntry(s.entries[r], byUser));
    PausedHow(s.entries[r], byUser);
  }

  lemma PausedGoes(a: Tracked, byUser: bool)
    ensures Goes(a, PausedEntry(a, byUser))
  {
    if a.state != Errored { } else { }
  }

  lemma PausedMoved(s: State, r: Ref, byUser: bool)
    requires r < |s.entries|
    ensures Moved(s, PauseEntry(s, r, byUser), r, PausedEntry(s.entries[r], byUser), true)
  {
    hide PausedEntry, Moved;
    var e := PausedEntry(s.entries[r], byUser);
    GateMoved(s, r, e, s.entries[r].t, false, false);
    MovedQueue(s, Gate(Put(s, r, e), s.entries[r].t, false, false), r, e, RemoveFirst(s.queue, s.entries[r].id));
  }

  lemma MovedQueue(s: State, s': State, r: Ref, e: Tracked, queue: seq<Id>)
    requires Moved(s, s', r, e, true)
    ensures Moved(s, s'.(queue := queue), r, e, true)
  {
  }

  lemma PauseEffect(s: State, id: Id, at: At)
    ensures Effect(s, EvPause(id), at)
  {
    hide Effect, Moved, MoveOk, PauseEntry, PausedEntry;
    var ev := EvPause(id);
    if s.closed || Lookup(s, id).None? || s.entries[Lookup(s, id).value].paused {
      NothingEffect(s, ev, at);
    } else {
      var r := Lookup(s, id).value;
      PausedMoved(s, r, true);
      PausedOk(s, ev, r, true);
      MovedEffect(s, ev, r, PausedEntry(s.entries[r], true), at);
    }
  }

  /** Pauses change nothing of an entry that later steps go by. */
  predicate Pauses(a: Tracked, b: Tracked) {
    && b.id == a.id && b.savePath == a.savePath && b.infoHash == a.infoHash && b.byHash == a.byHash
    && b.removed == a.removed
    && b.refused == a.refused && b.spec == a.spec && b.t == a.t && b.lib == a.lib && b.phase == a.phase
    && (IsActive(b) ==> IsActive(a))
  }

  ghost predicate AllPause(s: State, s': State, q: Ref) {
    && |s'.entries| == |s.entries| && (q < |s.entries| ==> Pauses(s.entries[q], s'.entries[q]))
    && s'.torrents == s.torrents && s'.deleting == s.deleting && s'.nextDelete == s.nextDelete && s'.closed == s.closed
    && s'.maxActive == s.maxActive && s'.drops == s.drops && SameLibs(s, s', true)
  }

  lemma PausesOne(s: State, r: Ref, q: Ref)
    requires r < |s.entries|
    ensures AllPause(s, PauseEntry(s, r, false), q)
  {
    hide SameLibs;
    var e, s' := PausedEntry(s.entries[r], false), PauseEntry(s, r, false);
    PausedMoved(s, r, false);
    assert s'.entries == s.entries[r := e] && Pauses(s.entries[r], e);
    if q < |s.entries| && q != r { assert s'.entries[q] == s.entries[q]; }
  }

  lemma SameLibsTwice(s: State, s1: State, s2: State)
    requires SameLibs(s, s1, true) && SameLibs(s1, s2, true)
    ensures SameLibs(s, s2, true)
  {
  }

  lemma AllPauseTwice(s: State, s1: State, s2: State, q: Ref)
    requires AllPause(s, s1, q) && AllPause(s1, s2, q)
    ensures AllPause(s, s2, q)
  {
    hide SameLibs;
    SameLibsTwice(s, s1, s2);
  }

  lemma {:induction false} PauseAllShape(s: State, ids: seq<Id>, q: Ref)
    ensures AllPause(s, PauseAll(s, ids), q)
    decreases |ids|
  {
    if ids == [] {
    } else {
      hide AllPause, PauseEntry;
      var l := Lookup(s, ids[0]);
      if l.Some? && !s.entries[l.value].paused {
        var s1 := PauseEntry(s, l.value, false);
        PausesOne(s, l.value, q);
        PauseAllShape(s1, ids[1..], q);
        AllPauseTwice(s, s1, PauseAll(s1, ids[1..]), q);
      } else {
        PauseAllShape(s, ids[1..], q);
      }
    }
  }

  lemma AllPauseEntry(s: State, ev: Event, s': State, q: Ref)
    requires AllPause(s, s', q)
    ensures EntryEffect(s, ev, s', q)
  {
  }

  lemma PauseForShutdownEffect(s: State, at: At)
    ensures Effect(s, EvPauseForShutdown, at)
  {
    hide EntryEffect, LibEffect, TableEffect, PauseAll, SameLibs;
    var ev := EvPauseForShutdown;
    if s.closed {
      NothingEffect(s, ev, at);
    } else {
      PauseAllShape(s, s.order, at.q);
      assert Apply(s, ev).(drops := s.drops) == Apply(s, ev);
      AllPauseEntry(s, ev, Apply(s, ev), at.q);
      MovedLib(s, ev, Apply(s, ev), at.l, at.h);
      MovedTables(s, ev, Apply(s, ev), at.id, at.k);
    }
  }

  lemma ResumedGoes(a: Tracked)
    ensures Goes(a, ResumedEntry(a))
  {
    if a.spacePaused { } else if a.seedDone && a.state != Errored { } else if a.state == Paused { } else { }
  }

  lemma QueuedGoes(a: Tracked, b: Tracked)
    requires Goes(a, b) && b.refused == a.refused
    ensures Goes(a, b.(state := Queued))
  {
  }

  lemma ResumedKeeps(a: Tracked)
    ensures var e := ResumedEntry(a);
      e.t == a.t && e.lib == a.lib && e.refused == a.refused && e.removed == a.removed && e.phase == a.phase
  {
    if a.spacePaused { } else if a.seedDone && a.state != Errored { } else if a.state == Paused { } else { }
  }

  lemma ResumedOk(s: State, ev: Event, r: Ref)
    requires r < |s.entries| && ev.EvResume?
    ensures MoveOk(s, ev, r, ResumedEntry(s.entries[r])) &&
      MoveOk(s, ev, r, ResumedEntry(s.entries[r]).(state := Queued))
  {
    hide Goes, ResumedEntry;
    var a := s.entries[r];
    ResumedGoes(a);
    ResumedKeeps(a);
    QueuedGoes(a, ResumedEntry(a));
  }

  lemma ResumedMoved(s: State, r: Ref)
    requires IsTracked(s, r) && s.entries[r].paused && !s.closed
    ensures var e, s' := ResumedEntry(s.entries[r]), Resume(s, s.entries[r].id);
      Moved(s, s', r, e, true) || Moved(s, s', r, e.(state := Queued), true)
  {
    hide Resume, ResumedEntry, Startable;
    var e := ResumedEntry(s.entries[r]);
    ResumeUnfolds(s, r, e);
    GateMoved(s, r, e, e.t, true, true);
  }

  lemma ResumeEffect(s: State, id: Id, at: At)
    requires Inv(s)
    ensures Effect(s, EvResume(id), at)
  {
    hide Inv, Effect, Moved, MoveOk, ResumedEntry, Startable;
    var ev := EvResume(id);
    if s.closed || Lookup(s, id).None? || !s.entries[Lookup(s, id).value].paused {
      NothingEffect(s, ev, at);
    } else {
      var r := Lookup(s, id).value;
      TrackedOf(s, id);
      ResumedEffect(s, r, at);
    }
  }

  lemma ResumedEffect(s: State, r: Ref, at: At)
    requires IsTracked(s, r) && s.entries[r].paused && !s.closed
    ensures Effect(s, EvResume(s.entries[r].id), at)
  {
    hide Effect, Moved, MoveOk, ResumedEntry, Resume;
    var ev := EvResume(s.entries[r].id);
    var e := ResumedEntry(s.entries[r]);
    ResumedMoved(s, r);
    ResumedOk(s, ev, r);
    if Moved(s, Apply(s, ev), r, e, true) {
      MovedEffect(s, ev, r, e, at);
    } else {
      MovedEffect(s, ev, r, e.(state := Queued), at);
    }
  }

  // ----- the queue and the policies -----

  /** What a Promote does when a slot is free. */
  lemma PromotedMoved(s: State, r: Ref)
    requires !s.closed && s.queue != [] && |ActiveIds(s)| < s.maxActive
    requires Lookup(s, s.queue[0]) == Some(r) && Startable(s.entries[r])
    ensures Moved(s, Promote(s), r, PromotedEntry(s, s.entries[r]), true)
  {
    var e := PromotedEntry(s, s.entries[r]);
    PutMoved(s, r, e);
    GateMoved(s, r, e, e.t, true, true);
  }

  lemma PromotedOk(s: State, r: Ref)
    requires IsTracked(s, r) && Local(s, r) && Startable(s.entries[r])
    ensures MoveOk(s, EvPromote, r, PromotedEntry(s, s.entries[r]))
  {
  }

  lemma PromoteEffect(s: State, at: At)
    requires Inv(s)
    ensures Effect(s, EvPromote, at)
  {
    hide Inv, Effect, Moved, MoveOk, PromotedEntry, ActiveIds;
    if s.closed || s.queue == [] || |ActiveIds(s)| >= s.maxActive {
      NothingEffect(s, EvPromote, at);
    } else {
      HeadStarts(s);
      var r := s.torrents[s.queue[0]];
      PromotedMoved(s, r);
      PromotedOk(s, r);
      MovedEffect(s, EvPromote, r, PromotedEntry(s, s.entries[r]), at);
    }
  }

  lemma CompleteEffect(s: State, id: Id, at: At)
    ensures Effect(s, EvComplete(id), at)
  {
    hide Effect, Moved, MoveOk;
    var ev := EvComplete(id);
    if Complete(s, id) == s {
      NothingEffect(s, ev, at);
    } else {
      var r := Lookup(s, id).value;
      PutMoved(s, r, s.entries[r].(state := Seeding));
      SeedsOk(s, ev, r);
      MovedEffect(s, ev, r, s.entries[r].(state := Seeding), at);
    }
  }

  /** The entry once the seed policy stopped its upload. */
  function SeedHeld(a: Tracked): Tracked {
    a.(paused := true, seedDone := true, prePause := Seeding, state := Paused)
  }

  /** The entry once the space check stopped its download. */
  function SpaceHeld(a: Tracked): Tracked {
    a.(paused := true, spacePaused := true, prePause := Downloading, state := Errored)
  }

  lemma SeedsOk(s: State, ev: Event, r: Ref)
    requires r < |s.entries|
    ensures MoveOk(s, ev, r, s.entries[r].(state := Seeding))
  {
    hide Steps;
    SamePhase(ev, s.entries[r], s.entries[r].(state := Seeding));
  }

  lemma SeedHeldOk(s: State, ev: Event, r: Ref)
    requires r < |s.entries|
    ensures MoveOk(s, ev, r, SeedHeld(s.entries[r]))
  {
    hide Steps;
    SamePhase(ev, s.entries[r], SeedHeld(s.entries[r]));
  }

  lemma SpaceHeldOk(s: State, ev: Event, r: Ref)
    requires r < |s.entries|
    ensures MoveOk(s, ev, r, SpaceHeld(s.entries[r]))
  {
    hide Steps;
    SamePhase(ev, s.entries[r], SpaceHeld(s.entries[r]));
  }

  lemma SeedStopsEffect(s: State, id: Id, at: At)
    ensures Effect(s, EvSeedStops(id), at)
  {
    hide Effect, Moved, MoveOk;
    var ev := EvSeedStops(id);
    if SeedStops(s, id) == s {
      NothingEffect(s, ev, at);
    } else {
      var r := Lookup(s, id).value;
      var a := s.entries[r];
      GateMoved(s, r, SeedHeld(a), a.t, s.libs[a.t.value].down, false);
      SeedHeldOk(s, ev, r);
      MovedEffect(s, ev, r, SeedHeld(a), at);
    }
  }

  lemma SpaceStopsEffect(s: State, r: Ref, at: At)
    ensures Effect(s, EvSpaceStops(r), at)
  {
    hide Effect, Moved, MoveOk;
    var ev := EvSpaceStops(r);
    if SpaceStops(s, r) == s {
      NothingEffect(s, ev, at);
    } else {
      var a := s.entries[r];
      GateMoved(s, r, SpaceHeld(a), a.t, false, s.libs[a.t.value].up);
      SpaceHeldOk(s, ev, r);
      MovedEffect(s, ev, r, SpaceHeld(a), at);
    }
  }

  // ----- additions -----

  /** One new entry, with no torrent yet; every other is as it was. */
  ghost predicate Appends(s: State, s': State) {
    && |s'.entries| == |s.entries| + 1 && s'.entries[..|s.entries|] == s.entries
    && s'.libs == s.libs && s'.client == s.client && s'.drops == s.drops && s'.closed == s.closed
    && s'.nextDelete == s.nextDelete
    && s'.deleting == s.deleting && s'.maxActive == s.maxActive
    && (forall id | id in s'.torrents ::
         (id in s.torrents && s'.torrents[id] == s.torrents[id]) || s'.torrents[id] == |s.entries|)
  }

  /** What a new entry is. */
  predicate IsFresh(e: Tracked) {
    && e.lib.None? && e.t.None? && !e.removed && (e.byHash ==> e.infoHash != "")
    && (e.refused ==> e.state == Errored) && (HoldsSpec(e.phase) ==> e.byHash && e.phase.spec.hash == e.infoHash)
    && (e.spec.Some? ==> e.byHash && e.spec.value.hash == e.infoHash)
  }

  ghost predicate AppendsFresh(s: State, s': State) {
    Appends(s, s') && IsFresh(s'.entries[|s.entries|])
  }

  lemma InsertAppends(s: State, ids: seq<Id>, e: Tracked, nextID: nat)
    ensures Appends(s, Insert(UntrackAll(s, ids), e, nextID)) &&
      Insert(UntrackAll(s, ids), e, nextID).entries[|s.entries|] == e
  {
    UntrackAllEffect(s, ids);
  }

  lemma ShowsToo(s: State, s': State, shown: set<(string, string)>)
    requires AppendsFresh(s, s')
    ensures AppendsFresh(s, s'.(shown := shown))
  {
  }

  lemma AddAppends(s: State, spec: Spec, dest: string, prov: Provenance, view: LeftView)
    requires spec.hash != ""
    ensures var (s', out) := FindOrTrack(s, spec, dest, prov, view);
      if out.AddTracked? then
        && !s.closed && out.r == |s.entries| && DecideClaim(s, spec.hash, None, dest, view).ClaimClear?
        && AppendsFresh(s, s') && s'.entries[out.r].infoHash == spec.hash && !s'.entries[out.r].refused
      else s' == s
  {
    hide Insert, UntrackAll, DecideClaim, Mint, ActiveIds, Appends;
    match DecideClaim(s, spec.hash, None, dest, view)
    case ClaimClear(refused) =>
      if !s.closed {
        var s1 := UntrackAll(s, refused);
        UntrackAllEffect(s, refused);
        var m := Mint(s1, prov.want);
        var e := NewTracked(prov, m.id, dest).(infoHash := spec.hash, byHash := true);
        InsertAppends(s, refused, e.(prePause := Checking, state := Paused, phase := Starting(ViaAdd, spec)), m.nextID);
        InsertAppends(s, refused, e.(state := Queued, spec := Some(spec)), m.nextID);
        InsertAppends(s, refused, e.(phase := Starting(ViaAdd, spec)), m.nextID);
        if e.paused { } else if |ActiveIds(s1)| >= s.maxActive { } else { }
      }
    case ClaimExisting(_) =>
    case ClaimLeftData(_, _) =>
  }

  lemma URLAppends(s: State, dest: string, prov: Provenance)
    ensures var s' := TrackURL(s, dest, prov);
      if s.closed then s' == s else AppendsFresh(s, s') && !s'.entries[|s.entries|].byHash
  {
    hide Insert, Mint, ActiveIds, Appends;
    var m := Mint(s, prov.want);
    var e := NewTracked(prov, m.id, dest);
    InsertAppends(s, [], e.(prePause := Checking, state := Paused, phase := Fetching), m.nextID);
    InsertAppends(s, [], e.(state := Queued, url := true), m.nextID);
    InsertAppends(s, [], e.(phase := Fetching), m.nextID);
    if e.paused { } else if |ActiveIds(s)| + 1 > s.maxActive { } else { }
  }

  lemma ErroredAppends(s: State, hex: string, dest: string, prov: Provenance, left: string, dirs: map<string, DirMatch>)
    ensures var s' := TrackErrored(s, hex, dest, prov, left, dirs);
      if s.closed then s' == s
      else
        AppendsFresh(s, s') && !s'.entries[|s.entries|].byHash && s'.entries[|s.entries|].phase.Ended? &&
        s'.entries[|s.entries|].refused
  {
    hide Insert, Mint, KeepLeft, ShownBy, AppendsFresh;
    if !s.closed {
      var m := Mint(s, prov.want);
      var kept := KeepLeft(s, None, dest, left, dirs);
      var e := NewTracked(prov, m.id, dest).(state := Errored, infoHash := hex, refused := true,
                 leftName := kept.leftName, sharedName := kept.sharedName, phase := Ended);
      InsertAppends(s, [], e, m.nextID);
      ErroredFresh(s, Insert(s, e, m.nextID), e);
      ShowsToo(s, Insert(s, e, m.nextID), s.shown + ShownBy(dest, dirs));
    }
  }

  lemma ErroredFresh(s: State, s': State, e: Tracked)
    requires Appends(s, s') && s'.entries[|s.entries|] == e && IsFresh(e)
    ensures AppendsFresh(s, s')
  {
  }

  lemma AppendedEffect(s: State, ev: Event, at: At)
    requires Appends(s, Apply(s, ev)) && Adds(ev)
    ensures Effect(s, ev, at)
  {
    hide Apply, Goes, LibEffect;
    var s' := Apply(s, ev);
    MovedLib(s, ev, s', at.l, at.h);
    if at.q < |s.entries| {
      GoesSelf(s.entries[at.q]);
      assert s'.entries[at.q] == s'.entries[..|s.entries|][at.q];
    }
  }

  /** An addition changes nothing, or appends one new entry. */
  lemma AdditionAppends(s: State, ev: Event)
    requires Adds(ev)
    ensures Apply(s, ev) == s || AppendsFresh(s, Apply(s, ev))
  {
    hide Appends, IsFresh, FindOrTrack, TrackURL, TrackErrored;
    match ev
    case EvAdd(spec, dest, prov, view) => if spec.hash != "" { AddAppends(s, spec, dest, prov, view); }
    case EvAddURL(dest, prov) => URLAppends(s, dest, prov);
    case EvRestoreErrored(hex, dest, prov, left, dirs) => ErroredAppends(s, hex, dest, prov, left, dirs);
  }

  lemma AddEffect(s: State, ev: Event, at: At)
    requires Adds(ev)
    ensures Effect(s, ev, at)
  {
    hide Effect, Appends, IsFresh, Apply;
    AdditionAppends(s, ev);
    if Apply(s, ev) == s { NothingEffect(s, ev, at); } else { AppendedEffect(s, ev, at); }
  }

  // ----- joins -----

  /** The entry once AddTorrentSpec answered it with l. */
  function JoinedEntry(e: Tracked, l: LibRef): Tracked
    requires e.phase.Joining?
  {
    if e.phase.held then e.(lib := Some(l), phase := Added(e.phase.via, e.phase.spec))
    else e.(lib := Some(l), phase := Joined(e.phase.via, e.phase.spec, false))
  }

  function HeldInfo(p: Phase): Option<string>
    requires p.Joining?
  {
    if p.held then None else p.spec.info
  }

  /** AddTorrentSpec, written out: the torrent the client has, or a new one. */
  lemma AddTorrentUnfolds(s: State, r: Ref)
    requires r < |s.entries| && s.entries[r].phase.Joining?
    ensures var e, h := s.entries[r], s.entries[r].phase.spec.hash;
      AddTorrent(s, r) ==
        if h in s.client && s.client[h] < |s.libs| then
          var cur := s.libs[s.client[h]];
          Put(s, r, JoinedEntry(e, s.client[h])).(libs := s.libs[s.client[h] :=
            cur.(info := if cur.info.None? then HeldInfo(e.phase) else cur.info, shared := true)])
        else
          Put(s, r, JoinedEntry(e, |s.libs|)).(libs :=
            s.libs + [Torrent(h, HeldInfo(e.phase), true, true, false, r, false)],
                                               client := s.client[h := |s.libs|])
  {
    if s.entries[r].phase.held { } else { }
  }

  predicate JoinGoes(a: Tracked, b: Tracked)
    requires a.phase.Joining?
  {
    && Goes(a, b) && (b.phase == if a.phase.held then Added(a.phase.via, a.phase.spec)
                                 else Joined(a.phase.via, a.phase.spec, false))
    && b.t == a.t && b.refused == a.refused && b.removed == a.removed && IsActive(b) == IsActive(a)
    && b.spec == a.spec && b.infoHash == a.infoHash && b.lib.Some?
  }

  lemma JoinGoesTo(e: Tracked, l: LibRef, p: Phase)
    requires e.phase.Joining? && e.lib.None?
    requires p == if e.phase.held then Added(e.phase.via, e.phase.spec) else Joined(e.phase.via, e.phase.spec, false)
    ensures JoinGoes(e, e.(lib := Some(l), phase := p))
  {
  }

  lemma JoinedGoes(e: Tracked, l: LibRef)
    requires e.phase.Joining? && e.lib.None?
    ensures JoinGoes(e, JoinedEntry(e, l))
  {
    hide JoinGoes;
    if e.phase.held {
      JoinGoesTo(e, l, Added(e.phase.via, e.phase.spec));
    } else {
      JoinGoesTo(e, l, Joined(e.phase.via, e.phase.spec, false));
    }
  }

  lemma JoinedLib(e: Tracked, l: LibRef)
    requires e.phase.Joining?
    ensures JoinedEntry(e, l).lib == Some(l)
  {
    if e.phase.held { } else { }
  }

  lemma JoinedEffectEntry(s: State, r: Ref, s': State, l: LibRef, q: Ref)
    requires r < |s.entries| && s.entries[r].phase.Joining? && EntryOk(s, s.entries[r]) && FlagsOk(s.entries[r])
    requires s'.entries == s.entries[r := JoinedEntry(s.entries[r], l)] && s'.torrents == s.torrents
    ensures EntryEffect(s, EvAddTorrent(r), s', q)
  {
    hide JoinedEntry;
    JoinedGoes(s.entries[r], l);
    if q < |s.entries| { GoesSelf(s.entries[q]); }
  }

  lemma HandedLib(s: State, r: Ref, s': State, k: LibRef, info: Option<string>, l: LibRef, h: string)
    requires k < |s.libs| && HandedTo(s, EvAddTorrent(r), k) && s'.client == s.client && s'.drops == s.drops
    requires s'.libs ==
      s.libs[k := s.libs[k].(info := if s.libs[k].info.None? then info else s.libs[k].info, shared := true)]
    ensures LibEffect(s, EvAddTorrent(r), s', l, h)
  {
    if s.libs[k].info.None? { } else { }
  }

  lemma NewLib(s: State, r: Ref, s': State, g: Torrent, l: LibRef, h: string)
    requires !Handed(s, EvAddTorrent(r)) && g.hash !in s.client && s'.libs == s.libs + [g] &&
      s'.client == s.client[g.hash := |s.libs|]
    requires !g.shared && g.creator == r && s'.drops == s.drops
    ensures LibEffect(s, EvAddTorrent(r), s', l, h)
  {
  }

  lemma AddTorrentEffect(s: State, r: Ref, at: At)
    requires Inv(s)
    ensures Effect(s, EvAddTorrent(r), at)
  {
    hide Inv, AddTorrent, EntryEffect, LibEffect, TableEffect, EntryOk, FlagsOk, GateOk, OwnLib, JoinedEntry;
    var ev := EvAddTorrent(r);
    if r < |s.entries| && s.entries[r].phase.Joining? {
      var s', h := Apply(s, ev), s.entries[r].phase.spec.hash;
      LocalOf(s, r);
      ClientOf(s, h);
      AddTorrentUnfolds(s, r);
      MovedTables(s, ev, s', at.id, at.k);
      if h in s.client {
        JoinedEffectEntry(s, r, s', s.client[h], at.q);
        HandedLib(s, r, s', s.client[h], HeldInfo(s.entries[r].phase), at.l, at.h);
      } else {
        JoinedEffectEntry(s, r, s', |s.libs|, at.q);
        NewLib(s, r, s', s'.libs[|s.libs|], at.l, at.h);
      }
    } else {
      AddTorrentNothing(s, r);
      NothingEffect(s, ev, at);
    }
  }

  lemma AddTorrentNothing(s: State, r: Ref)
    requires r >= |s.entries| || !s.entries[r].phase.Joining?
    ensures AddTorrent(s, r) == s
  {
  }

  // ----- every event -----

  lemma ServiceEffect(s: State, ev: Event, at: At)
    requires Inv(s) && OfService(ev)
    ensures Effect(s, ev, at)
  {
    hide Inv, Effect;
    match ev
    case EvFetchClaims(r, spec, view) => FetchClaimsEffect(s, r, spec, view, at);
    case EvAddTorrent(r) => AddTorrentEffect(s, r, at);
    case EvSetInfo(r, ok) => SetInfoEffect(s, r, ok, at);
    case EvPublish(r) => PublishEffect(s, r, at);
    case EvCleanup(r, left, dirs) => CleanupEffect(s, r, left, dirs, at);
    case EvFetchFails(r) => FetchFailsEffect(s, r, at);
    case EvReadHeld(r) => ReadHeldEffect(s, r, at);
    case EvAttachFails(r) => AttachFailsEffect(s, r, at);
    case EvShutGates(r) => ShutGatesEffect(s, r, at);
    case EvInfoArrives(l, name) => InfoArrivesEffect(s, l, name, at);
  }

  lemma WaitingEffect(s: State, ev: Event, at: At)
    requires Inv(s) && OfWaiting(ev)
    ensures Effect(s, ev, at)
  {
    hide Inv, Effect;
    match ev
    case EvRefuse(r) => RefuseEffect(s, r, at);
    case EvRefuseMarks(r, left, dirs) => RefuseMarksEffect(s, r, left, dirs, at);
    case EvInfoAccepted(r) => InfoAcceptedEffect(s, r, at);
    case EvRemove(id, deleteData, dirs) => RemoveEffect(s, id, deleteData, dirs, at);
    case EvPassDeletes(r) => PassDeletesEffect(s, r, at);
    case EvQuit(r) => QuitEffect(s, r, at);
    case EvMakeDrop(l) => MakeDropEffect(s, l, at);
    case EvEndDelete(_) => TablesStill(s, ev, at);
    case EvClose => TablesStill(s, ev, at);
  }

  lemma CallEffect(s: State, ev: Event, at: At)
    requires Inv(s) && !OfService(ev) && !OfWaiting(ev)
    ensures Effect(s, ev, at)
  {
    hide Inv, Effect;
    match ev
    case EvAdd(_, _, _, _) => AddEffect(s, ev, at);
    case EvAddURL(_, _) => AddEffect(s, ev, at);
    case EvRestoreErrored(_, _, _, _, _) => AddEffect(s, ev, at);
    case EvPause(id) => PauseEffect(s, id, at);
    case EvPauseForShutdown => PauseForShutdownEffect(s, at);
    case EvResume(id) => ResumeEffect(s, id, at);
    case EvMoveInQueue(_, _) => TablesStill(s, ev, at);
    case EvPromote => PromoteEffect(s, at);
    case EvComplete(id) => CompleteEffect(s, id, at);
    case EvSeedStops(id) => SeedStopsEffect(s, id, at);
    case EvSpaceStops(r) => SpaceStopsEffect(s, r, at);
  }

  /** What any event does. */
  lemma EventEffect(s: State, ev: Event, at: At)
    requires Inv(s)
    ensures Effect(s, ev, at)
  {
    hide Inv, Effect;
    if OfService(ev) {
      ServiceEffect(s, ev, at);
    } else if OfWaiting(ev) {
      WaitingEffect(s, ev, at);
    } else {
      CallEffect(s, ev, at);
    }
  }
}
