/** How far the download slots can be overshot, and by which call alone. */
module EngineSlots {
  import opened Wrappers
  import opened EngineState
  import opened EngineSteps
  import opened EngineInvariants
  import opened EngineProofs
  import opened EngineEffects

  /** No id holds a slot after that did not hold one before. */
  ghost predicate NoNewActive(s: State, s': State) {
    forall id | id in ActiveIds(s') :: id in ActiveIds(s)
  }

  lemma SubsetSize(a: set<Id>, b: set<Id>)
    requires forall id | id in a :: id in b
    ensures |a| <= |b|
  {
    assert a <= b;
    assert b == a + (b - a);
  }

  lemma AtMostOneMore(a: set<Id>, b: set<Id>, x: Id)
    requires forall id | id in a :: id in b || id == x
    ensures |a| <= |b| + 1
  {
    SubsetSize(a, b + {x});
  }

  predicate AddsOrStarts(ev: Event) {
    ev.EvAdd? || ev.EvAddURL? || Starts(ev)
  }

  lemma ErroredNoNew(s: State, s': State)
    requires Structure(s) && AppendsFresh(s, s') && s'.entries[|s.entries|].refused
    ensures NoNewActive(s, s')
  {
    forall id | id in ActiveIds(s')
      ensures id in ActiveIds(s)
    {
      var r := s'.torrents[id];
      if r < |s.entries| { assert s'.entries[r] == s'.entries[..|s.entries|][r]; }
    }
  }

  lemma OneNoNew(s: State, ev: Event, id: Id)
    requires Inv(s) && !AddsOrStarts(ev) && !ev.EvRestoreErrored? && id in ActiveIds(Apply(s, ev))
    ensures id in ActiveIds(s)
  {
    hide Inv, Apply;
    EventEffect(s, ev, At(0, 0, "", id, 0));
    TracksOf(s, id);
    EventEffect(s, ev, At(s.torrents[id], 0, "", id, 0));
  }

  lemma TracksOf(s: State, id: Id)
    requires Inv(s)
    ensures id in s.torrents ==> s.torrents[id] < |s.entries|
  {
  }

  lemma OthersNoNew(s: State, ev: Event)
    requires Inv(s) && !AddsOrStarts(ev)
    ensures NoNewActive(s, Apply(s, ev)) && Apply(s, ev).maxActive == s.maxActive
  {
    hide Inv, Effect, TrackErrored, ActiveIds;
    SameMax(s, ev);
    if ev.EvRestoreErrored? {
      ErroredAppends(s, ev.hex, ev.dest, ev.prov, ev.left, ev.dirs);
      StructureOf(s);
      if !s.closed { ErroredNoNew(s, Apply(s, ev)); }
    } else {
      forall id | id in ActiveIds(Apply(s, ev))
        ensures id in ActiveIds(s)
      {
        OneNoNew(s, ev, id);
      }
    }
  }

  lemma SameMax(s: State, ev: Event)
    requires Inv(s)
    ensures Apply(s, ev).maxActive == s.maxActive
  {
    hide Inv, Apply;
    EventEffect(s, ev, At(0, 0, "", Numbered(0), 0));
  }

  lemma OthersHold(s: State, ev: Event)
    requires Inv(s) && !AddsOrStarts(ev)
    ensures |ActiveIds(Apply(s, ev))| <= |ActiveIds(s)| && Apply(s, ev).maxActive == s.maxActive
  {
    hide Inv, Apply, ActiveIds;
    OthersNoNew(s, ev);
    SubsetSize(ActiveIds(Apply(s, ev)), ActiveIds(s));
  }

  /** A Resume of an entry whose fetch or attach is still in flight, with every slot taken: it is not queued. */
  predicate Overshoots(s: State, ev: Event) {
    ev.EvResume? && !s.closed && Lookup(s, ev.id).Some? &&
    var a := s.entries[Lookup(s, ev.id).value];
    var e := ResumedEntry(a);
    a.paused && !Startable(a) && IsActive(e) && |ActiveIds(s)| >= s.maxActive
  }

  lemma FewerActive(s: State, s': State)
    requires s'.entries == s.entries
    requires forall id | id in s'.torrents :: id in s.torrents && s'.torrents[id] == s.torrents[id]
    ensures |ActiveIds(s')| <= |ActiveIds(s)|
  {
    SubsetSize(ActiveIds(s'), ActiveIds(s));
  }

  lemma AddActive(s: State, spec: Spec, dest: string, prov: Provenance, view: LeftView)
    requires Inv(s) && spec.hash != "" && |ActiveIds(s)| <= s.maxActive
    ensures var s' := FindOrTrack(s, spec, dest, prov, view).0; |ActiveIds(s')| <= s'.maxActive
  {
    hide Inv, ActiveIds, DecideClaim, UntrackAll, Insert;
    if !s.closed && DecideClaim(s, spec.hash, None, dest, view).ClaimClear? {
      var refused := DecideClaim(s, spec.hash, None, dest, view).refused;
      UntrackAllEffect(s, refused);
      var s1 := UntrackAll(s, refused);
      FewerActive(s, s1);
      UntrackAllKeeps(s, refused);
      StructureOf(s1);
      var e := AddedEntry(s1, spec, dest, prov);
      var s' := Insert(s1, e, Mint(s1, prov.want).nextID);
      InsertActive(s1, e, Mint(s1, prov.want).nextID);
      assert FindOrTrack(s, spec, dest, prov, view).0 == s';
    }
  }

  lemma InsertActive(s: State, e: Tracked, nextID: nat)
    requires Structure(s) && e.id !in s.torrents
    ensures var s' := Insert(s, e, nextID);
      |ActiveIds(s')| <= |ActiveIds(s)| + 1 && (!IsActive(e) ==> |ActiveIds(s')| <= |ActiveIds(s)|) &&
        s'.maxActive == s.maxActive
  {
    var s' := Insert(s, e, nextID);
    AtMostOneMore(ActiveIds(s'), ActiveIds(s), e.id);
    if !IsActive(e) { SubsetSize(ActiveIds(s'), ActiveIds(s)); }
  }

  lemma TrackURLActive(s: State, dest: string, prov: Provenance)
    requires Structure(s) && |ActiveIds(s)| <= s.maxActive
    ensures var s' := TrackURL(s, dest, prov); |ActiveIds(s')| <= s'.maxActive
  {
    if !s.closed {
      var m := Mint(s, prov.want);
      var e := NewTracked(prov, m.id, dest);
      InsertActive(s, e.(prePause := Checking, state := Paused, phase := Fetching), m.nextID);
      InsertActive(s, e.(state := Queued, url := true), m.nextID);
      InsertActive(s, e.(phase := Fetching), m.nextID);
    }
  }

  lemma MovedActive(s: State, s': State, r: Ref, e: Tracked)
    requires Structure(s) && Moved(s, s', r, e, true) && s.entries[r].id == e.id
    ensures forall id | id in ActiveIds(s') :: id in ActiveIds(s) || id == e.id
  {
  }

  lemma PromoteActive(s: State)
    requires Inv(s) && |ActiveIds(s)| <= s.maxActive
    ensures |ActiveIds(Promote(s))| <= Promote(s).maxActive
  {
    hide Inv, Local, Promote, ActiveIds, PromotedEntry, Moved;
    SameMax(s, EvPromote);
    if s.closed || s.queue == [] || |ActiveIds(s)| >= s.maxActive {
      PromoteNothing(s);
    } else {
      HeadStarts(s);
      StructureOf(s);
      var r := s.torrents[s.queue[0]];
      var e := PromotedEntry(s, s.entries[r]);
      PromotedMoved(s, r);
      PromotedId(s, s.entries[r]);
      MovedActive(s, Promote(s), r, e);
      AtMostOneMore(ActiveIds(Promote(s)), ActiveIds(s), e.id);
    }
  }

  lemma PromoteNothing(s: State)
    requires s.closed || s.queue == [] || |ActiveIds(s)| >= s.maxActive
    ensures Promote(s) == s
  {
  }

  lemma PromotedId(s: State, e: Tracked)
    requires Startable(e)
    ensures PromotedEntry(s, e).id == e.id
  {
    if e.t.Some? { } else if e.url { } else { }
  }

  lemma PutKeepsOthers(s: State, r: Ref, e: Tracked)
    requires Structure(s) && IsTracked(s, r) && e.id == s.entries[r].id && s.entries[r].paused
    ensures forall id :: id in ActiveIds(Put(s, r, e)) <==> id in ActiveIds(s) || (id == e.id && IsActive(e))
  {
  }

  lemma ResumeTakesSlot(s: State, r: Ref, e: Tracked)
    requires Structure(s) && IsTracked(s, r) && s.entries[r].paused && e.id == s.entries[r].id
    ensures |ActiveIds(Put(s, r, e))| == |ActiveIds(s)| + (if IsActive(e) then 1 else 0)
  {
    PutKeepsOthers(s, r, e);
    assert e.id !in ActiveIds(s);
    assert ActiveIds(Put(s, r, e)) == if IsActive(e) then ActiveIds(s) + {e.id} else ActiveIds(s);
  }

  /** The gate and the queue hold no slots. */
  lemma SameActive(s: State, s': State)
    requires s'.entries == s.entries && s'.torrents == s.torrents
    ensures ActiveIds(s') == ActiveIds(s)
  {
  }

  /** A Resume of entry r sends it to the queue. */
  predicate Waits(s: State, r: Ref)
    requires r < |s.entries|
  {
    var e := ResumedEntry(s.entries[r]);
    Startable(e) && (e.state == Queued || (IsActive(e) && |ActiveIds(s)| >= s.maxActive))
  }

  /** What a Resume makes of the entry it resumes. */
  function AfterResume(s: State, r: Ref): Tracked
    requires r < |s.entries|
  {
    var e := ResumedEntry(s.entries[r]);
    if Waits(s, r) then e.(state := Queued) else e
  }

  /** A Resume takes a slot more only when it runs the entry. */
  lemma WaitsExactly(s: State, r: Ref)
    requires Structure(s) && IsTracked(s, r) && s.entries[r].paused
    ensures var e := ResumedEntry(s.entries[r]);
      Waits(s, r) <==> (Startable(e) && (e.state == Queued ||
                         ((e.state == Checking || e.state == Downloading) && |ActiveIds(Put(s, r, e))| > s.maxActive)))
  {
    ResumeTakesSlot(s, r, ResumedEntry(s.entries[r]));
  }

  lemma ResumeEntries(s: State, r: Ref)
    requires Structure(s) && !s.closed && IsTracked(s, r) && s.entries[r].paused
    ensures var s' := Resume(s, s.entries[r].id);
      s'.entries == s.entries[r := AfterResume(s, r)] && s'.torrents == s.torrents && s'.maxActive == s.maxActive
  {
    WaitsExactly(s, r);
    ResumeUnfolds(s, r, ResumedEntry(s.entries[r]));
  }

  lemma ResumeActive(s: State, id: Id)
    requires Inv(s) && |ActiveIds(s)| <= s.maxActive
    ensures |ActiveIds(Resume(s, id))| <= s.maxActive <==> !Overshoots(s, EvResume(id))
  {
    hide Inv, Resume, ActiveIds, ResumedEntry, Waits, AfterResume;
    StructureOf(s);
    if s.closed || Lookup(s, id).None? || !s.entries[Lookup(s, id).value].paused {
      ResumeNothing(s, id);
    } else {
      TrackedOf(s, id);
      var r := Lookup(s, id).value;
      var e := AfterResume(s, r);
      ResumeEntries(s, r);
      ResumedState(s, r);
      AfterState(s, r);
      ResumeTakesSlot(s, r, e);
      SameActive(Put(s, r, e), Resume(s, id));
    }
  }

  lemma ResumeNothing(s: State, id: Id)
    requires s.closed || Lookup(s, id).None? || !s.entries[Lookup(s, id).value].paused
    ensures Resume(s, id) == s
  {
  }

  lemma AfterState(s: State, r: Ref)
    requires r < |s.entries|
    ensures var e := ResumedEntry(s.entries[r]);
      AfterResume(s, r).id == s.entries[r].id &&
      (IsActive(AfterResume(s, r)) <==> IsActive(e) && !(Startable(e) && |ActiveIds(s)| >= s.maxActive))
  {
    ResumedId(s.entries[r]);
    if Waits(s, r) { } else { }
  }

  lemma ResumedId(a: Tracked)
    ensures ResumedEntry(a).id == a.id && !ResumedEntry(a).paused
  {
    if a.spacePaused { } else if a.seedDone && a.state != Errored { } else if a.state == Paused { } else { }
  }

  lemma ResumedState(s: State, r: Ref)
    requires Inv(s) && r < |s.entries| && s.entries[r].paused
    ensures var e := ResumedEntry(s.entries[r]); (e.state == Queued ==> Startable(e)) && !e.paused
    ensures Startable(ResumedEntry(s.entries[r])) == Startable(s.entries[r])
  {
    hide Inv;
    var a := s.entries[r];
    LocalOf(s, r);
    ResumedId(a);
    if a.spacePaused { } else if a.seedDone && a.state != Errored { } else if a.state == Paused { } else { }
  }

  /** No event takes the active downloads past the limit but that one Resume, which always does. */
  lemma SlotsHold(s: State, ev: Event)
    requires Inv(s) && |ActiveIds(s)| <= s.maxActive
    ensures |ActiveIds(Apply(s, ev))| <= s.maxActive <==> !Overshoots(s, ev)
    ensures Apply(s, ev).maxActive == s.maxActive
  {
    hide Inv, Apply, ActiveIds, Overshoots;
    if AddsOrStarts(ev) {
      StartsHold(s, ev);
    } else {
      OthersHold(s, ev);
      OnlyResumes(s, ev);
    }
  }

  lemma OnlyResumes(s: State, ev: Event)
    ensures Overshoots(s, ev) ==> ev.EvResume?
  {
  }

  lemma StartsHold(s: State, ev: Event)
    requires Inv(s) && |ActiveIds(s)| <= s.maxActive && AddsOrStarts(ev)
    ensures |ActiveIds(Apply(s, ev))| <= s.maxActive <==> !Overshoots(s, ev)
    ensures Apply(s, ev).maxActive == s.maxActive
  {
    hide Inv, ActiveIds, FindOrTrack, TrackURL, Promote, Resume;
    SameMax(s, ev);
    match ev
    case EvAdd(spec, dest, prov, view) => if spec.hash != "" { AddActive(s, spec, dest, prov, view); }
    case EvAddURL(dest, prov) => StructureOf(s); TrackURLActive(s, dest, prov);
    case EvPromote => PromoteActive(s);
    case EvResume(id) => ResumeActive(s, id);
  }
}
