/** Which ids are given out, how long an entry stays tracked, and that the client holds no torrent nobody minds. */
module EngineTracking {
  import opened Wrappers
  import opened EngineState
  import opened EngineSteps
  import opened EngineInvariants
  import opened EngineProofs
  import opened EngineEffects
  import opened EngineHistory
  import opened EngineTheorems
  import opened EngineCalls

  // ----- what no event but an addition or an end of tracking touches -----

  lemma {:induction false} PausesTables(s: State, ids: seq<Id>)
    ensures var s' := PauseAll(s, ids);
      s'.torrents == s.torrents && s'.nextID == s.nextID && s'.drops == s.drops
    decreases |ids|
  {
    if ids != [] {
      var l := Lookup(s, ids[0]);
      PausesTables(if l.Some? && !s.entries[l.value].paused then PauseEntry(s, l.value, false) else s, ids[1..]);
    }
  }

  /** The events that may take an entry out of the tables. */
  predicate Ends(ev: Event) {
    ev.EvRemove? || ev.EvCleanup? || ev.EvFetchClaims?
  }

  predicate TablesKept(s: State, ev: Event) {
    var s' := Apply(s, ev);
    !Adds(ev) ==>
      && s'.nextID == s.nextID && (!Ends(ev) ==> s'.torrents == s.torrents)
      && (!ev.EvMakeDrop? ==> s.drops <= s'.drops)
  }

  lemma FetchTables(s: State, ev: Event)
    requires ev.EvFetchFails? || ev.EvFetchClaims?
    ensures TablesKept(s, ev)
  {
    hide UntrackAll, DecideClaim;
    if ev.EvFetchClaims? && ev.r < |s.entries| {
      var c := DecideClaim(s, ev.spec.hash, Some(ev.r), s.entries[ev.r].savePath, ev.view);
      if c.ClaimClear? { UntrackAllEffect(s, c.refused); }
    }
  }

  lemma HoldTables(s: State, ev: Event)
    requires ev.EvReadHeld? || ev.EvAttachFails? || ev.EvShutGates? || ev.EvQuit? || ev.EvPassDeletes?
    ensures TablesKept(s, ev)
  {
    hide Covered;
  }

  lemma JoinTables(s: State, ev: Event)
    requires ev.EvAddTorrent? || ev.EvSetInfo?
    ensures TablesKept(s, ev)
  {
  }

  lemma PublishTables(s: State, ev: Event)
    requires ev.EvPublish? || ev.EvCleanup?
    ensures TablesKept(s, ev)
  {
    hide KeepLeft, LeftName;
  }

  lemma RefuseTables(s: State, ev: Event)
    requires ev.EvInfoArrives? || ev.EvRefuse? || ev.EvRefuseMarks?
    ensures TablesKept(s, ev)
  {
    hide KeepLeft, LeftName;
  }

  lemma InfoTables(s: State, ev: Event)
    requires ev.EvInfoAccepted?
    ensures TablesKept(s, ev)
  {
  }

  lemma PauseTables(s: State, ev: Event)
    requires ev.EvPause? || ev.EvPauseForShutdown? || ev.EvMoveInQueue?
    ensures TablesKept(s, ev)
  {
    hide PauseAll, RemoveFirst, PausedEntry, Clamp;
    if ev.EvPauseForShutdown? { PausesTables(s, s.order); }
  }

  lemma RunTables(s: State, ev: Event)
    requires ev.EvResume? || ev.EvPromote?
    ensures TablesKept(s, ev)
  {
    hide ResumedEntry, ActiveIds, Startable;
  }

  lemma PolicyTables(s: State, ev: Event)
    requires ev.EvComplete? || ev.EvSeedStops? || ev.EvSpaceStops?
    ensures TablesKept(s, ev)
  {
  }

  lemma RemoveTables(s: State, ev: Event)
    requires ev.EvRemove? || ev.EvMakeDrop? || ev.EvEndDelete? || ev.EvClose?
    ensures TablesKept(s, ev)
  {
    hide RemoveTarget, RemoveFirst;
  }

  lemma EventTables(s: State, ev: Event)
    ensures TablesKept(s, ev)
  {
    hide Apply;
    match ev {
      case EvFetchFails(_) => FetchTables(s, ev);
      case EvFetchClaims(_, _, _) => FetchTables(s, ev);
      case EvReadHeld(_) => HoldTables(s, ev);
      case EvAttachFails(_) => HoldTables(s, ev);
      case EvShutGates(_) => HoldTables(s, ev);
      case EvAddTorrent(_) => JoinTables(s, ev);
      case EvSetInfo(_, _) => JoinTables(s, ev);
      case EvPublish(_) => PublishTables(s, ev);
      case EvCleanup(_, _, _) => PublishTables(s, ev);
      case EvInfoArrives(_, _) => RefuseTables(s, ev);
      case EvRefuse(_) => RefuseTables(s, ev);
      case EvRefuseMarks(_, _, _) => RefuseTables(s, ev);
      case EvInfoAccepted(_) => InfoTables(s, ev);
      case EvPassDeletes(_) => HoldTables(s, ev);
      case EvQuit(_) => HoldTables(s, ev);
      case EvPause(_) => PauseTables(s, ev);
      case EvPauseForShutdown => PauseTables(s, ev);
      case EvMoveInQueue(_, _) => PauseTables(s, ev);
      case EvResume(_) => RunTables(s, ev);
      case EvPromote => RunTables(s, ev);
      case EvComplete(_) => PolicyTables(s, ev);
      case EvSeedStops(_) => PolicyTables(s, ev);
      case EvSpaceStops(_) => PolicyTables(s, ev);
      case EvRemove(_, _, _) => RemoveTables(s, ev);
      case EvMakeDrop(_) => RemoveTables(s, ev);
      case EvEndDelete(_) => RemoveTables(s, ev);
      case EvClose => RemoveTables(s, ev);
      case _ =>
    }
  }

  // ----- ids -----

  /** The counter is past every number an entry ever had, tracked or not. */
  ghost predicate Past(s: State) {
    forall r | 0 <= r < |s.entries| && s.entries[r].id.Numbered? :: s.entries[r].id.n <= s.nextID
  }

  /** What an addition asks for. */
  function Wanted(ev: Event): Option<Id>
    requires Adds(ev)
  {
    ev.prov.want
  }

  /** An addition adds one entry at most, under the id wanted or a number past the counter, which it moves on. */
  predicate Numbers(s: State, s': State, want: Option<Id>) {
    && s.nextID <= s'.nextID && s'.drops == s.drops
    && (s'.entries == s.entries
        || (|s'.entries| == |s.entries| + 1 && s'.entries[..|s.entries|] == s.entries &&
            var id := s'.entries[|s.entries|].id;
            && (want == Some(id) || (id.Numbered? && s.nextID < id.n))
            && (id.Numbered? ==> id.n <= s'.nextID) && IsTracked(s', |s.entries|)))
  }

  lemma MintNumbers(s: State, want: Option<Id>, e: Tracked)
    requires e.id == Mint(s, want).id
    ensures Numbers(s, Insert(s, e, Mint(s, want).nextID), want)
  {
  }

  lemma AddNumbers(s: State, spec: Spec, dest: string, prov: Provenance, view: LeftView)
    ensures Numbers(s, FindOrTrack(s, spec, dest, prov, view).0, prov.want)
  {
    hide Mint, Insert, DecideClaim, UntrackAll, FindOrTrack;
    var c := DecideClaim(s, spec.hash, None, dest, view);
    if !s.closed && c.ClaimClear? {
      var s1 := UntrackAll(s, c.refused);
      FindOrTrackUnfolds(s, spec, dest, prov, view);
      UntrackAllEffect(s, c.refused);
      AddedStarts(s1, spec, dest, prov);
      MintNumbers(s1, prov.want, AddedEntry(s1, spec, dest, prov));
    } else {
      AddsNothing(s, spec, dest, prov, view);
    }
  }

  lemma AddsNothing(s: State, spec: Spec, dest: string, prov: Provenance, view: LeftView)
    requires s.closed || !DecideClaim(s, spec.hash, None, dest, view).ClaimClear?
    ensures FindOrTrack(s, spec, dest, prov, view).0 == s
  {
  }

  lemma AdditionNumbers(s: State, ev: Event)
    requires Adds(ev)
    ensures Numbers(s, Apply(s, ev), Wanted(ev))
  {
    hide FindOrTrack, TrackURL, TrackErrored, Numbers;
    match ev
    case EvAdd(spec, dest, prov, view) =>
      if spec.hash != "" { AddNumbers(s, spec, dest, prov, view); } else { Same(s, prov.want); }
    case EvAddURL(dest, prov) => AddressNumbers(s, dest, prov);
    case EvRestoreErrored(hex, dest, prov, left, dirs) => RestoreNumbers(s, hex, dest, prov, left, dirs);
  }

  lemma Same(s: State, want: Option<Id>)
    ensures Numbers(s, s, want)
  {
  }

  lemma AddressNumbers(s: State, dest: string, prov: Provenance)
    ensures Numbers(s, TrackURL(s, dest, prov), prov.want)
  {
    hide Mint, ActiveIds;
    MintedNumber(s, prov.want);
  }

  lemma RestoreNumbers(s: State, hex: string, dest: string, prov: Provenance, left: string, dirs: map<string, DirMatch>)
    ensures Numbers(s, TrackErrored(s, hex, dest, prov, left, dirs), prov.want)
  {
    hide Mint, KeepLeft, ShownBy;
    MintedNumber(s, prov.want);
  }

  lemma MintedNumber(s: State, want: Option<Id>)
    ensures var m := Mint(s, want);
      && s.nextID <= m.nextID && (want == Some(m.id) || (m.id.Numbered? && s.nextID < m.id.n))
      && (m.id.Numbered? ==> m.id.n <= m.nextID)
  {
  }

  lemma EventPast(s: State, ev: Event)
    requires Inv(s) && Past(s)
    ensures Past(Apply(s, ev))
  {
    hide Inv, Apply;
    if Adds(ev) {
      AdditionNumbers(s, ev);
    } else {
      EventTables(s, ev);
      forall r | 0 <= r < |Apply(s, ev).entries|
        ensures r < |s.entries| && Apply(s, ev).entries[r].id == s.entries[r].id
      {
        EventEffect(s, ev, At(r, 0, "", Numbered(0), 0));
      }
    }
  }

  lemma {:induction false} RunPast(s: State, evs: seq<Event>)
    requires Inv(s) && Past(s)
    ensures Past(Run(s, evs))
    decreases |evs|
  {
    if evs != [] {
      hide Inv, Apply, Past;
      EventPast(s, evs[0]);
      ApplyKeeps(s, evs[0]);
      RunPast(Apply(s, evs[0]), evs[1..]);
    }
  }

  /** In every run an id once given to a torrent goes to another only if that one's addition asks for it by name. */
  lemma IdsNotReused(maxActive: nat, evs: seq<Event>, ev: Event, q: Ref)
    requires Adds(ev)
    ensures var s := Run(Init(maxActive), evs);
      var s' := Apply(s, ev);
      |s'.entries| > |s.entries| > q ==>
        s'.entries[|s.entries|].id == s.entries[q].id ==> Wanted(ev) == Some(s.entries[q].id)
  {
    RunKeeps(Init(maxActive), evs);
    RunPast(Init(maxActive), evs);
    hide Inv, Run, Apply;
    AdditionNumbers(Run(Init(maxActive), evs), ev);
  }

  // ----- how long an entry stays tracked -----

  /** Someone else tracked records hex and is not refused. */
  ghost predicate Lives(s: State, hex: string, self: Option<Ref>) {
    exists q: Ref :: IsTracked(s, q) && Some(q) != self && s.entries[q].infoHash == hex && !s.entries[q].refused
  }

  /** Someone else refused left data for hex elsewhere than dest. */
  ghost predicate Strands(s: State, hex: string, self: Option<Ref>, dest: string, view: LeftView) {
    exists q: Ref :: Some(q) != self && LeftElsewhere(s, q, hex, dest, view)
  }

  /** A claim of hex goes through, and takes the refused entry q for it out of the tables. */
  ghost predicate Supersedes(s: State, q: Ref, hex: string, self: Option<Ref>, dest: string, view: LeftView)
    requires q < |s.entries|
  {
    && hex != "" && s.entries[q].refused && s.entries[q].infoHash == hex && Some(q) != self
    && !Lives(s, hex, self) && !Strands(s, hex, self, dest, view)
  }

  /** The event takes entry q out of the tables. */
  ghost predicate Untracks(s: State, ev: Event, q: Ref)
    requires q < |s.entries|
  {
    match ev
    case EvRemove(id, _, _) => !s.closed && id == s.entries[q].id
    case EvCleanup(r, _, _) => r == q && s.entries[q].phase.Failed? && s.entries[q].phase.via == ViaAdd
    case EvAdd(spec, dest, _, view) => !s.closed && Supersedes(s, q, spec.hash, None, dest, view)
    case EvFetchClaims(r, spec, view) =>
      r < |s.entries| && s.entries[r].phase == Fetching
      && Supersedes(s, q, spec.hash, Some(r), s.entries[r].savePath, view)
    case _ => false
  }

  /** The claim on the fields: who lives, and whose left data it would strand. */
  lemma ClaimOnFields(s: State, hex: string, self: Option<Ref>, dest: string, view: LeftView)
    requires Structure(s) && hex != ""
    ensures var c := DecideClaim(s, hex, self, dest, view);
      && (c.ClaimExisting? <==> Lives(s, hex, self))
      && (c.ClaimLeftData? <==> !Lives(s, hex, self) && Strands(s, hex, self, dest, view))
      && (c.ClaimClear? ==> c.refused == RefusedFor(s, s.order, hex, self))
  {
    hide FirstLive, FirstBlocking, RefusedFor, Blocks, LeftElsewhere;
    LiveOnFields(s, hex, self);
    StrandsOnFields(s, hex, self, dest, view);
    RefusedForComplete(s, s.order, hex, self);
  }

  lemma LiveOnFields(s: State, hex: string, self: Option<Ref>)
    requires Structure(s)
    ensures Lives(s, hex, self) <==> exists id :: id in s.order && MatchesLive(s, id, hex, self)
  {
    hide EntryOk, OwnLib, NoDup;
    if q: Ref :| IsTracked(s, q) && Some(q) != self && s.entries[q].infoHash == hex && !s.entries[q].refused {
      assert s.entries[q].id in s.order && MatchesLive(s, s.entries[q].id, hex, self);
    }
    if id :| id in s.order && MatchesLive(s, id, hex, self) {
      assert IsTracked(s, s.torrents[id]);
    }
  }

  lemma StrandsOnFields(s: State, hex: string, self: Option<Ref>, dest: string, view: LeftView)
    requires Structure(s)
    ensures Strands(s, hex, self, dest, view) <==>
            exists id :: id in s.order && MatchesRefused(s, id, hex, self) && Blocks(s, id, dest, view)
  {
    hide EntryOk, OwnLib, NoDup;
    if q: Ref :| Some(q) != self && LeftElsewhere(s, q, hex, dest, view) {
      var id := s.entries[q].id;
      assert id in s.order && MatchesRefused(s, id, hex, self) && Blocks(s, id, dest, view);
    }
    if id :| id in s.order && MatchesRefused(s, id, hex, self) && Blocks(s, id, dest, view) {
      assert LeftElsewhere(s, s.torrents[id], hex, dest, view);
    }
  }

  /** The refused entries for hex are superseded exactly when the claim is clear. */
  lemma RefusedGo(s: State, q: Ref, hex: string, self: Option<Ref>, dest: string, view: LeftView)
    requires Structure(s) && IsTracked(s, q) && hex != "" && DecideClaim(s, hex, self, dest, view).ClaimClear?
    ensures s.entries[q].id in DecideClaim(s, hex, self, dest, view).refused <==>
            Supersedes(s, q, hex, self, dest, view)
  {
    hide EntryOk, OwnLib, NoDup, DecideClaim, RefusedFor, Lives, Strands;
    ClaimOnFields(s, hex, self, dest, view);
    RefusedForComplete(s, s.order, hex, self);
  }

  lemma AddUntracks(s: State, ev: Event, q: Ref)
    requires Inv(s) && IsTracked(s, q) && ev.EvAdd?
    ensures IsTracked(Apply(s, ev), q) <==> !Untracks(s, ev, q)
  {
    hide Inv, FindOrTrack, DecideClaim, UntrackAll, Mint, Lives, Strands;
    StructureOf(s);
    if !s.closed && ev.spec.hash != "" {
      var c := DecideClaim(s, ev.spec.hash, None, ev.dest, ev.view);
      ClaimOnFields(s, ev.spec.hash, None, ev.dest, ev.view);
      if c.ClaimClear? {
        FindOrTrackUnfolds(s, ev.spec, ev.dest, ev.prov, ev.view);
        UntrackAllEffect(s, c.refused);
        AddedStarts(UntrackAll(s, c.refused), ev.spec, ev.dest, ev.prov);
        RefusedGo(s, q, ev.spec.hash, None, ev.dest, ev.view);
      } else {
        AddsNothing(s, ev.spec, ev.dest, ev.prov, ev.view);
      }
    } else if s.closed {
      AddsNothing(s, ev.spec, ev.dest, ev.prov, ev.view);
    }
  }

  lemma FetchUntracks(s: State, ev: Event, q: Ref)
    requires Inv(s) && IsTracked(s, q) && ev.EvFetchClaims?
    ensures IsTracked(Apply(s, ev), q) <==> !Untracks(s, ev, q)
  {
    hide Inv, DecideClaim, UntrackAll, Lives, Strands;
    StructureOf(s);
    if ev.r < |s.entries| && s.entries[ev.r].phase == Fetching && ev.spec.hash != "" {
      var dest := s.entries[ev.r].savePath;
      ClaimOnFields(s, ev.spec.hash, Some(ev.r), dest, ev.view);
      var c := DecideClaim(s, ev.spec.hash, Some(ev.r), dest, ev.view);
      if c.ClaimClear? {
        UntrackAllEffect(s, c.refused);
        RefusedGo(s, q, ev.spec.hash, Some(ev.r), dest, ev.view);
      }
    }
  }

  lemma MintUntracks(s: State, ev: Event, q: Ref)
    requires IsTracked(s, q) && (ev.EvAddURL? || ev.EvRestoreErrored?)
    ensures IsTracked(Apply(s, ev), q)
  {
    hide Mint, KeepLeft;
  }

  lemma RemoveUntracks(s: State, ev: Event, q: Ref)
    requires Inv(s) && IsTracked(s, q) && ev.EvRemove?
    ensures IsTracked(Apply(s, ev), q) <==> !Untracks(s, ev, q)
  {
    hide Inv, Remove, Structure;
    if !s.closed && Lookup(s, ev.id).Some? {
      RemovedShape(s, ev.id, ev.deleteData, ev.dirs);
    } else {
      RemovesNothing(s, ev);
    }
  }

  lemma RemovesNothing(s: State, ev: Event)
    requires ev.EvRemove? && (s.closed || Lookup(s, ev.id).None?)
    ensures Apply(s, ev) == s
  {
  }

  lemma MarksInPlace(s: State, r: Ref, left: string, dirs: map<string, DirMatch>)
    requires r < |s.entries|
    ensures var s' := MarkRefused(s, r, left, dirs);
      s'.torrents == s.torrents && |s'.entries| == |s.entries| && s'.entries[r].id == s.entries[r].id
      && s'.entries == s.entries[r := s'.entries[r]]
  {
    hide KeepLeft, ShownBy;
  }

  lemma CleanupUntracks(s: State, r: Ref, left: string, dirs: map<string, DirMatch>, q: Ref)
    requires IsTracked(s, q)
    ensures IsTracked(Cleanup(s, r, left, dirs), q) <==> !Untracks(s, EvCleanup(r, left, dirs), q)
  {
    hide MarkRefused, LeftName, RemoveFirst;
    if r < |s.entries| && s.entries[r].phase.Failed? {
      match s.entries[r].phase.via
      case ViaAdd =>
      case ViaQueue => MarksInPlace(s, r, LeftName(s.entries[r].phase.info, left), dirs);
      case ViaFetch =>
    }
  }

  /** An event takes a tracked entry out of the tables exactly if it is its Remove, its Add failing, or a claim. */
  lemma TrackedUntil(s: State, ev: Event, q: Ref)
    requires Inv(s) && IsTracked(s, q)
    ensures IsTracked(Apply(s, ev), q) <==> !Untracks(s, ev, q)
  {
    hide Inv, Apply, Supersedes, IsTracked;
    if ev.EvAdd? {
      AddUntracks(s, ev, q);
    } else if Adds(ev) {
      MintUntracks(s, ev, q);
    } else if ev.EvFetchClaims? {
      FetchUntracks(s, ev, q);
    } else if ev.EvRemove? {
      RemoveUntracks(s, ev, q);
    } else if ev.EvCleanup? {
      CleanupIs(s, ev);
      CleanupUntracks(s, ev.r, ev.left, ev.dirs, q);
    } else {
      EventTables(s, ev);
      StaysIn(s, ev, q);
    }
  }

  lemma CleanupIs(s: State, ev: Event)
    requires ev.EvCleanup?
    ensures Apply(s, ev) == Cleanup(s, ev.r, ev.left, ev.dirs) && ev == EvCleanup(ev.r, ev.left, ev.dirs)
  {
  }

  lemma StaysIn(s: State, ev: Event, q: Ref)
    requires Inv(s) && IsTracked(s, q) && Apply(s, ev).torrents == s.torrents
    ensures IsTracked(Apply(s, ev), q)
  {
    hide Inv, Apply;
    EventEffect(s, ev, At(q, 0, "", Numbered(0), 0));
  }

  /** None of the events takes entry q out of the tables as it comes up. */
  ghost predicate NoneUntracks(s: State, evs: seq<Event>, q: Ref)
    requires q < |s.entries|
    decreases |evs|
  {
    evs != [] ==>
      !Untracks(s, evs[0], q) && (q < |Apply(s, evs[0]).entries| ==> NoneUntracks(Apply(s, evs[0]), evs[1..], q))
  }

  /** So over any run, and what is once out of the tables stays out. */
  lemma {:induction false} TrackedThroughout(s: State, evs: seq<Event>, q: Ref)
    requires Inv(s) && IsTracked(s, q)
    ensures IsTracked(Run(s, evs), q) <==> NoneUntracks(s, evs, q)
    decreases |evs|
  {
    if evs != [] {
      hide Inv, Apply, Untracks;
      var s' := Apply(s, evs[0]);
      TrackedUntil(s, evs[0], q);
      ApplyKeeps(s, evs[0]);
      if IsTracked(s', q) {
        TrackedThroughout(s', evs[1..], q);
      } else {
        RunLasts(s', evs[1..], q, 0);
        EventLasts(s, evs[0], q, 0);
      }
    }
  }

  // ----- the steps of an attach, and where a failure lands -----

  /**
   Every event moves an entry one step along its attach, or leaves it where it is: the pause read is
   what the join is held by, a failure keeps the name in the info dictionary, and only a removed entry
   ends where it would be published.
   */
  lemma EventSteps(s: State, ev: Event, q: Ref)
    requires Inv(s) && q < |s.entries|
    ensures q < |Apply(s, ev).entries| && Steps(ev, s.entries[q], Apply(s, ev).entries[q])
  {
    hide Inv, Apply, Steps;
    EventEffect(s, ev, At(q, 0, "", Numbered(0), 0));
  }

  /** An entry added by an address attaches for its fetch, one added by infohash for its Add or its turn. */
  predicate Rightly(e: Tracked) {
    && (e.spec.Some? ==> e.byHash)
    && (HoldsSpec(e.phase) || e.phase.Failed? ==> (e.phase.via == ViaFetch <==> !e.byHash))
  }

  lemma StepsRightly(ev: Event, a: Tracked, b: Tracked)
    requires Steps(ev, a, b) && Goes(a, b) && Rightly(a) && (a.byHash ==> !a.phase.Fetching?)
    ensures Rightly(b)
  {
  }

  lemma RightlyKept(s: State, ev: Event, q: Ref)
    requires Inv(s) && q < |s.entries| && Rightly(s.entries[q])
    ensures q < |Apply(s, ev).entries| && Rightly(Apply(s, ev).entries[q])
  {
    hide Inv, Apply, Steps, Goes, Rightly;
    LocalOf(s, q);
    EventEffect(s, ev, At(q, 0, "", Numbered(0), 0));
    StepsRightly(ev, s.entries[q], Apply(s, ev).entries[q]);
  }

  /** The entry an addition makes, if it makes one. */
  predicate LastRightly(s: State, s': State) {
    |s'.entries| == |s.entries| + 1 ==> Rightly(s'.entries[|s.entries|])
  }

  lemma AddedRightly(s: State, spec: Spec, dest: string, prov: Provenance, view: LeftView)
    ensures LastRightly(s, FindOrTrack(s, spec, dest, prov, view).0)
  {
    hide Mint, Insert, DecideClaim, UntrackAll, FindOrTrack, Rightly, ActiveIds;
    var c := DecideClaim(s, spec.hash, None, dest, view);
    if !s.closed && c.ClaimClear? {
      var s1 := UntrackAll(s, c.refused);
      FindOrTrackUnfolds(s, spec, dest, prov, view);
      UntrackAllEffect(s, c.refused);
      AddedHow(s1, spec, dest, prov);
      InsertsLast(s1, AddedEntry(s1, spec, dest, prov), Mint(s1, prov.want).nextID);
    } else {
      AddsNothing(s, spec, dest, prov, view);
    }
  }

  lemma AddedHow(s: State, spec: Spec, dest: string, prov: Provenance)
    ensures Rightly(AddedEntry(s, spec, dest, prov))
  {
    hide Mint, ActiveIds;
    if prov.paused || prov.seedDone { } else if |ActiveIds(s)| >= s.maxActive { } else { }
  }

  lemma InsertsLast(s: State, e: Tracked, n: nat)
    ensures Insert(s, e, n).entries == s.entries + [e]
  {
  }

  lemma AddressRightly(s: State, dest: string, prov: Provenance)
    ensures LastRightly(s, TrackURL(s, dest, prov))
  {
    hide Mint, ActiveIds;
    if prov.paused || prov.seedDone { } else if |ActiveIds(s)| >= s.maxActive { } else { }
  }

  lemma ErroredRightly(s: State, hex: string, dest: string, prov: Provenance, left: string, dirs: map<string, DirMatch>)
    ensures LastRightly(s, TrackErrored(s, hex, dest, prov, left, dirs))
  {
    hide Mint, KeepLeft, ShownBy;
  }

  lemma NewRightly(s: State, ev: Event)
    requires Adds(ev)
    ensures LastRightly(s, Apply(s, ev))
  {
    hide FindOrTrack, TrackURL, TrackErrored, Rightly;
    match ev
    case EvAdd(spec, dest, prov, view) => AddedRightly(s, spec, dest, prov, view);
    case EvAddURL(dest, prov) => AddressRightly(s, dest, prov);
    case EvRestoreErrored(hex, dest, prov, left, dirs) => ErroredRightly(s, hex, dest, prov, left, dirs);
  }

  ghost predicate AllRightly(s: State) {
    forall q | 0 <= q < |s.entries| :: Rightly(s.entries[q])
  }

  lemma EventRightly(s: State, ev: Event)
    requires Inv(s) && AllRightly(s)
    ensures AllRightly(Apply(s, ev))
  {
    hide Inv, Apply, Rightly;
    var s' := Apply(s, ev);
    EventEffect(s, ev, At(0, 0, "", Numbered(0), 0));
    if Adds(ev) {
      AdditionNumbers(s, ev);
      NewRightly(s, ev);
    }
    forall q | 0 <= q < |s'.entries|
      ensures Rightly(s'.entries[q])
    {
      if q < |s.entries| { RightlyKept(s, ev, q); }
    }
  }

  lemma {:induction false} RunRightly(s: State, evs: seq<Event>)
    requires Inv(s) && AllRightly(s)
    ensures AllRightly(Run(s, evs))
    decreases |evs|
  {
    if evs != [] {
      hide Inv, Apply, AllRightly;
      EventRightly(s, evs[0]);
      ApplyKeeps(s, evs[0]);
      RunRightly(Apply(s, evs[0]), evs[1..]);
    }
  }

  lemma AddressStays(s: State, ev: Event, q: Ref)
    requires Inv(s) && IsTracked(s, q) && !s.entries[q].byHash && !s.entries[q].refused && Rightly(s.entries[q])
    ensures IsTracked(Apply(s, ev), q) <==> !(ev.EvRemove? && !s.closed && ev.id == s.entries[q].id)
  {
    hide Inv, Apply, IsTracked, Lives, Strands;
    TrackedUntil(s, ev, q);
  }

  lemma AddressErrs(s: State, ev: Event, q: Ref)
    requires Inv(s) && q < |s.entries| && !s.entries[q].byHash && !s.entries[q].refused && Rightly(s.entries[q])
    ensures q < |Apply(s, ev).entries| && s.entries[q].phase.Failed? && !Apply(s, ev).entries[q].phase.Failed? ==>
              Apply(s, ev).entries[q].state == Errored && !Apply(s, ev).entries[q].refused
  {
    hide Inv, Apply;
    EventSteps(s, ev, q);
  }

  /**
   In every run an unrefused entry added by an address stays tracked until its Remove, though its
   attach may fail: that leaves it errored, where a failed Add is untracked and a queued one refused.
   */
  lemma AddressFailsInPlace(maxActive: nat, evs: seq<Event>, ev: Event, q: Ref)
    ensures var s := Run(Init(maxActive), evs);
      q < |s.entries| && IsTracked(s, q) && !s.entries[q].byHash && !s.entries[q].refused ==>
        var s' := Apply(s, ev);
        && (IsTracked(s', q) <==> !(ev.EvRemove? && !s.closed && ev.id == s.entries[q].id))
        && (s.entries[q].phase.Failed? && q < |s'.entries| && !s'.entries[q].phase.Failed? ==>
              s'.entries[q].state == Errored && !s'.entries[q].refused)
  {
    RunKeeps(Init(maxActive), evs);
    RunRightly(Init(maxActive), evs);
    hide Inv, Run, Apply, Rightly, IsTracked;
    var s := Run(Init(maxActive), evs);
    if q < |s.entries| && IsTracked(s, q) && !s.entries[q].byHash && !s.entries[q].refused {
      AddressStays(s, ev, q);
      AddressErrs(s, ev, q);
    }
  }

  // ----- no torrent is left in the client -----

  /** An attach, or the fetch before it, is of a tracked entry or of one removed meanwhile. */
  predicate Minded(s: State, r: Ref)
    requires r < |s.entries|
  {
    var e := s.entries[r];
    HoldsSpec(e.phase) || e.phase.Fetching? ==> IsTracked(s, r) || e.removed
  }

  /**
   While the engine is open, a torrent the client holds and only one entry was handed is being attached,
   or is a tracked unrefused entry's, or is about to be dropped.
   */
  predicate Accounted(s: State, l: LibRef) {
    l < |s.libs| && !s.closed && Live(s, l) && !s.libs[l].shared ==>
      var c := s.libs[l].creator;
      c < |s.entries| &&
      var e := s.entries[c];
      && e.lib == Some(l)
      && (HoldsSpec(e.phase) || l in s.drops
          || (e.t == Some(l) && IsTracked(s, c) && !e.refused && !e.phase.Refusing?))
  }

  ghost predicate Accounts(s: State) {
    (forall r | 0 <= r < |s.entries| :: Minded(s, r)) && (forall l | 0 <= l < |s.libs| :: Accounted(s, l))
  }

  lemma PromotesTracked(s: State, q: Ref)
    requires Inv(s) && q < |s.entries|
    ensures Promote(s).entries == s.entries || (q < |Promote(s).entries| && Promote(s).entries[q] == s.entries[q])
            || IsTracked(s, q)
  {
    if !s.closed && s.queue != [] && |ActiveIds(s)| < s.maxActive { HeadStarts(s); }
  }

  lemma ClaimsFetching(s: State, ev: Event)
    requires ev.EvFetchClaims? && !(ev.r < |s.entries| && s.entries[ev.r].phase == Fetching)
    ensures Apply(s, ev) == s
  {
  }

  /** Attaching after the event, it was before, or was tracked. */
  lemma WasMinded(s: State, ev: Event, q: Ref)
    requires Inv(s) && q < |s.entries| && Minded(s, q) && q < |Apply(s, ev).entries|
    requires var b := Apply(s, ev).entries[q]; HoldsSpec(b.phase) || b.phase.Fetching?
    ensures IsTracked(s, q) || s.entries[q].removed
  {
    hide Inv, Apply, Promote, IsTracked;
    EventEffect(s, ev, At(q, 0, "", Numbered(0), 0));
    if ev.EvFetchClaims? { if !(ev.r < |s.entries| && s.entries[ev.r].phase == Fetching) { ClaimsFetching(s, ev); } }
    if ev.EvPromote? {
      PromotesTracked(s, q);
      PromoteIs(s);
    }
  }

  lemma PromoteIs(s: State)
    ensures Apply(s, EvPromote) == Promote(s)
  {
  }

  lemma MindedKept(s: State, ev: Event, q: Ref)
    requires Inv(s) && Inv(Apply(s, ev)) && q < |s.entries| && Minded(s, q)
    ensures q < |Apply(s, ev).entries| && Minded(Apply(s, ev), q)
  {
    hide Inv, Apply, Untracks;
    EventEffect(s, ev, At(q, 0, "", Numbered(0), 0));
    var b := Apply(s, ev).entries[q];
    if HoldsSpec(b.phase) || b.phase.Fetching? {
      WasMinded(s, ev, q);
      if IsTracked(s, q) {
        TrackedUntil(s, ev, q);
        if Untracks(s, ev, q) { LostOnlyRemoved(s, ev, q); }
      }
    }
  }

  /** An entry attaching before and after leaves the tables only by its Remove. */
  lemma LostOnlyRemoved(s: State, ev: Event, q: Ref)
    requires Inv(s) && Inv(Apply(s, ev)) && IsTracked(s, q) && Untracks(s, ev, q) && q < |Apply(s, ev).entries|
    requires var b := Apply(s, ev).entries[q]; HoldsSpec(b.phase) || b.phase.Fetching?
    ensures Apply(s, ev).entries[q].removed
  {
    hide Inv, Apply, Remove;
    EventEffect(s, ev, At(q, 0, "", Numbered(0), 0));
    LocalOf(s, q);
    LocalOf(Apply(s, ev), q);
    if ev.EvRemove? { RemovesIt(s, ev, q); }
  }

  lemma RemovesIt(s: State, ev: Event, q: Ref)
    requires ev.EvRemove? && IsTracked(s, q) && Untracks(s, ev, q)
    ensures var s' := Apply(s, ev); q < |s'.entries| && s'.entries[q].removed
    ensures s.entries[q].t.Some? ==> s.entries[q].t.value in Apply(s, ev).drops
  {
    hide Remove;
    RemovedShape(s, ev.id, ev.deleteData, ev.dirs);
  }

  // ----- what the client holds -----

  lemma JoinsNew(s: State, r: Ref)
    requires Inv(s) && r < |s.entries| && s.entries[r].phase.Joining?
    ensures var e := JoinedEntry(s.entries[r], |s.libs|); e.lib == Some(|s.libs|) && HoldsSpec(e.phase)
  {
    hide Inv, JoinedEntry, Goes;
    LocalOf(s, r);
    JoinedGoes(s.entries[r], |s.libs|);
    JoinedLib(s.entries[r], |s.libs|);
  }

  lemma NewAccounted(s: State, r: Ref, l: LibRef)
    requires Inv(s) && r < |s.entries| && |s.libs| <= l < |AddTorrent(s, r).libs|
    ensures Accounted(AddTorrent(s, r), l)
  {
    hide Inv, AddTorrent, JoinedEntry, HeldInfo, Live, JoinGoes;
    if s.entries[r].phase.Joining? {
      AddTorrentUnfolds(s, r);
      JoinsNew(s, r);
    } else {
      AddTorrentNothing(s, r);
    }
  }

  lemma MakesDrop(s: State, l: LibRef)
    ensures l in s.drops ==> !Live(MakeDrop(s, l), l)
  {
  }

  lemma DropsStay(s: State, ev: Event, l: LibRef)
    requires l in s.drops
    ensures l in Apply(s, ev).drops || !Live(Apply(s, ev), l)
  {
    hide Apply, Live;
    if ev == EvMakeDrop(l) {
      MakesDrop(s, l);
      MakeDropIs(s, ev);
    } else if ev.EvMakeDrop? {
      OtherDrop(s, ev, l);
    } else if Adds(ev) {
      AdditionNumbers(s, ev);
    } else {
      EventTables(s, ev);
    }
  }

  lemma MakeDropIs(s: State, ev: Event)
    requires ev.EvMakeDrop?
    ensures Apply(s, ev) == MakeDrop(s, ev.l)
  {
  }

  lemma OtherDrop(s: State, ev: Event, l: LibRef)
    requires ev.EvMakeDrop? && ev.l != l
    ensures l in s.drops ==> l in Apply(s, ev).drops
  {
  }

  lemma PublishDrops(s: State, r: Ref)
    requires r < |s.entries| && s.entries[r].removed && s.entries[r].lib.Some? && HoldsSpec(s.entries[r].phase)
    requires r < |Publish(s, r).entries| && Publish(s, r).entries[r].phase.Ended?
    ensures s.entries[r].lib.value in Publish(s, r).drops
  {
  }

  /** A torrent still held that was so accounted for still is. */
  lemma AccountedKept(s: State, ev: Event, l: LibRef)
    requires Inv(s) && Inv(Apply(s, ev)) && l < |s.libs| && Accounted(s, l)
    requires s.libs[l].creator < |s.entries| && Minded(s, s.libs[l].creator)
    ensures Accounted(Apply(s, ev), l)
  {
    hide Inv, Apply, Untracks, IsTracked;
    var s', c := Apply(s, ev), s.libs[l].creator;
    EventEffect(s, ev, At(c, l, s.libs[l].hash, Numbered(0), 0));
    if l < |s'.libs| && !s'.closed && Live(s', l) && !s'.libs[l].shared {
      HeldBefore(s, ev, l);
      if l in s.drops {
        DropsStay(s, ev, l);
      } else if HoldsSpec(s.entries[c].phase) {
        AttachAccounted(s, ev, l);
      } else {
        PublishedAccounted(s, ev, l);
      }
    }
  }

  lemma HeldBefore(s: State, ev: Event, l: LibRef)
    requires Inv(s) && l < |s.libs| && l < |Apply(s, ev).libs| && Live(Apply(s, ev), l)
    ensures Live(s, l) && (Apply(s, ev).libs[l].shared || !s.libs[l].shared) && (Apply(s, ev).closed || !s.closed)
  {
    hide Inv, Apply;
    EventEffect(s, ev, At(0, l, s.libs[l].hash, Numbered(0), 0));
  }

  lemma AttachAccounted(s: State, ev: Event, l: LibRef)
    requires Inv(s) && Inv(Apply(s, ev)) && l < |s.libs| && Accounted(s, l) && Live(s, l)
    requires !Apply(s, ev).closed && l < |Apply(s, ev).libs| && Live(Apply(s, ev), l)
    requires !Apply(s, ev).libs[l].shared && !s.closed && !s.libs[l].shared
    requires s.libs[l].creator < |s.entries| && Minded(s, s.libs[l].creator)
    requires HoldsSpec(s.entries[s.libs[l].creator].phase)
    ensures Accounted(Apply(s, ev), l)
  {
    hide Inv, Apply, Untracks, Live, Publish;
    var s', c := Apply(s, ev), s.libs[l].creator;
    EventEffect(s, ev, At(c, l, "", Numbered(0), 0));
    LocalOf(s, c);
    LocalOf(s', c);
    var a, b := s.entries[c], s'.entries[c];
    if !HoldsSpec(b.phase) {
      assert !Fallen(b);
      if b.phase.Ended? {
        PublishIs(s, ev);
        if ev.r != c { PublishesOne(s, ev.r, c); }
        PublishDrops(s, c);
      } else {
        StillTracked(s, ev, c);
      }
    }
  }

  lemma PublishIs(s: State, ev: Event)
    requires ev.EvPublish?
    ensures Apply(s, ev) == Publish(s, ev.r)
  {
  }

  lemma PublishesOne(s: State, r: Ref, q: Ref)
    requires q < |s.entries| && q != r
    ensures q < |Publish(s, r).entries| && Publish(s, r).entries[q] == s.entries[q]
  {
  }

  /** Published at this event, it had not been removed. */
  lemma PublishedNow(s: State, ev: Event, q: Ref)
    requires Inv(s) && q < |s.entries| && s.entries[q].t.None? && q < |Apply(s, ev).entries|
    ensures Apply(s, ev).entries[q].t.Some? ==> ev.EvPublish? && ev.r == q && !s.entries[q].removed
  {
    hide Inv, Apply, Publish;
    EventEffect(s, ev, At(q, 0, "", Numbered(0), 0));
    if ev.EvPublish? {
      PublishIs(s, ev);
      if ev.r == q { PublishesKept(s, q); } else { PublishesOne(s, ev.r, q); }
    }
  }

  lemma PublishesKept(s: State, r: Ref)
    requires r < |s.entries| && s.entries[r].t.None? && r < |Publish(s, r).entries|
    ensures Publish(s, r).entries[r].t.Some? ==> !s.entries[r].removed
  {
  }

  lemma StillTracked(s: State, ev: Event, c: Ref)
    requires Inv(s) && c < |s.entries| && Minded(s, c) && HoldsSpec(s.entries[c].phase) && s.entries[c].t.None?
    requires c < |Apply(s, ev).entries| && Apply(s, ev).entries[c].t.Some?
    ensures IsTracked(Apply(s, ev), c)
  {
    hide Inv, Apply, IsTracked;
    PublishedNow(s, ev, c);
    TrackedUntil(s, ev, c);
  }

  lemma PublishedAccounted(s: State, ev: Event, l: LibRef)
    requires Inv(s) && l < |s.libs| && Accounted(s, l) && Live(s, l)
    requires !Apply(s, ev).closed && l < |Apply(s, ev).libs| && Live(Apply(s, ev), l)
    requires !Apply(s, ev).libs[l].shared && !s.closed && !s.libs[l].shared
    requires s.libs[l].creator < |s.entries| && !HoldsSpec(s.entries[s.libs[l].creator].phase) && l !in s.drops
    ensures Accounted(Apply(s, ev), l)
  {
    hide Inv, Apply, Untracks, Live, IsTracked;
    var s', c := Apply(s, ev), s.libs[l].creator;
    EventEffect(s, ev, At(c, l, "", Numbered(0), 0));
    LocalOf(s, c);
    TrackedUntil(s, ev, c);
    if Untracks(s, ev, c) { LostByRemove(s, ev, c); }
  }

  /** A published entry not refused leaves the tables only by its Remove, which asks for the Drop. */
  lemma LostByRemove(s: State, ev: Event, q: Ref)
    requires Inv(s) && IsTracked(s, q) && Untracks(s, ev, q) && !s.entries[q].refused && s.entries[q].t.Some?
    ensures s.entries[q].t.value in Apply(s, ev).drops
  {
    hide Inv, Apply;
    LocalOf(s, q);
    RemovesIt(s, ev, q);
  }

  // ----- every event, every run -----

  lemma NewMinded(s: State, ev: Event)
    requires Inv(s) && |Apply(s, ev).entries| > |s.entries|
    ensures |Apply(s, ev).entries| == |s.entries| + 1 && Minded(Apply(s, ev), |s.entries|)
  {
    hide Inv, Apply, IsTracked;
    EventEffect(s, ev, At(0, 0, "", Numbered(0), 0));
    AdditionNumbers(s, ev);
  }

  lemma NewTorrent(s: State, ev: Event, l: LibRef)
    requires Inv(s) && |s.libs| <= l < |Apply(s, ev).libs|
    ensures Accounted(Apply(s, ev), l)
  {
    hide Inv, Apply, AddTorrent, Accounted;
    EventEffect(s, ev, At(0, l, "", Numbered(0), 0));
    AddTorrentIs(s, ev);
    if ev.r < |s.entries| { NewAccounted(s, ev.r, l); }
  }

  lemma AddTorrentIs(s: State, ev: Event)
    requires ev.EvAddTorrent?
    ensures Apply(s, ev) == AddTorrent(s, ev.r)
    ensures ev.r >= |s.entries| ==> Apply(s, ev) == s
  {
  }

  lemma EventAccounts(s: State, ev: Event)
    requires Inv(s) && Accounts(s)
    ensures Accounts(Apply(s, ev))
  {
    hide Inv, Apply, Minded, Accounted;
    var s' := Apply(s, ev);
    ApplyKeeps(s, ev);
    forall r | 0 <= r < |s'.entries|
      ensures Minded(s', r)
    {
      if r < |s.entries| { MindedKept(s, ev, r); } else { NewMinded(s, ev); }
    }
    forall l | 0 <= l < |s'.libs|
      ensures Accounted(s', l)
    {
      if l < |s.libs| {
        CreatorOf(s, l);
        AccountedKept(s, ev, l);
      } else {
        NewTorrent(s, ev, l);
      }
    }
  }

  lemma CreatorOf(s: State, l: LibRef)
    requires Inv(s) && l < |s.libs|
    ensures s.libs[l].creator < |s.entries|
  {
  }

  lemma {:induction false} RunAccounts(s: State, evs: seq<Event>)
    requires Inv(s) && Accounts(s)
    ensures Accounts(Run(s, evs))
    decreases |evs|
  {
    if evs != [] {
      hide Inv, Apply, Accounts;
      EventAccounts(s, evs[0]);
      ApplyKeeps(s, evs[0]);
      RunAccounts(Apply(s, evs[0]), evs[1..]);
    }
  }

  /**
   No torrent is forgotten in the client: in every run, while the engine is open, one that only one
   entry was handed is still being attached for it, or is to be dropped, or is that entry's, which is
   tracked and not refused.
   */
  lemma NothingLeaks(maxActive: nat, evs: seq<Event>, l: LibRef)
    ensures var s := Run(Init(maxActive), evs);
      !s.closed && Live(s, l) && !s.libs[l].shared ==>
        var c := s.libs[l].creator;
        c < |s.entries| &&
        var e := s.entries[c];
        && e.lib == Some(l)
        && (HoldsSpec(e.phase) || l in s.drops
            || (e.t == Some(l) && IsTracked(s, c) && !e.refused && !e.phase.Refusing?))
  {
    RunKeeps(Init(maxActive), evs);
    RunAccounts(Init(maxActive), evs);
    hide Inv, Run;
    var s := Run(Init(maxActive), evs);
    if l < |s.libs| { assert Accounted(s, l); }
  }
}
