/** What a pause keeps, and what a Resume gives back. */
module EnginePauses {
  import opened Wrappers
  import opened EngineState
  import opened EngineSteps
  import opened EngineInvariants
  import opened EngineProofs
  import opened EngineEffects
  import opened EngineHistory
  import opened EngineSlots

  // ----- what any event does to a pause -----

  predicate Stopped(e: Tracked) {
    e.paused && (e.state == Paused || e.state == Errored)
  }

  /** Its info was accepted. */
  predicate Accepted(p: Phase) {
    p.Waiting? || p.Wanted?
  }

  /** It was, or will not be any more. */
  predicate Over(p: Phase) {
    Accepted(p) || p.Ended?
  }

  predicate Onwards(p: Phase, q: Phase) {
    (Over(p) ==> Over(q)) && (p.Ended? ==> q.Ended?)
  }

  /**
   A pause ends only by a Resume; until then it keeps whose it is and the state to come back
   to, which the arrival of the info alone makes Downloading; and a user who asked to keep
   seeding is not stopped by the seed policy again.
   */
  predicate Rests(ev: Event, q: Ref, a: Tracked, b: Tracked) {
    && b.id == a.id
    && (a.seedOverride ==> b.seedOverride && (!a.seedDone ==> !b.seedDone))
    && (Stopped(a) && !b.paused ==> ev == EvResume(a.id))
    && (Stopped(a) && b.paused ==>
          && b.spacePaused == a.spacePaused && b.seedDone == a.seedDone && b.userPaused == a.userPaused
          && (b.state == a.state || b.state == Errored)
          && Onwards(a.phase, b.phase)
          && b.prePause == (if Accepted(b.phase) && !Over(a.phase) then Downloading else a.prePause))
  }

  predicate EntryRests(s: State, ev: Event, q: Ref) {
    q < |s.entries| ==> q < |Apply(s, ev).entries| && Rests(ev, q, s.entries[q], Apply(s, ev).entries[q])
  }

  lemma RestsSelf(ev: Event, q: Ref, a: Tracked)
    ensures Rests(ev, q, a, a)
  {
  }

  /** An event that moves at most the one entry. */
  lemma OneRests(s: State, ev: Event, r: Ref, e: Tracked, q: Ref)
    requires Apply(s, ev).entries == (if r < |s.entries| then s.entries[r := e] else s.entries)
    requires r < |s.entries| ==> Rests(ev, r, s.entries[r], e)
    ensures EntryRests(s, ev, q)
  {
    hide Apply, Rests;
    if q < |s.entries| && q != r { RestsSelf(ev, q, s.entries[q]); }
  }

  lemma NoneRests(s: State, ev: Event, q: Ref)
    requires Apply(s, ev).entries == s.entries
    ensures EntryRests(s, ev, q)
  {
    hide Apply, Rests;
    if q < |s.entries| { RestsSelf(ev, q, s.entries[q]); }
  }

  /** The entry moves on, or fails, its pause as it was. */
  predicate Still(a: Tracked, b: Tracked) {
    && b.id == a.id && b.paused == a.paused && b.userPaused == a.userPaused && b.spacePaused == a.spacePaused
    && b.seedDone == a.seedDone && b.seedOverride == a.seedOverride && b.prePause == a.prePause
    && (b.state == a.state || b.state == Errored) && Onwards(a.phase, b.phase) && (Accepted(b.phase) ==> Over(a.phase))
  }

  lemma StillRests(s: State, ev: Event, r: Ref, e: Tracked, q: Ref)
    requires r < |s.entries| && Apply(s, ev).entries == s.entries[r := e] && Still(s.entries[r], e)
    ensures EntryRests(s, ev, q)
  {
    hide Apply;
    OneRests(s, ev, r, e, q);
  }

  lemma FetchEndsRests(s: State, ev: Event, r: Ref, q: Ref)
    requires r < |s.entries| && Apply(s, ev) == Put(s, r, FailEntry(s.entries[r]).(phase := Ended))
    ensures EntryRests(s, ev, q)
  {
    hide EntryRests, Apply;
    StillRests(s, ev, r, FailEntry(s.entries[r]).(phase := Ended), q);
  }

  lemma FetchFailsRests(s: State, r: Ref, q: Ref)
    ensures EntryRests(s, EvFetchFails(r), q)
  {
    hide EntryRests;
    if r < |s.entries| && s.entries[r].phase == Fetching {
      FetchEndsRests(s, EvFetchFails(r), r, q);
    } else {
      NoneRests(s, EvFetchFails(r), q);
    }
  }

  lemma ClaimedRests(s: State, ev: Event, r: Ref, spec: Spec, refused: seq<Id>, q: Ref)
    requires r < |s.entries| && s.entries[r].phase == Fetching
    requires Apply(s, ev) == Put(UntrackAll(s, refused), r, s.entries[r].(phase := Starting(ViaFetch, spec)))
    ensures EntryRests(s, ev, q)
  {
    hide EntryRests, Apply, UntrackAll;
    UntrackAllEffect(s, refused);
    StillRests(s, ev, r, s.entries[r].(phase := Starting(ViaFetch, spec)), q);
  }

  lemma ClaimRests(s: State, r: Ref, spec: Spec, view: LeftView, q: Ref)
    ensures EntryRests(s, EvFetchClaims(r, spec, view), q)
  {
    hide EntryRests, DecideClaim, UntrackAll;
    var ev := EvFetchClaims(r, spec, view);
    if spec.hash != "" && r < |s.entries| && s.entries[r].phase == Fetching {
      match DecideClaim(s, spec.hash, Some(r), s.entries[r].savePath, view)
      case ClaimClear(refused) => ClaimedRests(s, ev, r, spec, refused, q);
      case ClaimExisting(_) => FetchEndsRests(s, ev, r, q);
      case ClaimLeftData(_, _) => FetchEndsRests(s, ev, r, q);
    } else {
      NoneRests(s, ev, q);
    }
  }

  lemma ReadHeldRests(s: State, r: Ref, q: Ref)
    ensures EntryRests(s, EvReadHeld(r), q)
  {
    hide EntryRests;
    if r < |s.entries| && s.entries[r].phase.Starting? {
      var e := s.entries[r];
      StillRests(s, EvReadHeld(r), r, e.(phase := Joining(e.phase.via, e.phase.spec, e.paused)), q);
    } else {
      NoneRests(s, EvReadHeld(r), q);
    }
  }

  lemma AttachFailsRests(s: State, r: Ref, q: Ref)
    ensures EntryRests(s, EvAttachFails(r), q)
  {
    hide EntryRests;
    if r < |s.entries| && (s.entries[r].phase.Starting? || s.entries[r].phase.Joining?) {
      var e := s.entries[r];
      StillRests(s, EvAttachFails(r), r, e.(phase := Failed(e.phase.via, e.phase.spec.info)), q);
    } else {
      NoneRests(s, EvAttachFails(r), q);
    }
  }

  lemma AddTorrentRests(s: State, r: Ref, q: Ref)
    ensures EntryRests(s, EvAddTorrent(r), q)
  {
    hide EntryRests, AddTorrent, JoinedEntry;
    if r < |s.entries| && s.entries[r].phase.Joining? {
      var e, h := s.entries[r], s.entries[r].phase.spec.hash;
      AddTorrentUnfolds(s, r);
      var l := if h in s.client && s.client[h] < |s.libs| then s.client[h] else |s.libs|;
      JoinedStill(e, l);
      StillRests(s, EvAddTorrent(r), r, JoinedEntry(e, l), q);
    } else {
      AddTorrentNothing(s, r);
      NoneRests(s, EvAddTorrent(r), q);
    }
  }

  lemma JoinedStill(e: Tracked, l: LibRef)
    requires e.phase.Joining?
    ensures Still(e, JoinedEntry(e, l))
  {
    hide Still;
    if e.phase.held {
      AttachStill(e, l, Added(e.phase.via, e.phase.spec));
    } else {
      AttachStill(e, l, Joined(e.phase.via, e.phase.spec, false));
    }
  }

  lemma AttachStill(e: Tracked, l: LibRef, p: Phase)
    requires !Over(e.phase) && !Over(p)
    ensures Still(e, e.(lib := Some(l), phase := p))
  {
  }

  lemma ShutGatesRests(s: State, r: Ref, q: Ref)
    ensures EntryRests(s, EvShutGates(r), q)
  {
    hide EntryRests;
    if r < |s.entries| && s.entries[r].phase.Added? {
      var e := s.entries[r];
      StillRests(s, EvShutGates(r), r, e.(phase := Shut(e.phase.via, e.phase.spec)), q);
    } else {
      NoneRests(s, EvShutGates(r), q);
    }
  }

  lemma SetInfoAs(s: State, r: Ref, ok: bool, e: Tracked, l: LibRef, info: Option<string>, q: Ref)
    requires r < |s.entries| && Still(s.entries[r], e)
    requires var s1, s' := Put(s, r, e), SetInfo(s, r, ok); s' == Learn(s1, l, info) || s' == Drop(s1, l) || s' == s1
    ensures EntryRests(s, EvSetInfo(r, ok), q)
  {
    hide EntryRests, SetInfo, Still;
    StillRests(s, EvSetInfo(r, ok), r, e, q);
  }

  lemma InfoSetRests(s: State, r: Ref, ok: bool, q: Ref)
    requires r < |s.entries| && s.entries[r].phase.Shut? && s.entries[r].lib.Some? && s.entries[r].lib.value < |s.libs|
    requires ok || s.entries[r].phase.spec.info.None?
    ensures EntryRests(s, EvSetInfo(r, ok), q)
  {
    hide EntryRests, Learn, Drop, Put;
    var e := s.entries[r];
    SetInfoAs(s, r, ok, e.(phase := Joined(e.phase.via, e.phase.spec, true)), e.lib.value, e.phase.spec.info, q);
  }

  lemma InfoUnsetRests(s: State, r: Ref, q: Ref)
    requires r < |s.entries| && s.entries[r].phase.Shut? && s.entries[r].lib.Some? && s.entries[r].lib.value < |s.libs|
    requires s.entries[r].phase.spec.info.Some?
    ensures EntryRests(s, EvSetInfo(r, false), q)
  {
    hide EntryRests, Learn, Drop, Put;
    var e := s.entries[r];
    SetInfoAs(s, r, false, e.(phase := Failed(e.phase.via, e.phase.spec.info)), e.lib.value, None, q);
  }

  lemma SetInfoRests(s: State, r: Ref, ok: bool, q: Ref)
    ensures EntryRests(s, EvSetInfo(r, ok), q)
  {
    hide EntryRests, Learn, Drop, Put;
    if r < |s.entries| && s.entries[r].phase.Shut? && s.entries[r].lib.Some? && s.entries[r].lib.value < |s.libs| {
      if ok || s.entries[r].phase.spec.info.None? { InfoSetRests(s, r, ok, q); } else { InfoUnsetRests(s, r, q); }
    } else {
      NoneRests(s, EvSetInfo(r, ok), q);
    }
  }

  lemma PublishRests(s: State, r: Ref, q: Ref)
    ensures EntryRests(s, EvPublish(r), q)
  {
    hide EntryRests;
    var ev := EvPublish(r);
    if r < |s.entries| && s.entries[r].phase.Joined? && s.entries[r].lib.Some? {
      var e := s.entries[r];
      if e.removed {
        StillRests(s, ev, r, e.(phase := Ended), q);
      } else if s.closed {
        StillRests(s, ev, r, e.(phase := Failed(e.phase.via, e.phase.spec.info)), q);
      } else {
        StillRests(s, ev, r, e.(infoHash := e.phase.spec.hash, t := e.lib, phase := Awaiting), q);
      }
    } else {
      NoneRests(s, ev, q);
    }
  }

  lemma MarkRests(s: State, ev: Event, r: Ref, left: string, dirs: map<string, DirMatch>, q: Ref)
    requires r < |s.entries| && Apply(s, ev) == MarkRefused(s, r, left, dirs)
    ensures EntryRests(s, ev, q)
  {
    hide EntryRests, Apply, KeepLeft, ShownBy;
    var kept := KeepLeft(s, Some(r), s.entries[r].savePath, left, dirs);
    StillRests(s, ev, r, FailEntry(s.entries[r]).(refused := true, leftName := kept.leftName,
      sharedName := kept.sharedName, phase := Ended), q);
  }

  lemma ForgetsRests(s: State, r: Ref, left: string, dirs: map<string, DirMatch>, q: Ref)
    requires r < |s.entries| && s.entries[r].phase.Failed? && s.entries[r].phase.via == ViaAdd
    ensures EntryRests(s, EvCleanup(r, left, dirs), q)
  {
    hide EntryRests, MarkRefused;
    if IsTracked(s, r) { } else { }
    StillRests(s, EvCleanup(r, left, dirs), r, s.entries[r].(phase := Ended), q);
  }

  lemma CleanupRests(s: State, r: Ref, left: string, dirs: map<string, DirMatch>, q: Ref)
    ensures EntryRests(s, EvCleanup(r, left, dirs), q)
  {
    hide EntryRests, MarkRefused, Untrack;
    var ev := EvCleanup(r, left, dirs);
    if r < |s.entries| && s.entries[r].phase.Failed? {
      match s.entries[r].phase.via
      case ViaAdd => ForgetsRests(s, r, left, dirs, q);
      case ViaQueue => MarkRests(s, ev, r, LeftName(s.entries[r].phase.info, left), dirs, q);
      case ViaFetch => FetchEndsRests(s, ev, r, q);
    } else {
      NoneRests(s, ev, q);
    }
  }

  lemma ServiceRests(s: State, ev: Event, q: Ref)
    requires OfService(ev)
    ensures EntryRests(s, ev, q)
  {
    hide EntryRests;
    match ev
    case EvFetchFails(r) => FetchFailsRests(s, r, q);
    case EvFetchClaims(r, spec, view) => ClaimRests(s, r, spec, view, q);
    case EvReadHeld(r) => ReadHeldRests(s, r, q);
    case EvAttachFails(r) => AttachFailsRests(s, r, q);
    case EvAddTorrent(r) => AddTorrentRests(s, r, q);
    case EvShutGates(r) => ShutGatesRests(s, r, q);
    case EvSetInfo(r, ok) => SetInfoRests(s, r, ok, q);
    case EvPublish(r) => PublishRests(s, r, q);
    case EvCleanup(r, left, dirs) => CleanupRests(s, r, left, dirs, q);
    case EvInfoArrives(l, name) => NoneRests(s, ev, q);
  }

  // ----- waiting for the info, and after -----

  lemma RefuseRests(s: State, r: Ref, q: Ref)
    ensures EntryRests(s, EvRefuse(r), q)
  {
    hide EntryRests;
    if r < |s.entries| && s.entries[r].phase == Awaiting && s.entries[r].t.Some? {
      var e := s.entries[r];
      StillRests(s, EvRefuse(r), r, e.(phase := Refusing(InfoOf(s, e.t.value))), q);
    } else {
      NoneRests(s, EvRefuse(r), q);
    }
  }

  lemma RefuseMarksRests(s: State, r: Ref, left: string, dirs: map<string, DirMatch>, q: Ref)
    ensures EntryRests(s, EvRefuseMarks(r, left, dirs), q)
  {
    hide EntryRests, MarkRefused;
    if r < |s.entries| && s.entries[r].phase.Refusing? {
      MarkRests(s, EvRefuseMarks(r, left, dirs), r, LeftName(s.entries[r].phase.info, left), dirs, q);
    } else {
      NoneRests(s, EvRefuseMarks(r, left, dirs), q);
    }
  }

  lemma AcceptedAs(s: State, r: Ref, e: Tracked, q: Ref)
    requires r < |s.entries| && Rests(EvInfoAccepted(r), r, s.entries[r], e)
    requires InfoAccepted(s, r) == Put(s, r, e) || InfoAccepted(s, r) == Gate(Put(s, r, e), e.t, false, false)
    ensures EntryRests(s, EvInfoAccepted(r), q)
  {
    hide EntryRests, InfoAccepted, Rests;
    OneRests(s, EvInfoAccepted(r), r, e, q);
  }

  lemma AcceptedRests(s: State, r: Ref, q: Ref)
    ensures EntryRests(s, EvInfoAccepted(r), q)
  {
    hide EntryRests, Gate, Put;
    var ev := EvInfoAccepted(r);
    if r < |s.entries| && s.entries[r].phase == Awaiting && s.entries[r].t.Some? &&
        InfoOf(s, s.entries[r].t.value).Some? {
      var e := s.entries[r];
      var e1 := e.(phase := Waiting(InfoOf(s, e.t.value).value));
      if e.state == Queued {
        AcceptedAs(s, r, e1, q);
      } else if e.paused {
        AcceptedAs(s, r, e1.(prePause := Downloading), q);
      } else if e.state == Checking {
        AcceptedAs(s, r, e1.(state := Downloading), q);
      } else {
        AcceptedAs(s, r, e1, q);
      }
    } else {
      NoneRests(s, ev, q);
    }
  }

  lemma EndRests(s: State, ev: Event, r: Ref, p: Phase, q: Ref)
    requires r < |s.entries|
    requires Apply(s, ev).entries == s.entries || Apply(s, ev).entries == s.entries[r := s.entries[r].(phase := p)]
    requires Apply(s, ev).entries != s.entries ==>
      Onwards(s.entries[r].phase, p) && (Accepted(p) ==> Over(s.entries[r].phase))
    ensures EntryRests(s, ev, q)
  {
    hide EntryRests, Apply;
    if Apply(s, ev).entries == s.entries {
      NoneRests(s, ev, q);
    } else {
      StillRests(s, ev, r, s.entries[r].(phase := p), q);
    }
  }

  lemma PassDeletesRests(s: State, r: Ref, q: Ref)
    ensures EntryRests(s, EvPassDeletes(r), q)
  {
    hide EntryRests, Covered;
    if r < |s.entries| { EndRests(s, EvPassDeletes(r), r, Wanted, q); } else { NoneRests(s, EvPassDeletes(r), q); }
  }

  lemma QuitRests(s: State, r: Ref, q: Ref)
    ensures EntryRests(s, EvQuit(r), q)
  {
    hide EntryRests;
    if r < |s.entries| { EndRests(s, EvQuit(r), r, Ended, q); } else { NoneRests(s, EvQuit(r), q); }
  }

  lemma RemoveRests(s: State, id: Id, deleteData: bool, dirs: map<string, DirMatch>, q: Ref)
    ensures EntryRests(s, EvRemove(id, deleteData, dirs), q)
  {
    hide EntryRests, RemoveTarget;
    var ev := EvRemove(id, deleteData, dirs);
    if s.closed || Lookup(s, id).None? {
      NoneRests(s, ev, q);
    } else {
      var r := Lookup(s, id).value;
      StillRests(s, ev, r, s.entries[r].(removed := true), q);
    }
  }

  lemma WaitingRests(s: State, ev: Event, q: Ref)
    requires OfWaiting(ev)
    ensures EntryRests(s, ev, q)
  {
    hide EntryRests;
    match ev
    case EvRefuse(r) => RefuseRests(s, r, q);
    case EvRefuseMarks(r, left, dirs) => RefuseMarksRests(s, r, left, dirs, q);
    case EvInfoAccepted(r) => AcceptedRests(s, r, q);
    case EvPassDeletes(r) => PassDeletesRests(s, r, q);
    case EvQuit(r) => QuitRests(s, r, q);
    case EvRemove(id, deleteData, dirs) => RemoveRests(s, id, deleteData, dirs, q);
    case EvMakeDrop(l) => NoneRests(s, ev, q);
    case EvEndDelete(k) => NoneRests(s, ev, q);
    case EvClose => NoneRests(s, ev, q);
  }

  // ----- the calls -----

  lemma AddRests(s: State, ev: Event, q: Ref)
    requires Inv(s) && Adds(ev)
    ensures EntryRests(s, ev, q)
  {
    hide Inv, Apply, Rests;
    AdditionAppends(s, ev);
    if q < |s.entries| { RestsSelf(ev, q, s.entries[q]); }
  }

  /** Pausing what is not paused yet. */
  lemma PausedRests(ev: Event, q: Ref, a: Tracked, byUser: bool)
    requires !a.paused
    ensures Rests(ev, q, a, PausedEntry(a, byUser))
  {
    if a.state != Errored { } else { }
  }

  lemma PauseRests(s: State, id: Id, q: Ref)
    ensures EntryRests(s, EvPause(id), q)
  {
    hide EntryRests, PausedEntry, Rests;
    if s.closed || Lookup(s, id).None? || s.entries[Lookup(s, id).value].paused {
      NoneRests(s, EvPause(id), q);
    } else {
      var r := Lookup(s, id).value;
      PausedRests(EvPause(id), r, s.entries[r], true);
      OneRests(s, EvPause(id), r, PausedEntry(s.entries[r], true), q);
    }
  }

  /** A shutdown pauses the entry, or leaves it. */
  lemma {:induction false} PauseAllEntry(s: State, ids: seq<Id>, q: Ref)
    requires q < |s.entries|
    ensures var s' := PauseAll(s, ids);
      && |s'.entries| == |s.entries|
      && (s'.entries[q] == s.entries[q] ||
          (!s.entries[q].paused && s'.entries[q] == PausedEntry(s.entries[q], false)))
    decreases |ids|
  {
    if ids != [] {
      hide PausedEntry, PauseEntry;
      var l := Lookup(s, ids[0]);
      PausedIsPaused(s.entries[q], false);
      if l.Some? && !s.entries[l.value].paused {
        PausesEntry(s, l.value, false);
        PauseAllEntry(PauseEntry(s, l.value, false), ids[1..], q);
      } else {
        PauseAllEntry(s, ids[1..], q);
      }
    }
  }

  lemma PausedIsPaused(a: Tracked, byUser: bool)
    ensures PausedEntry(a, byUser).paused
  {
    if a.state != Errored { } else { }
  }

  lemma PausesEntry(s: State, r: Ref, byUser: bool)
    requires r < |s.entries|
    ensures PauseEntry(s, r, byUser).entries == s.entries[r := PausedEntry(s.entries[r], byUser)]
  {
    hide PausedEntry;
  }

  lemma ShutdownRests(s: State, q: Ref)
    ensures EntryRests(s, EvPauseForShutdown, q)
  {
    hide PauseAll, PausedEntry, Rests;
    if q < |s.entries| {
      RestsSelf(EvPauseForShutdown, q, s.entries[q]);
      if !s.closed {
        PauseAllEntry(s, s.order, q);
        if !s.entries[q].paused { PausedRests(EvPauseForShutdown, q, s.entries[q], false); }
      }
    }
  }

  lemma ResumedRests(q: Ref, a: Tracked)
    ensures Rests(EvResume(a.id), q, a, ResumedEntry(a))
    ensures Rests(EvResume(a.id), q, a, ResumedEntry(a).(state := Queued)) && !ResumedEntry(a).paused
  {
    if a.spacePaused { } else if a.seedDone && a.state != Errored { } else if a.state == Paused { } else { }
  }

  lemma ResumeRests(s: State, id: Id, q: Ref)
    requires Inv(s)
    ensures EntryRests(s, EvResume(id), q)
  {
    hide Inv, EntryRests, ResumedEntry, Resume, Rests, ActiveIds, Startable;
    if s.closed || Lookup(s, id).None? || !s.entries[Lookup(s, id).value].paused {
      ResumeNothing(s, id);
      NoneRests(s, EvResume(id), q);
    } else {
      var r := Lookup(s, id).value;
      TrackedOf(s, id);
      var e := ResumedEntry(s.entries[r]);
      ResumeUnfolds(s, r, e);
      ResumedRests(r, s.entries[r]);
      if Resume(s, id).entries == s.entries[r := e] {
        OneRests(s, EvResume(id), r, e, q);
      } else {
        OneRests(s, EvResume(id), r, e.(state := Queued), q);
      }
    }
  }

  lemma PromotedRests(s: State, q: Ref, a: Tracked)
    requires !a.paused && Startable(a)
    ensures Rests(EvPromote, q, a, PromotedEntry(s, a))
  {
    if a.t.Some? { } else if a.url { } else { }
  }

  lemma PromoteRests(s: State, q: Ref)
    requires Inv(s)
    ensures EntryRests(s, EvPromote, q)
  {
    hide Inv, EntryRests, PromotedEntry, ActiveIds, Rests;
    if s.closed || s.queue == [] || |ActiveIds(s)| >= s.maxActive {
      NoneRests(s, EvPromote, q);
    } else {
      HeadStarts(s);
      var r := s.torrents[s.queue[0]];
      PromotedMoved(s, r);
      PromotedRests(s, r, s.entries[r]);
      OneRests(s, EvPromote, r, PromotedEntry(s, s.entries[r]), q);
    }
  }

  lemma CompleteRests(s: State, id: Id, q: Ref)
    ensures EntryRests(s, EvComplete(id), q)
  {
    hide EntryRests;
    if Complete(s, id) == s {
      NoneRests(s, EvComplete(id), q);
    } else {
      var r := Lookup(s, id).value;
      OneRests(s, EvComplete(id), r, s.entries[r].(state := Seeding), q);
    }
  }

  lemma SeedStopsRests(s: State, id: Id, q: Ref)
    ensures EntryRests(s, EvSeedStops(id), q)
  {
    hide EntryRests;
    if SeedStops(s, id) == s {
      NoneRests(s, EvSeedStops(id), q);
    } else {
      var r := Lookup(s, id).value;
      OneRests(s, EvSeedStops(id), r, SeedHeld(s.entries[r]), q);
    }
  }

  lemma SpaceStopsRests(s: State, r: Ref, q: Ref)
    ensures EntryRests(s, EvSpaceStops(r), q)
  {
    hide EntryRests;
    if SpaceStops(s, r) == s {
      NoneRests(s, EvSpaceStops(r), q);
    } else {
      OneRests(s, EvSpaceStops(r), r, SpaceHeld(s.entries[r]), q);
    }
  }

  lemma CallRests(s: State, ev: Event, q: Ref)
    requires Inv(s) && !OfService(ev) && !OfWaiting(ev)
    ensures EntryRests(s, ev, q)
  {
    hide Inv, EntryRests;
    match ev
    case EvPause(id) => PauseRests(s, id, q);
    case EvPauseForShutdown => ShutdownRests(s, q);
    case EvResume(id) => ResumeRests(s, id, q);
    case EvMoveInQueue(id, position) => NoneRests(s, ev, q);
    case EvPromote => PromoteRests(s, q);
    case EvComplete(id) => CompleteRests(s, id, q);
    case EvSeedStops(id) => SeedStopsRests(s, id, q);
    case EvSpaceStops(r) => SpaceStopsRests(s, r, q);
    case _ => AddRests(s, ev, q);
  }

  lemma EventRests(s: State, ev: Event, q: Ref)
    requires Inv(s)
    ensures EntryRests(s, ev, q)
  {
    hide Inv, EntryRests;
    if OfService(ev) {
      ServiceRests(s, ev, q);
    } else if OfWaiting(ev) {
      WaitingRests(s, ev, q);
    } else {
      CallRests(s, ev, q);
    }
  }

  // ----- over runs -----

  /** The entry is as a pause left it, but for what it waits for and for failing. */
  predicate StillStopped(a: Tracked, b: Tracked) {
    && b.id == a.id && Stopped(b) && (b.state == a.state || b.state == Errored)
    && b.spacePaused == a.spacePaused && b.seedDone == a.seedDone && b.userPaused == a.userPaused
    && (a.seedOverride ==> b.seedOverride)
    && Onwards(a.phase, b.phase) && GoneBack(a, b)
  }

  /** The state to come back to is as it was, or Downloading once the info was accepted. */
  predicate GoneBack(a: Tracked, b: Tracked) {
    && (b.prePause == a.prePause || (!Over(a.phase) && Over(b.phase) && b.prePause == Downloading))
    && (Accepted(b.phase) && !Over(a.phase) ==> b.prePause == Downloading)
  }

  /** Whatever happens meanwhile but a Resume of it. */
  lemma {:induction false} PauseHolds(s: State, evs: seq<Event>, r: Ref)
    requires Inv(s) && r < |s.entries| && Stopped(s.entries[r]) && EvResume(s.entries[r].id) !in evs
    ensures var t := Run(s, evs);
      r < |t.entries| && StillStopped(s.entries[r], t.entries[r])
    decreases |evs|
  {
    if evs != [] {
      hide Inv, Apply;
      hide Rests, StillStopped, Stopped;
      assert evs == [evs[0]] + evs[1..];
      var s1 := Apply(s, evs[0]);
      EventRests(s, evs[0], r);
      ApplyKeeps(s, evs[0]);
      StoppedStays(evs[0], r, s.entries[r], s1.entries[r]);
      PauseHolds(s1, evs[1..], r);
      StoppedOn(evs[0], r, s.entries[r], s1.entries[r], Run(s1, evs[1..]).entries[r]);
    } else {
      assert StillStopped(s.entries[r], s.entries[r]);
    }
  }

  lemma StoppedStays(ev: Event, q: Ref, a: Tracked, b: Tracked)
    requires Rests(ev, q, a, b) && Stopped(a) && ev != EvResume(a.id)
    ensures Stopped(b) && b.id == a.id
  {
  }

  lemma StoppedOn(ev: Event, q: Ref, a: Tracked, b: Tracked, c: Tracked)
    requires Rests(ev, q, a, b) && Stopped(a) && ev != EvResume(a.id) && StillStopped(b, c)
    ensures StillStopped(a, c)
  {
  }

  /** The state an entry that wants to be in state want resumes to: the queue when it wants a slot and none is free. */
  function ComesTo(s: State, e: Tracked, want: Status): Status {
    if (e.t.Some? || e.spec.Some? || e.url) &&
       (want == Queued || ((want == Checking || want == Downloading) && |ActiveIds(s)| >= s.maxActive))
    then Queued
    else want
  }

  /** The resumed entry, field by field; it is last in the queue if it is queued. */
  predicate Returns(s: State, r: Ref, want: Status, seeds: bool)
    requires r < |s.entries|
  {
    var e, s' := s.entries[r], Resume(s, s.entries[r].id);
    var state := ComesTo(s, e, want);
    && s'.entries == s.entries[r := e.(paused := false, userPaused := false, spacePaused := false, state := state,
                                       seedDone := e.seedDone && !seeds, seedOverride := e.seedOverride || seeds)]
    && s'.queue == (if state == Queued then s.queue + [e.id] else s.queue)
  }

  lemma ResumedTo(s: State, r: Ref, want: Status, seeds: bool)
    requires Inv(s) && !s.closed && IsTracked(s, r) && s.entries[r].paused
    requires var e := s.entries[r];
      || (e.spacePaused && want == e.prePause && !seeds)
      || (!e.spacePaused && e.seedDone && e.state == Paused && want == Seeding && seeds)
      || (!e.spacePaused && !e.seedDone && e.state == Paused && want == e.prePause && !seeds)
    ensures Returns(s, r, want, seeds)
  {
    hide Inv, Resume, ActiveIds;
    var e := s.entries[r];
    LocalOf(s, r);
    StructureOf(s);
    QueueOf(s);
    PausedOffQueue(s, r);
    ResumeEntries(s, r);
    ResumedFields(e, want, seeds);
    ResumeQueue(s, r);
    WaitsFor(s, r, want, seeds);
  }

  lemma WaitsFor(s: State, r: Ref, want: Status, seeds: bool)
    requires r < |s.entries|
    requires var e := s.entries[r];
      ResumedEntry(e) == e.(paused := false, userPaused := false, spacePaused := false, state := want,
                            seedDone := e.seedDone && !seeds, seedOverride := e.seedOverride || seeds)
    ensures var e := s.entries[r]; var state := ComesTo(s, e, want);
      && (Waits(s, r) <==> state == Queued && (want == Queued ==> e.t.Some? || e.spec.Some? || e.url))
      && AfterResume(s, r) ==
           e.(paused := false, userPaused := false, spacePaused := false, state := state,
              seedDone := e.seedDone && !seeds, seedOverride := e.seedOverride || seeds)
  {
    hide ResumedEntry, ActiveIds;
  }

  lemma ResumedFields(e: Tracked, want: Status, seeds: bool)
    requires e.paused
    requires || (e.spacePaused && want == e.prePause && !seeds)
             || (!e.spacePaused && e.seedDone && e.state == Paused && want == Seeding && seeds)
             || (!e.spacePaused && !e.seedDone && e.state == Paused && want == e.prePause && !seeds)
    ensures ResumedEntry(e) == e.(paused := false, userPaused := false, spacePaused := false, state := want,
                                  seedDone := e.seedDone && !seeds, seedOverride := e.seedOverride || seeds)
  {
    if e.spacePaused { } else if e.seedDone && e.state != Errored { } else { }
  }

  lemma ResumeQueue(s: State, r: Ref)
    requires Structure(s) && !s.closed && IsTracked(s, r) && s.entries[r].paused && s.entries[r].id !in s.queue
    ensures Resume(s, s.entries[r].id).queue == if Waits(s, r) then s.queue + [s.entries[r].id] else s.queue
  {
    hide ResumedEntry, ActiveIds, Resume;
    var e := ResumedEntry(s.entries[r]);
    ResumedId(s.entries[r]);
    WaitsExactly(s, r);
    ResumeUnfolds(s, r, e);
  }

  /**
   However long it was paused, a Resume gives the entry back the state the user's Pause took,
   or Downloading once its info was accepted meanwhile, unless it has to queue for a slot.
   */
  lemma ResumeGivesBack(s: State, evs: seq<Event>, r: Ref)
    requires Inv(s) && !s.closed && IsTracked(s, r)
    requires var e := s.entries[r]; !e.paused && !e.refused && e.state != Errored && EvResume(e.id) !in evs
    ensures var e, t := s.entries[r], Run(Pause(s, s.entries[r].id), evs);
      r < |t.entries| && t.entries[r].id == e.id && t.entries[r].paused && t.entries[r].userPaused &&
      (!t.closed && IsTracked(t, r) && t.entries[r].state != Errored ==>
        var p := t.entries[r].phase;
        && (Returns(t, r, e.state, false) || (!Over(e.phase) && Over(p) && Returns(t, r, Downloading, false)))
        && (Accepted(p) && !Over(e.phase) ==> Returns(t, r, Downloading, false)))
  {
    hide Inv, Run, Pause, Returns;
    var e := s.entries[r];
    UserPauses(s, r);
    PauseKeeps(s, e.id);
    var s1 := Pause(s, e.id);
    PauseHolds(s1, evs, r);
    RunKeeps(s1, evs);
    var t := Run(s1, evs);
    if !t.closed && IsTracked(t, r) && t.entries[r].state != Errored {
      StoppedByUser(s1.entries[r], t.entries[r]);
      ResumedTo(t, r, t.entries[r].prePause, false);
    }
  }

  lemma UserPauses(s: State, r: Ref)
    requires Inv(s) && !s.closed && IsTracked(s, r)
    requires !s.entries[r].paused && !s.entries[r].refused && s.entries[r].state != Errored
    ensures var e, s' := s.entries[r], Pause(s, s.entries[r].id);
      && r < |s'.entries| && Stopped(s'.entries[r]) && s'.entries[r].id == e.id
      && s'.entries[r].state == Paused && s'.entries[r].prePause == e.state && s'.entries[r].userPaused
      && !s'.entries[r].seedDone && !s'.entries[r].spacePaused && s'.entries[r].phase == e.phase
  {
    hide Inv;
    LocalOf(s, r);
  }

  lemma StoppedByUser(a: Tracked, b: Tracked)
    requires StillStopped(a, b) && a.state == Paused && !a.spacePaused && !a.seedDone && b.state != Errored
    ensures b.paused && b.state == Paused && !b.spacePaused && !b.seedDone
    ensures GoneBack(a, b)
  {
  }

  // ----- the seed policy's stop -----

  /** The entry keeps seeding by the user's wish. */
  lemma {:induction false} OverrideLasts(s: State, evs: seq<Event>, r: Ref)
    requires Inv(s) && r < |s.entries| && s.entries[r].seedOverride && !s.entries[r].seedDone
    ensures var t := Run(s, evs);
      r < |t.entries| && t.entries[r].seedOverride && !t.entries[r].seedDone && t.entries[r].id == s.entries[r].id
    decreases |evs|
  {
    if evs != [] {
      hide Inv, Apply;
      EventRests(s, evs[0], r);
      ApplyKeeps(s, evs[0]);
      OverrideLasts(Apply(s, evs[0]), evs[1..], r);
    }
  }

  lemma OverrideSpares(s: State, r: Ref)
    requires IsTracked(s, r) && s.entries[r].seedOverride
    ensures SeedStops(s, s.entries[r].id) == s
  {
  }

  lemma SeedStopped(s: State, id: Id)
    requires Inv(s) && id in s.torrents && SeedStops(s, id) != s
    ensures var r, s' := s.torrents[id], SeedStops(s, id);
      && r < |s'.entries| && |s'.entries| == |s.entries| && s'.entries[r].id == id && Stopped(s'.entries[r])
      && s'.entries[r].seedDone && s'.entries[r].state == Paused && !s'.entries[r].spacePaused
  {
    hide Inv;
    TrackedOf(s, id);
    LocalOf(s, s.torrents[id]);
  }

  /**
   A Resume of an entry the seed policy stopped makes it seed on, and from then on, in every
   run, the seed policy does not stop it again.
   */
  lemma SeedStopUndone(s: State, id: Id, evs: seq<Event>, more: seq<Event>)
    requires Inv(s) && id in s.torrents && SeedStops(s, id) != s && EvResume(id) !in evs
    ensures var r, t := s.torrents[id], Run(SeedStops(s, id), evs);
      r < |t.entries| && t.entries[r].id == id && t.entries[r].paused && t.entries[r].seedDone &&
      (!t.closed && IsTracked(t, r) && t.entries[r].state != Errored ==>
        && Returns(t, r, Seeding, true)
        && var u := Run(Resume(t, id), more);
           r < |u.entries| && u.entries[r].seedOverride && !u.entries[r].seedDone &&
           (IsTracked(u, r) ==> SeedStops(u, id) == u))
  {
    hide Inv, Run, SeedStops, Resume;
    var r, s1 := s.torrents[id], SeedStops(s, id);
    SeedStopped(s, id);
    SeedStopsKeeps(s, id);
    PauseHolds(s1, evs, r);
    RunKeeps(s1, evs);
    var t := Run(s1, evs);
    if !t.closed && IsTracked(t, r) && t.entries[r].state != Errored {
      ResumedTo(t, r, Seeding, true);
      ResumeKeeps(t, id);
      OverrideLasts(Resume(t, id), more, r);
      var u := Run(Resume(t, id), more);
      if IsTracked(u, r) { OverrideSpares(u, r); }
    }
  }

  // ----- the space check's stop -----

  lemma SpaceStopped(s: State, r: Ref)
    requires Inv(s) && SpaceStops(s, r) != s
    ensures var s' := SpaceStops(s, r);
      && r < |s'.entries| && |s'.entries| == |s.entries| && Stopped(s'.entries[r]) && s'.entries[r].spacePaused
      && s'.entries[r].prePause == Downloading && s'.entries[r].state == Errored && s'.entries[r].id == s.entries[r].id
  {
  }

  /** A Resume of an entry the space check stopped makes it download on, or queue for it. */
  lemma SpaceStopUndone(s: State, r: Ref, evs: seq<Event>)
    requires Inv(s) && SpaceStops(s, r) != s && EvResume(s.entries[r].id) !in evs
    ensures var t := Run(SpaceStops(s, r), evs);
      r < |t.entries| && t.entries[r].paused && t.entries[r].spacePaused && t.entries[r].state == Errored &&
      (!t.closed && IsTracked(t, r) ==> Returns(t, r, Downloading, false))
  {
    hide Inv, Run, SpaceStops, Returns;
    var s1 := SpaceStops(s, r);
    SpaceStopped(s, r);
    SpaceStopsKeeps(s, r);
    PauseHolds(s1, evs, r);
    RunKeeps(s1, evs);
    var t := Run(s1, evs);
    StoppedBySpace(s1.entries[r], t.entries[r]);
    if !t.closed && IsTracked(t, r) { ResumedTo(t, r, Downloading, false); }
  }

  lemma StoppedBySpace(a: Tracked, b: Tracked)
    requires StillStopped(a, b) && a.spacePaused && a.state == Errored && a.prePause == Downloading
    ensures b.paused && b.state == Errored && b.spacePaused && b.prePause == Downloading
  {
  }

  // ----- a shutdown -----

  /** PauseForShutdown pauses every tracked entry and leaves the user's marks as they were. */
  lemma {:induction false} ShutdownPauses(s: State, ids: seq<Id>, q: Ref)
    requires q < |s.entries|
    ensures var s' := PauseAll(s, ids);
      && q < |s'.entries| && s'.entries[q].userPaused == s.entries[q].userPaused
      && (s.entries[q].paused ==> s'.entries[q] == s.entries[q])
      && (IsTracked(s, q) && s.entries[q].id in ids ==> s'.entries[q].paused)
    decreases |ids|
  {
    if ids != [] {
      hide PausedEntry, PauseEntry;
      var l := Lookup(s, ids[0]);
      PausedIsPaused(s.entries[q], false);
      PausedMarks(s.entries[q]);
      assert ids == [ids[0]] + ids[1..];
      if l.Some? && !s.entries[l.value].paused {
        PausesEntry(s, l.value, false);
        PausesTables(s, l.value, false);
        ShutdownPauses(PauseEntry(s, l.value, false), ids[1..], q);
      } else {
        ShutdownPauses(s, ids[1..], q);
      }
    }
  }

  lemma PausedMarks(a: Tracked)
    ensures PausedEntry(a, false).userPaused == a.userPaused && PausedEntry(a, false).id == a.id
  {
    if a.state != Errored { } else { }
  }

  lemma PausesTables(s: State, r: Ref, byUser: bool)
    requires r < |s.entries|
    ensures PauseEntry(s, r, byUser).torrents == s.torrents
  {
  }

  /** So nothing is left running, and what is saved as paused by the user is what the user paused. */
  lemma ShutdownStopsAll(s: State, q: Ref)
    requires Inv(s) && !s.closed && q < |s.entries|
    ensures var s' := PauseForShutdown(s);
      && q < |s'.entries| && s'.entries[q].userPaused == s.entries[q].userPaused
      && (IsTracked(s, q) ==> s'.entries[q].paused)
    ensures ActiveIds(PauseForShutdown(s)) == {}
  {
    hide Inv, PauseAll;
    StructureOf(s);
    ShutdownPauses(s, s.order, q);
    PauseAllShape(s, s.order, q);
    forall id | id in s.torrents
      ensures id !in ActiveIds(PauseForShutdown(s))
    {
      TracksOf(s, id);
      PauseAllShape(s, s.order, s.torrents[id]);
      ShutdownPauses(s, s.order, s.torrents[id]);
    }
  }
}
