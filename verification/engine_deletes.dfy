/** What a download waits for before it touches a disk that deletes are under way on. */
module EngineDeletes {
  import opened Wrappers
  import opened EngineState
  import opened EngineSteps
  import opened EngineInvariants
  import opened EngineProofs
  import opened EngineEffects
  import opened EngineHistory

  // ----- a delete recorded later spares a name known earlier -----

  /** The delete may be of this name, at this destination as far as its Remove could tell. */
  predicate MayBeOf(d: InflightDelete, savePath: string, name: string) {
    MayBeSameName(d.name, name) && MayBeSameDir(d.savePath, savePath, d.dirs)
  }

  /** Entry q is published and its data's name is known. */
  predicate KnownAs(s: State, q: Ref, name: string) {
    q < |s.entries| && s.entries[q].t.Some? && s.entries[q].t.value < |s.libs| &&
      InfoOf(s, s.entries[q].t.value) == Some(name)
  }

  /** No delete numbered from n on may be of entry q's data while it is tracked and not refused. */
  ghost predicate SparedFrom(s: State, q: Ref, name: string, n: nat) {
    q < |s.entries| && IsTracked(s, q) && !s.entries[q].refused ==>
      forall k | k in s.deleting && k >= n :: !MayBeOf(s.deleting[k], s.entries[q].savePath, name)
  }

  /** What a Remove records, if anything, takes the next number. */
  lemma RemoveRecords(s: State, id: Id, deleteData: bool, dirs: map<string, DirMatch>)
    requires !s.closed && Lookup(s, id).Some?
    ensures var r, s' := Lookup(s, id).value, Remove(s, id, deleteData, dirs);
      var name := RemoveTarget(s, r, deleteData, dirs).name;
      s'.deleting == if name == "" then s.deleting
        else s.deleting[s.nextDelete := InflightDelete(s.entries[r].savePath, name, dirs)]
  {
    hide RemoveTarget;
  }

  /** A name known is a data name. */
  lemma KnownName(s: State, q: Ref, name: string)
    requires KnownAs(s, q, name) && !s.entries[q].refused
    ensures DataName(s, s.entries[q]) == Some(name)
  {
  }

  lemma TargetSpares(s: State, r: Ref, deleteData: bool, dirs: map<string, DirMatch>, q: Ref, name: string)
    requires r < |s.entries| && KnownAs(s, q, name) && IsTracked(s, q) && !s.entries[q].refused && q != r
    ensures var n := RemoveTarget(s, r, deleteData, dirs).name;
      n != "" ==> !MayBeOf(InflightDelete(s.entries[r].savePath, n, dirs), s.entries[q].savePath, name)
  {
    hide RemoveTarget, DataName;
    TargetApart(s, r, deleteData, dirs);
    KnownName(s, q, name);
  }

  lemma RemoveSpares(s: State, id: Id, deleteData: bool, dirs: map<string, DirMatch>, q: Ref, name: string, n: nat)
    requires Inv(s) && KnownAs(s, q, name) && SparedFrom(s, q, name, n) && !s.closed && Lookup(s, id).Some?
    ensures SparedFrom(Remove(s, id, deleteData, dirs), q, name, n)
  {
    hide Inv, Remove, RemoveTarget, MayBeOf, KnownAs;
    TrackedOf(s, id);
    var r, s' := Lookup(s, id).value, Remove(s, id, deleteData, dirs);
    RemovedShape(s, id, deleteData, dirs);
    RemoveRecords(s, id, deleteData, dirs);
    KnownBound(s, q, name);
    if IsTracked(s', q) && !s'.entries[q].refused && q != r {
      assert s'.entries[q] == s.entries[q] && IsTracked(s, q);
      TargetSpares(s, r, deleteData, dirs, q, name);
    }
  }

  lemma KnownBound(s: State, q: Ref, name: string)
    requires KnownAs(s, q, name)
    ensures q < |s.entries|
  {
  }

  lemma RemoveSparesAny(s: State, id: Id, deleteData: bool, dirs: map<string, DirMatch>, q: Ref, name: string, n: nat)
    requires Inv(s) && KnownAs(s, q, name) && SparedFrom(s, q, name, n)
    ensures SparedFrom(Remove(s, id, deleteData, dirs), q, name, n)
  {
    hide Inv, SparedFrom, KnownAs, Remove;
    if s.closed || Lookup(s, id).None? {
      RemoveNothing(s, id, deleteData, dirs);
    } else {
      RemoveSpares(s, id, deleteData, dirs, q, name, n);
    }
  }

  lemma EventKnows(s: State, ev: Event, q: Ref, name: string)
    requires Inv(s) && KnownAs(s, q, name)
    ensures KnownAs(Apply(s, ev), q, name)
  {
    hide Inv, Apply;
    EventLasts(s, ev, q, s.entries[q].t.value);
  }

  lemma OthersSpare(s: State, ev: Event, q: Ref, name: string, n: nat)
    requires Inv(s) && KnownAs(s, q, name) && SparedFrom(s, q, name, n) && !ev.EvRemove?
    ensures SparedFrom(Apply(s, ev), q, name, n)
  {
    hide Inv, Apply, MayBeOf;
    var s' := Apply(s, ev);
    EventLasts(s, ev, q, 0);
    forall k | k in s'.deleting
      ensures k in s.deleting && s'.deleting[k] == s.deleting[k]
    {
      EventEffect(s, ev, At(0, 0, "", Numbered(0), k));
    }
  }

  lemma EventSpares(s: State, ev: Event, q: Ref, name: string, n: nat)
    requires Inv(s) && KnownAs(s, q, name) && SparedFrom(s, q, name, n)
    ensures KnownAs(Apply(s, ev), q, name) && SparedFrom(Apply(s, ev), q, name, n)
  {
    hide Inv, KnownAs, SparedFrom, Remove;
    EventKnows(s, ev, q, name);
    if ev.EvRemove? {
      RemoveSparesAny(s, ev.id, ev.deleteData, ev.dirs, q, name, n);
    } else {
      OthersSpare(s, ev, q, name, n);
    }
  }

  lemma {:induction false} RunSpares(s: State, evs: seq<Event>, q: Ref, name: string, n: nat)
    requires Inv(s) && KnownAs(s, q, name) && SparedFrom(s, q, name, n)
    ensures KnownAs(Run(s, evs), q, name) && SparedFrom(Run(s, evs), q, name, n)
    decreases |evs|
  {
    if evs != [] {
      hide Inv, Apply, KnownAs, SparedFrom;
      EventSpares(s, evs[0], q, name, n);
      ApplyKeeps(s, evs[0]);
      RunSpares(Apply(s, evs[0]), evs[1..], q, name, n);
    }
  }

  /**
   In every run a delete recorded after an entry's name is known is not of that name, or is
   at a destination shown to be another, for as long as the entry is tracked and not refused.
   */
  lemma LaterDeletesSpare(s: State, evs: seq<Event>, q: Ref, name: string, k: nat)
    requires Inv(s) && KnownAs(s, q, name)
    ensures var s' := Run(s, evs);
      k in s'.deleting && k >= s.nextDelete && q < |s'.entries| && IsTracked(s', q) && !s'.entries[q].refused ==>
        !MayBeOf(s'.deleting[k], s'.entries[q].savePath, name)
  {
    RunSpares(s, evs, q, name, s.nextDelete);
  }

  /** A delete that can still hold up an entry at savePath whose name was known at delete number n. */
  predicate HoldsUp(d: InflightDelete, k: nat, savePath: string, name: string, n: nat) {
    MayBeSameName(d.name, name) && (k < n || !MayBeSameDir(d.savePath, savePath, d.dirs))
  }

  lemma CoveredByEarlier(s: State, q: Ref, name: string, n: nat)
    requires q < |s.entries| && IsTracked(s, q) && !s.entries[q].refused && SparedFrom(s, q, name, n)
    ensures Covered(s, name) <==>
      exists k | k in s.deleting :: HoldsUp(s.deleting[k], k, s.entries[q].savePath, name, n)
  {
    if Covered(s, name) {
      var k :| k in s.deleting && MayBeSameName(s.deleting[k].name, name);
      assert HoldsUp(s.deleting[k], k, s.entries[q].savePath, name, n);
    }
  }

  lemma WaitsForName(s: State, q: Ref, name: string)
    requires Structure(s) && KnownAs(s, q, name) && s.entries[q].phase.Waiting?
    ensures s.entries[q].phase.name == name
  {
    assert EntryOk(s, s.entries[q]);
  }

  lemma PassesUncovered(s: State, q: Ref)
    requires q < |s.entries| && s.entries[q].phase.Waiting?
    ensures PassDeletes(s, q) ==
      if Covered(s, s.entries[q].phase.name) then s else s.(entries := s.entries[q := s.entries[q].(phase := Wanted)])
  {
  }

  lemma WaitsNow(s: State, q: Ref, name: string, n: nat)
    requires Structure(s) && KnownAs(s, q, name) && SparedFrom(s, q, name, n)
    requires IsTracked(s, q) && !s.entries[q].refused && s.entries[q].phase.Waiting?
    ensures var passed := !exists k | k in s.deleting :: HoldsUp(s.deleting[k], k, s.entries[q].savePath, name, n);
      PassDeletes(s, q) == if passed then s.(entries := s.entries[q := s.entries[q].(phase := Wanted)]) else s
  {
    PassesUncovered(s, q);
    WaitsForName(s, q, name);
    CoveredByEarlier(s, q, name, n);
  }

  /**
   So a waiting entry goes on to its data exactly when no delete of its name is left that was
   recorded before the name was known, or that is at a destination shown to be another: the
   deletes recorded since then where its own data may be never hold it up.
   */
  lemma WaitsForEarlier(s: State, evs: seq<Event>, q: Ref, name: string)
    requires Inv(s) && KnownAs(s, q, name)
    requires var s' := Run(s, evs);
      q < |s'.entries| && IsTracked(s', q) && !s'.entries[q].refused && s'.entries[q].phase.Waiting?
    ensures var s' := Run(s, evs);
      var passed := !exists k | k in s'.deleting ::
          HoldsUp(s'.deleting[k], k, s'.entries[q].savePath, name, s.nextDelete);
      PassDeletes(s', q) == if passed then s'.(entries := s'.entries[q := s'.entries[q].(phase := Wanted)]) else s'
  {
    RunSpares(s, evs, q, name, s.nextDelete);
    RunKeeps(s, evs);
    WaitsNow(Run(s, evs), q, name, s.nextDelete);
  }
}
