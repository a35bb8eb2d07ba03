/** Whose a name on disk is: what a refused entry keeps as its own, and exactly what a Remove deletes. */
module EngineData {
  import opened Wrappers
  import opened Text
  import opened EngineState
  import opened EngineSteps
  import opened EngineInvariants
  import opened EngineProofs
  import opened EngineEffects
  import opened EngineTheorems

  // ----- whose name it may be -----

  /** Two names may be one file's exactly when neither is empty and they differ in case alone. */
  lemma NamesMeet(a: string, b: string)
    ensures MayBeSameName(a, b) <==>
            a != "" && b != "" && |a| == |b| && forall i | 0 <= i < |a| :: SameLetter(a[i], b[i])
  {
    LowerTells(a, b);
  }

  /** The name entry e is known to keep its data under: what it left, its torrent's, or its queued spec's. */
  predicate Has(s: State, e: Tracked, name: string) {
    if e.refused then MayBeSameName(e.leftName, name)
    else if e.t.Some? then
      e.t.value < |s.libs| && s.libs[e.t.value].info.Some? && MayBeSameName(s.libs[e.t.value].info.value, name)
    else e.spec.Some? && e.spec.value.info.Some? && MayBeSameName(e.spec.value.info.value, name)
  }

  /** Entry e has not named its data: a magnet without its info, a fetch or an attach under way. */
  predicate Nameless(s: State, e: Tracked) {
    && !e.refused
    && (if e.t.Some? then e.t.value < |s.libs| ==> s.libs[e.t.value].info.None?
        else if e.spec.Some? then e.spec.value.info.None?
        else e.state != Errored)
  }

  predicate KeptShared(e: Tracked, name: string) {
    e.refused && MayBeSameName(e.sharedName, name)
  }

  /** Another tracked entry, at a destination not shown to differ from dest. */
  predicate Beside(s: State, self: Option<Ref>, dest: string, dirs: map<string, DirMatch>, q: Ref) {
    IsTracked(s, q) && Some(q) != self && MayBeSameDir(dest, s.entries[q].savePath, dirs)
  }

  ghost predicate SomeHas(s: State, self: Option<Ref>, dest: string, name: string, dirs: map<string, DirMatch>) {
    exists q: Ref :: Beside(s, self, dest, dirs, q) && Has(s, s.entries[q], name)
  }

  ghost predicate SomeNameless(s: State, self: Option<Ref>, dest: string, dirs: map<string, DirMatch>) {
    exists q: Ref :: Beside(s, self, dest, dirs, q) && Nameless(s, s.entries[q])
  }

  ghost predicate SomeShares(s: State, self: Option<Ref>, dest: string, name: string, dirs: map<string, DirMatch>) {
    exists q: Ref :: Beside(s, self, dest, dirs, q) && KeptShared(s.entries[q], name)
  }

  // ----- the tables say the same -----

  lemma HasName(s: State, e: Tracked, name: string)
    ensures Has(s, e, name) <==> DataName(s, e).Some? && MayBeSameName(DataName(s, e).value, name)
    ensures Nameless(s, e) <==> DataName(s, e).None?
  {
  }

  lemma TracksId(s: State, id: Id)
    requires Structure(s) && id in s.torrents
    ensures IsTracked(s, s.torrents[id]) && s.entries[s.torrents[id]].id == id
  {
  }

  lemma TakenExactly(s: State, self: Option<Ref>, dest: string, name: string, dirs: map<string, DirMatch>)
    requires Structure(s)
    ensures NameTaken(s, self, dest, name, dirs) <==> SomeHas(s, self, dest, name, dirs)
  {
    hide Structure, DataName, Has;
    if NameTaken(s, self, dest, name, dirs) {
      var id :| id in s.torrents && UsesName(s, id, self, dest, name, dirs);
      TracksId(s, id);
      HasName(s, s.entries[s.torrents[id]], name);
      assert Beside(s, self, dest, dirs, s.torrents[id]);
    }
    if q: Ref :| Beside(s, self, dest, dirs, q) && Has(s, s.entries[q], name) {
      HasName(s, s.entries[q], name);
      assert UsesName(s, s.entries[q].id, self, dest, name, dirs);
    }
  }

  lemma PendingExactly(s: State, self: Option<Ref>, dest: string, dirs: map<string, DirMatch>)
    requires Structure(s)
    ensures NamePending(s, self, dest, dirs) <==> SomeNameless(s, self, dest, dirs)
  {
    hide Structure, DataName, Nameless;
    if NamePending(s, self, dest, dirs) {
      var id :| id in s.torrents && MayUseName(s, id, self, dest, dirs);
      TracksId(s, id);
      HasName(s, s.entries[s.torrents[id]], "");
      assert Beside(s, self, dest, dirs, s.torrents[id]);
    }
    if q: Ref :| Beside(s, self, dest, dirs, q) && Nameless(s, s.entries[q]) {
      HasName(s, s.entries[q], "");
      assert MayUseName(s, s.entries[q].id, self, dest, dirs);
    }
  }

  lemma SharesExactly(s: State, self: Option<Ref>, dest: string, name: string, dirs: map<string, DirMatch>)
    requires Structure(s)
    ensures SharedKept(s, self, dest, name, dirs) <==> SomeShares(s, self, dest, name, dirs)
  {
    hide Structure;
    if SharedKept(s, self, dest, name, dirs) {
      var id :| id in s.torrents && KeepsShared(s, id, self, dest, name, dirs);
      TracksId(s, id);
      assert Beside(s, self, dest, dirs, s.torrents[id]);
    }
    if q: Ref :| Beside(s, self, dest, dirs, q) && KeptShared(s.entries[q], name) {
      assert KeepsShared(s, s.entries[q].id, self, dest, name, dirs);
    }
  }

  // ----- what a Remove deletes -----

  /** The name a Remove of e would delete: what a refused entry left, else what its torrent's info says. */
  function OwnName(s: State, e: Tracked): string {
    if e.refused then e.leftName
    else if e.t.Some? && InfoOf(s, e.t.value).Some? then InfoOf(s, e.t.value).value
    else ""
  }

  /** Another's data may be under e's own name; a refused entry yields to a nameless one and to shared data too. */
  ghost predicate Contested(s: State, r: Ref, dirs: map<string, DirMatch>)
    requires r < |s.entries|
  {
    var e := s.entries[r];
    var name := OwnName(s, e);
    || SomeHas(s, Some(r), e.savePath, name, dirs)
    || (e.refused && (SomeNameless(s, Some(r), e.savePath, dirs) || SomeShares(s, Some(r), e.savePath, name, dirs)))
  }

  /**
   A Remove with data deletes the entry's own name, if it has one, unless it is contested; then
   it reports the name as kept, as only maybe another's when no other entry is known to have it.
   Data a refused entry shared is kept, never deleted.
   */
  lemma TargetExactly(s: State, r: Ref, deleteData: bool, dirs: map<string, DirMatch>)
    requires Structure(s) && r < |s.entries|
    ensures var e, g, name := s.entries[r], RemoveTarget(s, r, deleteData, dirs), OwnName(s, s.entries[r]);
      && (!deleteData ==> g == Target("", "", false))
      && (deleteData && name != "" ==>
            g == if Contested(s, r, dirs)
                 then Target("", name, !SomeHas(s, Some(r), e.savePath, name, dirs))
                 else Target(name, "", false))
      && (deleteData && name == "" ==>
            g == if e.refused && e.sharedName != ""
                 then Target("", e.sharedName, !SomeHas(s, Some(r), e.savePath, e.sharedName, dirs))
                 else Target("", "", false))
  {
    hide Structure, NameTaken, NamePending, SharedKept, SomeHas, SomeNameless, SomeShares;
    var e := s.entries[r];
    TakenExactly(s, Some(r), e.savePath, OwnName(s, e), dirs);
    TakenExactly(s, Some(r), e.savePath, e.sharedName, dirs);
    PendingExactly(s, Some(r), e.savePath, dirs);
    SharesExactly(s, Some(r), e.savePath, OwnName(s, e), dirs);
    if OwnName(s, e) == "" { NobodyHas(s, Some(r), e.savePath, dirs); }
  }

  lemma NobodyHas(s: State, self: Option<Ref>, dest: string, dirs: map<string, DirMatch>)
    ensures !SomeHas(s, self, dest, "", dirs)
  {
  }

  /** A Remove records exactly that delete, at the entry's destination, or none. */
  lemma RemoveDeletes(s: State, id: Id, deleteData: bool, dirs: map<string, DirMatch>)
    requires Inv(s) && !s.closed && id in s.torrents
    ensures var s', r := Remove(s, id, deleteData, dirs), s.torrents[id];
      r < |s.entries| &&
      var e, name := s.entries[r], OwnName(s, s.entries[r]);
      s'.deleting ==
        if deleteData && name != "" && !Contested(s, r, dirs)
        then s.deleting[s.nextDelete := InflightDelete(e.savePath, name, dirs)]
        else s.deleting
  {
    hide Inv, RemoveTarget, Contested, OwnName;
    StructureOf(s);
    TracksId(s, id);
    TargetExactly(s, s.torrents[id], deleteData, dirs);
    RemoveRecords(s, id, deleteData, dirs);
  }

  lemma RemoveRecords(s: State, id: Id, deleteData: bool, dirs: map<string, DirMatch>)
    requires !s.closed && Lookup(s, id).Some?
    ensures var r := s.torrents[id];
      var name := RemoveTarget(s, r, deleteData, dirs).name;
      Remove(s, id, deleteData, dirs).deleting ==
        if name == "" then s.deleting
        else s.deleting[s.nextDelete := InflightDelete(s.entries[r].savePath, name, dirs)]
  {
    hide RemoveTarget;
  }

  // ----- the deletes under way -----

  /** Delete k is one this Remove records. */
  ghost predicate Records(s: State, ev: Event, k: nat) {
    && ev.EvRemove? && !s.closed && ev.deleteData && k == s.nextDelete
    && ev.id in s.torrents && s.torrents[ev.id] < |s.entries|
    && OwnName(s, s.entries[s.torrents[ev.id]]) != "" && !Contested(s, s.torrents[ev.id], ev.dirs)
  }

  /** A delete is under way from the Remove that records it until it ends, and neither begins nor ends otherwise. */
  lemma DeleteLasts(s: State, ev: Event, k: nat)
    requires Inv(s)
    ensures k in Apply(s, ev).deleting <==> Records(s, ev, k) || (k in s.deleting && ev != EvEndDelete(k))
  {
    hide Inv, Apply, Contested, OwnName, Remove;
    if !ev.EvRemove? {
      EventEffect(s, ev, At(0, 0, "", Numbered(0), k));
    } else if !s.closed && ev.id in s.torrents {
      RemoveDeletes(s, ev.id, ev.deleteData, ev.dirs);
      RemoveIs(s, ev);
    } else {
      RemovesNone(s, ev);
    }
  }

  lemma RemoveIs(s: State, ev: Event)
    requires ev.EvRemove?
    ensures Apply(s, ev) == Remove(s, ev.id, ev.deleteData, ev.dirs)
  {
  }

  lemma RemovesNone(s: State, ev: Event)
    requires ev.EvRemove? && (s.closed || ev.id !in s.torrents)
    ensures Apply(s, ev) == s
  {
  }

  /** Some event of the run records delete k, or it was under way at its start, and none since ends it. */
  ghost predicate UnderWay(s: State, evs: seq<Event>, k: nat)
    decreases |evs|
  {
    if evs == [] then k in s.deleting
    else
      var past, ev := evs[..|evs| - 1], evs[|evs| - 1];
      Records(Run(s, past), ev, k) || (UnderWay(s, past, k) && ev != EvEndDelete(k))
  }

  lemma {:induction false} DeletesUnderWay(s: State, evs: seq<Event>, k: nat)
    requires Inv(s)
    ensures k in Run(s, evs).deleting <==> UnderWay(s, evs, k)
    decreases |evs|
  {
    hide Inv, Apply, Records;
    if evs == [] {
    } else {
      var past := evs[..|evs| - 1];
      DeletesUnderWay(s, past, k);
      RunKeeps(s, past);
      RunAppend(s, past, [evs[|evs| - 1]]);
      assert evs == past + [evs[|evs| - 1]];
      RunOne(Run(s, past), evs[|evs| - 1]);
      DeleteLasts(Run(s, past), evs[|evs| - 1], k);
    }
  }


  // ----- what a refused entry keeps -----

  /** The data name left on disk is dest's own, or deferred to another entry there that has it or shares it. */
  ghost predicate Deferred(s: State, self: Option<Ref>, dest: string, left: string, dirs: map<string, DirMatch>) {
    SomeHas(s, self, dest, left, dirs) || SomeShares(s, self, dest, left, dirs)
  }

  predicate Owns(e: Tracked, left: string) {
    e.leftName == left && e.sharedName == ""
  }

  predicate Shares(e: Tracked, left: string) {
    e.leftName == "" && e.sharedName == left
  }

  lemma KeepExactly(s: State, self: Option<Ref>, dest: string, left: string, dirs: map<string, DirMatch>)
    requires Structure(s)
    ensures KeepLeft(s, self, dest, left, dirs) ==
      if left == "" then Kept("", "")
      else if Deferred(s, self, dest, left, dirs) then Kept("", left)
      else Kept(left, "")
  {
    hide Structure, NameTaken, SharedKept, SomeHas, SomeShares;
    TakenExactly(s, self, dest, left, dirs);
    SharesExactly(s, self, dest, left, dirs);
  }

  /** Entry e is refused, and owns or shares the data left as the others there decide. */
  ghost predicate Settles(s: State, self: Option<Ref>, e: Tracked, left: string, dirs: map<string, DirMatch>) {
    e.refused && e.state == Errored &&
    (if left == "" then e.leftName == "" && e.sharedName == ""
     else if Deferred(s, self, e.savePath, left, dirs) then Shares(e, left)
     else Owns(e, left))
  }

  lemma MarkSettles(s: State, r: Ref, left: string, dirs: map<string, DirMatch>)
    requires Structure(s) && r < |s.entries|
    ensures var s' := MarkRefused(s, r, left, dirs);
      |s'.entries| == |s.entries| && Settles(s, Some(r), s'.entries[r], left, dirs)
  {
    hide Structure, KeepLeft, Deferred;
    KeepExactly(s, Some(r), s.entries[r].savePath, left, dirs);
  }

  /**
   An entry refused while it waited for its info, or attached from the queue, owns what is on
   disk under its info's name if and only if no other tracked entry there has or shares it.
   */
  lemma RefusalSettles(s: State, r: Ref, left: string, dirs: map<string, DirMatch>)
    requires Structure(s) && r < |s.entries|
    ensures var p, s' := s.entries[r].phase, RefuseMarks(s, r, left, dirs);
      p.Refusing? ==>
        r < |s'.entries| && Settles(s, Some(r), s'.entries[r], if p.info == Some(left) then left else "", dirs)
    ensures var p, s' := s.entries[r].phase, Cleanup(s, r, left, dirs);
      p.Failed? && p.via == ViaQueue ==>
        r < |s'.entries| && Settles(s, Some(r), s'.entries[r], if p.info == Some(left) then left else "", dirs)
  {
    hide Structure, MarkRefused, Settles;
    var p := s.entries[r].phase;
    if p.Refusing? || p.Failed? { MarkSettles(s, r, LeftName(p.info, left), dirs); }
  }

  /** So does one restored as errored. */
  lemma RestoreSettles(s: State, hex: string, dest: string, prov: Provenance, left: string, dirs: map<string, DirMatch>)
    requires Structure(s) && !s.closed
    ensures var s' := TrackErrored(s, hex, dest, prov, left, dirs);
      |s'.entries| == |s.entries| + 1 &&
      var e := s'.entries[|s.entries|];
      e.savePath == dest && e.infoHash == hex && Settles(s, None, e, left, dirs)
  {
    hide Structure, KeepLeft, Deferred, Mint;
    KeepExactly(s, None, dest, left, dirs);
  }

  // ----- a run that leaves data, and what comes of it -----

  /** A .torrent is added, published and refused with its data on disk. */
  function LeavingRun(): seq<Event> {
    AddRun(FILE, "d", 0) + [EvRefuse(0), EvRefuseMarks(0, "n", map[])]
  }

  function Dropping(): State {
    var s := Published(FILE, 1);
    s.(entries := [s.entries[0].(phase := Refusing(Some("n")))], libs := [s.libs[0].(dropped := true)], client := map[])
  }

  function Left(): State {
    var s := Dropping();
    s.(entries := [s.entries[0].(state := Errored, refused := true, leftName := "n", sharedName := "", phase := Ended)])
  }

  lemma DropsFirst()
    ensures Apply(Published(FILE, 1), EvRefuse(0)) == Dropping()
  {
    assert map["h" := 0] - {"h"} == map[];
  }

  lemma LeavesFirst()
    ensures Apply(Dropping(), EvRefuseMarks(0, "n", map[])) == Left()
  {
    assert LeftName(Some("n"), "n") == "n";
    assert ShownBy("d", map[]) == {};
    assert !NameTaken(Dropping(), Some(0), "d", "n", map[]) && !SharedKept(Dropping(), Some(0), "d", "n", map[]);
  }

  /** It then owns that data: a Remove with data deletes it, and an Add of its infohash elsewhere is refused. */
  lemma LeftDataIsOwned()
    ensures var s := Run(Init(1), LeavingRun());
      && s.entries != [] && IsTracked(s, 0) && Owns(s.entries[0], "n")
      && Remove(s, ONE, true, map[]).deleting == map[0 := InflightDelete("d", "n", map[])]
      && FindOrTrack(s, FILE, "e", FRESH, NO_VIEW) == (s, AddLeftData("d", "n"))
  {
    hide Apply, Published, Dropping, Left;
    RunAppend(Init(1), AddRun(FILE, "d", 0), [EvRefuse(0), EvRefuseMarks(0, "n", map[])]);
    FirstAdd(FILE, 1);
    RunTwo(Published(FILE, 1), EvRefuse(0), EvRefuseMarks(0, "n", map[]));
    DropsFirst();
    LeavesFirst();
    LeftDeletes();
    LeftBlocks();
  }

  lemma LeftDeletes()
    ensures var s := Left();
      && s.entries != [] && IsTracked(s, 0) && Owns(s.entries[0], "n")
      && Remove(s, ONE, true, map[]).deleting == map[0 := InflightDelete("d", "n", map[])]
  {
    var s := Left();
    assert !NameTaken(s, Some(0), "d", "n", map[]) && !NamePending(s, Some(0), "d", map[]);
    assert !SharedKept(s, Some(0), "d", "n", map[]);
  }

  lemma LeftBlocks()
    ensures FindOrTrack(Left(), FILE, "e", FRESH, NO_VIEW) == (Left(), AddLeftData("d", "n"))
  {
    var s := Left();
    assert s.order[0] == ONE && s.order[1..] == [];
    assert "e"[0] != "d"[0];
    assert MatchesRefused(s, ONE, "h", None) && Blocks(s, ONE, "e", NO_VIEW);
    assert RefusedFor(s, s.order, "h", None) == [ONE];
  }
}
