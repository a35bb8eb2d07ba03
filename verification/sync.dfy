/** Keeping the registry in step with the configured sources: one sync over the configuration. */
module SyncState {
  import opened Wrappers
  import opened RegistryState

  /** One [[indexer]] entry; rest is every field that is only compared. */
  datatype Entry = Entry(id: string, enabled: bool, kind: string, definition: string, rest: string)

  datatype Config = Config(entries: seq<Entry>, disabled: seq<string>)

  /** What a source was built from. */
  datatype Spec = Bundled | Entered(entry: Entry)

  /** What building a source can see: the bundled ids, the id each definition file declares, what does not build. */
  datatype World = World(bundled: seq<string>, files: map<string, string>, broken: set<(string, Spec)>)

  /** The registry, what each id was built from, and (history) the id each source object was built for. */
  datatype Live = Live(reg: RegistryState.State, built: map<string, Spec>, owner: map<SourceRef, string>)

  predicate ScraperBacked(spec: Spec) {
    spec.Bundled? || spec.entry.kind == "scraper"
  }

  /** The id the built adapter calls itself: a scraper's is its definition's, whatever the entry is called. */
  function AdapterID(w: World, id: string, spec: Spec): Option<string> {
    if (id, spec) in w.broken then None
    else if spec.Bundled? then Some(id)
    else if spec.entry.kind == "torznab" then Some(spec.entry.id)
    else if spec.entry.kind == "scraper" && spec.entry.definition in w.files then Some(w.files[spec.entry.definition])
    else None
  }

  predicate Configured(cfg: Config, id: string) {
    exists e | e in cfg.entries :: e.id == id
  }

  function DesiredBundled(cfg: Config, bundled: seq<string>): map<string, Spec> {
    if bundled == [] then map[]
    else
      var m, id := DesiredBundled(cfg, bundled[..|bundled| - 1]), bundled[|bundled| - 1];
      if !Configured(cfg, id) && id !in cfg.disabled then m[id := Bundled] else m
  }

  function DesiredEntries(m: map<string, Spec>, entries: seq<Entry>): map<string, Spec> {
    if entries == [] then m
    else
      var d, e := DesiredEntries(m, entries[..|entries| - 1]), entries[|entries| - 1];
      if e.enabled && e.id !in d then d[e.id := Entered(e)] else d
  }

  function Desired(cfg: Config, w: World): map<string, Spec> {
    DesiredEntries(DesiredBundled(cfg, w.bundled), cfg.entries)
  }

  // ----- the sweep -----

  predicate Stays(desired: map<string, Spec>, id: string, spec: Spec, reload: bool) {
    id in desired && desired[id] == spec && (!reload || !ScraperBacked(spec))
  }

  /** Unregister what is not wanted as it is, over the built ids in whatever order. */
  function Sweep(l: Live, ids: seq<string>, desired: map<string, Spec>, reload: bool): Live {
    if ids == [] then l
    else
      var s, id := Sweep(l, ids[..|ids| - 1], desired, reload), ids[|ids| - 1];
      if id in s.built && Stays(desired, id, s.built[id], reload) then s
      else s.(reg := Unregister(s.reg, id), built := s.built - {id})
  }

  // ----- the registrations -----

  datatype Wanted = Wanted(id: string, spec: Spec)

  function WantedBundled(bundled: seq<string>, desired: map<string, Spec>): seq<Wanted> {
    if bundled == [] then []
    else
      var id := bundled[|bundled| - 1];
      WantedBundled(bundled[..|bundled| - 1], desired) +
      (if id in desired && desired[id].Bundled? then [Wanted(id, Bundled)] else [])
  }

  function WantedEntries(entries: seq<Entry>, desired: map<string, Spec>): seq<Wanted> {
    if entries == [] then []
    else
      var e := entries[|entries| - 1];
      WantedEntries(entries[..|entries| - 1], desired) +
      (if e.id in desired && desired[e.id] == Entered(e) then [Wanted(e.id, Entered(e))] else [])
  }

  function Work(cfg: Config, w: World): seq<Wanted> {
    WantedBundled(w.bundled, Desired(cfg, w)) + WantedEntries(cfg.entries, Desired(cfg, w))
  }

  /** register: build and register unless built already; 1 when it had to be skipped. */
  function RegisterOne(l: Live, t: Wanted, w: World): (Live, nat) {
    if t.id in l.built then (l, 0)
    else
      var a := AdapterID(w, t.id, t.spec);
      if a.None? then (l, 1)
      else
        var (reg, out) := Register(l.reg, a.value, ScraperBacked(t.spec));
        if out.Registered? then (Live(reg, l.built[t.id := t.spec], l.owner[out.src := t.id]), 0) else (l, 1)
  }

  function RegisterAll(l: Live, work: seq<Wanted>, w: World): (Live, nat) {
    if work == [] then (l, 0)
    else
      var (m, n) := RegisterAll(l, work[..|work| - 1], w);
      var (m', k) := RegisterOne(m, work[|work| - 1], w);
      (m', n + k)
  }

  /** liveSources.sync, with the number of sources skipped. */
  function Sync(l: Live, cfg: Config, w: World, reload: bool, ids: seq<string>): (Live, nat) {
    RegisterAll(Sweep(l, ids, Desired(cfg, w), reload), Work(cfg, w), w)
  }
}

/** What a sync reconciles, and when. */
module SyncProofs {
  import opened Wrappers
  import opened Text
  import opened RegistryState
  import opened SyncState

  /** The record of what is built and the registry name the same sources, each the one built for its id. */
  ghost predicate Agrees(l: Live) {
    && (forall id :: id in l.built <==> id in l.reg.sources)
    && (forall id | id in l.reg.sources :: Rightful(l, id))
    && Fresh(l)
  }

  /** The source registered under id was built for id. */
  ghost predicate Rightful(l: Live, id: string) {
    id in l.reg.sources && l.reg.sources[id] in l.owner && l.owner[l.reg.sources[id]] == id
  }

  ghost predicate Fresh(l: Live) {
    && (forall id | id in l.reg.sources :: l.reg.sources[id] < |l.reg.srcs|)
    && (forall r | r in l.owner :: r < |l.reg.srcs|)
  }

  // ----- what is wanted -----

  predicate FirstEnabled(entries: seq<Entry>, e: Entry, i: int) {
    0 <= i < |entries| && entries[i] == e && e.enabled &&
      forall k | 0 <= k < i :: !(entries[k].enabled && entries[k].id == e.id)
  }

  lemma {:induction false} BundledWanted(cfg: Config, bundled: seq<string>)
    ensures forall id :: id in DesiredBundled(cfg, bundled) <==>
      id in bundled && !Configured(cfg, id) && id !in cfg.disabled
    ensures forall id | id in DesiredBundled(cfg, bundled) :: DesiredBundled(cfg, bundled)[id] == Bundled
  {
    if bundled != [] {
      var n := |bundled| - 1;
      BundledWanted(cfg, bundled[..n]);
      assert bundled == bundled[..n] + [bundled[n]];
    }
  }

  lemma {:induction false} EntriesWanted(m: map<string, Spec>, entries: seq<Entry>, id: string)
    ensures var d := DesiredEntries(m, entries);
      if id in m then id in d && d[id] == m[id]
      else id in d <==> exists e | e in entries :: e.enabled && e.id == id
    ensures var d := DesiredEntries(m, entries);
      id !in m && id in d ==>
        d[id].Entered? && d[id].entry.id == id && exists i :: FirstEnabled(entries, d[id].entry, i)
  {
    if entries != [] {
      var n := |entries| - 1;
      var es, e := entries[..n], entries[n];
      EntriesWanted(m, es, id);
      assert entries == es + [e];
      var d := DesiredEntries(m, es);
      if id !in m && id in d {
        var i :| FirstEnabled(es, d[id].entry, i);
        assert FirstEnabled(entries, d[id].entry, i);
      } else if id !in m && e.enabled && e.id == id {
        assert forall k | 0 <= k < n :: es[k] in es;
        assert FirstEnabled(entries, e, n);
      }
    }
  }

  /**
   What is wanted: a bundled source unless an entry of its id replaces it or it is turned
   off; the first enabled entry of an id; nothing else.
   */
  lemma DesiredExact(cfg: Config, w: World, id: string)
    ensures var d := Desired(cfg, w);
      && (id in d <==> (id in w.bundled && !Configured(cfg, id) && id !in cfg.disabled)
                       || exists e | e in cfg.entries :: e.enabled && e.id == id)
      && (id in d && d[id].Bundled? ==> id in w.bundled && !Configured(cfg, id) && id !in cfg.disabled)
      && (id in d && d[id].Entered? ==> d[id].entry.id == id && exists i :: FirstEnabled(cfg.entries, d[id].entry, i))
  {
    BundledWanted(cfg, w.bundled);
    EntriesWanted(DesiredBundled(cfg, w.bundled), cfg.entries, id);
  }

  lemma {:induction false} WantedBundledExact(bundled: seq<string>, desired: map<string, Spec>, t: Wanted)
    ensures t in WantedBundled(bundled, desired) <==>
      t.id in bundled && t.id in desired && desired[t.id] == Bundled && t.spec == Bundled
  {
    if bundled != [] {
      var n := |bundled| - 1;
      WantedBundledExact(bundled[..n], desired, t);
      assert bundled == bundled[..n] + [bundled[n]];
    }
  }

  lemma {:induction false} WantedEntriesExact(entries: seq<Entry>, desired: map<string, Spec>, t: Wanted)
    ensures t in WantedEntries(entries, desired) <==>
      t.spec.Entered? && t.spec.entry in entries && t.id == t.spec.entry.id && t.id in desired &&
        desired[t.id] == t.spec
  {
    if entries != [] {
      var n := |entries| - 1;
      WantedEntriesExact(entries[..n], desired, t);
      assert entries == entries[..n] + [entries[n]];
    }
  }

  lemma WorkExact(cfg: Config, w: World, t: Wanted)
    ensures t in Work(cfg, w) <==> t.id in Desired(cfg, w) && Desired(cfg, w)[t.id] == t.spec
  {
    WantedBundledExact(w.bundled, Desired(cfg, w), t);
    WantedEntriesExact(cfg.entries, Desired(cfg, w), t);
    DesiredExact(cfg, w, t.id);
    if t.id in Desired(cfg, w) && Desired(cfg, w)[t.id] == t.spec && t.spec.Entered? {
      var i :| FirstEnabled(cfg.entries, t.spec.entry, i);
      assert t.spec.entry in cfg.entries;
    }
  }

  // ----- the sweep -----

  /** What the sweep does at one id: it stays, or both the record and the source go. */
  lemma {:induction false} SweepAt(l: Live, ids: seq<string>, desired: map<string, Spec>, reload: bool, id: string)
    requires Fresh(l) && forall i | i in ids :: i in l.built
    ensures var s := Sweep(l, ids, desired, reload);
      var stays := id !in ids || (id in l.built && Stays(desired, id, l.built[id], reload));
      && s.reg.srcs == l.reg.srcs && s.owner == l.owner && Fresh(s)
      && (id in s.built <==> id in l.built && stays)
      && (id in s.built ==> s.built[id] == l.built[id])
      && (id in s.reg.sources <==> id in l.reg.sources && stays)
      && (id in s.reg.sources ==> s.reg.sources[id] == l.reg.sources[id])
  {
    if ids != [] {
      var n := |ids| - 1;
      assert ids == ids[..n] + [ids[n]];
      SweepAt(l, ids[..n], desired, reload, id);
      SweepAt(l, ids[..n], desired, reload, ids[n]);
    }
  }

  /** The ids are those built, in whatever order the map gives. */
  ghost predicate Names(l: Live, ids: seq<string>) {
    forall id :: id in ids <==> id in l.built
  }

  lemma SweepAgrees(l: Live, ids: seq<string>, desired: map<string, Spec>, reload: bool)
    requires Agrees(l) && Names(l, ids)
    ensures Agrees(Sweep(l, ids, desired, reload))
  {
    var s := Sweep(l, ids, desired, reload);
    SweepAt(l, ids, desired, reload, "");
    forall id
      ensures id in s.built <==> id in s.reg.sources
      ensures id in s.reg.sources ==> Rightful(s, id)
    {
      SweepAt(l, ids, desired, reload, id);
      assert id in l.reg.sources ==> Rightful(l, id);
    }
  }

  // ----- the registrations -----

  /** A registration that fails, does not happen, or puts the source under the id it is wanted for. */
  predicate UnderOwnID(l: Live, t: Wanted, w: World) {
    var a := AdapterID(w, t.id, t.spec);
    t.id in l.built || a.None? || a.value == t.id || Blank(a.value) || a.value in l.reg.sources
  }

  lemma OneFresh(l: Live, t: Wanted, w: World)
    requires Fresh(l)
    ensures Fresh(RegisterOne(l, t, w).0)
  {
  }

  /** What one registration leaves alone, and where a new source goes. */
  lemma OneAt(l: Live, t: Wanted, w: World, id: string)
    requires Fresh(l)
    ensures var m := RegisterOne(l, t, w).0;
      && l.reg.srcs <= m.reg.srcs
      && (id in l.built ==> id in m.built && m.built[id] == l.built[id])
      && (id in l.reg.sources ==> id in m.reg.sources && m.reg.sources[id] == l.reg.sources[id])
      && (Rightful(l, id) ==> Rightful(m, id))
      && (id in m.reg.sources && id !in l.reg.sources ==> m.reg.sources[id] >= |l.reg.srcs|)
  {
  }

  lemma OneAgrees(l: Live, t: Wanted, w: World)
    requires Agrees(l)
    ensures Agrees(RegisterOne(l, t, w).0) <==> UnderOwnID(l, t, w)
  {
    var m := RegisterOne(l, t, w).0;
    OneFresh(l, t, w);
    if m != l {
      var x := AdapterID(w, t.id, t.spec).value;
      assert x in m.reg.sources && m.owner[m.reg.sources[x]] == t.id;
      if x == t.id {
        forall id | id in m.reg.sources
          ensures Rightful(m, id)
        {
          if id != x { assert Rightful(l, id); }
        }
      } else {
        assert !Rightful(m, x);
      }
    }
  }

  /** A source under an id it was not built for. */
  ghost predicate Astray(l: Live) {
    exists x :: x in l.reg.sources && l.reg.sources[x] in l.owner && l.owner[l.reg.sources[x]] != x
  }

  lemma AstrayDisagrees(l: Live)
    requires Astray(l)
    ensures !Agrees(l)
  {
  }

  lemma OneAstray(l: Live, t: Wanted, w: World)
    requires Fresh(l)
    ensures Astray(l) ==> Astray(RegisterOne(l, t, w).0)
    ensures Agrees(l) && !UnderOwnID(l, t, w) ==> Astray(RegisterOne(l, t, w).0)
  {
    var m := RegisterOne(l, t, w).0;
    if x :| x in l.reg.sources && l.reg.sources[x] in l.owner && l.owner[l.reg.sources[x]] != x {
      assert x in m.reg.sources && m.reg.sources[x] == l.reg.sources[x];
    }
    if !UnderOwnID(l, t, w) {
      var x := AdapterID(w, t.id, t.spec).value;
      assert x in m.reg.sources && m.reg.sources[x] == |l.reg.srcs| && m.owner[|l.reg.srcs|] == t.id;
    }
  }

  /** Every registration of the pass, as it comes up, is under its own id. */
  ghost predicate AllUnderOwnID(l: Live, work: seq<Wanted>, w: World) {
    if work == [] then true
    else
      var n := |work| - 1;
      AllUnderOwnID(l, work[..n], w) && UnderOwnID(RegisterAll(l, work[..n], w).0, work[n], w)
  }

  lemma {:induction false} AllAgree(l: Live, work: seq<Wanted>, w: World)
    requires Agrees(l)
    ensures var m := RegisterAll(l, work, w).0;
      && Fresh(m)
      && (AllUnderOwnID(l, work, w) ==> Agrees(m))
      && (!AllUnderOwnID(l, work, w) ==> Astray(m))
  {
    if work != [] {
      var n := |work| - 1;
      var m := RegisterAll(l, work[..n], w).0;
      AllAgree(l, work[..n], w);
      OneFresh(m, work[n], w);
      OneAstray(m, work[n], w);
      if AllUnderOwnID(l, work[..n], w) { OneAgrees(m, work[n], w); }
    }
  }

  lemma {:induction false} AllAt(l: Live, work: seq<Wanted>, w: World, id: string)
    requires Fresh(l)
    ensures var m := RegisterAll(l, work, w).0;
      && Fresh(m) && l.reg.srcs <= m.reg.srcs
      && (id in l.built ==> id in m.built && m.built[id] == l.built[id])
      && (id in l.reg.sources ==> id in m.reg.sources && m.reg.sources[id] == l.reg.sources[id])
      && (id in m.reg.sources && id !in l.reg.sources ==> m.reg.sources[id] >= |l.reg.srcs|)
  {
    if work != [] {
      var n := |work| - 1;
      AllAt(l, work[..n], w, id);
      OneFresh(RegisterAll(l, work[..n], w).0, work[n], w);
      OneAt(RegisterAll(l, work[..n], w).0, work[n], w, id);
    }
  }

  // ----- the whole sync -----

  /** Every adapter this configuration builds calls itself what it was built for. */
  ghost predicate Honest(desired: map<string, Spec>, w: World) {
    forall id | id in desired :: AdapterID(w, id, desired[id]).None? || AdapterID(w, id, desired[id]) == Some(id)
  }

  predicate Buildable(w: World, id: string, spec: Spec) {
    AdapterID(w, id, spec) == Some(id) && !Blank(id)
  }

  /** The work is part of what is wanted. */
  ghost predicate Within(work: seq<Wanted>, desired: map<string, Spec>) {
    forall t | t in work :: t.id in desired && desired[t.id] == t.spec
  }

  lemma {:induction false} HonestlyOwn(l: Live, work: seq<Wanted>, w: World, desired: map<string, Spec>)
    requires Honest(desired, w) && Within(work, desired)
    ensures AllUnderOwnID(l, work, w)
  {
    if work != [] {
      var n := |work| - 1;
      assert work[n] in work;
      assert forall t | t in work[..n] :: t in work;
      HonestlyOwn(l, work[..n], w, desired);
    }
  }

  /** What is built afterwards: what was, and every wanted source that builds. */
  lemma {:induction false} AllBuilt(l: Live, work: seq<Wanted>, w: World, desired: map<string, Spec>, id: string)
    requires Agrees(l) && Honest(desired, w) && Within(work, desired)
    ensures var m := RegisterAll(l, work, w).0;
      var wanted := id in desired && Wanted(id, desired[id]) in work;
      && (id in m.built <==> id in l.built || (wanted && Buildable(w, id, desired[id])))
      && (id in m.built && id !in l.built ==> m.built[id] == desired[id])
  {
    if work != [] {
      var n := |work| - 1;
      var t := work[n];
      assert t in work && work == work[..n] + [t];
      assert forall u | u in work[..n] :: u in work;
      AllBuilt(l, work[..n], w, desired, id);
      HonestlyOwn(l, work[..n], w, desired);
      AllAgree(l, work[..n], w);
      hide Agrees, Honest, AdapterID, Buildable, RegisterOne, AllUnderOwnID;
      OneBuilt(RegisterAll(l, work[..n], w).0, t, w, desired);
    }
  }

  /** One registration builds its source if that builds, and nothing else. */
  lemma OneBuilt(l: Live, t: Wanted, w: World, desired: map<string, Spec>)
    requires Agrees(l) && Honest(desired, w) && t.id in desired && desired[t.id] == t.spec
    ensures RegisterOne(l, t, w).0.built ==
      if t.id !in l.built && Buildable(w, t.id, t.spec) then l.built[t.id := t.spec] else l.built
  {
  }

  /** Sources are skipped exactly when some wanted one was not built already and does not build. */
  lemma {:induction false} AllSkipped(l: Live, work: seq<Wanted>, w: World, desired: map<string, Spec>)
    requires Agrees(l) && Honest(desired, w) && Within(work, desired)
    ensures RegisterAll(l, work, w).1 == 0 <==> forall t | t in work :: t.id in l.built || Buildable(w, t.id, t.spec)
  {
    if work != [] {
      var n := |work| - 1;
      var t := work[n];
      assert t in work && work == work[..n] + [t];
      assert forall u | u in work[..n] :: u in work;
      AllSkipped(l, work[..n], w, desired);
      AllBuilt(l, work[..n], w, desired, t.id);
      HonestlyOwn(l, work[..n], w, desired);
      AllAgree(l, work[..n], w);
    }
  }

  /** A source the sync leaves as it is. */
  predicate Kept(l: Live, cfg: Config, w: World, reload: bool, id: string) {
    id in l.built && Stays(Desired(cfg, w), id, l.built[id], reload)
  }

  /** What the sync leaves at one id. */
  ghost predicate Reconciled(l: Live, cfg: Config, w: World, reload: bool, m: Live, id: string) {
    var d := Desired(cfg, w);
    && (id in m.built <==> id in d && (Kept(l, cfg, w, reload, id) || Buildable(w, id, d[id])))
    && (id in m.built ==> id in d && m.built[id] == d[id])
    && (Kept(l, cfg, w, reload, id) && id in l.reg.sources ==>
          id in m.reg.sources && m.reg.sources[id] == l.reg.sources[id])
    && (id in m.reg.sources && !Kept(l, cfg, w, reload, id) ==> m.reg.sources[id] >= |l.reg.srcs|)
  }

  lemma ReconciledAt(l: Live, cfg: Config, w: World, reload: bool, ids: seq<string>, id: string)
    requires Agrees(l) && Names(l, ids) && Honest(Desired(cfg, w), w)
    ensures Reconciled(l, cfg, w, reload, Sync(l, cfg, w, reload, ids).0, id)
  {
    var d, work := Desired(cfg, w), Work(cfg, w);
    var s := Sweep(l, ids, d, reload);
    SweepAt(l, ids, d, reload, id);
    SweepAgrees(l, ids, d, reload);
    WorkWithin(cfg, w);
    AllAt(s, work, w, id);
    AllBuilt(s, work, w, d, id);
    if id in d { WorkExact(cfg, w, Wanted(id, d[id])); }
    assert id in s.reg.sources <==> id in s.built;
  }

  lemma WorkWithin(cfg: Config, w: World)
    ensures Within(Work(cfg, w), Desired(cfg, w))
  {
    forall t | t in Work(cfg, w)
      ensures t.id in Desired(cfg, w) && Desired(cfg, w)[t.id] == t.spec
    {
      WorkExact(cfg, w, t);
    }
  }

  /**
   A sync reconciles: the record and the registry agree; what is built is what is wanted
   and kept or buildable, from the wanted spec; a source whose spec is unchanged is the
   same object as before, any other a new one; no source is skipped exactly when all that
   is wanted is built.
   */
  lemma SyncReconciles(l: Live, cfg: Config, w: World, reload: bool, ids: seq<string>)
    requires Agrees(l) && Names(l, ids) && Honest(Desired(cfg, w), w)
    ensures var (m, failed) := Sync(l, cfg, w, reload, ids);
      && Agrees(m)
      && (forall id :: Reconciled(l, cfg, w, reload, m, id))
      && l.reg.srcs <= m.reg.srcs
      && (failed == 0 <==> m.built == Desired(cfg, w))
  {
    var d, work := Desired(cfg, w), Work(cfg, w);
    var s := Sweep(l, ids, d, reload);
    var (m, failed) := Sync(l, cfg, w, reload, ids);
    SweepAgrees(l, ids, d, reload);
    SweepAt(l, ids, d, reload, "");
    WorkWithin(cfg, w);
    HonestlyOwn(s, work, w, d);
    AllAgree(s, work, w);
    AllAt(s, work, w, "");
    forall id
      ensures Reconciled(l, cfg, w, reload, m, id)
    {
      ReconciledAt(l, cfg, w, reload, ids, id);
    }
    SkippedExactly(l, cfg, w, reload, ids);
  }

  lemma SkipsExactly(l: Live, cfg: Config, w: World, reload: bool, ids: seq<string>)
    requires Agrees(l) && Names(l, ids) && Honest(Desired(cfg, w), w)
    ensures Sync(l, cfg, w, reload, ids).1 == 0 <==>
      forall t | t in Work(cfg, w) :: t.id in Sweep(l, ids, Desired(cfg, w), reload).built || Buildable(w, t.id, t.spec)
  {
    hide Desired, Work, Sweep, Agrees, Honest, Names, Buildable, RegisterAll;
    var d := Desired(cfg, w);
    SweepAgrees(l, ids, d, reload);
    WorkWithin(cfg, w);
    AllSkipped(Sweep(l, ids, d, reload), Work(cfg, w), w, d);
  }

  lemma KeptAt(l: Live, cfg: Config, w: World, reload: bool, ids: seq<string>, id: string)
    requires Agrees(l) && Names(l, ids)
    ensures id in Sweep(l, ids, Desired(cfg, w), reload).built <==> Kept(l, cfg, w, reload, id)
  {
    SweepAt(l, ids, Desired(cfg, w), reload, id);
  }

  lemma SkippedExactly(l: Live, cfg: Config, w: World, reload: bool, ids: seq<string>)
    requires Agrees(l) && Names(l, ids) && Honest(Desired(cfg, w), w)
    ensures var (m, failed) := Sync(l, cfg, w, reload, ids); failed == 0 <==> m.built == Desired(cfg, w)
  {
    hide Sync, Desired, Work, Sweep, Agrees, Honest, Names, AdapterID;
    var d, work := Desired(cfg, w), Work(cfg, w);
    var s := Sweep(l, ids, d, reload);
    var (m, failed) := Sync(l, cfg, w, reload, ids);
    SkipsExactly(l, cfg, w, reload, ids);
    WorkWithin(cfg, w);
    forall id
      ensures Reconciled(l, cfg, w, reload, m, id)
      ensures id in d ==> Wanted(id, d[id]) in work
      ensures id in s.built <==> Kept(l, cfg, w, reload, id)
    {
      ReconciledAt(l, cfg, w, reload, ids, id);
      KeptAt(l, cfg, w, reload, ids, id);
      if id in d { WorkExact(cfg, w, Wanted(id, d[id])); }
    }
    if failed == 0 {
      forall id | id in d ensures id in m.built { assert Wanted(id, d[id]) in work; }
    } else {
      var t :| t in work && !(t.id in s.built || Buildable(w, t.id, t.spec));
      assert Reconciled(l, cfg, w, reload, m, t.id);
      assert t.id !in m.built;
    }
  }

  /** The id has a source: it was kept, or something before it in the work was built under it. */
  ghost predicate Taken(kept: set<string>, before: seq<Wanted>, w: World, id: string) {
    id in kept || exists t | t in before :: t.id == id && Buildable(w, id, t.spec)
  }

  /** Nothing is built for t, or it calls itself t's id, or what it calls itself cannot be registered. */
  ghost predicate Harmless(kept: set<string>, before: seq<Wanted>, w: World, t: Wanted) {
    var a := AdapterID(w, t.id, t.spec);
    a.None? || a.value == t.id || Blank(a.value) || Taken(kept, before, w, t.id) || Taken(kept, before, w, a.value)
  }

  ghost predicate AllHarmless(kept: set<string>, work: seq<Wanted>, w: World) {
    forall i | 0 <= i < |work| :: Harmless(kept, work[..i], w, work[i])
  }

  lemma TakenNext(kept: set<string>, work: seq<Wanted>, w: World, id: string)
    requires work != []
    ensures var n := |work| - 1;
      Taken(kept, work, w, id) <==>
        Taken(kept, work[..n], w, id) || (work[n].id == id && Buildable(w, id, work[n].spec))
  {
    var n := |work| - 1;
    assert work == work[..n] + [work[n]];
    if t :| t in work && t.id == id && Buildable(w, id, t.spec) { assert t in work[..n] || t == work[n]; }
    if t :| t in work[..n] && t.id == id && Buildable(w, id, t.spec) { assert t in work; }
  }

  /** While every registration is under its own id, what has a source is what is taken. */
  lemma {:induction false} OwnExactly(l: Live, kept: set<string>, work: seq<Wanted>, w: World)
    requires Agrees(l) && forall id :: id in kept <==> id in l.reg.sources
    ensures AllUnderOwnID(l, work, w) <==> AllHarmless(kept, work, w)
    ensures AllUnderOwnID(l, work, w) ==>
      forall id :: id in RegisterAll(l, work, w).0.reg.sources <==> Taken(kept, work, w, id)
  {
    if work != [] {
      hide Agrees, Taken, AdapterID, Buildable, UnderOwnID, Harmless, RegisterOne, AllHarmless;
      var n := |work| - 1;
      var m := RegisterAll(l, work[..n], w).0;
      OwnExactly(l, kept, work[..n], w);
      AllAgree(l, work[..n], w);
      HarmlessNext(kept, work, w);
      if AllUnderOwnID(l, work[..n], w) {
        OwnHarmless(m, kept, work[..n], w, work[n]);
        forall id
          ensures UnderOwnID(m, work[n], w) ==>
            (id in RegisterOne(m, work[n], w).0.reg.sources <==> Taken(kept, work, w, id))
        {
          TakenNext(kept, work, w, id);
          OneTakes(m, work[n], w, id);
        }
      }
    }
  }

  lemma HarmlessNext(kept: set<string>, work: seq<Wanted>, w: World)
    requires work != []
    ensures var n := |work| - 1;
      AllHarmless(kept, work, w) <==> AllHarmless(kept, work[..n], w) && Harmless(kept, work[..n], w, work[n])
  {
    hide Harmless;
    var n := |work| - 1;
    assert forall i | 0 <= i < n :: work[..n][..i] == work[..i];
  }

  lemma OwnHarmless(l: Live, kept: set<string>, before: seq<Wanted>, w: World, t: Wanted)
    requires Agrees(l) && forall id :: id in l.reg.sources <==> Taken(kept, before, w, id)
    ensures UnderOwnID(l, t, w) <==> Harmless(kept, before, w, t)
  {
    hide Taken, AdapterID;
  }

  lemma OneTakes(l: Live, t: Wanted, w: World, id: string)
    requires Agrees(l)
    ensures UnderOwnID(l, t, w) ==>
      (id in RegisterOne(l, t, w).0.reg.sources <==> id in l.reg.sources || (t.id == id && Buildable(w, id, t.spec)))
  {
    hide AdapterID;
  }

  /**
   The registry agrees after a sync exactly when each wanted source either calls itself the
   id it is wanted under, or is not registered: it does not build, or names no id, or one of
   the two ids has a source already.
   */
  lemma AgreesExactly(l: Live, cfg: Config, w: World, reload: bool, ids: seq<string>)
    requires Agrees(l) && Names(l, ids)
    ensures var kept := set id | id in l.built && Kept(l, cfg, w, reload, id);
      Agrees(Sync(l, cfg, w, reload, ids).0) <==> AllHarmless(kept, Work(cfg, w), w)
  {
    var s, work := Sweep(l, ids, Desired(cfg, w), reload), Work(cfg, w);
    var kept := set id | id in l.built && Kept(l, cfg, w, reload, id);
    SweepAgrees(l, ids, Desired(cfg, w), reload);
    forall id
      ensures id in kept <==> id in s.reg.sources
    {
      SweepAt(l, ids, Desired(cfg, w), reload, id);
    }
    OwnExactly(s, kept, work, w);
    AllAgree(s, work, w);
    if !AllUnderOwnID(s, work, w) { AstrayDisagrees(Sync(l, cfg, w, reload, ids).0); }
  }

  // ----- what runs after a sync -----

  /** Each source is left to filter its own results exactly if it was built to. */
  ghost predicate Filters(l: Live) {
    forall id | id in l.built && id in l.reg.sources && l.reg.sources[id] < |l.reg.srcs| ::
      l.reg.srcs[l.reg.sources[id]].local == (l.built[id].Bundled? || l.built[id].entry.kind == "scraper")
  }

  lemma OneFilters(l: Live, t: Wanted, w: World)
    requires Agrees(l) && Filters(l) && UnderOwnID(l, t, w)
    ensures Filters(RegisterOne(l, t, w).0)
  {
    var m := RegisterOne(l, t, w).0;
    forall id | id in m.built && id in m.reg.sources && m.reg.sources[id] < |m.reg.srcs|
      ensures m.reg.srcs[m.reg.sources[id]].local == (m.built[id].Bundled? || m.built[id].entry.kind == "scraper")
    {
      OneAt(l, t, w, id);
      if id in l.built { assert Rightful(l, id); } else { assert id == t.id; }
    }
  }

  lemma {:induction false} AllFilters(l: Live, work: seq<Wanted>, w: World)
    requires Agrees(l) && Filters(l) && AllUnderOwnID(l, work, w)
    ensures Filters(RegisterAll(l, work, w).0)
  {
    if work != [] {
      hide Agrees, Filters, UnderOwnID, RegisterOne;
      var n := |work| - 1;
      AllFilters(l, work[..n], w);
      AllAgree(l, work[..n], w);
      OneFilters(RegisterAll(l, work[..n], w).0, work[n], w);
    }
  }

  lemma SweepFilters(l: Live, ids: seq<string>, desired: map<string, Spec>, reload: bool)
    requires Fresh(l) && Filters(l) && forall i | i in ids :: i in l.built
    ensures Filters(Sweep(l, ids, desired, reload))
  {
    hide Sweep, Stays;
    var m := Sweep(l, ids, desired, reload);
    forall id | id in m.built && id in m.reg.sources && m.reg.sources[id] < |m.reg.srcs|
      ensures m.reg.srcs[m.reg.sources[id]].local == (m.built[id].Bundled? || m.built[id].entry.kind == "scraper")
    {
      SweepAt(l, ids, desired, reload, id);
    }
  }

  lemma SyncFilters(l: Live, cfg: Config, w: World, reload: bool, ids: seq<string>)
    requires Agrees(l) && Names(l, ids) && Honest(Desired(cfg, w), w) && Filters(l)
    ensures Filters(Sync(l, cfg, w, reload, ids).0)
  {
    hide Filters, Honest, Desired, Work, Sweep, RegisterAll;
    var d := Desired(cfg, w);
    SweepAgrees(l, ids, d, reload);
    SweepFilters(l, ids, d, reload);
    WorkWithin(cfg, w);
    HonestlyOwn(Sweep(l, ids, d, reload), Work(cfg, w), w, d);
    AllFilters(Sweep(l, ids, d, reload), Work(cfg, w), w);
  }

  /** id's source was built from spec: the object it was, if that was built from spec and stays, else a new one. */
  ghost predicate Runs(l: Live, m: Live, id: string, spec: Spec, local: bool, stays: bool) {
    && id in m.built && m.built[id] == spec && id in m.reg.sources && m.reg.sources[id] < |m.reg.srcs|
    && m.reg.srcs[m.reg.sources[id]].local == local
    && (if id in l.built && l.built[id] == spec && stays then
          id in l.reg.sources && m.reg.sources[id] == l.reg.sources[id]
        else m.reg.sources[id] >= |l.reg.srcs|)
  }

  /**
   After a sync the first enabled entry of its id is searched, if it is a torznab entry or a scraper
   whose definition is there and declares that id: by the source it already had when it is unchanged,
   and not a scraper that is being reloaded. A scraper leaves filtering to the registry, torznab does not.
   */
  lemma EntryRuns(l: Live, cfg: Config, w: World, reload: bool, ids: seq<string>, e: Entry, i: nat)
    requires Agrees(l) && Names(l, ids) && Honest(Desired(cfg, w), w) && Filters(l)
    requires FirstEnabled(cfg.entries, e, i) && !Blank(e.id) && (e.id, Entered(e)) !in w.broken
    requires e.kind == "torznab" || (e.kind == "scraper" && e.definition in w.files && w.files[e.definition] == e.id)
    ensures Runs(l, Sync(l, cfg, w, reload, ids).0, e.id, Entered(e), e.kind == "scraper",
                 !(reload && e.kind == "scraper"))
  {
    hide Sync, Agrees, Names, Honest, Blank;
    FirstWanted(cfg, w, e, i);
    SpecRuns(l, cfg, w, reload, ids, e.id, Entered(e));
  }

  lemma FirstWanted(cfg: Config, w: World, e: Entry, i: nat)
    requires FirstEnabled(cfg.entries, e, i)
    ensures e.id in Desired(cfg, w) && Desired(cfg, w)[e.id] == Entered(e)
  {
    hide Desired;
    DesiredExact(cfg, w, e.id);
    assert e in cfg.entries && Configured(cfg, e.id);
    var j :| FirstEnabled(cfg.entries, Desired(cfg, w)[e.id].entry, j);
    assert i == j;
  }

  lemma SpecRuns(l: Live, cfg: Config, w: World, reload: bool, ids: seq<string>, id: string, spec: Spec)
    requires Agrees(l) && Names(l, ids) && Honest(Desired(cfg, w), w) && Filters(l)
    requires id in Desired(cfg, w) && Desired(cfg, w)[id] == spec && Buildable(w, id, spec)
    ensures var scraper := spec.Bundled? || spec.entry.kind == "scraper";
      Runs(l, Sync(l, cfg, w, reload, ids).0, id, spec, scraper, !(reload && scraper))
  {
    hide Sync, Desired, Names, Honest, Buildable;
    var m := Sync(l, cfg, w, reload, ids).0;
    SyncReconciles(l, cfg, w, reload, ids);
    SyncFilters(l, cfg, w, reload, ids);
    assert Reconciled(l, cfg, w, reload, m, id);
  }

  /** So is a bundled source that no entry replaces and that is not turned off; it is rebuilt by every reload. */
  lemma BundledRuns(l: Live, cfg: Config, w: World, reload: bool, ids: seq<string>, id: string)
    requires Agrees(l) && Names(l, ids) && Honest(Desired(cfg, w), w) && Filters(l)
    requires id in w.bundled && (forall e | e in cfg.entries :: e.id != id) && id !in cfg.disabled
    requires !Blank(id) && (id, Bundled) !in w.broken
    ensures Runs(l, Sync(l, cfg, w, reload, ids).0, id, Bundled, true, !reload)
  {
    hide Sync, Agrees, Names, Honest, Blank;
    DesiredExact(cfg, w, id);
    SpecRuns(l, cfg, w, reload, ids, id, Bundled);
  }

  /** What cannot be built is not: only the source that was there before may still run. */
  lemma UnbuildableStays(l: Live, cfg: Config, w: World, reload: bool, ids: seq<string>, id: string)
    requires Agrees(l) && Names(l, ids) && Honest(Desired(cfg, w), w)
    requires id in Desired(cfg, w)
    requires var spec := Desired(cfg, w)[id];
      || (id, spec) in w.broken
      || (spec.Entered? && spec.entry.kind != "torznab" && spec.entry.kind != "scraper")
      || (spec.Entered? && spec.entry.kind == "scraper" && spec.entry.definition !in w.files)
    ensures var m := Sync(l, cfg, w, reload, ids).0;
      id in m.built ==> id in l.built && l.built[id] == m.built[id]
    ensures Sync(l, cfg, w, reload, ids).1 == 0 ==> id in Sync(l, cfg, w, reload, ids).0.built
  {
    hide Sync, Desired, Names, Honest, Agrees;
    SyncReconciles(l, cfg, w, reload, ids);
    assert Reconciled(l, cfg, w, reload, Sync(l, cfg, w, reload, ids).0, id);
  }

  /** Nothing else is. */
  lemma OthersGo(l: Live, cfg: Config, w: World, reload: bool, ids: seq<string>, id: string)
    requires Agrees(l) && Names(l, ids) && Honest(Desired(cfg, w), w)
    requires id in Sync(l, cfg, w, reload, ids).0.reg.sources
    ensures (id in w.bundled && (forall e | e in cfg.entries :: e.id != id) && id !in cfg.disabled)
            || exists e | e in cfg.entries :: e.enabled && e.id == id
  {
    hide Sync, Desired, Names, Honest;
    SyncReconciles(l, cfg, w, reload, ids);
    assert Reconciled(l, cfg, w, reload, Sync(l, cfg, w, reload, ids).0, id);
    DesiredExact(cfg, w, id);
  }

  /** Whatever searches do to the registry between two syncs, the agreement stands. */
  lemma SearchesKeepAgreement(l: Live, ev: RegistryState.Event)
    requires Agrees(l) && !ev.EvRegister? && !ev.EvUnregister?
    ensures Agrees(l.(reg := Apply(l.reg, ev)))
  {
  }

  /** Syncing again with the same configuration unregisters nothing, and when nothing was skipped changes nothing. */
  lemma SecondSync(l: Live, cfg: Config, w: World, reload: bool, ids: seq<string>, ids': seq<string>)
    requires Agrees(l) && Names(l, ids) && Honest(Desired(cfg, w), w)
    requires Names(Sync(l, cfg, w, reload, ids).0, ids')
    ensures var (m, failed) := Sync(l, cfg, w, reload, ids);
      && Sweep(m, ids', Desired(cfg, w), false) == m
      && (failed == 0 ==> Sync(m, cfg, w, false, ids') == (m, 0))
  {
    var d := Desired(cfg, w);
    var (m, failed) := Sync(l, cfg, w, reload, ids);
    SyncReconciles(l, cfg, w, reload, ids);
    forall id | id in m.built
      ensures Stays(d, id, m.built[id], false)
    {
      assert Reconciled(l, cfg, w, reload, m, id);
    }
    SweepNothing(m, ids', d);
    if failed == 0 {
      WorkWithin(cfg, w);
      RegisterNothing(m, Work(cfg, w), w);
    }
  }

  lemma {:induction false} SweepNothing(l: Live, ids: seq<string>, desired: map<string, Spec>)
    requires forall id | id in l.built :: Stays(desired, id, l.built[id], false)
    requires forall id | id in ids :: id in l.built
    ensures Sweep(l, ids, desired, false) == l
  {
    if ids != [] {
      var n := |ids| - 1;
      assert ids[n] in ids;
      assert forall id | id in ids[..n] :: id in ids;
      SweepNothing(l, ids[..n], desired);
    }
  }

  lemma {:induction false} RegisterNothing(l: Live, work: seq<Wanted>, w: World)
    requires forall t | t in work :: t.id in l.built
    ensures RegisterAll(l, work, w) == (l, 0)
  {
    if work != [] {
      var n := |work| - 1;
      assert work[n] in work;
      assert forall t | t in work[..n] :: t in work;
      RegisterNothing(l, work[..n], w);
    }
  }

  const MINE: Entry := Entry("mine", true, "scraper", "d.yaml", "")

  function StrayWorld(): World {
    World([], map["d.yaml" := "theirs"], {})
  }

  function Empty(): Live {
    Live(Init(1, 1, 1), map[], map[])
  }

  const ONLY_MINE: Config := Config([MINE], [])
  const NOTHING: Config := Config([], [])

  lemma StrayWork()
    ensures Work(ONLY_MINE, StrayWorld()) == [Wanted("mine", Entered(MINE))]
  {
    var w := StrayWorld();
    var d := Desired(ONLY_MINE, w);
    assert ONLY_MINE.entries[..0] == [];
    assert DesiredEntries(map[], []) == map[];
    assert d == map["mine" := Entered(MINE)];
    assert WantedEntries([], d) == [];
    assert WantedEntries(ONLY_MINE.entries, d) == [Wanted("mine", Entered(MINE))];
    assert WantedBundled(w.bundled, d) == [];
  }

  lemma StrayRegistered()
    ensures var (m, failed) := Sync(Empty(), ONLY_MINE, StrayWorld(), false, []);
      && failed == 0 && m.built == map["mine" := Entered(MINE)] && m.reg.sources == map["theirs" := 0]
  {
    StrayWork();
    var t := Wanted("mine", Entered(MINE));
    assert [t][..0] == [];
    assert RegisterAll(Empty(), [], StrayWorld()) == (Empty(), 0);
    assert AdapterID(StrayWorld(), t.id, t.spec) == Some("theirs");
    assert !Blank("theirs") by { assert "theirs"[0] == 't'; }
    assert Sweep(Empty(), [], Desired(ONLY_MINE, StrayWorld()), false) == Empty();
  }

  /**
   A scraper entry whose definition declares another id is registered under that id and
   recorded under its own; taking the entry out again then unregisters nothing, and the
   source goes on being searched.
   */
  lemma StraySourceStays()
    ensures var (m, failed) := Sync(Empty(), ONLY_MINE, StrayWorld(), false, []);
      && Agrees(Empty()) && failed == 0 && !Agrees(m)
      && "mine" in m.built && "mine" !in m.reg.sources && "theirs" in m.reg.sources
      && var m' := Sync(m, NOTHING, StrayWorld(), false, ["mine"]).0;
         m'.built == map[] && "theirs" in m'.reg.sources
  {
    StrayRegistered();
    var m := Sync(Empty(), ONLY_MINE, StrayWorld(), false, []).0;
    assert "mine" != "theirs" by { assert |"mine"| == 4; }
    assert "mine" in m.built && "mine" !in m.reg.sources;
    NothingWanted();
    OneSwept(m, "mine");
  }

  lemma NothingWanted()
    ensures Desired(NOTHING, StrayWorld()) == map[] && Work(NOTHING, StrayWorld()) == []
  {
  }

  lemma OneSwept(m: Live, id: string)
    requires id in m.built && id !in m.reg.sources
    ensures Sweep(m, [id], map[], false) == m.(built := m.built - {id})
  {
  }
}

/** liveSources: the registry it keeps, and the loops of one sync. */
module Sync {
  import opened Wrappers
  import RegistryState
  import Registry
  import opened SyncState
  import opened SyncProofs

  class LiveSources {
    const reg: Registry.Registry
    var built: map<string, Spec>
    ghost var owner: map<RegistryState.SourceRef, string>

    ghost function View(): Live
      reads this, reg
    {
      Live(reg.View(), built, owner)
    }

    constructor (reg: Registry.Registry)
      ensures this.reg == reg && View() == Live(reg.View(), map[], map[])
    {
      this.reg, built, owner := reg, map[], map[];
    }

    static method DesiredSources(cfg: Config, w: World) returns (desired: map<string, Spec>)
      ensures desired == Desired(cfg, w)
    {
      desired := map[];
      var i := 0;
      while i < |w.bundled|
        invariant i <= |w.bundled|
        invariant desired == DesiredBundled(cfg, w.bundled[..i])
      {
        assert w.bundled[..i + 1][..i] == w.bundled[..i];
        if !Configured(cfg, w.bundled[i]) && w.bundled[i] !in cfg.disabled {
          desired := desired[w.bundled[i] := Bundled];
        }
        i := i + 1;
      }
      assert w.bundled[..i] == w.bundled;
      ghost var m := desired;
      i := 0;
      while i < |cfg.entries|
        invariant i <= |cfg.entries|
        invariant desired == DesiredEntries(m, cfg.entries[..i])
      {
        var e := cfg.entries[i];
        assert cfg.entries[..i + 1][..i] == cfg.entries[..i];
        if e.enabled && e.id !in desired {
          desired := desired[e.id := Entered(e)];
        }
        i := i + 1;
      }
      assert cfg.entries[..i] == cfg.entries;
    }

    method SweepOut(desired: map<string, Spec>, reload: bool) returns (ghost ids: seq<string>)
      requires reg.Valid()
      modifies this, reg
      ensures reg.Valid()
      ensures View() == Sweep(old(View()), ids, desired, reload) && Names(old(View()), ids)
    {
      ids := [];
      ghost var l := View();
      var left := built.Keys;
      while left != {}
        invariant left <= built.Keys && reg.Valid()
        invariant View() == Sweep(l, ids, desired, reload)
        invariant forall id :: id in ids <==> id in l.built && id !in left
        decreases left
      {
        var id :| id in left;
        left := left - {id};
        ghost var ids' := ids + [id];
        assert ids'[..|ids|] == ids;
        if !Stays(desired, id, built[id], reload) {
          var found := reg.Unregister(id);
          built := built - {id};
        }
        ids := ids';
      }
    }

    /** register. */
    method RegisterSource(t: Wanted, w: World) returns (skipped: nat)
      requires reg.Valid()
      modifies this, reg
      ensures reg.Valid()
      ensures (View(), skipped) == RegisterOne(old(View()), t, w)
    {
      if t.id in built {
        return 0;
      }
      var a := AdapterID(w, t.id, t.spec);
      if a.None? {
        return 1;
      }
      var out := reg.Register(a.value, ScraperBacked(t.spec));
      if !out.Registered? {
        return 1;
      }
      built, owner := built[t.id := t.spec], owner[out.src := t.id];
      skipped := 0;
    }

    method TakeTurn(t: Option<Wanted>, w: World) returns (skipped: nat)
      requires reg.Valid()
      modifies this, reg
      ensures (View(), skipped) == Turn(old(View()), t, w)
      ensures reg.Valid()
    {
      skipped := 0;
      if t.Some? {
        skipped := RegisterSource(t.value, w);
      }
    }

    method RegisterBundled(bundled: seq<string>, desired: map<string, Spec>, w: World) returns (failed: nat)
      requires reg.Valid()
      modifies this, reg
      ensures (View(), failed) == RegisterAll(old(View()), WantedBundled(bundled, desired), w)
      ensures reg.Valid()
    {
      hide RegisterAll, WantedBundled, Turn;
      ghost var l := View();
      failed := 0;
      var i := 0;
      RegisterNone(l, bundled, [], desired, w);
      while i < |bundled|
        invariant i <= |bundled| && reg.Valid()
        invariant (View(), failed) == RegisterAll(l, WantedBundled(bundled[..i], desired), w)
      {
        var id := bundled[i];
        NextBundled(l, bundled, i, desired, w);
        var skipped := TakeTurn(if id in desired && desired[id].Bundled? then Some(Wanted(id, Bundled)) else None, w);
        failed := failed + skipped;
        i := i + 1;
      }
      assert bundled[..i] == bundled;
    }

    method RegisterEntries(entries: seq<Entry>, desired: map<string, Spec>, w: World) returns (failed: nat)
      requires reg.Valid()
      modifies this, reg
      ensures (View(), failed) == RegisterAll(old(View()), WantedEntries(entries, desired), w)
      ensures reg.Valid()
    {
      hide RegisterAll, WantedEntries, Turn;
      ghost var l := View();
      failed := 0;
      var i := 0;
      RegisterNone(l, [], entries, desired, w);
      while i < |entries|
        invariant i <= |entries| && reg.Valid()
        invariant EntriesDone(l, entries[..i], desired, w, View(), failed)
      {
        var e := entries[i];
        NextEntry(l, entries, i, desired, w, View(), failed);
        var next := if e.id in desired && desired[e.id] == Entered(e) then Some(Wanted(e.id, Entered(e))) else None;
        var skipped := TakeTurn(next, w);
        failed := failed + skipped;
        i := i + 1;
      }
      assert entries[..i] == entries;
    }

    method RegisterDesired(cfg: Config, desired: map<string, Spec>, w: World) returns (failed: nat)
      requires reg.Valid()
      modifies this, reg
      ensures (View(), failed) ==
        RegisterAll(old(View()), WantedBundled(w.bundled, desired) + WantedEntries(cfg.entries, desired), w)
      ensures reg.Valid()
    {
      hide RegisterAll, WantedBundled, WantedEntries;
      ghost var l := View();
      var bundled := RegisterBundled(w.bundled, desired, w);
      var entered := RegisterEntries(cfg.entries, desired, w);
      RegisterBoth(l, WantedBundled(w.bundled, desired), WantedEntries(cfg.entries, desired), w);
      failed := bundled + entered;
    }

    /** sync: sweep, then register the bundled sources, then the entries. */
    method Sync(cfg: Config, w: World, reload: bool) returns (failed: nat, ghost ids: seq<string>)
      requires reg.Valid()
      modifies this, reg
      ensures (View(), failed) == SyncState.Sync(old(View()), cfg, w, reload, ids) && Names(old(View()), ids)
      ensures reg.Valid()
    {
      var desired := DesiredSources(cfg, w);
      ids := SweepOut(desired, reload);
      failed := RegisterDesired(cfg, desired, w);
    }
  }

  /** Both loops start from nothing done. */
  lemma RegisterNone(l: Live, bundled: seq<string>, entries: seq<Entry>, desired: map<string, Spec>, w: World)
    ensures RegisterAll(l, WantedBundled(bundled[..0], desired), w) == (l, 0)
    ensures RegisterAll(l, WantedEntries(entries[..0], desired), w) == (l, 0)
  {
  }

  lemma RegisterNext(l: Live, work: seq<Wanted>, t: Wanted, w: World)
    ensures var (m, n) := RegisterAll(l, work, w);
      RegisterAll(l, work + [t], w) == (RegisterOne(m, t, w).0, n + RegisterOne(m, t, w).1)
  {
  }

  /** One turn of a loop: nothing, or one registration. */
  ghost function Turn(l: Live, t: Option<Wanted>, w: World): (Live, nat) {
    if t.Some? then RegisterOne(l, t.value, w) else (l, 0)
  }

  /** A pass, and one more turn. */
  ghost predicate Step(p: (Live, nat), q: (Live, nat), t: Option<Wanted>, w: World) {
    q == (Turn(p.0, t, w).0, p.1 + Turn(p.0, t, w).1)
  }

  lemma NextBundled(l: Live, bundled: seq<string>, i: nat, desired: map<string, Spec>, w: World)
    requires i < |bundled|
    ensures var id := bundled[i];
      Step(RegisterAll(l, WantedBundled(bundled[..i], desired), w),
        RegisterAll(l, WantedBundled(bundled[..i + 1], desired), w),
           if id in desired && desired[id].Bundled? then Some(Wanted(id, Bundled)) else None, w)
  {
    assert bundled[..i + 1][..i] == bundled[..i];
    var before := WantedBundled(bundled[..i], desired);
    assert before + [] == before;
    RegisterNext(l, before, Wanted(bundled[i], Bundled), w);
  }

  ghost predicate EntriesDone(l: Live, entries: seq<Entry>, desired: map<string, Spec>, w: World, m: Live, n: nat) {
    (m, n) == RegisterAll(l, WantedEntries(entries, desired), w)
  }

  lemma NextEntry(l: Live, entries: seq<Entry>, i: nat, desired: map<string, Spec>, w: World, m: Live, n: nat)
    requires i < |entries| && EntriesDone(l, entries[..i], desired, w, m, n)
    ensures var e := entries[i];
      var t := if e.id in desired && desired[e.id] == Entered(e) then Some(Wanted(e.id, Entered(e))) else None;
      EntriesDone(l, entries[..i + 1], desired, w, Turn(m, t, w).0, n + Turn(m, t, w).1)
  {
    hide RegisterAll, RegisterOne;
    assert entries[..i + 1][..i] == entries[..i];
    var before := WantedEntries(entries[..i], desired);
    assert before + [] == before;
    RegisterNext(l, before, Wanted(entries[i].id, Entered(entries[i])), w);
  }

  lemma {:induction false} RegisterBoth(l: Live, a: seq<Wanted>, b: seq<Wanted>, w: World)
    ensures var (m, n) := RegisterAll(l, a, w);
      RegisterAll(l, a + b, w) == (RegisterAll(m, b, w).0, n + RegisterAll(m, b, w).1)
    decreases |b|
  {
    if b == [] {
      assert a + b == a;
    } else {
      RegisterBoth(l, a, b[..|b| - 1], w);
      RegisterNext(l, a + b[..|b| - 1], b[|b| - 1], w);
      assert a + b == a + b[..|b| - 1] + [b[|b| - 1]];
    }
  }
}
