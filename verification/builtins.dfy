/**
 The built-in sources' rows: the settings manager that owns them, the settings screen's
 copy, and the saves and result messages between the two.
 */
module BuiltinState {
  import opened Wrappers
  import opened SyncState

  datatype Row = Row(id: string, name: string, enabled: bool)

  /** A bundled definition. */
  datatype Definition = Definition(id: string, name: string)

  datatype Kind = Toggle(id: string, enabled: bool) | Sources(entries: seq<Entry>)

  /** How far a save has got; at is the version it made (history). */
  datatype Stage = Requested | Saved(at: nat) | Failed | Ready(rows: seq<Row>, seqno: nat, at: nat)

  datatype Save = Save(kind: Kind, stage: Stage)

  /** The manager, the screen, the saves not yet delivered; hist is the rows of every version (history). */
  datatype State = State(
    defs: seq<Definition>,
    cfg: Config,
    prefs: string,
    version: nat,
    snapshot: seq<Row>,
    builtinSeq: nat,
    saves: map<nat, Save>,
    hist: seq<seq<Row>>)

  /** BuiltinSources: every bundled source no entry replaces, in definition order. */
  function Rows(defs: seq<Definition>, cfg: Config): seq<Row> {
    if defs == [] then []
    else
      var d := defs[|defs| - 1];
      Rows(defs[..|defs| - 1], cfg) + (if Configured(cfg, d.id) then [] else [Row(d.id, d.name, d.id !in cfg.disabled)])
  }

  function WithFlag(cfg: Config, id: string, enabled: bool): Config {
    cfg.(disabled := Without(cfg.disabled, id) + (if enabled then [] else [id]))
  }

  predicate Known(defs: seq<Definition>, id: string) {
    exists d | d in defs :: d.id == id
  }

  function Flipped(rows: seq<Row>, id: string): seq<Row> {
    seq(|rows|, i requires 0 <= i < |rows| => if rows[i].id == id then rows[i].(enabled := !rows[i].enabled)
      else rows[i])
  }

  function PutBack(rows: seq<Row>, id: string, enabled: bool): seq<Row> {
    seq(|rows|, i requires 0 <= i < |rows| => if rows[i].id == id then rows[i].(enabled := enabled) else rows[i])
  }

  /** The screen reads the rows once at startup. */
  function Init(defs: seq<Definition>, cfg: Config, prefs: string): State {
    State(defs, cfg, prefs, 0, Rows(defs, cfg), 0, map[], [Rows(defs, cfg)])
  }

  /** toggleBuiltin on row i: flip it on the screen, then save; k numbers the save. */
  function ToggleRow(s: State, i: nat, k: nat): State {
    if i >= |s.snapshot| || k in s.saves then s
    else
      var b := s.snapshot[i];
      s.(snapshot := Flipped(s.snapshot, b.id), saves := s.saves[k := Save(Toggle(b.id, !b.enabled), Requested)])
  }

  function RequestSources(s: State, entries: seq<Entry>, k: nat): State {
    if k in s.saves then s else s.(saves := s.saves[k := Save(Sources(entries), Requested)])
  }

  /** A save that was written: the configuration is replaced and the version rises. */
  function Written(s: State, k: nat, cfg: Config): State
    requires k in s.saves
  {
    s.(cfg := cfg, version := s.version + 1, hist := s.hist + [Rows(s.defs, cfg)],
       saves := s.saves[k := s.saves[k].(stage := Saved(s.version + 1))])
  }

  /** SetBuiltinEnabled or SaveSources; ok says whether the file was written. */
  function RunSave(s: State, k: nat, ok: bool): State {
    if k !in s.saves || s.saves[k].stage != Requested then s
    else
      match s.saves[k].kind
      case Toggle(id, enabled) =>
        if !ok || !Known(s.defs, id) then s.(saves := s.saves[k := s.saves[k].(stage := Failed)])
        else Written(s, k, WithFlag(s.cfg, id, enabled))
      case Sources(entries) =>
        if !ok then s.(saves := s.saves[k := s.saves[k].(stage := Failed)])
        else Written(s, k, s.cfg.(entries := entries))
  }

  /** refreshBuiltins after a save that was written: another critical section. */
  function ReadRows(s: State, k: nat): State {
    if k !in s.saves || !s.saves[k].stage.Saved? then s
    else s.(saves := s.saves[k := s.saves[k].(stage := Ready(Rows(s.defs, s.cfg), s.version, s.saves[k].stage.at))])
  }

  /** The result message: the rows unless older than those shown, or the toggled row put back. */
  function Deliver(s: State, k: nat): State {
    if k !in s.saves then s
    else
      var d := s.saves[k];
      var t := s.(saves := s.saves - {k});
      match d.stage
      case Ready(rows, seqno, _) => if seqno < s.builtinSeq then t else t.(snapshot := rows, builtinSeq := seqno)
      case Failed => if d.kind.Toggle? then t.(snapshot := PutBack(s.snapshot, d.kind.id, !d.kind.enabled)) else t
      case _ => s
  }

  /** SaveConfig: the preferences are the caller's, the sources the manager's own. */
  function SaveConfig(s: State, prefs: string, entries: seq<Entry>, disabled: seq<string>, ok: bool): State {
    if ok then s.(prefs := prefs) else s
  }

  datatype Event =
    | EvToggle(i: nat, k: nat)
    | EvSources(entries: seq<Entry>, k: nat)
    | EvSave(k: nat, ok: bool)
    | EvRead(k: nat)
    | EvDeliver(k: nat)
    | EvSaveConfig(prefs: string, entries: seq<Entry>, disabled: seq<string>, ok: bool)

  function Apply(s: State, ev: Event): State {
    match ev
    case EvToggle(i, k) => ToggleRow(s, i, k)
    case EvSources(entries, k) => RequestSources(s, entries, k)
    case EvSave(k, ok) => RunSave(s, k, ok)
    case EvRead(k) => ReadRows(s, k)
    case EvDeliver(k) => Deliver(s, k)
    case EvSaveConfig(prefs, entries, disabled, ok) => SaveConfig(s, prefs, entries, disabled, ok)
  }

  function Run(s: State, evs: seq<Event>): State
    decreases |evs|
  {
    if evs == [] then s else Run(Apply(s, evs[0]), evs[1..])
  }
}

/** When the screen's rows end up the manager's. */
module BuiltinProofs {
  import opened Wrappers
  import opened SyncState
  import opened BuiltinState

  // ----- rows -----

  /** What the rows are: one for each bundled source no entry replaces, with its flag. */
  lemma {:induction false} RowsExact(defs: seq<Definition>, cfg: Config, r: Row)
    ensures r in Rows(defs, cfg) <==>
      Definition(r.id, r.name) in defs && !Configured(cfg, r.id) && (r.enabled <==> r.id !in cfg.disabled)
  {
    if defs != [] {
      var n := |defs| - 1;
      RowsExact(defs[..n], cfg, r);
      assert defs == defs[..n] + [defs[n]];
    }
  }

  /** They stand in the order of the definitions. */
  lemma {:induction false} RowsInOrder(defs: seq<Definition>, cfg: Config, r: Row, q: Row)
    requires r in Rows(defs, cfg) && q in Rows(defs, cfg)
    ensures Ahead(Rows(defs, cfg), r, q) <==> Ahead(defs, Definition(r.id, r.name), Definition(q.id, q.name))
  {
    hide Ahead;
    var before, d := defs[..|defs| - 1], defs[|defs| - 1];
    var x, y := Definition(r.id, r.name), Definition(q.id, q.name);
    assert defs == before + [d];
    RowsExact(before, cfg, r);
    RowsExact(before, cfg, q);
    RowsExact(defs, cfg, r);
    RowsExact(defs, cfg, q);
    AheadJoin(before, [d], x, y);
    NoneAhead(d, x, y);
    AheadIn(before, x, y);
    AheadIn(Rows(before, cfg), r, q);
    if r in Rows(before, cfg) && q in Rows(before, cfg) { RowsInOrder(before, cfg, r, q); }
    if Configured(cfg, d.id) {
      assert Rows(defs, cfg) == Rows(before, cfg);
    } else {
      var row := Row(d.id, d.name, d.id !in cfg.disabled);
      AheadJoin(Rows(before, cfg), [row], r, q);
      NoneAhead(row, r, q);
    }
  }

  /** Saving a flag sets that flag and no other. */
  lemma FlagSet(cfg: Config, id: string, enabled: bool, y: string)
    ensures y !in WithFlag(cfg, id, enabled).disabled <==> if y == id then enabled else y !in cfg.disabled
  {
    WithoutExact(cfg.disabled, id);
  }

  // ----- what a key press does -----

  /** A request not yet carried out is still as it was made, whatever else happens. */
  lemma {:induction false} RequestStands(s: State, evs: seq<Event>, k: nat, kind: Kind)
    requires k in s.saves && s.saves[k] == Save(kind, Requested)
    requires forall ev | ev in evs :: !(ev.EvSave? && ev.k == k)
    ensures var t := Run(s, evs); k in t.saves && t.saves[k] == Save(kind, Requested) && t.defs == s.defs
    decreases |evs|
  {
    if evs != [] {
      assert evs[0] in evs;
      RequestStep(s, evs[0], k);
      RequestStands(Apply(s, evs[0]), evs[1..], k, kind);
    }
  }

  lemma RequestStep(s: State, ev: Event, k: nat)
    requires k in s.saves && s.saves[k].stage == Requested && !(ev.EvSave? && ev.k == k)
    ensures var t := Apply(s, ev); k in t.saves && t.saves[k] == s.saves[k] && t.defs == s.defs
  {
    hide Rows, WithFlag, Flipped, PutBack, Known;
  }

  /**
   A press flips the row on the screen at once, whatever is still under way. Its save, when it comes
   and is written, gives the source the flag the row then showed and leaves the rest of the configuration;
   one that fails leaves all of it, and the message of it shows the row as it was before the press.
   */
  lemma PressToggles(s: State, i: nat, k: nat, evs: seq<Event>, y: string)
    requires i < |s.snapshot| && k !in s.saves && forall ev | ev in evs :: !(ev.EvSave? && ev.k == k)
    ensures var b, shown := s.snapshot[i], ToggleRow(s, i, k).snapshot;
      |shown| == |s.snapshot| && forall j | 0 <= j < |shown| ::
        var was := s.snapshot[j];
        && shown[j].id == was.id && shown[j].name == was.name
        && shown[j].enabled == (if was.id == b.id then !was.enabled else was.enabled)
    ensures var b, t := s.snapshot[i], Run(ToggleRow(s, i, k), evs);
      var saved := RunSave(t, k, true);
      && (!Known(s.defs, b.id) ==> saved.cfg == t.cfg && saved.version == t.version)
      && (Known(s.defs, b.id) ==>
        && (y !in saved.cfg.disabled <==> if y == b.id then !b.enabled else y !in t.cfg.disabled)
        && saved.cfg.entries == t.cfg.entries && saved.prefs == t.prefs && saved.version == t.version + 1)
    ensures var b, t := s.snapshot[i], Run(ToggleRow(s, i, k), evs);
      var told := Deliver(RunSave(t, k, false), k);
      && told.cfg == t.cfg && told.version == t.version && |told.snapshot| == |t.snapshot|
      && forall j | 0 <= j < |told.snapshot| ::
           told.snapshot[j] == if t.snapshot[j].id == b.id then t.snapshot[j].(enabled := b.enabled) else t.snapshot[j]
  {
    var b := s.snapshot[i];
    RequestStands(ToggleRow(s, i, k), evs, k, Toggle(b.id, !b.enabled));
    FlagSet(Run(ToggleRow(s, i, k), evs).cfg, b.id, !b.enabled, y);
    hide Rows, WithFlag, Run;
  }

  /** Saving entries replaces them, when it comes and is written, and leaves the flags. */
  lemma EntriesReplaced(s: State, entries: seq<Entry>, k: nat, evs: seq<Event>)
    requires k !in s.saves && forall ev | ev in evs :: !(ev.EvSave? && ev.k == k)
    ensures var t := Run(RequestSources(s, entries, k), evs);
      && RunSave(t, k, true).cfg == Config(entries, t.cfg.disabled) && RunSave(t, k, true).version == t.version + 1
      && RunSave(t, k, false).cfg == t.cfg && RunSave(t, k, false).version == t.version
  {
    RequestStands(RequestSources(s, entries, k), evs, k, Sources(entries));
    hide Rows, Run;
  }

  /** SaveConfig saves the preferences it is given, and no source whatever it is given. */
  lemma ConfigSaved(s: State, prefs: string, entries: seq<Entry>, disabled: seq<string>, ok: bool)
    ensures var t := SaveConfig(s, prefs, entries, disabled, ok);
      t.prefs == (if ok then prefs else s.prefs) && t == s.(prefs := t.prefs)
  {
  }

  // ----- versions -----

  /** A version's rows are the rows of the configuration it stands for; no message is newer than the manager. */
  ghost predicate Versions(s: State) {
    && |s.hist| == s.version + 1
    && s.hist[s.version] == Rows(s.defs, s.cfg)
    && s.builtinSeq <= s.version
    && (forall k | k in s.saves :: Dated(s, s.saves[k]))
  }

  ghost predicate Dated(s: State, c: Save) {
    && (c.stage.Saved? ==> c.stage.at <= s.version)
    && (c.stage.Ready? ==> c.stage.at <= c.stage.seqno <= s.version < |s.hist| && s.hist[c.stage.seqno] == c.stage.rows)
  }

  lemma VersionsKept(s: State, ev: Event)
    requires Versions(s)
    ensures Versions(Apply(s, ev))
    ensures s.builtinSeq <= Apply(s, ev).builtinSeq && s.hist <= Apply(s, ev).hist
    ensures ev.EvSaveConfig? ==>
      Apply(s, ev).version == s.version && Rows(Apply(s, ev).defs, Apply(s, ev).cfg) == Rows(s.defs, s.cfg)
  {
    hide Apply, Rows, Dated;
    var t := Apply(s, ev);
    VersionRows(s, ev);
    forall k | k in t.saves
      ensures Dated(t, t.saves[k])
    {
      if k in s.saves && t.saves[k] == s.saves[k] { StillDated(s, t, s.saves[k]); } else { NewlyDated(s, ev, k); }
    }
  }

  lemma StillDated(s: State, t: State, c: Save)
    requires Dated(s, c) && s.version < |s.hist| && s.hist <= t.hist && |t.hist| == t.version + 1
    ensures Dated(t, c)
  {
  }

  lemma NewlyDated(s: State, ev: Event, k: nat)
    requires Versions(s) && k in Apply(s, ev).saves
    requires !(k in s.saves && Apply(s, ev).saves[k] == s.saves[k])
    ensures Dated(Apply(s, ev), Apply(s, ev).saves[k])
  {
    hide Rows, WithFlag, Flipped, PutBack, Known;
    if k in s.saves { assert Dated(s, s.saves[k]); }
  }

  lemma VersionRows(s: State, ev: Event)
    requires Versions(s)
    ensures var t := Apply(s, ev);
      |t.hist| == t.version + 1 && t.hist[t.version] == Rows(t.defs, t.cfg) &&
        s.builtinSeq <= t.builtinSeq <= t.version && s.hist <= t.hist
    ensures ev.EvSaveConfig? ==>
      Apply(s, ev).version == s.version && Rows(Apply(s, ev).defs, Apply(s, ev).cfg) == Rows(s.defs, s.cfg)
  {
    hide Rows;
    if ev.EvDeliver? && ev.k in s.saves { assert Dated(s, s.saves[ev.k]); }
  }

  /** Over any run: builtinSeq never decreases, and a version, once made, keeps its rows. */
  lemma {:induction false} SeqNeverDecreases(s: State, evs: seq<Event>)
    requires Versions(s)
    ensures var t := Run(s, evs); Versions(t) && s.builtinSeq <= t.builtinSeq && s.hist <= t.hist
    decreases |evs|
  {
    if evs != [] {
      VersionsKept(s, evs[0]);
      SeqNeverDecreases(Apply(s, evs[0]), evs[1..]);
    }
  }

  ghost predicate Current(s: State) {
    s.builtinSeq == s.version && s.snapshot == Rows(s.defs, s.cfg)
  }

  predicate Flag(s: State, id: string) {
    id !in s.cfg.disabled
  }

  ghost predicate Toggles(s: State, k: nat, id: string) {
    k in s.saves && s.saves[k].kind.Toggle? && s.saves[k].kind.id == id
  }

  /** A toggle of id under way that the rows of version v do not show yet. */
  ghost predicate Unseen(s: State, k: nat, id: string, v: nat) {
    Toggles(s, k, id) && match s.saves[k].stage
                         case Saved(at) => at > v
                         case Ready(_, _, at) => at > v
                         case _ => false
  }

  /** A toggle of id under way that what the screen shows may not have settled. */
  ghost predicate Unsettled(s: State, k: nat, id: string) {
    Toggles(s, k, id) && (s.saves[k].stage.Requested? || s.saves[k].stage.Failed? || Unseen(s, k, id, s.builtinSeq))
  }

  // ----- which rows are shown -----

  function Shape(rows: seq<Row>): seq<Definition> {
    seq(|rows|, i requires 0 <= i < |rows| => Definition(rows[i].id, rows[i].name))
  }

  /** A message of the latest version is under way. */
  ghost predicate Newer(s: State, k: nat) {
    k in s.saves && (s.saves[k].stage.Saved? || (s.saves[k].stage.Ready? && s.saves[k].stage.seqno == s.version))
  }

  ghost predicate Shaped(s: State) {
    && s.builtinSeq < |s.hist| && Shape(s.snapshot) == Shape(s.hist[s.builtinSeq])
    && (s.builtinSeq == s.version || exists k :: Newer(s, k))
  }

  lemma ShapedKept(s: State, ev: Event)
    requires Versions(s) && Shaped(s)
    ensures Shaped(Apply(s, ev))
  {
    hide Rows, Dated;
    var t := Apply(s, ev);
    VersionsKept(s, ev);
    match ev
    case EvSave(k, _) => NewerKept(s, t, k);
    case EvRead(k) => NewerKept(s, t, k);
    case EvToggle(_, k) => NewerKept(s, t, k);
    case EvSources(_, k) => NewerKept(s, t, k);
    case EvSaveConfig(_, _, _, _) => NewerKept(s, t, 0);
    case EvDeliver(k) => DeliverShaped(s, k);
  }

  lemma DeliverShaped(s: State, k: nat)
    requires Versions(s) && Shaped(s)
    ensures Shaped(Deliver(s, k))
  {
    hide Rows;
    var t := Deliver(s, k);
    if k in s.saves { assert Dated(s, s.saves[k]); }
    if t.builtinSeq != t.version {
      var j :| Newer(s, j);
      assert Newer(t, j);
    }
  }

  lemma NewerKept(s: State, t: State, k: nat)
    requires Shaped(s) && s.hist <= t.hist && t.builtinSeq == s.builtinSeq && Shape(t.snapshot) == Shape(s.snapshot)
    requires forall j | j != k && j in s.saves :: j in t.saves && t.saves[j] == s.saves[j]
    requires if t.version == s.version then Newer(s, k) ==> Newer(t, k) else Newer(t, k)
    ensures Shaped(t)
  {
    if t.version == s.version && s.builtinSeq != s.version {
      var j :| Newer(s, j);
      assert Newer(t, j);
    }
  }

  // ----- what each row shows -----

  /** The message refreshes the screen. */
  predicate Refreshes(s: State, ev: Event) {
    ev.EvDeliver? && ev.k in s.saves && s.saves[ev.k].stage.Ready? && s.saves[ev.k].stage.seqno >= s.builtinSeq
  }

  /** The message says that a toggle of id failed. */
  predicate ReportsFailure(s: State, ev: Event, id: string) {
    ev.EvDeliver? && ev.k in s.saves && s.saves[ev.k].stage.Failed? && s.saves[ev.k].kind.Toggle? &&
      s.saves[ev.k].kind.id == id
  }

  /**
   What the last failure of id that came after the last refresh put back: the flag id showed
   when that toggle was made. last is what it was before the run.
   */
  function PutBackLast(s: State, evs: seq<Event>, id: string, last: Option<bool>): Option<bool>
    decreases |evs|
  {
    if evs == [] then last else PutBackLast(Apply(s, evs[0]), evs[1..], id, PutBackBy(s, evs[0], id, last))
  }

  function PutBackBy(s: State, ev: Event, id: string, last: Option<bool>): Option<bool> {
    if Refreshes(s, ev) then None
    else if ReportsFailure(s, ev, id) then Some(!s.saves[ev.k].kind.enabled)
    else last
  }

  /** Row i shows what was put back last, or else what the last refresh showed, but for toggles under way. */
  ghost predicate Shows(s: State, i: nat, last: Option<bool>)
    requires i < |s.snapshot| && s.builtinSeq < |s.hist|
  {
    i < |s.hist[s.builtinSeq]| &&
    var r := s.snapshot[i];
    r.enabled == (if last.Some? then last.value else s.hist[s.builtinSeq][i].enabled) ||
      exists k :: Unsettled(s, k, r.id)
  }

  ghost predicate ShowsOf(s: State, id: string, last: Option<bool>) {
    s.builtinSeq < |s.hist| && forall i | 0 <= i < |s.snapshot| && s.snapshot[i].id == id :: Shows(s, i, last)
  }

  lemma ShowsKept(s: State, ev: Event, id: string, last: Option<bool>)
    requires Versions(s) && Shaped(s) && ShowsOf(s, id, last)
    ensures ShowsOf(Apply(s, ev), id, PutBackBy(s, ev, id, last))
  {
    hide Versions, Shaped, Shows, PutBackBy, Apply;
    var t := Apply(s, ev);
    VersionsKept(s, ev);
    ShapedKept(s, ev);
    SeqInHist(t);
    forall i | 0 <= i < |t.snapshot| && t.snapshot[i].id == id
      ensures Shows(t, i, PutBackBy(s, ev, id, last))
    {
      if Refreshes(s, ev) {
        RefreshedShows(s, ev, i, last);
      } else {
        QuietIds(s, ev, i);
        QuietShows(s, ev, i, last);
      }
    }
  }

  lemma SeqInHist(s: State)
    requires Versions(s)
    ensures s.builtinSeq < |s.hist|
  {
  }

  /** A refresh shows its own version's rows. */
  lemma RefreshedShows(s: State, ev: Event, i: nat, last: Option<bool>)
    requires Versions(s) && Refreshes(s, ev) && i < |Apply(s, ev).snapshot| &&
      Apply(s, ev).builtinSeq < |Apply(s, ev).hist|
    ensures Shows(Apply(s, ev), i, PutBackBy(s, ev, Apply(s, ev).snapshot[i].id, last))
  {
    assert Dated(s, s.saves[ev.k]);
  }

  /** Nothing else changes which rows are shown, nor the version shown. */
  lemma QuietIds(s: State, ev: Event, i: nat)
    requires Versions(s) && !Refreshes(s, ev) && i < |Apply(s, ev).snapshot|
    ensures var t := Apply(s, ev);
      && i < |s.snapshot| && t.snapshot[i].id == s.snapshot[i].id
      && t.builtinSeq == s.builtinSeq && t.builtinSeq < |t.hist| && t.hist[t.builtinSeq] == s.hist[s.builtinSeq]
  {
  }

  lemma QuietShows(s: State, ev: Event, i: nat, last: Option<bool>)
    requires Versions(s) && !Refreshes(s, ev) && i < |s.snapshot| && i < |Apply(s, ev).snapshot|
    requires Apply(s, ev).builtinSeq == s.builtinSeq < |Apply(s, ev).hist| && s.builtinSeq < |s.hist|
    requires Apply(s, ev).hist[s.builtinSeq] == s.hist[s.builtinSeq] && Apply(s, ev).snapshot[i].id == s.snapshot[i].id
    requires Shows(s, i, last)
    ensures Shows(Apply(s, ev), i, PutBackBy(s, ev, s.snapshot[i].id, last))
  {
    var t, id := Apply(s, ev), s.snapshot[i].id;
    if ev.EvToggle? && t != s && s.snapshot[ev.i].id == id {
      assert Unsettled(t, ev.k, id);
    } else if n :| Unsettled(s, n, id) {
      assert Dated(s, s.saves[n]);
      if n in t.saves { UnsettledStays(s, ev, n, id); }
    }
  }

  /** A toggle not settled stays so until it is delivered, but for a refresh. */
  lemma UnsettledStays(s: State, ev: Event, n: nat, id: string)
    requires Unsettled(s, n, id) && !Refreshes(s, ev) && n in Apply(s, ev).saves
    requires s.builtinSeq <= s.version
    ensures Unsettled(Apply(s, ev), n, id)
  {
  }

  lemma {:induction false} ShowsOverRuns(s: State, evs: seq<Event>, id: string, last: Option<bool>)
    requires Versions(s) && Shaped(s) && ShowsOf(s, id, last)
    ensures var t := Run(s, evs); Versions(t) && Shaped(t) && ShowsOf(t, id, PutBackLast(s, evs, id, last))
    decreases |evs|
  {
    if evs != [] {
      VersionsKept(s, evs[0]);
      ShapedKept(s, evs[0]);
      ShowsKept(s, evs[0], id, last);
      ShowsOverRuns(Apply(s, evs[0]), evs[1..], id, PutBackBy(s, evs[0], id, last));
    }
  }

  /**
   Once all messages are delivered the screen lists the manager's rows, and a row shows the
   manager's flag if and only if no failure of its toggles came after the last refresh, or
   the toggle whose failure came last was made while the row showed that flag.
   */
  lemma ShownExactly(s: State, evs: seq<Event>, i: nat, last: Option<bool>)
    requires Versions(s) && Shaped(s) && Run(s, evs).saves == map[] && i < |Run(s, evs).snapshot|
    requires ShowsOf(s, Run(s, evs).snapshot[i].id, last)
    ensures var t := Run(s, evs);
      var row, put := t.snapshot[i], PutBackLast(s, evs, t.snapshot[i].id, last);
      && t.builtinSeq == t.version && Shape(t.snapshot) == Shape(Rows(t.defs, t.cfg)) && i < |Rows(t.defs, t.cfg)|
      && row.enabled == (if put.Some? then put.value else Flag(t, row.id))
      && (row == Rows(t.defs, t.cfg)[i] <==> put.None? || put.value == Flag(t, row.id))
  {
    var t := Run(s, evs);
    var id := t.snapshot[i].id;
    ShowsOverRuns(s, evs, id, last);
    var rows := Rows(t.defs, t.cfg);
    RowsFlags(t.defs, t.cfg);
    assert |t.snapshot| == |Shape(t.snapshot)| == |Shape(rows)| == |rows|;
    assert Shows(t, i, PutBackLast(s, evs, id, last)) && rows[i] in rows;
    assert Shape(t.snapshot)[i] == Shape(rows)[i];
  }

  lemma RowsFlags(defs: seq<Definition>, cfg: Config)
    ensures forall r | r in Rows(defs, cfg) :: r.enabled <==> r.id !in cfg.disabled
  {
  }

  // ----- a row whose toggles are all written -----

  /** The save of a toggle of id that is about to fail. */
  predicate Fails(s: State, ev: Event, id: string) {
    ev.EvSave? && ev.k in s.saves && s.saves[ev.k].stage == Requested && s.saves[ev.k].kind.Toggle? &&
      s.saves[ev.k].kind.id == id
    && (!ev.ok || !Known(s.defs, id))
  }

  predicate NoneFails(s: State, evs: seq<Event>, id: string)
    decreases |evs|
  {
    evs != [] ==> !Fails(s, evs[0], id) && NoneFails(Apply(s, evs[0]), evs[1..], id)
  }

  ghost predicate NoneFailed(s: State, id: string) {
    forall k | Toggles(s, k, id) :: s.saves[k].stage != Failed
  }

  lemma {:induction false} NothingPutBack(s: State, evs: seq<Event>, id: string)
    requires NoneFailed(s, id) && NoneFails(s, evs, id)
    ensures PutBackLast(s, evs, id, None).None?
    decreases |evs|
  {
    if evs != [] {
      var t := Apply(s, evs[0]);
      forall k | Toggles(t, k, id)
        ensures t.saves[k].stage != Failed
      {
        if k in s.saves { assert Toggles(s, k, id); }
      }
      assert evs[0].EvDeliver? && evs[0].k in s.saves && !Toggles(s, evs[0].k, id) ==> !ReportsFailure(s, evs[0], id);
      NothingPutBack(t, evs[1..], id);
    }
  }

  /** A row none of whose toggles fails ends up showing the manager's flag, in whatever order the messages came. */
  lemma ConvergesWhenSaved(s: State, evs: seq<Event>, i: nat)
    requires Versions(s) && Shaped(s) && Run(s, evs).saves == map[] && i < |Run(s, evs).snapshot|
    requires var id := Run(s, evs).snapshot[i].id; ShowsOf(s, id, None) && NoneFailed(s, id) && NoneFails(s, evs, id)
    ensures var t := Run(s, evs); i < |Rows(t.defs, t.cfg)| && t.snapshot[i] == Rows(t.defs, t.cfg)[i]
  {
    NothingPutBack(s, evs, Run(s, evs).snapshot[i].id);
    ShownExactly(s, evs, i, None);
  }

  // ----- a row toggled once at a time -----

  ghost predicate RowSeen(s: State, r: Row, v: nat) {
    r.enabled == Flag(s, r.id) || exists k :: Unseen(s, k, r.id, v)
  }

  ghost predicate RowShown(s: State, r: Row) {
    r.enabled == Flag(s, r.id) || exists k :: Unsettled(s, k, r.id)
  }

  /** A toggle not written has left the manager's flag as it was when it was pressed; one written has set it. */
  ghost predicate Meant(s: State, k: nat, id: string)
    requires Toggles(s, k, id)
  {
    var c := s.saves[k];
    Flag(s, id) == (if c.stage.Requested? || c.stage.Failed? then !c.kind.enabled else c.kind.enabled)
  }

  ghost predicate OneToggle(s: State, id: string) {
    forall j, k | Toggles(s, j, id) && Toggles(s, k, id) :: j == k
  }

  ghost predicate FlagsOf(s: State, id: string) {
    && (forall r | r in s.snapshot && r.id == id :: RowShown(s, r))
    && (forall v: nat, r: Row | s.builtinSeq <= v <= s.version < |s.hist| && r in s.hist[v] && r.id == id ::
         RowSeen(s, r, v))
    && OneToggle(s, id)
    && (forall k | Toggles(s, k, id) :: Meant(s, k, id))
  }

  /** The toggle of a row that is already being toggled. */
  ghost predicate Again(s: State, ev: Event, id: string) {
    ev.EvToggle? && ev.i < |s.snapshot| && s.snapshot[ev.i].id == id && exists k :: Toggles(s, k, id)
  }

  ghost predicate NoneAgain(s: State, evs: seq<Event>, id: string)
    decreases |evs|
  {
    evs != [] ==> !Again(s, evs[0], id) && NoneAgain(Apply(s, evs[0]), evs[1..], id)
  }

  lemma ToggleFlags(s: State, i: nat, k: nat, id: string)
    requires FlagsOf(s, id) && !Again(s, EvToggle(i, k), id) && i < |s.snapshot| && k !in s.saves &&
      s.snapshot[i].id == id
    ensures FlagsOf(ToggleRow(s, i, k), id)
  {
    var t := ToggleRow(s, i, k);
    var b := s.snapshot[i];
    assert b in s.snapshot && RowShown(s, b);
    assert b.enabled == Flag(s, id);
    assert Unsettled(t, k, id);
    forall v: nat, r: Row | t.builtinSeq <= v <= t.version < |t.hist| && r in t.hist[v] && r.id == id
      ensures RowSeen(t, r, v)
    {
      assert RowSeen(s, r, v);
    }
    forall j | Toggles(t, j, id)
      ensures j == k
    {
      assert j == k || Toggles(s, j, id);
    }
  }

  /** A step that leaves the flag of id, its rows and its toggles under way alone. */
  lemma SameFlags(s: State, t: State, id: string)
    requires Versions(s) && FlagsOf(s, id)
    requires forall r | r in t.snapshot && r.id == id :: r in s.snapshot
    requires t.builtinSeq == s.builtinSeq && Flag(t, id) == Flag(s, id)
    requires s.hist <= t.hist && |t.hist| == t.version + 1 && s.version <= t.version <= s.version + 1
    requires t.version > s.version ==> forall r | r in t.hist[t.version] :: r.enabled == Flag(t, r.id)
    requires forall k | Toggles(t, k, id) :: k in s.saves && SameToggle(s.saves[k], t.saves[k])
    requires forall k | Toggles(s, k, id) :: Toggles(t, k, id)
    ensures FlagsOf(t, id)
  {
    forall r | r in t.snapshot && r.id == id
      ensures RowShown(t, r)
    {
      assert RowShown(s, r);
      if n :| Unsettled(s, n, r.id) { assert Toggles(t, n, id) && Unsettled(t, n, r.id); }
    }
    forall v: nat, r: Row | t.builtinSeq <= v <= t.version < |t.hist| && r in t.hist[v] && r.id == id
      ensures RowSeen(t, r, v)
    {
      if v <= s.version {
        assert RowSeen(s, r, v);
        if n :| Unseen(s, n, r.id, v) { assert Toggles(t, n, id) && Unseen(t, n, r.id, v); }
      }
    }
    forall k | Toggles(t, k, id)
      ensures Toggles(s, k, id) && Meant(t, k, id)
    {
      assert Toggles(s, k, id) && Meant(s, k, id);
    }
  }

  /** The same toggle, as far on: not written, or written in the same version. */
  ghost predicate SameToggle(c: Save, d: Save) {
    && d.kind == c.kind
    && match c.stage
       case Requested => d.stage == Requested || d.stage == Failed
       case Failed => d.stage == Failed
       case Saved(at) => (d.stage.Saved? || d.stage.Ready?) && d.stage.at == at
       case Ready(_, _, at) => (d.stage.Saved? || d.stage.Ready?) && d.stage.at == at
  }

  lemma WrittenFlags(s: State, k: nat, id: string, enabled: bool)
    requires Versions(s) && FlagsOf(s, id) && k in s.saves && s.saves[k] == Save(Toggle(id, enabled), Requested)
    ensures FlagsOf(Written(s, k, WithFlag(s.cfg, id, enabled)), id)
  {
    var t := Written(s, k, WithFlag(s.cfg, id, enabled));
    RowsFlags(t.defs, t.cfg);
    FlagSet(s.cfg, id, enabled, id);
    assert Toggles(s, k, id) && Unsettled(t, k, id);
    forall v: nat, r: Row | t.builtinSeq <= v <= t.version < |t.hist| && r in t.hist[v] && r.id == id
      ensures RowSeen(t, r, v)
    {
      if v <= s.version { assert Unseen(t, k, r.id, v); }
    }
    forall j | Toggles(t, j, id)
      ensures j == k
    {
      assert Toggles(s, j, id);
    }
  }

  lemma DeliverFlags(s: State, k: nat, id: string)
    requires Versions(s) && FlagsOf(s, id)
    ensures FlagsOf(Deliver(s, k), id)
  {
    var t := Deliver(s, k);
    if t != s {
      assert Dated(s, s.saves[k]);
      forall v: nat, r: Row | t.builtinSeq <= v <= t.version < |t.hist| && r in t.hist[v] && r.id == id
        ensures RowSeen(t, r, v)
      {
        assert RowSeen(s, r, v);
        if n :| Unseen(s, n, r.id, v) { if n != k { assert Unseen(t, n, r.id, v); } }
      }
      forall r | r in t.snapshot && r.id == id
        ensures RowShown(t, r)
      {
        DeliveredRow(s, k, r);
      }
      forall j | Toggles(t, j, id)
        ensures Toggles(s, j, id) && Meant(t, j, id)
      {
        assert Toggles(s, j, id) && Meant(s, j, id);
      }
    }
  }

  lemma DeliveredRow(s: State, k: nat, r: Row)
    requires Versions(s) && FlagsOf(s, r.id) && k in s.saves && Deliver(s, k) != s && r in Deliver(s, k).snapshot
    ensures RowShown(Deliver(s, k), r)
  {
    var t := Deliver(s, k);
    var c := s.saves[k];
    assert Dated(s, c);
    assert Toggles(s, k, r.id) ==> Meant(s, k, r.id);
    if c.stage.Ready? && c.stage.seqno >= s.builtinSeq {
      assert RowSeen(s, r, c.stage.seqno);
      if n :| Unseen(s, n, r.id, c.stage.seqno) { assert Unsettled(t, n, r.id); }
    } else {
      var j :| 0 <= j < |t.snapshot| && t.snapshot[j] == r;
      var was := s.snapshot[j];
      assert was in s.snapshot && RowShown(s, was) && was.id == r.id;
      if n :| Unsettled(s, n, r.id) { if n != k { assert Unsettled(t, n, r.id); } }
    }
  }

  lemma SaveFlags(s: State, k: nat, ok: bool, id: string)
    requires Versions(s) && FlagsOf(s, id)
    ensures FlagsOf(RunSave(s, k, ok), id)
  {
    if k in s.saves && s.saves[k].stage == Requested {
      var t := RunSave(s, k, ok);
      match s.saves[k].kind
      case Toggle(x, enabled) =>
        if ok && Known(s.defs, x) {
          if x == id {
            WrittenFlags(s, k, id, enabled);
          } else {
            FlagSet(s.cfg, x, enabled, id);
            RowsFlags(t.defs, t.cfg);
            SameFlags(s, t, id);
          }
        } else {
          SameFlags(s, t, id);
        }
      case Sources(entries) =>
        RowsFlags(s.defs, s.cfg.(entries := entries));
        SameFlags(s, t, id);
    }
  }

  lemma FlagsKept(s: State, ev: Event, id: string)
    requires Versions(s) && FlagsOf(s, id) && !Again(s, ev, id)
    ensures FlagsOf(Apply(s, ev), id)
  {
    match ev
    case EvToggle(i, k) =>
      if i < |s.snapshot| && k !in s.saves {
        if s.snapshot[i].id == id { ToggleFlags(s, i, k, id); } else { SameFlags(s, Apply(s, ev), id); }
      }
    case EvDeliver(k) => DeliverFlags(s, k, id);
    case EvSave(k, ok) => SaveFlags(s, k, ok, id);
    case EvSources(_, _) => SameFlags(s, Apply(s, ev), id);
    case EvRead(_) => SameFlags(s, Apply(s, ev), id);
    case EvSaveConfig(_, _, _, _) => SameFlags(s, Apply(s, ev), id);
  }

  lemma {:induction false} FlagsOverRuns(s: State, evs: seq<Event>, id: string)
    requires Versions(s) && FlagsOf(s, id) && NoneAgain(s, evs, id)
    ensures FlagsOf(Run(s, evs), id)
    decreases |evs|
  {
    if evs != [] {
      VersionsKept(s, evs[0]);
      FlagsKept(s, evs[0], id);
      FlagsOverRuns(Apply(s, evs[0]), evs[1..], id);
    }
  }

  /**
   Saves may also fail: a row that is never toggled again while a toggle of it is under way
   still ends up showing the manager's flag, so what its last failure put back was that flag.
   */
  lemma ConvergesOneAtATime(s: State, evs: seq<Event>, i: nat, last: Option<bool>)
    requires Versions(s) && Shaped(s) && Run(s, evs).saves == map[] && i < |Run(s, evs).snapshot|
    requires var id := Run(s, evs).snapshot[i].id; ShowsOf(s, id, last) && FlagsOf(s, id) && NoneAgain(s, evs, id)
    ensures var t := Run(s, evs); i < |Rows(t.defs, t.cfg)| && t.snapshot[i] == Rows(t.defs, t.cfg)[i]
    ensures var t := Run(s, evs);
      var put := PutBackLast(s, evs, t.snapshot[i].id, last); put.None? || put.value == Flag(t, t.snapshot[i].id)
  {
    var t := Run(s, evs);
    FlagsOverRuns(s, evs, t.snapshot[i].id);
    ShownExactly(s, evs, i, last);
    assert t.snapshot[i] in t.snapshot && RowShown(t, t.snapshot[i]);
  }

  /** The screen ends up right when each row either has no failing toggle or none that overlaps another of it. */
  lemma ScreenConverges(s: State, evs: seq<Event>)
    requires Versions(s) && Shaped(s) && Run(s, evs).saves == map[]
    requires forall id :: ShowsOf(s, id, None) && NoneFailed(s, id) && FlagsOf(s, id)
    requires forall id :: NoneFails(s, evs, id) || NoneAgain(s, evs, id)
    ensures Current(Run(s, evs))
  {
    var t := Run(s, evs);
    ShowsOverRuns(s, evs, "", None);
    var rows := Rows(t.defs, t.cfg);
    assert |t.snapshot| == |Shape(t.snapshot)| == |Shape(rows)| == |rows|;
    forall i | 0 <= i < |rows|
      ensures t.snapshot[i] == rows[i]
    {
      if NoneFails(s, evs, t.snapshot[i].id) {
        ConvergesWhenSaved(s, evs, i);
      } else {
        ConvergesOneAtATime(s, evs, i, None);
      }
    }
  }

  /** At startup every row meets the premises of these theorems. */
  lemma StartsConverged(defs: seq<Definition>, cfg: Config, prefs: string, id: string)
    ensures var s := Init(defs, cfg, prefs);
      Versions(s) && Shaped(s) && ShowsOf(s, id, None) && NoneFailed(s, id) && FlagsOf(s, id)
  {
    RowsFlags(defs, cfg);
  }

  const ROW: Definition := Definition("a", "A")

  /**
   Two failed toggles of one row, delivered in order, leave the row showing off while the
   manager has it on: the first puts back what it was, the second what the first had shown.
   */
  lemma TwoFailuresDiverge()
    ensures var s := Run(Init([ROW], Config([], []), ""),
                         [EvToggle(0, 0), EvToggle(0, 1), EvSave(0, false), EvSave(1, false),
                          EvDeliver(0), EvDeliver(1)]);
      s.saves == map[] && s.snapshot == [Row("a", "A", false)] && Rows(s.defs, s.cfg) == [Row("a", "A", true)]
  {
    var c := Config([], []);
    var s0 := Init([ROW], c, "");
    assert [ROW][..0] == [] && Rows([], c) == [];
    assert Rows([ROW], c) == [Row("a", "A", true)];
    assert s0.snapshot == [Row("a", "A", true)];
    var s1 := Apply(s0, EvToggle(0, 0));
    assert s1.snapshot == [Row("a", "A", false)];
    var s2 := Apply(s1, EvToggle(0, 1));
    assert s2.snapshot == [Row("a", "A", true)];
    var s4 := Apply(Apply(s2, EvSave(0, false)), EvSave(1, false));
    assert s4.saves == map[0 := Save(Toggle("a", false), Failed), 1 := Save(Toggle("a", true), Failed)];
    var s5 := Apply(s4, EvDeliver(0));
    assert s5.snapshot == [Row("a", "A", true)];
    var s6 := Apply(s5, EvDeliver(1));
    assert s6.snapshot == [Row("a", "A", false)];
    var last := [EvSave(1, false), EvDeliver(0), EvDeliver(1)];
    RunThree(s0, EvToggle(0, 0), EvToggle(0, 1), EvSave(0, false), last);
    RunThree(Apply(s2, EvSave(0, false)), EvSave(1, false), EvDeliver(0), EvDeliver(1), []);
    assert last + [] == last;
    assert [EvToggle(0, 0), EvToggle(0, 1), EvSave(0, false)] + last ==
           [EvToggle(0, 0), EvToggle(0, 1), EvSave(0, false), EvSave(1, false), EvDeliver(0), EvDeliver(1)];
  }

  lemma RunThree(s: State, a: Event, b: Event, c: Event, rest: seq<Event>)
    ensures Run(s, [a, b, c] + rest) == Run(Apply(Apply(Apply(s, a), b), c), rest)
  {
    assert ([a, b, c] + rest)[1..] == [b, c] + rest && ([b, c] + rest)[1..] == [c] + rest && ([c] + rest)[1..] == rest;
    assert Run(s, [a, b, c] + rest) == Run(Apply(s, a), [b, c] + rest);
    assert Run(Apply(s, a), [b, c] + rest) == Run(Apply(Apply(s, a), b), [c] + rest);
  }
}

/** The settings manager, and the loops of the settings screen's handlers. */
module Settings {
  import opened Wrappers
  import opened SyncState
  import opened SyncProofs
  import opened BuiltinState
  import Sync

  class SettingsManager {
    const live: Sync.LiveSources
    const defs: seq<Definition>
    var cfg: Config
    var prefs: string
    var version: nat

    constructor (live: Sync.LiveSources, defs: seq<Definition>, cfg: Config, prefs: string)
      ensures this.live == live && this.defs == defs && this.cfg == cfg && this.prefs == prefs && version == 0
    {
      this.live, this.defs, this.cfg, this.prefs, version := live, defs, cfg, prefs, 0;
    }

    method BuiltinSources() returns (rows: seq<Row>, v: nat)
      ensures rows == Rows(defs, cfg) && v == version
    {
      rows := [];
      var i := 0;
      while i < |defs|
        invariant i <= |defs|
        invariant rows == Rows(defs[..i], cfg)
      {
        assert defs[..i + 1][..i] == defs[..i];
        if !Configured(cfg, defs[i].id) {
          rows := rows + [Row(defs[i].id, defs[i].name, defs[i].id !in cfg.disabled)];
        }
        i := i + 1;
      }
      assert defs[..i] == defs;
      v := version;
    }

    /** DeleteFunc. */
    static method Delete(s: seq<string>, x: string) returns (r: seq<string>)
      ensures r == Without(s, x)
    {
      r := [];
      var i := 0;
      while i < |s|
        invariant i <= |s|
        invariant r == Without(s[..i], x)
      {
        assert s[..i + 1][..i] == s[..i];
        if s[i] != x {
          r := r + [s[i]];
        }
        i := i + 1;
      }
      assert s[..i] == s;
    }

    /** Written first, then kept, counted and synced; a refused write changes nothing. */
    method Commit(next: Config, written: bool, w: World) returns (ghost failed: nat, ghost ids: seq<string>)
      requires live.reg.Valid()
      modifies this`cfg, this`version, live, live.reg
      ensures live.reg.Valid()
      ensures written ==> cfg == next && version == old(version) + 1 && Names(old(live.View()), ids)
      ensures written ==> (live.View(), failed) == SyncState.Sync(old(live.View()), next, w, false, ids)
      ensures !written ==> cfg == old(cfg) && version == old(version) && live.View() == old(live.View())
    {
      failed, ids := 0, [];
      if written {
        cfg, version := next, version + 1;
        failed, ids := live.Sync(next, w, false);
      }
    }

    method SaveSources(entries: seq<Entry>, written: bool, w: World) returns (ok: bool)
      requires live.reg.Valid()
      modifies this`cfg, this`version, live, live.reg
      ensures live.reg.Valid() && ok == written
      ensures ok ==> cfg == old(cfg).(entries := entries) && version == old(version) + 1
      ensures ok && old(Agrees(live.View())) && Honest(Desired(cfg, w), w) ==> Agrees(live.View())
      ensures !ok ==> cfg == old(cfg) && version == old(version) && live.View() == old(live.View())
    {
      ghost var l := live.View();
      ghost var failed, ids := Commit(cfg.(entries := entries), written, w);
      if written && Agrees(l) && Honest(Desired(cfg, w), w) {
        SyncReconciles(l, cfg, w, false, ids);
      }
      ok := written;
    }

    method SetBuiltinEnabled(id: string, enabled: bool, written: bool, w: World) returns (ok: bool)
      requires live.reg.Valid()
      modifies this`cfg, this`version, live, live.reg
      ensures live.reg.Valid() && (ok <==> written && Known(defs, id))
      ensures ok ==> cfg == WithFlag(old(cfg), id, enabled) && version == old(version) + 1
      ensures ok && old(Agrees(live.View())) && Honest(Desired(cfg, w), w) ==> Agrees(live.View())
      ensures !ok ==> cfg == old(cfg) && version == old(version) && live.View() == old(live.View())
    {
      ok := written && Known(defs, id);
      if !Known(defs, id) {
        return;
      }
      var disabled := Delete(cfg.disabled, id);
      if !enabled {
        disabled := disabled + [id];
      } else {
        assert disabled + [] == disabled;
      }
      ghost var l := live.View();
      ghost var failed, ids := Commit(cfg.(disabled := disabled), written, w);
      if written && Agrees(l) && Honest(Desired(cfg, w), w) {
        SyncReconciles(l, cfg, w, false, ids);
      }
    }

    /** The sources are the manager's own, whatever the caller's copy holds. */
    method SaveConfig(prefs: string, theirs: Config, written: bool)
      modifies this`prefs
      ensures this.prefs == if written then prefs else old(this.prefs)
    {
      if written {
        this.prefs := prefs;
      }
    }
  }

  /** toggleBuiltin's loop. */
  method Flip(rows: seq<Row>, id: string) returns (next: seq<Row>)
    ensures next == Flipped(rows, id)
  {
    next := rows;
    var i := 0;
    while i < |next|
      invariant i <= |next| == |rows|
      invariant forall j | 0 <= j < |rows| :: next[j] == if j < i then Flipped(rows, id)[j] else rows[j]
    {
      if next[i].id == id {
        next := next[i := next[i].(enabled := !next[i].enabled)];
      }
      i := i + 1;
    }
  }

  /** handleBuiltinToggleResult's loop for a failed save. */
  method Restore(rows: seq<Row>, id: string, enabled: bool) returns (next: seq<Row>)
    ensures next == PutBack(rows, id, enabled)
  {
    next := rows;
    var i := 0;
    while i < |next|
      invariant i <= |next| == |rows|
      invariant forall j | 0 <= j < |rows| :: next[j] == if j < i then PutBack(rows, id, enabled)[j] else rows[j]
    {
      if next[i].id == id {
        next := next[i := next[i].(enabled := enabled)];
      }
      i := i + 1;
    }
  }

  /**
   applyBuiltins' cursor, over the ids of the configured rows and then the built-in ones:
   on the row it was on if that is still there, else where it was or on the last row.
   */
  method KeepCursor(ids: seq<string>, selected: Option<string>, cursor: nat) returns (kept: nat)
    ensures selected.Some? && selected.value in ids ==>
      kept < |ids| && ids[kept] == selected.value && selected.value !in ids[..kept]
    ensures selected.None? || selected.value !in ids ==>
      kept == if cursor < |ids| then cursor else if ids == [] then 0 else |ids| - 1
  {
    if selected.Some? {
      var i := 0;
      while i < |ids|
        invariant i <= |ids| && selected.value !in ids[..i]
      {
        if ids[i] == selected.value {
          return i;
        }
        i := i + 1;
      }
      assert ids[..i] == ids;
    }
    kept := if cursor < |ids| then cursor else if ids == [] then 0 else |ids| - 1;
  }
}
