/**
 One function per critical section of the engine and per unlocked action between two of
 them. A step that cannot happen in a state leaves it unchanged, so every sequence of
 events is a run and every interleaving is some sequence.
 */
module EngineSteps {
  import opened Wrappers
  import opened EngineState

  // ----- shared pieces -----

  function Lookup(s: State, id: Id): Option<Ref> {
    if id in s.torrents && s.torrents[id] < |s.entries| then Some(s.torrents[id]) else None
  }

  function Put(s: State, r: Ref, e: Tracked): State {
    if r < |s.entries| then s.(entries := s.entries[r := e]) else s
  }

  /** Allow or disallow data download and upload on a library torrent. */
  function Gate(s: State, t: Option<LibRef>, down: bool, up: bool): State {
    if t.Some? && t.value < |s.libs|
    then s.(libs := s.libs[t.value := s.libs[t.value].(down := down, up := up)])
    else s
  }

  /** The library learns a torrent's info dictionary; one it has is not replaced. */
  function Learn(s: State, l: LibRef, info: Option<string>): State {
    if l < |s.libs| && s.libs[l].info.None?
    then s.(libs := s.libs[l := s.libs[l].(info := info)])
    else s
  }

  /** Torrent.Drop: the library forgets the torrent. */
  function Drop(s: State, l: LibRef): State {
    if l < |s.libs| then
      var h := s.libs[l].hash;
      s.(libs := s.libs[l := s.libs[l].(dropped := true)],
         client := if h in s.client && s.client[h] == l then s.client - {h} else s.client)
    else s
  }

  function Enqueue(s: State, r: Ref): State {
    if r < |s.entries| then
      var e := s.entries[r];
      Put(s, r, e.(state := Queued)).(queue := if e.id in s.queue then s.queue else s.queue + [e.id])
    else s
  }

  function Untrack(s: State, id: Id): State {
    s.(torrents := s.torrents - {id}, queue := RemoveFirst(s.queue, id), order := RemoveFirst(s.order, id))
  }

  /** failLocked: the first error is the one kept. */
  function FailEntry(e: Tracked): Tracked {
    e.(state := Errored)
  }

  // ----- data names -----

  predicate UsesName(s: State, id: Id, self: Option<Ref>, savePath: string, name: string, dirs: map<string, DirMatch>)
  {
    id in s.torrents && s.torrents[id] < |s.entries| && Some(s.torrents[id]) != self &&
    var e := s.entries[s.torrents[id]];
    MayBeSameDir(savePath, e.savePath, dirs) && DataName(s, e).Some? && MayBeSameName(DataName(s, e).value, name)
  }

  predicate MayUseName(s: State, id: Id, self: Option<Ref>, savePath: string, dirs: map<string, DirMatch>)
  {
    id in s.torrents && s.torrents[id] < |s.entries| && Some(s.torrents[id]) != self &&
    var e := s.entries[s.torrents[id]];
    MayBeSameDir(savePath, e.savePath, dirs) && DataName(s, e).None?
  }

  predicate KeepsShared(s: State, id: Id, self: Option<Ref>, savePath: string, name: string,
      dirs: map<string, DirMatch>)
  {
    id in s.torrents && s.torrents[id] < |s.entries| && Some(s.torrents[id]) != self &&
    var e := s.entries[s.torrents[id]];
    e.refused && e.sharedName != "" && MayBeSameDir(savePath, e.savePath, dirs) && MayBeSameName(e.sharedName, name)
  }

  predicate NameTaken(s: State, self: Option<Ref>, savePath: string, name: string, dirs: map<string, DirMatch>) {
    exists id | id in s.torrents :: UsesName(s, id, self, savePath, name, dirs)
  }

  predicate NamePending(s: State, self: Option<Ref>, savePath: string, dirs: map<string, DirMatch>) {
    exists id | id in s.torrents :: MayUseName(s, id, self, savePath, dirs)
  }

  predicate SharedKept(s: State, self: Option<Ref>, savePath: string, name: string, dirs: map<string, DirMatch>) {
    exists id | id in s.torrents :: KeepsShared(s, id, self, savePath, name, dirs)
  }

  datatype Kept = Kept(leftName: string, sharedName: string)

  /** keepLeftLocked: whose the data found on disk at a refused entry's destination is. */
  function KeepLeft(s: State, self: Option<Ref>, savePath: string, left: string, dirs: map<string, DirMatch>): Kept {
    if left == "" then Kept("", "")
    else if NameTaken(s, self, savePath, left, dirs) || SharedKept(s, self, savePath, left, dirs) then Kept("", left)
    else Kept(left, "")
  }

  /** The pairs of directories a comparison of dest with others showed to differ. */
  function ShownBy(dest: string, dirs: map<string, DirMatch>): set<(string, string)> {
    set p | p in dirs && dirs[p] == DirDifferent :: (dest, p)
  }

  /** The last half of refuse: fail, mark refused, settle the data left behind. */
  function MarkRefused(s: State, r: Ref, left: string, dirs: map<string, DirMatch>): State
    requires r < |s.entries|
  {
    var e := s.entries[r];
    var kept := KeepLeft(s, Some(r), e.savePath, left, dirs);
    Put(s, r, FailEntry(e).(refused := true, leftName := kept.leftName, sharedName := kept.sharedName, phase := Ended))
      .(shown := s.shown + ShownBy(e.savePath, dirs))
  }

  // ----- ids -----

  ghost function NumberedAbove(torrents: map<Id, Ref>, n: nat): set<Id> {
    set id | id in torrents && id.Numbered? && id.n > n
  }

  /** The first number above n that names no tracked torrent. */
  function NextFree(torrents: map<Id, Ref>, n: nat): (m: nat)
    ensures m > n && Numbered(m) !in torrents
    ensures forall k | n < k < m :: Numbered(k) in torrents
    decreases NumberedAbove(torrents, n)
  {
    if Numbered(n + 1) !in torrents then n + 1
    else
      assert Numbered(n + 1) in NumberedAbove(torrents, n) && Numbered(n + 1) !in NumberedAbove(torrents, n + 1);
      NextFree(torrents, n + 1)
  }

  datatype Minted = Minted(id: Id, nextID: nat)

  /** mintIDLocked: the wanted id when it is free, else the next unused number. */
  function Mint(s: State, want: Option<Id>): (m: Minted)
    ensures m.id !in s.torrents
  {
    if want.Some? && want.value !in s.torrents then
      Minted(want.value, if want.value.Numbered? && want.value.n > s.nextID then want.value.n else s.nextID)
    else
      var n := NextFree(s.torrents, s.nextID);
      Minted(Numbered(n), n)
  }

  /** What an entry is minted with beyond its source. */
  datatype Provenance = Provenance(want: Option<Id>, paused: bool, seedDone: bool)

  function NewTracked(prov: Provenance, id: Id, dest: string): Tracked {
    Tracked(id, dest, "", false, Checking, Checking, prov.paused || prov.seedDone, prov.paused, prov.seedDone,
            false, false, false, false, "", "", None, false, None, None, Parked)
  }

  /** Registers an entry under its id, last in the order, and last in the queue when it is queued. */
  function Insert(s: State, e: Tracked, nextID: nat): State {
    s.(entries := s.entries + [e], torrents := s.torrents[e.id := |s.entries|], order := s.order + [e.id],
       queue := if e.state == Queued && e.id !in s.queue then s.queue + [e.id] else s.queue, nextID := nextID)
  }

  // ----- claiming an infohash -----

  /** What a claim read from disk before the lock: which left data is gone, how directories compare. */
  datatype LeftView = LeftView(gone: set<(string, string)>, dirs: map<string, DirMatch>)

  datatype Claim = ClaimExisting(id: Id) | ClaimLeftData(savePath: string, name: string) | ClaimClear(refused: seq<Id>)

  predicate Matches(s: State, id: Id, hex: string, self: Option<Ref>) {
    id in s.torrents && s.torrents[id] < |s.entries| && Some(s.torrents[id]) != self &&
    s.entries[s.torrents[id]].infoHash == hex
  }

  predicate MatchesLive(s: State, id: Id, hex: string, self: Option<Ref>) {
    Matches(s, id, hex, self) && !s.entries[s.torrents[id]].refused
  }

  predicate MatchesRefused(s: State, id: Id, hex: string, self: Option<Ref>) {
    Matches(s, id, hex, self) && s.entries[s.torrents[id]].refused
  }

  /** The refused entries for hex among ids, in order. */
  function RefusedFor(s: State, ids: seq<Id>, hex: string, self: Option<Ref>): seq<Id> {
    if ids == [] then []
    else (if MatchesRefused(s, ids[0], hex, self) then [ids[0]] else []) + RefusedFor(s, ids[1..], hex, self)
  }

  /** Left data elsewhere, still on disk, that an add to dest would strand. */
  predicate Blocks(s: State, id: Id, dest: string, view: LeftView) {
    id in s.torrents && s.torrents[id] < |s.entries| &&
    var e := s.entries[s.torrents[id]];
    e.leftName != "" && !IsSameDir(dest, e.savePath, view.dirs) && (e.savePath, e.leftName) !in view.gone
  }

  /** The least index whose element satisfies nothing before it does. */
  function FirstLive(s: State, ids: seq<Id>, hex: string, self: Option<Ref>): (r: Option<Id>)
    ensures r.Some? ==> r.value in ids && MatchesLive(s, r.value, hex, self)
    ensures r.None? ==> forall id :: id in ids ==> !MatchesLive(s, id, hex, self)
  {
    if ids == [] then None
    else if MatchesLive(s, ids[0], hex, self) then Some(ids[0])
    else FirstLive(s, ids[1..], hex, self)
  }

  function FirstBlocking(s: State, ids: seq<Id>, dest: string, view: LeftView): (r: Option<Id>)
    ensures r.Some? ==> r.value in ids && Blocks(s, r.value, dest, view)
    ensures r.None? ==> forall id :: id in ids ==> !Blocks(s, id, dest, view)
  {
    if ids == [] then None
    else if Blocks(s, ids[0], dest, view) then Some(ids[0])
    else FirstBlocking(s, ids[1..], dest, view)
  }

  /** claimInfoHashLocked's decision. */
  function DecideClaim(s: State, hex: string, self: Option<Ref>, dest: string, view: LeftView): Claim {
    if hex == "" then ClaimClear([])
    else
      var live := FirstLive(s, s.order, hex, self);
      if live.Some? then ClaimExisting(live.value)
      else
        var refused := RefusedFor(s, s.order, hex, self);
        var blocking := FirstBlocking(s, refused, dest, view);
        if blocking.Some? then
          var e := s.entries[s.torrents[blocking.value]];
          ClaimLeftData(e.savePath, e.leftName)
        else ClaimClear(refused)
  }

  function UntrackAll(s: State, ids: seq<Id>): State
    decreases |ids|
  {
    if ids == [] then s else UntrackAll(Untrack(s, ids[0]), ids[1..])
  }

  // ----- adding -----

  datatype AddOutcome =
    | AddClosed
    | AddExisting(id: Id)
    | AddLeftData(savePath: string, name: string)
    | AddTracked(r: Ref, queued: bool)

  /** findOrTrack, one critical section: claim the infohash, then mint and register. */
  function FindOrTrack(s: State, spec: Spec, dest: string, prov: Provenance, view: LeftView): (State, AddOutcome) {
    if s.closed then (s, AddClosed)
    else
      match DecideClaim(s, spec.hash, None, dest, view)
      case ClaimExisting(id) => (s, AddExisting(id))
      case ClaimLeftData(path, name) => (s, AddLeftData(path, name))
      case ClaimClear(refused) =>
        var s1 := UntrackAll(s, refused);
        var m := Mint(s1, prov.want);
        var e := NewTracked(prov, m.id, dest).(infoHash := spec.hash, byHash := true);
        var r := |s1.entries|;
        if e.paused then
          (Insert(s1, e.(prePause := Checking, state := Paused, phase := Starting(ViaAdd, spec)), m.nextID),
           AddTracked(r, false))
        else if |ActiveIds(s1)| >= s.maxActive then
          (Insert(s1, e.(state := Queued, spec := Some(spec)), m.nextID), AddTracked(r, true))
        else
          (Insert(s1, e.(phase := Starting(ViaAdd, spec)), m.nextID), AddTracked(r, false))
  }

  /** track, for an address whose infohash is not known: it counts itself among the active. */
  function TrackURL(s: State, dest: string, prov: Provenance): State {
    if s.closed then s
    else
      var m := Mint(s, prov.want);
      var e := NewTracked(prov, m.id, dest);
      if e.paused then Insert(s, e.(prePause := Checking, state := Paused, phase := Fetching), m.nextID)
      else if |ActiveIds(s)| + 1 > s.maxActive then
        Insert(s, e.(state := Queued, url := true), m.nextID)
      else Insert(s, e.(phase := Fetching), m.nextID)
  }

  /** trackErrored: a restored torrent that cannot run, refused from the start. */
  function TrackErrored(s: State, hex: string, dest: string, prov: Provenance, left: string,
      dirs: map<string, DirMatch>): State {
    if s.closed then s
    else
      var m := Mint(s, prov.want);
      var kept := KeepLeft(s, None, dest, left, dirs);
      Insert(s, NewTracked(prov, m.id, dest).(state := Errored, infoHash := hex, refused := true,
                leftName := kept.leftName, sharedName := kept.sharedName, phase := Ended), m.nextID)
        .(shown := s.shown + ShownBy(dest, dirs))
  }

  /** fetchAndAttach's end: the fetch failed. */
  function FetchFails(s: State, r: Ref): State {
    if r < |s.entries| && s.entries[r].phase == Fetching
    then Put(s, r, FailEntry(s.entries[r]).(phase := Ended))
    else s
  }

  /** fetchAndAttach's claim of the infohash it fetched, then attach. */
  function FetchClaims(s: State, r: Ref, spec: Spec, view: LeftView): State {
    if r < |s.entries| && s.entries[r].phase == Fetching then
      match DecideClaim(s, spec.hash, Some(r), s.entries[r].savePath, view)
      case ClaimExisting(_) => Put(s, r, FailEntry(s.entries[r]).(phase := Ended))
      case ClaimLeftData(_, _) => Put(s, r, FailEntry(s.entries[r]).(phase := Ended))
      case ClaimClear(refused) =>
        var s1 := UntrackAll(s, refused);
        Put(s1, r, s.entries[r].(phase := Starting(ViaFetch, spec)))
    else s
  }

  // ----- attach -----

  /** addToClient's first section: read the pause. */
  function ReadHeld(s: State, r: Ref): State {
    if r < |s.entries| && s.entries[r].phase.Starting? then
      var e := s.entries[r];
      Put(s, r, e.(phase := Joining(e.phase.via, e.phase.spec, e.paused)))
    else s
  }

  /** attach fails before the client holds the torrent: an unsafe path, no space, a refused spec. */
  function AttachFails(s: State, r: Ref): State {
    if r < |s.entries| && (s.entries[r].phase.Starting? || s.entries[r].phase.Joining?) then
      var e := s.entries[r];
      Put(s, r, e.(phase := Failed(e.phase.via, e.phase.spec.info)))
    else s
  }

  /**
   AddTorrentSpec: the torrent the client holds for the infohash, or a new one; a held torrent joins
   without its info.
   */
  function AddTorrent(s: State, r: Ref): State {
    if r < |s.entries| && s.entries[r].phase.Joining? then
      var e := s.entries[r];
      var spec, held := e.phase.spec, e.phase.held;
      var info := if held then None else spec.info;
      var next := if held then Added(e.phase.via, spec) else Joined(e.phase.via, spec, false);
      if spec.hash in s.client && s.client[spec.hash] < |s.libs| then
        var l := s.client[spec.hash];
        var cur := s.libs[l];
        Put(s, r, e.(lib := Some(l), phase := next))
          .(libs := s.libs[l := cur.(info := if cur.info.None? then info else cur.info, shared := true)])
      else
        var l := |s.libs|;
        Put(s, r, e.(lib := Some(l), phase := next))
          .(libs := s.libs + [Torrent(spec.hash, info, true, true, false, r, false)],
            client := s.client[spec.hash := l])
    else s
  }

  /** addToClient shuts a held torrent's gates. */
  function ShutGates(s: State, r: Ref): State {
    if r < |s.entries| && s.entries[r].phase.Added? then
      var e := s.entries[r];
      Gate(Put(s, r, e.(phase := Shut(e.phase.via, e.phase.spec))), e.lib, false, false)
    else s
  }

  /** addToClient then sets the info dictionary it withheld; a failure drops a torrent it created. */
  function SetInfo(s: State, r: Ref, ok: bool): State {
    if r < |s.entries| && s.entries[r].phase.Shut? && s.entries[r].lib.Some? && s.entries[r].lib.value < |s.libs| then
      var e := s.entries[r];
      var l := e.lib.value;
      var spec := e.phase.spec;
      if ok || spec.info.None? then
        Learn(Put(s, r, e.(phase := Joined(e.phase.via, spec, true))), l, spec.info)
      else
        var s1 := Put(s, r, e.(phase := Failed(e.phase.via, spec.info)));
        if s.libs[l].creator == r then Drop(s1, l) else s1
    else s
  }

  /** attach's last section: publish the torrent and settle its gate under the lock. */
  function Publish(s: State, r: Ref): State {
    if r < |s.entries| && s.entries[r].phase.Joined? && s.entries[r].lib.Some? then
      var e := s.entries[r];
      var held := e.phase.held;
      if e.removed then Put(s, r, e.(phase := Ended)).(drops := s.drops + {e.lib.value})
      else if s.closed then Put(s, r, e.(phase := Failed(e.phase.via, e.phase.spec.info)))
      else
        var s1 := Put(s, r, e.(infoHash := e.phase.spec.hash, t := e.lib, phase := Awaiting));
        if !held && e.paused then Gate(s1, e.lib, false, false)
        else if held && !e.paused && e.state != Queued then Gate(s1, e.lib, true, true)
        else s1
    else s
  }

  /** What attach's caller does about its failure: Add untracks, the queue refuses, a fetch fails the entry. */
  function Cleanup(s: State, r: Ref, left: string, dirs: map<string, DirMatch>): State {
    if r < |s.entries| && s.entries[r].phase.Failed? then
      var e := s.entries[r];
      match e.phase.via
      case ViaAdd =>
        var s1 := Put(s, r, e.(phase := Ended));
        if IsTracked(s, r) then Untrack(s1, e.id) else s1
      case ViaQueue => MarkRefused(s, r, LeftName(e.phase.info, left), dirs)
      case ViaFetch => Put(s, r, FailEntry(e).(phase := Ended))
    else s
  }

  /** leftData: the dictionary's own name when something safe is on disk under it, else nothing. */
  function LeftName(info: Option<string>, left: string): string {
    if info == Some(left) then left else ""
  }

  // ----- awaitInfo -----

  /** The swarm supplies a torrent's info dictionary. */
  function InfoArrives(s: State, l: LibRef, name: string): State {
    if l < |s.libs| && !s.libs[l].dropped then Learn(s, l, Some(name)) else s
  }

  /** awaitInfo refuses the torrent, first dropping it: a timeout, or an unsafe or oversized dictionary. */
  function Refuse(s: State, r: Ref): State {
    if r < |s.entries| && s.entries[r].phase == Awaiting && s.entries[r].t.Some? then
      var e := s.entries[r];
      Drop(Put(s, r, e.(phase := Refusing(InfoOf(s, e.t.value)))), e.t.value)
    else s
  }

  /** refuse's critical section. */
  function RefuseMarks(s: State, r: Ref, left: string, dirs: map<string, DirMatch>): State {
    if r < |s.entries| && s.entries[r].phase.Refusing?
    then MarkRefused(s, r, LeftName(s.entries[r].phase.info, left), dirs)
    else s
  }

  /** awaitInfo's section once the dictionary is accepted. */
  function InfoAccepted(s: State, r: Ref): State {
    if r < |s.entries| && s.entries[r].phase == Awaiting && s.entries[r].t.Some? &&
        InfoOf(s, s.entries[r].t.value).Some? then
      var e := s.entries[r];
      var e1 := e.(phase := Waiting(InfoOf(s, e.t.value).value));
      if e.state == Queued then Gate(Put(s, r, e1), e.t, false, false)
      else if e.paused then Gate(Put(s, r, e1.(prePause := Downloading)), e.t, false, false)
      else if e.state == Checking then Put(s, r, e1.(state := Downloading))
      else Put(s, r, e1)
    else s
  }

  predicate Covered(s: State, name: string) {
    exists k | k in s.deleting :: MayBeSameName(s.deleting[k].name, name)
  }

  /** One look of awaitDeletes: past it only when no delete under way may be of the same name. */
  function PassDeletes(s: State, r: Ref): State {
    if r < |s.entries| && s.entries[r].phase.Waiting? && !Covered(s, s.entries[r].phase.name)
    then Put(s, r, s.entries[r].(phase := Wanted))
    else s
  }

  /** awaitInfo gives up: the entry was removed or the engine is closing. */
  function Quit(s: State, r: Ref): State {
    if r < |s.entries| && (s.entries[r].phase == Awaiting || s.entries[r].phase.Waiting?) &&
        (s.closed || s.entries[r].removed)
    then Put(s, r, s.entries[r].(phase := Ended))
    else s
  }

  // ----- pausing, resuming, queueing -----

  /** The state and flags pauseLocked leaves; the user's own pause is marked as such. */
  function PausedEntry(e: Tracked, byUser: bool): Tracked {
    var e1 := e.(paused := true, userPaused := e.userPaused || byUser);
    if e.state != Errored then e1.(prePause := e.state, state := Paused) else e1
  }

  /** pauseLocked, and Pause's mark under the same lock when byUser. */
  function PauseEntry(s: State, r: Ref, byUser: bool): State {
    if r < |s.entries| then
      var e := s.entries[r];
      Gate(Put(s, r, PausedEntry(e, byUser)), e.t, false, false).(queue := RemoveFirst(s.queue, e.id))
    else s
  }

  function Pause(s: State, id: Id): State {
    if s.closed || Lookup(s, id).None? || s.entries[Lookup(s, id).value].paused then s
    else PauseEntry(s, Lookup(s, id).value, true)
  }

  function PauseAll(s: State, ids: seq<Id>): State
    decreases |ids|
  {
    if ids == [] then s
    else
      var l := Lookup(s, ids[0]);
      PauseAll(if l.Some? && !s.entries[l.value].paused then PauseEntry(s, l.value, false) else s, ids[1..])
  }

  function PauseForShutdown(s: State): State {
    if s.closed then s else PauseAll(s, s.order)
  }

  /** The state and flags Resume gives a paused entry, before it decides about a slot. */
  function ResumedEntry(e: Tracked): Tracked {
    var e1 := e.(paused := false, userPaused := false);
    if e.spacePaused then e1.(spacePaused := false, state := e.prePause)
    else if e.seedDone && e.state != Errored then e1.(seedDone := false, seedOverride := true, state := Seeding)
    else if e.state == Paused then e1.(state := e.prePause)
    else e1
  }

  function Resume(s: State, id: Id): State {
    if s.closed || Lookup(s, id).None? then s
    else
      var r := Lookup(s, id).value;
      if !s.entries[r].paused then s
      else
        var e := ResumedEntry(s.entries[r]);
        var s1 := Put(s, r, e);
        if Startable(e) && (e.state == Queued ||
           ((e.state == Checking || e.state == Downloading) && |ActiveIds(s1)| > s.maxActive))
        then Enqueue(s1, r)
        else Gate(s1, e.t, true, true)
  }

  function Clamp(position: int, top: nat): nat {
    if position < 0 then 0 else if position > top then top else position
  }

  /** MoveInQueue. */
  function MoveInQueue(s: State, id: Id, position: int): State {
    if s.closed || Lookup(s, id).None? || id !in s.queue then s
    else
      var q := RemoveFirst(s.queue, id);
      var p := Clamp(position, |q|);
      s.(queue := q[..p] + [id] + q[p..])
  }

  /** promoteOneLocked: start the head of the queue while a slot is free. */
  function Promote(s: State): State {
    if s.closed || s.queue == [] || |ActiveIds(s)| >= s.maxActive then s
    else
      var id := s.queue[0];
      var s1 := s.(queue := s.queue[1..]);
      if Lookup(s, id).None? then s1
      else
        var r := Lookup(s, id).value;
        var e := s.entries[r];
        if e.t.Some? then
          Gate(Put(s1, r, e.(state := if InfoOf(s, e.t.value).Some? then Downloading else Checking)), e.t, true, true)
        else if e.url then
          Put(s1, r, e.(state := Checking, url := false, phase := Fetching))
        else if e.spec.Some? then
          Put(s1, r, e.(state := Checking, spec := None, phase := Starting(ViaQueue, e.spec.value)))
        else s1
  }

  /** applyPolicyLocked, first half: a complete download seeds. */
  function Complete(s: State, id: Id): State {
    if Lookup(s, id).Some? then
      var r := Lookup(s, id).value;
      var e := s.entries[r];
      if e.t.Some? && !e.paused && InfoOf(s, e.t.value).Some? && e.state == Downloading
      then Put(s, r, e.(state := Seeding))
      else s
    else s
  }

  /** applyPolicyLocked, second half: the seed policy is met, so upload stops. */
  function SeedStops(s: State, id: Id): State {
    if Lookup(s, id).Some? then
      var r := Lookup(s, id).value;
      var e := s.entries[r];
      if e.t.Some? && e.t.value < |s.libs| && !e.paused && InfoOf(s, e.t.value).Some? && e.state == Seeding &&
          !e.seedOverride
      then Gate(Put(s, r, e.(paused := true, seedDone := true, prePause := Seeding, state := Paused)),
                e.t, s.libs[e.t.value].down, false)
      else s
    else s
  }

  /** recheckSpace for one download the disk can no longer hold. */
  function SpaceStops(s: State, r: Ref): State {
    if r < |s.entries| then
      var e := s.entries[r];
      if !e.removed && e.t.Some? && e.t.value < |s.libs| && InfoOf(s, e.t.value).Some? && e.state == Downloading
      then Gate(Put(s, r, e.(paused := true, spacePaused := true, prePause := Downloading, state := Errored)),
                e.t, false, s.libs[e.t.value].up)
      else s
    else s
  }

  // ----- removing -----

  /** What a Remove deletes (name), or keeps because it may not be its own (kept). */
  datatype Target = Target(name: string, kept: string, maybe: bool)

  /** removeTargetLocked. */
  function RemoveTarget(s: State, r: Ref, deleteData: bool, dirs: map<string, DirMatch>): Target
    requires r < |s.entries|
  {
    var e := s.entries[r];
    if !deleteData then Target("", "", false)
    else if !e.refused then
      if e.t.None? || InfoOf(s, e.t.value).None? then Target("", "", false)
      else
        var own := InfoOf(s, e.t.value).value;
        if NameTaken(s, Some(r), e.savePath, own, dirs) then Target("", own, false) else Target(own, "", false)
    else if e.leftName != "" then
      var taken := NameTaken(s, Some(r), e.savePath, e.leftName, dirs);
      var pending := NamePending(s, Some(r), e.savePath, dirs) || SharedKept(s, Some(r), e.savePath, e.leftName, dirs);
      if taken || pending then Target("", e.leftName, !taken) else Target(e.leftName, "", false)
    else if e.sharedName != "" then
      Target("", e.sharedName, !NameTaken(s, Some(r), e.savePath, e.sharedName, dirs))
    else Target("", "", false)
  }

  function RecordDelete(s: State, d: InflightDelete): State {
    s.(deleting := s.deleting[s.nextDelete := d], nextDelete := s.nextDelete + 1)
  }

  /** Remove's critical section: decide the delete, record it, forget the entry. */
  function Remove(s: State, id: Id, deleteData: bool, dirs: map<string, DirMatch>): State {
    if s.closed || Lookup(s, id).None? then s
    else
      var r := Lookup(s, id).value;
      var e := s.entries[r];
      var name := RemoveTarget(s, r, deleteData, dirs).name;
      var s1 := Untrack(Put(s, r, e.(removed := true)), id)
        .(drops := if e.t.Some? then s.drops + {e.t.value} else s.drops);
      if name == "" then s1 else RecordDelete(s1, InflightDelete(e.savePath, name, dirs))
  }

  /** The Drop a Remove or a late attach makes once it has let go of the lock. */
  function MakeDrop(s: State, l: LibRef): State {
    if l in s.drops then Drop(s.(drops := s.drops - {l}), l) else s
  }

  /** endDelete. */
  function EndDelete(s: State, k: nat): State {
    s.(deleting := s.deleting - {k})
  }

  // ----- runs -----

  datatype Event =
    | EvAdd(spec: Spec, dest: string, prov: Provenance, view: LeftView)
    | EvAddURL(dest: string, prov: Provenance)
    | EvRestoreErrored(hex: string, dest: string, prov: Provenance, left: string, dirs: map<string, DirMatch>)
    | EvFetchFails(r: Ref)
    | EvFetchClaims(r: Ref, spec: Spec, view: LeftView)
    | EvReadHeld(r: Ref)
    | EvAttachFails(r: Ref)
    | EvAddTorrent(r: Ref)
    | EvShutGates(r: Ref)
    | EvSetInfo(r: Ref, ok: bool)
    | EvPublish(r: Ref)
    | EvCleanup(r: Ref, left: string, dirs: map<string, DirMatch>)
    | EvInfoArrives(l: LibRef, name: string)
    | EvRefuse(r: Ref)
    | EvRefuseMarks(r: Ref, left: string, dirs: map<string, DirMatch>)
    | EvInfoAccepted(r: Ref)
    | EvPassDeletes(r: Ref)
    | EvQuit(r: Ref)
    | EvPause(id: Id)
    | EvPauseForShutdown
    | EvResume(id: Id)
    | EvMoveInQueue(id: Id, position: int)
    | EvPromote
    | EvComplete(id: Id)
    | EvSeedStops(id: Id)
    | EvSpaceStops(r: Ref)
    | EvRemove(id: Id, deleteData: bool, dirs: map<string, DirMatch>)
    | EvMakeDrop(l: LibRef)
    | EvEndDelete(k: nat)
    | EvClose

  function Apply(s: State, ev: Event): State {
    match ev
    // An infohash in hex is never empty.
    case EvAdd(spec, dest, prov, view) => if spec.hash == "" then s else FindOrTrack(s, spec, dest, prov, view).0
    case EvAddURL(dest, prov) => TrackURL(s, dest, prov)
    case EvRestoreErrored(hex, dest, prov, left, dirs) => TrackErrored(s, hex, dest, prov, left, dirs)
    case EvFetchFails(r) => FetchFails(s, r)
    case EvFetchClaims(r, spec, view) => if spec.hash == "" then s else FetchClaims(s, r, spec, view)
    case EvReadHeld(r) => ReadHeld(s, r)
    case EvAttachFails(r) => AttachFails(s, r)
    case EvAddTorrent(r) => AddTorrent(s, r)
    case EvShutGates(r) => ShutGates(s, r)
    case EvSetInfo(r, ok) => SetInfo(s, r, ok)
    case EvPublish(r) => Publish(s, r)
    case EvCleanup(r, left, dirs) => Cleanup(s, r, left, dirs)
    case EvInfoArrives(l, name) => InfoArrives(s, l, name)
    case EvRefuse(r) => Refuse(s, r)
    case EvRefuseMarks(r, left, dirs) => RefuseMarks(s, r, left, dirs)
    case EvInfoAccepted(r) => InfoAccepted(s, r)
    case EvPassDeletes(r) => PassDeletes(s, r)
    case EvQuit(r) => Quit(s, r)
    case EvPause(id) => Pause(s, id)
    case EvPauseForShutdown => PauseForShutdown(s)
    case EvResume(id) => Resume(s, id)
    case EvMoveInQueue(id, position) => MoveInQueue(s, id, position)
    case EvPromote => Promote(s)
    case EvComplete(id) => Complete(s, id)
    case EvSeedStops(id) => SeedStops(s, id)
    case EvSpaceStops(r) => SpaceStops(s, r)
    case EvRemove(id, deleteData, dirs) => Remove(s, id, deleteData, dirs)
    case EvMakeDrop(l) => MakeDrop(s, l)
    case EvEndDelete(k) => EndDelete(s, k)
    case EvClose => s.(closed := true)
  }

  /** The state after a sequence of events. */
  function Run(s: State, evs: seq<Event>): State
    decreases |evs|
  {
    if evs == [] then s else Run(Apply(s, evs[0]), evs[1..])
  }
}
