/**
 The engine's critical sections as the source runs them: fields changed under one lock,
 loops over the tables, slices cut in place. Each method is one critical section and is
 proved equal to the step of the same name, so what holds of every run holds of these.
 */
module Engine {
  import opened Wrappers
  import opened EngineState
  import opened EngineSteps
  import opened EngineInvariants
  import opened EngineProofs

  class Engine {
    var entries: seq<Tracked>
    var torrents: map<Id, Ref>
    var order: seq<Id>
    var queue: seq<Id>
    var libs: seq<Torrent>
    var client: map<string, LibRef>
    var drops: set<LibRef>
    var deleting: map<nat, InflightDelete>
    var nextDelete: nat
    ghost var shown: set<(string, string)>
    var nextID: nat
    var maxActive: nat
    var closed: bool

    ghost function View(): State
      reads this
    {
      State(entries, torrents, order, queue, libs, client, drops, deleting, nextDelete, shown, nextID, maxActive,
        closed)
    }

    ghost predicate Valid()
      reads this
    {
      Inv(View())
    }

    /** The part of Valid() that lookups need. */
    predicate Tables()
      reads this
    {
      && (forall id | id in torrents :: torrents[id] < |entries| && entries[torrents[id]].id == id)
      && (forall id | id in order :: id in torrents)
    }

    predicate HasGate(r: Ref)
      reads this
    {
      r < |entries| && (entries[r].t.Some? ==> entries[r].t.value < |libs|)
    }

    lemma ValidTables()
      requires Valid()
      ensures Tables() && forall r | 0 <= r < |entries| :: HasGate(r)
    {
      assert forall r | 0 <= r < |entries| :: EntryOk(View(), entries[r]);
    }

    constructor (maxActive: nat)
      ensures View() == Init(maxActive)
      ensures Valid()
    {
      entries, torrents, order, queue, libs, client, drops := [], map[], [], [], [], map[], {};
      deleting, nextDelete, shown, nextID, closed := map[], 0, {}, 0, false;
      this.maxActive := maxActive;
    }

    // ----- reading the tables -----

    /** activeLocked: one pass over the tracked entries. */
    method ActiveLocked() returns (n: nat)
      requires Tables()
      ensures n == |ActiveIds(View())|
    {
      n := 0;
      var left := torrents.Keys;
      ghost var counted: set<Id> := {};
      while left != {}
        invariant left <= torrents.Keys
        invariant counted == set id | id in ActiveIds(View()) && id !in left
        invariant n == |counted|
        decreases left
      {
        var id :| id in left;
        left := left - {id};
        if IsActive(entries[torrents[id]]) {
          counted := counted + {id};
          n := n + 1;
        }
      }
      assert counted == ActiveIds(View());
    }

    /** dataNameLocked. */
    function NameOf(r: Ref): (name: Option<string>)
      reads this
      requires Valid() && r < |entries|
      ensures name == DataName(View(), entries[r])
    {
      var e := entries[r];
      assert EntryOk(View(), e);
      if e.refused then Some(e.leftName)
      else if e.t.Some? then libs[e.t.value].info
      else if e.spec.Some? then e.spec.value.info
      else if e.state == Errored then Some("")
      else None
    }

    /** dataNameUsedLocked: the first entry found using the name ends the search. */
    method DataNameUsedLocked(self: Option<Ref>, savePath: string, name: string, dirs: map<string, DirMatch>)
      returns (taken: bool, pending: bool)
      requires Valid()
      ensures taken == NameTaken(View(), self, savePath, name, dirs)
      ensures !taken ==> pending == NamePending(View(), self, savePath, dirs)
    {
      hide Inv;
      ValidTables();
      taken, pending := false, false;
      var left := torrents.Keys;
      while left != {}
        invariant left <= torrents.Keys && !taken
        invariant forall id | id in torrents && id !in left :: !UsesName(View(), id, self, savePath, name, dirs)
        invariant pending == exists id | id in torrents && id !in left :: MayUseName(View(), id, self, savePath, dirs)
        decreases left
      {
        var id :| id in left;
        ghost var before := left;
        left := left - {id};
        var r := torrents[id];
        if Some(r) != self && MayBeSameDir(savePath, entries[r].savePath, dirs) {
          var n := NameOf(r);
          if n.None? {
            assert MayUseName(View(), id, self, savePath, dirs);
            pending := true;
          } else if MayBeSameName(n.value, name) {
            assert UsesName(View(), id, self, savePath, name, dirs);
            return true, false;
          }
        }
      }
    }

    /** sharedNameKeptLocked. */
    method SharedNameKeptLocked(self: Option<Ref>, savePath: string, name: string, dirs: map<string, DirMatch>)
      returns (kept: bool)
      requires Valid()
      ensures kept == SharedKept(View(), self, savePath, name, dirs)
    {
      var left := torrents.Keys;
      while left != {}
        invariant left <= torrents.Keys
        invariant forall id | id in torrents && id !in left :: !KeepsShared(View(), id, self, savePath, name, dirs)
        decreases left
      {
        var id :| id in left;
        left := left - {id};
        var r := torrents[id];
        var e := entries[r];
        if Some(r) == self || !e.refused || e.sharedName == "" || !MayBeSameDir(savePath, e.savePath, dirs) {
          continue;
        }
        if MayBeSameName(e.sharedName, name) {
          assert KeepsShared(View(), id, self, savePath, name, dirs);
          return true;
        }
      }
      return false;
    }

    /** keepLeftLocked's choice between data of one's own and data kept as shared. */
    method KeepLeftLocked(self: Option<Ref>, savePath: string, left: string, dirs: map<string, DirMatch>)
        returns (k: Kept)
      requires Valid()
      ensures k == KeepLeft(View(), self, savePath, left, dirs)
    {
      if left == "" { return Kept("", ""); }
      var taken, _ := DataNameUsedLocked(self, savePath, left, dirs);
      if taken { return Kept("", left); }
      var shared := SharedNameKeptLocked(self, savePath, left, dirs);
      return if shared then Kept("", left) else Kept(left, "");
    }

    /** removeTargetLocked. */
    method RemoveTargetLocked(r: Ref, deleteData: bool, dirs: map<string, DirMatch>) returns (target: Target)
      requires Valid() && r < |entries|
      ensures target == RemoveTarget(View(), r, deleteData, dirs)
    {
      assert EntryOk(View(), entries[r]);
      hide Inv, NameTaken, NamePending, SharedKept;
      var e := entries[r];
      if !deleteData { return Target("", "", false); }
      if !e.refused {
        if e.t.None? || libs[e.t.value].info.None? { return Target("", "", false); }
        var own := libs[e.t.value].info.value;
        var taken, _ := DataNameUsedLocked(Some(r), e.savePath, own, dirs);
        return if taken then Target("", own, false) else Target(own, "", false);
      } else if e.leftName != "" {
        var taken, pending := DataNameUsedLocked(Some(r), e.savePath, e.leftName, dirs);
        var shared := SharedNameKeptLocked(Some(r), e.savePath, e.leftName, dirs);
        return if taken || pending || shared then Target("", e.leftName, !taken) else Target(e.leftName, "", false);
      } else if e.sharedName != "" {
        var taken, _ := DataNameUsedLocked(Some(r), e.savePath, e.sharedName, dirs);
        return Target("", e.sharedName, !taken);
      }
      return Target("", "", false);
    }

    // ----- the tables -----

    /** dequeueLocked. */
    method DequeueLocked(id: Id)
      modifies this`queue
      ensures View() == old(View()).(queue := RemoveFirst(old(queue), id))
    {
      queue := CutFirst(queue, id);
    }

    /** untrackLocked. */
    method UntrackLocked(id: Id)
      modifies this`torrents, this`queue, this`order
      ensures View() == Untrack(old(View()), id)
    {
      torrents := torrents - {id};
      DequeueLocked(id);
      order := CutFirst(order, id);
    }

    /** mintIDLocked: count up past every number in use. */
    method MintIDLocked(want: Option<Id>) returns (id: Id)
      modifies this`nextID
      ensures Minted(id, nextID) == Mint(old(View()), want)
      ensures View() == old(View()).(nextID := nextID)
    {
      if want.Some? && want.value !in torrents {
        if want.value.Numbered? && want.value.n > nextID { nextID := want.value.n; }
        return want.value;
      }
      ghost var target := NextFree(torrents, nextID);
      nextID := nextID + 1;
      while Numbered(nextID) in torrents
        invariant old(nextID) < nextID <= target && target == NextFree(torrents, old(nextID))
        invariant torrents == old(torrents) && View() == old(View()).(nextID := nextID)
        decreases target - nextID
      {
        nextID := nextID + 1;
      }
      return Numbered(nextID);
    }

    /** claimInfoHashLocked's pass over the order: the first live entry for hex, or every refused one. */
    method MatchInfoHash(hex: string, self: Option<Ref>) returns (live: Option<Id>, refused: seq<Id>)
      requires Tables()
      ensures live == FirstLive(View(), order, hex, self)
      ensures live.None? ==> refused == RefusedFor(View(), order, hex, self)
    {
      refused := [];
      ghost var s := View();
      var i := 0;
      while i < |order|
        invariant 0 <= i <= |order|
        invariant refused + RefusedFor(s, order[i..], hex, self) == RefusedFor(s, order, hex, self)
        invariant FirstLive(s, order, hex, self) == FirstLive(s, order[i..], hex, self)
      {
        var id := order[i];
        NextMatch(s, order, i, hex, self, refused);
        assert id in order;
        var r := torrents[id];
        if Some(r) != self && entries[r].infoHash == hex {
          if !entries[r].refused { return Some(id), refused; }
          refused := refused + [id];
        }
        i := i + 1;
      }
      assert order[i..] == [] && refused + [] == refused;
      return None, refused;
    }

    /** Its pass over those: the first whose left data an add to dest would strand. */
    method FindLeftData(ids: seq<Id>, dest: string, view: LeftView) returns (blocking: Option<Id>)
      requires Tables() && forall id | id in ids :: id in torrents
      ensures blocking == FirstBlocking(View(), ids, dest, view)
    {
      var i := 0;
      while i < |ids|
        invariant 0 <= i <= |ids|
        invariant FirstBlocking(View(), ids, dest, view) == FirstBlocking(View(), ids[i..], dest, view)
      {
        assert ids[i..][1..] == ids[i + 1..];
        var e := entries[torrents[ids[i]]];
        if e.leftName != "" && !IsSameDir(dest, e.savePath, view.dirs) && (e.savePath, e.leftName) !in view.gone {
          return Some(ids[i]);
        }
        i := i + 1;
      }
      assert ids[i..] == [];
      return None;
    }

    /** Its last pass: untrack each of them. */
    method UntrackEach(ids: seq<Id>)
      modifies this`torrents, this`queue, this`order
      ensures View() == UntrackAll(old(View()), ids)
    {
      var i := 0;
      while i < |ids|
        invariant 0 <= i <= |ids|
        invariant UntrackAll(old(View()), ids) == UntrackAll(View(), ids[i..])
      {
        assert ids[i..] == [ids[i]] + ids[i + 1..];
        UntrackLocked(ids[i]);
        i := i + 1;
      }
      assert ids[i..] == [];
    }

    /** claimInfoHashLocked. */
    method ClaimInfoHashLocked(hex: string, self: Option<Ref>, dest: string, view: LeftView) returns (c: Claim)
      requires Tables()
      modifies this`torrents, this`queue, this`order
      ensures c == DecideClaim(old(View()), hex, self, dest, view)
      ensures View() == if c.ClaimClear? then UntrackAll(old(View()), c.refused) else old(View())
    {
      if hex == "" { return ClaimClear([]); }
      var live, refused := MatchInfoHash(hex, self);
      if live.Some? { return ClaimExisting(live.value); }
      RefusedForComplete(View(), order, hex, self);
      var blocking := FindLeftData(refused, dest, view);
      if blocking.Some? {
        var e := entries[torrents[blocking.value]];
        return ClaimLeftData(e.savePath, e.leftName);
      }
      UntrackEach(refused);
      return ClaimClear(refused);
    }

    /** The half of findOrTrack after a clear claim: mint, start or queue, register. */
    method MintAdded(spec: Spec, dest: string, prov: Provenance) returns (r: Ref, queued: bool)
      requires Tables()
      modifies this
      ensures var s, e := old(View()), AddedEntry(old(View()), spec, dest, prov);
        View() == Insert(s, e, Mint(s, prov.want).nextID) && r == |s.entries| && (queued <==> e.state == Queued)
    {
      hide Mint, ActiveIds;
      var active := ActiveLocked();
      var id := MintIDLocked(prov.want);
      var e := NewTracked(prov, id, dest).(infoHash := spec.hash, byHash := true);
      queued := false;
      if e.paused {
        e := e.(prePause := Checking, state := Paused, phase := Starting(ViaAdd, spec));
      } else if active >= maxActive {
        e := e.(state := Queued, spec := Some(spec));
        if id !in queue { queue := queue + [id]; }
        queued := true;
      } else {
        e := e.(phase := Starting(ViaAdd, spec));
      }
      r := |entries|;
      entries, torrents, order := entries + [e], torrents[id := r], order + [id];
    }

    /** findOrTrack. */
    method FindOrTrack(spec: Spec, dest: string, prov: Provenance, left: LeftView) returns (out: AddOutcome)
      requires Valid() && spec.hash != ""
      modifies this
      ensures (View(), out) == EngineSteps.FindOrTrack(old(View()), spec, dest, prov, left)
      ensures Valid()
    {
      ghost var s := View();
      FindOrTrackKeeps(s, spec, dest, prov, left);
      ValidTables();
      if closed { return AddClosed; }
      var c := ClaimInfoHashLocked(spec.hash, None, dest, left);
      if c.ClaimExisting? { return AddExisting(c.id); }
      if c.ClaimLeftData? { return AddLeftData(c.savePath, c.name); }
      UntrackAllKeeps(s, c.refused);
      UntrackAllEffect(s, c.refused);
      ValidTables();
      var r, queued := MintAdded(spec, dest, prov);
      return AddTracked(r, queued);
    }

    /** trackErrored. */
    method TrackErrored(hex: string, dest: string, prov: Provenance, left: string, dirs: map<string, DirMatch>)
      requires Valid()
      modifies this
      ensures View() == EngineSteps.TrackErrored(old(View()), hex, dest, prov, left, dirs)
      ensures Valid()
    {
      hide Inv, KeepLeft, Mint, ShownBy, NameTaken, SharedKept;
      TrackErroredKeeps(View(), hex, dest, prov, left, dirs);
      if closed { return; }
      var kept := KeepLeftLocked(None, dest, left, dirs);
      var id := MintIDLocked(prov.want);
      var e := NewTracked(prov, id, dest).(state := Errored, infoHash := hex, refused := true,
                 leftName := kept.leftName, sharedName := kept.sharedName, phase := Ended);
      entries, torrents, order := entries + [e], torrents[id := |entries|], order + [id];
      shown := shown + ShownBy(dest, dirs);
    }

    // ----- publishing and refusing -----

    method SetGate(l: LibRef, down: bool, up: bool)
      requires l < |libs|
      modifies this`libs
      ensures View() == Gate(old(View()), Some(l), down, up)
    {
      libs := libs[l := libs[l].(down := down, up := up)];
    }

    /** attach's last section. */
    method Publish(r: Ref)
      requires Valid() && r < |entries| && entries[r].phase.Joined?
      modifies this
      ensures View() == EngineSteps.Publish(old(View()), r)
      ensures Valid()
    {
      PublishKeeps(View(), r);
      assert EntryOk(View(), entries[r]);
      var e := entries[r];
      var l, held := e.lib.value, e.phase.held;
      if e.removed {
        entries := entries[r := e.(phase := Ended)];
        drops := drops + {l};
        return;
      }
      if closed {
        entries := entries[r := e.(phase := Failed(e.phase.via, e.phase.spec.info))];
        return;
      }
      entries := entries[r := e.(infoHash := e.phase.spec.hash, t := Some(l), phase := Awaiting)];
      if !held && e.paused { SetGate(l, false, false); }
      else if held && !e.paused && e.state != Queued { SetGate(l, true, true); }
    }

    /** awaitInfo's section once the dictionary is accepted. */
    method InfoAccepted(r: Ref)
      requires Valid() && r < |entries| && entries[r].phase == Awaiting
      requires InfoOf(View(), entries[r].t.value).Some?
      modifies this
      ensures View() == EngineSteps.InfoAccepted(old(View()), r)
      ensures Valid()
    {
      InfoAcceptedKeeps(View(), r);
      assert EntryOk(View(), entries[r]);
      var e := entries[r];
      var l := e.t.value;
      var e1 := e.(phase := Waiting(libs[l].info.value));
      var held := e.paused || e.state == Queued;
      if e.state == Queued {
      } else if held {
        e1 := e1.(prePause := Downloading);
      } else if e.state == Checking {
        e1 := e1.(state := Downloading);
      }
      entries := entries[r := e1];
      if held { SetGate(l, false, false); }
    }

    /** refuse's critical section, the torrent dropped already. */
    method RefuseMarks(r: Ref, left: string, dirs: map<string, DirMatch>)
      requires Valid() && r < |entries| && entries[r].phase.Refusing?
      modifies this
      ensures View() == EngineSteps.RefuseMarks(old(View()), r, left, dirs)
      ensures Valid()
    {
      RefuseMarksKeeps(View(), r, left, dirs);
      var e := entries[r];
      var found := LeftName(e.phase.info, left);
      var kept := KeepLeftLocked(Some(r), e.savePath, found, dirs);
      entries := entries[r := e.(state := Errored, refused := true, leftName := kept.leftName,
        sharedName := kept.sharedName, phase := Ended)];
      shown := shown + ShownBy(e.savePath, dirs);
    }

    /** One look of awaitDeletes' loop over the deletes under way. */
    method AwaitDeletesOnce(r: Ref) returns (passed: bool)
      requires Valid() && r < |entries| && entries[r].phase.Waiting?
      modifies this`entries
      ensures View() == PassDeletes(old(View()), r)
      ensures Valid()
      ensures passed <==> forall k | k in deleting :: !MayBeSameName(deleting[k].name, old(entries[r].phase.name))
    {
      PassDeletesKeeps(View(), r);
      var name := entries[r].phase.name;
      var left := deleting.Keys;
      while left != {}
        invariant left <= deleting.Keys && View() == old(View())
        invariant forall k | k in deleting && k !in left :: !MayBeSameName(deleting[k].name, name)
        decreases left
      {
        var k :| k in left;
        if MayBeSameName(deleting[k].name, name) { return false; }
        left := left - {k};
      }
      entries := entries[r := entries[r].(phase := Wanted)];
      return true;
    }

    // ----- pausing, resuming, queueing -----

    /** The flags and state pauseLocked gives the entry. */
    method PausedFlags(e: Tracked) returns (p: Tracked)
      requires !e.paused
      ensures p == PausedEntry(e, false)
    {
      p := e.(paused := true);
      if p.state != Errored { p := p.(prePause := e.state, state := Paused); }
    }

    /** pauseLocked. */
    method PauseLocked(r: Ref)
      requires HasGate(r) && !entries[r].paused
      modifies this`entries, this`queue, this`libs
      ensures entries == old(entries)[r := PausedEntry(old(entries[r]), false)]
      ensures View() == PauseEntry(old(View()), r, false) && |libs| == old(|libs|)
    {
      var e := PausedFlags(entries[r]);
      var t := entries[r].t;
      DequeueLocked(entries[r].id);
      entries := entries[r := e];
      if t.Some? { SetGate(t.value, false, false); }
    }

    method PauseByUser(r: Ref)
      requires HasGate(r) && !entries[r].paused
      modifies this`entries, this`queue, this`libs
      ensures View() == PauseEntry(old(View()), r, true)
    {
      ghost var s := View();
      PauseLocked(r);
      MarkedByUser(s, r);
      entries := entries[r := entries[r].(userPaused := true)];
    }

    method Pause(id: Id) returns (found: bool)
      requires Valid()
      modifies this
      ensures View() == EngineSteps.Pause(old(View()), id)
      ensures Valid()
      ensures found <==> !old(closed) && id in old(torrents)
    {
      PauseKeeps(View(), id);
      ValidTables();
      if closed || id !in torrents { return false; }
      var r := torrents[id];
      if !entries[r].paused { PauseByUser(r); }
      return true;
    }

    method PauseForShutdown()
      requires Valid()
      modifies this
      ensures View() == EngineSteps.PauseForShutdown(old(View()))
      ensures Valid()
    {
      PauseAllKeeps(View(), order);
      if closed { return; }
      ValidTables();
      PauseEach(order);
    }

    method PauseEach(ids: seq<Id>)
      requires Tables() && (forall r | 0 <= r < |entries| :: HasGate(r)) && forall id | id in ids :: id in torrents
      modifies this`entries, this`queue, this`libs
      ensures View() == PauseAll(old(View()), ids)
    {
      hide PauseEntry, PausedEntry, PauseAll;
      assert ids[0..] == ids;
      var i := 0;
      while i < |ids|
        invariant 0 <= i <= |ids| && |entries| == old(|entries|) && |libs| == old(|libs|)
        invariant forall r | 0 <= r < |entries| :: entries[r].t == old(entries[r].t)
        invariant PauseAll(old(View()), ids) == PauseAll(View(), ids[i..])
      {
        PauseAllNext(View(), ids[i..]);
        PausedTorrent(entries[torrents[ids[i]]], false);
        assert ids[i..][1..] == ids[i + 1..] && ids[i] in ids;
        var r := torrents[ids[i]];
        assert old(HasGate(r));
        if !entries[r].paused { PauseLocked(r); }
        i := i + 1;
      }
      PauseNone(View());
      assert ids[i..] == [];
    }

    /** The flags and state a Resume gives the entry. */
    method Resumed(r: Ref) returns (e: Tracked)
      requires r < |entries|
      ensures e == ResumedEntry(entries[r])
    {
      e := entries[r].(paused := false, userPaused := false);
      if e.spacePaused {
        e := e.(spacePaused := false, state := e.prePause);
      } else if e.seedDone && e.state != Errored {
        e := e.(seedDone := false, seedOverride := true, state := Seeding);
      } else if e.state == Paused {
        e := e.(state := e.prePause);
      }
    }

    /** Resume of a paused entry: into the queue when every slot is taken, else running with its gate open. */
    method ResumeLocked(r: Ref)
      requires Tables() && HasGate(r) && entries[r].id in torrents && torrents[entries[r].id] == r
      requires entries[r].paused && !closed
      modifies this`entries, this`queue, this`libs
      ensures View() == EngineSteps.Resume(old(View()), old(entries[r].id))
    {
      hide ActiveIds, ResumedEntry, EngineSteps.Resume;
      var e := Resumed(r);
      ResumedSame(entries[r]);
      var active := ActiveWith(r, e);
      ResumeUnfolds(View(), r, e);
      if Startable(e) && (e.state == Queued ||
          ((e.state == Checking || e.state == Downloading) && active > maxActive)) {
        entries := entries[r := e.(state := Queued)];
        if e.id !in queue { queue := queue + [e.id]; }
      } else {
        entries := entries[r := e];
        if e.t.Some? { SetGate(e.t.value, true, true); }
      }
    }

    method Resume(id: Id) returns (found: bool)
      requires Valid()
      modifies this
      ensures View() == EngineSteps.Resume(old(View()), id)
      ensures Valid()
      ensures found <==> !old(closed) && id in old(torrents)
    {
      ResumeKeeps(View(), id);
      ValidTables();
      if closed || id !in torrents { return false; }
      var r := torrents[id];
      if entries[r].paused { ResumeLocked(r); }
      return true;
    }

    /** activeLocked as it counts once entry r has become e. */
    method ActiveWith(r: Ref, e: Tracked) returns (n: nat)
      requires Tables() && r < |entries| && e.id == entries[r].id
      ensures n == |ActiveIds(Put(View(), r, e))|
    {
      n := 0;
      var left := torrents.Keys;
      ghost var counted: set<Id> := {};
      ghost var s1 := Put(View(), r, e);
      while left != {}
        invariant left <= torrents.Keys
        invariant counted == set id | id in ActiveIds(s1) && id !in left
        invariant n == |counted|
        decreases left
      {
        var id :| id in left;
        left := left - {id};
        if IsActive(if torrents[id] == r then e else entries[torrents[id]]) {
          counted := counted + {id};
          n := n + 1;
        }
      }
      assert counted == ActiveIds(s1);
    }

    /** promoteOneLocked. */
    method PromoteOneLocked() returns (started: Option<Ref>)
      requires Valid()
      modifies this
      ensures View() == Promote(old(View()))
      ensures Valid()
      ensures started.Some? <==> !old(closed) && old(queue) != [] && |ActiveIds(old(View()))| < old(maxActive)
    {
      hide Inv, ActiveIds, OwnLib;
      ghost var s := View();
      PromoteKeeps(s);
      ValidTables();
      if closed || queue == [] { return None; }
      var active := ActiveLocked();
      if active >= maxActive { return None; }
      HeadStarts(s);
      PromoteUnfolds(s, torrents[queue[0]]);
      hide Promote;
      var id := queue[0];
      queue := queue[1..];
      var r := torrents[id];
      var e := entries[r];
      if e.t.Some? {
        var l := e.t.value;
        entries := entries[r := e.(state := if libs[l].info.Some? then Downloading else Checking)];
        SetGate(l, true, true);
      } else if e.url {
        entries := entries[r := e.(state := Checking, url := false, phase := Fetching)];
      } else {
        entries := entries[r := e.(state := Checking, spec := None, phase := Starting(ViaQueue, e.spec.value))];
      }
      return Some(r);
    }

    method MoveInQueue(id: Id, position: int) returns (moved: bool)
      requires Valid()
      modifies this`queue
      ensures View() == EngineSteps.MoveInQueue(old(View()), id, position)
      ensures Valid()
      ensures moved <==> !closed && id in old(queue)
    {
      MoveInQueueKeeps(View(), id, position);
      if closed || id !in torrents || id !in queue { return false; }
      DequeueLocked(id);
      var p := if position < 0 then 0 else if position > |queue| then |queue| else position;
      queue := queue[..p] + [id] + queue[p..];
      return true;
    }

    // ----- removing -----

    /** What Remove does to the tables once it has decided. */
    method ForgetLocked(r: Ref, name: string, dirs: map<string, DirMatch>)
      requires r < |entries|
      modifies this
      ensures var s := old(View());
        var e := s.entries[r];
        var s1 := Untrack(Put(s, r, e.(removed := true)), e.id)
          .(drops := if e.t.Some? then s.drops + {e.t.value} else s.drops);
        View() == if name == "" then s1 else RecordDelete(s1, InflightDelete(e.savePath, name, dirs))
    {
      var e := entries[r];
      if name != "" {
        deleting := deleting[nextDelete := InflightDelete(e.savePath, name, dirs)];
        nextDelete := nextDelete + 1;
      }
      entries := entries[r := e.(removed := true)];
      UntrackLocked(e.id);
      if e.t.Some? { drops := drops + {e.t.value}; }
    }

    /** Remove's critical section: decide, record the delete, forget the entry. */
    method Remove(id: Id, deleteData: bool, dirs: map<string, DirMatch>) returns (target: Option<Target>)
      requires Valid()
      modifies this
      ensures View() == EngineSteps.Remove(old(View()), id, deleteData, dirs)
      ensures Valid()
      ensures target.None? <==> old(closed) || id !in old(torrents)
      ensures target.Some? ==> target.value == RemoveTarget(old(View()), old(torrents[id]), deleteData, dirs)
    {
      RemoveKeeps(View(), id, deleteData, dirs);
      ValidTables();
      if closed || id !in torrents { return None; }
      var r := torrents[id];
      var goal := RemoveTargetLocked(r, deleteData, dirs);
      ForgetLocked(r, goal.name, dirs);
      return Some(goal);
    }

    method EndDelete(k: nat)
      requires Valid()
      modifies this`deleting
      ensures View() == EngineSteps.EndDelete(old(View()), k)
      ensures Valid()
    {
      EndDeleteKeeps(View(), k);
      deleting := deleting - {k};
    }
  }

  /** Cut the first x out of a slice, in place. */
  method CutFirst(s: seq<Id>, x: Id) returns (r: seq<Id>)
    ensures r == RemoveFirst(s, x)
  {
    var i := 0;
    while i < |s|
      invariant 0 <= i <= |s| && x !in s[..i]
    {
      if s[i] == x {
        RemoveFirstAt(s, x, i);
        return s[..i] + s[i + 1..];
      }
      i := i + 1;
    }
    assert s[..i] == s;
    return s;
  }

  /** The next id of a pass over the order: live, refused, or no match. */
  lemma NextMatch(s: State, ids: seq<Id>, i: nat, hex: string, self: Option<Ref>, before: seq<Id>)
    requires i < |ids|
    ensures FirstLive(s, ids[i..], hex, self) ==
      if MatchesLive(s, ids[i], hex, self) then Some(ids[i]) else FirstLive(s, ids[i + 1..], hex, self)
    ensures before + RefusedFor(s, ids[i..], hex, self) ==
      (if MatchesRefused(s, ids[i], hex, self) then before + [ids[i]] else before) +
      RefusedFor(s, ids[i + 1..], hex, self)
  {
  }

  lemma MarkedEntry(e: Tracked)
    requires !e.paused
    ensures PausedEntry(e, false).(userPaused := true) == PausedEntry(e, true)
  {
    var held := e.(paused := true);
    assert e.(paused := true, userPaused := e.userPaused || false) == held;
    if e.state == Errored {
      assert PausedEntry(e, false) == held;
    } else {
      assert PausedEntry(e, false) == held.(prePause := e.state, state := Paused);
    }
  }

  lemma PauseUnfolds(s: State, r: Ref, byUser: bool)
    requires r < |s.entries|
    ensures var e := s.entries[r];
      PauseEntry(s, r, byUser) == s.(entries := s.entries[r := PausedEntry(e, byUser)],
                                     queue := RemoveFirst(s.queue, e.id), libs := Gate(s, e.t, false, false).libs)
  {
  }

  lemma Overwrite<T>(s: seq<T>, i: nat, x: T, y: T)
    requires i < |s|
    ensures s[i := x][i := y] == s[i := y]
  {
  }

  /** The user's mark on top of pauseLocked. */
  lemma MarkedByUser(s: State, r: Ref)
    requires r < |s.entries| && !s.entries[r].paused
    ensures var s1 := PauseEntry(s, r, false);
      |s1.entries| == |s.entries| &&
      PauseEntry(s, r, true) == s1.(entries := s1.entries[r := s1.entries[r].(userPaused := true)])
  {
    var e := s.entries[r];
    PauseUnfolds(s, r, false);
    PauseUnfolds(s, r, true);
    MarkedEntry(e);
    Overwrite(s.entries, r, PausedEntry(e, false), PausedEntry(e, true));
  }

  lemma PauseNone(s: State)
    ensures PauseAll(s, []) == s
  {
  }

  lemma PausedTorrent(e: Tracked, byUser: bool)
    ensures PausedEntry(e, byUser).t == e.t
  {
    if e.state != Errored { } else { }
  }

  lemma PauseAllNext(s: State, ids: seq<Id>)
    requires ids != []
    ensures var l := Lookup(s, ids[0]);
      PauseAll(s, ids) ==
        PauseAll(if l.Some? && !s.entries[l.value].paused then PauseEntry(s, l.value, false) else s, ids[1..])
  {
  }
}
