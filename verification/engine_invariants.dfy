/** What holds of the engine in every state any interleaving reaches. */
module EngineInvariants {
  import opened Wrappers
  import opened EngineState
  import opened EngineSteps

  // ----- structure -----

  /** attach is under way, or the fetch that leads to it. */
  predicate Attaching(p: Phase) {
    p.Fetching? || p.Starting? || p.Joining? || p.Added? || p.Shut? || p.Joined? || p.Failed?
  }

  predicate HoldsSpec(p: Phase) {
    p.Starting? || p.Joining? || p.Added? || p.Shut? || p.Joined?
  }

  ghost predicate EntryOk(s: State, e: Tracked) {
    && (e.lib.Some? ==> e.lib.value < |s.libs|)
    && (e.t.Some? ==> e.t == e.lib)
    && (e.spec.Some? || e.url ==> e.phase.Parked? && !e.refused)
    && !(e.spec.Some? && e.url)
    && (e.byHash ==> !e.url && !e.phase.Fetching?)
    && (e.phase.Parked? || e.phase.Fetching? || e.phase.Starting? || e.phase.Joining? ==> e.lib.None?)
    && (e.phase.Added? || e.phase.Shut? || e.phase.Joined? ==> e.lib.Some?)
    && (Attaching(e.phase) ==> e.t.None?)
    && (e.phase.Awaiting? || e.phase.Refusing? || e.phase.Waiting? || e.phase.Wanted? ==> e.t.Some?)
    && (e.phase.Waiting? ==> InfoOf(s, e.t.value) == Some(e.phase.name))
    && (e.phase.Wanted? ==> InfoOf(s, e.t.value).Some?)
    && (e.byHash && HoldsSpec(e.phase) ==> e.phase.spec.hash == e.infoHash)
    && (e.byHash && e.spec.Some? ==> e.spec.value.hash == e.infoHash)
  }

  /** A library torrent that was never shared is held by the entry that created it and no other. */
  ghost predicate OwnLib(s: State, r: Ref)
    requires r < |s.entries|
  {
    var l := s.entries[r].lib;
    l.Some? && l.value < |s.libs| && !s.libs[l.value].shared ==> s.libs[l.value].creator == r
  }

  ghost predicate Structure(s: State) {
    && NoDup(s.order)
    && (forall id :: id in s.order <==> id in s.torrents)
    && (forall id | id in s.torrents :: s.torrents[id] < |s.entries| && s.entries[s.torrents[id]].id == id)
    && (forall r | 0 <= r < |s.entries| :: EntryOk(s, s.entries[r]))
    && (forall h | h in s.client :: s.client[h] < |s.libs|)
    && (forall l | 0 <= l < |s.libs| ::
          s.libs[l].creator < |s.entries| && s.entries[s.libs[l].creator].lib == Some(l))
    && (forall r | 0 <= r < |s.entries| :: OwnLib(s, r))
  }

  // ----- flags and queue -----

  ghost predicate FlagsOk(e: Tracked) {
    && (e.userPaused ==> e.paused)
    && (e.spacePaused ==> e.paused)
    && (e.paused ==> e.state == Paused || e.state == Errored)
    && (e.spacePaused ==> e.state == Errored && e.prePause == Downloading && e.t.Some?)
    && (e.state == Queued ==> Startable(e))
    && (e.state == Paused && e.prePause == Queued ==> Startable(e))
    && (e.refused ==> !Attaching(e.phase))
    && (!e.refused ==> SeedFlagsOk(e))
  }

  /** The seed policy stopped it while it ran, and no Resume came since. */
  predicate SeedStopped(e: Tracked) {
    e.paused && e.seedDone && e.prePause == Seeding
  }

  /** What the seed policy's flag goes with, and what an error is without the space check. */
  predicate SeedFlagsOk(e: Tracked) {
    && (e.seedDone && e.prePause == Seeding ==> e.t.Some? && !e.userPaused)
    && (e.seedDone && e.state != Errored ==> e.paused && e.state == Paused)
    && (e.spacePaused ==> !e.seedDone)
    && (e.state == Errored && !e.spacePaused ==> e.phase.Ended? && e.t.None?)
    && e.prePause != Errored
  }

  /** What the queue may hold: a queued entry, or one refused while it was queued, which nothing took off the queue. */
  predicate InLine(e: Tracked) {
    e.state == Queued || (e.refused && e.state == Errored)
  }

  /** The queue lists, once each, every tracked queued entry and nothing it could not start. */
  ghost predicate QueueOk(s: State) {
    && NoDup(s.queue)
    && (forall id | id in s.queue :: id in s.torrents && s.torrents[id] < |s.entries| &&
          var e := s.entries[s.torrents[id]]; Startable(e) && !e.paused && InLine(e))
    && (forall id | id in s.torrents && s.torrents[id] < |s.entries| && s.entries[s.torrents[id]].state == Queued ::
         id in s.queue)
  }

  ghost predicate Flags(s: State) {
    && (forall r | 0 <= r < |s.entries| :: FlagsOk(s.entries[r]))
    && QueueOk(s)
  }

  // ----- the transfer gate -----

  predicate Held(e: Tracked) {
    e.paused || e.state == Queued
  }

  /**
   Open exactly when neither paused nor queued; download alone exactly when the seed policy
   stopped it. The space check shuts download alone, which stays so if a Resume then queues
   the entry.
   */
  predicate GateLaw(e: Tracked, g: Torrent) {
    && (g.down && g.up <==> !Held(e))
    && (g.down && !g.up <==> SeedStopped(e))
    && (!g.down && g.up ==> e.state == Queued || (e.paused && e.spacePaused && !e.userPaused))
  }

  predicate JoiningGate(e: Tracked, g: Torrent) {
    && (e.phase.Added? ==> g.down && g.up)
    && (e.phase.Shut? ==> !g.down && !g.up)
    && (e.phase.Joined? ==> if e.phase.held then !g.down && !g.up else g.down && g.up)
  }

  ghost predicate GateOk(s: State, r: Ref)
    requires r < |s.entries|
  {
    var e := s.entries[r];
    e.lib.Some? && e.lib.value < |s.libs| && !s.libs[e.lib.value].shared && !e.refused ==>
      JoiningGate(e, s.libs[e.lib.value]) && (e.t.Some? ==> GateLaw(e, s.libs[e.lib.value]))
  }

  ghost predicate Gates(s: State) {
    forall r | 0 <= r < |s.entries| :: GateOk(s, r)
  }

  // ----- deletes -----

  /** A delete under way and a tracked entry past awaitDeletes never may share data. */
  ghost predicate Apart(s: State, d: InflightDelete, r: Ref)
    requires r < |s.entries|
  {
    var e := s.entries[r];
    IsTracked(s, r) && !e.refused && e.phase.Wanted? && e.t.Some? && InfoOf(s, e.t.value).Some?
    && MayBeSameName(d.name, InfoOf(s, e.t.value).value)
    ==> !MayBeSameDir(d.savePath, e.savePath, d.dirs)
  }

  ghost predicate Deletes(s: State) {
    && (forall k | k in s.deleting :: k < s.nextDelete)
    && (forall k, r | k in s.deleting && 0 <= r < |s.entries| :: Apart(s, s.deleting[k], r))
  }

  // ----- data left behind -----

  ghost predicate ShownDifferent(s: State, a: string, b: string) {
    a != b && ((a, b) in s.shown || (b, a) in s.shown)
  }

  ghost predicate LeftApart(s: State, q: Ref, r: Ref)
    requires q < |s.entries| && r < |s.entries|
  {
    var a, b := s.entries[q], s.entries[r];
    q != r && IsTracked(s, q) && IsTracked(s, r) && a.refused && b.refused && MayBeSameName(a.leftName, b.leftName)
    ==> ShownDifferent(s, a.savePath, b.savePath)
  }

  ghost predicate LeftData(s: State) {
    && (forall r | 0 <= r < |s.entries| ::
          (s.entries[r].leftName == "" || s.entries[r].sharedName == "") &&
          (!s.entries[r].refused ==> s.entries[r].leftName == "" && s.entries[r].sharedName == ""))
    && (forall q, r | 0 <= q < |s.entries| && 0 <= r < |s.entries| :: LeftApart(s, q, r))
  }

  // ----- infohashes -----

  ghost predicate HashApart(s: State, q: Ref, r: Ref)
    requires q < |s.entries| && r < |s.entries|
  {
    var a, b := s.entries[q], s.entries[r];
    q != r && IsTracked(s, q) && IsTracked(s, r) && a.byHash && b.byHash && a.infoHash != "" ==>
      a.infoHash != b.infoHash
  }

  ghost predicate Hashes(s: State) {
    forall q, r | 0 <= q < |s.entries| && 0 <= r < |s.entries| :: HashApart(s, q, r)
  }

  ghost predicate Inv(s: State) {
    Structure(s) && Flags(s) && Gates(s) && Deletes(s) && LeftData(s) && Hashes(s)
  }
}
