/** Whom the library can hand one torrent to twice, exactly when it does, and which runs never do. */
module EngineSharing {
  import opened Wrappers
  import opened EngineState
  import opened EngineSteps
  import opened EngineInvariants
  import opened EngineProofs
  import opened EngineEffects
  import opened EngineSlots

  /** The effect of an event on one entry and one torrent. */
  function AtEntry(q: Ref, l: LibRef): At {
    At(q, l, "", Numbered(0), 0)
  }

  function LibOf(e: Tracked): LibRef {
    if e.lib.Some? then e.lib.value else 0
  }

  // ----- exactly when a torrent is shared -----

  /** No torrent was ever handed to two entries. */
  ghost predicate Unshared(s: State) {
    forall l | 0 <= l < |s.libs| :: !s.libs[l].shared
  }

  /** No AddTorrentSpec of the run is answered with a torrent the client already had. */
  ghost predicate NeverHanded(s: State, evs: seq<Event>)
    decreases |evs|
  {
    evs != [] ==> !Handed(s, evs[0]) && NeverHanded(Apply(s, evs[0]), evs[1..])
  }

  lemma EventShares(s: State, ev: Event)
    requires Inv(s)
    ensures Unshared(Apply(s, ev)) <==> Unshared(s) && !Handed(s, ev)
  {
    hide Inv, Apply;
    var s' := Apply(s, ev);
    forall l: LibRef
      ensures LibEffect(s, ev, s', l, "")
    {
      EventEffect(s, ev, AtEntry(0, l));
    }
    if Unshared(s) && !Handed(s, ev) {
      forall l | 0 <= l < |s'.libs|
        ensures !s'.libs[l].shared
      {
        assert LibEffect(s, ev, s', l, "");
      }
    }
    if Handed(s, ev) {
      var h := s.entries[ev.r].phase.spec.hash;
      ClientOf(s, h);
      assert LibEffect(s, ev, s', s.client[h], "") && HandedTo(s, ev, s.client[h]);
    }
    if !Unshared(s) {
      var l :| 0 <= l < |s.libs| && s.libs[l].shared;
      assert LibEffect(s, ev, s', l, "");
    }
  }

  /**
   A torrent is shared after a run if and only if one was before, or the run hands an entry one the
   client already had.
   */
  lemma {:induction false} SharedExactly(s: State, evs: seq<Event>)
    requires Inv(s)
    ensures Unshared(Run(s, evs)) <==> Unshared(s) && NeverHanded(s, evs)
    decreases |evs|
  {
    if evs != [] {
      hide Inv, Apply, Unshared, Handed;
      EventShares(s, evs[0]);
      ApplyKeeps(s, evs[0]);
      SharedExactly(Apply(s, evs[0]), evs[1..]);
    }
  }

  /** Then the gate of every published, unrefused entry follows its pause, and a held one joins shut. */
  lemma UnsharedGates(maxActive: nat, evs: seq<Event>, r: Ref)
    requires NeverHanded(Init(maxActive), evs)
    ensures var s := Run(Init(maxActive), evs);
      r < |s.entries| && !s.entries[r].refused && s.entries[r].lib.Some? ==>
        var e := s.entries[r];
        && e.lib.value < |s.libs| && JoiningGate(e, s.libs[e.lib.value])
        && (e.t.Some? ==> e.t == e.lib && GateLaw(e, s.libs[e.lib.value]))
  {
    var s := Run(Init(maxActive), evs);
    SharedExactly(Init(maxActive), evs);
    RunKeeps(Init(maxActive), evs);
    hide Inv, Run, NeverHanded;
    if r < |s.entries| { LocalOf(s, r); }
  }

  // ----- a library torrent is of its holder's infohash -----

  ghost predicate HashOk(s: State, r: Ref)
    requires r < |s.entries|
  {
    var e := s.entries[r];
    && (e.byHash ==> e.infoHash != "")
    && (e.lib.Some? && e.lib.value < |s.libs| ==>
          var h := s.libs[e.lib.value].hash;
          (HoldsSpec(e.phase) ==> h == e.phase.spec.hash) && (e.t.Some? || e.byHash ==> h == e.infoHash))
  }

  ghost predicate ClientOk(s: State, h: string) {
    h in s.client ==> s.client[h] < |s.libs| && s.libs[s.client[h]].hash == h
  }

  ghost predicate LibHashes(s: State) {
    (forall r | 0 <= r < |s.entries| :: HashOk(s, r)) && (forall h | h in s.client :: ClientOk(s, h))
  }

  lemma HashKept(s: State, ev: Event, q: Ref)
    requires Inv(s) && q < |s.entries| && HashOk(s, q) && !ev.EvAddTorrent?
    ensures q < |Apply(s, ev).entries| && HashOk(Apply(s, ev), q)
  {
    hide Inv, Apply;
    LocalOf(s, q);
    EventEffect(s, ev, AtEntry(q, LibOf(s.entries[q])));
  }

  lemma FreshHash(s: State, ev: Event)
    requires Adds(ev) && AppendsFresh(s, Apply(s, ev))
    ensures HashOk(Apply(s, ev), |s.entries|)
  {
    hide Apply;
  }

  lemma ClientKept(s: State, ev: Event, h: string)
    requires Inv(s) && LibHashes(s)
    ensures ClientOk(Apply(s, ev), h)
  {
    hide Inv, Apply;
    EventEffect(s, ev, At(0, if h in s.client then s.client[h] else 0, h, Numbered(0), 0));
    assert h in s.client ==> ClientOk(s, h);
  }

  lemma JoinedHash(s: State, r: Ref)
    requires Inv(s) && LibHashes(s) && r < |s.entries| && s.entries[r].phase.Joining?
    ensures r < |AddTorrent(s, r).entries| && HashOk(AddTorrent(s, r), r)
  {
    hide Inv, AddTorrent, JoinedEntry;
    var e, h := s.entries[r], s.entries[r].phase.spec.hash;
    LocalOf(s, r);
    AddTorrentUnfolds(s, r);
    assert HashOk(s, r) && (h in s.client ==> ClientOk(s, h));
    JoinedGoes(e, |s.libs|);
    JoinedLib(e, |s.libs|);
    if h in s.client { JoinedGoes(e, s.client[h]); JoinedLib(e, s.client[h]); }
  }

  lemma OtherHash(s: State, r: Ref, q: Ref)
    requires Inv(s) && LibHashes(s) && r < |s.entries| && s.entries[r].phase.Joining? && q < |s.entries| && q != r
    ensures q < |AddTorrent(s, r).entries| && HashOk(AddTorrent(s, r), q)
  {
    hide Inv, AddTorrent, JoinedEntry;
    LocalOf(s, q);
    AddTorrentUnfolds(s, r);
    assert HashOk(s, q);
  }

  lemma JoinHashes(s: State, r: Ref)
    requires Inv(s) && LibHashes(s)
    ensures forall q | 0 <= q < |AddTorrent(s, r).entries| :: HashOk(AddTorrent(s, r), q)
  {
    hide Inv, AddTorrent, HashOk;
    if r < |s.entries| && s.entries[r].phase.Joining? {
      JoinedHash(s, r);
      JoinEntries(s, r);
      forall q | 0 <= q < |AddTorrent(s, r).entries|
        ensures HashOk(AddTorrent(s, r), q)
      {
        if q != r { OtherHash(s, r, q); }
      }
    } else {
      AddTorrentNothing(s, r);
    }
  }

  lemma JoinEntries(s: State, r: Ref)
    requires r < |s.entries| && s.entries[r].phase.Joining?
    ensures |AddTorrent(s, r).entries| == |s.entries|
  {
    hide AddTorrent, JoinedEntry;
    AddTorrentUnfolds(s, r);
  }

  lemma EntryCount(s: State, ev: Event)
    requires Inv(s)
    ensures !Adds(ev) || Apply(s, ev) == s ==> |Apply(s, ev).entries| == |s.entries|
    ensures Adds(ev) && Apply(s, ev) != s ==> AppendsFresh(s, Apply(s, ev))
  {
    hide Inv, Apply, Appends, IsFresh;
    EventEffect(s, ev, AtEntry(0, 0));
    if Adds(ev) { AdditionAppends(s, ev); }
  }

  lemma EventHashes(s: State, ev: Event)
    requires Inv(s) && LibHashes(s)
    ensures LibHashes(Apply(s, ev))
  {
    hide Inv, Apply, HashOk, ClientOk, AppendsFresh;
    var s' := Apply(s, ev);
    forall h | h in s'.client
      ensures ClientOk(s', h)
    {
      ClientKept(s, ev, h);
    }
    if ev.EvAddTorrent? {
      JoinedHashes(s, ev.r);
    } else {
      EntryCount(s, ev);
      AppendedCount(s, s');
      forall q | 0 <= q < |s'.entries|
        ensures HashOk(s', q)
      {
        if q < |s.entries| { HashKept(s, ev, q); } else { FreshHash(s, ev); }
      }
    }
  }

  lemma AppendedCount(s: State, s': State)
    ensures AppendsFresh(s, s') ==> |s'.entries| == |s.entries| + 1
  {
  }

  lemma JoinedHashes(s: State, r: Ref)
    requires Inv(s) && LibHashes(s)
    ensures forall q | 0 <= q < |Apply(s, EvAddTorrent(r)).entries| :: HashOk(Apply(s, EvAddTorrent(r)), q)
  {
    hide Inv, HashOk, AddTorrent;
    JoinHashes(s, r);
  }

  lemma {:induction false} RunHashes(s: State, evs: seq<Event>)
    requires Inv(s) && LibHashes(s)
    ensures LibHashes(Run(s, evs))
    decreases |evs|
  {
    if evs != [] {
      hide Inv, Apply, LibHashes;
      EventHashes(s, evs[0]);
      ApplyKeeps(s, evs[0]);
      RunHashes(Apply(s, evs[0]), evs[1..]);
    }
  }

  // ----- whom a torrent can be shared with -----

  /** Of two entries, one is no longer tracked, or one had only an address when it was added. */
  predicate MayShare(s: State, q: Ref, r: Ref)
    requires q < |s.entries| && r < |s.entries|
  {
    !IsTracked(s, q) || !IsTracked(s, r) || !s.entries[q].byHash || !s.entries[r].byHash
  }

  lemma SameHashShares(s: State, r: Ref, q: Ref, h: string)
    requires Inv(s) && LibHashes(s) && r < |s.entries| && s.entries[r].phase.Joining? &&
      s.entries[r].phase.spec.hash == h
    requires q < |s.entries| && s.entries[q].lib.Some? && s.entries[q].lib.value < |s.libs| &&
      s.libs[s.entries[q].lib.value].hash == h
    ensures q != r && MayShare(s, q, r)
  {
    assert EntryOk(s, s.entries[r]) && HashOk(s, q) && HashOk(s, r) && HashApart(s, q, r);
  }

  lemma JoinShares(s: State, r: Ref, q: Ref)
    requires Inv(s) && LibHashes(s) && r < |s.entries| && s.entries[r].phase.Joining? && q < |s.entries|
    requires s.entries[q].lib.Some? && AddTorrent(s, r).entries[r].lib == s.entries[q].lib
    ensures q != r && MayShare(s, q, r)
  {
    hide Inv, AddTorrent, MayShare, JoinedEntry;
    var e, h := s.entries[r], s.entries[r].phase.spec.hash;
    LocalOf(s, r);
    LocalOf(s, q);
    AddTorrentUnfolds(s, r);
    assert h in s.client ==> ClientOk(s, h);
    JoinedGoes(e, |s.libs|);
    JoinedLib(e, |s.libs|);
    if h in s.client { JoinedGoes(e, s.client[h]); JoinedLib(e, s.client[h]); }
    SameHashShares(s, r, q, h);
  }

  lemma CreatorHolds(s: State, l: LibRef)
    requires Inv(s) && l < |s.libs|
    ensures s.libs[l].creator < |s.entries| && s.entries[s.libs[l].creator].lib == Some(l)
  {
  }

  lemma JoinSharesAny(s: State, r: Ref, l: LibRef)
    requires Inv(s) && LibHashes(s) && l < |s.libs| && !s.libs[l].shared
    requires l < |AddTorrent(s, r).libs| && AddTorrent(s, r).libs[l].shared
    ensures var c, s' := s.libs[l].creator, AddTorrent(s, r);
      && r < |s.entries| && r < |s'.entries| && c < |s.entries| && s.entries[c].lib == Some(l)
      && s'.entries[r].lib == Some(l)
      && c != r && MayShare(s, c, r)
  {
    hide Inv, LibHashes, MayShare, AddTorrent, JoinedEntry;
    CreatorHolds(s, l);
    HandedLibs(s, r, l);
    AddTorrentUnfolds(s, r);
    LocalOf(s, r);
    JoinedGoes(s.entries[r], l);
    JoinedLib(s.entries[r], l);
    JoinShares(s, r, s.libs[l].creator);
  }

  lemma HandedLibs(s: State, r: Ref, l: LibRef)
    requires Inv(s) && l < |s.libs| && !s.libs[l].shared && l < |AddTorrent(s, r).libs| &&
      AddTorrent(s, r).libs[l].shared
    ensures HandedTo(s, EvAddTorrent(r), l)
  {
    hide Inv, AddTorrent;
    EventEffect(s, EvAddTorrent(r), AtEntry(0, l));
  }

  /**
   In every run: an entry whose attach is handed a torrent another entry holds shares it with
   one that may share, and a torrent becomes shared only so, with the entry it was made for.
   */
  lemma SharedOnlyWith(maxActive: nat, evs: seq<Event>, r: Ref, q: Ref, l: LibRef)
    ensures var s := Run(Init(maxActive), evs); var s' := AddTorrent(s, r);
      r < |s.entries| && s.entries[r].phase.Joining? && q < |s.entries| && s.entries[q].lib.Some? &&
        s'.entries[r].lib == s.entries[q].lib
      ==> q != r && MayShare(s, q, r)
    ensures var s := Run(Init(maxActive), evs); var s' := AddTorrent(s, r);
      l < |s.libs| && l < |s'.libs| && !s.libs[l].shared && s'.libs[l].shared ==>
        var c := s.libs[l].creator;
        r < |s.entries| && c < |s.entries| && s.entries[c].lib == Some(l) && s'.entries[r].lib == Some(l) && c != r &&
          MayShare(s, c, r)
  {
    RunKeeps(Init(maxActive), evs);
    RunHashes(Init(maxActive), evs);
    hide Inv, LibHashes, Run, AddTorrent, MayShare;
    var s := Run(Init(maxActive), evs);
    var s' := AddTorrent(s, r);
    if r < |s.entries| && s.entries[r].phase.Joining? && q < |s.entries| && s.entries[q].lib.Some? &&
        s'.entries[r].lib == s.entries[q].lib {
      JoinShares(s, r, q);
    }
    if l < |s.libs| && l < |s'.libs| && !s.libs[l].shared && s'.libs[l].shared { JoinSharesAny(s, r, l); }
  }

  // ----- runs that hand no torrent twice -----

  /**
   Entry r waits in the queue to attach a torrent of infohash h, is attaching it, or holds the
   client's torrent of it.
   */
  predicate Engaged(s: State, r: Ref, h: string)
    requires r < |s.entries|
  {
    var e := s.entries[r];
    || (e.spec.Some? && e.spec.value.hash == h && IsTracked(s, r))
    || (HoldsSpec(e.phase) && e.phase.spec.hash == h)
    || (e.lib.Some? && h in s.client && s.client[h] == e.lib.value)
  }

  ghost predicate SoleHolder(s: State, q: Ref, r: Ref, h: string)
    requires q < |s.entries| && r < |s.entries|
  {
    q != r ==> !Engaged(s, q, h) || !Engaged(s, r, h)
  }

  /** Fallen, and yet the client holds its torrent. */
  predicate Doomed(s: State, r: Ref)
    requires r < |s.entries|
  {
    var e := s.entries[r];
    !s.closed && Fallen(e) && e.lib.Some? && Live(s, e.lib.value)
  }

  /** At most one entry has to do with a torrent of any infohash, and none that is to let go of it. */
  ghost predicate Solo(s: State) {
    && Unshared(s) && LibHashes(s)
    && (forall r | 0 <= r < |s.entries| :: !Doomed(s, r))
    && (forall q, r, h | 0 <= q < |s.entries| && 0 <= r < |s.entries| :: SoleHolder(s, q, r, h))
  }

  /**
   Whoever has to do with a torrent of infohash h is tracked and records h, and was not refused
   if the engine closed meanwhile: a claim of h finds it.
   */
  ghost predicate Settled(s: State, h: string) {
    forall r | 0 <= r < |s.entries| && Engaged(s, r, h) ::
      IsTracked(s, r) && s.entries[r].infoHash == h && (s.closed ==> !s.entries[r].refused)
  }

  /** The event claims infohash h: an Add of it, or a fetched address that turns out to be of it. */
  predicate Claiming(s: State, ev: Event, h: string) {
    match ev
    case EvAdd(spec, _, _, _) => spec.hash == h
    case EvFetchClaims(r, spec, _) => r < |s.entries| && s.entries[r].phase == Fetching && spec.hash == h
    case _ => false
  }

  /**
   A run in which every claim finds its infohash settled: each Drop was made, and each address
   published, before it.
   */
  ghost predicate Orderly(s: State, evs: seq<Event>)
    decreases |evs|
  {
    evs != [] ==> (forall h | Claiming(s, evs[0], h) :: Settled(s, h)) && Orderly(Apply(s, evs[0]), evs[1..])
  }

  /** An event that claims nothing and joins nothing engages no entry. */
  lemma EngagedBefore(s: State, ev: Event, q: Ref, h: string)
    requires Inv(s) && q < |s.entries| && !ev.EvAddTorrent? && q < |Apply(s, ev).entries|
    ensures Engaged(Apply(s, ev), q, h) ==> Engaged(s, q, h) || (ev.EvFetchClaims? && ev.r == q && ev.spec.hash == h)
  {
    hide Inv, Apply;
    LocalOf(s, q);
    EventEffect(s, ev, At(q, 0, h, Numbered(0), 0));
  }

  lemma DoomedBefore(s: State, ev: Event, q: Ref)
    requires Inv(s) && LibHashes(s) && q < |s.entries| && !ev.EvAddTorrent? && !Doomed(s, q)
    requires q < |Apply(s, ev).entries| && Unshared(Apply(s, ev))
    ensures !Doomed(Apply(s, ev), q)
  {
    hide Inv, Apply, LibHashes;
    var e := s.entries[q];
    LocalOf(s, q);
    EventEffect(s, ev, At(q, LibOf(e), if e.lib.Some? then s.libs[e.lib.value].hash else "", Numbered(0), 0));
  }

  /** An entry engaged with a settled infohash is neither refused nor unknown to a claim of it. */
  lemma EngagedRecords(s: State, q: Ref, h: string)
    requires Inv(s) && Solo(s) && q < |s.entries| && Engaged(s, q, h) && Settled(s, h)
    ensures IsTracked(s, q) && s.entries[q].infoHash == h && !s.entries[q].refused && s.entries[q].phase != Fetching
  {
    hide Inv;
    var e := s.entries[q];
    LocalOf(s, q);
    assert !Doomed(s, q) && (h in s.client ==> ClientOk(s, h));
  }

  /** So a claim of h by another finds it. */
  lemma EngagedClaims(s: State, q: Ref, h: string, self: Option<Ref>, dest: string, view: LeftView)
    requires Inv(s) && Solo(s) && q < |s.entries| && Engaged(s, q, h) && Settled(s, h) && h != "" && Some(q) != self
    ensures !DecideClaim(s, h, self, dest, view).ClaimClear?
  {
    hide Inv, Solo, Engaged, Settled;
    StructureOf(s);
    EngagedRecords(s, q, h);
    assert s.entries[q].id in s.order && MatchesLive(s, s.entries[q].id, h, self);
  }

  lemma OneSolo(s: State, s': State, q: Ref, r: Ref, h: string)
    requires q < |s.entries| && r < |s.entries| && q < |s'.entries| && r < |s'.entries|
    requires SoleHolder(s, q, r, h)
    requires Engaged(s', q, h) ==> Engaged(s, q, h)
    requires Engaged(s', r, h) ==> Engaged(s, r, h)
    ensures SoleHolder(s', q, r, h)
  {
  }

  /** Every old entry is engaged with no more than before, and the new one, or r, with what no other was. */
  lemma SoloKept(s: State, s': State, r: Ref)
    requires Solo(s) && LibHashes(s') && Unshared(s') && |s.entries| <= |s'.entries| <= |s.entries| + 1
    requires |s'.entries| > |s.entries| ==> r == |s.entries|
    requires forall q | 0 <= q < |s'.entries| :: !Doomed(s', q)
    requires forall q, h | 0 <= q < |s.entries| && q != r :: Engaged(s', q, h) ==> Engaged(s, q, h)
    requires forall q, h | 0 <= q < |s.entries| && q != r && r < |s'.entries| && Engaged(s', r, h) :: !Engaged(s, q, h)
    ensures Solo(s')
  {
    hide Engaged, Doomed, LibHashes, Unshared;
    forall p, q, h | 0 <= p < |s'.entries| && 0 <= q < |s'.entries|
      ensures SoleHolder(s', p, q, h)
    {
      if p < |s.entries| && q < |s.entries| { assert SoleHolder(s, p, q, h); }
    }
  }

  // ----- additions -----

  lemma FreshEngaged(s: State, s': State, h: string)
    requires AppendsFresh(s, s') && Engaged(s', |s.entries|, h)
    ensures s'.entries[|s.entries|].byHash && s'.entries[|s.entries|].infoHash == h
    ensures !Doomed(s', |s.entries|)
  {
  }

  lemma FreshUndoomed(s: State, s': State)
    requires AppendsFresh(s, s')
    ensures !Doomed(s', |s.entries|)
  {
  }

  /** Only an Add appends an entry that is engaged, and it claims what that is engaged with. */
  lemma FreshClaims(s: State, ev: Event, h: string)
    requires Adds(ev) && Apply(s, ev) != s && AppendsFresh(s, Apply(s, ev)) && Engaged(Apply(s, ev), |s.entries|, h)
    ensures ev.EvAdd? && ev.spec.hash == h && h != "" && !s.closed &&
      DecideClaim(s, h, None, ev.dest, ev.view).ClaimClear?
  {
    hide AppendsFresh, Engaged, DecideClaim, FindOrTrack, TrackURL, TrackErrored;
    FreshEngaged(s, Apply(s, ev), h);
    match ev
    case EvAdd(spec, dest, prov, view) => if spec.hash != "" { AddAppends(s, spec, dest, prov, view); }
    case EvAddURL(dest, prov) => URLAppends(s, dest, prov);
    case EvRestoreErrored(hex, dest, prov, left, dirs) => ErroredAppends(s, hex, dest, prov, left, dirs);
  }

  lemma AddAlone(s: State, ev: Event, q: Ref, h: string)
    requires Inv(s) && Solo(s) && Adds(ev) && AppendsFresh(s, Apply(s, ev)) && Apply(s, ev) != s
    requires forall h | Claiming(s, ev, h) :: Settled(s, h)
    requires Engaged(Apply(s, ev), |s.entries|, h) && q < |s.entries|
    ensures !Engaged(s, q, h)
  {
    hide Inv, Solo, Apply, AppendsFresh, Engaged, Settled, DecideClaim;
    FreshClaims(s, ev, h);
    assert Claiming(s, ev, h);
    if Engaged(s, q, h) { EngagedClaims(s, q, h, None, ev.dest, ev.view); }
  }

  lemma AddSolo(s: State, ev: Event)
    requires Inv(s) && Solo(s) && Adds(ev) && forall h | Claiming(s, ev, h) :: Settled(s, h)
    ensures Solo(Apply(s, ev))
  {
    hide Inv, Apply, Engaged, Doomed, LibHashes, Unshared, AppendsFresh, Claiming;
    var s' := Apply(s, ev);
    EntryCount(s, ev);
    if s' != s {
      AppendedCount(s, s');
      EventHashes(s, ev);
      EventShares(s, ev);
      forall q | 0 <= q < |s'.entries|
        ensures !Doomed(s', q)
      {
        if q < |s.entries| { DoomedBefore(s, ev, q); } else { FreshUndoomed(s, s'); }
      }
      forall q, h | 0 <= q < |s.entries|
        ensures Engaged(s', q, h) ==> Engaged(s, q, h)
        ensures Engaged(s', |s.entries|, h) ==> !Engaged(s, q, h)
      {
        EngagedBefore(s, ev, q, h);
        if Engaged(s', |s.entries|, h) { AddAlone(s, ev, q, h); }
      }
      SoloKept(s, s', |s.entries|);
    }
  }

  // ----- fetched addresses -----

  /** A claim that is answered begins no attach. */
  lemma FetchAnswered(s: State, r: Ref, spec: Spec, view: LeftView)
    requires Inv(s) && r < |s.entries| && spec.hash != "" && s.entries[r].phase == Fetching
    requires !DecideClaim(s, spec.hash, Some(r), s.entries[r].savePath, view).ClaimClear?
    ensures var s' := FetchClaims(s, r, spec, view);
      r < |s'.entries| && s'.entries[r].phase.Ended? && s'.entries[r].lib.None? && s'.entries[r].spec.None?
  {
    hide Inv, DecideClaim, UntrackAll;
    LocalOf(s, r);
    var e := FailEntry(s.entries[r]).(phase := Ended);
    match DecideClaim(s, spec.hash, Some(r), s.entries[r].savePath, view)
    case ClaimExisting(_) => assert FetchClaims(s, r, spec, view) == Put(s, r, e);
    case ClaimLeftData(_, _) => assert FetchClaims(s, r, spec, view) == Put(s, r, e);
  }

  lemma FetchIdle(s: State, r: Ref, spec: Spec, view: LeftView)
    requires spec.hash == "" || r >= |s.entries| || s.entries[r].phase != Fetching
    ensures Apply(s, EvFetchClaims(r, spec, view)) == s
  {
  }

  lemma FetchAlone(s: State, ev: Event, q: Ref, h: string)
    requires Inv(s) && Solo(s) && ev.EvFetchClaims? && ev.spec.hash != "" && ev.r < |s.entries| &&
      s.entries[ev.r].phase == Fetching
    requires Settled(s, ev.spec.hash) && q < |s.entries| && q != ev.r
    requires ev.r < |Apply(s, ev).entries| && Engaged(Apply(s, ev), ev.r, h)
    ensures !Engaged(s, q, h)
  {
    hide Inv, Solo, Settled, DecideClaim, FetchClaims;
    var r, k := ev.r, ev.spec.hash;
    LocalOf(s, r);
    EngagedBefore(s, ev, r, h);
    if DecideClaim(s, k, Some(r), s.entries[r].savePath, ev.view).ClaimClear? {
      if Engaged(s, q, k) { EngagedClaims(s, q, k, Some(r), s.entries[r].savePath, ev.view); }
    } else {
      FetchAnswered(s, r, ev.spec, ev.view);
    }
  }

  // ----- joins -----

  /** The entry a torrent of the client was made for. */
  function HolderOf(s: State, h: string): Ref {
    if h in s.client && s.client[h] < |s.libs| then s.libs[s.client[h]].creator else 0
  }

  lemma HolderEngaged(s: State, h: string)
    requires Inv(s) && h in s.client
    ensures HolderOf(s, h) < |s.entries| && Engaged(s, HolderOf(s, h), h) && s.entries[HolderOf(s, h)].lib.Some?
  {
  }

  lemma JoinsAlone(s: State, r: Ref)
    requires Inv(s) && Solo(s) && r < |s.entries| && s.entries[r].phase.Joining?
    ensures s.entries[r].phase.spec.hash !in s.client
  {
    hide Inv, HolderOf;
    var h := s.entries[r].phase.spec.hash;
    LocalOf(s, r);
    assert HolderOf(s, h) < |s.entries| ==> SoleHolder(s, HolderOf(s, h), r, h);
    if h in s.client { HolderEngaged(s, h); }
  }

  lemma JoinEngaged(s: State, r: Ref, q: Ref, h: string)
    requires Inv(s) && r < |s.entries| && s.entries[r].phase.Joining? && s.entries[r].phase.spec.hash !in s.client
    requires q < |s.entries| && q < |AddTorrent(s, r).entries|
    ensures Engaged(AddTorrent(s, r), q, h) ==> Engaged(s, q, h)
  {
    hide Inv, AddTorrent, JoinedEntry;
    LocalOf(s, q);
    LocalOf(s, r);
    ClientOf(s, h);
    AddTorrentUnfolds(s, r);
    JoinedGoes(s.entries[r], |s.libs|);
    JoinedLib(s.entries[r], |s.libs|);
  }

  lemma JoinUndoomed(s: State, r: Ref, q: Ref)
    requires Inv(s) && r < |s.entries| && s.entries[r].phase.Joining? && s.entries[r].phase.spec.hash !in s.client
    requires q < |s.entries| && q < |AddTorrent(s, r).entries| && !Doomed(s, q)
    ensures !Doomed(AddTorrent(s, r), q)
  {
    hide Inv, AddTorrent, Fallen, Live;
    LocalOf(s, q);
    LocalOf(s, r);
    JoinMoves(s, r, q);
    var e := s.entries[q];
    if q != r && e.lib.Some? { JoinKeepsDead(s, r, e.lib.value); }
  }

  /** A join leaves the other entries as they were and its own not fallen. */
  lemma JoinMoves(s: State, r: Ref, q: Ref)
    requires r < |s.entries| && s.entries[r].phase.Joining? && s.entries[r].phase.spec.hash !in s.client
    requires Local(s, r) && q < |s.entries|
    ensures var s' := AddTorrent(s, r);
      && s'.closed == s.closed && q < |s'.entries|
      && (if q == r then !Fallen(s'.entries[q]) else s'.entries[q] == s.entries[q])
  {
    hide AddTorrent, JoinedEntry, Fallen;
    AddTorrentUnfolds(s, r);
    JoinedUnfallen(s, s.entries[r], |s.libs|);
  }

  /** A torrent the client does not hold it does not come to hold. */
  lemma JoinKeepsDead(s: State, r: Ref, l: LibRef)
    requires r < |s.entries| && s.entries[r].phase.Joining? && s.entries[r].phase.spec.hash !in s.client && l < |s.libs|
    ensures Live(AddTorrent(s, r), l) ==> Live(s, l)
  {
    hide AddTorrent, JoinedEntry;
    AddTorrentUnfolds(s, r);
    assert AddTorrent(s, r).libs[l] == s.libs[l];
  }

  lemma JoinedUnfallen(s: State, e: Tracked, l: LibRef)
    requires e.phase.Joining? && EntryOk(s, e) && FlagsOk(e)
    ensures !Fallen(JoinedEntry(e, l))
  {
    hide JoinedEntry;
    JoinedGoes(e, l);
    JoinedLib(e, l);
  }

  lemma JoinSolo(s: State, r: Ref)
    requires Inv(s) && Solo(s)
    ensures Solo(AddTorrent(s, r))
  {
    hide Inv, AddTorrent, Engaged, Doomed, LibHashes, Unshared;
    if r < |s.entries| && s.entries[r].phase.Joining? {
      var s' := AddTorrent(s, r);
      JoinsAlone(s, r);
      JoinEntries(s, r);
      JoinKeeps(s, r);
      forall q | 0 <= q < |s'.entries|
        ensures !Doomed(s', q)
      {
        JoinUndoomed(s, r, q);
      }
      forall q, h | 0 <= q < |s.entries|
        ensures Engaged(s', q, h) ==> Engaged(s, q, h)
      {
        JoinEngaged(s, r, q, h);
      }
      forall p, q, h | 0 <= p < |s'.entries| && 0 <= q < |s'.entries|
        ensures SoleHolder(s', p, q, h)
      {
        assert SoleHolder(s, p, q, h);
        OneSolo(s, s', p, q, h);
      }
    } else {
      AddTorrentNothing(s, r);
    }
  }

  lemma JoinKeeps(s: State, r: Ref)
    requires Inv(s) && Unshared(s) && LibHashes(s) && r < |s.entries| && s.entries[r].phase.Joining?
    requires s.entries[r].phase.spec.hash !in s.client
    ensures Unshared(AddTorrent(s, r)) && LibHashes(AddTorrent(s, r))
  {
    hide Inv, AddTorrent, Unshared, LibHashes;
    EventShares(s, EvAddTorrent(r));
    EventHashes(s, EvAddTorrent(r));
  }

  // ----- every event, every run -----

  lemma QuietSolo(s: State, ev: Event)
    requires Inv(s) && Solo(s) && !Adds(ev) && !ev.EvAddTorrent?
    requires ev.EvFetchClaims? ==> forall h | Claiming(s, ev, h) :: Settled(s, h)
    requires ev.EvFetchClaims? ==> ev.spec.hash != "" && ev.r < |s.entries| && s.entries[ev.r].phase == Fetching
    ensures Solo(Apply(s, ev))
  {
    hide Inv, Apply, Engaged, Doomed, LibHashes, Unshared;
    var s' := Apply(s, ev);
    EntryCount(s, ev);
    EventHashes(s, ev);
    EventShares(s, ev);
    forall q | 0 <= q < |s'.entries|
      ensures !Doomed(s', q)
    {
      DoomedBefore(s, ev, q);
    }
    var r := if ev.EvFetchClaims? then ev.r else |s.entries|;
    forall q, h | 0 <= q < |s.entries| && q != r
      ensures Engaged(s', q, h) ==> Engaged(s, q, h)
      ensures r < |s'.entries| && Engaged(s', r, h) ==> !Engaged(s, q, h)
    {
      EngagedBefore(s, ev, q, h);
      if r < |s'.entries| && Engaged(s', r, h) {
        assert Claiming(s, ev, ev.spec.hash);
        FetchAlone(s, ev, q, h);
      }
    }
    SoloKept(s, s', r);
  }

  /** Every event of an orderly run keeps at most one entry engaged with any infohash. */
  lemma EventSolo(s: State, ev: Event)
    requires Inv(s) && Solo(s) && forall h | Claiming(s, ev, h) :: Settled(s, h)
    ensures Solo(Apply(s, ev))
  {
    hide Inv, Solo, Settled, Claiming, AddTorrent, FetchClaims;
    if Adds(ev) {
      AddSolo(s, ev);
    } else if ev.EvAddTorrent? {
      JoinSolo(s, ev.r);
    } else if ev.EvFetchClaims? && (ev.spec.hash == "" || ev.r >= |s.entries| || s.entries[ev.r].phase != Fetching) {
      FetchIdle(s, ev.r, ev.spec, ev.view);
    } else {
      QuietSolo(s, ev);
    }
  }

  lemma {:induction false} OrderlyNeverHands(s: State, evs: seq<Event>)
    requires Inv(s) && Solo(s) && Orderly(s, evs)
    ensures NeverHanded(s, evs)
    decreases |evs|
  {
    if evs != [] {
      hide Inv, Solo, Apply, Settled, Claiming;
      EventSolo(s, evs[0]);
      SoloHandsNone(s, evs[0]);
      ApplyKeeps(s, evs[0]);
      OrderlyNeverHands(Apply(s, evs[0]), evs[1..]);
    }
  }

  lemma SoloHandsNone(s: State, ev: Event)
    requires Inv(s) && Solo(s)
    ensures !Handed(s, ev)
  {
    hide Inv, Solo;
    if ev.EvAddTorrent? && ev.r < |s.entries| && s.entries[ev.r].phase.Joining? { JoinsAlone(s, ev.r); }
  }

  /** In an orderly run no torrent is ever shared, and every gate is as it should be. */
  lemma OrderlyGates(maxActive: nat, evs: seq<Event>, r: Ref)
    requires Orderly(Init(maxActive), evs)
    ensures Unshared(Run(Init(maxActive), evs))
    ensures var s := Run(Init(maxActive), evs);
      r < |s.entries| && !s.entries[r].refused && s.entries[r].lib.Some? ==>
        var e := s.entries[r];
        && e.lib.value < |s.libs| && JoiningGate(e, s.libs[e.lib.value])
        && (e.t.Some? ==> e.t == e.lib && GateLaw(e, s.libs[e.lib.value]))
  {
    OrderlyNeverHands(Init(maxActive), evs);
    SharedExactly(Init(maxActive), evs);
    UnsharedGates(maxActive, evs, r);
  }
}
