/**
 The source registry: its lock-protected state as values, one step per critical section,
 and every interleaving of fan-outs, registrations and the clock as a run.
 */
module RegistryState {
  import opened Wrappers
  import opened Text
  import opened Indexer

  /** A source object, by number: a re-registered id names another object. */
  type SourceRef = nat

  /**
   A registered adapter and the registry's bookkeeping; lastFetch 0 is never. local: it cannot filter
   categories itself.
   */
  datatype Source = Source(enabled: bool, local: bool, lastFetch: int)

  datatype CacheKey = CacheKey(indexerID: string, mode: Mode, text: string, categories: string, minSeeders: int,
      limit: int, offset: int)

  /**
   A cached answer. owner, query and raw are history: who answered, what was asked, what came back
   before filtering.
   */
  datatype CacheEntry = CacheEntry(results: seq<Result>, fetched: int, owner: SourceRef, query: Query, raw: seq<Result>)

  /** A request sent and not yet answered. */
  datatype Fetch = Fetch(id: string, src: SourceRef, query: Query)

  /** A request the refresh floor let through. */
  datatype Claim = Claim(id: string, at: int)

  datatype State = State(
    srcs: seq<Source>,
    sources: map<string, SourceRef>,
    order: seq<string>,
    cache: map<CacheKey, CacheEntry>,
    retired: map<string, int>,
    now: int,
    ttl: int,
    floor: int,
    inflight: map<nat, Fetch>,
    claims: seq<Claim>)

  /** An empty registry at a clock that has started. */
  function Init(now: int, ttl: int, floor: int): State {
    State([], map[], [], map[], map[], now, ttl, floor, map[], [])
  }

  function KeyOf(id: string, q: Query): CacheKey {
    CacheKey(id, q.mode, q.text, KeyOfCategories(q.categories), q.minSeeders, q.limit, q.offset)
  }

  /** pruneRetiredFetch. */
  function Pruned(retired: map<string, int>, now: int, floor: int): map<string, int> {
    map id | id in retired && now - retired[id] < floor :: retired[id]
  }

  datatype RegisterOutcome = Registered(src: SourceRef) | EmptyID | DuplicateID

  function Register(s: State, id: string, local: bool): (State, RegisterOutcome) {
    if Blank(id) then (s, EmptyID)
    else if id in s.sources then (s, DuplicateID)
    else
      var retired := Pruned(s.retired, s.now, s.floor);
      var last := if id in retired then retired[id] else 0;
      (s.(srcs := s.srcs + [Source(true, local, last)], sources := s.sources[id := |s.srcs|], order := s.order + [id],
          retired := retired - {id}),
       Registered(|s.srcs|))
  }

  function SetEnabled(s: State, id: string, enabled: bool): State {
    if id in s.sources && s.sources[id] < |s.srcs|
    then s.(srcs := s.srcs[s.sources[id] := s.srcs[s.sources[id]].(enabled := enabled)])
    else s
  }

  function Unregister(s: State, id: string): State {
    if id in s.sources && s.sources[id] < |s.srcs| then
      var last := s.srcs[s.sources[id]].lastFetch;
      var retired := Pruned(s.retired, s.now, s.floor);
      s.(retired := if last != 0 && s.now - last < s.floor then retired[id := last] else retired,
         sources := s.sources - {id},
         order := RemoveFirst(s.order, id),
         cache := map k | k in s.cache && k.indexerID != id :: s.cache[k])
    else s
  }

  /** cachedResults: an entry past its time is dropped, not served. */
  function CachedResults(s: State, key: CacheKey): (State, Option<seq<Result>>) {
    if key !in s.cache then (s, None)
    else if s.now - s.cache[key].fetched >= s.ttl then (s.(cache := s.cache - {key}), None)
    else (s, Some(s.cache[key].results))
  }

  datatype FetchSlot = FetchClaimed | FetchThrottled | FetchGone

  /** reserveFetch for a selected source, and the request it lets through, numbered k. */
  function ReserveFetch(s: State, id: string, src: SourceRef, q: Query, k: nat): (State, FetchSlot) {
    if id !in s.sources || s.sources[id] != src || src >= |s.srcs| then (s, FetchGone)
    else if s.srcs[src].lastFetch != 0 && s.now - s.srcs[src].lastFetch < s.floor then (s, FetchThrottled)
    else (s.(srcs := s.srcs[src := s.srcs[src].(lastFetch := s.now)], claims := s.claims + [Claim(id, s.now)],
             inflight := s.inflight[k := Fetch(id, src, q)]), FetchClaimed)
  }

  /** storeResults. */
  function StoreResults(s: State, key: CacheKey, owner: SourceRef, results: seq<Result>, q: Query,
      raw: seq<Result>): State {
    if key.indexerID !in s.sources || s.sources[key.indexerID] != owner then s
    else s.(cache := (map k | k in s.cache && s.now - s.cache[k].fetched < s.ttl :: s.cache[k])
              [key := CacheEntry(results, s.now, owner, q, raw)])
  }

  /** The rest of searchOne when request k is answered with raw: filter locally if the source cannot, then store. */
  function Answer(s: State, k: nat, raw: seq<Result>): State {
    if k in s.inflight && s.inflight[k].src < |s.srcs| then
      var f := s.inflight[k];
      var results := if s.srcs[f.src].local then Filtered(raw, f.query.categories) else raw;
      StoreResults(s.(inflight := s.inflight - {k}), KeyOf(f.id, f.query), f.src, results, f.query, raw)
    else s
  }

  datatype Event =
    | EvRegister(id: string, local: bool)
    | EvUnregister(id: string)
    | EvSetEnabled(id: string, enabled: bool)
    | EvCachedResults(key: CacheKey)
    | EvReserveFetch(id: string, src: SourceRef, q: Query, k: nat)
    | EvAnswer(k: nat, raw: seq<Result>)
    | EvFails(k: nat)
    | EvTick(d: nat)

  function Apply(s: State, ev: Event): State {
    match ev
    case EvRegister(id, local) => Register(s, id, local).0
    case EvUnregister(id) => Unregister(s, id)
    case EvSetEnabled(id, enabled) => SetEnabled(s, id, enabled)
    case EvCachedResults(key) => CachedResults(s, key).0
    case EvReserveFetch(id, src, q, k) => if k in s.inflight then s else ReserveFetch(s, id, src, q, k).0
    case EvAnswer(k, raw) => Answer(s, k, raw)
    case EvFails(k) => s.(inflight := s.inflight - {k})
    case EvTick(d) => s.(now := s.now + d)
  }

  function Run(s: State, evs: seq<Event>): State
    decreases |evs|
  {
    if evs == [] then s else Run(Apply(s, evs[0]), evs[1..])
  }
}

module RegistryProofs {
  import opened Wrappers
  import opened Text
  import opened Indexer
  import opened RegistryState

  ghost predicate Tables(s: State) {
    && (forall id | id in s.sources :: s.sources[id] < |s.srcs|)
    && (forall a, b | a in s.sources && b in s.sources && a != b :: s.sources[a] != s.sources[b])
    && NoDup(s.order) && (forall id :: id in s.order <==> id in s.sources)
    && (forall k | k in s.inflight :: s.inflight[k].src < |s.srcs|)
  }

  /** The registry remembers this claim, or it is too old to matter. */
  ghost predicate Remembered(s: State, c: Claim) {
    && 0 < c.at <= s.now
    && (s.now - c.at >= s.floor
        || (c.id in s.sources && s.sources[c.id] < |s.srcs| && s.srcs[s.sources[c.id]].lastFetch >= c.at)
        || (c.id !in s.sources && c.id in s.retired && s.retired[c.id] >= c.at))
  }

  ghost predicate Floor(s: State) {
    && s.now > 0
    && (forall r | 0 <= r < |s.srcs| :: 0 <= s.srcs[r].lastFetch <= s.now)
    && (forall id | id in s.retired :: 0 < s.retired[id] <= s.now && id !in s.sources)
    && (forall i | 0 <= i < |s.claims| :: Remembered(s, s.claims[i]))
    && (forall i, j | 0 <= i < j < |s.claims| && s.claims[i].id == s.claims[j].id ::
         s.claims[j].at - s.claims[i].at >= s.floor)
  }

  /** A cached answer is the registered source's own, to a query of that key, filtered if the source could not. */
  ghost predicate Owned(s: State, k: CacheKey)
    requires k in s.cache
  {
    var c := s.cache[k];
    && k.indexerID in s.sources && s.sources[k.indexerID] == c.owner && c.owner < |s.srcs|
    && KeyOf(k.indexerID, c.query) == k
    && c.results == (if s.srcs[c.owner].local then Filtered(c.raw, c.query.categories) else c.raw)
    && c.fetched <= s.now
  }

  ghost predicate Cache(s: State) {
    forall k | k in s.cache :: Owned(s, k)
  }

  ghost predicate Inv(s: State) {
    Tables(s) && Floor(s) && Cache(s)
  }

  lemma RegisterKeeps(s: State, id: string, local: bool)
    requires Inv(s)
    ensures Inv(Register(s, id, local).0)
  {
    hide Floor, Tables, Cache, Register;
    RegisterTables(s, id, local);
    RegisterFloor(s, id, local);
    RegisterCache(s, id, local);
  }

  lemma RegisterTables(s: State, id: string, local: bool)
    requires Tables(s)
    ensures Tables(Register(s, id, local).0)
  {
    if id !in s.sources { assert id !in s.order; }
  }

  lemma RegisterCache(s: State, id: string, local: bool)
    requires Cache(s)
    ensures Cache(Register(s, id, local).0)
  {
    var s' := Register(s, id, local).0;
    forall k | k in s'.cache
      ensures Owned(s', k)
    {
      assert Owned(s, k);
    }
  }

  lemma RegisterFloor(s: State, id: string, local: bool)
    requires Tables(s) && Floor(s)
    ensures Floor(Register(s, id, local).0)
  {
  }

  lemma UnregisterKeeps(s: State, id: string)
    requires Inv(s)
    ensures Inv(Unregister(s, id))
  {
    UnregisterTables(s, id);
    UnregisterFloor(s, id);
    UnregisterCache(s, id);
  }

  lemma KnownSource(s: State, id: string)
    requires Inv(s)
    ensures id in s.sources ==> s.sources[id] < |s.srcs|
  {
  }

  lemma UnregisterTables(s: State, id: string)
    requires Tables(s)
    ensures Tables(Unregister(s, id))
  {
    RemoveFirstNoDup(s.order, id);
  }

  lemma UnregisterCache(s: State, id: string)
    requires Cache(s)
    ensures Cache(Unregister(s, id))
  {
    var s' := Unregister(s, id);
    forall k | k in s'.cache
      ensures Owned(s', k)
    {
      assert Owned(s, k);
    }
  }

  lemma UnregisterFloor(s: State, id: string)
    requires Tables(s) && Floor(s)
    ensures Floor(Unregister(s, id))
  {
    var s' := Unregister(s, id);
    forall i | 0 <= i < |s'.claims|
      ensures Remembered(s', s'.claims[i])
    {
      assert Remembered(s, s.claims[i]);
    }
  }

  lemma ReserveKeeps(s: State, id: string, src: SourceRef, q: Query, k: nat)
    requires Inv(s) && k !in s.inflight
    ensures Inv(ReserveFetch(s, id, src, q, k).0)
  {
    var s' := ReserveFetch(s, id, src, q, k).0;
    if s' != s {
      forall i | 0 <= i < |s'.claims|
        ensures Remembered(s', s'.claims[i])
        ensures i < |s.claims| && s.claims[i].id == id ==> s.now - s.claims[i].at >= s.floor
      {
        if i < |s.claims| { assert Remembered(s, s.claims[i]); }
      }
      forall c | c in s'.cache
        ensures Owned(s', c)
      {
        assert Owned(s, c);
      }
    }
  }

  lemma SetEnabledKeeps(s: State, id: string, enabled: bool)
    requires Inv(s)
    ensures Inv(SetEnabled(s, id, enabled))
  {
    hide Cache, Floor;
    SetEnabledFloor(s, id, enabled);
    SetEnabledCache(s, id, enabled);
  }

  lemma SetEnabledFloor(s: State, id: string, enabled: bool)
    requires Floor(s)
    ensures Floor(SetEnabled(s, id, enabled))
  {
    var s' := SetEnabled(s, id, enabled);
    forall i | 0 <= i < |s.claims|
      ensures Remembered(s', s.claims[i])
    {
      assert Remembered(s, s.claims[i]);
    }
  }

  lemma SetEnabledCache(s: State, id: string, enabled: bool)
    requires Cache(s)
    ensures Cache(SetEnabled(s, id, enabled))
  {
    var s' := SetEnabled(s, id, enabled);
    forall k | k in s.cache
      ensures Owned(s', k)
    {
      assert Owned(s, k);
    }
  }

  lemma DropsAnswer(s: State, key: CacheKey)
    requires Cache(s)
    ensures Cache(s.(cache := s.cache - {key}))
  {
    forall k | k in s.cache && k != key
      ensures Owned(s.(cache := s.cache - {key}), k)
    {
      assert Owned(s, k);
    }
  }

  lemma CachedKeeps(s: State, key: CacheKey)
    requires Inv(s)
    ensures Inv(CachedResults(s, key).0)
  {
    hide Floor, Cache;
    if key in s.cache && s.now - s.cache[key].fetched >= s.ttl {
      SameFloor(s, s.(cache := s.cache - {key}));
      DropsAnswer(s, key);
    }
  }

  lemma AnswerKeeps(s: State, k: nat, raw: seq<Result>)
    requires Inv(s)
    ensures Inv(Answer(s, k, raw))
  {
    hide Cache, Floor;
    AnswerFloor(s, k, raw);
    AnswerCache(s, k, raw);
  }

  /** The floor is about the registered sources, the clock and what is retired. */
  lemma SameFloor(s: State, s': State)
    requires Floor(s) && s'.srcs == s.srcs && s'.sources == s.sources && s'.retired == s.retired
    requires s'.now == s.now && s'.floor == s.floor && s'.claims == s.claims
    ensures Floor(s')
  {
    forall i | 0 <= i < |s.claims|
      ensures Remembered(s', s.claims[i])
    {
      assert Remembered(s, s.claims[i]);
    }
  }

  lemma AnswerFloor(s: State, k: nat, raw: seq<Result>)
    requires Floor(s)
    ensures Floor(Answer(s, k, raw))
  {
    hide Floor;
    SameFloor(s, Answer(s, k, raw));
  }

  lemma AnswerCache(s: State, k: nat, raw: seq<Result>)
    requires Cache(s)
    ensures Cache(Answer(s, k, raw))
  {
    var s' := Answer(s, k, raw);
    forall c | c in s'.cache
      ensures Owned(s', c)
    {
      if c in s.cache { assert Owned(s, c); }
    }
  }

  lemma TickKeeps(s: State, d: nat)
    requires Inv(s)
    ensures Inv(s.(now := s.now + d))
  {
  }

  lemma FailsKeeps(s: State, k: nat)
    requires Inv(s)
    ensures Inv(s.(inflight := s.inflight - {k}))
  {
  }

  lemma ApplyKeeps(s: State, ev: Event)
    requires Inv(s)
    ensures Inv(Apply(s, ev))
  {
    match ev
    case EvRegister(id, local) => RegisterKeeps(s, id, local);
    case EvUnregister(id) => UnregisterKeeps(s, id);
    case EvReserveFetch(id, src, q, k) => if k !in s.inflight { ReserveKeeps(s, id, src, q, k); }
    case EvSetEnabled(id, enabled) => SetEnabledKeeps(s, id, enabled);
    case EvCachedResults(key) => CachedKeeps(s, key);
    case EvAnswer(k, raw) => AnswerKeeps(s, k, raw);
    case EvFails(k) => FailsKeeps(s, k);
    case EvTick(d) => TickKeeps(s, d);
  }

  /** Every interleaving keeps all of it. */
  lemma {:induction false} RunKeeps(s: State, evs: seq<Event>)
    requires Inv(s)
    ensures Inv(Run(s, evs))
    decreases |evs|
  {
    if evs != [] {
      ApplyKeeps(s, evs[0]);
      RunKeeps(Apply(s, evs[0]), evs[1..]);
    }
  }

  lemma {:induction false} RunConfig(s: State, evs: seq<Event>)
    ensures Run(s, evs).floor == s.floor && Run(s, evs).ttl == s.ttl
    decreases |evs|
  {
    if evs != [] { RunConfig(Apply(s, evs[0]), evs[1..]); }
  }

  /**
   Whatever is registered, unregistered and re-registered between them, two requests to one id
   are at least the refresh floor apart.
   */
  lemma RefreshFloorHolds(now: int, ttl: int, floor: int, evs: seq<Event>, i: nat, j: nat)
    requires now > 0
    ensures var s := Run(Init(now, ttl, floor), evs);
      i < j < |s.claims| && s.claims[i].id == s.claims[j].id ==> s.claims[j].at - s.claims[i].at >= floor
  {
    RunKeeps(Init(now, ttl, floor), evs);
    RunConfig(Init(now, ttl, floor), evs);
  }

  /** Two queries ask for the same results: equal but for the order and repetition of their categories. */
  predicate SameSearch(p: Query, q: Query) {
    && p.mode == q.mode && p.text == q.text && p.minSeeders == q.minSeeders && p.limit == q.limit
    && p.offset == q.offset && SameCategories(p.categories, q.categories)
  }

  /** Two lookups share a cache key exactly when they put the same search to the same source. */
  lemma KeySame(a: string, p: Query, b: string, q: Query)
    ensures KeyOf(a, p) == KeyOf(b, q) <==> a == b && SameSearch(p, q)
  {
    CategoryKeyIsSet(p.categories, q.categories);
  }

  /**
   What a lookup serves was answered inside the TTL by the object registered under the id now,
   and is what that answer would be under the asker's own filter.
   */
  lemma ServedIsCurrent(now: int, ttl: int, floor: int, evs: seq<Event>, id: string, q: Query)
    requires now > 0
    ensures var s := Run(Init(now, ttl, floor), evs);
      var (s', served) := CachedResults(s, KeyOf(id, q));
      served.Some? ==>
        var k := KeyOf(id, q);
        && k in s.cache && s.now - s.cache[k].fetched < ttl
        && id in s.sources && s.sources[id] == s.cache[k].owner && s.sources[id] < |s.srcs|
        && SameSearch(s.cache[k].query, q)
        && served.value ==
             (if s.srcs[s.sources[id]].local then Filtered(s.cache[k].raw, q.categories) else s.cache[k].raw)
  {
    RunKeeps(Init(now, ttl, floor), evs);
    RunConfig(Init(now, ttl, floor), evs);
    var s := Run(Init(now, ttl, floor), evs);
    var k := KeyOf(id, q);
    if k in s.cache {
      assert Owned(s, k);
      var c := s.cache[k];
      KeySame(id, c.query, id, q);
      FilterDependsOnSet(c.raw, c.query.categories, q.categories);
    }
  }

  // ----- an answer serves its search until it ages, goes, or is replaced -----

  /** What came back to a search, and when. */
  datatype Answered = Answered(raw: seq<Result>, at: int)

  /** Request k is of that search, sent to the source the id still names. */
  predicate Standing(s: State, k: nat, id: string, q: Query) {
    && k in s.inflight && s.inflight[k].id == id && SameSearch(s.inflight[k].query, q)
    && id in s.sources && s.sources[id] == s.inflight[k].src
  }

  /** The latest answer of the run to a standing request of the search, unless the source was removed since. */
  function Latest(s: State, evs: seq<Event>, id: string, q: Query): Option<Answered>
    decreases |evs|
  {
    if evs == [] then None
    else
      var past, ev := evs[..|evs| - 1], evs[|evs| - 1];
      var t := Run(s, past);
      if ev == EvUnregister(id) then None
      else if ev.EvAnswer? && Standing(t, ev.k, id, q) then Some(Answered(ev.raw, t.now))
      else Latest(s, past, id, q)
  }

  /** What the cache holds for the search: that answer, as its source passes it on, or nothing that would serve. */
  ghost predicate Holds(s: State, id: string, q: Query, a: Option<Answered>) {
    var k := KeyOf(id, q);
    if k in s.cache then
      && id in s.sources && s.sources[id] < |s.srcs| && a == Some(Answered(s.cache[k].raw, s.cache[k].fetched))
      && s.cache[k].results ==
           (if s.srcs[s.sources[id]].local then Filtered(a.value.raw, q.categories) else a.value.raw)
    else
      a.Some? ==> s.now - a.value.at >= s.ttl
  }

  lemma {:induction false} RunSnoc(s: State, evs: seq<Event>)
    requires evs != []
    ensures Run(s, evs) == Apply(Run(s, evs[..|evs| - 1]), evs[|evs| - 1])
    decreases |evs|
  {
    if |evs| > 1 {
      RunSnoc(Apply(s, evs[0]), evs[1..]);
      assert evs[1..][..|evs| - 2] == evs[..|evs| - 1][1..];
    } else {
      assert evs[1..] == [] && evs[..0] == [];
    }
  }

  lemma RegisterHolds(s: State, x: string, local: bool, id: string, q: Query, a: Option<Answered>)
    requires Tables(s) && Holds(s, id, q, a)
    ensures Holds(Register(s, x, local).0, id, q, a)
  {
  }

  lemma UnregisterHolds(s: State, x: string, id: string, q: Query, a: Option<Answered>)
    requires Tables(s) && Cache(s) && Holds(s, id, q, a)
    ensures Holds(Unregister(s, x), id, q, if x == id then None else a)
  {
    if KeyOf(id, q) in s.cache { assert Owned(s, KeyOf(id, q)); }
  }

  lemma AnswerHolds(s: State, k: nat, raw: seq<Result>, id: string, q: Query, a: Option<Answered>)
    requires Tables(s) && Holds(s, id, q, a)
    ensures Holds(Answer(s, k, raw), id, q, if Standing(s, k, id, q) then Some(Answered(raw, s.now)) else a)
  {
    if k in s.inflight {
      KeySame(s.inflight[k].id, s.inflight[k].query, id, q);
      if Standing(s, k, id, q) { FilterDependsOnSet(raw, s.inflight[k].query.categories, q.categories); }
    }
  }

  lemma CachedHolds(s: State, key: CacheKey, id: string, q: Query, a: Option<Answered>)
    requires Holds(s, id, q, a)
    ensures Holds(CachedResults(s, key).0, id, q, a)
  {
  }

  lemma StepHolds(s: State, ev: Event, id: string, q: Query, a: Option<Answered>)
    requires Inv(s) && Holds(s, id, q, a)
    ensures Holds(Apply(s, ev), id, q,
              if ev == EvUnregister(id) then None
              else if ev.EvAnswer? && Standing(s, ev.k, id, q) then Some(Answered(ev.raw, s.now))
              else a)
  {
    match ev
    case EvRegister(x, local) => RegisterHolds(s, x, local, id, q, a);
    case EvUnregister(x) => UnregisterHolds(s, x, id, q, a);
    case EvCachedResults(key) => CachedHolds(s, key, id, q, a);
    case EvAnswer(k, raw) => AnswerHolds(s, k, raw, id, q, a);
    case _ =>
  }

  lemma {:induction false} RunHolds(s: State, evs: seq<Event>, id: string, q: Query)
    requires Inv(s) && s.cache == map[]
    ensures Holds(Run(s, evs), id, q, Latest(s, evs, id, q))
    decreases |evs|
  {
    hide Holds;
    if evs == [] {
      HoldsNothing(s, id, q);
    } else {
      var past := evs[..|evs| - 1];
      RunHolds(s, past, id, q);
      RunKeeps(s, past);
      RunSnoc(s, evs);
      StepHolds(Run(s, past), evs[|evs| - 1], id, q, Latest(s, past, id, q));
    }
  }

  lemma HoldsNothing(s: State, id: string, q: Query)
    requires s.cache == map[]
    ensures Holds(s, id, q, None)
  {
  }

  /**
   A lookup gets exactly the latest answer to the same search at the source registered now, filtered
   for the asker if that source cannot filter, while it is younger than the TTL.
   */
  lemma LookupExact(now: int, ttl: int, floor: int, evs: seq<Event>, id: string, q: Query)
    requires now > 0
    ensures var s, last := Run(Init(now, ttl, floor), evs), Latest(Init(now, ttl, floor), evs, id, q);
      var served := CachedResults(s, KeyOf(id, q)).1;
      if last.Some? && s.now - last.value.at < ttl then
        && id in s.sources && s.sources[id] < |s.srcs|
        && served == Some(if s.srcs[s.sources[id]].local then Filtered(last.value.raw, q.categories)
                          else last.value.raw)
      else served == None
  {
    RunConfig(Init(now, ttl, floor), evs);
    RunHolds(Init(now, ttl, floor), evs, id, q);
  }

  // ----- the floor lets through all it may -----

  /** Every remembered request is one that was let through. */
  ghost predicate Backed(s: State) {
    && (forall id | id in s.sources && s.sources[id] < |s.srcs| && s.srcs[s.sources[id]].lastFetch != 0 ::
          Claim(id, s.srcs[s.sources[id]].lastFetch) in s.claims)
    && (forall id | id in s.retired :: Claim(id, s.retired[id]) in s.claims)
  }

  lemma BackedStep(s: State, ev: Event)
    requires Tables(s) && Backed(s)
    ensures Backed(Apply(s, ev))
  {
  }

  lemma {:induction false} RunBacked(s: State, evs: seq<Event>)
    requires Inv(s) && Backed(s)
    ensures Backed(Run(s, evs))
    decreases |evs|
  {
    hide Backed, Inv;
    if evs != [] {
      TablesOf(s);
      BackedStep(s, evs[0]);
      ApplyKeeps(s, evs[0]);
      RunBacked(Apply(s, evs[0]), evs[1..]);
    }
  }

  lemma TablesOf(s: State)
    requires Inv(s)
    ensures Tables(s) && Floor(s)
  {
  }

  /** A request was let through for the id less than the floor ago. */
  ghost predicate Recent(s: State, id: string) {
    exists i :: 0 <= i < |s.claims| && s.claims[i].id == id && s.now - s.claims[i].at < s.floor
  }

  /**
   A fan-out's request is refused for a source gone, held back exactly when one to its id was let
   through inside the floor, and otherwise sent as asked and put on record.
   */
  lemma FloorExact(now: int, ttl: int, floor: int, evs: seq<Event>, id: string, src: SourceRef, q: Query, k: nat)
    requires now > 0
    ensures var s := Run(Init(now, ttl, floor), evs);
      var (s', slot) := ReserveFetch(s, id, src, q, k);
      && (slot.FetchGone? <==> !(id in s.sources && s.sources[id] == src))
      && (slot.FetchThrottled? <==> id in s.sources && s.sources[id] == src && Recent(s, id))
      && (slot.FetchClaimed? ==>
            s'.inflight == s.inflight[k := Fetch(id, src, q)] && s'.claims == s.claims + [Claim(id, s.now)])
  {
    var s := Run(Init(now, ttl, floor), evs);
    RunKeeps(Init(now, ttl, floor), evs);
    RunBacked(Init(now, ttl, floor), evs);
    if id in s.sources { FloorNow(s, id); }
  }

  lemma FloorNow(s: State, id: string)
    requires Inv(s) && Backed(s) && id in s.sources
    ensures var last := s.srcs[s.sources[id]].lastFetch; last != 0 && s.now - last < s.floor <==> Recent(s, id)
  {
    var last := s.srcs[s.sources[id]].lastFetch;
    if last != 0 && s.now - last < s.floor {
      var i :| 0 <= i < |s.claims| && s.claims[i] == Claim(id, last);
    }
    if Recent(s, id) {
      var i :| 0 <= i < |s.claims| && s.claims[i].id == id && s.now - s.claims[i].at < s.floor;
      assert Remembered(s, s.claims[i]);
    }
  }

  /** Unregister leaves nothing of the id behind but its floor. */
  lemma UnregisterForgets(s: State, id: string)
    requires Inv(s) && id in s.sources
    ensures var s' := Unregister(s, id);
      && id !in s'.sources && id !in s'.order
      && (forall k | k in s'.cache :: k.indexerID != id && k in s.cache && s'.cache[k] == s.cache[k])
      && (forall k | k in s.cache && k.indexerID != id :: k in s'.cache)
  {
    RemoveFirstNoDup(s.order, id);
  }

  /** Registered again at once, under another object, the id has exactly the floor it had. */
  lemma ReregisterInherits(s: State, id: string, local: bool)
    requires Inv(s) && id in s.sources
    ensures var last := s.srcs[s.sources[id]].lastFetch;
      var (s', out) := Register(Unregister(s, id), id, local);
      if Blank(id) then out == EmptyID
      else
        out == Registered(|s.srcs|) &&
        s'.srcs[|s.srcs|].lastFetch == (if last != 0 && s.now - last < s.floor then last else 0)
  {
  }

  /** The answer to a request in flight when its source was removed or replaced is never stored. */
  lemma StaleAnswerDropped(s: State, k: nat, raw: seq<Result>)
    requires Inv(s) && k in s.inflight
    requires var f := s.inflight[k]; f.id !in s.sources || s.sources[f.id] != f.src
    ensures Answer(s, k, raw) == s.(inflight := s.inflight - {k})
  {
  }
}

/** The registry's critical sections, each one method, with the source's loops. */
module Registry {
  import opened Wrappers
  import opened Text
  import opened Indexer
  import opened RegistryState
  import opened RegistryProofs

  /** One target of a fan-out; src is None for an id nothing is registered under. */
  datatype Selection = Selection(id: string, src: Option<SourceRef>)

  function EnabledOf(s: State, ids: seq<string>): seq<Selection> {
    if ids == [] then []
    else
      var id := ids[|ids| - 1];
      EnabledOf(s, ids[..|ids| - 1]) +
      (if id in s.sources && s.sources[id] < |s.srcs| && s.srcs[s.sources[id]].enabled
       then [Selection(id, Some(s.sources[id]))]
       else [])
  }

  /** Each id once, where first asked for, known or not. */
  function NamedOf(s: State, ids: seq<string>): seq<Selection> {
    if ids == [] then []
    else
      var before, id := ids[..|ids| - 1], ids[|ids| - 1];
      NamedOf(s, before) +
      (if id in before then [] else [Selection(id, if id in s.sources then Some(s.sources[id]) else None)])
  }

  class Registry {
    var srcs: seq<Source>
    var sources: map<string, SourceRef>
    var order: seq<string>
    var cache: map<CacheKey, CacheEntry>
    var retired: map<string, int>
    var now: int
    const ttl: int
    const floor: int
    var inflight: map<nat, Fetch>
    ghost var claims: seq<Claim>

    ghost function View(): State
      reads this
    {
      State(srcs, sources, order, cache, retired, now, ttl, floor, inflight, claims)
    }

    ghost predicate Valid()
      reads this
    {
      Inv(View())
    }

    constructor (now: int, ttl: int, floor: int)
      requires now > 0
      ensures Valid() && View() == Init(now, ttl, floor)
    {
      srcs, sources, order, cache, retired, inflight, claims := [], map[], [], map[], map[], map[], [];
      this.now, this.ttl, this.floor := now, ttl, floor;
    }

    /** pruneRetiredFetch: drop every entry whose interval has passed. */
    method PruneRetiredFetch()
      modifies this`retired
      ensures retired == Pruned(old(retired), now, floor)
    {
      var left := retired.Keys;
      while left != {}
        invariant left <= old(retired.Keys)
        invariant retired == map id | id in old(retired) && (id in left || now - old(retired)[id] < floor) ::
          old(retired)[id]
        decreases left
      {
        var id :| id in left;
        left := left - {id};
        if now - retired[id] >= floor { retired := retired - {id}; }
      }
    }

    method Register(id: string, local: bool) returns (out: RegisterOutcome)
      requires Valid()
      modifies this`srcs, this`sources, this`order, this`retired
      ensures (View(), out) == RegistryState.Register(old(View()), id, local)
      ensures Valid()
    {
      hide Inv, Pruned;
      RegisterKeeps(View(), id, local);
      if Blank(id) { return EmptyID; }
      if id in sources { return DuplicateID; }
      PruneRetiredFetch();
      var src := Source(true, local, 0);
      if id in retired {
        src := src.(lastFetch := retired[id]);
        retired := retired - {id};
      } else {
        assert retired - {id} == retired;
      }
      out := Registered(|srcs|);
      sources, order, srcs := sources[id := |srcs|], order + [id], srcs + [src];
    }

    method Unregister(id: string) returns (found: bool)
      requires Valid()
      modifies this`retired, this`sources, this`order, this`cache
      ensures View() == RegistryState.Unregister(old(View()), id)
      ensures Valid()
      ensures found <==> id in old(sources)
    {
      hide Inv, Pruned;
      UnregisterKeeps(View(), id);
      KnownSource(View(), id);
      if id !in sources { return false; }
      var last := srcs[sources[id]].lastFetch;
      PruneRetiredFetch();
      if last != 0 && now - last < floor { retired := retired[id := last]; }
      sources := sources - {id};
      CutOrder(id);
      ForgetAnswers(id);
      return true;
    }

    method CutOrder(id: string)
      modifies this`order
      ensures order == RemoveFirst(old(order), id)
    {
      var i := 0;
      while i < |order|
        invariant 0 <= i <= |order| && id !in order[..i] && order == old(order)
      {
        if order[i] == id {
          RemoveFirstAt(order, id, i);
          order := order[..i] + order[i + 1..];
          return;
        }
        i := i + 1;
      }
      assert order[..i] == order;
    }

    method ForgetAnswers(id: string)
      modifies this`cache
      ensures cache == map k | k in old(cache) && k.indexerID != id :: old(cache)[k]
    {
      var left := cache.Keys;
      while left != {}
        invariant left <= old(cache.Keys)
        invariant cache == map k | k in old(cache) && (k in left || k.indexerID != id) :: old(cache)[k]
        decreases left
      {
        var k :| k in left;
        left := left - {k};
        if k.indexerID == id { cache := cache - {k}; }
      }
    }

    method GetCached(key: CacheKey) returns (served: Option<seq<Result>>)
      requires Valid()
      modifies this`cache
      ensures (View(), served) == CachedResults(old(View()), key)
      ensures Valid()
    {
      CachedKeeps(View(), key);
      if key !in cache { return None; }
      if now - cache[key].fetched >= ttl {
        cache := cache - {key};
        return None;
      }
      return Some(cache[key].results);
    }

    method Reserve(id: string, src: SourceRef, q: Query, k: nat) returns (slot: FetchSlot)
      requires Valid() && k !in inflight
      modifies this`srcs, this`inflight, this`claims
      ensures (View(), slot) == ReserveFetch(old(View()), id, src, q, k)
      ensures Valid()
    {
      ReserveKeeps(View(), id, src, q, k);
      if id !in sources || sources[id] != src { return FetchGone; }
      if srcs[src].lastFetch != 0 && now - srcs[src].lastFetch < floor { return FetchThrottled; }
      srcs := srcs[src := srcs[src].(lastFetch := now)];
      claims := claims + [Claim(id, now)];
      inflight := inflight[k := Fetch(id, src, q)];
      return FetchClaimed;
    }

    /** storeResults: unless the owner is gone, drop what has aged out and keep the answer. */
    method Store(key: CacheKey, owner: SourceRef, results: seq<Result>, ghost q: Query, ghost raw: seq<Result>,
        entry: CacheEntry)
      requires entry == CacheEntry(results, now, owner, q, raw)
      modifies this`cache
      ensures View() == StoreResults(old(View()), key, owner, results, q, raw)
    {
      if key.indexerID !in sources || sources[key.indexerID] != owner { return; }
      var left := cache.Keys;
      while left != {}
        invariant left <= old(cache.Keys)
        invariant cache == map k | k in old(cache) && (k in left || now - old(cache)[k].fetched < ttl) :: old(cache)[k]
        decreases left
      {
        var k :| k in left;
        left := left - {k};
        if now - cache[k].fetched >= ttl { cache := cache - {k}; }
      }
      cache := cache[key := entry];
    }

    /** searchOne once the source has answered request k. */
    method Answered(k: nat, raw: seq<Result>) returns (results: seq<Result>)
      requires Valid() && k in inflight
      modifies this`cache, this`inflight
      ensures View() == Answer(old(View()), k, raw)
      ensures Valid()
      ensures var f := old(inflight)[k];
        results == if old(srcs)[f.src].local then Filtered(raw, f.query.categories) else raw
    {
      AnswerKeeps(View(), k, raw);
      var f := inflight[k];
      inflight := inflight - {k};
      results := raw;
      if srcs[f.src].local { results := FilterByCategories(raw, f.query.categories); }
      var categories := CategoryKey(f.query.categories);
      var key := CacheKey(f.id, f.query.mode, f.query.text, categories, f.query.minSeeders, f.query.limit,
          f.query.offset);
      Store(key, f.src, results, f.query, raw, CacheEntry(results, now, f.src, f.query, raw));
    }

    /** selectSources. */
    method SelectSources(ids: seq<string>) returns (out: seq<Selection>)
      requires Valid()
      ensures out == if ids == [] then EnabledOf(View(), order) else NamedOf(View(), ids)
    {
      out := [];
      if ids == [] {
        for i := 0 to |order|
          invariant out == EnabledOf(View(), order[..i])
        {
          assert order[..i + 1][..i] == order[..i] && order[i] in order;
          if srcs[sources[order[i]]].enabled { out := out + [Selection(order[i], Some(sources[order[i]]))]; }
        }
        assert order[..|order|] == order;
        return;
      }
      var seen: set<string> := {};
      for i := 0 to |ids|
        invariant out == NamedOf(View(), ids[..i]) && seen == set id | id in ids[..i]
      {
        assert ids[..i + 1][..i] == ids[..i] && ids[..i + 1] == ids[..i] + [ids[i]];
        if ids[i] in seen { continue; }
        seen := seen + {ids[i]};
        out := out + [Selection(ids[i], if ids[i] in sources then Some(sources[ids[i]]) else None)];
      }
      assert ids[..|ids|] == ids;
    }
  }

  ghost predicate Names(out: seq<Selection>, id: string) {
    exists i :: 0 <= i < |out| && out[i].id == id
  }

  /** Whoever selected r was named some time before anyone named x. */
  ghost predicate NamedBefore(ids: seq<string>, r: string, x: string) {
    exists m :: 0 <= m <= |ids| && r in ids[..m] && x !in ids[..m]
  }

  lemma NamedBeforeSnoc(ids: seq<string>, last: string, r: string, x: string)
    ensures NamedBefore(ids, r, x) ==> NamedBefore(ids + [last], r, x)
    ensures r in ids && x !in ids ==> NamedBefore(ids + [last], r, x)
  {
    if m :| 0 <= m <= |ids| && r in ids[..m] && x !in ids[..m] {
      assert (ids + [last])[..m] == ids[..m];
    }
    if r in ids && x !in ids { assert (ids + [last])[..|ids|] == ids; }
  }

  /** A fan-out by name asks each id once, in the order first named, loses none, and finds each source registered. */
  lemma {:induction false} NamedSelection(s: State, ids: seq<string>)
    ensures var out := NamedOf(s, ids);
      && (forall i, j | 0 <= i < j < |out| :: out[i].id != out[j].id && NamedBefore(ids, out[i].id, out[j].id))
      && (forall i | 0 <= i < |out| :: out[i].id in ids)
      && (forall i | 0 <= i < |out| ::
            if out[i].id in s.sources then out[i].src == Some(s.sources[out[i].id]) else out[i].src == None)
      && (forall id | id in ids :: Names(out, id))
  {
    if ids != [] {
      var before, id := ids[..|ids| - 1], ids[|ids| - 1];
      NamedSelection(s, before);
      assert ids == before + [id];
      var out, was := NamedOf(s, ids), NamedOf(s, before);
      forall x | x in ids
        ensures Names(out, x)
      {
        if x in before {
          assert Names(was, x);
          var i :| 0 <= i < |was| && was[i].id == x;
          assert out[i].id == x;
        } else {
          assert out[|was|].id == x;
        }
      }
      forall i, j | 0 <= i < j < |out|
        ensures NamedBefore(ids, out[i].id, out[j].id)
      {
        NamedBeforeSnoc(before, id, out[i].id, out[j].id);
      }
    }
  }

  predicate IsEnabled(s: State, id: string) {
    id in s.sources && s.sources[id] < |s.srcs| && s.srcs[s.sources[id]].enabled
  }

  lemma {:induction false} EnabledExact(s: State, ids: seq<string>)
    ensures forall x :: x in EnabledOf(s, ids) <==>
              x.id in ids && IsEnabled(s, x.id) && x.src == Some(s.sources[x.id])
  {
    if ids != [] {
      var before, id := ids[..|ids| - 1], ids[|ids| - 1];
      assert ids == before + [id];
      EnabledExact(s, before);
    }
  }

  /** A fan-out with no names asks exactly the enabled sources, as registered, in the order of registration. */
  lemma {:induction false} EnabledSelection(s: State, ids: seq<string>, x: Selection, y: Selection)
    ensures x in EnabledOf(s, ids) <==> x.id in ids && IsEnabled(s, x.id) && x.src == Some(s.sources[x.id])
    ensures x in EnabledOf(s, ids) && y in EnabledOf(s, ids) ==>
              (Ahead(EnabledOf(s, ids), x, y) <==> Ahead(ids, x.id, y.id))
  {
    hide Ahead;
    EnabledExact(s, ids);
    if ids != [] && x in EnabledOf(s, ids) && y in EnabledOf(s, ids) {
      var before, id := ids[..|ids| - 1], ids[|ids| - 1];
      assert ids == before + [id];
      EnabledExact(s, before);
      EnabledSelection(s, before, x, y);
      AheadJoin(before, [id], x.id, y.id);
      NoneAhead(id, x.id, y.id);
      AheadIn(before, x.id, y.id);
      AheadIn(EnabledOf(s, before), x, y);
      if IsEnabled(s, id) {
        var last := Selection(id, Some(s.sources[id]));
        AheadJoin(EnabledOf(s, before), [last], x, y);
        NoneAhead(last, x, y);
      } else {
        assert EnabledOf(s, ids) == EnabledOf(s, before);
      }
    }
  }

  predicate SameSource(s: State, s': State, id: string) {
    && IsEnabled(s, id) == IsEnabled(s', id)
    && (IsEnabled(s, id) ==> s.sources[id] == s'.sources[id])
  }

  lemma {:induction false} EnabledSame(s: State, s': State, ids: seq<string>)
    requires forall id | id in ids :: SameSource(s, s', id)
    ensures EnabledOf(s', ids) == EnabledOf(s, ids)
  {
    if ids != [] {
      var before, last := ids[..|ids| - 1], ids[|ids| - 1];
      assert ids == before + [last];
      assert SameSource(s, s', last);
      EnabledSame(s, s', before);
    }
  }

  /** Switching a source on or off is switching that one. */
  lemma SwitchedAlone(s: State, id: string, enabled: bool, x: string)
    requires Inv(s)
    ensures IsEnabled(SetEnabled(s, id, enabled), x) <==> if x == id then x in s.sources && enabled else IsEnabled(s, x)
    ensures var s' := SetEnabled(s, id, enabled); s' == s.(srcs := s'.srcs)
  {
    hide Floor, Cache;
  }

  /** A blank id and one in use are refused and change nothing; any other names the new object from then on. */
  lemma RegisterAnswers(s: State, id: string, local: bool)
    ensures var (s', out) := Register(s, id, local);
      && (out == EmptyID <==> Blank(id)) && (out == DuplicateID <==> !Blank(id) && id in s.sources)
      && (out.Registered? ==> out.src == |s.srcs| < |s'.srcs| && s'.sources == s.sources[id := out.src])
      && (!out.Registered? ==> s' == s)
  {
  }

  /** What was last asked of a removed id is remembered for the floor's length and no longer. */
  lemma RetiredYoung(s: State, id: string, local: bool)
    requires Inv(s)
    ensures var s' := Register(s, id, local).0;
      s' != s ==>
        && (forall x | x in s'.retired :: s.now - s'.retired[x] < s.floor)
        && (forall x | x in s.retired && x != id && s.now - s.retired[x] < s.floor ::
              x in s'.retired && s'.retired[x] == s.retired[x])
        && s'.srcs[|s.srcs|].lastFetch ==
             (if id in s.retired && s.now - s.retired[id] < s.floor then s.retired[id] else 0)
    ensures var s' := Unregister(s, id);
      s' != s ==>
        && (forall x | x in s'.retired :: s.now - s'.retired[x] < s.floor)
        && (forall x | x in s.retired && s.now - s.retired[x] < s.floor ::
              x in s'.retired && s'.retired[x] == s.retired[x])
  {
    hide Cache;
  }

  /** A source newly registered is enabled and asked after every other, and filters for itself as it says it can. */
  lemma NewSourceAskedLast(s: State, id: string, local: bool)
    requires Inv(s) && !Blank(id) && id !in s.sources
    ensures var s' := Register(s, id, local).0;
      && EnabledOf(s', s'.order) == EnabledOf(s, s.order) + [Selection(id, Some(|s.srcs|))]
      && |s'.srcs| == |s.srcs| + 1 && s'.srcs[|s.srcs|].local == local && s'.srcs[..|s.srcs|] == s.srcs
  {
    hide Cache, Floor;
    var s' := Register(s, id, local).0;
    assert s'.order[..|s'.order| - 1] == s.order;
    EnabledSame(s, s', s.order);
  }
}
