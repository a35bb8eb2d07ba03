/** What no event takes back, and so what one state of a run says of every later one. */
module EngineHistory {
  import opened Wrappers
  import opened EngineState
  import opened EngineSteps
  import opened EngineInvariants
  import opened EngineProofs
  import opened EngineEffects

  /** An entry keeps its id, its destination and its torrent; refused it stays so. */
  predicate Continues(a: Tracked, b: Tracked) {
    a.id == b.id && a.savePath == b.savePath && (a.t.Some? ==> b.t == a.t) && (a.refused ==> b.refused)
  }

  /** So does entry q, and forgotten it is never tracked again. */
  predicate EntryLasts(s: State, s': State, q: Ref) {
    q < |s.entries| ==>
      q < |s'.entries| && Continues(s.entries[q], s'.entries[q]) && (IsTracked(s', q) ==> IsTracked(s, q))
  }

  /** An info dictionary once known is not replaced. */
  predicate InfoLasts(s: State, s': State, l: LibRef) {
    l < |s.libs| ==> l < |s'.libs| && (s.libs[l].info.Some? ==> s'.libs[l].info == s.libs[l].info)
  }

  /** Entry q and the info of l last, delete numbers are not used again, and closed stays closed. */
  predicate Lasts(s: State, s': State, q: Ref, l: LibRef) {
    EntryLasts(s, s', q) && InfoLasts(s, s', l) && s.nextDelete <= s'.nextDelete && (s.closed ==> s'.closed)
  }

  lemma EventLasts(s: State, ev: Event, q: Ref, l: LibRef)
    requires Inv(s)
    ensures Lasts(s, Apply(s, ev), q, l)
  {
    hide Inv, Apply;
    EventEffect(s, ev, At(q, l, "", Numbered(0), 0));
  }

  /** Over any run. */
  lemma {:induction false} RunLasts(s: State, evs: seq<Event>, q: Ref, l: LibRef)
    requires Inv(s)
    ensures Lasts(s, Run(s, evs), q, l)
    decreases |evs|
  {
    if evs != [] {
      hide Inv, Apply;
      EventLasts(s, evs[0], q, l);
      ApplyKeeps(s, evs[0]);
      RunLasts(Apply(s, evs[0]), evs[1..], q, l);
    }
  }

  // ----- only an addition makes an id tracked -----

  /** Every id tracked in t is tracked in s, as the same entry. */
  ghost predicate Within(t: State, s: State) {
    forall id | id in t.torrents :: id in s.torrents && s.torrents[id] == t.torrents[id]
  }

  /** Only an addition makes an id tracked, or makes it another entry's. */
  lemma OthersAddNone(s: State, ev: Event)
    requires Inv(s) && !Adds(ev)
    ensures Within(Apply(s, ev), s)
  {
    hide Inv, Apply;
    forall id | id in Apply(s, ev).torrents
      ensures id in s.torrents && s.torrents[id] == Apply(s, ev).torrents[id]
    {
      EventEffect(s, ev, At(0, 0, "", id, 0));
    }
  }

  lemma {:induction false} BackgroundAddsNone(s: State, evs: seq<Event>)
    requires Inv(s) && forall ev | ev in evs :: !Adds(ev)
    ensures Within(Run(s, evs), s)
    decreases |evs|
  {
    if evs != [] {
      hide Inv, Apply;
      assert evs[0] in evs;
      OthersAddNone(s, evs[0]);
      ApplyKeeps(s, evs[0]);
      BackgroundAddsNone(Apply(s, evs[0]), evs[1..]);
    }
  }
}
