/** The session between the engine and the store: Resume's pass, Save's merge and prune, and runs of both. */
module SessionState {
  import opened Wrappers
  import opened Text
  import opened Sorting
  import opened Records
  import opened StoreState
  import opened Store

  const NO_ORIGIN := Origin("", "")

  /** What the engine reports of a torrent to be saved. */
  datatype ResumeData = ResumeData(id: string, origin: Origin, savePath: string, name: string, magnet: string,
                                   torrentURL: string, metainfo: string, paused: bool, seedDone: bool,
                                   uploaded: int, completedAt: int)

  datatype Session = Session(store: StoreState.State, resumed: bool, closed: bool)

  // ----- Resume -----

  datatype Dropped = Dropped(id: string, savePath: string, keptAs: string)

  datatype Pass = Pass(store: StoreState.State, restored: seq<string>, dropped: seq<Dropped>, failed: bool)

  /** Oldest first, then by id. */
  predicate Older(a: Record, b: Record) {
    a.addedAt < b.addedAt || (a.addedAt == b.addedAt && Less(a.id, b.id))
  }

  lemma OlderWeak()
    ensures StrictWeak(Older)
  {
    ByIdWeak();
    forall a: Record ensures !Older(a, a) { assert !ById(a, a); }
    forall a: Record, b: Record, c: Record | Older(a, b) && Older(b, c)
      ensures Older(a, c)
    {
      if a.addedAt == b.addedAt == c.addedAt { assert ById(a, b) && ById(b, c); assert ById(a, c); }
    }
    forall a: Record, b: Record, c: Record | Older(a, c)
      ensures Older(a, b) || Older(b, c)
    {
      if a.addedAt == b.addedAt == c.addedAt { assert ById(a, c); assert ById(a, b) || ById(b, c); }
    }
  }

  /** One record of the pass; the engine's answer is an id, or none when it takes no more torrents. */
  function Restore(p: Pass, rec: Record, answer: Option<string>): Pass {
    if p.failed then p
    else if answer.None? then p.(failed := true)
    else
      var id := answer.value;
      if id in p.restored then
        if id == rec.id then p.(dropped := p.dropped + [Dropped(rec.id, rec.savePath, id)])
        else if p.store.closed then p.(failed := true)
        else p.(store := DeleteTorrent(p.store, rec.id), dropped := p.dropped + [Dropped(rec.id, rec.savePath, id)])
      else if id == rec.id then p.(restored := p.restored + [id])
      else if p.store.closed then p.(failed := true)
      else
        var gone := DeleteTorrent(p.store, rec.id);
        if id == "" then p.(store := gone, failed := true)
        else p.(store := SetTorrent(gone, rec.(id := id)), restored := p.restored + [id])
  }

  function RestoreAll(store: StoreState.State, recs: seq<Record>, answers: seq<Option<string>>): Pass
    requires |answers| == |recs|
  {
    if recs == [] then Pass(store, [], [], false)
    else
      var n := |recs| - 1;
      Restore(RestoreAll(store, recs[..n], answers[..n]), recs[n], answers[n])
  }

  /** Resume over recs, the store's records oldest first. */
  function ResumeSession(s: Session, resumer: bool, recs: seq<Record>, answers: seq<Option<string>>): Session
    requires |answers| == |recs|
  {
    if !resumer then s
    else
      var p := RestoreAll(s.store, recs, answers);
      Session(p.store, s.resumed || !p.failed, s.closed)
  }

  // ----- Save -----

  /** mergeRecord; safe is engine.SafeName. */
  function Merge(rec: Record, d: ResumeData, now: int, safe: string -> string): Record {
    var title := !Blank(rec.name) && safe(rec.name) == rec.name;
    Record(d.id,
           if d.origin != NO_ORIGIN then d.origin else rec.origin,
           if rec.addedAt == 0 then now else rec.addedAt,
           d.savePath,
           if !title || d.metainfo != "" then safe(d.name) else rec.name,
           d.magnet, d.torrentURL,
           if d.metainfo != "" then d.metainfo else rec.metainfo,
           d.paused, d.seedDone, d.uploaded, d.completedAt)
  }

  /** resumeDataFrom: what Restore is given of a record. */
  function ResumeDataFrom(rec: Record): ResumeData {
    ResumeData(rec.id, rec.origin, rec.savePath, rec.name, rec.magnet, rec.torrentURL, rec.metainfo,
               rec.paused, rec.seedDone, rec.uploaded, rec.completedAt)
  }

  const NO_RECORD := Record("", NO_ORIGIN, 0, "", "", "", "", "", false, false, 0, 0)

  function RecordOf(store: StoreState.State, id: string): Record {
    if id in store.mem.torrents then store.mem.torrents[id] else NO_RECORD
  }

  /**
   What one Save hears from the engine: the torrents listed, what ResumeData said of each
   (nothing when it failed), and the torrents listed again afterwards. The engine may
   change between any two of these calls.
   */
  datatype Heard = Heard(listed: seq<string>, data: map<string, ResumeData>, again: seq<string>, now: int)

  /** Merging each listed torrent's data into the store, in order. */
  function MergeAll(store: StoreState.State, listed: seq<string>, h: Heard, safe: string -> string): StoreState.State {
    if listed == [] then store
    else
      var n := |listed| - 1;
      var st := MergeAll(store, listed[..n], h, safe);
      var id := listed[n];
      if id in h.data then SetTorrent(st, Merge(RecordOf(st, id), h.data[id], h.now, safe)) else st
  }

  /** The torrents Save keeps a record of: those reported, and those that could not be but are still there. */
  predicate Tracks(h: Heard, id: string) {
    id in h.listed && (id in h.data || id in h.again)
  }

  /** The prune, over any listing of the records. */
  function PruneAll(store: StoreState.State, recs: seq<Record>, h: Heard): StoreState.State {
    if recs == [] then store
    else
      var n := |recs| - 1;
      var st := PruneAll(store, recs[..n], h);
      if Tracks(h, recs[n].id) then st else DeleteTorrent(st, recs[n].id)
  }

  /** saveLocked with the listing the prune went through. */
  function SaveLocked(s: Session, h: Heard, recs: seq<Record>, safe: string -> string): Session {
    if !s.resumed then s else s.(store := PruneAll(MergeAll(s.store, h.listed, h, safe), recs, h))
  }

  function Save(s: Session, h: Heard, recs: seq<Record>, safe: string -> string): Session {
    if s.closed then s else SaveLocked(s, h, recs, safe)
  }

  function SetRecord(s: Session, rec: Record): Session {
    if s.closed then s else s.(store := SetTorrent(s.store, rec))
  }

  function CloseSession(s: Session, h: Heard, recs: seq<Record>, safe: string -> string): Session {
    if s.closed then s else SaveLocked(s, h, recs, safe).(closed := true)
  }

  function Seal(s: Session): Session {
    s.(closed := true)
  }
}

/** What Resume conserves. */
module ResumeProofs {
  import opened Wrappers
  import opened Text
  import opened Sorting
  import opened Records
  import opened StoreState
  import opened Store
  import opened SessionState

  /** Every answer is an id the engine really uses. */
  ghost predicate Answered(answers: seq<Option<string>>) {
    forall i | 0 <= i < |answers| :: answers[i].Some? && answers[i].value != ""
  }

  ghost predicate DistinctIds(recs: seq<Record>) {
    forall i, j | 0 <= i < j < |recs| :: recs[i].id != recs[j].id
  }

  /** No answer is the id of a record still to come, unless that record is answered with it too. */
  ghost predicate NoTheft(recs: seq<Record>, answers: seq<Option<string>>)
    requires |answers| == |recs|
  {
    forall i, j | 0 <= i < j < |recs| && answers[i] == Some(recs[j].id) :: answers[j] == Some(recs[j].id)
  }

  /** The first record restored onto an id. */
  ghost predicate FirstOnto(answers: seq<Option<string>>, i: int, id: string) {
    0 <= i < |answers| && answers[i] == Some(id) && forall k | 0 <= k < i :: answers[k] != Some(id)
  }

  /** The pass, seen from outside, before anything is said about what the store holds. */
  ghost predicate Counted(p: Pass, recs: seq<Record>, answers: seq<Option<string>>) {
    && !p.failed && !p.store.closed
    && |p.restored| + |p.dropped| == |recs|
    && NoDup(p.restored)
    && (forall id :: id in p.restored <==> Some(id) in answers)
    && (forall d | d in p.dropped :: d.keptAs in p.restored)
  }

  lemma {:induction false} PassCounts(store: StoreState.State, recs: seq<Record>, answers: seq<Option<string>>)
    requires |answers| == |recs| && Answered(answers) && !store.closed
    ensures Counted(RestoreAll(store, recs, answers), recs, answers)
  {
    if recs != [] {
      var n := |recs| - 1;
      PassCounts(store, recs[..n], answers[..n]);
      assert answers == answers[..n] + [answers[n]];
      assert answers[n].Some?;
    }
  }

  /** The records of the pass are ones the store holds. */
  ghost predicate Held(before: map<string, Record>, recs: seq<Record>) {
    forall r | r in recs :: r.id in before && before[r.id] == r
  }

  /** Both maps say the same of id. */
  ghost predicate SameAt(a: map<string, Record>, b: map<string, Record>, id: string) {
    (id in a <==> id in b) && (id in a ==> a[id] == b[id])
  }

  function After(store: StoreState.State, recs: seq<Record>, answers: seq<Option<string>>): map<string, Record>
    requires |answers| == |recs|
  {
    RestoreAll(store, recs, answers).store.mem.torrents
  }

  /** The map holds rec under id, re-keyed and otherwise as it was. */
  ghost predicate KeptAs(m: map<string, Record>, rec: Record, id: string) {
    id in m && m[id] == rec.(id := id)
  }

  /** A record changes nothing at an id it neither names nor is the first to be answered with. */
  lemma RestoreElsewhere(p: Pass, rec: Record, a: string, id: string)
    requires !p.failed && !p.store.closed && a != ""
    requires id == rec.id ==> a == id
    requires id == a ==> a in p.restored
    ensures SameAt(Restore(p, rec, Some(a)).store.mem.torrents, p.store.mem.torrents, id)
  {
  }

  lemma {:induction false} Untouched(store: StoreState.State, recs: seq<Record>, answers: seq<Option<string>>,
      id: string)
    requires |answers| == |recs| && Answered(answers) && !store.closed
    requires Some(id) !in answers && forall r | r in recs :: r.id != id
    ensures SameAt(After(store, recs, answers), store.mem.torrents, id)
  {
    if recs != [] {
      var n := |recs| - 1;
      assert recs[n] in recs && answers[n] in answers;
      assert forall r | r in recs[..n] :: r in recs;
      assert forall a | a in answers[..n] :: a in answers;
      Untouched(store, recs[..n], answers[..n], id);
      PassCounts(store, recs[..n], answers[..n]);
      RestoreElsewhere(RestoreAll(store, recs[..n], answers[..n]), recs[n], answers[n].value, id);
    }
  }

  /** The first record restored onto an id lands there. */
  lemma FirstLands(store: StoreState.State, recs: seq<Record>, answers: seq<Option<string>>, id: string)
    requires |answers| == |recs| > 0 && Answered(answers) && !store.closed
    requires DistinctIds(recs) && Held(store.mem.torrents, recs) && FirstOnto(answers, |recs| - 1, id)
    ensures KeptAs(After(store, recs, answers), recs[|recs| - 1], id)
  {
    var n := |recs| - 1;
    var rs, as_ := recs[..n], answers[..n];
    PassCounts(store, rs, as_);
    assert forall k | 0 <= k < n :: as_[k] == answers[k];
    assert Some(id) !in as_;
    if recs[n].id == id {
      assert forall r | r in rs :: r.id != id;
      Untouched(store, rs, as_, id);
      assert recs[n] in recs;
    }
  }

  /** The first record restored onto an id is what the store holds there, unless a later move takes it away. */
  lemma {:induction false} FirstStays(store: StoreState.State, recs: seq<Record>, answers: seq<Option<string>>, i: nat,
      id: string)
    requires |answers| == |recs| && Answered(answers) && !store.closed
    requires DistinctIds(recs) && Held(store.mem.torrents, recs) && FirstOnto(answers, i, id)
    requires forall j | i < j < |recs| && recs[j].id == id :: answers[j] == Some(id)
    ensures KeptAs(After(store, recs, answers), recs[i], id)
    decreases |recs|
  {
    var n := |recs| - 1;
    if i < n {
      var rs, as_ := recs[..n], answers[..n];
      PassCounts(store, rs, as_);
      assert forall r | r in rs :: r in recs;
      FirstStays(store, rs, as_, i, id);
      assert as_[i] == Some(id) && Some(id) in as_;
      RestoreElsewhere(RestoreAll(store, rs, as_), recs[n], answers[n].value, id);
    } else {
      FirstLands(store, recs, answers, id);
    }
  }

  /** A record answered with another id leaves its own key empty, if no later record is the first onto it. */
  lemma {:induction false} MovedAway(store: StoreState.State, recs: seq<Record>, answers: seq<Option<string>>, j: nat)
    requires |answers| == |recs| && Answered(answers) && !store.closed
    requires DistinctIds(recs) && j < |recs| && answers[j] != Some(recs[j].id)
    requires Some(recs[j].id) in answers ==> Some(recs[j].id) in answers[..j]
    ensures recs[j].id !in After(store, recs, answers)
    decreases |recs|
  {
    var n := |recs| - 1;
    var rs, as_ := recs[..n], answers[..n];
    var id := recs[j].id;
    PassCounts(store, rs, as_);
    if j < n {
      assert as_[..j] == answers[..j];
      assert Some(id) in as_ ==> Some(id) in answers by {
        if Some(id) in as_ { var k :| 0 <= k < n && as_[k] == Some(id); assert answers[k] == Some(id); }
      }
      assert answers[n] in answers;
      if Some(id) in answers {
        var k :| 0 <= k < j && answers[..j][k] == Some(id);
        assert as_[k] == Some(id);
      }
      MovedAway(store, rs, as_, j);
      RestoreElsewhere(RestoreAll(store, rs, as_), recs[n], answers[n].value, id);
    }
  }

  /**
   Resume conserves records: when the engine takes them all, those restored and those
   dropped add up to the records listed, each id once, and the store is left with no key
   but a restored one.
   */
  lemma ResumeConserves(store: StoreState.State, recs: seq<Record>, answers: seq<Option<string>>)
    requires |answers| == |recs| && Answered(answers) && !store.closed
    requires Lists(store.mem.torrents, recs)
    ensures var p := RestoreAll(store, recs, answers);
      && Counted(p, recs, answers)
      && forall id | id in p.store.mem.torrents :: id in p.restored
  {
    PassCounts(store, recs, answers);
    forall id | id in After(store, recs, answers)
      ensures id in RestoreAll(store, recs, answers).restored
    {
      if Some(id) !in answers { OnlyRestored(store, recs, answers, id); }
    }
  }

  lemma OnlyRestored(store: StoreState.State, recs: seq<Record>, answers: seq<Option<string>>, id: string)
    requires |answers| == |recs| && Answered(answers) && !store.closed
    requires Lists(store.mem.torrents, recs) && Some(id) !in answers
    ensures id !in After(store, recs, answers)
  {
    assert id in store.mem.torrents ==> store.mem.torrents[id] in recs && store.mem.torrents[id].id == id;
    if exists r :: r in recs && r.id == id {
      var r :| r in recs && r.id == id;
      var j :| 0 <= j < |recs| && recs[j] == r;
      assert answers[j] in answers;
      MovedAway(store, recs, answers, j);
    } else {
      Untouched(store, recs, answers, id);
    }
  }

  /** Record j comes back as an id an earlier one was restored onto, and d says so. */
  ghost predicate DropsAt(recs: seq<Record>, answers: seq<Option<string>>, j: nat, d: Dropped)
    requires |answers| == |recs| && j < |recs|
  {
    && answers[j] in answers[..j]
    && d.id == recs[j].id && d.savePath == recs[j].savePath && Some(d.keptAs) == answers[j]
  }

  ghost predicate SomeDrops(recs: seq<Record>, answers: seq<Option<string>>, d: Dropped)
    requires |answers| == |recs|
  {
    exists j: nat :: j < |recs| && DropsAt(recs, answers, j, d)
  }

  /** A record is dropped exactly when an earlier one was restored onto the id it comes back as. */
  lemma {:induction false} DroppedExact(store: StoreState.State, recs: seq<Record>, answers: seq<Option<string>>,
      d: Dropped)
    requires |answers| == |recs| && Answered(answers) && !store.closed
    ensures d in RestoreAll(store, recs, answers).dropped <==> SomeDrops(recs, answers, d)
  {
    hide Restore;
    if recs != [] {
      var n := |recs| - 1;
      var rs, as_ := recs[..n], answers[..n];
      DroppedExact(store, rs, as_, d);
      PassCounts(store, rs, as_);
      assert Answered(answers) && answers[n].Some?;
      DropsNext(RestoreAll(store, rs, as_), recs[n], answers[n].value);
      DropsSnoc(recs, answers, d);
    }
  }

  lemma DropsNext(p: Pass, rec: Record, id: string)
    requires !p.failed && !p.store.closed && id != ""
    ensures Restore(p, rec, Some(id)).dropped ==
            p.dropped + if id in p.restored then [Dropped(rec.id, rec.savePath, id)] else []
  {
  }

  lemma DropsSnoc(recs: seq<Record>, answers: seq<Option<string>>, d: Dropped)
    requires |answers| == |recs| > 0
    ensures var n := |recs| - 1;
      SomeDrops(recs, answers, d) <==>
      SomeDrops(recs[..n], answers[..n], d)
      || (answers[n] in answers[..n] && d.id == recs[n].id && d.savePath == recs[n].savePath
          && Some(d.keptAs) == answers[n])
  {
    var n := |recs| - 1;
    forall j: nat | j < n
      ensures DropsAt(recs[..n], answers[..n], j, d) <==> DropsAt(recs, answers, j, d)
    {
      assert answers[..n][..j] == answers[..j];
    }
    if j: nat :| j < n && DropsAt(recs[..n], answers[..n], j, d) { assert DropsAt(recs, answers, j, d); }
    if DropsAt(recs, answers, n, d) { assert SomeDrops(recs, answers, d); }
  }

  /** What Resume is for: every restored id has the record of the oldest torrent restored onto it. */
  ghost predicate AllKept(store: StoreState.State, recs: seq<Record>, answers: seq<Option<string>>)
    requires |answers| == |recs|
  {
    forall i: nat, id: string | FirstOnto(answers, i, id) ::
      KeptAs(After(store, recs, answers), recs[i], id)
  }

  lemma {:induction false} FirstExists(answers: seq<Option<string>>, i: nat, id: string) returns (k: nat)
    requires i < |answers| && answers[i] == Some(id)
    ensures k <= i && FirstOnto(answers, k, id)
  {
    if k' :| 0 <= k' < i && answers[k'] == Some(id) {
      k := FirstExists(answers, k', id);
    } else {
      k := i;
    }
  }

  /**
   Every restored id keeps its record exactly when no record is restored onto the id of a
   later record that comes back under another: that one's move deletes the key, and with it
   the record already put there.
   */
  lemma KeptExactly(store: StoreState.State, recs: seq<Record>, answers: seq<Option<string>>)
    requires |answers| == |recs| && Answered(answers) && !store.closed
    requires Lists(store.mem.torrents, recs)
    ensures AllKept(store, recs, answers) <==> NoTheft(recs, answers)
  {
    if NoTheft(recs, answers) {
      forall i: nat, id: string | FirstOnto(answers, i, id)
        ensures KeptAs(After(store, recs, answers), recs[i], id)
      {
        FirstStays(store, recs, answers, i, id);
      }
    } else {
      var i, j :| 0 <= i < j < |recs| && answers[i] == Some(recs[j].id) && answers[j] != Some(recs[j].id);
      assert answers[..j][i] == Some(recs[j].id);
      MovedAway(store, recs, answers, j);
      var k := FirstExists(answers, i, recs[j].id);
    }
  }

  lemma KeysKept(store: StoreState.State, recs: seq<Record>, answers: seq<Option<string>>, id: string)
    requires |answers| == |recs| && Answered(answers) && !store.closed
    requires Lists(store.mem.torrents, recs) && NoTheft(recs, answers) && Some(id) in answers
    ensures id in After(store, recs, answers)
  {
    var i :| 0 <= i < |answers| && answers[i] == Some(id);
    var k := FirstExists(answers, i, id);
    FirstStays(store, recs, answers, k, id);
  }

  lemma KeyLost(store: StoreState.State, recs: seq<Record>, answers: seq<Option<string>>)
    requires |answers| == |recs| && Answered(answers) && !store.closed
    requires Lists(store.mem.torrents, recs) && !NoTheft(recs, answers)
    ensures exists id :: Some(id) in answers && id !in After(store, recs, answers)
  {
    var i, j :| 0 <= i < j < |recs| && answers[i] == Some(recs[j].id) && answers[j] != Some(recs[j].id);
    assert answers[..j][i] == Some(recs[j].id) && answers[i] in answers;
    MovedAway(store, recs, answers, j);
  }

  /** The store's keys are then the restored ids and nothing else. */
  lemma KeysAreRestored(store: StoreState.State, recs: seq<Record>, answers: seq<Option<string>>)
    requires |answers| == |recs| && Answered(answers) && !store.closed
    requires Lists(store.mem.torrents, recs)
    ensures NoTheft(recs, answers) <==>
      (forall id :: id in After(store, recs, answers) <==> id in RestoreAll(store, recs, answers).restored)
  {
    hide RestoreAll, NoTheft;
    ResumeConserves(store, recs, answers);
    if NoTheft(recs, answers) {
      forall id | Some(id) in answers
        ensures id in After(store, recs, answers)
      {
        KeysKept(store, recs, answers, id);
      }
    } else {
      KeyLost(store, recs, answers);
    }
  }

  /**
   An engine that starts empty answers each record with its own id while that is free, or
   with an id it already answered (the torrent is the same one). Only for an id it has
   answered already does it mint another.
   */
  ghost predicate FromEmpty(recs: seq<Record>, answers: seq<Option<string>>)
    requires |answers| == |recs|
  {
    forall j | 0 <= j < |recs| :: answers[j] == Some(recs[j].id) || answers[j] in answers[..j] ||
      Some(recs[j].id) in answers[..j]
  }

  lemma {:induction false} FromEmptyOwn(recs: seq<Record>, answers: seq<Option<string>>, j: nat)
    requires |answers| == |recs| && DistinctIds(recs) && FromEmpty(recs, answers) && j < |recs|
    ensures exists i :: 0 <= i <= j && answers[j] == Some(recs[i].id)
  {
    if answers[j] != Some(recs[j].id) {
      var a := if answers[j] in answers[..j] then answers[j] else Some(recs[j].id);
      var k :| 0 <= k < j && answers[..j][k] == a;
      FromEmptyOwn(recs, answers, k);
    }
  }

  /** From an empty engine nothing is taken away: Resume keeps every restored record. */
  lemma FromEmptyKeeps(store: StoreState.State, recs: seq<Record>, answers: seq<Option<string>>)
    requires |answers| == |recs| && Answered(answers) && !store.closed
    requires Lists(store.mem.torrents, recs) && FromEmpty(recs, answers)
    ensures AllKept(store, recs, answers)
    ensures forall id :: id in After(store, recs, answers) <==> id in RestoreAll(store, recs, answers).restored
  {
    forall i, j | 0 <= i < j < |recs|
      ensures answers[i] != Some(recs[j].id)
    {
      FromEmptyOwn(recs, answers, i);
    }
    assert NoTheft(recs, answers);
    KeptExactly(store, recs, answers);
    KeysAreRestored(store, recs, answers);
  }

  /** Of the records restored onto the same id, record i was added first, or at that time has the first id. */
  ghost predicate OldestOnto(recs: seq<Record>, answers: seq<Option<string>>, i: nat)
    requires |answers| == |recs| && i < |recs|
  {
    forall k | 0 <= k < |recs| && k != i && answers[k] == answers[i] ::
      recs[i].addedAt < recs[k].addedAt || (recs[i].addedAt == recs[k].addedAt && Less(recs[i].id, recs[k].id))
  }

  /** Of the records restored onto one id, the oldest stays: the pass goes oldest first, then by id. */
  lemma OldestStays(store: StoreState.State, recs: seq<Record>, answers: seq<Option<string>>, j: nat)
    requires |answers| == |recs| && Answered(answers) && !store.closed
    requires Lists(store.mem.torrents, recs) && Sorted(Older, recs) && NoTheft(recs, answers)
    requires j < |recs|
    ensures exists i: nat :: (FirstOnto(answers, i, answers[j].value) && OldestOnto(recs, answers, i)
                              && KeptAs(After(store, recs, answers), recs[i], answers[j].value))
  {
    var id := answers[j].value;
    var i := FirstExists(answers, j, id);
    KeptExactly(store, recs, answers);
    OlderWeak();
    forall k | 0 <= k < |recs| && k != i && answers[k] == answers[i]
      ensures recs[i].addedAt < recs[k].addedAt || (recs[i].addedAt == recs[k].addedAt && Less(recs[i].id, recs[k].id))
    {
      assert i < k;
      assert !Older(recs[k], recs[i]);
      LessTotal(recs[i].id, recs[k].id);
    }
    assert OldestOnto(recs, answers, i);
  }
}

/** What Save leaves, and what no Save takes away. */
module SaveProofs {
  import opened Wrappers
  import opened Text
  import opened Records
  import StoreState
  import Store
  import opened SessionState

  ghost predicate Idempotent(safe: string -> string) {
    forall n :: safe(safe(n)) == safe(n)
  }

  /** ResumeData answers about the torrent it was asked about, and torrent ids are not empty. */
  ghost predicate Honest(h: Heard) {
    forall id | id in h.listed && id in h.data :: id != "" && h.data[id].id == id
  }

  /** Saving the same data again changes nothing. */
  lemma MergeIdempotent(rec: Record, d: ResumeData, now: int, later: int, safe: string -> string)
    requires Idempotent(safe) && now != 0
    ensures Merge(Merge(rec, d, now, safe), d, later, safe) == Merge(rec, d, now, safe)
  {
  }

  /** The name recorded is one a torrent may be shown under: neither blank nor an address. */
  predicate Titled(rec: Record, safe: string -> string) {
    (exists i :: 0 <= i < |rec.name| && !IsSpace(rec.name[i])) && safe(rec.name) == rec.name
  }

  /**
   What a save wrote is what the next session restores: the data as reported, except that
   a missing origin or metainfo is the one recorded before, and the name a recorded title
   until the torrent's own is known. The time first recorded stays.
   */
  lemma SavedComesBack(rec: Record, d: ResumeData, now: int, safe: string -> string)
    ensures var m := Merge(rec, d, now, safe);
      && ResumeDataFrom(m) == d.(origin := m.origin, name := m.name, metainfo := m.metainfo)
      && (d.origin == Origin("", "") ==> m.origin == rec.origin)
      && (d.origin != Origin("", "") ==> m.origin == d.origin)
      && (d.metainfo == "" ==> m.metainfo == rec.metainfo)
      && (d.metainfo != "" ==> m.metainfo == d.metainfo)
      && (rec.addedAt == 0 ==> m.addedAt == now)
      && (rec.addedAt != 0 ==> m.addedAt == rec.addedAt)
      && (d.metainfo == "" && Titled(rec, safe) ==> m.name == rec.name)
      && (d.metainfo != "" || !Titled(rec, safe) ==> m.name == safe(d.name))
  {
  }

  /** The keys a merge adds are the ids reported; each record is its torrent's latest merge. */
  lemma {:induction false} MergeLeaves(store: StoreState.State, listed: seq<string>, h: Heard, safe: string -> string,
      id: string)
    requires !store.closed && Honest(h) && forall x | x in listed :: x in h.listed
    ensures var st := MergeAll(store, listed, h, safe);
      && !st.closed
      && (id in st.mem.torrents <==> id in store.mem.torrents || (id in listed && id in h.data))
      && (id !in listed || id !in h.data ==> RecordOf(st, id) == RecordOf(store, id))
  {
    if listed != [] {
      var n := |listed| - 1;
      assert listed == listed[..n] + [listed[n]];
      assert listed[n] in listed;
      MergeLeaves(store, listed[..n], h, safe, id);
    }
  }

  lemma {:induction false} PruneLeaves(store: StoreState.State, recs: seq<Record>, h: Heard, id: string)
    requires !store.closed
    ensures var st := PruneAll(store, recs, h);
      && !st.closed
      && (id in st.mem.torrents <==> id in store.mem.torrents && (Tracks(h, id) || forall r | r in recs :: r.id != id))
      && (id in st.mem.torrents ==> st.mem.torrents[id] == store.mem.torrents[id])
  {
    if recs != [] {
      var n := |recs| - 1;
      assert recs == recs[..n] + [recs[n]];
      PruneLeaves(store, recs[..n], h, id);
    }
  }

  /** The error-free outcome: no ResumeData failed for a torrent still there. */
  predicate NoErrors(h: Heard) {
    forall id | id in h.listed :: id in h.data || id !in h.again
  }

  /**
   After a Save the store's ids are those reported, with those not reported but still
   tracked that had a record already; without errors, exactly those reported.
   */
  lemma SaveExact(s: Session, h: Heard, recs: seq<Record>, safe: string -> string, id: string)
    requires s.resumed && !s.closed && !s.store.closed && Honest(h)
    requires Store.Lists(MergeAll(s.store, h.listed, h, safe).mem.torrents, recs)
    ensures var after := Save(s, h, recs, safe).store.mem.torrents;
      && (id in after <==> id in h.listed && (id in h.data || (id in h.again && id in s.store.mem.torrents)))
      && (NoErrors(h) ==> (id in after <==> id in h.listed && id in h.data))
  {
    var st := MergeAll(s.store, h.listed, h, safe);
    MergeLeaves(s.store, h.listed, h, safe, id);
    PruneLeaves(st, recs, h, id);
    assert id in st.mem.torrents ==> st.mem.torrents[id] in recs && st.mem.torrents[id].id == id;
  }

  // ----- runs -----

  datatype Event =
    | EvResume(resumer: bool, listed: seq<Record>, answers: seq<Option<string>>)
    | EvSave(h: Heard, recs: seq<Record>)
    | EvSetRecord(rec: Record)
    | EvClose(ch: Heard, crecs: seq<Record>)
    | EvSeal

  function Apply(s: Session, ev: Event, safe: string -> string): Session {
    match ev
    case EvResume(resumer, listed, answers) =>
      if |answers| == |listed| then ResumeSession(s, resumer, listed, answers) else s
    case EvSave(h, recs) => Save(s, h, recs, safe)
    case EvSetRecord(rec) => SetRecord(s, rec)
    case EvClose(h, recs) => CloseSession(s, h, recs, safe)
    case EvSeal => Seal(s)
  }

  function Run(s: Session, evs: seq<Event>, safe: string -> string): Session
    decreases |evs|
  {
    if evs == [] then s else Run(Apply(s, evs[0], safe), evs[1..], safe)
  }

  /** A Resume that restores every record it lists. */
  predicate Succeeds(s: Session, ev: Event) {
    ev.EvResume? && ev.resumer && |ev.answers| == |ev.listed| && !RestoreAll(s.store, ev.listed, ev.answers).failed
  }

  predicate NoneSucceeds(s: Session, evs: seq<Event>, safe: string -> string)
    decreases |evs|
  {
    evs != [] ==> !Succeeds(s, evs[0]) && NoneSucceeds(Apply(s, evs[0], safe), evs[1..], safe)
  }

  /** The session counts as resumed exactly from the first Resume on that restored every record it listed. */
  lemma {:induction false} ResumedExactly(s: Session, evs: seq<Event>, safe: string -> string)
    ensures Run(s, evs, safe).resumed <==> s.resumed || !NoneSucceeds(s, evs, safe)
    decreases |evs|
  {
    if evs != [] { ResumedExactly(Apply(s, evs[0], safe), evs[1..], safe); }
  }

  /** Close is a last save, after which the session is closed whatever it was. */
  lemma CloseSavesLast(s: Session, h: Heard, recs: seq<Record>, safe: string -> string)
    ensures CloseSession(s, h, recs, safe) == Seal(Save(s, h, recs, safe)) && CloseSession(s, h, recs, safe).closed
  {
  }

  /** The run with no Save in it, and every Close a mere Seal. */
  function Unsaved(evs: seq<Event>): seq<Event> {
    if evs == [] then []
    else
      (match evs[0]
       case EvSave(_, _) => []
       case EvClose(_, _) => [EvSeal]
       case _ => [evs[0]]) + Unsaved(evs[1..])
  }

  lemma RunFrom(s: Session, a: seq<Event>, b: seq<Event>, safe: string -> string)
    requires |a| <= 1
    ensures Run(s, a + b, safe) == if a == [] then Run(s, b, safe) else Run(Apply(s, a[0], safe), b, safe)
  {
    if a == [] { assert a + b == b; } else { assert (a + b)[1..] == b; }
  }

  /**
   Until a Resume has restored every record, no Save and no Close changes the store: whatever
   the run, it ends as the run without them does, so nothing not yet restored is pruned.
   */
  lemma {:induction false} SaveHolds(s: Session, evs: seq<Event>, safe: string -> string)
    requires !s.resumed && NoneSucceeds(s, evs, safe)
    ensures !Run(s, evs, safe).resumed && Run(s, evs, safe) == Run(s, Unsaved(evs), safe)
    decreases |evs|
  {
    if evs != [] {
      SaveHolds(Apply(s, evs[0], safe), evs[1..], safe);
      var rest := Unsaved(evs[1..]);
      match evs[0]
      case EvSave(_, _) => RunFrom(s, [], rest, safe);
      case EvClose(_, _) => RunFrom(s, [EvSeal], rest, safe);
      case EvResume(_, _, _) => RunFrom(s, [evs[0]], rest, safe);
      case EvSetRecord(_) => RunFrom(s, [evs[0]], rest, safe);
      case EvSeal => RunFrom(s, [evs[0]], rest, safe);
    }
  }

  // ----- what a run of saves makes of a record -----

  /** The engine lists id once, its ResumeData honest; it need not succeed while the torrent is there. */
  ghost predicate Listed(h: Heard, id: string) {
    Honest(h) && NoDup(h.listed) && id in h.listed && (id in h.data || id in h.again)
  }

  /** What the saves of a run were told of id, each with its time, in order. */
  function Told(evs: seq<Event>, id: string): seq<(ResumeData, int)> {
    if evs == [] then []
    else
      var ev := evs[|evs| - 1];
      Told(evs[..|evs| - 1], id) +
      (if ev.EvSave? && id in ev.h.data then [(ev.h.data[id], ev.h.now)] else [])
  }

  /** A save that lists id, or a record written for another torrent. */
  ghost predicate Concerns(ev: Event, id: string) {
    (ev.EvSave? && Listed(ev.h, id)) || (ev.EvSetRecord? && ev.rec.id != id)
  }

  lemma {:induction false} MergeWrites(store: StoreState.State, listed: seq<string>, h: Heard, safe: string -> string,
      id: string)
    requires !store.closed && Honest(h) && NoDup(listed) && forall x | x in listed :: x in h.listed
    ensures var st := MergeAll(store, listed, h, safe);
      RecordOf(st, id) == if id in listed && id in h.data then Merge(RecordOf(store, id), h.data[id], h.now, safe)
                          else RecordOf(store, id)
  {
    hide Merge;
    if listed != [] {
      var n := |listed| - 1;
      assert listed == listed[..n] + [listed[n]];
      assert listed[n] in listed;
      MergeLeaves(store, listed[..n], h, safe, id);
      MergeWrites(store, listed[..n], h, safe, id);
      if listed[n] in h.data {
        MergeIsOf(RecordOf(MergeAll(store, listed[..n], h, safe), listed[n]), h, safe, listed[n]);
      }
    }
  }

  lemma MergeIsOf(rec: Record, h: Heard, safe: string -> string, id: string)
    requires id in h.data
    ensures Merge(rec, h.data[id], h.now, safe).id == h.data[id].id
  {
  }

  /** One event more: the record merged with what was told, or as it was. */
  lemma SaveWrites(s: Session, ev: Event, safe: string -> string, id: string)
    requires s.resumed && !s.closed && !s.store.closed && Concerns(ev, id)
    ensures var s' := Apply(s, ev, safe);
      && s'.resumed && !s'.closed && !s'.store.closed
      && RecordOf(s'.store, id) ==
           if ev.EvSave? && id in ev.h.data then Merge(RecordOf(s.store, id), ev.h.data[id], ev.h.now, safe)
           else RecordOf(s.store, id)
  {
    hide Merge;
    if ev.EvSave? {
      var st := MergeAll(s.store, ev.h.listed, ev.h, safe);
      MergeLeaves(s.store, ev.h.listed, ev.h, safe, id);
      MergeWrites(s.store, ev.h.listed, ev.h, safe, id);
      PruneLeaves(st, ev.recs, ev.h, id);
    }
  }

  lemma {:induction false} RunSnoc(s: Session, evs: seq<Event>, safe: string -> string)
    requires evs != []
    ensures Run(s, evs, safe) == Apply(Run(s, evs[..|evs| - 1], safe), evs[|evs| - 1], safe)
    decreases |evs|
  {
    if |evs| > 1 {
      RunSnoc(Apply(s, evs[0], safe), evs[1..], safe);
      assert evs[1..][..|evs| - 2] == evs[..|evs| - 1][1..];
    } else {
      assert evs[..0] == [] && evs[1..] == [];
    }
  }

  function LastOrigin(told: seq<(ResumeData, int)>, was: Origin): Origin {
    if told == [] then was
    else if told[|told| - 1].0.origin != Origin("", "") then told[|told| - 1].0.origin
    else LastOrigin(told[..|told| - 1], was)
  }

  function LastMetainfo(told: seq<(ResumeData, int)>, was: string): string {
    if told == [] then was
    else if told[|told| - 1].0.metainfo != "" then told[|told| - 1].0.metainfo
    else LastMetainfo(told[..|told| - 1], was)
  }

  /** What the record says after the saves of a run, given what they were told. */
  ghost predicate Tells(rec: Record, was: Record, told: seq<(ResumeData, int)>, safe: string -> string) {
    && rec.origin == LastOrigin(told, was.origin) && rec.metainfo == LastMetainfo(told, was.metainfo)
    && rec.addedAt == (if told == [] || was.addedAt != 0 then was.addedAt else told[0].1)
    && (told != [] ==>
          var d := told[|told| - 1].0;
          && ResumeDataFrom(rec) == d.(origin := rec.origin, name := rec.name, metainfo := rec.metainfo)
          && (d.metainfo != "" ==> rec.name == safe(d.name)))
    && (told == [] ==> rec == was)
    && (Titled(was, safe) && (forall i | 0 <= i < |told| :: told[i].0.metainfo == "") ==> rec.name == was.name)
  }

  lemma TellsNext(rec: Record, was: Record, told: seq<(ResumeData, int)>, d: ResumeData, now: int,
      safe: string -> string)
    requires Tells(rec, was, told, safe) && now != 0 && forall i | 0 <= i < |told| :: told[i].1 != 0
    ensures Tells(Merge(rec, d, now, safe), was, told + [(d, now)], safe)
  {
    hide Merge, Titled;
    SavedComesBack(rec, d, now, safe);
    var more := told + [(d, now)];
    assert more[..|more| - 1] == told;
    if forall i | 0 <= i < |more| :: more[i].0.metainfo == "" {
      assert more[|told|].0.metainfo == "";
      forall i | 0 <= i < |told|
        ensures told[i].0.metainfo == ""
      {
        assert more[i] == told[i];
      }
      if Titled(was, safe) { SameTitle(rec, was, safe); }
    }
  }

  lemma SameTitle(rec: Record, was: Record, safe: string -> string)
    requires rec.name == was.name
    ensures Titled(rec, safe) == Titled(was, safe)
  {
  }

  /**
   Whatever saves come, the record of a torrent they list is what the last of them was told,
   under the time of the first, with the last origin and metainfo anyone told, and under its
   recorded title until a metainfo comes.
   */
  lemma {:induction false} RecordAfterSaves(s: Session, evs: seq<Event>, safe: string -> string, id: string)
    requires s.resumed && !s.closed && !s.store.closed
    requires forall i | 0 <= i < |evs| :: Concerns(evs[i], id) && (evs[i].EvSave? ==> evs[i].h.now != 0)
    ensures var s' := Run(s, evs, safe);
      && s'.resumed && !s'.closed && !s'.store.closed
      && Tells(RecordOf(s'.store, id), RecordOf(s.store, id), Told(evs, id), safe)
      && (forall i | 0 <= i < |Told(evs, id)| :: Told(evs, id)[i].1 != 0)
    decreases |evs|
  {
    hide Tells, Merge, Concerns;
    if evs == [] {
      TellsNothing(RecordOf(s.store, id), safe);
    } else {
      var past, ev := evs[..|evs| - 1], evs[|evs| - 1];
      RecordAfterSaves(s, past, safe, id);
      RunSnoc(s, evs, safe);
      assert Concerns(ev, id);
      var s1 := Run(s, past, safe);
      SaveWrites(s1, ev, safe, id);
      if ev.EvSave? && id in ev.h.data {
        TellsNext(RecordOf(s1.store, id), RecordOf(s.store, id), Told(past, id), ev.h.data[id], ev.h.now, safe);
      } else {
        assert Told(evs, id) == Told(past, id);
      }
    }
  }

  lemma TellsNothing(rec: Record, safe: string -> string)
    ensures Tells(rec, rec, [], safe)
  {
  }

  function Resumes(evs: seq<Event>): seq<Event> {
    if evs == [] then [] else (if evs[0].EvResume? then [evs[0]] else []) + Resumes(evs[1..])
  }

  /** After Close or Seal nothing but a Resume changes the session or its store. */
  lemma {:induction false} ClosedHolds(s: Session, evs: seq<Event>, safe: string -> string)
    requires s.closed
    ensures Run(s, evs, safe).closed && Run(s, evs, safe) == Run(s, Resumes(evs), safe)
    decreases |evs|
  {
    if evs != [] {
      ClosedHolds(Apply(s, evs[0], safe), evs[1..], safe);
      RunFrom(s, if evs[0].EvResume? then [evs[0]] else [], Resumes(evs[1..]), safe);
    }
  }

  /** The engine tracks id all through the save, and reports no origin of its own for it. */
  ghost predicate TrackedIn(h: Heard, id: string) {
    && Honest(h)
    && id in h.listed && (id in h.data || id in h.again)
    && (id in h.data ==> h.data[id].origin == NO_ORIGIN)
  }

  /** The engine takes the record of id back under its id, and another under it only after one already was. */
  ghost predicate KeepsId(listed: seq<Record>, answers: seq<Option<string>>, id: string)
    requires |answers| == |listed|
  {
    && (forall i | 0 <= i < |listed| && listed[i].id == id :: answers[i] == Some(id))
    && (forall i | 0 <= i < |listed| && listed[i].id != id && answers[i] == Some(id) :: Some(id) in answers[..i])
  }

  ghost predicate Spares(ev: Event, id: string) {
    match ev
    case EvResume(resumer, listed, answers) => resumer && |answers| == |listed| ==> KeepsId(listed, answers, id)
    case EvSave(h, _) => TrackedIn(h, id)
    case EvClose(h, _) => TrackedIn(h, id)
    case EvSetRecord(rec) => rec.id != id
    case EvSeal => true
  }

  /** The record still there, its origin and time as recorded. */
  ghost predicate Remembers(s: Session, rec: Record) {
    && !s.store.closed
    && rec.id in s.store.mem.torrents
    && s.store.mem.torrents[rec.id].addedAt == rec.addedAt
    && s.store.mem.torrents[rec.id].origin == rec.origin
    && s.store.mem.torrents[rec.id].id == rec.id
  }

  lemma {:induction false} MergeRemembers(s: Session, listed: seq<string>, h: Heard, safe: string -> string,
      rec: Record)
    requires Remembers(s, rec) && rec.addedAt != 0 && TrackedIn(h, rec.id) && forall x | x in listed :: x in h.listed
    ensures Remembers(s.(store := MergeAll(s.store, listed, h, safe)), rec)
  {
    if listed != [] {
      var n := |listed| - 1;
      assert listed[n] in listed;
      MergeRemembers(s, listed[..n], h, safe, rec);
    }
  }

  lemma SaveRemembers(s: Session, h: Heard, recs: seq<Record>, safe: string -> string, rec: Record)
    requires Remembers(s, rec) && rec.addedAt != 0 && TrackedIn(h, rec.id)
    ensures Remembers(SaveLocked(s, h, recs, safe), rec)
  {
    MergeRemembers(s, h.listed, h, safe, rec);
    PruneLeaves(MergeAll(s.store, h.listed, h, safe), recs, h, rec.id);
  }

  /** What one record of the pass keeps. */
  ghost predicate PassHolds(s: Session, p: Pass, answered: bool, rec: Record) {
    Remembers(s.(store := p.store), rec) && (!p.failed && answered ==> rec.id in p.restored)
  }

  lemma RestoreHolds(s: Session, p: Pass, r: Record, a: Option<string>, answered: bool, rec: Record)
    requires PassHolds(s, p, answered, rec)
    requires r.id == rec.id ==> a == Some(rec.id)
    requires r.id != rec.id && a == Some(rec.id) ==> answered
    ensures PassHolds(s, Restore(p, r, a), answered || a == Some(rec.id), rec)
  {
  }

  lemma {:induction false} PassRemembers(s: Session, listed: seq<Record>, answers: seq<Option<string>>, rec: Record)
    requires |answers| == |listed| && Remembers(s, rec) && KeepsId(listed, answers, rec.id)
    ensures PassHolds(s, RestoreAll(s.store, listed, answers), Some(rec.id) in answers, rec)
  {
    if listed != [] {
      var n := |listed| - 1;
      var ls, as_ := listed[..n], answers[..n];
      assert answers == as_ + [answers[n]];
      forall i | 0 <= i < n
        ensures ls[i].id == rec.id ==> as_[i] == Some(rec.id)
        ensures ls[i].id != rec.id && as_[i] == Some(rec.id) ==> Some(rec.id) in as_[..i]
      {
        assert as_[..i] == answers[..i];
      }
      PassRemembers(s, ls, as_, rec);
      RestoreHolds(s, RestoreAll(s.store, ls, as_), listed[n], answers[n], Some(rec.id) in as_, rec);
    }
  }

  /**
   A record the add flow wrote for a torrent the engine tracks from then on outlives every
   later Save, Close, Resume and record written for another torrent, with its time and its origin.
   */
  lemma {:induction false} RecordOutlivesSaves(s: Session, rec: Record, evs: seq<Event>, safe: string -> string)
    requires Remembers(s, rec) && rec.addedAt != 0
    requires forall ev | ev in evs :: Spares(ev, rec.id)
    ensures Remembers(Run(s, evs, safe), rec)
    decreases |evs|
  {
    if evs != [] {
      var ev := evs[0];
      assert ev in evs && Spares(ev, rec.id);
      match ev {
        case EvSave(h, recs) => if !s.closed { SaveRemembers(s, h, recs, safe, rec); }
        case EvClose(h, recs) => if !s.closed { SaveRemembers(s, h, recs, safe, rec); }
        case EvResume(resumer, listed, answers) =>
          if resumer && |answers| == |listed| { PassRemembers(s, listed, answers, rec); }
        case _ =>
      }
      RecordOutlivesSaves(Apply(s, ev, safe), rec, evs[1..], safe);
    }
  }

  /** SetTorrent while the session is open writes such a record. */
  lemma SetRemembered(s: Session, rec: Record, evs: seq<Event>, safe: string -> string)
    requires !s.closed && !s.store.closed && rec.id != "" && rec.addedAt != 0
    requires forall ev | ev in evs :: Spares(ev, rec.id)
    ensures Remembers(Run(SetRecord(s, rec), evs, safe), rec)
  {
    RecordOutlivesSaves(SetRecord(s, rec), rec, evs, safe);
  }
}

/** The session: one lock, one store. */
module Session {
  import opened Wrappers
  import opened Records
  import opened Sorting
  import StoreState
  import Store
  import opened SessionState
  import opened SaveProofs

  /** The answers an engine gives the records in turn, by record id. */
  function AnswersFor(recs: seq<Record>, answer: string -> Option<string>): seq<Option<string>> {
    seq(|recs|, i requires 0 <= i < |recs| => answer(recs[i].id))
  }

  /** A pass that failed stays as it is. */
  lemma {:induction false} FailedStays(store: StoreState.State, recs: seq<Record>, answers: seq<Option<string>>, i: nat)
    requires |answers| == |recs| && i <= |recs| && RestoreAll(store, recs[..i], answers[..i]).failed
    ensures RestoreAll(store, recs, answers) == RestoreAll(store, recs[..i], answers[..i])
    decreases |recs|
  {
    if i == |recs| {
      assert recs[..i] == recs && answers[..i] == answers;
    } else {
      var n := |recs| - 1;
      assert recs[..n][..i] == recs[..i] && answers[..n][..i] == answers[..i];
      FailedStays(store, recs[..n], answers[..n], i);
    }
  }

  lemma NextRestore(store: StoreState.State, recs: seq<Record>, answers: seq<Option<string>>, i: nat)
    requires |answers| == |recs| && i < |recs|
    ensures RestoreAll(store, recs[..i + 1], answers[..i + 1]) ==
      Restore(RestoreAll(store, recs[..i], answers[..i]), recs[i], answers[i])
  {
    assert recs[..i + 1][..i] == recs[..i] && answers[..i + 1][..i] == answers[..i];
  }

  class Session {
    const store: Store.Store
    var resumed: bool
    var closed: bool

    ghost function View(): SessionState.Session
      reads this, store
    {
      SessionState.Session(store.View(), resumed, closed)
    }

    constructor (st: Store.Store)
      ensures store == st && View() == SessionState.Session(st.View(), false, false)
    {
      store, resumed, closed := st, false, false;
    }

    /** One record of Resume's loop. */
    method RestoreOne(rec: Record, answer: Option<string>, restored: seq<string>, dropped: seq<Dropped>)
      returns (ok: bool, restored': seq<string>, dropped': seq<Dropped>)
      modifies store
      ensures Pass(store.View(), restored', dropped', !ok) ==
        Restore(Pass(old(store.View()), restored, dropped, false), rec, answer)
    {
      ok, restored', dropped' := true, restored, dropped;
      if answer.None? {
        ok := false;
        return;
      }
      var id := answer.value;
      if id in restored {
        if id != rec.id {
          ok := store.DeleteTorrent(rec.id);
          if !ok {
            return;
          }
        }
        dropped' := dropped + [Dropped(rec.id, rec.savePath, id)];
      } else {
        if id != rec.id {
          ok := store.DeleteTorrent(rec.id);
          if !ok {
            return;
          }
          ok := store.SetTorrent(rec.(id := id));
          if !ok {
            return;
          }
        }
        restored' := restored + [id];
      }
    }

    /** Resume: every record oldest first, up to the first the engine or the store refuses. */
    method Resume(resumer: bool, answer: string -> Option<string>)
      returns (ok: bool, restored: seq<string>, dropped: seq<Dropped>, ghost recs: seq<Record>)
      requires Store.Keyed(store.torrents)
      modifies this, store
      ensures Store.Lists(old(store.torrents), recs) && Sorted(Older, recs)
      ensures View() == ResumeSession(old(View()), resumer, recs, AnswersFor(recs, answer))
      ensures resumer ==>
        RestoreAll(old(store.View()), recs, AnswersFor(recs, answer)) == Pass(store.View(), restored, dropped, !ok)
    {
      var records := OldestFirst();
      recs := records;
      ok, restored, dropped := true, [], [];
      if resumer {
        ok, restored, dropped := RestoreEach(records, answer);
        resumed := resumed || ok;
      }
    }

    method OldestFirst() returns (records: seq<Record>)
      requires Store.Keyed(store.torrents)
      ensures Store.Lists(store.torrents, records) && Sorted(Older, records)
    {
      records := store.ListTorrents();
      Store.SortLists(Older, store.torrents, records);
      OlderWeak();
      SortSorted(Older, records);
      records := Sort(Older, records);
    }

    method RestoreEach(records: seq<Record>, answer: string -> Option<string>)
      returns (ok: bool, restored: seq<string>, dropped: seq<Dropped>)
      modifies store
      ensures RestoreAll(old(store.View()), records, AnswersFor(records, answer)) ==
        Pass(store.View(), restored, dropped, !ok)
    {
      ok, restored, dropped := true, [], [];
      ghost var answers := AnswersFor(records, answer);
      ghost var st := store.View();
      var i := 0;
      while i < |records|
        invariant i <= |records| && ok
        invariant RestoreAll(st, records[..i], answers[..i]) == Pass(store.View(), restored, dropped, false)
        modifies store
      {
        NextRestore(st, records, answers, i);
        ok, restored, dropped := RestoreOne(records[i], answer(records[i].id), restored, dropped);
        i := i + 1;
        if !ok {
          FailedStays(st, records, answers, i);
          return;
        }
      }
      assert records[..i] == records && answers[..i] == answers;
    }

    /** saveLocked. */
    method SaveLocked(h: Heard, safe: string -> string) returns (ok: bool, ghost recs: seq<Record>)
      requires Store.Keyed(store.torrents)
      modifies store
      ensures View() == SessionState.SaveLocked(old(View()), h, recs, safe)
      ensures resumed ==> Store.Lists(MergeAll(old(store.View()), h.listed, h, safe).mem.torrents, recs)
      ensures resumed && !old(store.closed) && Honest(h) ==> (ok <==> NoErrors(h))
      ensures Store.Keyed(store.torrents)
    {
      ok, recs := true, [];
      if !resumed {
        return;
      }
      var tracked, failed;
      ok, tracked, failed := MergeEach(h, safe);
      var missing := StillThere(h, failed);
      assert forall id :: id in missing ==> id in h.listed && id !in h.data && id in h.again;
      assert NoErrors(h) <==> missing == {} by {
        if id :| id in h.listed && id !in h.data && id in h.again { assert id in missing; }
      }
      if missing != {} {
        ok := false;
      }
      tracked := tracked + missing;
      var records := store.ListTorrents();
      recs := records;
      var pruned := PruneEach(records, tracked, h);
      ok := ok && pruned;
    }

    method MergeEach(h: Heard, safe: string -> string) returns (ok: bool, tracked: set<string>, failed: set<string>)
      requires Store.Keyed(store.torrents)
      modifies store
      ensures store.View() == MergeAll(old(store.View()), h.listed, h, safe)
      ensures tracked == (set id | id in h.listed && id in h.data)
      ensures failed == (set id | id in h.listed && id !in h.data)
      ensures Store.Keyed(store.torrents) && store.closed == old(store.closed)
      ensures !store.closed && Honest(h) ==> ok
    {
      ok, tracked, failed := true, {}, {};
      ghost var st := store.View();
      var i := 0;
      while i < |h.listed|
        invariant i <= |h.listed|
        invariant store.View() == MergeAll(st, h.listed[..i], h, safe)
        invariant tracked == (set id | id in h.listed[..i] && id in h.data)
        invariant failed == (set id | id in h.listed[..i] && id !in h.data)
        invariant Store.Keyed(store.torrents) && store.closed == old(store.closed)
        invariant !store.closed && Honest(h) ==> ok
        modifies store
      {
        var id := h.listed[i];
        assert h.listed[..i + 1] == h.listed[..i] + [id] && h.listed[..i + 1][..i] == h.listed[..i];
        if id in h.data {
          tracked := tracked + {id};
          var rec := if id in store.torrents then store.torrents[id] else NO_RECORD;
          var set_ := store.SetTorrent(Merge(rec, h.data[id], h.now, safe));
          ok := ok && set_;
        } else {
          failed := failed + {id};
        }
        i := i + 1;
      }
      assert h.listed[..i] == h.listed;
    }

    /** The torrents that failed but are listed again: their records are kept, and reported. */
    static method StillThere(h: Heard, failed: set<string>) returns (missing: set<string>)
      ensures missing == (set id | id in h.again && id in failed)
    {
      missing := {};
      var i := 0;
      while i < |h.again|
        invariant i <= |h.again|
        invariant missing == (set id | id in h.again[..i] && id in failed)
      {
        assert h.again[..i + 1] == h.again[..i] + [h.again[i]];
        if h.again[i] in failed {
          missing := missing + {h.again[i]};
        }
        i := i + 1;
      }
      assert h.again[..i] == h.again;
    }

    method PruneEach(records: seq<Record>, tracked: set<string>, ghost h: Heard) returns (ok: bool)
      requires Store.Keyed(store.torrents)
      requires forall id :: id in tracked <==> Tracks(h, id)
      modifies store
      ensures store.View() == PruneAll(old(store.View()), records, h)
      ensures Store.Keyed(store.torrents) && (!old(store.closed) ==> ok)
    {
      ok := true;
      ghost var st := store.View();
      var i := 0;
      while i < |records|
        invariant i <= |records|
        invariant store.View() == PruneAll(st, records[..i], h)
        invariant Store.Keyed(store.torrents) && store.closed == old(store.closed) && (!store.closed ==> ok)
        modifies store
      {
        assert records[..i + 1][..i] == records[..i];
        if records[i].id !in tracked {
          var gone := store.DeleteTorrent(records[i].id);
          ok := ok && gone;
        }
        i := i + 1;
      }
      assert records[..i] == records;
    }

    method Save(h: Heard, safe: string -> string) returns (ok: bool, ghost recs: seq<Record>)
      requires Store.Keyed(store.torrents)
      modifies store
      ensures View() == SessionState.Save(old(View()), h, recs, safe)
      ensures resumed && !closed ==> Store.Lists(MergeAll(old(store.View()), h.listed, h, safe).mem.torrents, recs)
      ensures resumed && !closed && !old(store.closed) && Honest(h) ==> (ok <==> NoErrors(h))
    {
      ok, recs := true, [];
      if closed {
        return;
      }
      ok, recs := SaveLocked(h, safe);
    }

    method SetTorrent(rec: Record) returns (ok: bool)
      modifies store
      ensures View() == SetRecord(old(View()), rec)
      ensures ok <==> !closed && rec.id != "" && !old(store.closed)
    {
      if closed {
        return false;
      }
      ok := store.SetTorrent(rec);
    }

    method Close(h: Heard, safe: string -> string) returns (ok: bool, ghost recs: seq<Record>)
      requires Store.Keyed(store.torrents)
      modifies this, store
      ensures View() == CloseSession(old(View()), h, recs, safe)
      ensures old(resumed && !closed) ==> Store.Lists(MergeAll(old(store.View()), h.listed, h, safe).mem.torrents, recs)
    {
      ok, recs := true, [];
      if closed {
        return;
      }
      ok, recs := SaveLocked(h, safe);
      closed := true;
    }

    method Seal()
      modifies this
      ensures View() == SessionState.Seal(old(View()))
    {
      closed := true;
    }
  }
}
