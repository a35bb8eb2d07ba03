/** Torrent records, as the store and the session share them. */
module Records {

  datatype Origin = Origin(indexerID: string, sourceURL: string)

  /** What the store keeps of one torrent. Times are seconds, 0 for none. */
  datatype Record = Record(id: string, origin: Origin, addedAt: int, savePath: string, name: string, magnet: string,
                           torrentURL: string, metainfo: string, paused: bool, seedDone: bool,
                           uploaded: int, completedAt: int)
}

/** The store's memory, its file, and what a flush and a load make of one another. */
module StoreState {
  import opened Wrappers
  import opened Text
  import opened Sorting
  import opened Records

  const MAX_HISTORY := 50
  const UINT64: nat := 0x1_0000_0000_0000_0000

  datatype HistoryRecord = HistoryRecord(seqno: nat, text: string, at: int)

  datatype Prefs = Prefs(sortColumn: string, lastScreen: string, selectedSources: seq<string>)

  const NO_PREFS := Prefs("", "", [])

  /** What is kept from one run to the next. */
  datatype Memory = Memory(torrents: map<string, Record>, history: seq<HistoryRecord>, prefs: Prefs,
      destinations: seq<string>)

  /** A query as a history bucket's value holds it: its number is the key. */
  datatype HistoryEntry = HistoryEntry(text: string, at: int)

  /** The bbolt file: one bucket of records, one of history by 8-byte key, and the prefs bucket's two values. */
  datatype File = File(torrents: map<string, Record>, history: map<string, HistoryEntry>, prefs: Option<Prefs>,
      destinations: Option<seq<string>>)

  const EMPTY_FILE := File(map[], map[], None, None)

  datatype State = State(mem: Memory, historySeq: nat, dirty: bool, closed: bool, pending: Option<Memory>, open: bool,
      file: File)

  // ----- keys -----

  function Power(k: nat): nat {
    if k == 0 then 1 else 256 * Power(k - 1)
  }

  /** binary.BigEndian.PutUint64, for k bytes. */
  function BigEndian(n: nat, k: nat): (b: string)
    ensures |b| == k
  {
    if k == 0 then "" else BigEndian(n / 256, k - 1) + [(n % 256) as char]
  }

  function FromBigEndian(b: string): nat {
    if b == "" then 0 else 256 * FromBigEndian(b[..|b| - 1]) + b[|b| - 1] as int
  }

  function HistoryKey(seqno: nat): string {
    BigEndian(seqno, 8)
  }

  lemma {:induction false} BigEndianReads(n: nat, k: nat)
    requires n < Power(k)
    ensures FromBigEndian(BigEndian(n, k)) == n
  {
    if k > 0 {
      BigEndianReads(n / 256, k - 1);
      assert BigEndian(n, k)[..k - 1] == BigEndian(n / 256, k - 1);
    }
  }

  lemma {:induction false} LessAppend(a: string, b: string, x: char, y: char)
    requires |a| == |b|
    ensures Less(a + [x], b + [y]) <==> Less(a, b) || (a == b && x < y)
  {
    if a == "" {
      assert a + [x] == [x] && b + [y] == [y];
      assert [x][1..] == "" && [y][1..] == "";
    } else {
      assert (a + [x])[1..] == a[1..] + [x] && (b + [y])[1..] == b[1..] + [y];
      LessAppend(a[1..], b[1..], x, y);
      assert a == [a[0]] + a[1..] && b == [b[0]] + b[1..];
    }
  }

  lemma HighDigitsFirst(m: nat, n: nat)
    ensures m < n <==> m / 256 < n / 256 || (m / 256 == n / 256 && m % 256 < n % 256)
  {
  }

  /** Big-endian keys sort in byte order as their numbers do. */
  lemma {:induction false} BigEndianOrder(m: nat, n: nat, k: nat)
    requires m < Power(k) && n < Power(k)
    ensures Less(BigEndian(m, k), BigEndian(n, k)) <==> m < n
    decreases k
  {
    hide Less, FromBigEndian;
    if k > 0 {
      var a, b := m / 256, n / 256;
      HighDigitsFirst(m, n);
      BigEndianOrder(a, b, k - 1);
      LessAppend(BigEndian(a, k - 1), BigEndian(b, k - 1), (m % 256) as char, (n % 256) as char);
      BigEndianReads(a, k - 1);
      BigEndianReads(b, k - 1);
      LessIrreflexive(BigEndian(a, k - 1));
    } else {
      LessIrreflexive("");
      assert m == 0 && n == 0;
    }
  }

  lemma PowerEight()
    ensures Power(8) == UINT64
  {
  }

  // ----- writing and loading -----

  /** writeHistory into a bucket just reset: put each entry under its number. */
  function HistoryBucket(history: seq<HistoryRecord>): map<string, HistoryEntry> {
    if history == [] then map[]
    else
      var h := history[|history| - 1];
      HistoryBucket(history[..|history| - 1])[HistoryKey(h.seqno) := HistoryEntry(h.text, h.at)]
  }

  /** What one flush's transaction leaves. */
  function Written(m: Memory): File {
    File(m.torrents, HistoryBucket(m.history), Some(m.prefs), Some(m.destinations))
  }

  /** load's reading of the history bucket, keys in the order bbolt iterates. */
  function ReadHistory(bucket: map<string, HistoryEntry>, keys: seq<string>): seq<HistoryRecord>
    requires forall k | k in keys :: k in bucket
  {
    if keys == [] then []
    else
      var k := keys[|keys| - 1];
      ReadHistory(bucket, keys[..|keys| - 1]) + [HistoryRecord(FromBigEndian(k), bucket[k].text, bucket[k].at)]
  }

  /** bbolt iterates a bucket's keys once each in byte order. */
  ghost predicate Iterates<V>(bucket: map<string, V>, keys: seq<string>) {
    Ascending(Less, keys) && forall k :: k in keys <==> k in bucket
  }

  function LastSeq(history: seq<HistoryRecord>): nat {
    if history == [] then 0
    else if history[|history| - 1].seqno > LastSeq(history[..|history| - 1]) then history[|history| - 1].seqno
    else LastSeq(history[..|history| - 1])
  }

  /** load, which refuses a history key that is not 8 bytes. */
  function Loaded(f: File, keys: seq<string>): Option<(Memory, nat)>
    requires forall k | k in keys :: k in f.history
  {
    if exists k | k in keys :: |k| != 8 then None
    else
      var history := ReadHistory(f.history, keys);
      Some((Memory(f.torrents, history, PrefsOf(f), DestinationsOf(f)), LastSeq(history)))
  }

  function PrefsOf(f: File): Prefs {
    if f.prefs.Some? then f.prefs.value else NO_PREFS
  }

  function DestinationsOf(f: File): seq<string> {
    if f.destinations.Some? then f.destinations.value else []
  }

  // ----- round trip -----

  /** The numbers increase strictly and are 64-bit. */
  ghost predicate Numbered(history: seq<HistoryRecord>) {
    && (forall i, j | 0 <= i < j < |history| :: history[i].seqno < history[j].seqno)
    && (forall i | 0 <= i < |history| :: history[i].seqno < UINT64)
  }

  function KeysOf(history: seq<HistoryRecord>): seq<string> {
    seq(|history|, i requires 0 <= i < |history| => HistoryKey(history[i].seqno))
  }

  lemma KeysAscend(history: seq<HistoryRecord>)
    requires Numbered(history)
    ensures Ascending(Less, KeysOf(history))
  {
    PowerEight();
    forall i, j | 0 <= i < j < |history|
      ensures Less(KeysOf(history)[i], KeysOf(history)[j])
    {
      BigEndianOrder(history[i].seqno, history[j].seqno, 8);
    }
  }

  /** The bucket holds h under its own number. */
  predicate Filed(bucket: map<string, HistoryEntry>, h: HistoryRecord) {
    HistoryKey(h.seqno) in bucket && bucket[HistoryKey(h.seqno)] == HistoryEntry(h.text, h.at)
  }

  lemma {:induction false} BucketKeys(history: seq<HistoryRecord>)
    ensures forall k :: k in HistoryBucket(history) <==> k in KeysOf(history)
  {
    if history != [] {
      var n := |history| - 1;
      BucketKeys(history[..n]);
      assert KeysOf(history) == KeysOf(history[..n]) + [HistoryKey(history[n].seqno)];
    }
  }

  lemma KeysDiffer(history: seq<HistoryRecord>, i: nat)
    requires Numbered(history) && i < |history| - 1
    ensures HistoryKey(history[i].seqno) != HistoryKey(history[|history| - 1].seqno)
  {
    KeysAscend(history);
    var ks := KeysOf(history);
    assert Less(ks[i], ks[|history| - 1]);
    LessIrreflexive(ks[i]);
  }

  lemma {:induction false} BucketHolds(history: seq<HistoryRecord>, i: nat)
    requires Numbered(history) && i < |history|
    ensures Filed(HistoryBucket(history), history[i])
    decreases |history|
  {
    var n := |history| - 1;
    if i < n {
      BucketHolds(history[..n], i);
      KeysDiffer(history, i);
    }
  }

  lemma KeyReads(n: nat)
    requires n < UINT64
    ensures FromBigEndian(HistoryKey(n)) == n
  {
    PowerEight();
    BigEndianReads(n, 8);
  }

  lemma {:induction false} ReadsBack(history: seq<HistoryRecord>, bucket: map<string, HistoryEntry>)
    requires Numbered(history)
    requires forall h | h in history :: Filed(bucket, h)
    ensures forall k | k in KeysOf(history) :: k in bucket
    ensures ReadHistory(bucket, KeysOf(history)) == history
  {
    hide Power, BigEndian, FromBigEndian, HistoryKey;
    if history != [] {
      var n := |history| - 1;
      ReadsBack(history[..n], bucket);
      KeyReads(history[n].seqno);
      assert KeysOf(history)[..n] == KeysOf(history[..n]);
      assert history == history[..n] + [history[n]];
      assert history[n] in history;
    }
  }

  lemma {:induction false} LastSeqIsLast(history: seq<HistoryRecord>)
    requires Numbered(history)
    ensures LastSeq(history) == if history == [] then 0 else history[|history| - 1].seqno
  {
    if history != [] {
      LastSeqIsLast(history[..|history| - 1]);
    }
  }

  /**
   Loading what a flush wrote gives back the same torrents, preferences, destinations and
   history in the same order. The counter comes back as the last query's number, so an
   emptied history restarts it.
   */
  lemma RoundTrip(m: Memory, keys: seq<string>)
    requires Numbered(m.history) && Iterates(Written(m).history, keys)
    ensures Loaded(Written(m), keys) == Some((m, if m.history == [] then 0 else m.history[|m.history| - 1].seqno))
  {
    hide Numbered, HistoryBucket, ReadHistory, LastSeq;
    IteratesKeys(m, keys);
    BucketReads(m.history);
    assert forall k | k in KeysOf(m.history) :: |k| == 8;
    LastSeqIsLast(m.history);
  }

  /** The keys in iteration order are those of the history in its order. */
  lemma IteratesKeys(m: Memory, keys: seq<string>)
    requires Numbered(m.history) && Iterates(Written(m).history, keys)
    ensures keys == KeysOf(m.history)
  {
    hide Numbered, HistoryBucket, KeysOf;
    BucketKeys(m.history);
    KeysAscend(m.history);
    LessAll();
    AscendingUnique(Less, keys, KeysOf(m.history));
  }

  lemma BucketReads(history: seq<HistoryRecord>)
    requires Numbered(history)
    ensures forall k | k in KeysOf(history) :: k in HistoryBucket(history)
    ensures ReadHistory(HistoryBucket(history), KeysOf(history)) == history
  {
    hide Numbered, HistoryBucket, ReadHistory;
    forall h | h in history
      ensures Filed(HistoryBucket(history), h)
    {
      var i :| 0 <= i < |history| && history[i] == h;
      BucketHolds(history, i);
    }
    ReadsBack(history, HistoryBucket(history));
  }

  lemma LessAll()
    ensures Asymmetric(Less)
  {
    forall a: string, b: string | Less(a, b) ensures !Less(b, a) { LessAsymmetric(a, b); }
  }

  /** What opening a file gives, whoever wrote it: refused for a key not of 8 bytes, else its contents in key order. */
  lemma LoadExact(f: File, keys: seq<string>)
    requires Iterates(f.history, keys)
    ensures var l := Loaded(f, keys);
      && (l.None? <==> exists k :: k in f.history && |k| != 8)
      && (l.Some? ==>
            var (m, last) := l.value;
            && m.torrents == f.torrents
            && m.prefs == (if f.prefs.Some? then f.prefs.value else Prefs("", "", []))
            && m.destinations == (if f.destinations.Some? then f.destinations.value else [])
            && |m.history| == |keys|
            && (forall i | 0 <= i < |keys| ::
                  m.history[i] == HistoryRecord(FromBigEndian(keys[i]), f.history[keys[i]].text, f.history[keys[i]].at))
            && (forall h | h in m.history :: h.seqno <= last)
            && (last == 0 || exists h :: h in m.history && h.seqno == last))
  {
    ReadExact(f.history, keys);
    LastSeqExact(ReadHistory(f.history, keys));
  }

  lemma {:induction false} ReadExact(bucket: map<string, HistoryEntry>, keys: seq<string>)
    requires forall k | k in keys :: k in bucket
    ensures var history := ReadHistory(bucket, keys);
      && |history| == |keys|
      && forall i | 0 <= i < |keys| ::
           history[i] == HistoryRecord(FromBigEndian(keys[i]), bucket[keys[i]].text, bucket[keys[i]].at)
  {
    if keys != [] { ReadExact(bucket, keys[..|keys| - 1]); }
  }

  lemma {:induction false} LastSeqExact(history: seq<HistoryRecord>)
    ensures forall h | h in history :: h.seqno <= LastSeq(history)
    ensures LastSeq(history) == 0 || exists h :: h in history && h.seqno == LastSeq(history)
  {
    if history != [] {
      var before, h := history[..|history| - 1], history[|history| - 1];
      assert history == before + [h];
      LastSeqExact(before);
      if LastSeq(history) == h.seqno { assert h in history; }
    }
  }

  // ----- calls -----

  function Change(s: State, m: Memory): State {
    s.(mem := m, dirty := true)
  }

  function SetTorrent(s: State, rec: Record): State {
    if rec.id == "" || s.closed then s else Change(s, s.mem.(torrents := s.mem.torrents[rec.id := rec]))
  }

  function DeleteTorrent(s: State, id: string): State {
    if s.closed || id !in s.mem.torrents then s else Change(s, s.mem.(torrents := s.mem.torrents - {id}))
  }

  /** The last n of a list. */
  function Tail<T>(s: seq<T>, n: nat): seq<T> {
    if |s| > n then s[|s| - n..] else s
  }

  /** AddHistory: the counter is a uint64 and wraps. */
  function AddHistory(s: State, text: string, at: int): State {
    if s.closed then s
    else
      var n := (s.historySeq + 1) % UINT64;
      Change(s.(historySeq := n), s.mem.(history := Tail(s.mem.history + [HistoryRecord(n, text, at)], MAX_HISTORY)))
  }

  function ClearHistory(s: State): State {
    if s.closed then s else Change(s, s.mem.(history := []))
  }

  function SetPrefs(s: State, p: Prefs): State {
    if s.closed then s else Change(s, s.mem.(prefs := p))
  }

  function TouchDestination(s: State, path: string): State {
    if Blank(path) || s.closed then s else Change(s, s.mem.(destinations := [path] + Without(s.mem.destinations, path)))
  }

  /** flush takes its snapshot under the lock; flushes run one at a time. */
  function FlushBegins(s: State): State {
    if s.pending.Some? || !s.dirty then s else s.(pending := Some(s.mem))
  }

  /** The write outside the lock: all of it or none, and dirty stays set either way. */
  function FlushEnds(s: State, ok: bool): State {
    if s.pending.None? then s
    else if ok && s.open then s.(file := Written(s.pending.value), pending := None)
    else s.(pending := None, dirty := true)
  }

  /** Close: refuse further changes, let a flush under way end, flush once more, close the file. */
  function Close(s: State, ok: bool): State {
    if s.closed then s
    else FlushEnds(FlushBegins(FlushEnds(s.(closed := true), ok)), ok).(open := false)
  }

  function Open(f: File, keys: seq<string>): Option<State>
    requires forall k | k in keys :: k in f.history
  {
    var l := Loaded(f, keys);
    if l.None? then None else Some(State(l.value.0, l.value.1, false, false, None, true, f))
  }

  // ----- invariant over runs -----

  /** The file, when nothing has changed since it was read or written, says what memory says. */
  ghost predicate Holds(f: File, m: Memory) {
    && f.torrents == m.torrents && f.history == HistoryBucket(m.history)
    && m.prefs == PrefsOf(f) && m.destinations == DestinationsOf(f)
  }

  ghost predicate Inv(s: State) {
    && s.historySeq < UINT64
    && Numbered(s.mem.history) && |s.mem.history| <= MAX_HISTORY
    && (s.mem.history != [] ==> s.mem.history[|s.mem.history| - 1].seqno == s.historySeq)
    && (forall id | id in s.mem.torrents :: id != "" && s.mem.torrents[id].id == id)
    && NoDup(s.mem.destinations)
    && (s.pending.Some? ==> s.dirty)
    && (!s.dirty ==> Holds(s.file, s.mem))
  }

  datatype Event =
    | EvSetTorrent(rec: Record)
    | EvDeleteTorrent(id: string)
    | EvAddHistory(text: string, at: int)
    | EvClearHistory
    | EvSetPrefs(p: Prefs)
    | EvTouchDestination(path: string)
    | EvFlushBegins
    | EvFlushEnds(ok: bool)
    | EvClose(ok: bool)

  function Apply(s: State, ev: Event): State {
    match ev
    case EvSetTorrent(rec) => SetTorrent(s, rec)
    case EvDeleteTorrent(id) => DeleteTorrent(s, id)
    case EvAddHistory(text, at) => AddHistory(s, text, at)
    case EvClearHistory => ClearHistory(s)
    case EvSetPrefs(p) => SetPrefs(s, p)
    case EvTouchDestination(path) => TouchDestination(s, path)
    case EvFlushBegins => FlushBegins(s)
    case EvFlushEnds(ok) => FlushEnds(s, ok)
    case EvClose(ok) => Close(s, ok)
  }

  function Run(s: State, evs: seq<Event>): State
    decreases |evs|
  {
    if evs == [] then s else Run(Apply(s, evs[0]), evs[1..])
  }

  /** The one call that can break the numbering is the query that wraps the counter, with one still kept. */
  predicate Wraps(s: State, ev: Event) {
    ev.EvAddHistory? && !s.closed && s.historySeq + 1 == UINT64 && s.mem.history != []
  }

  lemma TouchKeeps(s: seq<string>, x: string)
    requires NoDup(s)
    ensures NoDup([x] + Without(s, x))
  {
    WithoutExact(s, x);
    InsertNoDup(Without(s, x), x, 0);
    assert Without(s, x)[..0] + [x] + Without(s, x)[0..] == [x] + Without(s, x);
  }

  lemma AddHistoryNumbers(s: State, text: string, at: int)
    requires Inv(s) && !s.closed
    ensures Inv(AddHistory(s, text, at)) <==> !Wraps(s, EvAddHistory(text, at))
  {
    hide Numbered, HistoryBucket, Holds;
    var n := (s.historySeq + 1) % UINT64;
    if Wraps(s, EvAddHistory(text, at)) {
      ZeroUnnumbers(s.mem.history, HistoryRecord(n, text, at));
    } else {
      NextNumbers(s.mem.history, HistoryRecord(n, text, at));
      TailLast(s.mem.history, HistoryRecord(n, text, at));
    }
  }

  /** A query numbered past all that are kept may follow them. */
  lemma NextNumbers(history: seq<HistoryRecord>, h: HistoryRecord)
    requires Numbered(history) && h.seqno < UINT64
    requires history != [] ==> history[|history| - 1].seqno < h.seqno
    ensures Numbered(Tail(history + [h], MAX_HISTORY))
  {
    var all := history + [h];
    forall i, j | 0 <= i < j < |all|
      ensures all[i].seqno < all[j].seqno
    {
      if j == |all| - 1 && i < j - 1 { assert history[i].seqno < history[j - 1].seqno; }
    }
  }

  lemma TailLast(history: seq<HistoryRecord>, h: HistoryRecord)
    ensures var t := Tail(history + [h], MAX_HISTORY); t != [] && t[|t| - 1] == h && |t| <= MAX_HISTORY
  {
  }

  /** One numbered 0 may not. */
  lemma ZeroUnnumbers(history: seq<HistoryRecord>, h: HistoryRecord)
    requires history != [] && h.seqno == 0
    ensures !Numbered(Tail(history + [h], MAX_HISTORY))
  {
    var t := Tail(history + [h], MAX_HISTORY);
    assert |t| >= 2 && t[|t| - 1] == h;
    assert !(t[|t| - 2].seqno < t[|t| - 1].seqno);
  }

  lemma ApplyKeeps(s: State, ev: Event)
    requires Inv(s) && !Wraps(s, ev)
    ensures Inv(Apply(s, ev))
  {
    hide Numbered, HistoryBucket;
    match ev
    case EvAddHistory(text, at) => if !s.closed { AddHistoryNumbers(s, text, at); }
    case EvTouchDestination(path) => TouchKeeps(s.mem.destinations, path);
    case EvClearHistory => NoneNumbered();
    case _ =>
  }

  lemma NoneNumbered()
    ensures Numbered([])
  {
  }

  lemma {:induction false} RunKeeps(s: State, evs: seq<Event>)
    requires Inv(s)
    requires forall i | 0 <= i < |evs| :: !Wraps(Run(s, evs[..i]), evs[i])
    ensures Inv(Run(s, evs))
    decreases |evs|
  {
    if evs != [] {
      assert evs[..0] == [] && !Wraps(Run(s, evs[..0]), evs[0]);
      ApplyKeeps(s, evs[0]);
      var s1, rest := Apply(s, evs[0]), evs[1..];
      forall i | 0 <= i < |rest|
        ensures !Wraps(Run(s1, rest[..i]), rest[i])
      {
        assert evs[..i + 1] == [evs[0]] + rest[..i];
        assert !Wraps(Run(s, evs[..i + 1]), evs[i + 1]);
      }
      RunKeeps(s1, rest);
    }
  }

  /** A store opened on a file a flush of sound memory left, or on a new one, starts sound. */
  lemma OpenKeeps(m: Memory, keys: seq<string>)
    requires Numbered(m.history) && |m.history| <= MAX_HISTORY && NoDup(m.destinations)
    requires forall id | id in m.torrents :: id != "" && m.torrents[id].id == id
    requires Iterates(Written(m).history, keys)
    ensures var s := Open(Written(m), keys); s.Some? && Inv(s.value) && s.value.mem == m
    ensures Inv(Open(EMPTY_FILE, []).value)
  {
    RoundTrip(m, keys);
  }

  lemma {:induction false} ClosedStays(s: State, evs: seq<Event>)
    requires s.closed && !s.open
    ensures var s' := Run(s, evs); s'.file == s.file && s'.mem == s.mem
    decreases |evs|
  {
    if evs != [] { ClosedStays(Apply(s, evs[0]), evs[1..]); }
  }

  lemma CloseSaves(s: State, keys: seq<string>, evs: seq<Event>)
    requires Inv(s) && !s.closed && s.open
    ensures var s' := Run(Close(s, true), evs); Holds(s'.file, s'.mem) && s'.mem == s.mem
    ensures var s' := Run(Close(s, true), evs);
      Iterates(s'.file.history, keys) ==> Loaded(s'.file, keys).Some? && Loaded(s'.file, keys).value.0 == s.mem
  {
    var c := Close(s, true);
    assert Holds(c.file, c.mem);
    ClosedStays(c, evs);
    if Iterates(c.file.history, keys) { RoundTrip(s.mem, keys); }
  }

  // ----- what a run leaves -----

  lemma {:induction false} RunSnoc(s: State, evs: seq<Event>)
    requires evs != []
    ensures Run(s, evs) == Apply(Run(s, evs[..|evs| - 1]), evs[|evs| - 1])
    decreases |evs|
  {
    if |evs| == 1 {
      assert evs[..0] == [] && evs[1..] == [];
    } else {
      var s1 := Apply(s, evs[0]);
      RunSnoc(s1, evs[1..]);
      assert evs[1..][..|evs| - 2] == evs[..|evs| - 1][1..];
    }
  }

  /** Memory was m at some point of the run, or the file still is what it was. */
  ghost predicate Seen(s: State, evs: seq<Event>, m: Memory) {
    exists i :: 0 <= i <= |evs| && Run(s, evs[..i]).mem == m
  }

  lemma SeenLater(s: State, evs: seq<Event>, m: Memory)
    requires evs != [] && Seen(s, evs[..|evs| - 1], m)
    ensures Seen(s, evs, m)
  {
    var i :| 0 <= i <= |evs| - 1 && Run(s, evs[..|evs| - 1][..i]).mem == m;
    assert evs[..|evs| - 1][..i] == evs[..i];
  }

  lemma SeenNow(s: State, evs: seq<Event>)
    ensures Seen(s, evs, Run(s, evs).mem)
  {
    assert evs[..|evs|] == evs;
  }

  ghost predicate Whole(s: State, evs: seq<Event>, s': State) {
    && (s'.file == s.file || exists m :: Seen(s, evs, m) && s'.file == Written(m))
    && (s'.pending.Some? ==> Seen(s, evs, s'.pending.value))
  }

  /**
   The file is never a mixture: after any run it is what it was at the start, or all of one
   memory state the store went through, whatever changed while a write was under way.
   */
  lemma {:induction false} FileIsOneSnapshot(s: State, evs: seq<Event>)
    requires s.pending.None?
    ensures Whole(s, evs, Run(s, evs))
    decreases |evs|
  {
    SeenNow(s, evs);
    if evs != [] {
      var n := |evs| - 1;
      var s1 := Run(s, evs[..n]);
      FileIsOneSnapshot(s, evs[..n]);
      RunSnoc(s, evs);
      SeenNow(s, evs[..n]);
      SeenLater(s, evs, s1.mem);
      if s1.pending.Some? { SeenLater(s, evs, s1.pending.value); }
      if s1.file != s.file {
        var m :| Seen(s, evs[..n], m) && s1.file == Written(m);
        SeenLater(s, evs, m);
      }
      WholeStep(s, evs, s1, evs[n]);
    }
  }

  lemma WholeStep(s: State, evs: seq<Event>, s1: State, ev: Event)
    requires Whole(s, evs, s1) && Seen(s, evs, s1.mem)
    requires Seen(s, evs, Apply(s1, ev).mem)
    ensures Whole(s, evs, Apply(s1, ev))
  {
  }

  function Entry(h: HistoryRecord): HistoryEntry {
    HistoryEntry(h.text, h.at)
  }

  function Entries(history: seq<HistoryRecord>): seq<HistoryEntry> {
    seq(|history|, i requires 0 <= i < |history| => Entry(history[i]))
  }

  /** Every query run since the history was last cleared, oldest first. */
  function Asked(prior: seq<HistoryEntry>, evs: seq<Event>): seq<HistoryEntry>
    decreases |evs|
  {
    if evs == [] then prior
    else Asked(if evs[0].EvAddHistory? then prior + [HistoryEntry(evs[0].text, evs[0].at)]
               else if evs[0].EvClearHistory? then [] else prior, evs[1..])
  }

  /** The history is always the latest 50 of the queries run since it was last cleared. */
  lemma {:induction false} HistoryIsLatest(s: State, prior: seq<HistoryEntry>, evs: seq<Event>)
    requires !s.closed && forall ev | ev in evs :: !ev.EvClose?
    requires Entries(s.mem.history) == Tail(prior, 50)
    ensures Entries(Run(s, evs).mem.history) == Tail(Asked(prior, evs), 50)
    decreases |evs|
  {
    if evs != [] {
      var ev := evs[0];
      assert ev in evs;
      var s1 := Apply(s, ev);
      var next :=
        if ev.EvAddHistory? then prior + [HistoryEntry(ev.text, ev.at)]
        else if ev.EvClearHistory? then []
        else prior;
      if ev.EvAddHistory? { AddLatest(s, prior, ev.text, ev.at); }
      HistoryIsLatest(s1, next, evs[1..]);
    }
  }

  lemma AddLatest(s: State, prior: seq<HistoryEntry>, text: string, at: int)
    requires !s.closed && Entries(s.mem.history) == Tail(prior, MAX_HISTORY)
    ensures Entries(AddHistory(s, text, at).mem.history) == Tail(prior + [HistoryEntry(text, at)], MAX_HISTORY)
  {
  }

  /** How many queries a run adds. */
  function Added(evs: seq<Event>): nat {
    if evs == [] then 0 else (if evs[0].EvAddHistory? then 1 else 0) + Added(evs[1..])
  }

  /** The counter counts every query run, cleared or not, up to 2^64. */
  lemma {:induction false} CounterCounts(s: State, evs: seq<Event>)
    requires !s.closed && NoClose(evs) && s.historySeq < UINT64
    ensures Run(s, evs).historySeq == (s.historySeq + Added(evs)) % UINT64
    decreases |evs|
  {
    if evs != [] {
      assert !evs[0].EvClose?;
      CounterCounts(Apply(s, evs[0]), evs[1..]);
      if evs[0].EvAddHistory? { WrapAdds(s.historySeq, Added(evs[1..])); }
    }
  }

  lemma WrapAdds(h: nat, n: nat)
    requires h < UINT64
    ensures ((h + 1) % UINT64 + n) % UINT64 == (h + 1 + n) % UINT64
  {
    if h + 1 == UINT64 {
      assert (h + 1 + n) % UINT64 == n % UINT64;
    } else {
      assert (h + 1) % UINT64 == h + 1;
    }
  }

  /** The record last set under id and not deleted since, starting from was. */
  function LastRecord(evs: seq<Event>, id: string, was: Option<Record>): Option<Record>
    decreases |evs|
  {
    if evs == [] then was
    else
      var ev := evs[|evs| - 1];
      if ev.EvSetTorrent? && ev.rec.id == id != "" then Some(ev.rec)
      else if ev == EvDeleteTorrent(id) then None
      else LastRecord(evs[..|evs| - 1], id, was)
  }

  /** The preferences last set. */
  function LastPrefs(evs: seq<Event>, was: Prefs): Prefs
    decreases |evs|
  {
    if evs == [] then was
    else if evs[|evs| - 1].EvSetPrefs? then evs[|evs| - 1].p
    else LastPrefs(evs[..|evs| - 1], was)
  }

  function RecordAt(m: Memory, id: string): Option<Record> {
    if id in m.torrents then Some(m.torrents[id]) else None
  }

  ghost predicate NoClose(evs: seq<Event>) {
    forall i | 0 <= i < |evs| :: !evs[i].EvClose?
  }

  lemma {:induction false} StaysOpen(s: State, evs: seq<Event>)
    requires !s.closed && NoClose(evs)
    ensures !Run(s, evs).closed
    decreases |evs|
  {
    if evs != [] {
      assert !evs[0].EvClose?;
      StaysOpen(Apply(s, evs[0]), evs[1..]);
    }
  }

  /** While the store is open it holds under each id the record last set and not deleted since, and the last prefs. */
  lemma {:induction false} LastWriteStands(s: State, evs: seq<Event>, id: string)
    requires !s.closed && NoClose(evs)
    ensures RecordAt(Run(s, evs).mem, id) == LastRecord(evs, id, RecordAt(s.mem, id))
    ensures Run(s, evs).mem.prefs == LastPrefs(evs, s.mem.prefs)
    decreases |evs|
  {
    if evs != [] {
      var past := evs[..|evs| - 1];
      LastWriteStands(s, past, id);
      StaysOpen(s, past);
      RunSnoc(s, evs);
      assert !evs[|evs| - 1].EvClose?;
    }
  }

  /** When path was last used, counted from 1; 0 if not in the run. */
  function LastUse(evs: seq<Event>, path: string): nat
    decreases |evs|
  {
    if evs == [] then 0
    else if evs[|evs| - 1] == EvTouchDestination(path) then |evs|
    else LastUse(evs[..|evs| - 1], path)
  }

  lemma {:induction false} UsedBefore(evs: seq<Event>, path: string)
    ensures LastUse(evs, path) <= |evs|
    decreases |evs|
  {
    if evs != [] { UsedBefore(evs[..|evs| - 1], path); }
  }

  lemma TouchOrders(list: seq<string>, path: string, x: string, y: string)
    requires NoDup(list) && x != y
    ensures var touched := [path] + Without(list, path);
      && (x in touched <==> x == path || x in list) && (y in touched <==> y == path || y in list)
      && (x == path ==> (Ahead(touched, x, y) <==> y in list))
      && (y == path ==> !Ahead(touched, x, y))
      && (x != path && y != path ==> (Ahead(touched, x, y) <==> Ahead(list, x, y)))
  {
    WithoutExact(list, path);
    AheadJoin([path], Without(list, path), x, y);
    AheadIn(Without(list, path), x, y);
    NoneAhead(path, x, y);
    if x != path && y != path { WithoutAhead(list, path, x, y); }
  }

  /** The destinations are all those ever used, each once. */
  lemma {:induction false} DestinationsUsed(s: State, evs: seq<Event>, x: string)
    requires !s.closed && NoClose(evs) && NoDup(s.mem.destinations) && !Blank(x)
    ensures var list := Run(s, evs).mem.destinations;
      NoDup(list) && (x in list <==> x in s.mem.destinations || LastUse(evs, x) > 0)
    decreases |evs|
  {
    if evs != [] {
      var past, ev := evs[..|evs| - 1], evs[|evs| - 1];
      DestinationsUsed(s, past, x);
      StaysOpen(s, past);
      RunSnoc(s, evs);
      assert !ev.EvClose?;
      if ev.EvTouchDestination? {
        TouchKeeps(Run(s, past).mem.destinations, ev.path);
        WithoutExact(Run(s, past).mem.destinations, ev.path);
      }
    }
  }

  /** Of two the one used later stands first; of two not used since, the one that stood first. */
  lemma {:induction false} DestinationsByRecency(s: State, evs: seq<Event>, x: string, y: string)
    requires !s.closed && NoClose(evs) && NoDup(s.mem.destinations) && !Blank(x) && !Blank(y) && x != y
    ensures var list := Run(s, evs).mem.destinations;
      x in list && y in list ==>
        (Ahead(list, x, y) <==>
         LastUse(evs, x) > LastUse(evs, y)
         || (LastUse(evs, x) == LastUse(evs, y) == 0 && Ahead(s.mem.destinations, x, y)))
    decreases |evs|
  {
    hide Ahead, NoDup, NoClose, Blank, Run, Apply;
    if evs != [] {
      var past, ev := evs[..|evs| - 1], evs[|evs| - 1];
      NoCloseUpTo(evs);
      DestinationsByRecency(s, past, x, y);
      DestinationsUsed(s, past, x);
      DestinationsUsed(s, past, y);
      DestinationsStep(s, evs);
      UsedBefore(past, x);
      UsedBefore(past, y);
      if ev.EvTouchDestination? && !Blank(ev.path) { TouchOrders(Run(s, past).mem.destinations, ev.path, x, y); }
    } else {
      assert Run(s, evs) == s by { NoEvents(s); }
    }
  }

  lemma NoEvents(s: State)
    ensures Run(s, []) == s
  {
  }

  lemma NoCloseUpTo(evs: seq<Event>)
    requires evs != [] && NoClose(evs)
    ensures NoClose(evs[..|evs| - 1]) && !evs[|evs| - 1].EvClose?
  {
  }

  /** Only a use changes the list. */
  lemma DestinationsStep(s: State, evs: seq<Event>)
    requires !s.closed && evs != [] && NoClose(evs)
    ensures var was, ev := Run(s, evs[..|evs| - 1]).mem.destinations, evs[|evs| - 1];
      Run(s, evs).mem.destinations ==
        if ev.EvTouchDestination? && !Blank(ev.path) then [ev.path] + Without(was, ev.path) else was
  {
    hide Run, NoClose;
    NoCloseUpTo(evs);
    StaysOpen(s, evs[..|evs| - 1]);
    RunSnoc(s, evs);
    DestinationsApply(Run(s, evs[..|evs| - 1]), evs[|evs| - 1]);
  }

  lemma DestinationsApply(s: State, ev: Event)
    requires !s.closed && !ev.EvClose?
    ensures Apply(s, ev).mem.destinations ==
            if ev.EvTouchDestination? && !Blank(ev.path) then [ev.path] + Without(s.mem.destinations, ev.path)
            else s.mem.destinations
  {
    hide Without, Blank;
  }

  /** A call that changes memory, and no flush. */
  predicate IsCall(ev: Event) {
    !ev.EvFlushBegins? && !ev.EvFlushEnds? && !ev.EvClose?
  }

  lemma {:induction false} CallsLeaveFile(s: State, evs: seq<Event>)
    requires forall i | 0 <= i < |evs| :: IsCall(evs[i])
    ensures var s' := Run(s, evs); s'.pending == s.pending && s'.file == s.file && s'.open == s.open
    decreases |evs|
  {
    if evs != [] {
      assert IsCall(evs[0]);
      CallsLeaveFile(Apply(s, evs[0]), evs[1..]);
    }
  }

  /** A flush that succeeds leaves in the file the memory it began with, whatever is called meanwhile. */
  lemma FlushSaves(s: State, evs: seq<Event>, keys: seq<string>)
    requires Inv(s) && s.pending.None? && s.open
    requires forall i | 0 <= i < |evs| :: IsCall(evs[i])
    ensures var done := FlushEnds(Run(FlushBegins(s), evs), true);
      && Holds(done.file, s.mem) && done.pending.None?
      && (Iterates(done.file.history, keys) ==>
            Loaded(done.file, keys).Some? && Loaded(done.file, keys).value.0 == s.mem)
    ensures FlushEnds(Run(FlushBegins(s), evs), false).file == s.file
  {
    CallsLeaveFile(FlushBegins(s), evs);
    var done := FlushEnds(Run(FlushBegins(s), evs), true);
    if Iterates(done.file.history, keys) { LoadsHeld(done.file, s.mem, keys); }
  }

  lemma LoadsHeld(f: File, m: Memory, keys: seq<string>)
    requires Holds(f, m) && Numbered(m.history) && Iterates(f.history, keys)
    ensures Loaded(f, keys).Some? && Loaded(f, keys).value.0 == m
  {
    RoundTrip(m, keys);
  }

  /** Clearing, closing and opening again starts the numbers over: they increase within a history, not across runs. */
  lemma ClearedNumbersRestart(s: State, text: string, at: int)
    requires Inv(s) && !s.closed && s.open && s.pending.None? && s.historySeq > 0
    ensures var c := Close(ClearHistory(s), true);
      var o := Open(c.file, []);
      Iterates(c.file.history, []) && o.Some? && AddHistory(o.value, text, at).historySeq == 1 <= s.historySeq
  {
  }
}

/** The store itself: its fields, changed under its lock, and the loops that copy them out, write them and load them. */
module Store {
  import opened Wrappers
  import opened Text
  import opened Sorting
  import opened Records
  import opened StoreState

  predicate ById(a: Record, b: Record) {
    Less(a.id, b.id)
  }

  lemma ByIdWeak()
    ensures StrictWeak(ById)
  {
    forall a: Record
      ensures !ById(a, a)
    {
      LessIrreflexive(a.id);
    }
    forall a: Record, b: Record, c: Record | ById(a, b) && ById(b, c)
      ensures ById(a, c)
    {
      LessTransitive(a.id, b.id, c.id);
    }
    forall a: Record, b: Record, c: Record | ById(a, c)
      ensures ById(a, b) || ById(b, c)
    {
      LessTotal(a.id, b.id);
      if Less(b.id, a.id) { LessTransitive(b.id, a.id, c.id); }
    }
  }

  /** The list holds each record of the map once. */
  ghost predicate Lists(torrents: map<string, Record>, recs: seq<Record>) {
    && (forall r | r in recs :: r.id in torrents && torrents[r.id] == r)
    && (forall id | id in torrents :: torrents[id] in recs && torrents[id].id == id)
    && NoDup(recs)
  }

  ghost predicate Keyed(torrents: map<string, Record>) {
    forall id | id in torrents :: torrents[id].id == id
  }

  /** Sorting keeps a listing a listing. */
  lemma SortLists(less: (Record, Record) -> bool, torrents: map<string, Record>, recs: seq<Record>)
    requires Lists(torrents, recs)
    ensures Lists(torrents, Sort(less, recs))
  {
    SortElements(less, recs);
    SortNoDup(less, recs);
  }

  class Store {
    var torrents: map<string, Record>
    var history: seq<HistoryRecord>
    var historySeq: nat
    var prefs: Prefs
    var destinations: seq<string>
    var dirty: bool
    var closed: bool
    var open: bool
    var file: File
    /** What the flush under way copied. */
    var pending: Option<Memory>

    ghost function Mem(): Memory
      reads this
    {
      Memory(torrents, history, prefs, destinations)
    }

    ghost function View(): State
      reads this
    {
      State(Mem(), historySeq, dirty, closed, pending, open, file)
    }

    /** load: the buckets' contents, history keys in the order bbolt gives them. */
    constructor (f: File, keys: seq<string>)
      requires Iterates(f.history, keys) && Open(f, keys).Some?
      ensures View() == Open(f, keys).value
    {
      var hist: seq<HistoryRecord>, last := [], 0;
      var i := 0;
      while i < |keys|
        invariant i <= |keys|
        invariant hist == ReadHistory(f.history, keys[..i])
        invariant last == LastSeq(hist)
      {
        var n := FromBigEndian(keys[i]);
        assert keys[..i + 1][..i] == keys[..i];
        hist := hist + [HistoryRecord(n, f.history[keys[i]].text, f.history[keys[i]].at)];
        assert hist[..|hist| - 1] == ReadHistory(f.history, keys[..i]);
        if n > last {
          last := n;
        }
        i := i + 1;
      }
      assert keys[..i] == keys;
      torrents, history, historySeq := f.torrents, hist, last;
      prefs, destinations := PrefsOf(f), DestinationsOf(f);
      dirty, closed, open, file, pending := false, false, true, f, None;
    }

    method SetTorrent(rec: Record) returns (ok: bool)
      modifies this
      ensures View() == StoreState.SetTorrent(old(View()), rec)
      ensures ok <==> rec.id != "" && !old(closed)
    {
      if rec.id == "" || closed {
        return false;
      }
      torrents := torrents[rec.id := rec];
      dirty := true;
      ok := true;
    }

    method DeleteTorrent(id: string) returns (ok: bool)
      modifies this
      ensures View() == StoreState.DeleteTorrent(old(View()), id)
      ensures ok <==> !old(closed)
    {
      if closed {
        return false;
      }
      if id in torrents {
        torrents := torrents - {id};
        dirty := true;
      }
      ok := true;
    }

    /** Every record once, in the order of the ids. */
    method ListTorrents() returns (recs: seq<Record>)
      requires Keyed(torrents)
      ensures Lists(torrents, recs) && Sorted(ById, recs)
    {
      recs := [];
      var left := torrents.Keys;
      while left != {}
        invariant left <= torrents.Keys
        invariant forall r | r in recs :: r.id in torrents.Keys - left && torrents[r.id] == r
        invariant forall id | id in torrents.Keys - left :: torrents[id] in recs
        invariant NoDup(recs)
        decreases left
      {
        var id :| id in left;
        recs := recs + [torrents[id]];
        left := left - {id};
      }
      SortLists(ById, torrents, recs);
      ByIdWeak();
      SortSorted(ById, recs);
      recs := Sort(ById, recs);
    }

    method AddHistory(text: string, at: int) returns (ok: bool)
      requires historySeq < UINT64
      modifies this
      ensures View() == StoreState.AddHistory(old(View()), text, at)
      ensures ok <==> !old(closed)
    {
      if closed {
        return false;
      }
      historySeq := (historySeq + 1) % UINT64;
      history := history + [HistoryRecord(historySeq, text, at)];
      if |history| > MAX_HISTORY {
        history := history[|history| - MAX_HISTORY..];
      }
      dirty := true;
      ok := true;
    }

    /** Recorded queries, most recent first. */
    method ListHistory() returns (out: seq<HistoryEntry>)
      ensures |out| == |history|
      ensures forall i | 0 <= i < |history| :: out[|history| - 1 - i] == Entry(history[i])
    {
      out := [];
      var i := 0;
      while i < |history|
        invariant i <= |history| && |out| == i
        invariant forall j | 0 <= j < i :: out[i - 1 - j] == Entry(history[j])
      {
        out := [Entry(history[i])] + out;
        i := i + 1;
      }
    }

    method ClearHistory() returns (ok: bool)
      modifies this
      ensures View() == StoreState.ClearHistory(old(View()))
      ensures ok <==> !old(closed)
    {
      if closed {
        return false;
      }
      history := [];
      dirty := true;
      ok := true;
    }

    method SetPrefs(p: Prefs) returns (ok: bool)
      modifies this
      ensures View() == StoreState.SetPrefs(old(View()), p)
      ensures ok <==> !old(closed)
    {
      if closed {
        return false;
      }
      prefs := p;
      dirty := true;
      ok := true;
    }

    method TouchDestination(path: string) returns (ok: bool)
      modifies this
      ensures View() == StoreState.TouchDestination(old(View()), path)
      ensures ok <==> !Blank(path) && !old(closed)
    {
      if Blank(path) || closed {
        return false;
      }
      var next := [path];
      var i := 0;
      while i < |destinations|
        invariant i <= |destinations|
        invariant next == [path] + Without(destinations[..i], path)
      {
        assert destinations[..i + 1][..i] == destinations[..i];
        if destinations[i] != path {
          next := next + [destinations[i]];
        }
        i := i + 1;
      }
      assert destinations[..i] == destinations;
      destinations := next;
      dirty := true;
      ok := true;
    }

    /** writeHistory: into a bucket just reset, entry by entry. */
    static method WriteHistory(snapshot: seq<HistoryRecord>) returns (bucket: map<string, HistoryEntry>)
      ensures bucket == HistoryBucket(snapshot)
    {
      bucket := map[];
      var i := 0;
      while i < |snapshot|
        invariant i <= |snapshot|
        invariant bucket == HistoryBucket(snapshot[..i])
      {
        assert snapshot[..i + 1][..i] == snapshot[..i];
        bucket := bucket[HistoryKey(snapshot[i].seqno) := HistoryEntry(snapshot[i].text, snapshot[i].at)];
        i := i + 1;
      }
      assert snapshot[..i] == snapshot;
    }

    /** writeTorrents: into a bucket just reset, in whatever order the map gives. */
    static method WriteTorrents(snapshot: map<string, Record>) returns (bucket: map<string, Record>)
      ensures bucket == snapshot
    {
      bucket := map[];
      var left := snapshot.Keys;
      while left != {}
        invariant left <= snapshot.Keys
        invariant bucket.Keys == snapshot.Keys - left
        invariant forall id | id in bucket :: bucket[id] == snapshot[id]
        decreases left
      {
        var id :| id in left;
        bucket := bucket[id := snapshot[id]];
        left := left - {id};
      }
    }

    /** flush, up to letting go of the lock. */
    method FlushBegins()
      modifies this
      ensures View() == StoreState.FlushBegins(old(View()))
    {
      if pending.None? && dirty {
        pending := Some(Memory(torrents, history, prefs, destinations));
      }
    }

    /** flush, the transaction: ok says whether it committed. */
    method FlushEnds(ok: bool)
      modifies this
      ensures View() == StoreState.FlushEnds(old(View()), ok)
    {
      if pending.None? {
        return;
      }
      var m := pending.value;
      pending := None;
      if ok && open {
        var records := WriteTorrents(m.torrents);
        var queries := WriteHistory(m.history);
        file := File(records, queries, Some(m.prefs), Some(m.destinations));
      } else {
        dirty := true;
      }
    }

    method Close(ok: bool)
      modifies this
      ensures View() == StoreState.Close(old(View()), ok)
    {
      if closed {
        return;
      }
      closed := true;
      FlushEnds(ok);
      FlushBegins();
      FlushEnds(ok);
      open := false;
    }
  }
}
