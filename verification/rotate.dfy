/** The rotating log file: what a write and a rotation do to the files on disk, and what is ever lost. */
module RotateState {
  import opened Wrappers

  /**
   One file: its bytes, how many were there when the writer was opened, and how many
   nonempty writes it has had since (the last two are history).
   */
  datatype LogFile = LogFile(bytes: seq<bv8>, prior: nat, writes: nat)

  const EMPTY := LogFile([], 0, 0)

  /** File 0 is the active one, file i the i-th newest backup; the writer has file 0 open. */
  datatype State = State(disk: map<nat, LogFile>, size: nat, closed: bool, maxSize: int, maxBackups: int)

  /** newRotatingWriter, over what the directory holds. */
  function Open(disk: map<nat, seq<bv8>>, maxSize: int, maxBackups: int): State {
    var all := map i | i in disk :: LogFile(disk[i], |disk[i]|, 0);
    var found := if 0 in all then all else all[0 := EMPTY];
    State(found, |found[0].bytes|, false, maxSize, maxBackups)
  }

  function Backups(s: State): nat {
    if s.maxBackups > 0 then s.maxBackups else 0
  }

  function Older(i: nat): nat { i + 1 }

  /** Which file a rotation of n backups puts at place i > 0: the next newer one, beyond n the same. */
  function Source(i: nat, n: nat): nat
    requires i > 0
  {
    if i > n then i else i - 1
  }

  predicate Moves(disk: map<nat, LogFile>, n: nat, i: nat) {
    i > 0 && Source(i, n) in disk
  }

  /** Every file up to n moved one place older, the n-th gone, files beyond n as they were. */
  function Shifted(disk: map<nat, LogFile>, n: nat): map<nat, LogFile> {
    map i | i in disk.Keys + (set j | j in disk.Keys :: Older(j)) && Moves(disk, n, i) :: disk[Source(i, n)]
  }

  function Rotate(s: State): State {
    s.(disk := Shifted(s.disk, Backups(s))[0 := EMPTY], size := 0)
  }

  function Append(s: State, p: seq<bv8>): State
    requires 0 in s.disk
  {
    var f := s.disk[0];
    s.(disk := s.disk[0 := f.(bytes := f.bytes + p, writes := if p == [] then f.writes else f.writes + 1)],
      size := s.size + |p|)
  }

  function Write(s: State, p: seq<bv8>): State
    requires 0 in s.disk
  {
    if s.closed then s
    else if s.size > 0 && s.size + |p| > s.maxSize then Append(Rotate(s), p)
    else Append(s, p)
  }

  // ----- what the files hold -----

  function Bytes(disk: map<nat, LogFile>, i: nat): seq<bv8> {
    if i in disk then disk[i].bytes else []
  }

  /** The files from the n-th backup to the active one, oldest bytes first. */
  function Contents(disk: map<nat, LogFile>, n: nat): seq<bv8> {
    if n == 0 then Bytes(disk, 0) else Bytes(disk, n) + Contents(disk, n - 1)
  }

  lemma ShiftAt(disk: map<nat, LogFile>, n: nat, i: nat)
    requires i > 0
    ensures i in Shifted(disk, n) <==> Source(i, n) in disk
    ensures i in Shifted(disk, n) ==> Shifted(disk, n)[i] == disk[Source(i, n)]
  {
  }

  lemma {:induction false} ContentsShift(disk: map<nat, LogFile>, n: nat, k: nat)
    requires k <= n
    ensures var d := Shifted(disk, n)[0 := EMPTY];
      Contents(d, k) == if k == 0 then [] else Contents(disk, k - 1)
  {
    if k > 0 {
      ContentsShift(disk, n, k - 1);
      var d := Shifted(disk, n)[0 := EMPTY];
      ShiftAt(disk, n, k);
      assert Bytes(d, k) == Bytes(disk, k - 1);
      if k == 1 { assert Contents(d, 1) == Bytes(d, 1) + []; }
    }
  }

  /** A rotation drops the oldest file of those kept, and nothing else. */
  lemma RotateDropsOldest(s: State)
    ensures var n := Backups(s); Bytes(s.disk, n) + Contents(Rotate(s).disk, n) == Contents(s.disk, n)
  {
    hide Shifted;
    var n := Backups(s);
    ContentsShift(s.disk, n, n);
    if n == 0 { assert Bytes(s.disk, 0) + [] == Contents(s.disk, 0); }
  }

  lemma {:induction false} AppendContents(s: State, p: seq<bv8>, k: nat)
    requires 0 in s.disk
    ensures Contents(Append(s, p).disk, k) == Contents(s.disk, k) + p
  {
    if k > 0 {
      AppendContents(s, p, k - 1);
      assert Bytes(s.disk, k) + (Contents(s.disk, k - 1) + p) == Contents(s.disk, k) + p;
    }
  }

  // ----- every run -----

  ghost predicate IsSuffix(t: seq<bv8>, s: seq<bv8>) {
    |t| <= |s| && s[|s| - |t|..] == t
  }

  /** A file written since the writer was opened keeps to the size, or holds one write and nothing else. */
  predicate Bounded(f: LogFile, maxSize: int) {
    f.writes > 0 ==> |f.bytes| <= maxSize || (f.prior == 0 && f.writes == 1)
  }

  /** An unwritten file is as it was found, a written one longer. */
  predicate Grown(f: LogFile) {
    if f.writes == 0 then |f.bytes| == f.prior else |f.bytes| > f.prior
  }

  predicate Sound(f: LogFile, maxSize: int) {
    Bounded(f, maxSize) && Grown(f)
  }

  /** The size is the active file's, and every file is bounded. */
  ghost predicate Inv(s: State) {
    && 0 in s.disk && s.size == |s.disk[0].bytes|
    && forall i | i in s.disk :: Sound(s.disk[i], s.maxSize)
  }

  lemma WriteKeeps(s: State, p: seq<bv8>)
    requires Inv(s)
    ensures Inv(Write(s, p))
  {
  }

  datatype Event = EvWrite(p: seq<bv8>) | EvClose

  function Apply(s: State, ev: Event): State
    requires 0 in s.disk
  {
    match ev
    case EvWrite(p) => Write(s, p)
    case EvClose => s.(closed := true)
  }

  function Run(s: State, evs: seq<Event>): State
    requires 0 in s.disk
    decreases |evs|
  {
    if evs == [] then s else Run(Apply(s, evs[0]), evs[1..])
  }

  /** The bytes a run accepted: those written before it closed the writer. */
  function Accepted(closed: bool, evs: seq<Event>): seq<bv8>
    decreases |evs|
  {
    if evs == [] then []
    else (if evs[0].EvWrite? && !closed then evs[0].p else []) + Accepted(closed || evs[0].EvClose?, evs[1..])
  }

  ghost predicate SameFile(a: map<nat, LogFile>, b: map<nat, LogFile>, i: nat) {
    (i in a <==> i in b) && (i in a ==> a[i] == b[i])
  }

  /** The files older than the last backup are no business of the writer's. */
  ghost predicate BeyondKept(a: map<nat, LogFile>, b: map<nat, LogFile>, n: nat) {
    forall i: nat | i > n :: SameFile(a, b, i)
  }

  /** One call loses a prefix of what the files hold, the oldest file's bytes or nothing, and adds what it accepted. */
  lemma OneSuffix(s: State, ev: Event)
    requires Inv(s)
    ensures var n, t := Backups(s), Apply(s, ev);
      && Backups(t) == n
      && IsSuffix(Contents(t.disk, n), Contents(s.disk, n) + Accepted(s.closed, [ev]))
      && BeyondKept(s.disk, t.disk, n)
  {
    var n := Backups(s);
    forall i | i > n ensures SameFile(s.disk, Apply(s, ev).disk, i) { ShiftAt(s.disk, n, i); }
    AcceptedOne(s.closed, ev);
    if ev.EvWrite? && !s.closed {
      WriteContents(s, ev.p);
    } else {
      assert Contents(s.disk, n) + [] == Contents(s.disk, n);
    }
  }

  lemma AcceptedOne(closed: bool, ev: Event)
    ensures Accepted(closed, [ev]) == if ev.EvWrite? && !closed then ev.p else []
  {
  }

  lemma WriteContents(s: State, p: seq<bv8>)
    requires Inv(s) && !s.closed
    ensures IsSuffix(Contents(Write(s, p).disk, Backups(s)), Contents(s.disk, Backups(s)) + p)
  {
    var n := Backups(s);
    if s.size > 0 && s.size + |p| > s.maxSize {
      RotateDropsOldest(s);
      AppendContents(Rotate(s), p, n);
      SuffixOf(Bytes(s.disk, n), Contents(Rotate(s).disk, n), p);
    } else {
      AppendContents(s, p, n);
    }
  }

  lemma SuffixOf(lost: seq<bv8>, kept: seq<bv8>, p: seq<bv8>)
    ensures IsSuffix(kept + p, lost + kept + p)
  {
  }

  /**
   Over any run: the backups from oldest to newest and then the active file are a suffix of
   everything there was and everything accepted since; the files beyond the last backup are
   untouched, so at most maxBackups + 1 are the writer's; the size and the bound hold.
   */
  lemma {:induction false} RunLosesOnlyOldest(s: State, evs: seq<Event>)
    requires Inv(s)
    ensures var n, t := Backups(s), Run(s, evs);
      && Inv(t)
      && IsSuffix(Contents(t.disk, n), Contents(s.disk, n) + Accepted(s.closed, evs))
      && BeyondKept(s.disk, t.disk, n)
    decreases |evs|
  {
    var n := Backups(s);
    if evs == [] {
      assert Contents(s.disk, n) + [] == Contents(s.disk, n);
    } else {
      var s1, rest := Apply(s, evs[0]), evs[1..];
      if evs[0].EvWrite? { WriteKeeps(s, evs[0].p); }
      OneSuffix(s, evs[0]);
      RunLosesOnlyOldest(s1, rest);
      StepSuffix(s, s1, evs, Contents(Run(s1, rest).disk, n));
      BeyondKeptOn(s.disk, s1.disk, Run(s1, rest).disk, n);
    }
  }

  lemma BeyondKeptOn(a: map<nat, LogFile>, b: map<nat, LogFile>, c: map<nat, LogFile>, n: nat)
    requires BeyondKept(a, b, n) && BeyondKept(b, c, n)
    ensures BeyondKept(a, c, n)
  {
    forall i: nat | i > n
      ensures SameFile(a, c, i)
    {
      assert SameFile(a, b, i) && SameFile(b, c, i);
    }
  }

  lemma StepSuffix(s: State, s1: State, evs: seq<Event>, left: seq<bv8>)
    requires evs != [] && 0 in s.disk && s1 == Apply(s, evs[0])
    requires var n := Backups(s); IsSuffix(Contents(s1.disk, n), Contents(s.disk, n) + Accepted(s.closed, [evs[0]]))
    requires IsSuffix(left, Contents(s1.disk, Backups(s)) + Accepted(s1.closed, evs[1..]))
    ensures IsSuffix(left, Contents(s.disk, Backups(s)) + Accepted(s.closed, evs))
  {
    AcceptedStep(s.closed, evs);
    SuffixChain(left, Contents(s1.disk, Backups(s)), Contents(s.disk, Backups(s)),
                Accepted(s.closed, [evs[0]]), Accepted(s1.closed, evs[1..]));
  }

  lemma AcceptedStep(closed: bool, evs: seq<Event>)
    requires evs != []
    ensures Accepted(closed, evs) == Accepted(closed, [evs[0]]) + Accepted(closed || evs[0].EvClose?, evs[1..])
  {
  }

  lemma SuffixChain(left: seq<bv8>, rest: seq<bv8>, all: seq<bv8>, one: seq<bv8>, more: seq<bv8>)
    requires IsSuffix(rest, all + one) && IsSuffix(left, rest + more)
    ensures IsSuffix(left, all + (one + more))
  {
  }

  // ----- exactly what a run loses -----

  /** The write finds the active file too full for it. */
  predicate Rotates(s: State, ev: Event) {
    ev.EvWrite? && !s.closed && s.size > 0 && s.size + |ev.p| > s.maxSize
  }

  function Rotations(s: State, evs: seq<Event>): nat
    requires 0 in s.disk
    decreases |evs|
  {
    if evs == [] then 0 else (if Rotates(s, evs[0]) then 1 else 0) + Rotations(Apply(s, evs[0]), evs[1..])
  }

  /** The bytes of the files a writer of n backups has, oldest first, the active one last. */
  function Files(disk: map<nat, LogFile>, n: nat): seq<seq<bv8>> {
    if n == 0 then [Bytes(disk, 0)] else [Bytes(disk, n)] + Files(disk, n - 1)
  }

  /** A list of files after one call: a write that rotates starts a new one, any other goes on the last. */
  function Extended(s: State, files: seq<seq<bv8>>, ev: Event): seq<seq<bv8>> {
    if files == [] || s.closed || !ev.EvWrite? then files
    else if Rotates(s, ev) then files + [ev.p]
    else files[..|files| - 1] + [files[|files| - 1] + ev.p]
  }

  /** Every file there was and every file a run wrote, oldest first, as if none were ever lost. */
  function AllFiles(s: State, files: seq<seq<bv8>>, evs: seq<Event>): seq<seq<bv8>>
    requires 0 in s.disk
    decreases |evs|
  {
    if evs == [] then files else AllFiles(Apply(s, evs[0]), Extended(s, files, evs[0]), evs[1..])
  }

  function Flat(files: seq<seq<bv8>>): seq<bv8> {
    if files == [] then [] else files[0] + Flat(files[1..])
  }

  lemma {:induction false} FlatJoin(a: seq<seq<bv8>>, b: seq<seq<bv8>>)
    ensures Flat(a + b) == Flat(a) + Flat(b)
  {
    if a == [] {
      assert a + b == b;
    } else {
      assert (a + b)[1..] == a[1..] + b;
      FlatJoin(a[1..], b);
      assert a[0] + (Flat(a[1..]) + Flat(b)) == (a[0] + Flat(a[1..])) + Flat(b);
    }
  }

  lemma FlatSplit(files: seq<seq<bv8>>, k: nat)
    requires k <= |files|
    ensures Flat(files) == Flat(files[..k]) + Flat(files[k..])
  {
    hide Flat;
    assert files == files[..k] + files[k..];
    FlatJoin(files[..k], files[k..]);
  }

  lemma FlatOne(file: seq<bv8>)
    ensures Flat([file]) == file
  {
    assert [file][1..] == [] && file + [] == file;
  }

  lemma {:induction false} FilesFlat(disk: map<nat, LogFile>, n: nat)
    ensures |Files(disk, n)| == n + 1 && Files(disk, n)[n] == Bytes(disk, 0)
    ensures Flat(Files(disk, n)) == Contents(disk, n)
  {
    if n == 0 {
      FlatOne(Bytes(disk, 0));
    } else {
      FilesFlat(disk, n - 1);
      assert Files(disk, n)[1..] == Files(disk, n - 1);
    }
  }

  lemma {:induction false} FilesShift(disk: map<nat, LogFile>, n: nat, k: nat)
    requires 0 < k <= n
    ensures Files(Shifted(disk, n)[0 := EMPTY], k) == Files(disk, k - 1) + [[]]
  {
    hide Shifted;
    ShiftAt(disk, n, k);
    if k > 1 {
      FilesShift(disk, n, k - 1);
      assert [Bytes(disk, k - 1)] + (Files(disk, k - 2) + [[]]) == Files(disk, k - 1) + [[]];
    }
  }

  /** A rotation takes the oldest file off the list and puts an empty one on. */
  lemma FilesRotate(s: State)
    ensures var n := Backups(s); Files(Rotate(s).disk, n) == Files(s.disk, n)[1..] + [[]]
  {
    hide Shifted;
    var n := Backups(s);
    if n > 0 { FilesShift(s.disk, n, n); }
  }

  lemma {:induction false} FilesAppend(s: State, p: seq<bv8>, n: nat)
    requires 0 in s.disk
    ensures |Files(s.disk, n)| == n + 1
    ensures Files(Append(s, p).disk, n) == Files(s.disk, n)[..n] + [Files(s.disk, n)[n] + p]
  {
    if n > 0 { FilesAppend(s, p, n - 1); }
  }

  /** One call: the files are those before it, extended, less the oldest when it rotates. */
  lemma FilesStep(s: State, ev: Event)
    requires 0 in s.disk
    ensures var n, t := Backups(s), Apply(s, ev);
      && |Files(s.disk, n)| == n + 1
      && Files(t.disk, n) == Extended(s, Files(s.disk, n), ev)[if Rotates(s, ev) then 1 else 0..]
  {
    hide Append, Rotate;
    var n := Backups(s);
    var fs := Files(s.disk, n);
    FilesFlat(s.disk, n);
    if ev.EvWrite? && !s.closed {
      if Rotates(s, ev) {
        FilesRotate(s);
        RotateHasActive(s);
        FilesAppend(Rotate(s), ev.p, n);
        assert [] + ev.p == ev.p;
        assert fs[1..] + [ev.p] == (fs + [ev.p])[1..];
      } else {
        FilesAppend(s, ev.p, n);
      }
    }
  }

  lemma RotateHasActive(s: State)
    ensures 0 in Rotate(s).disk
  {
  }

  /** What a list holds grows by what the call accepts, and only its last file does. */
  lemma ExtendedFlat(s: State, files: seq<seq<bv8>>, ev: Event)
    requires files != []
    ensures Flat(Extended(s, files, ev)) == Flat(files) + Accepted(s.closed, [ev])
    ensures |Extended(s, files, ev)| == |files| + if Rotates(s, ev) then 1 else 0
  {
    AcceptedOne(s.closed, ev);
    var last := |files| - 1;
    assert files == files[..last] + [files[last]];
    if ev.EvWrite? && !s.closed {
      if Rotates(s, ev) {
        FlatJoin(files, [ev.p]);
        FlatOne(ev.p);
      } else {
        FlatJoin(files[..last], [files[last]]);
        FlatJoin(files[..last], [files[last] + ev.p]);
        FlatOne(files[last]);
        FlatOne(files[last] + ev.p);
        assert Flat(files[..last]) + (files[last] + ev.p) == (Flat(files[..last]) + files[last]) + ev.p;
      }
    } else {
      assert Flat(files) + [] == Flat(files);
    }
  }

  /** The files lost before, and those the writer has. */
  lemma ExtendedJoin(s: State, lost: seq<seq<bv8>>, files: seq<seq<bv8>>, ev: Event)
    requires files != []
    ensures Extended(s, lost + files, ev) == lost + Extended(s, files, ev)
  {
    if Rotates(s, ev) {
      assert (lost + files) + [ev.p] == lost + (files + [ev.p]);
    } else {
      var last := |files| - 1;
      assert (lost + files)[..|lost| + last] == lost + files[..last];
    }
  }

  /** The files lost before, then those the writer has: over a run each rotation lost one more, oldest first. */
  lemma {:induction false} RunFiles(s: State, evs: seq<Event>, lost: seq<seq<bv8>>)
    requires Inv(s)
    ensures var n, r := Backups(s), |lost| + Rotations(s, evs);
      var all := AllFiles(s, lost + Files(s.disk, n), evs);
      |all| == r + n + 1 && Files(Run(s, evs).disk, n) == all[r..]
    decreases |evs|
  {
    var n := Backups(s);
    var files := Files(s.disk, n);
    FilesFlat(s.disk, n);
    if evs != [] {
      hide Inv, Apply, Rotates, Files, Contents, Extended, Flat;
      var s1, more := Apply(s, evs[0]), Extended(s, files, evs[0]);
      var k := if Rotates(s, evs[0]) then 1 else 0;
      StepKeeps(s, evs[0]);
      FilesStep(s, evs[0]);
      ExtendedJoin(s, lost, files, evs[0]);
      ExtendedFlat(s, files, evs[0]);
      OneLost(lost, more, k);
      RunFiles(s1, evs[1..], lost + more[..k]);
    }
  }

  lemma OneLost(lost: seq<seq<bv8>>, files: seq<seq<bv8>>, k: nat)
    requires k <= |files|
    ensures lost + files == (lost + files[..k]) + files[k..] && |lost + files[..k]| == |lost| + k
  {
  }

  lemma {:induction false} AllFlat(s: State, files: seq<seq<bv8>>, evs: seq<Event>)
    requires Inv(s) && files != []
    ensures Flat(AllFiles(s, files, evs)) == Flat(files) + Accepted(s.closed, evs)
    decreases |evs|
  {
    if evs == [] {
      assert Flat(files) + [] == Flat(files);
    } else {
      hide Inv, Apply, Extended, Flat;
      var s1, more := Apply(s, evs[0]), Extended(s, files, evs[0]);
      StepKeeps(s, evs[0]);
      ExtendedFlat(s, files, evs[0]);
      AllFlat(s1, more, evs[1..]);
      AcceptedStep(s.closed, evs);
      Regroup(Flat(files), Accepted(s.closed, [evs[0]]), Accepted(s1.closed, evs[1..]));
    }
  }

  lemma Regroup(a: seq<bv8>, b: seq<bv8>, c: seq<bv8>)
    ensures a + b + c == a + (b + c)
  {
  }

  /** Of all files there were and a run wrote, the writer has the last n + 1; the run lost exactly the others. */
  lemma RunLosesExactly(s: State, evs: seq<Event>)
    requires Inv(s)
    ensures var n, t, r := Backups(s), Run(s, evs), Rotations(s, evs);
      var all := AllFiles(s, Files(s.disk, n), evs);
      && |all| == r + n + 1 && Files(t.disk, n) == all[r..]
      && Flat(all) == Contents(s.disk, n) + Accepted(s.closed, evs)
      && Flat(all[..r]) + Contents(t.disk, n) == Contents(s.disk, n) + Accepted(s.closed, evs)
  {
    assert 0 in s.disk;
    hide Inv, Apply, Rotates, Files, Contents, Extended, Flat, Run, AllFiles, Accepted;
    var n, t, r := Backups(s), Run(s, evs), Rotations(s, evs);
    var all := AllFiles(s, Files(s.disk, n), evs);
    assert [] + Files(s.disk, n) == Files(s.disk, n);
    RunFiles(s, evs, []);
    FilesFlat(s.disk, n);
    FilesFlat(t.disk, n);
    AllFlat(s, Files(s.disk, n), evs);
    FlatSplit(all, r);
  }

  lemma StepKeeps(s: State, ev: Event)
    requires Inv(s)
    ensures Inv(Apply(s, ev)) && Backups(Apply(s, ev)) == Backups(s)
    ensures Apply(s, ev).closed == (s.closed || ev.EvClose?)
  {
    if ev.EvWrite? { WriteKeeps(s, ev.p); }
  }

  /** All files but the last hold something. */
  predicate Filled(files: seq<seq<bv8>>) {
    forall i | 0 <= i < |files| - 1 :: files[i] != []
  }

  lemma ExtendedFilled(s: State, files: seq<seq<bv8>>, ev: Event)
    requires Inv(s) && files != [] && files[|files| - 1] == Bytes(s.disk, 0) && Filled(files)
    ensures var more, t := Extended(s, files, ev), Apply(s, ev);
      more != [] && more[|more| - 1] == Bytes(t.disk, 0) && Filled(more)
  {
    hide Shifted;
  }

  /** A file is never rotated out empty. */
  lemma {:induction false} RotatedFilled(s: State, files: seq<seq<bv8>>, evs: seq<Event>)
    requires Inv(s) && files != [] && files[|files| - 1] == Bytes(s.disk, 0) && Filled(files)
    ensures Filled(AllFiles(s, files, evs))
    decreases |evs|
  {
    if evs != [] {
      hide Inv, Apply, Extended, Filled;
      StepKeeps(s, evs[0]);
      ExtendedFilled(s, files, evs[0]);
      RotatedFilled(Apply(s, evs[0]), Extended(s, files, evs[0]), evs[1..]);
    }
  }

  lemma {:induction false} AllJoin(s: State, lost: seq<seq<bv8>>, files: seq<seq<bv8>>, evs: seq<Event>)
    requires Inv(s) && files != []
    ensures AllFiles(s, lost + files, evs) == lost + AllFiles(s, files, evs)
    decreases |evs|
  {
    if evs != [] {
      hide Inv, Apply, Extended;
      StepKeeps(s, evs[0]);
      ExtendedJoin(s, lost, files, evs[0]);
      ExtendedFlat(s, files, evs[0]);
      AllJoin(Apply(s, evs[0]), lost, Extended(s, files, evs[0]), evs[1..]);
    }
  }

  function Empties(n: nat): seq<seq<bv8>> {
    if n == 0 then [] else [[]] + Empties(n - 1)
  }

  lemma {:induction false} EmptiesFlat(n: nat, k: nat)
    requires k <= n
    ensures |Empties(n)| == n && Empties(n)[k..] == Empties(n - k) && Flat(Empties(n)) == []
  {
    if n > 0 {
      EmptiesFlat(n - 1, if k > 0 then k - 1 else 0);
      assert Empties(n)[1..] == Empties(n - 1);
      if k > 0 { assert Empties(n)[k..] == Empties(n - 1)[k - 1..]; }
    }
  }

  lemma {:induction false} NoFiles(disk: map<nat, LogFile>, n: nat)
    requires disk == map[0 := EMPTY]
    ensures Files(disk, n) == Empties(n) + [[]]
  {
    if n > 0 { NoFiles(disk, n - 1); }
  }

  /** Of n empty files and then all, the last ones after r were lost. */
  lemma LostOf(n: nat, all: seq<seq<bv8>>, r: nat)
    requires |all| == r + 1
    ensures |Empties(n)| == n
    ensures r <= n ==> Flat((Empties(n) + all)[r..]) == Flat(all)
    ensures r > n ==> Flat(all) == Flat(all[..r - n]) + Flat((Empties(n) + all)[r..])
  {
    EmptiesFlat(n, if r <= n then r else n);
    if r <= n {
      assert (Empties(n) + all)[r..] == Empties(n - r) + all;
      EmptiesFlat(n - r, 0);
      FlatJoin(Empties(n - r), all);
      assert [] + Flat(all) == Flat(all);
    } else {
      assert (Empties(n) + all)[r..] == all[r - n..];
      FlatSplit(all, r - n);
    }
  }

  lemma FilledFlat(all: seq<seq<bv8>>, k: nat)
    requires Filled(all) && 0 < k < |all|
    ensures Flat(all[..k]) != []
  {
    assert all[..k][0] == all[0] != [];
  }

  lemma EmptyWrites(maxSize: int, maxBackups: int, evs: seq<Event>)
    ensures var s := Open(map[], maxSize, maxBackups);
      && 0 in s.disk && Filled(AllFiles(s, [[]], evs)) && Flat(AllFiles(s, [[]], evs)) == Accepted(false, evs)
  {
    var s := Open(map[], maxSize, maxBackups);
    StartsEmpty(maxSize, maxBackups);
    hide Inv, AllFiles, Flat, Filled, Accepted, Bytes, Open;
    AllFlat(s, [[]], evs);
    FlatOne([]);
    Nothing(Accepted(false, evs));
    assert Filled([[]]) by { OneFilled([]); }
    RotatedFilled(s, [[]], evs);
  }

  lemma OneFilled(file: seq<bv8>)
    ensures Filled([file])
  {
  }

  lemma EmptyLeaves(maxSize: int, maxBackups: int, evs: seq<Event>)
    ensures var s := Open(map[], maxSize, maxBackups);
      var n, r, all := Backups(s), Rotations(s, evs), AllFiles(s, [[]], evs);
      && |all| == r + 1 && |Empties(n)| == n && Contents(Run(s, evs).disk, n) == Flat((Empties(n) + all)[r..])
  {
    var s := Open(map[], maxSize, maxBackups);
    StartsEmpty(maxSize, maxBackups);
    hide Inv, Run, Rotations, AllFiles, Open, Flat, Contents, Files, Accepted, Empties, Bytes;
    var n := Backups(s);
    AllJoin(s, Empties(n), [[]], evs);
    RunLosesExactly(s, evs);
    FilesFlat(Run(s, evs).disk, n);
  }

  /**
   From an empty directory a run loses nothing exactly when it rotates no more often than
   there are backups. One that rotates more often loses the first files it filled, one for
   each rotation too many, and no other byte.
   */
  lemma EmptyLosesExactly(maxSize: int, maxBackups: int, evs: seq<Event>)
    ensures var s, n: nat := Open(map[], maxSize, maxBackups), if maxBackups > 0 then maxBackups else 0;
      var left, r := Contents(Run(s, evs).disk, n), Rotations(s, evs);
      var all := AllFiles(s, [[]], evs);
      && |all| == r + 1 && Filled(all) && Flat(all) == Accepted(false, evs)
      && (left == Accepted(false, evs) <==> r <= n)
      && (r > n ==> Flat(all[..r - n]) + left == Accepted(false, evs))
  {
    assert Open(map[], maxSize, maxBackups).maxBackups == maxBackups;
    hide Run, Rotations, AllFiles, Open, Flat, Contents, Accepted, Empties, Filled;
    EmptyWrites(maxSize, maxBackups, evs);
    EmptyLeaves(maxSize, maxBackups, evs);
    var s := Open(map[], maxSize, maxBackups);
    Losses(Backups(s), AllFiles(s, [[]], evs), Rotations(s, evs), Contents(Run(s, evs).disk, Backups(s)));
  }

  lemma Losses(n: nat, all: seq<seq<bv8>>, r: nat, left: seq<bv8>)
    requires |all| == r + 1 && Filled(all) && |Empties(n)| == n && left == Flat((Empties(n) + all)[r..])
    ensures left == Flat(all) <==> r <= n
    ensures r > n ==> Flat(all[..r - n]) + left == Flat(all)
  {
    hide Flat, Filled, Empties;
    LostOf(n, all, r);
    if r > n {
      FilledFlat(all, r - n);
      Longer(Flat(all[..r - n]), left);
    }
  }

  lemma Longer(a: seq<bv8>, b: seq<bv8>)
    ensures a != [] ==> a + b != b
  {
    assert |a + b| == |a| + |b|;
  }

  lemma StartsEmpty(maxSize: int, maxBackups: int)
    ensures var s := Open(map[], maxSize, maxBackups);
      && Inv(s) && !s.closed && Bytes(s.disk, 0) == [] && |Empties(Backups(s))| == Backups(s)
      && Files(s.disk, Backups(s)) == Empties(Backups(s)) + [[]]
  {
    var s := Open(map[], maxSize, maxBackups);
    OpenKeeps(map[], maxSize, maxBackups);
    assert s.disk == map[0 := EMPTY];
    NoFiles(s.disk, Backups(s));
    EmptiesFlat(Backups(s), 0);
  }

  lemma Nothing(a: seq<bv8>)
    ensures [] + a == a
  {
  }

  /** Opening the files an earlier run left starts sound. */
  lemma OpenKeeps(disk: map<nat, seq<bv8>>, maxSize: int, maxBackups: int)
    ensures Inv(Open(disk, maxSize, maxBackups))
  {
  }
}

/** The writer: the shift of the backups as the loop over them. */
module Rotate {
  import opened Wrappers
  import opened RotateState

  class RotatingWriter {
    const maxSize: int
    const maxBackups: int
    var disk: map<nat, LogFile>
    var size: nat
    var closed: bool

    ghost function View(): State
      reads this
    {
      State(disk, size, closed, maxSize, maxBackups)
    }

    constructor (disk: map<nat, seq<bv8>>, maxSize: int, maxBackups: int)
      ensures View() == Open(disk, maxSize, maxBackups)
      ensures Inv(View())
    {
      OpenKeeps(disk, maxSize, maxBackups);
      var all := map i | i in disk :: LogFile(disk[i], |disk[i]|, 0);
      if 0 !in all {
        all := all[0 := EMPTY];
      }
      this.disk, size, closed := all, |all[0].bytes|, false;
      this.maxSize, this.maxBackups := maxSize, maxBackups;
    }

    /** os.Rename, a missing source ignored. */
    method Rename(src: nat, dst: nat)
      requires src != dst
      modifies this`disk
      ensures disk == if src in old(disk) then old(disk)[dst := old(disk)[src]] - {src} else old(disk)
    {
      if src in disk {
        disk := disk[dst := disk[src]] - {src};
      }
    }

    method RotateFiles()
      requires 0 in disk
      modifies this`disk, this`size
      ensures View() == RotateState.Rotate(old(View()))
    {
      ghost var was, n := disk, Backups(View());
      if maxBackups > 0 {
        disk := disk - {maxBackups};
        var i := maxBackups - 1;
        while i >= 1
          invariant 0 <= i < maxBackups
          invariant forall j: nat | j <= i :: (j in disk <==> j in was) && (j in was ==> disk[j] == was[j])
          invariant i + 1 !in disk
          invariant forall j: nat | i + 1 < j :: MovedAt(was, disk, n, j)
        {
          ghost var before := disk;
          Rename(i, i + 1);
          forall j: nat | i < j
            ensures MovedAt(was, disk, n, j)
          {
            if j > i + 1 { assert MovedAt(was, before, n, j); }
          }
          i := i - 1;
        }
        ghost var before := disk;
        Rename(0, 1);
        forall j: nat | 0 < j
          ensures MovedAt(was, disk, n, j)
        {
          if j > 1 { assert MovedAt(was, before, n, j); }
        }
      } else {
        disk := disk - {0};
      }
      ghost var before := disk;
      disk, size := disk[0 := EMPTY], 0;
      forall j: nat | j > 0
        ensures MovedAt(was, disk, n, j)
      {
        assert MovedAt(was, before, n, j);
      }
      MovedEverywhere(was, disk, n);
    }

    method Write(p: seq<bv8>) returns (ok: bool)
      requires Inv(View())
      modifies this
      ensures View() == RotateState.Write(old(View()), p)
      ensures Inv(View()) && ok == !old(closed)
    {
      WriteKeeps(View(), p);
      if closed {
        return false;
      }
      if size > 0 && size + |p| > maxSize {
        RotateFiles();
      }
      var f := disk[0];
      disk := disk[0 := f.(bytes := f.bytes + p, writes := if p == [] then f.writes else f.writes + 1)];
      size := size + |p|;
      ok := true;
    }

    method Close()
      requires Inv(View())
      modifies this`closed
      ensures View() == old(View()).(closed := true)
    {
      closed := true;
    }
  }

  /** File j is what the shift puts there. */
  ghost predicate MovedAt(was: map<nat, LogFile>, disk: map<nat, LogFile>, n: nat, j: nat)
    requires j > 0
  {
    (j in disk <==> Source(j, n) in was) && (j in disk ==> disk[j] == was[Source(j, n)])
  }

  lemma MovedEverywhere(was: map<nat, LogFile>, disk: map<nat, LogFile>, n: nat)
    requires forall j: nat | j > 0 :: MovedAt(was, disk, n, j)
    requires 0 in disk && disk[0] == EMPTY
    ensures disk == Shifted(was, n)[0 := EMPTY]
  {
    var d := Shifted(was, n)[0 := EMPTY];
    forall j: nat
      ensures j in disk <==> j in d
      ensures j in disk ==> disk[j] == d[j]
    {
      if j > 0 {
        assert MovedAt(was, disk, n, j);
        ShiftAt(was, n, j);
      }
    }
  }
}
