/**
 The engine's updates channel: one sampler, a channel holding one snapshot, a consumer
 that takes whenever it likes. Every atomic action is a step, so the consumer may act
 between the sampler's drain and its send.
 */
module UpdatesState {
  import opened Wrappers

  /** A torrent's status as compared: the error by its text. */
  datatype Status = Status(id: string, state: string, done: int, err: string)

  type Snapshot = seq<Status>

  datatype Sampler = Idle | Publishing(snap: Snapshot) | Sending(next: Snapshot)

  /** published, received and sampled are history; missed is set when a send found the channel full. */
  datatype State = State(
    sampler: Sampler,
    last: Option<Snapshot>,
    channel: Option<Snapshot>,
    published: seq<Snapshot>,
    received: seq<Snapshot>,
    sampled: Option<Snapshot>,
    missed: bool)

  const START := State(Idle, None, None, [], [], None, false)

  /** One tick: sample, and publish only what differs from the last published. */
  function Tick(s: State, snap: Snapshot): State {
    if s.sampler != Idle then s
    else if s.last == Some(snap) then s.(sampled := Some(snap))
    else s.(sampled := Some(snap), sampler := Publishing(snap))
  }

  /** publish's first select: discard what the consumer has not taken. */
  function Drain(s: State): State {
    if s.sampler.Publishing? then s.(channel := None, sampler := Sending(s.sampler.snap)) else s
  }

  /** publish's second select: send if there is room, and go on either way. */
  function Send(s: State): State {
    if !s.sampler.Sending? then s
    else
      var t := s.(last := Some(s.sampler.next), published := s.published + [s.sampler.next], sampler := Idle);
      if s.channel.None? then t.(channel := Some(s.sampler.next)) else t.(missed := true)
  }

  function Receive(s: State): State {
    if s.channel.None? then s else s.(received := s.received + [s.channel.value], channel := None)
  }

  datatype Event = EvTick(snap: Snapshot) | EvDrain | EvSend | EvReceive

  function Apply(s: State, ev: Event): State {
    match ev
    case EvTick(snap) => Tick(s, snap)
    case EvDrain => Drain(s)
    case EvSend => Send(s)
    case EvReceive => Receive(s)
  }

  function Run(s: State, evs: seq<Event>): State
    decreases |evs|
  {
    if evs == [] then s else Run(Apply(s, evs[0]), evs[1..])
  }

  /** a is b with some elements left out. */
  predicate Subsequence<T(==)>(a: seq<T>, b: seq<T>) {
    if a == [] then true
    else if b == [] then false
    else if a[|a| - 1] == b[|b| - 1] && Subsequence(a[..|a| - 1], b[..|b| - 1]) then true
    else Subsequence(a, b[..|b| - 1])
  }

  lemma SubsequenceSkip<T>(a: seq<T>, b: seq<T>, x: T)
    requires Subsequence(a, b)
    ensures Subsequence(a, b + [x])
  {
  }

  lemma SubsequenceTake<T>(a: seq<T>, b: seq<T>, x: T)
    requires Subsequence(a, b)
    ensures Subsequence(a + [x], b + [x])
  {
  }

  lemma {:induction false} SubsequenceDrop<T>(a: seq<T>, x: T, b: seq<T>)
    requires Subsequence(a + [x], b)
    ensures Subsequence(a, b)
  {
    assert (a + [x])[..|a|] == a;
    if b != [] {
      var c := b[..|b| - 1];
      assert b == c + [b[|b| - 1]];
      if Subsequence(a, c) {
        SubsequenceSkip(a, c, b[|b| - 1]);
      } else {
        SubsequenceDrop(a, x, c);
      }
    }
  }

  function Last(s: seq<Snapshot>): Option<Snapshot> {
    if s == [] then None else Some(s[|s| - 1])
  }

  function Buffered(s: State): seq<Snapshot> {
    if s.channel.Some? then [s.channel.value] else []
  }

  /** What was taken and what waits are part of what was published, the newest of it waiting or taken. */
  ghost predicate Delivered(s: State) {
    && !s.missed
    && Subsequence(s.received + Buffered(s), s.published)
    && (s.sampler.Sending? ==> s.channel.None?)
    && (s.channel.Some? ==> s.channel == s.last)
    && (s.channel.None? && !s.sampler.Sending? ==> Last(s.received) == s.last)
  }

  /** Only changes are published: the snapshot on its way differs from the last one. */
  ghost predicate Changing(s: State) {
    && s.last == Last(s.published)
    && (s.sampler.Idle? ==> s.sampled == s.last)
    && (s.sampler.Publishing? ==> s.last != Some(s.sampler.snap) && s.sampled == Some(s.sampler.snap))
    && (s.sampler.Sending? ==> s.last != Some(s.sampler.next) && s.sampled == Some(s.sampler.next))
  }

  predicate NewsAt(published: seq<Snapshot>, i: nat) {
    0 < i < |published| ==> published[i - 1] != published[i]
  }

  /** No two snapshots in a row are alike. */
  ghost predicate NoRepeat(published: seq<Snapshot>) {
    forall i: nat :: NewsAt(published, i)
  }

  lemma NoRepeatAppend(published: seq<Snapshot>, snap: Snapshot)
    requires NoRepeat(published) && Last(published) != Some(snap)
    ensures NoRepeat(published + [snap])
  {
    forall i: nat
      ensures NewsAt(published + [snap], i)
    {
      assert NewsAt(published, i);
    }
  }

  ghost predicate Inv(s: State) {
    Delivered(s) && Changing(s) && NoRepeat(s.published)
  }

  lemma DrainKeeps(s: State)
    requires Inv(s)
    ensures Inv(Drain(s))
  {
    if s.sampler.Publishing? && s.channel.Some? {
      SubsequenceDrop(s.received, s.channel.value, s.published);
    }
    assert s.received + [] == s.received;
  }

  lemma SendDelivers(s: State)
    requires Delivered(s)
    ensures Delivered(Send(s))
  {
    if s.sampler.Sending? {
      assert s.received + [] == s.received;
      SubsequenceTake(s.received, s.published, s.sampler.next);
    }
  }

  lemma SendKeeps(s: State)
    requires Inv(s)
    ensures Inv(Send(s))
  {
    SendDelivers(s);
    var t := Send(s);
    if s.sampler.Sending? { NoRepeatAppend(s.published, s.sampler.next); }
    assert Changing(t);
  }

  lemma ReceiveKeeps(s: State)
    requires Inv(s)
    ensures Inv(Receive(s))
  {
    if s.channel.Some? {
      assert s.received + [s.channel.value] + [] == s.received + [s.channel.value];
    }
  }

  /** What was published and received stays so. */
  lemma ApplyAppends(s: State, ev: Event)
    ensures s.published <= Apply(s, ev).published && s.received <= Apply(s, ev).received
  {
  }

  lemma ApplyKeeps(s: State, ev: Event)
    requires Inv(s)
    ensures Inv(Apply(s, ev))
  {
    match ev
    case EvTick(snap) =>
    case EvDrain => DrainKeeps(s);
    case EvSend => SendKeeps(s);
    case EvReceive => ReceiveKeeps(s);
  }

  lemma {:induction false} RunKeeps(s: State, evs: seq<Event>)
    requires Inv(s)
    ensures Inv(Run(s, evs)) && s.published <= Run(s, evs).published && s.received <= Run(s, evs).received
    decreases |evs|
  {
    if evs != [] {
      hide Inv, Apply;
      ApplyKeeps(s, evs[0]);
      ApplyAppends(s, evs[0]);
      RunKeeps(Apply(s, evs[0]), evs[1..]);
    }
  }

  /**
   In every interleaving: no send finds the channel full, so the sampler never has to wait
   and nothing published is dropped but what a newer snapshot replaced; what the consumer
   got is a subsequence of what was published, no two in a row alike; and whenever the
   sampler is between ticks, a consumer that emptied the channel holds the latest sample.
   */
  lemma LatestWins(evs: seq<Event>)
    ensures var s := Run(START, evs);
      && !s.missed
      && Subsequence(s.received, s.published)
      && NoRepeat(s.published)
      && (s.sampler.Idle? && s.channel.None? ==> Last(s.received) == s.sampled)
      && (s.sampler.Idle? && s.channel.Some? ==> s.channel == s.sampled)
  {
    RunKeeps(START, evs);
    var s := Run(START, evs);
    assert s.received + [] == s.received;
    if s.channel.Some? { SubsequenceDrop(s.received, s.channel.value, s.published); }
  }

  /** The sampler takes at most three steps of its own from tick to tick, whatever the consumer does. */
  lemma PublishFinishes(s: State, a: seq<Event>, b: seq<Event>)
    requires s.sampler.Publishing?
    requires forall ev | ev in a + b :: ev.EvReceive?
    ensures Run(s, a + [EvDrain] + b + [EvSend]).sampler.Idle?
    ensures Last(Run(s, a + [EvDrain] + b + [EvSend]).published) == Some(s.sampler.snap)
  {
    var all := a + [EvDrain] + b + [EvSend];
    ReceivesOnly(s, a, [EvDrain] + b + [EvSend]);
    assert all == a + ([EvDrain] + b + [EvSend]);
    var s1 := Run(s, a);
    assert forall ev | ev in a :: ev in a + b;
    assert forall ev | ev in b :: ev in a + b;
    assert ([EvDrain] + b + [EvSend])[1..] == b + [EvSend];
    ReceivesOnly(Drain(s1), b, [EvSend]);
    assert [EvSend][1..] == [];
  }

  lemma {:induction false} ReceivesOnly(s: State, a: seq<Event>, rest: seq<Event>)
    requires forall ev | ev in a :: ev.EvReceive?
    ensures Run(s, a).sampler == s.sampler
    ensures Run(s, a + rest) == Run(Run(s, a), rest)
    decreases |a|
  {
    if a == [] {
      assert a + rest == rest;
    } else {
      assert a[0] in a && (a + rest)[1..] == a[1..] + rest;
      assert forall ev | ev in a[1..] :: ev in a;
      ReceivesOnly(Apply(s, a[0]), a[1..], rest);
    }
  }
}

/** The sampler and its channel as objects: what the consumer takes is its own to edit. */
module Updates {
  import opened Wrappers
  import opened UpdatesState

  datatype Step = AtTick | AtDrain | AtSend

  class Channel {
    /**
     The last published snapshot, private to the sampler; snap is the one being published, copy what
     is handed over.
     */
    var last: array?<Status>
    var snap: array?<Status>
    var copy: array?<Status>
    var buffer: array?<Status>
    var step: Step
    ghost var published: seq<Snapshot>
    ghost var received: seq<Snapshot>
    ghost var sampled: Option<Snapshot>
    ghost var missed: bool
    /** Every array the consumer was given. */
    ghost var taken: set<array<Status>>

    ghost function View(): State
      requires snap != null || step == AtTick
      reads this, last, snap, buffer
    {
      State(match step
            case AtTick => Idle
            case AtDrain => UpdatesState.Publishing(snap[..])
            case AtSend => UpdatesState.Sending(snap[..]),
            Held(last), Held(buffer), published, received, sampled, missed)
    }

    static ghost function Held(a: array?<Status>): Option<Snapshot>
      reads a
    {
      if a == null then None else Some(a[..])
    }

    /** Nothing the sampler reads again is anything the consumer has or will get. */
    ghost predicate Apart()
      reads this, last, snap, copy, buffer
    {
      && (step != AtTick ==>
            snap != null && copy != null && copy[..] == snap[..] && snap != copy && snap !in taken && copy !in taken)
      && (last != null ==> last !in taken && last != buffer && (step != AtTick ==> last != copy))
      && (buffer != null ==> buffer !in taken && (step != AtTick ==> buffer != snap && buffer != copy))
    }

    constructor ()
      ensures Apart() && View() == START && taken == {}
    {
      last, snap, copy, buffer, step := null, null, null, null, AtTick;
      published, received, sampled, missed, taken := [], [], None, false, {};
    }

    /** snapshotsEqual. */
    static method SnapshotsEqual(a: array<Status>, b: array<Status>) returns (equal: bool)
      ensures equal <==> a[..] == b[..]
    {
      if a.Length != b.Length {
        return false;
      }
      var i := 0;
      while i < a.Length
        invariant i <= a.Length && a[..i] == b[..i]
      {
        if a[i] != b[i] {
          assert a[..] != b[..] by { assert a[..][i] != b[..][i]; }
          return false;
        }
        i := i + 1;
      }
      assert a[..i] == a[..] && b[..i] == b[..];
      equal := true;
    }

    /** One tick over a sample just taken: keep it and a copy of it when it is news. */
    method Tick(sample: array<Status>)
      requires Apart() && step == AtTick
      requires sample !in taken && sample != last && sample != buffer
      modifies this`snap, this`copy, this`step, this`sampled
      ensures Apart() && View() == UpdatesState.Tick(old(View()), sample[..])
    {
      sampled := Some(sample[..]);
      if last != null {
        var equal := SnapshotsEqual(last, sample);
        if equal {
          return;
        }
      }
      var fresh_ := new Status[sample.Length](i requires 0 <= i < sample.Length reads sample => sample[i]);
      assert fresh_[..] == sample[..];
      snap, copy, step := sample, fresh_, AtDrain;
    }

    method Drain()
      requires Apart() && step == AtDrain
      modifies this`buffer, this`step
      ensures Apart() && View() == UpdatesState.Drain(old(View()))
    {
      buffer, step := null, AtSend;
    }

    method Send()
      requires Apart() && step == AtSend
      modifies this
      ensures Apart() && step == AtTick && View() == UpdatesState.Send(old(View())) && taken == old(taken)
    {
      if buffer == null {
        buffer := copy;
      } else {
        missed := true;
      }
      published := published + [snap[..]];
      last, step := snap, AtTick;
    }

    method Receive() returns (got: array?<Status>)
      requires Apart()
      modifies this`buffer, this`received, this`taken
      ensures Apart() && View() == UpdatesState.Receive(old(View()))
      ensures got != null ==> got in taken && received == old(received) + [got[..]]
    {
      got := buffer;
      if got != null {
        received, taken := received + [got[..]], taken + {got};
        buffer := null;
      }
    }

    /** The consumer edits what it took: nothing the sampler or a later take sees changes. */
    method Edit(a: array<Status>, i: nat, x: Status)
      requires Apart() && a in taken && i < a.Length
      modifies a
      ensures a[i] == x && Apart() && View() == old(View())
    {
      a[i] := x;
    }
  }
}
