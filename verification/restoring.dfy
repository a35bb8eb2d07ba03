/**
 Resume against the engine itself: the ids an engine that starts empty hands out while a
 session is restored, and so what the session keeps.
 */
module Restoring {
  import opened Wrappers
  import opened Text
  import opened EngineState
  import opened EngineSteps
  import opened EngineProofs
  import opened EngineInvariants
  import opened EngineEffects
  import opened EngineHistory
  import opened EngineTheorems
  import Records
  import StoreState
  import Store
  import SessionState
  import ResumeProofs

  /** An engine id as the records spell it. */
  function IdText(id: Id): string {
    if id.Numbered? then "an-" + Show(id.n) else id.text
  }

  /** The id an adding event answers with: that of the entry it made, or of the live entry it matched. */
  function AnswerOf(s: State, ev: Event): Option<Id> {
    if s.closed then None
    else
      match ev
      case EvAdd(spec, dest, prov, view) =>
        if spec.hash == "" then None
        else
          (match DecideClaim(s, spec.hash, None, dest, view)
           case ClaimExisting(id) => Some(id)
           case ClaimLeftData(_, _) => None
           case ClaimClear(refused) => Some(Mint(UntrackAll(s, refused), prov.want).id))
      case EvAddURL(_, prov) => Some(Mint(s, prov.want).id)
      case EvRestoreErrored(_, _, prov, _, _) => Some(Mint(s, prov.want).id)
      case _ => None
  }

  function Wants(ev: Event): Option<Id> {
    match ev
    case EvAdd(_, _, prov, _) => prov.want
    case EvAddURL(_, prov) => prov.want
    case EvRestoreErrored(_, _, prov, _, _) => prov.want
    case _ => None
  }

  /**
   The first half of addOrFail: an Add whose attach fails, what other goroutines do before its
   clean-up, and what they do before the torrent is tracked again as errored.
   */
  datatype Try = Try(spec: Spec, dest: string, prov: Provenance, view: LeftView, meanwhile: seq<Event>,
                     left: string, dirs: map<string, DirMatch>, between: seq<Event>)

  /**
   One Restore: what the engine's own goroutines did before it, an Add that failed if one did, and
   the addition that answers.
   */
  datatype Call = Call(background: seq<Event>, tried: Option<Try>, ev: Event)

  ghost predicate Background(evs: seq<Event>) {
    forall ev | ev in evs :: !Adds(ev)
  }

  /** The attempt tracked an entry under the wanted id, or the next free one, and its attach failed. */
  ghost predicate Fails(s: State, t: Try, want: Id) {
    && t.spec.hash != "" && t.prov.want == Some(want) && Background(t.meanwhile) && Background(t.between)
    && var (s1, out) := FindOrTrack(s, t.spec, t.dest, t.prov, t.view);
       out.AddTracked? && AddFailed(Run(s1, t.meanwhile), out.r)
  }

  function AfterTry(s: State, t: Try): State {
    var (s1, out) := FindOrTrack(s, t.spec, t.dest, t.prov, t.view);
    if out.AddTracked? then Run(Cleanup(Run(s1, t.meanwhile), out.r, t.left, t.dirs), t.between) else s
  }

  ghost predicate Restores(s: State, c: Call, want: Id) {
    && Background(c.background)
    && Adds(c.ev) && Wants(c.ev) == Some(want)
    && (c.tried.Some? ==> c.ev.EvRestoreErrored? && Fails(Run(s, c.background), c.tried.value, want))
  }

  /** The state the answering addition finds. */
  function Before(s: State, c: Call): State {
    var s1 := Run(s, c.background);
    if c.tried.Some? then AfterTry(s1, c.tried.value) else s1
  }

  function After(s: State, calls: seq<Call>): State {
    if calls == [] then s
    else
      var c := calls[|calls| - 1];
      Apply(Before(After(s, calls[..|calls| - 1]), c), c.ev)
  }

  function Answer(s: State, calls: seq<Call>, j: nat): Option<Id>
    requires j < |calls|
  {
    AnswerOf(Before(After(s, calls[..j]), calls[j]), calls[j].ev)
  }

  // ----- an Add that failed leaves no id behind -----

  lemma TryAddsNone(s: State, t: Try, want: Id)
    requires Inv(s) && Fails(s, t, want)
    ensures Inv(AfterTry(s, t)) && Within(AfterTry(s, t), s)
  {
    hide Inv;
    var (s1, out) := FindOrTrack(s, t.spec, t.dest, t.prov, t.view);
    var s2 := Run(s1, t.meanwhile);
    FindOrTrackKeeps(s, t.spec, t.dest, t.prov, t.view);
    RunKeeps(s1, t.meanwhile);
    CleanupKeeps(s2, out.r, t.left, t.dirs);
    RunKeeps(Cleanup(s2, out.r, t.left, t.dirs), t.between);
    AddThenFail(s, t.spec, t.dest, t.prov, t.view, t.meanwhile, t.left, t.dirs);
    UntrackAllEffect(s, RefusedFor(s, s.order, t.spec.hash, None));
    BackgroundAddsNone(Cleanup(s2, out.r, t.left, t.dirs), t.between);
  }

  lemma BeforeAddsNone(s: State, c: Call, want: Id)
    requires Inv(s) && Restores(s, c, want)
    ensures Inv(Before(s, c)) && Within(Before(s, c), s)
  {
    hide Inv, Fails, AfterTry;
    RunKeeps(s, c.background);
    BackgroundAddsNone(s, c.background);
    if c.tried.Some? { TryAddsNone(Run(s, c.background), c.tried.value, want); }
  }

  /** What a claim finds is tracked. */
  lemma LiveFound(s: State, h: string, dest: string, view: LeftView)
    requires DecideClaim(s, h, None, dest, view).ClaimExisting?
    ensures DecideClaim(s, h, None, dest, view).id in s.torrents
  {
    assert FirstLive(s, s.order, h, None).Some?;
  }

  /**
   An addition answers with a tracked id, the one wanted, or another when that one is tracked; it
   adds only its answer.
   */
  lemma AdditionAnswers(s: State, ev: Event, want: Id)
    requires Adds(ev) && Wants(ev) == Some(want) && AnswerOf(s, ev).Some?
    ensures var a := AnswerOf(s, ev).value;
      && (a in s.torrents || a == want || want in s.torrents)
      && forall id | id in Apply(s, ev).torrents :: id in s.torrents || id == a
  {
    hide DecideClaim, UntrackAll;
    match ev
    case EvAdd(spec, dest, prov, view) =>
      var c := DecideClaim(s, spec.hash, None, dest, view);
      if c.ClaimClear? { UntrackAllEffect(s, c.refused); }
      else { LiveFound(s, spec.hash, dest, view); }
    case EvAddURL(dest, prov) =>
    case EvRestoreErrored(hex, dest, prov, left, dirs) =>
  }

  ghost predicate Pass(s: State, calls: seq<Call>, wants: seq<Id>)
    requires |calls| == |wants|
  {
    forall j | 0 <= j < |calls| :: Restores(After(s, calls[..j]), calls[j], wants[j])
  }

  lemma {:induction false} PassKeeps(s: State, calls: seq<Call>, wants: seq<Id>)
    requires |calls| == |wants| && Pass(s, calls, wants) && Inv(s)
    ensures Inv(After(s, calls))
    decreases |calls|
  {
    if calls != [] {
      var n := |calls| - 1;
      PassPrefix(s, calls, wants, n);
      PassKeeps(s, calls[..n], wants[..n]);
      BeforeAddsNone(After(s, calls[..n]), calls[n], wants[n]);
      ApplyKeeps(Before(After(s, calls[..n]), calls[n]), calls[n].ev);
    }
  }

  /** The first n calls of a pass are a pass, with the same answers. */
  lemma PassPrefix(s: State, calls: seq<Call>, wants: seq<Id>, n: nat)
    requires |calls| == |wants| && Pass(s, calls, wants) && n <= |calls|
    ensures Pass(s, calls[..n], wants[..n])
    ensures forall j | 0 <= j < n :: Answer(s, calls[..n], j) == Answer(s, calls, j)
  {
    forall j | 0 <= j < n
      ensures Restores(After(s, calls[..n][..j]), calls[..n][j], wants[..n][j]) &&
        Answer(s, calls[..n], j) == Answer(s, calls, j)
    {
      assert calls[..n][..j] == calls[..j];
      assert Restores(After(s, calls[..j]), calls[j], wants[j]);
    }
  }

  /** What is tracked after a call was tracked before it, or is its answer. */
  lemma LastCall(s: State, calls: seq<Call>, wants: seq<Id>, id: Id)
    requires |calls| == |wants| && Pass(s, calls, wants) && Inv(s) && calls != []
    requires Answer(s, calls, |calls| - 1).Some? && id in After(s, calls).torrents
    ensures id in After(s, calls[..|calls| - 1]).torrents || Answer(s, calls, |calls| - 1) == Some(id)
  {
    hide Inv, Restores, Before, AnswerOf, Wants, Apply;
    var n := |calls| - 1;
    var before := After(s, calls[..n]);
    PassPrefix(s, calls, wants, n);
    PassKeeps(s, calls[..n], wants[..n]);
    assert Restores(before, calls[n], wants[n]);
    CallAdds(before, calls[n], wants[n], id);
  }

  lemma CallAdds(s: State, c: Call, want: Id, id: Id)
    requires Inv(s) && Restores(s, c, want) && AnswerOf(Before(s, c), c.ev).Some?
    requires id in Apply(Before(s, c), c.ev).torrents
    ensures id in s.torrents || AnswerOf(Before(s, c), c.ev) == Some(id)
  {
    hide Inv, Before, AnswerOf, Wants, Apply;
    BeforeAddsNone(s, c, want);
    AdditionAnswers(Before(s, c), c.ev, want);
  }

  /** In an engine that started empty, whatever is tracked was answered. */
  lemma {:induction false} TrackedWasAnswered(s: State, calls: seq<Call>, wants: seq<Id>, id: Id)
    requires |calls| == |wants| && Pass(s, calls, wants) && Inv(s) && s.torrents == map[]
    requires forall j | 0 <= j < |calls| :: Answer(s, calls, j).Some?
    requires id in After(s, calls).torrents
    ensures exists j :: 0 <= j < |calls| && Answer(s, calls, j) == Some(id)
    decreases |calls|
  {
    var n := |calls| - 1;
    LastCall(s, calls, wants, id);
    if Answer(s, calls, n) != Some(id) {
      PassPrefix(s, calls, wants, n);
      TrackedWasAnswered(s, calls[..n], wants[..n], id);
      var j :| 0 <= j < n && Answer(s, calls[..n], j) == Some(id);
    }
  }

  function Texts(s: State, calls: seq<Call>): seq<Option<string>> {
    seq(|calls|, j requires 0 <= j < |calls| =>
      if Answer(s, calls, j).Some? then Some(IdText(Answer(s, calls, j).value)) else None)
  }

  lemma TextAt(s: State, calls: seq<Call>, j: nat, k: nat, id: Id)
    requires k < j <= |calls| && Answer(s, calls, k) == Some(id)
    ensures Some(IdText(id)) in Texts(s, calls)[..j]
  {
    assert Texts(s, calls)[..j][k] == Some(IdText(id));
  }

  /** The answers of an engine that started empty are what the session's theorem asks of them. */
  lemma AnswersFromEmpty(s: State, calls: seq<Call>, wants: seq<Id>, recs: seq<Records.Record>)
    requires |calls| == |wants| == |recs| && Pass(s, calls, wants) && Inv(s) && s.torrents == map[]
    requires forall j | 0 <= j < |recs| :: recs[j].id == IdText(wants[j])
    requires forall j | 0 <= j < |calls| :: Answer(s, calls, j).Some?
    ensures ResumeProofs.FromEmpty(recs, Texts(s, calls))
  {
    var texts := Texts(s, calls);
    forall j | 0 <= j < |recs|
      ensures texts[j] == Some(recs[j].id) || texts[j] in texts[..j] || Some(recs[j].id) in texts[..j]
    {
      var a := Answer(s, calls, j).value;
      var before := After(s, calls[..j]);
      assert Restores(before, calls[j], wants[j]);
      PassPrefix(s, calls, wants, j);
      PassKeeps(s, calls[..j], wants[..j]);
      BeforeAddsNone(before, calls[j], wants[j]);
      AdditionAnswers(Before(before, calls[j]), calls[j].ev, wants[j]);
      if a != wants[j] {
        var id := if a in before.torrents then a else wants[j];
        var k := AnsweredBefore(s, calls, wants, j, id);
        TextAt(s, calls, j, k, id);
      }
    }
  }

  lemma AnsweredBefore(s: State, calls: seq<Call>, wants: seq<Id>, j: nat, id: Id) returns (k: nat)
    requires |calls| == |wants| && Pass(s, calls, wants) && Inv(s) && s.torrents == map[] && j < |calls|
    requires forall i | 0 <= i < |calls| :: Answer(s, calls, i).Some?
    requires id in After(s, calls[..j]).torrents
    ensures k < j && Answer(s, calls, k) == Some(id)
  {
    PassPrefix(s, calls, wants, j);
    TrackedWasAnswered(s, calls[..j], wants[..j], id);
    k :| 0 <= k < j && Answer(s, calls[..j], k) == Some(id);
  }

  lemma TextsAnswered(s: State, calls: seq<Call>)
    requires forall j | 0 <= j < |calls| :: Answer(s, calls, j).Some? && Answer(s, calls, j) != Some(Named(""))
    ensures ResumeProofs.Answered(Texts(s, calls))
  {
    hide Answer;
    forall j | 0 <= j < |calls|
      ensures Texts(s, calls)[j].Some? && Texts(s, calls)[j].value != ""
    {
      SpelledOut(Answer(s, calls, j).value);
    }
  }

  lemma SpelledOut(id: Id)
    requires id != Named("")
    ensures IdText(id) != ""
  {
  }

  /**
   Restoring a session into an engine that starts empty loses nothing, whatever the
   engine's goroutines do meanwhile: each restored id keeps its first record, and the store
   holds those and no others.
   */
  lemma EmptyEngineLosesNothing(store: StoreState.State, s: State, calls: seq<Call>, wants: seq<Id>,
      recs: seq<Records.Record>)
    requires |calls| == |wants| == |recs| && Pass(s, calls, wants) && Inv(s) && s.torrents == map[]
    requires forall j | 0 <= j < |recs| :: recs[j].id == IdText(wants[j])
    requires forall j | 0 <= j < |calls| :: Answer(s, calls, j).Some? && Answer(s, calls, j) != Some(Named(""))
    requires !store.closed && Store.Lists(store.mem.torrents, recs)
    ensures var texts := Texts(s, calls);
      && ResumeProofs.AllKept(store, recs, texts)
      && forall id :: id in ResumeProofs.After(store, recs, texts) <==>
           id in SessionState.RestoreAll(store, recs, texts).restored
  {
    AnswersFromEmpty(s, calls, wants, recs);
    TextsAnswered(s, calls);
    ResumeProofs.FromEmptyKeeps(store, recs, Texts(s, calls));
  }
}
