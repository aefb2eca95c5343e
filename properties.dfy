/**
 * What one run of `runHandler` (lib/run.js:10-40) guarantees, stated over
 * the trace of effects it performs and the way it ends.
 */
module Properties {
  import opened Wrappers
  import opened Scripts
  import opened Stages

  /** The context `cloneEndpoint` resolves with. */
  function Cloned(req: Request, w: World): Ctx {
    Ctx(req, Repo(w.repoPath), None)
  }

  predicate Responded(t: seq<Event>) { exists i | 0 <= i < |t| :: t[i].effect.Respond? }
  predicate Spawned(t: seq<Event>) { exists i | 0 <= i < |t| :: t[i].effect.Spawn? }
  predicate Posted(t: seq<Event>) { exists i | 0 <= i < |t| :: t[i].effect.Post? }

  lemma PipelineShape()
    ensures Increasing(Pipeline)
    ensures forall j | 0 <= j < |Pipeline| :: Rank(Pipeline[j]) == j + 1
  {
  }

  /** Each stage after the clone sits at position `Rank(s) - 1` of the pipeline. */
  lemma PipelineAt(s: Chained)
    ensures 1 <= Rank(s) <= |Pipeline| && Pipeline[Rank(s) - 1] == s
  {
  }

  /** After a successful clone, the run is the clone's event followed by the chain. */
  lemma RunAfterClone(req: Request, w: World)
    requires Succeeds(Cloning, req, w)
    ensures var rest := Chain(Pipeline, Cloned(req, w), w);
      Run(req, w) == RunResult([Event(Cloning, GitClone(req.endpoint, w.repoPath))] + rest.trace, rest.result)
  {
  }

  /** A failed clone ends the run at once. */
  lemma RunCloneFails(req: Request, w: World)
    requires !Succeeds(Cloning, req, w)
    ensures Run(req, w) ==
      RunResult([Event(Cloning, GitClone(req.endpoint, w.repoPath))], Err(JobError(Cloning, GitError(w.clone.value))))
  {
  }

  /** Every stage of the pipeline resolves. */
  predicate AllSucceed(req: Request, w: World) {
    forall s :: Succeeds(s, req, w)
  }

  /** No event of `t` comes from a stage later than `s`. */
  predicate NothingAfter(t: seq<Event>, s: Stage) {
    forall i | 0 <= i < |t| :: Rank(t[i].stage) <= Rank(s)
  }

  /** Every event of `t` is of the kind its stage performs. */
  predicate WellTagged(t: seq<Event>) {
    forall i | 0 <= i < |t| :: Performs(t[i].stage, t[i].effect)
  }

  /**
   * The first rejection ends the run: the run resolves exactly when every
   * stage succeeds (and then carries the recorded close code), a rejection
   * names a failing stage all of whose predecessors succeeded, and nothing
   * is performed by any stage after it.
   */
  lemma RunStopsAtFirstFailure(req: Request, w: World)
    ensures var r := Run(req, w);
      (r.result.Ok? <==> AllSucceed(req, w)) &&
      (r.result.Ok? ==> r.result.value == Cloned(req, w).(code := w.exit)) &&
      (r.result.Err? ==>
        !Succeeds(r.result.error.stage, req, w) &&
        (forall s | Rank(s) < Rank(r.result.error.stage) :: Succeeds(s, req, w)) &&
        NothingAfter(r.trace, r.result.error.stage) &&
        (r.result.error.stage == Starting ==> forall i | 0 <= i < |r.trace| :: r.trace[i].stage != Starting)) &&
      WellTagged(r.trace)
  {
    if Succeeds(Cloning, req, w) {
      RunAfterClone(req, w);
      var c := Cloned(req, w);
      ChainStopsAtFirstFailure(Pipeline, c, w);
      ChainResolves(req, w);
      ChainRejects(req, w);
      ChainTagged(req, w);
    } else {
      RunCloneFails(req, w);
    }
  }

  lemma ChainResolves(req: Request, w: World)
    ensures var r := Chain(Pipeline, Cloned(req, w), w);
      (r.result.Ok? <==> FirstFailure(Pipeline, req, w) == |Pipeline|) &&
      (r.result.Ok? ==> r.result.value == Cloned(req, w).(code := w.exit)) &&
      (Succeeds(Cloning, req, w) ==> (FirstFailure(Pipeline, req, w) == |Pipeline| <==> AllSucceed(req, w)))
  {
    var c := Cloned(req, w);
    ChainStopsAtFirstFailure(Pipeline, c, w);
    assert Starting in Pipeline by { assert Pipeline[2] == Starting; }
    if Succeeds(Cloning, req, w) && FirstFailure(Pipeline, req, w) == |Pipeline| {
      forall s ensures Succeeds(s, req, w) {
        if s != Cloning { PipelineAt(s); }
      }
    }
  }

  lemma ChainRejects(req: Request, w: World)
    requires Succeeds(Cloning, req, w)
    ensures var r := Chain(Pipeline, Cloned(req, w), w);
      r.result.Err? ==>
        !Succeeds(r.result.error.stage, req, w) &&
        (forall s | Rank(s) < Rank(r.result.error.stage) :: Succeeds(s, req, w)) &&
        NothingAfter(r.trace, r.result.error.stage) &&
        (r.result.error.stage == Starting ==> forall i | 0 <= i < |r.trace| :: r.trace[i].stage != Starting)
  {
    var c := Cloned(req, w);
    var r := Chain(Pipeline, c, w);
    var k := FirstFailure(Pipeline, req, w);
    assert PerformedBy(r.trace, Through(Pipeline, k)) && (r.result.Err? ==> k < |Pipeline| && r.result.error.stage == Pipeline[k]) by {
      ChainStopsAtFirstFailure(Pipeline, c, w);
    }
    if r.result.Err? {
      var e := r.result.error;
      FailureRank(req, w, k);
      forall i | 0 <= i < |r.trace|
        ensures Rank(r.trace[i].stage) <= k + 1
        ensures e.stage == Starting ==> r.trace[i].stage != Starting
      {
        ThroughRanks(k, r.trace[i].stage);
      }
    }
  }

  /** The first failing stage sits at rank `k + 1`, and every stage below it succeeds. */
  lemma FailureRank(req: Request, w: World, k: nat)
    requires Succeeds(Cloning, req, w)
    requires k == FirstFailure(Pipeline, req, w) && k < |Pipeline|
    ensures Rank(Pipeline[k]) == k + 1
    ensures forall s | Rank(s) < k + 1 :: Succeeds(s, req, w)
  {
    PipelineShape();
    forall s | Rank(s) < k + 1 ensures Succeeds(s, req, w) {
      if s != Cloning { PipelineAt(s); }
    }
  }

  /** A stage that may have acted before the rejection at `k` ranks no higher than it. */
  lemma ThroughRanks(k: nat, x: Stage)
    requires k < |Pipeline| && x in Through(Pipeline, k)
    ensures Rank(x) <= k + 1
    ensures Pipeline[k] == Starting ==> x != Starting
  {
    PipelineShape();
    var th := Through(Pipeline, k);
    var m :| 0 <= m < |th| && th[m] == x;
    assert x == Pipeline[m] && (m == k ==> Pipeline[k] != Starting);
  }

  lemma ChainTagged(req: Request, w: World)
    ensures WellTagged(Chain(Pipeline, Cloned(req, w), w).trace)
  {
    ChainEventsBelong(Pipeline, Cloned(req, w), w);
  }

  /** Stages perform their effects strictly in the order clone, validate, ack, start, add, commit, push, notify. */
  lemma RunOrdered(req: Request, w: World)
    ensures InOrder(Run(req, w).trace)
  {
    if Succeeds(Cloning, req, w) {
      PipelineShape();
      var c := Cloned(req, w);
      RunAfterClone(req, w);
      ChainOrdered(Pipeline, c, w);
      AppendInOrder([Event(Cloning, GitClone(req.endpoint, w.repoPath))], Chain(Pipeline, c, w).trace);
    }
  }

  /** The context `Pipeline[j]` receives when every stage before it resolved. */
  function ContextAt(req: Request, w: World, j: nat): Ctx {
    if j > 2 then Cloned(req, w).(code := w.exit) else Cloned(req, w)
  }

  lemma FirstFailureAtLeast(req: Request, w: World, j: nat)
    requires j < |Pipeline|
    requires forall i | 0 <= i < j :: Succeeds(Pipeline[i], req, w)
    ensures j <= FirstFailure(Pipeline, req, w)
  {
  }

  lemma ChainSplitsAt(req: Request, w: World, j: nat)
    requires j < |Pipeline|
    requires j <= FirstFailure(Pipeline, req, w)
    ensures var c := Cloned(req, w);
      Chain(Pipeline, c, w).trace == Chain(Pipeline[..j], c, w).trace + Chain(Pipeline[j..], ContextAt(req, w, j), w).trace
  {
    assert Starting in Pipeline[..j] <==> j > 2 by {
      if j > 2 { assert Pipeline[..j][2] == Starting; }
    }
    ChainAt(Pipeline, Cloned(req, w), w, j);
  }

  /**
   * When the clone and every stage before position `j` resolved, the run's
   * trace ends with the chain of the stages from `j` on.
   */
  lemma RunSuffix(req: Request, w: World, j: nat)
    requires Succeeds(Cloning, req, w)
    requires j < |Pipeline|
    requires forall i | 0 <= i < j :: Succeeds(Pipeline[i], req, w)
    ensures exists pre :: Run(req, w).trace == pre + Chain(Pipeline[j..], ContextAt(req, w, j), w).trace
  {
    var c := Cloned(req, w);
    var clone := [Event(Cloning, GitClone(req.endpoint, w.repoPath))];
    FirstFailureAtLeast(req, w, j);
    ChainSplitsAt(req, w, j);
    RunAfterClone(req, w);
    assert Run(req, w).trace == (clone + Chain(Pipeline[..j], c, w).trace) + Chain(Pipeline[j..], ContextAt(req, w, j), w).trace;
  }

  /** Every effect of stage `Pipeline[j]` appears in the run when everything before it resolved. */
  lemma RunReaches(req: Request, w: World, j: nat)
    requires Succeeds(Cloning, req, w)
    requires j < |Pipeline|
    requires forall i | 0 <= i < j :: Succeeds(Pipeline[i], req, w)
    ensures forall e | e in Step(Pipeline[j], ContextAt(req, w, j), w).effects ::
      Event(Pipeline[j], e) in Run(req, w).trace
  {
    var cj := ContextAt(req, w, j);
    var rest := Pipeline[j..];
    var t := Chain(rest, cj, w).trace;
    var effects := Step(rest[0], cj, w).effects;
    assert rest[0] == Pipeline[j];
    RunSuffix(req, w, j);
    var pre :| Run(req, w).trace == pre + t;
    ChainHead(rest, cj, w);
    forall e | e in effects ensures Event(rest[0], e) in Run(req, w).trace {
      var n :| 0 <= n < |effects| && effects[n] == e;
      assert t[n] == Event(rest[0], e);
      assert (pre + t)[|pre| + n] == t[n];
    }
  }

  /** A HEAD that is not exactly the start commit ends the run at validation, before any response or spawn. */
  lemma MismatchStopsAtValidation(req: Request, w: World)
    requires Succeeds(Cloning, req, w) && !HeadIsStart(w.startHead, req.startCommit)
    ensures Run(req, w) ==
      RunResult([Event(Cloning, GitClone(req.endpoint, w.repoPath)), Event(Validating, ReadHead)],
                Err(JobError(Validating, if w.startHead.Ok? then CommitMismatch else GitError(w.startHead.error))))
  {
    RunAfterClone(req, w);
  }

  /**
   * The 201 "Starting process" answer is sent exactly when the clone and the
   * validation succeeded, and always before the script is spawned.
   */
  lemma AcknowledgedOnlyAfterValidation(req: Request, w: World)
    ensures Responded(Run(req, w).trace) <==> Succeeds(Cloning, req, w) && Succeeds(Validating, req, w)
    ensures var t := Run(req, w).trace;
      forall i, j | 0 <= i < |t| && 0 <= j < |t| && t[i].effect.Respond? && t[j].effect.Spawn? :: i < j
  {
    if Succeeds(Cloning, req, w) && Succeeds(Validating, req, w) {
      RespondedWhenValidated(req, w);
    }
    if Responded(Run(req, w).trace) {
      ValidatedWhenResponded(req, w);
    }
    RespondsBeforeSpawn(req, w);
  }

  lemma RespondedWhenValidated(req: Request, w: World)
    requires Succeeds(Cloning, req, w) && Succeeds(Validating, req, w)
    ensures Responded(Run(req, w).trace)
  {
    var effects := Step(Acknowledging, ContextAt(req, w, 1), w).effects;
    assert effects == [Respond(201, StartingBody)];
    PipelinePrefixes(req, w);
    RunReaches(req, w, 1);
    var t := Run(req, w).trace;
    assert Event(Acknowledging, Respond(201, StartingBody)) in t;
  }

  lemma ValidatedWhenResponded(req: Request, w: World)
    requires Responded(Run(req, w).trace)
    ensures Succeeds(Cloning, req, w) && Succeeds(Validating, req, w)
  {
    var t := Run(req, w).trace;
    var r := Run(req, w);
    RunStopsAtFirstFailure(req, w);
    var i :| 0 <= i < |t| && t[i].effect.Respond?;
    assert t[i].stage == Acknowledging;
    if !Succeeds(Cloning, req, w) {
      RunCloneFails(req, w);
    }
    if r.result.Err? {
      assert Rank(r.result.error.stage) >= Rank(Acknowledging);
    } else {
      assert AllSucceed(req, w);
    }
  }

  lemma RespondsBeforeSpawn(req: Request, w: World)
    ensures var t := Run(req, w).trace;
      forall i, j | 0 <= i < |t| && 0 <= j < |t| && t[i].effect.Respond? && t[j].effect.Spawn? :: i < j
  {
    var t := Run(req, w).trace;
    RunStopsAtFirstFailure(req, w);
    RunOrdered(req, w);
    forall i, j | 0 <= i < |t| && 0 <= j < |t| && t[i].effect.Respond? && t[j].effect.Spawn?
      ensures i < j
    {
      assert t[i].stage == Acknowledging && t[j].stage == Starting;
    }
  }

  /**
   * The script is spawned exactly when the clone and the validation succeeded
   * and the listing holds an entry point; in particular never on a HEAD
   * mismatch and never without a `main*` entry.
   */
  lemma SpawnsOnlyAfterValidation(req: Request, w: World)
    ensures Spawned(Run(req, w).trace) <==>
      Succeeds(Cloning, req, w) && Succeeds(Validating, req, w) && HasEntryPoint(w.listing)
    ensures var t := Run(req, w).trace;
      forall i, j | 0 <= i < j < |t| :: !(t[i].effect.Spawn? && t[j].effect.Spawn?)
  {
    AtMostOnce(req, w, ScriptRun);
    if Succeeds(Cloning, req, w) && Succeeds(Validating, req, w) && HasEntryPoint(w.listing) {
      SpawnedWhenReady(req, w);
    }
    if Spawned(Run(req, w).trace) {
      ReadyWhenSpawned(req, w);
    }
  }

  /** A job spawns its script at most once and posts at most one report. */
  lemma RunCount(req: Request, w: World, k: Kind)
    ensures Count(Run(req, w).trace, k) <= 1
  {
    if Succeeds(Cloning, req, w) {
      var c := Cloned(req, w);
      var clone := [Event(Cloning, GitClone(req.endpoint, w.repoPath))];
      RunAfterClone(req, w);
      CountAppend(clone, Chain(Pipeline, c, w).trace, k);
      CountNone(clone, k);
      ChainCount(Pipeline, c, w, k);
      PipelineOwners(k);
    } else {
      RunCloneFails(req, w);
      CountNone(Run(req, w).trace, k);
    }
  }

  /** `start` and `notifyServer` each appear once in the chain. */
  lemma PipelineOwners(k: Kind)
    ensures multiset(Pipeline)[Owner(k)] == 1
  {
    assert multiset(Pipeline) ==
      multiset{Validating, Acknowledging, Starting, Adding, Committing, Pushing, Notifying};
  }

  /** No two events of a run are both spawns, or both posted reports. */
  lemma AtMostOnce(req: Request, w: World, k: Kind)
    ensures var t := Run(req, w).trace;
      forall i, j | 0 <= i < j < |t| :: !(OfKind(t[i], k) && OfKind(t[j], k))
  {
    var t := Run(req, w).trace;
    RunCount(req, w, k);
    forall i, j | 0 <= i < j < |t| ensures !(OfKind(t[i], k) && OfKind(t[j], k)) {
      if OfKind(t[i], k) && OfKind(t[j], k) {
        CountTwo(t, k, i, j);
      }
    }
  }

  /** Which stages precede the ones the properties below look at. */
  lemma PipelinePrefixes(req: Request, w: World)
    ensures Pipeline[1] == Acknowledging && Pipeline[2] == Starting && Pipeline[6] == Notifying
    ensures Succeeds(Validating, req, w) ==> forall i | 0 <= i < 2 :: Succeeds(Pipeline[i], req, w)
    ensures (forall s: Chained | Rank(s) <= Rank(Pushing) :: Succeeds(s, req, w)) ==>
      forall i | 0 <= i < 6 :: Succeeds(Pipeline[i], req, w)
  {
  }

  lemma SpawnedWhenReady(req: Request, w: World)
    requires Succeeds(Cloning, req, w) && Succeeds(Validating, req, w) && HasEntryPoint(w.listing)
    ensures Spawned(Run(req, w).trace)
  {
    var c2 := ContextAt(req, w, 2);
    var effects := Step(Starting, c2, w).effects;
    assert effects[2].Spawn? && effects[2] in effects by {
      assert Step(Starting, c2, w) == Start(c2, w);
    }
    PipelinePrefixes(req, w);
    RunReaches(req, w, 2);
  }

  lemma ReadyWhenSpawned(req: Request, w: World)
    requires Spawned(Run(req, w).trace)
    ensures Succeeds(Cloning, req, w) && Succeeds(Validating, req, w) && HasEntryPoint(w.listing)
  {
    var t := Run(req, w).trace;
    var r := Run(req, w);
    RunStopsAtFirstFailure(req, w);
    var i :| 0 <= i < |t| && t[i].effect.Spawn?;
    assert t[i].stage == Starting;
    if !Succeeds(Cloning, req, w) {
      RunCloneFails(req, w);
    }
    if r.result.Err? {
      assert Rank(r.result.error.stage) >= Rank(Starting);
      assert r.result.error.stage != Starting;
    } else {
      assert AllSucceed(req, w);
    }
    assert Succeeds(Validating, req, w) && Succeeds(Starting, req, w);
  }

  /** The report posted after a successful push. */
  function ExpectedReport(req: Request, w: World): Report
    requires w.finalHead.Ok?
  {
    Report(req.instanceId, w.finalHead.value, req.endpoint, w.exit)
  }

  /**
   * The completion report is posted exactly when clone, validation, start,
   * add, commit and push all succeeded and HEAD could be read afterwards; it
   * goes to `finalEndpoint` and carries the request's `instanceId` and
   * `endpoint`, the HEAD read after the push, and the recorded close code.
   */
  lemma NotifiesOnlyAfterPush(req: Request, w: World)
    ensures Posted(Run(req, w).trace) <==>
      (forall s | Rank(s) <= Rank(Pushing) :: Succeeds(s, req, w)) && w.finalHead.Ok?
    ensures var t := Run(req, w).trace;
      forall i | 0 <= i < |t| && t[i].effect.Post? ::
        w.finalHead.Ok? && t[i].effect == Post(req.finalEndpoint, ExpectedReport(req, w))
    ensures var t := Run(req, w).trace;
      forall i, j | 0 <= i < j < |t| :: !(t[i].effect.Post? && t[j].effect.Post?)
  {
    AtMostOnce(req, w, ReportPost);
    var t := Run(req, w).trace;
    if (forall s | Rank(s) <= Rank(Pushing) :: Succeeds(s, req, w)) && w.finalHead.Ok? {
      NotifySegment(req, w);
    }
    forall i | 0 <= i < |t| && t[i].effect.Post?
      ensures (forall s | Rank(s) <= Rank(Pushing) :: Succeeds(s, req, w))
      ensures w.finalHead.Ok? && t[i].effect == Post(req.finalEndpoint, ExpectedReport(req, w))
    {
      PushedWhenPosted(req, w, i);
      NotifySegment(req, w);
    }
  }

  /** A posted report means every stage up to the push succeeded. */
  lemma PushedWhenPosted(req: Request, w: World, i: nat)
    requires i < |Run(req, w).trace| && Run(req, w).trace[i].effect.Post?
    ensures forall s | Rank(s) <= Rank(Pushing) :: Succeeds(s, req, w)
    ensures Run(req, w).trace[i].stage == Notifying
  {
    var t := Run(req, w).trace;
    var r := Run(req, w);
    RunStopsAtFirstFailure(req, w);
    assert t[i].stage == Notifying;
    if !Succeeds(Cloning, req, w) {
      RunCloneFails(req, w);
    }
    if r.result.Err? {
      assert Rank(r.result.error.stage) >= Rank(Notifying);
    } else {
      assert AllSucceed(req, w);
    }
  }

  /**
   * When every stage up to the push succeeded, the run ends with the notify
   * stage's events: HEAD is read and, if that worked, the report is posted;
   * no other stage contributes a notify event.
   */
  lemma NotifySegment(req: Request, w: World)
    requires forall s | Rank(s) <= Rank(Pushing) :: Succeeds(s, req, w)
    ensures w.finalHead.Ok? ==>
      Event(Notifying, Post(req.finalEndpoint, ExpectedReport(req, w))) in Run(req, w).trace
    ensures var t := Run(req, w).trace;
      forall i | 0 <= i < |t| && t[i].stage == Notifying ::
        t[i].effect == ReadHead ||
        (w.finalHead.Ok? && t[i].effect == Post(req.finalEndpoint, ExpectedReport(req, w)))
  {
    var events := NotifyEvents(req, w);
    var t := Run(req, w).trace;
    var pre := RunBeforeNotify(req, w);
    forall i | 0 <= i < |t| && t[i].stage == Notifying
      ensures t[i] in events
    {
      assert i >= |pre|;
      assert t[i] == events[i - |pre|];
    }
    if w.finalHead.Ok? {
      assert events[1] == Event(Notifying, Post(req.finalEndpoint, ExpectedReport(req, w)));
      assert t[|pre| + 1] == events[1];
    }
  }

  /** The events of the notify stage, run on the context the push hands on. */
  function NotifyEvents(req: Request, w: World): (events: seq<Event>)
    ensures w.finalHead.Err? ==> events == [Event(Notifying, ReadHead)]
    ensures w.finalHead.Ok? ==>
      events == [Event(Notifying, ReadHead), Event(Notifying, Post(req.finalEndpoint, ExpectedReport(req, w)))]
  {
    Tag(Notifying, NotifyServer(ContextAt(req, w, 6), w).effects)
  }

  /**
   * The trace up to the push, when all of those stages succeed: the run's
   * trace is it followed by the notify events, and it holds no notify event.
   */
  lemma RunBeforeNotify(req: Request, w: World) returns (pre: seq<Event>)
    requires forall s | Rank(s) <= Rank(Pushing) :: Succeeds(s, req, w)
    ensures Run(req, w).trace == pre + NotifyEvents(req, w)
    ensures forall i | 0 <= i < |pre| :: pre[i].stage != Notifying
  {
    var c := Cloned(req, w);
    var mid := Chain(Pipeline[..6], c, w).trace;
    pre := [Event(Cloning, GitClone(req.endpoint, w.repoPath))] + mid;
    assert Run(req, w).trace == pre + Chain(Pipeline, c, w).trace[|mid|..] by {
      RunAfterClone(req, w);
      ChainSplitAtNotify(req, w);
    }
    ChainSplitAtNotify(req, w);
    assert forall e | e in mid :: e.stage != Notifying by {
      ChainEventsBelong(Pipeline[..6], c, w);
      assert Notifying !in Pipeline[..6];
    }
  }

  /** The chain after the clone splits into the stages up to the push and the notify stage. */
  lemma ChainSplitAtNotify(req: Request, w: World)
    requires forall s | Rank(s) <= Rank(Pushing) :: Succeeds(s, req, w)
    ensures var c := Cloned(req, w);
      Chain(Pipeline, c, w).trace == Chain(Pipeline[..6], c, w).trace + NotifyEvents(req, w)
  {
    assert forall i | 0 <= i < 6 :: Succeeds(Pipeline[i], req, w) by {
      PipelinePrefixes(req, w);
    }
    assert Pipeline[6..] == [Notifying];
    FirstFailureAtLeast(req, w, 6);
    assert Chain(Pipeline[6..], ContextAt(req, w, 6), w).trace == NotifyEvents(req, w);
    ChainSplitsAt(req, w, 6);
  }

  /**
   * The script's exit code never aborts the run: with any other close code
   * (zero, non-zero or null) the same stages run, perform the same effects
   * apart from the code in the report, and end the same way; a run that
   * resolves carries the code it was given.
   */
  lemma RunIgnoresExitCode(req: Request, w: World, x: Option<int>)
    ensures var r1, r2 := Run(req, w), Run(req, w.(exit := x));
      |r1.trace| == |r2.trace| &&
      (forall i | 0 <= i < |r1.trace| :: WithoutCode(r1.trace[i]) == WithoutCode(r2.trace[i])) &&
      r1.result.Ok? == r2.result.Ok? &&
      (r1.result.Err? ==> r1.result.error == r2.result.error) &&
      (r2.result.Ok? ==> r2.result.value.code == x)
  {
    var w2 := w.(exit := x);
    if Succeeds(Cloning, req, w) {
      var c := Cloned(req, w);
      assert Cloned(req, w2) == c;
      RunAfterClone(req, w);
      RunAfterClone(req, w2);
      var t1, t2 := Chain(Pipeline, c, w).trace, Chain(Pipeline, c, w2).trace;
      ChainIgnoresExitCode(Pipeline, c, c, w, x);
      var head := [Event(Cloning, GitClone(req.endpoint, w.repoPath))];
      forall i | 0 <= i < 1 + |t1| ensures WithoutCode((head + t1)[i]) == WithoutCode((head + t2)[i]) {
        if i > 0 {
          assert (head + t1)[i] == t1[i - 1] && (head + t2)[i] == t2[i - 1];
        }
      }
      RunStopsAtFirstFailure(req, w2);
    }
  }

  /** A job whose HEAD is its start commit and whose `scripts/` holds `main.py`. */
  const DemoRequest := Request("i-1", "https://git.example/job.git", "abc123", "https://server.example/api/end")
  const DemoFiles: seq<string> := ["data.csv", "main.py"]
  /** Its script exits with code 0 and the server accepts the report. */
  const DemoWorld := World("/home/ec2/repo", None, Ok("abc123"), Ok(DemoFiles), Some(0),
                           None, None, None, Ok("def456"), Ok(201), "Mon Oct 19 2026")

  lemma DemoEntryPoint()
    ensures forall k | FirstMainAt(DemoFiles, k) :: k == 1
    ensures HasEntryPoint(DemoWorld.listing)
  {
    assert DemoFiles[0][..4] == "data";
    assert !IsMainName(DemoFiles[0]) by {
      assert DemoFiles[0][0] != "main"[0];
    }
    assert IsMainName(DemoFiles[1]) by {
      assert DemoFiles[1][..4] == "main";
    }
  }

  lemma DemoSucceeds()
    ensures AllSucceed(DemoRequest, DemoWorld)
  {
    DemoEntryPoint();
    forall s ensures Succeeds(s, DemoRequest, DemoWorld) {
    }
  }

  lemma DemoSpawn()
    ensures Step(Starting, ContextAt(DemoRequest, DemoWorld, 2), DemoWorld).effects[2] ==
      Spawn("python", ["/home/ec2/repo/scripts/main.py"], "/home/ec2/repo/scripts")
  {
    var c := ContextAt(DemoRequest, DemoWorld, 2);
    assert Step(Starting, c, DemoWorld) == Start(c, DemoWorld);
    DemoStart();
    DemoScript();
  }

  lemma DemoStart()
    ensures var c := ContextAt(DemoRequest, DemoWorld, 2);
      var main := Join(ScriptsDir(c.repo), DemoFiles[1]);
      var r := Start(c, DemoWorld);
      |r.effects| == 5 && r.effects[2] == Spawn(InferCmd(DemoFiles[1]), [main], Dirname(main))
  {
    DemoEntryPoint();
    var c := ContextAt(DemoRequest, DemoWorld, 2);
    var r := Start(c, DemoWorld);
    assert r.next.Ok?;
    var scripts := ScriptsDir(c.repo);
    var k :| FirstMainAt(DemoFiles, k) &&
      r.effects[2] == Spawn(InferCmd(DemoFiles[k]), [Join(scripts, DemoFiles[k])], Dirname(Join(scripts, DemoFiles[k])));
    assert k == 1;
  }

  lemma DemoScript()
    ensures ScriptsDir(Repo("/home/ec2/repo")) == "/home/ec2/repo/scripts"
    ensures Join("/home/ec2/repo/scripts", DemoFiles[1]) == "/home/ec2/repo/scripts/main.py"
    ensures InferCmd(DemoFiles[1]) == "python"
    ensures Dirname("/home/ec2/repo/scripts/main.py") == "/home/ec2/repo/scripts"
  {
    assert DemoFiles[1] == "main.py";
    assert InferCmd("main.py") == "python" by {
      assert EndsWith("main.py", "py");
    }
    DirnameOfJoin("/home/ec2/repo/scripts", "main.py");
  }

  /**
   * The end-to-end scenario: the run resolves with close code 0, spawns
   * `python` on the script inside `scripts/`, and posts the new HEAD.
   */
  lemma HappyPathScenario()
    ensures var r := Run(DemoRequest, DemoWorld);
      r.result.Ok? && r.result.value.code == Some(0) &&
      Event(Starting, Spawn("python", ["/home/ec2/repo/scripts/main.py"], "/home/ec2/repo/scripts")) in r.trace &&
      Event(Notifying, Post("https://server.example/api/end",
                            Report("i-1", "def456", "https://git.example/job.git", Some(0)))) in r.trace
  {
    var req, w := DemoRequest, DemoWorld;
    DemoSucceeds();
    RunStopsAtFirstFailure(req, w);
    DemoSpawn();
    PipelinePrefixes(req, w);
    RunReaches(req, w, 2);
    NotifySegment(req, w);
  }
}
