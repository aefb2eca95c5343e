/**
 * The job pipeline of lib/run.js as values: the request body, the context
 * object `obj` threaded through the promise chain, the side effects each
 * stage performs, and the generic "run the next stage or skip to the catch"
 * combinator that `.then(...).catch(...)` implements.
 *
 * Everything the stages learn from git, the file system, the child process,
 * the HTTP peer and the clock is an input (`World`).
 */
module Stages {
  import opened Wrappers
  import opened Scripts

  /** `req.body`: `{ instanceId, endpoint, startCommit, finalEndpoint }`. */
  datatype Request = Request(instanceId: string, endpoint: string, startCommit: string, finalEndpoint: string)

  /** The working copy `git.clone` returns; only its path is used. */
  datatype Repo = Repo(path: string)

  /**
   * The context `obj = { repo, req, code }`. `code` is `None` until `start`
   * records the close code, and also when that code is JavaScript `null`
   * (the child was ended by a signal).
   */
  datatype Ctx = Ctx(req: Request, repo: Repo, code: Option<int>)

  /** What each external call answers during one run of the handler. */
  datatype World = World(
    repoPath: string,                      // config.ec2RepoPath, the clone target
    clone: Option<string>,                 // error passed to git.clone's callback, if any
    startHead: Result<string, string>,     // current_commit in validateRepo: commit id or error
    listing: Result<seq<string>, string>,  // fs.readdirSync(scripts), or the error it throws
    exit: Option<int>,                     // code passed to the child's 'close' handler (None: null)
    add: Option<string>,                   // error of repo.add('output'), if any
    commit: Option<string>,                // error of repo.commit(msg), if any
    push: Option<string>,                  // error of repo.remote_push('origin', 'master'), if any
    finalHead: Result<string, string>,     // current_commit in notifyServer: commit id or error
    response: Result<int, string>,         // status code of the POST, or the transport error
    date: string                           // String(new Date()) when the commit is made
  )

  /** The stages of the promise chain, in the order lib/run.js:25-35 chains them. */
  datatype Stage = Cloning | Validating | Acknowledging | Starting | Adding | Committing | Pushing | Notifying

  function Rank(s: Stage): nat {
    match s
    case Cloning => 0
    case Validating => 1
    case Acknowledging => 2
    case Starting => 3
    case Adding => 4
    case Committing => 5
    case Pushing => 6
    case Notifying => 7
  }

  /** A stage that runs on an existing context: every stage but the clone, which creates it. */
  type Chained = s: Stage | s != Cloning witness Validating

  /** The stages after the clone, as chained with `.then`. */
  const Pipeline: seq<Chained> := [Validating, Acknowledging, Starting, Adding, Committing, Pushing, Notifying]

  /** The JSON body POSTed to `finalEndpoint`. */
  datatype Report = Report(instanceId: string, completeCommit: string, endpoint: string, code: Option<int>)

  /** The side effects the handler performs (console output is not modelled). */
  datatype Effect =
    | GitClone(endpoint: string, path: string)
    | ReadHead
    | Respond(status: int, body: string)
    | OpenOutput(file: string)
    | Spawn(cmd: string, args: seq<string>, cwd: string)
    | EndOutput(file: string)              // `stream.end()`: asks for the file to be flushed and closed, without waiting
    | GitAdd(path: string)
    | GitCommit(message: string)
    | GitPush(remote: string, branch: string)
    | Post(url: string, report: Report)

  /** An effect together with the stage that performed it. */
  datatype Event = Event(stage: Stage, effect: Effect)

  /** Why a stage rejected. */
  datatype Cause =
    | GitError(err: string)          // a gift callback's err
    | CommitMismatch                 // "Current commit is different than startCommit"
    | ListingError(err: string)      // readdirSync threw
    | MissingEntryPoint              // path.join(scripts, undefined) threw
    | TransportError(err: string)    // request's err
    | BadStatus(status: int)         // "Bad request": a status other than 201

  /** The error the catch at lib/run.js:36-38 receives. */
  datatype JobError = JobError(stage: Stage, cause: Cause)

  datatype StepResult = StepResult(effects: seq<Effect>, next: Result<Ctx, JobError>)

  datatype RunResult = RunResult(trace: seq<Event>, result: Result<Ctx, JobError>)

  const StartingBody := "Starting process"
  const MismatchMessage := "Current commit is different than startCommit"
  const CommitPrefix := "Azix process finished "

  /** The text the catch logs for an error. */
  function Message(c: Cause): string {
    match c
    case GitError(e) => e
    case CommitMismatch => MismatchMessage
    case ListingError(e) => e
    case MissingEntryPoint => "Arguments to path.join must be strings"
    case TransportError(e) => e
    case BadStatus(_) => "Bad request"
  }

  /** The commit message of lib/run.js:126, with the date given as text. */
  function CommitMessage(date: string, startCommit: string): string {
    CommitPrefix + date + " - " + startCommit
  }

  /** The commit records where it came from: the message names the start commit last. */
  lemma CommitMessageProvenance(date: string, startCommit: string)
    ensures StartsWith(CommitMessage(date, startCommit), CommitPrefix)
    ensures EndsWith(CommitMessage(date, startCommit), " - " + startCommit)
  {
    var m := CommitMessage(date, startCommit);
    assert m == (CommitPrefix + date) + (" - " + startCommit);
    assert m[..|CommitPrefix|] == CommitPrefix;
  }

  function ScriptsDir(repo: Repo): string { Join(repo.path, "scripts") }
  function OutputFile(repo: Repo): string { Join(Join(repo.path, "output"), "output.txt") }
  function ErrFile(repo: Repo): string { Join(Join(repo.path, "output"), "err.txt") }

  /** The validation predicate of lib/run.js:56-64. */
  predicate HeadIsStart(head: Result<string, string>, startCommit: string) {
    head.Ok? && head.value == startCommit
  }

  /** The success condition of lib/run.js:151-171. */
  predicate Acknowledged(finalHead: Result<string, string>, response: Result<int, string>) {
    finalHead.Ok? && response == Ok(201)
  }

  /** A listing with an entry-point name in it. */
  predicate HasEntryPoint(listing: Result<seq<string>, string>) {
    listing.Ok? && exists i | 0 <= i < |listing.value| :: IsMainName(listing.value[i])
  }

  /** Whether stage `s` resolves, given the request and what the world answers. */
  predicate Succeeds(s: Stage, req: Request, w: World) {
    match s
    case Cloning => w.clone.None?
    case Validating => HeadIsStart(w.startHead, req.startCommit)
    case Acknowledging => true
    case Starting => HasEntryPoint(w.listing)
    case Adding => w.add.None?
    case Committing => w.commit.None?
    case Pushing => w.push.None?
    case Notifying => Acknowledged(w.finalHead, w.response)
  }

  /** Which effects stage `s` may perform. */
  predicate Performs(s: Stage, e: Effect) {
    match s
    case Cloning => e.GitClone?
    case Validating => e.ReadHead?
    case Acknowledging => e.Respond?
    case Starting => e.OpenOutput? || e.Spawn? || e.EndOutput?
    case Adding => e.GitAdd?
    case Committing => e.GitCommit?
    case Pushing => e.GitPush?
    case Notifying => e.ReadHead? || e.Post?
  }

  /** `git.clone(obj.endpoint, config.ec2RepoPath, ...)` and the fresh context it resolves with. */
  function CloneEndpoint(req: Request, w: World): (r: StepResult)
    ensures r.effects == [GitClone(req.endpoint, w.repoPath)]
    ensures r.next.Ok? <==> Succeeds(Cloning, req, w)
    ensures r.next.Ok? ==> r.next.value == Ctx(req, Repo(w.repoPath), None)
    ensures r.next.Err? ==> r.next.error == JobError(Cloning, GitError(w.clone.value))
  {
    var effects := [GitClone(req.endpoint, w.repoPath)];
    match w.clone
    case Some(err) => StepResult(effects, Err(JobError(Cloning, GitError(err))))
    case None => StepResult(effects, Ok(Ctx(req, Repo(w.repoPath), None)))
  }

  /** `validateRepo`: HEAD must be exactly the requested start commit. */
  function ValidateRepo(c: Ctx, w: World): (r: StepResult)
    ensures r.effects == [ReadHead]
    ensures r.next.Ok? <==> HeadIsStart(w.startHead, c.req.startCommit)
    ensures r.next.Ok? ==> r.next.value == c
    ensures r.next.Err? && w.startHead.Ok? ==> r.next.error == JobError(Validating, CommitMismatch)
    ensures r.next.Err? && w.startHead.Err? ==> r.next.error == JobError(Validating, GitError(w.startHead.error))
  {
    var effects := [ReadHead];
    match w.startHead
    case Err(err) => StepResult(effects, Err(JobError(Validating, GitError(err))))
    case Ok(id) =>
      if id != c.req.startCommit then StepResult(effects, Err(JobError(Validating, CommitMismatch)))
      else StepResult(effects, Ok(c))
  }

  /** The anonymous stage that answers the inbound request with 201. */
  function Acknowledge(c: Ctx): StepResult {
    StepResult([Respond(201, StartingBody)], Ok(c))
  }

  /**
   * `start`: find the entry script, open both output files, spawn the
   * interpreter in the script's directory, and on 'close' end both files and
   * record the code, whatever it is. Output copying is not modelled.
   */
  function Start(c: Ctx, w: World): (r: StepResult)
    ensures r.next.Ok? <==> HasEntryPoint(w.listing)
    ensures r.next.Ok? ==> r.next.value == c.(code := w.exit)
    ensures r.next.Err? ==> r.effects == [] && r.next.error.stage == Starting
    ensures forall e | e in r.effects :: e.OpenOutput? || e.Spawn? || e.EndOutput?
    ensures r.next.Ok? ==> |r.effects| == 5 && r.effects[2].Spawn?
    ensures w.listing.Err? ==> r.next == Err(JobError(Starting, ListingError(w.listing.error)))
    ensures w.listing.Ok? && r.next.Err? ==> r.next.error.cause == MissingEntryPoint
    ensures r.next.Ok? ==>
      exists k :: FirstMainAt(w.listing.value, k) &&
        var main := Join(ScriptsDir(c.repo), w.listing.value[k]);
        r.effects == [OpenOutput(OutputFile(c.repo)), OpenOutput(ErrFile(c.repo)),
                      Spawn(InferCmd(w.listing.value[k]), [main], Dirname(main)),
                      EndOutput(ErrFile(c.repo)), EndOutput(OutputFile(c.repo))]
  {
    var scripts := ScriptsDir(c.repo);
    match w.listing
    case Err(err) => StepResult([], Err(JobError(Starting, ListingError(err))))
    case Ok(files) =>
      match FindMain(scripts, files)
      case None => StepResult([], Err(JobError(Starting, MissingEntryPoint)))
      case Some(main) =>
        var out, err := OutputFile(c.repo), ErrFile(c.repo);
        assert exists k :: FirstMainAt(files, k) && main == Join(scripts, files[k]) && InferCmd(main) == InferCmd(files[k]) by {
          var k :| FirstMainAt(files, k) && main == Join(scripts, files[k]);
          InferCmdOfJoin(scripts, files[k]);
        }
        StepResult(
          [OpenOutput(out), OpenOutput(err), Spawn(InferCmd(main), [main], Dirname(main)),
           EndOutput(err), EndOutput(out)],
          Ok(c.(code := w.exit)))
  }

  /** `start` with the first entry script `main`: the five effects, in order, and the code recorded. */
  lemma StartResolves(c: Ctx, w: World, k: nat, main: string)
    requires w.listing.Ok? && FirstMainAt(w.listing.value, k)
    requires main == Join(ScriptsDir(c.repo), w.listing.value[k])
    ensures var out, err := OutputFile(c.repo), ErrFile(c.repo);
      Start(c, w) ==
        StepResult([OpenOutput(out), OpenOutput(err), Spawn(InferCmd(main), [main], Dirname(main)),
                    EndOutput(err), EndOutput(out)],
                   Ok(c.(code := w.exit)))
  {
    FindMainAt(ScriptsDir(c.repo), w.listing.value, k);
  }

  /** Tagging five effects gives five events, in the same order. */
  lemma TagFive(s: Stage, effects: seq<Effect>)
    requires |effects| == 5
    ensures Tag(s, effects) ==
      [Event(s, effects[0]), Event(s, effects[1]), Event(s, effects[2]), Event(s, effects[3]), Event(s, effects[4])]
  {
  }

  /** `addOutput`, `commit` and `push`: one git call each, rejecting with its error. */
  function GitStep(s: Chained, effect: Effect, outcome: Option<string>, c: Ctx): (r: StepResult)
    ensures r.effects == [effect]
    ensures r.next == if outcome.None? then Ok(c) else Err(JobError(s, GitError(outcome.value)))
  {
    match outcome
    case Some(err) => StepResult([effect], Err(JobError(s, GitError(err))))
    case None => StepResult([effect], Ok(c))
  }

  /** The report of lib/run.js:155-160. */
  function Payload(c: Ctx, completeCommit: string): Report {
    Report(c.req.instanceId, completeCommit, c.req.endpoint, c.code)
  }

  /** `notifyServer`: read HEAD, POST the report, require status 201. */
  function NotifyServer(c: Ctx, w: World): (r: StepResult)
    ensures r.next.Ok? <==> Acknowledged(w.finalHead, w.response)
    ensures r.next.Ok? ==> r.next.value == c
    ensures r.next.Err? ==> r.next.error.stage == Notifying
    ensures w.finalHead.Err? ==> r.effects == [ReadHead] && r.next == Err(JobError(Notifying, GitError(w.finalHead.error)))
    ensures w.finalHead.Ok? ==>
      r.effects == [ReadHead, Post(c.req.finalEndpoint,
                                   Report(c.req.instanceId, w.finalHead.value, c.req.endpoint, c.code))]
    ensures w.finalHead.Ok? && r.next.Err? ==>
      Message(r.next.error.cause) == if w.response.Err? then w.response.error else "Bad request"
  {
    match w.finalHead
    case Err(err) => StepResult([ReadHead], Err(JobError(Notifying, GitError(err))))
    case Ok(id) =>
      var effects := [ReadHead, Post(c.req.finalEndpoint, Payload(c, id))];
      match w.response
      case Err(err) => StepResult(effects, Err(JobError(Notifying, TransportError(err))))
      case Ok(status) =>
        if status != 201 then StepResult(effects, Err(JobError(Notifying, BadStatus(status))))
        else StepResult(effects, Ok(c))
  }

  /**
   * One stage after the clone. A stage resolves exactly when `Succeeds`
   * says so, rejects with an error naming itself, performs only its own
   * kind of effect, and passes the context on unchanged except that `start`
   * records the close code.
   */
  function Step(s: Chained, c: Ctx, w: World): (r: StepResult)
    ensures r.next.Ok? <==> Succeeds(s, c.req, w)
    ensures r.next.Ok? ==> r.next.value == if s == Starting then c.(code := w.exit) else c
    ensures r.next.Err? ==> r.next.error.stage == s
    ensures forall e | e in r.effects :: Performs(s, e)
    ensures r.effects == [] <==> s == Starting && !Succeeds(s, c.req, w)
  {
    match s
    case Validating => ValidateRepo(c, w)
    case Acknowledging => Acknowledge(c)
    case Starting => Start(c, w)
    case Adding => GitStep(Adding, GitAdd("output"), w.add, c)
    case Committing => GitStep(Committing, GitCommit(CommitMessage(w.date, c.req.startCommit)), w.commit, c)
    case Pushing => GitStep(Pushing, GitPush("origin", "master"), w.push, c)
    case Notifying => NotifyServer(c, w)
  }

  function Tag(s: Stage, effects: seq<Effect>): (t: seq<Event>)
    ensures |t| == |effects|
    ensures forall i | 0 <= i < |t| :: t[i] == Event(s, effects[i])
  {
    if effects == [] then [] else [Event(s, effects[0])] + Tag(s, effects[1..])
  }

  /**
   * `.then(ss[0]).then(ss[1])...`: run each stage on the context the
   * previous one resolved with; the first rejection skips the rest.
   */
  function Chain(ss: seq<Chained>, c: Ctx, w: World): RunResult
  {
    if ss == [] then RunResult([], Ok(c))
    else
      var step := Step(ss[0], c, w);
      var events := Tag(ss[0], step.effects);
      match step.next
      case Err(e) => RunResult(events, Err(e))
      case Ok(c') =>
        var rest := Chain(ss[1..], c', w);
        RunResult(events + rest.trace, rest.result)
  }

  /** The position of the first stage of `ss` that rejects, or `|ss|` when all resolve. */
  function FirstFailure(ss: seq<Chained>, req: Request, w: World): (k: nat)
    ensures k <= |ss|
    ensures forall j | 0 <= j < k :: Succeeds(ss[j], req, w)
    ensures k < |ss| ==> !Succeeds(ss[k], req, w)
  {
    if ss == [] || !Succeeds(ss[0], req, w) then 0 else 1 + FirstFailure(ss[1..], req, w)
  }

  /**
   * The stages of `ss` that can have performed something when the first
   * rejection is at position `k`: those before it, and the rejecting one
   * itself unless it is `start`, which rejects before touching anything.
   */
  function Through(ss: seq<Chained>, k: nat): seq<Stage>
    requires k <= |ss|
  {
    if k < |ss| && ss[k] != Starting then ss[..k + 1] else ss[..k]
  }

  /** Every event was performed by one of `stages` and is of the kind that stage performs. */
  predicate PerformedBy(t: seq<Event>, stages: seq<Stage>) {
    forall i | 0 <= i < |t| :: t[i].stage in stages && Performs(t[i].stage, t[i].effect)
  }

  lemma PerformedByAppend(a: seq<Event>, b: seq<Event>, stages: seq<Stage>)
    requires PerformedBy(a, stages) && PerformedBy(b, stages)
    ensures PerformedBy(a + b, stages)
  {
    forall i | 0 <= i < |a + b| ensures (a + b)[i] in a || (a + b)[i] in b {
      if i >= |a| { assert (a + b)[i] == b[i - |a|]; }
    }
  }

  lemma ThroughGrows(ss: seq<Chained>, k': nat)
    requires ss != [] && k' <= |ss| - 1
    ensures ss[0] in Through(ss, k' + 1)
    ensures forall x | x in Through(ss[1..], k') :: x in Through(ss, k' + 1)
  {
    assert ss[0] == ss[..k' + 1][0];
    assert ss[1..][..k'] == ss[1..k' + 1];
    if k' < |ss[1..]| { assert ss[1..][..k' + 1] == ss[1..k' + 2]; }
  }

  /**
   * The chain stops at its first rejection: it resolves exactly when every
   * stage succeeds, a rejection names the first failing stage, no stage after
   * it performs anything, and the context that comes out is the one that went
   * in, with the close code recorded if `start` ran.
   */
  lemma {:induction false} ChainStopsAtFirstFailure(ss: seq<Chained>, c: Ctx, w: World)
    ensures var r := Chain(ss, c, w); var k := FirstFailure(ss, c.req, w);
      (r.result.Ok? <==> k == |ss|) &&
      (r.result.Ok? ==> r.result.value == if Starting in ss then c.(code := w.exit) else c) &&
      (r.result.Err? ==> k < |ss| && r.result.error.stage == ss[k]) &&
      PerformedBy(r.trace, Through(ss, k))
  {
    if ss != [] {
      var step := Step(ss[0], c, w);
      var events := Tag(ss[0], step.effects);
      if step.next.Ok? {
        var c' := step.next.value;
        var rest := Chain(ss[1..], c', w);
        ChainStopsAtFirstFailure(ss[1..], c', w);
        var k' := FirstFailure(ss[1..], c.req, w);
        assert FirstFailure(ss, c.req, w) == k' + 1;
        assert Starting in ss <==> ss[0] == Starting || Starting in ss[1..];
        ThroughGrows(ss, k');
        assert PerformedBy(events, Through(ss, k' + 1));
        assert PerformedBy(rest.trace, Through(ss, k' + 1));
        PerformedByAppend(events, rest.trace, Through(ss, k' + 1));
        assert Chain(ss, c, w) == RunResult(events + rest.trace, rest.result);
      } else {
        assert FirstFailure(ss, c.req, w) == 0;
        assert ss[0] != Starting ==> ss[0] in Through(ss, 0);
        assert PerformedBy(events, Through(ss, 0));
      }
    }
  }

  /** Every event of a chain belongs to one of its stages and is of that stage's kind. */
  lemma ChainEventsBelong(ss: seq<Chained>, c: Ctx, w: World)
    ensures PerformedBy(Chain(ss, c, w).trace, ss)
  {
    ChainStopsAtFirstFailure(ss, c, w);
    var k := FirstFailure(ss, c.req, w);
    assert forall x | x in Through(ss, k) :: x in ss;
  }

  /** Stages listed in strictly increasing pipeline order. */
  predicate Increasing(ss: seq<Chained>) {
    forall i, j | 0 <= i < j < |ss| :: Rank(ss[i]) < Rank(ss[j])
  }

  /** Events whose stages never go backwards in pipeline order. */
  predicate InOrder(t: seq<Event>) {
    forall i, j | 0 <= i < j < |t| :: Rank(t[i].stage) <= Rank(t[j].stage)
  }

  lemma AppendInOrder(a: seq<Event>, b: seq<Event>)
    requires InOrder(a) && InOrder(b)
    requires forall x, y | x in a && y in b :: Rank(x.stage) <= Rank(y.stage)
    ensures InOrder(a + b)
  {
    var t := a + b;
    forall i, j | 0 <= i < j < |t| ensures Rank(t[i].stage) <= Rank(t[j].stage) {
      if j < |a| {
        assert t[i] == a[i] && t[j] == a[j];
      } else if i < |a| {
        assert t[i] == a[i] && t[j] == b[j - |a|];
      } else {
        assert t[i] == b[i - |a|] && t[j] == b[j - |a|];
      }
    }
  }

  /** When the stages are listed in pipeline order, the events come out in pipeline order. */
  lemma {:induction false} ChainOrdered(ss: seq<Chained>, c: Ctx, w: World)
    requires Increasing(ss)
    ensures InOrder(Chain(ss, c, w).trace)
  {
    if ss != [] {
      var step := Step(ss[0], c, w);
      var events := Tag(ss[0], step.effects);
      assert InOrder(events) by {
        assert forall e | e in events :: e.stage == ss[0];
      }
      if step.next.Ok? {
        var c' := step.next.value;
        var rest := Chain(ss[1..], c', w).trace;
        assert Increasing(ss[1..]);
        ChainOrdered(ss[1..], c', w);
        ChainEventsBelong(ss[1..], c', w);
        assert forall y | y in rest :: y.stage in ss[1..] by {
          forall y | y in rest ensures y.stage in ss[1..] {
            var i :| 0 <= i < |rest| && rest[i] == y;
          }
        }
        assert forall x | x in ss[1..] :: Rank(ss[0]) < Rank(x);
        AppendInOrder(events, rest);
        assert Chain(ss, c, w).trace == events + rest;
      }
    }
  }

  /** Continue a run with the stages `b`, unless it has already rejected. */
  function Then(r: RunResult, b: seq<Chained>, w: World): RunResult
  {
    match r.result
    case Err(_) => r
    case Ok(c) =>
      var rest := Chain(b, c, w);
      RunResult(r.trace + rest.trace, rest.result)
  }

  /** Chaining `a + b` is chaining `a`, then `b` from wherever `a` resolved. */
  lemma {:induction false} ChainThen(a: seq<Chained>, b: seq<Chained>, c: Ctx, w: World)
    ensures Chain(a + b, c, w) == Then(Chain(a, c, w), b, w)
  {
    if a == [] {
      assert a + b == b;
    } else {
      var step := Step(a[0], c, w);
      var events := Tag(a[0], step.effects);
      assert (a + b)[0] == a[0] && (a + b)[1..] == a[1..] + b;
      ChainUnfold(a + b, c, w);
      ChainUnfold(a, c, w);
      if step.next.Ok? {
        ChainThen(a[1..], b, step.next.value, w);
      }
      GlueThen(events, step.next, a[1..], b, w);
    }
  }

  /** What `Chain` does after a first stage that performed `events` and ended in `next`. */
  function Glue(events: seq<Event>, next: Result<Ctx, JobError>, rest: seq<Chained>, w: World): RunResult
  {
    match next
    case Err(e) => RunResult(events, Err(e))
    case Ok(c') =>
      var r := Chain(rest, c', w);
      RunResult(events + r.trace, r.result)
  }

  lemma ChainUnfold(ss: seq<Chained>, c: Ctx, w: World)
    requires ss != []
    ensures var step := Step(ss[0], c, w);
      Chain(ss, c, w) == Glue(Tag(ss[0], step.effects), step.next, ss[1..], w)
  {
  }

  lemma GlueThen(events: seq<Event>, next: Result<Ctx, JobError>, rest: seq<Chained>, b: seq<Chained>, w: World)
    requires next.Ok? ==> Chain(rest + b, next.value, w) == Then(Chain(rest, next.value, w), b, w)
    ensures Glue(events, next, rest + b, w) == Then(Glue(events, next, rest, w), b, w)
  {
    if next.Ok? {
      var r := Chain(rest, next.value, w);
      if r.result.Ok? {
        var rb := Chain(b, r.result.value, w);
        assert events + (r.trace + rb.trace) == (events + r.trace) + rb.trace;
      }
    }
  }

  /**
   * When every stage before position `j` resolves, the chain is the chain of
   * those stages followed by the chain of the rest, started from the context
   * they resolved with.
   */
  lemma ChainAt(ss: seq<Chained>, c: Ctx, w: World, j: nat)
    requires j <= FirstFailure(ss, c.req, w)
    ensures j <= |ss|
    ensures var cj := if Starting in ss[..j] then c.(code := w.exit) else c;
      Chain(ss[..j], c, w).result == Ok(cj) &&
      Chain(ss, c, w).trace == Chain(ss[..j], c, w).trace + Chain(ss[j..], cj, w).trace &&
      Chain(ss, c, w).result == Chain(ss[j..], cj, w).result
  {
    PrefixResolves(ss, c, w, j);
    ChainSplit(ss, c, w, j);
    ThenResolved(Chain(ss[..j], c, w), ss[j..], w);
  }

  /** `ChainThen` at a position of `ss`. */
  lemma ChainSplit(ss: seq<Chained>, c: Ctx, w: World, j: nat)
    requires j <= |ss|
    ensures Chain(ss, c, w) == Then(Chain(ss[..j], c, w), ss[j..], w)
  {
    assert ss[..j] + ss[j..] == ss;
    ChainThen(ss[..j], ss[j..], c, w);
  }

  /** Continuing a resolved chain appends the continuation's events. */
  lemma ThenResolved(r: RunResult, b: seq<Chained>, w: World)
    requires r.result.Ok?
    ensures var rest := Chain(b, r.result.value, w);
      Then(r, b, w) == RunResult(r.trace + rest.trace, rest.result)
  {
  }

  /** The stages before the first rejection resolve, recording the close code if `start` is among them. */
  lemma PrefixResolves(ss: seq<Chained>, c: Ctx, w: World, j: nat)
    requires j <= FirstFailure(ss, c.req, w)
    ensures j <= |ss|
    ensures Chain(ss[..j], c, w).result == Ok(if Starting in ss[..j] then c.(code := w.exit) else c)
  {
    var pre := ss[..j];
    assert FirstFailure(pre, c.req, w) == j by {
      assert forall i | 0 <= i < |pre| :: Succeeds(pre[i], c.req, w);
    }
    ChainStopsAtFirstFailure(pre, c, w);
  }

  /** Running one more stage after a resolved prefix extends the chain by that stage's step. */
  lemma ChainAdvance(ss: seq<Chained>, c: Ctx, w: World, i: nat)
    requires i < |ss| && Chain(ss[..i], c, w).result.Ok?
    ensures var prev := Chain(ss[..i], c, w);
      var step := Step(ss[i], prev.result.value, w);
      Chain(ss[..i + 1], c, w) == RunResult(prev.trace + Tag(ss[i], step.effects), step.next)
  {
    var prev := Chain(ss[..i], c, w);
    var upto := ss[..i + 1];
    assert upto[..i] == ss[..i] && upto[i..] == [ss[i]];
    ChainSplit(upto, c, w, i);
    ThenResolved(prev, [ss[i]], w);
    ChainSingle(ss[i], prev.result.value, w);
  }

  /** A chain of one stage is that stage's step. */
  lemma ChainSingle(s: Chained, c: Ctx, w: World)
    ensures var step := Step(s, c, w);
      Chain([s], c, w) == RunResult(Tag(s, step.effects), step.next)
  {
    ChainUnfold([s], c, w);
    assert [s][1..] == [];
  }

  /** Once a prefix rejects, the whole chain is that prefix. */
  lemma ChainSettled(ss: seq<Chained>, c: Ctx, w: World, i: nat)
    requires i <= |ss| && Chain(ss[..i], c, w).result.Err?
    ensures Chain(ss, c, w) == Chain(ss[..i], c, w)
  {
    ChainSplit(ss, c, w, i);
  }

  /** A chain's trace begins with the events of its first stage. */
  lemma ChainHead(ss: seq<Chained>, c: Ctx, w: World)
    requires ss != []
    ensures var events := Tag(ss[0], Step(ss[0], c, w).effects);
      |events| <= |Chain(ss, c, w).trace| && Chain(ss, c, w).trace[..|events|] == events
  {
  }

  /** An event with the code of a posted report blanked out. */
  function WithoutCode(e: Event): Event {
    match e.effect
    case Post(url, report) => Event(e.stage, Post(url, report.(code := None)))
    case _ => e
  }

  /** A stage does the same thing whatever close code the script exited with. */
  lemma StepIgnoresExitCode(s: Chained, c1: Ctx, c2: Ctx, w: World, x: Option<int>)
    requires c1.req == c2.req && c1.repo == c2.repo
    ensures var r1, r2 := Step(s, c1, w), Step(s, c2, w.(exit := x));
      |r1.effects| == |r2.effects| &&
      (forall i | 0 <= i < |r1.effects| ::
         WithoutCode(Event(s, r1.effects[i])) == WithoutCode(Event(s, r2.effects[i]))) &&
      r1.next.Ok? == r2.next.Ok? &&
      (r1.next.Err? ==> r1.next.error == r2.next.error) &&
      (r1.next.Ok? ==> r1.next.value.req == r2.next.value.req && r1.next.value.repo == r2.next.value.repo)
  {
  }

  /**
   * A non-zero (or null) close code never aborts the chain: with any other
   * code, the same stages run, perform the same effects (up to the code
   * reported), and end the same way.
   */
  lemma {:induction false} ChainIgnoresExitCode(ss: seq<Chained>, c1: Ctx, c2: Ctx, w: World, x: Option<int>)
    requires c1.req == c2.req && c1.repo == c2.repo
    ensures var r1, r2 := Chain(ss, c1, w), Chain(ss, c2, w.(exit := x));
      |r1.trace| == |r2.trace| &&
      (forall i | 0 <= i < |r1.trace| :: WithoutCode(r1.trace[i]) == WithoutCode(r2.trace[i])) &&
      r1.result.Ok? == r2.result.Ok? &&
      (r1.result.Err? ==> r1.result.error == r2.result.error) &&
      (r1.result.Ok? ==> r1.result.value.req == r2.result.value.req && r1.result.value.repo == r2.result.value.repo)
  {
    if ss != [] {
      var w2 := w.(exit := x);
      var s1, s2 := Step(ss[0], c1, w), Step(ss[0], c2, w2);
      StepIgnoresExitCode(ss[0], c1, c2, w, x);
      var e1, e2 := Tag(ss[0], s1.effects), Tag(ss[0], s2.effects);
      assert forall i | 0 <= i < |e1| :: WithoutCode(e1[i]) == WithoutCode(e2[i]);
      if s1.next.Ok? {
        var r1, r2 := Chain(ss[1..], s1.next.value, w), Chain(ss[1..], s2.next.value, w2);
        ChainIgnoresExitCode(ss[1..], s1.next.value, s2.next.value, w, x);
        assert Chain(ss, c1, w) == RunResult(e1 + r1.trace, r1.result);
        assert Chain(ss, c2, w2) == RunResult(e2 + r2.trace, r2.result);
        forall i | 0 <= i < |e1| + |r1.trace|
          ensures WithoutCode((e1 + r1.trace)[i]) == WithoutCode((e2 + r2.trace)[i])
        {
          if i >= |e1| {
            assert (e1 + r1.trace)[i] == r1.trace[i - |e1|] && (e2 + r2.trace)[i] == r2.trace[i - |e1|];
          }
        }
      } else {
        assert Chain(ss, c1, w) == RunResult(e1, s1.next);
        assert Chain(ss, c2, w2) == RunResult(e2, s2.next);
      }
    }
  }

  /** The effects a job performs at most once: running its script and posting its report. */
  datatype Kind = ScriptRun | ReportPost

  predicate OfKind(e: Event, k: Kind) {
    match k
    case ScriptRun => e.effect.Spawn?
    case ReportPost => e.effect.Post?
  }

  /** The one stage that performs effects of kind `k`. */
  function Owner(k: Kind): Chained {
    match k
    case ScriptRun => Starting
    case ReportPost => Notifying
  }

  /** How many events of `t` are of kind `k`. */
  function Count(t: seq<Event>, k: Kind): nat {
    if t == [] then 0 else (if OfKind(t[0], k) then 1 else 0) + Count(t[1..], k)
  }

  lemma {:induction false} CountAppend(a: seq<Event>, b: seq<Event>, k: Kind)
    ensures Count(a + b, k) == Count(a, k) + Count(b, k)
  {
    if a == [] {
      assert a + b == b;
    } else {
      assert (a + b)[0] == a[0] && (a + b)[1..] == a[1..] + b;
      CountAppend(a[1..], b, k);
    }
  }

  lemma {:induction false} CountNone(t: seq<Event>, k: Kind)
    requires forall i | 0 <= i < |t| :: !OfKind(t[i], k)
    ensures Count(t, k) == 0
  {
    if t != [] {
      assert forall i | 0 <= i < |t[1..]| :: t[1..][i] == t[i + 1];
      CountNone(t[1..], k);
    }
  }

  /** Only position `i` can hold an event of kind `k`, so there is at most one. */
  lemma CountAtMostOne(t: seq<Event>, k: Kind, i: nat)
    requires i < |t|
    requires forall j | 0 <= j < |t| && j != i :: !OfKind(t[j], k)
    ensures Count(t, k) <= 1
  {
    var before, after := t[..i], t[i + 1..];
    assert t == before + ([t[i]] + after);
    CountAppend(before, [t[i]] + after, k);
    CountAppend([t[i]], after, k);
    assert forall j | 0 <= j < |before| :: before[j] == t[j];
    CountNone(before, k);
    assert forall j | 0 <= j < |after| :: after[j] == t[i + 1 + j];
    CountNone(after, k);
    assert [t[i]][1..] == [];
  }

  lemma CountPositive(t: seq<Event>, k: Kind, i: nat)
    requires i < |t| && OfKind(t[i], k)
    ensures Count(t, k) >= 1
  {
    assert t == t[..i] + t[i..];
    CountAppend(t[..i], t[i..], k);
    assert t[i..][0] == t[i];
  }

  /** Two events of kind `k` at different positions make the count at least two. */
  lemma CountTwo(t: seq<Event>, k: Kind, i: nat, j: nat)
    requires i < j < |t| && OfKind(t[i], k) && OfKind(t[j], k)
    ensures Count(t, k) >= 2
  {
    assert t == t[..j] + t[j..];
    CountAppend(t[..j], t[j..], k);
    assert t[..j][i] == t[i];
    CountPositive(t[..j], k, i);
    assert t[j..][0] == t[j];
    CountPositive(t[j..], k, 0);
  }

  /** A stage spawns or posts at most once, and only `start` spawns and only `notifyServer` posts. */
  lemma StepCount(s: Chained, c: Ctx, w: World, k: Kind)
    ensures Count(Tag(s, Step(s, c, w).effects), k) <= if s == Owner(k) then 1 else 0
  {
    if s != Owner(k) {
      OthersCount(s, c, w, k);
    } else if k == ScriptRun {
      StartCount(c, w);
    } else {
      NotifyCount(c, w);
    }
  }

  lemma OthersCount(s: Chained, c: Ctx, w: World, k: Kind)
    requires s != Owner(k)
    ensures Count(Tag(s, Step(s, c, w).effects), k) == 0
  {
    var effects := Step(s, c, w).effects;
    var t := Tag(s, effects);
    forall i | 0 <= i < |t| ensures !OfKind(t[i], k) {
      assert effects[i] in effects;
    }
    CountNone(t, k);
  }

  lemma StartCount(c: Ctx, w: World)
    ensures Count(Tag(Starting, Start(c, w).effects), ScriptRun) <= 1
  {
    var r := Start(c, w);
    var t := Tag(Starting, r.effects);
    if r.next.Ok? {
      assert forall j | 0 <= j < |t| && j != 2 :: !OfKind(t[j], ScriptRun);
      CountAtMostOne(t, ScriptRun, 2);
    } else {
      assert t == [];
    }
  }

  lemma NotifyCount(c: Ctx, w: World)
    ensures Count(Tag(Notifying, NotifyServer(c, w).effects), ReportPost) <= 1
  {
    var t := Tag(Notifying, NotifyServer(c, w).effects);
    if w.finalHead.Err? {
      CountAtMostOne(t, ReportPost, 0);
    } else {
      CountAtMostOne(t, ReportPost, 1);
    }
  }

  /** A chain performs an effect of kind `k` at most as often as its owner occurs among its stages. */
  lemma {:induction false} ChainCount(ss: seq<Chained>, c: Ctx, w: World, k: Kind)
    ensures Count(Chain(ss, c, w).trace, k) <= multiset(ss)[Owner(k)]
  {
    if ss != [] {
      var step := Step(ss[0], c, w);
      var events := Tag(ss[0], step.effects);
      StepCount(ss[0], c, w, k);
      assert ss == [ss[0]] + ss[1..];
      assert multiset(ss) == multiset([ss[0]]) + multiset(ss[1..]);
      ChainUnfold(ss, c, w);
      if step.next.Ok? {
        ChainCount(ss[1..], step.next.value, w, k);
        CountAppend(events, Chain(ss[1..], step.next.value, w).trace, k);
      }
    }
  }

  /** `runHandler`: clone, then the chained stages. */
  function Run(req: Request, w: World): RunResult {
    var cloned := CloneEndpoint(req, w);
    var events := Tag(Cloning, cloned.effects);
    match cloned.next
    case Err(e) => RunResult(events, Err(e))
    case Ok(c) =>
      var rest := Chain(Pipeline, c, w);
      RunResult(events + rest.trace, rest.result)
  }
}
