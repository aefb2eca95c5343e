/**
 * The worker as the program runs it: one mutable job object handed from
 * stage to stage, each stage performing its external calls in order and
 * either resolving with the object or rejecting. The log of performed
 * effects stands for the outside world; every method is proved to do
 * exactly what the corresponding stage function of `Stages` describes, so
 * the properties proved about `Run` hold of `Worker.RunHandler`.
 */
module Handler {
  import opened Wrappers
  import opened Scripts
  import opened Stages
  import opened Properties

  /** The `obj` of the promise chain: `{repo, req}` plus the `code` that `start` records. */
  class Context {
    const req: Request
    const repo: Repo
    var code: Option<int>

    constructor (req: Request, repo: Repo)
      ensures this.req == req && this.repo == repo && code == None
    {
      this.req := req;
      this.repo := repo;
      code := None;
    }

    /** The object's current contents. */
    function Value(): Ctx
      reads this
    {
      Ctx(req, repo, code)
    }
  }

  /** What a stage's promise settled to: the job object's contents, or the rejection. */
  function Settled(obj: Context, err: Option<JobError>): Result<Ctx, JobError>
    reads obj
  {
    if err.None? then Ok(obj.Value()) else Err(err.value)
  }

  /** What a whole run settled to. */
  function Outcome(r: Result<Context, JobError>): Result<Ctx, JobError>
    reads if r.Ok? then {r.value} else {}
  {
    match r
    case Ok(obj) => Ok(obj.Value())
    case Err(e) => Err(e)
  }

  /** One EC2 worker: everything it has done to the outside world, in order. */
  class Worker {
    var log: seq<Event>

    constructor ()
      ensures log == []
    {
      log := [];
    }

    method Perform(s: Stage, e: Effect)
      modifies this
      ensures log == old(log) + [Event(s, e)]
    {
      log := log + [Event(s, e)];
    }

    /** `cloneEndpoint`: clone the job's repository and build the job object. */
    method CloneEndpoint(req: Request, w: World) returns (r: Result<Context, JobError>)
      modifies this
      ensures log == old(log) + Tag(Cloning, Stages.CloneEndpoint(req, w).effects)
      ensures Outcome(r) == Stages.CloneEndpoint(req, w).next
      ensures r.Ok? ==> fresh(r.value)
    {
      Perform(Cloning, GitClone(req.endpoint, w.repoPath));
      if w.clone.Some? {
        return Err(JobError(Cloning, GitError(w.clone.value)));
      }
      var obj := new Context(req, Repo(w.repoPath));
      return Ok(obj);
    }

    /** `validateRepo`: HEAD must be the requested start commit. */
    method ValidateRepo(obj: Context, w: World) returns (err: Option<JobError>)
      modifies this
      ensures log == old(log) + Tag(Validating, Step(Validating, obj.Value(), w).effects)
      ensures Settled(obj, err) == Step(Validating, obj.Value(), w).next
    {
      Perform(Validating, ReadHead);
      if w.startHead.Err? {
        return Some(JobError(Validating, GitError(w.startHead.error)));
      }
      if w.startHead.value != obj.req.startCommit {
        return Some(JobError(Validating, CommitMismatch));
      }
      return None;
    }

    /**
     * `start`: find the entry script, open both output files, spawn the
     * interpreter, and on 'close' end the files and record the code in the
     * job object. A missing entry script rejects before anything is opened.
     */
    method Start(obj: Context, w: World) returns (err: Option<JobError>)
      modifies this, obj
      ensures log == old(log) + Tag(Starting, Step(Starting, old(obj.Value()), w).effects)
      ensures Settled(obj, err) == Step(Starting, old(obj.Value()), w).next
      ensures err.Some? ==> obj.code == old(obj.code)
    {
      var scripts := ScriptsDir(obj.repo);
      if w.listing.Err? {
        return Some(JobError(Starting, ListingError(w.listing.error)));
      }
      var found := FindMain(scripts, w.listing.value);
      if found.None? {
        return Some(JobError(Starting, MissingEntryPoint));
      }
      var main := found.value;
      ghost var k :| FirstMainAt(w.listing.value, k) && main == Join(scripts, w.listing.value[k]);
      StartResolves(obj.Value(), w, k, main);
      TagFive(Starting, Stages.Start(obj.Value(), w).effects);
      Launch(obj, main, w.exit);
      return None;
    }

    /**
     * Open both output files, spawn the interpreter for `main` in its
     * directory, and on 'close' end the files and record the code.
     */
    method Launch(obj: Context, main: string, code: Option<int>)
      modifies this, obj
      ensures var out, err := OutputFile(obj.repo), ErrFile(obj.repo);
        log == old(log) +
          [Event(Starting, OpenOutput(out)), Event(Starting, OpenOutput(err)),
           Event(Starting, Spawn(InferCmd(main), [main], Dirname(main))),
           Event(Starting, EndOutput(err)), Event(Starting, EndOutput(out))]
      ensures obj.code == code
    {
      var out, err := OutputFile(obj.repo), ErrFile(obj.repo);
      ghost var e0, e1, e2 := Event(Starting, OpenOutput(out)), Event(Starting, OpenOutput(err)),
        Event(Starting, Spawn(InferCmd(main), [main], Dirname(main)));
      Perform(Starting, OpenOutput(out));
      Perform(Starting, OpenOutput(err));
      assert log == old(log) + [e0, e1];
      Perform(Starting, Spawn(InferCmd(main), [main], Dirname(main)));
      assert log == old(log) + [e0, e1, e2];
      EndOutputs(out, err);
      obj.code := code;
    }

    /** The 'close' handler's two `end()` calls, error file first. */
    method EndOutputs(out: string, errFile: string)
      modifies this
      ensures log == old(log) + [Event(Starting, EndOutput(errFile)), Event(Starting, EndOutput(out))]
    {
      Perform(Starting, EndOutput(errFile));
      Perform(Starting, EndOutput(out));
    }

    /** One git call on behalf of stage `s`, rejecting with its error. */
    method Git(s: Chained, effect: Effect, outcome: Option<string>) returns (err: Option<JobError>)
      modifies this
      ensures log == old(log) + [Event(s, effect)]
      ensures err == if outcome.None? then None else Some(JobError(s, GitError(outcome.value)))
    {
      Perform(s, effect);
      if outcome.Some? {
        return Some(JobError(s, GitError(outcome.value)));
      }
      return None;
    }

    /** `addOutput`: stage the `output` directory. */
    method AddOutput(obj: Context, w: World) returns (err: Option<JobError>)
      modifies this
      ensures log == old(log) + Tag(Adding, Step(Adding, obj.Value(), w).effects)
      ensures Settled(obj, err) == Step(Adding, obj.Value(), w).next
    {
      err := Git(Adding, GitAdd("output"), w.add);
    }

    /** `commit`: commit with a message naming the date and the start commit. */
    method Commit(obj: Context, w: World) returns (err: Option<JobError>)
      modifies this
      ensures log == old(log) + Tag(Committing, Step(Committing, obj.Value(), w).effects)
      ensures Settled(obj, err) == Step(Committing, obj.Value(), w).next
    {
      var msg := CommitMessage(w.date, obj.req.startCommit);
      err := Git(Committing, GitCommit(msg), w.commit);
    }

    /** `push`: push `master` to `origin`. */
    method Push(obj: Context, w: World) returns (err: Option<JobError>)
      modifies this
      ensures log == old(log) + Tag(Pushing, Step(Pushing, obj.Value(), w).effects)
      ensures Settled(obj, err) == Step(Pushing, obj.Value(), w).next
    {
      err := Git(Pushing, GitPush("origin", "master"), w.push);
    }

    /** `notifyServer`: read HEAD, POST the report, and require status 201. */
    method NotifyServer(obj: Context, w: World) returns (err: Option<JobError>)
      modifies this
      ensures log == old(log) + Tag(Notifying, Step(Notifying, obj.Value(), w).effects)
      ensures Settled(obj, err) == Step(Notifying, obj.Value(), w).next
    {
      Perform(Notifying, ReadHead);
      if w.finalHead.Err? {
        return Some(JobError(Notifying, GitError(w.finalHead.error)));
      }
      var data := Payload(obj.Value(), w.finalHead.value);
      Perform(Notifying, Post(obj.req.finalEndpoint, data));
      if w.response.Err? {
        return Some(JobError(Notifying, TransportError(w.response.error)));
      }
      if w.response.value != 201 {
        return Some(JobError(Notifying, BadStatus(w.response.value)));
      }
      return None;
    }

    /**
     * `runHandler`: clone, then `.then` the pipeline's stages on the job
     * object, the first rejection skipping the rest. The worker's log grows
     * by exactly the trace of `Run`, and the job settles as `Run` does.
     */
    method RunHandler(req: Request, w: World) returns (r: Result<Context, JobError>)
      modifies this
      ensures log == old(log) + Run(req, w).trace
      ensures Outcome(r) == Run(req, w).result
      ensures r.Ok? ==> fresh(r.value)
    {
      var cloned := CloneEndpoint(req, w);
      if cloned.Err? {
        RunCloneFails(req, w);
        return cloned;
      }
      var obj := cloned.value;
      RunAfterClone(req, w);
      var err := RunStages(obj, w);
      r := if err.None? then Ok(obj) else Err(err.value);
    }

    /**
     * The `.then` chain after the clone. The source chains its seven stages
     * flatly; here they are grouped in pairs (`Prepare` = `Accept` then
     * `start`, `Publish` = `Record` then `Deliver`) only so that each method's
     * proof stays small. The grouping changes neither the order of the
     * stages nor the point at which a rejection stops the chain.
     */
    method RunStages(obj: Context, w: World) returns (err: Option<JobError>)
      modifies this, obj
      ensures log == old(log) + Stages.Chain(Pipeline, old(obj.Value()), w).trace
      ensures Settled(obj, err) == Stages.Chain(Pipeline, old(obj.Value()), w).result
    {
      ghost var c0 := obj.Value();
      assert Pipeline == Preparing + Publishing;
      ChainThen(Preparing, Publishing, c0, w);
      ghost var start := log;
      err := Prepare(obj, w);
      if err.None? {
        ghost var first := Stages.Chain(Preparing, c0, w);
        err := Publish(obj, w);
        ThenResolved(first, Publishing, w);
        AppendAssoc(start, first.trace, Stages.Chain(Publishing, first.result.value, w).trace);
      }
    }

    /** Validate and acknowledge, then start the script. */
    method Prepare(obj: Context, w: World) returns (err: Option<JobError>)
      modifies this, obj
      ensures log == old(log) + Stages.Chain(Preparing, old(obj.Value()), w).trace
      ensures Settled(obj, err) == Stages.Chain(Preparing, old(obj.Value()), w).result
    {
      ghost var c0 := obj.Value();
      assert Preparing == Accepting + [Starting];
      ChainThen(Accepting, [Starting], c0, w);
      ghost var start := log;
      err := Accept(obj, w);
      if err.None? {
        ghost var first := Stages.Chain(Accepting, c0, w);
        ghost var before := obj.Value();
        err := Start(obj, w);
        ThenResolved(first, [Starting], w);
        ChainSingle(Starting, before, w);
        AppendAssoc(start, first.trace, Tag(Starting, Step(Starting, before, w).effects));
      }
    }

    /** `validateRepo`, then the 201 "Starting process" answer. */
    method Accept(obj: Context, w: World) returns (err: Option<JobError>)
      modifies this
      ensures log == old(log) + Stages.Chain(Accepting, obj.Value(), w).trace
      ensures Settled(obj, err) == Stages.Chain(Accepting, obj.Value(), w).result
    {
      ghost var c0 := obj.Value();
      ghost var trace: seq<Event> := [];
      assert Ran(Accepting, c0, w, 0, trace, Ok(c0));
      err := ValidateRepo(obj, w);
      trace := Advance(Accepting, c0, w, 0, Validating, old(log), trace, c0, Settled(obj, err));
      assert log == old(log) + trace;
      if err.Some? {
        return;
      }
      Perform(Acknowledging, Respond(201, StartingBody));
      trace := Advance(Accepting, c0, w, 1, Acknowledging, old(log), trace, c0, Ok(c0));
      assert log == old(log) + trace;
    }

    /** Add and commit the output, then push and notify the server. */
    method Publish(obj: Context, w: World) returns (err: Option<JobError>)
      modifies this
      ensures log == old(log) + Stages.Chain(Publishing, obj.Value(), w).trace
      ensures Settled(obj, err) == Stages.Chain(Publishing, obj.Value(), w).result
    {
      ghost var c0 := obj.Value();
      assert Publishing == Recording + Delivering;
      ChainThen(Recording, Delivering, c0, w);
      ghost var start := log;
      err := Record(obj, w);
      if err.None? {
        ghost var first := Stages.Chain(Recording, c0, w);
        err := Deliver(obj, w);
        ThenResolved(first, Delivering, w);
        AppendAssoc(start, first.trace, Stages.Chain(Delivering, c0, w).trace);
      }
    }

    /** `addOutput`, then `commit`. */
    method Record(obj: Context, w: World) returns (err: Option<JobError>)
      modifies this
      ensures log == old(log) + Stages.Chain(Recording, obj.Value(), w).trace
      ensures Settled(obj, err) == Stages.Chain(Recording, obj.Value(), w).result
    {
      ghost var c0 := obj.Value();
      ghost var trace: seq<Event> := [];
      assert Ran(Recording, c0, w, 0, trace, Ok(c0));
      err := AddOutput(obj, w);
      trace := Advance(Recording, c0, w, 0, Adding, old(log), trace, c0, Settled(obj, err));
      assert log == old(log) + trace;
      if err.Some? {
        return;
      }
      err := Commit(obj, w);
      trace := Advance(Recording, c0, w, 1, Committing, old(log), trace, c0, Settled(obj, err));
      assert log == old(log) + trace;
    }

    /** `push`, then `notifyServer`. */
    method Deliver(obj: Context, w: World) returns (err: Option<JobError>)
      modifies this
      ensures log == old(log) + Stages.Chain(Delivering, obj.Value(), w).trace
      ensures Settled(obj, err) == Stages.Chain(Delivering, obj.Value(), w).result
    {
      ghost var c0 := obj.Value();
      ghost var trace: seq<Event> := [];
      assert Ran(Delivering, c0, w, 0, trace, Ok(c0));
      err := Push(obj, w);
      trace := Advance(Delivering, c0, w, 0, Pushing, old(log), trace, c0, Settled(obj, err));
      assert log == old(log) + trace;
      if err.Some? {
        return;
      }
      err := NotifyServer(obj, w);
      trace := Advance(Delivering, c0, w, 1, Notifying, old(log), trace, c0, Settled(obj, err));
      assert log == old(log) + trace;
    }
  }

  /** The pipeline's stages, grouped as `RunHandler` runs them. */
  const Accepting: seq<Chained> := [Validating, Acknowledging]
  const Preparing: seq<Chained> := Accepting + [Starting]
  const Recording: seq<Chained> := [Adding, Committing]
  const Delivering: seq<Chained> := [Pushing, Notifying]
  const Publishing: seq<Chained> := Recording + Delivering

  lemma AppendAssoc(a: seq<Event>, b: seq<Event>, c: seq<Event>)
    ensures a + (b + c) == (a + b) + c
  {
  }

  /** The first `i` stages of `ss`, run from `c0`, performed `trace` and settled as `result`. */
  ghost predicate Ran(ss: seq<Chained>, c0: Ctx, w: World, i: nat, trace: seq<Event>, result: Result<Ctx, JobError>) {
    i <= |ss| && Chain(ss[..i], c0, w) == RunResult(trace, result)
  }

  /**
   * Stage `i` of `ss`, which is `s`, run on the context the earlier stages
   * resolved with, extends their trace, and a log ending in that trace, by
   * its events; if it rejects, or is the last one, that is how the whole
   * chain ends.
   */
  lemma Advance(ss: seq<Chained>, c0: Ctx, w: World, i: nat, s: Chained, base: seq<Event>, trace: seq<Event>,
                before: Ctx, next: Result<Ctx, JobError>)
      returns (trace': seq<Event>)
    requires i < |ss| && ss[i] == s && Ran(ss, c0, w, i, trace, Ok(before))
    requires next == Step(s, before, w).next
    ensures trace' == trace + Tag(s, Step(s, before, w).effects)
    ensures (base + trace) + Tag(s, Step(s, before, w).effects) == base + trace'
    ensures Ran(ss, c0, w, i + 1, trace', next)
    ensures next.Err? || i + 1 == |ss| ==> Chain(ss, c0, w) == RunResult(trace', next)
  {
    trace' := trace + Tag(s, Step(s, before, w).effects);
    ChainAdvance(ss, c0, w, i);
    if next.Err? {
      ChainSettled(ss, c0, w, i + 1);
    } else if i + 1 == |ss| {
      assert ss[..i + 1] == ss;
    }
  }
}
