# azix-ec2 job worker, modelled in Dafny

The azix-ec2 worker runs on an EC2 instance and executes one analysis job per
request (`lib/run.js`). A job request names an `instanceId`, the git
`endpoint` of the job repository, the `startCommit` that repository must be at,
and a `finalEndpoint` to report to. The handler is a Q promise chain:

1. clone the repository into the configured path (`cloneEndpoint`);
2. check that HEAD is exactly `startCommit` (`validateRepo`);
3. answer the inbound request with 201 "Starting process";
4. find the first `scripts/` entry whose name begins with `main`, pick an
   interpreter from the end of its path (`R` → `Rscript`, `py` → `python`,
   otherwise `sh`), spawn it in the script's directory with stdout and stderr
   going to `output/output.txt` and `output/err.txt`, and record the close
   code (`start`, `findMain`, `inferCmd`);
5. `git add output`, commit with the message
   `"Azix process finished <date> - <startCommit>"`, and push to `origin master`;
6. read HEAD again and POST `{instanceId, completeCommit, endpoint, code}` to
   `finalEndpoint`, requiring status 201 (`notifyServer`).

The first stage that rejects skips everything after it, and the final
`.catch` only logs the error.

The model has five modules:

- `Wrappers`: `Option` and `Result`.
- `Scripts`: the choice of entry script and interpreter, and the paths
  involved.
- `Stages`: the job context, one function per stage, and `Chain`, the
  "run the next stage or skip to the catch" combinator. `Run` is the whole
  handler. Each stage yields the side effects it performs, tagged with the
  stage (`Event`), and either the next context or a `JobError`.
- `Properties`: what one run guarantees, proved over `Run`.
- `Handler`: the worker as the program runs it. `Context` is the mutable
  `obj` that `start` writes the close code into. `Worker` keeps a log of the
  effects it has performed, and each of its methods is proved to append
  exactly the trace of the corresponding stage function and to settle the
  same way. So everything proved about `Run` also holds of
  `Worker.RunHandler`.

Everything the handler learns from outside is an input, the `World`:

- git callback errors, and HEAD before and after the run;
- the directory listing;
- the close code;
- the HTTP response;
- the date text;
- the configured clone path.

## Model

| member | source | states |
|---|---|---|
| Scripts.InferCmd | lib/run.js:77-85 | the interpreter is `Rscript` exactly when the path ends in `R`, `python` exactly when it does not but ends in `py`, and `sh` otherwise |
| Scripts.InferCmdOfJoin | lib/run.js:90-95 | the interpreter chosen for the joined script path equals the one chosen for the bare entry name |
| Scripts.InferCmdExamples | lib/run.js:78-83 | the match is case-sensitive and needs no dot: `main.r` and `main.PY` run under `sh`, `happy` runs under `python` |
| Scripts.MainCandidates | lib/run.js:73 | the filter keeps only names beginning with `main`, taken from the listing, and drops none of them |
| Scripts.FirstCandidateIsFirstMain | lib/run.js:73 | element `[0]` of the filtered list is the entry-point name at the smallest index of the listing |
| Scripts.FindMain | lib/run.js:69-75 | there is no script exactly when no entry begins with `main`; otherwise the result is the first such entry in listing order, joined under the scripts directory |
| Scripts.FindMainAt | lib/run.js:69-75 | when index `k` holds the first entry-point name of the listing, `findMain` returns that entry joined under the scripts directory |
| Scripts.DirnameOfJoin | lib/run.js:96 | the script's working directory (`path.dirname(main)`) is the scripts directory it was found in |
| Stages.CloneEndpoint | lib/run.js:42-52 | clones `endpoint` into the configured path; resolves with `{repo, req}` and no code exactly when the clone reports no error, and otherwise rejects with that error |
| Stages.ValidateRepo | lib/run.js:54-67 | reads HEAD; resolves with the context unchanged exactly when HEAD is the start commit; otherwise rejects with the git error or the commit-mismatch error |
| Stages.Start | lib/run.js:87-110 | resolves exactly when the listing has an entry point, recording the close code whatever it is; performs nothing when it rejects; a listing error rejects with that error and a listing without a `main*` entry with the missing-entry-point error; otherwise opens output and err, spawns the interpreter of the first `main*` entry on its path in its directory, then ends err and output |
| Stages.StartResolves | lib/run.js:90-108 | when entry `k` is the first `main*` entry and `main` is its path under `scripts`, `start` performs its five effects in source order (open output, open err, spawn, end err, end output) and resolves with the code recorded |
| Stages.GitStep | lib/run.js:112-147 | `addOutput`, `commit` and `push` each perform one git call and resolve with the context unchanged exactly when it reports no error |
| Stages.CommitMessageProvenance | lib/run.js:126 | the commit message begins with "Azix process finished " and ends with " - " and the start commit |
| Stages.NotifyServer | lib/run.js:149-176 | reads HEAD; a read error rejects with that error and posts nothing; when the read works, POSTs `{instanceId, HEAD, endpoint, code}` to `finalEndpoint`; resolves exactly when HEAD was read and the status is 201; a transport error or any other status rejects with the error text or "Bad request" |
| Stages.HeadIsStart | lib/run.js:56-64 | defined as: HEAD could be read and is exactly `startCommit` (`commit.id !== obj.req.startCommit` negated); `Stages.ValidateRepo` resolves exactly when it holds, and `Properties.MismatchStopsAtValidation` gives the run when it fails |
| Stages.Acknowledge | lib/run.js:27-30 | defined as: the `res.send(201, "Starting process")` callback, performing that one response and passing the context on unchanged; `Properties.AcknowledgedOnlyAfterValidation` says when it runs |
| Stages.CommitMessage | lib/run.js:126 | defined as: "Azix process finished " + date + " - " + startCommit; `Stages.CommitMessageProvenance` states its shape |
| Stages.Payload | lib/run.js:155-160 | defined as: the report `{instanceId, completeCommit, endpoint, code}` built from the job object and the HEAD just read; `Properties.NotifiesOnlyAfterPush` states what every posted report holds |
| Stages.Acknowledged | lib/run.js:151-171 | defined as: HEAD could be read and the POST's status is 201 (`err || response.statusCode !== 201` negated); `Stages.NotifyServer` resolves exactly when it holds |
| Stages.Chain | lib/run.js:25-38 | defined as: the `.then`/`.catch` combinator, running each stage on the context the previous one resolved with and skipping the rest at the first rejection; `Stages.ChainStopsAtFirstFailure`, `Stages.ChainThen` and `Stages.ChainOrdered` describe it |
| Stages.Run | lib/run.js:10-38 | defined as: `runHandler`, the clone followed by `Chain` of the seven later stages; `Properties.RunStopsAtFirstFailure`, `Properties.RunOrdered` and the other `Properties` lemmas describe it |
| Stages.Step | lib/run.js:25-35 | each chained stage resolves exactly when its success condition holds, rejects naming itself, performs only its own kind of effect, and passes the context on unchanged except that `start` records the code |
| Stages.FirstFailure | lib/run.js:25-38 | the position of the first rejecting stage: every stage before it succeeds, and the stage at it fails |
| Stages.ChainStopsAtFirstFailure | lib/run.js:25-38 | a chain resolves exactly when no stage fails; a rejection names the first failing stage; no later stage performs anything; the context that comes out is the one that went in, plus the code |
| Stages.ChainEventsBelong | lib/run.js:25-35 | every event of a chain comes from one of its stages and is of that stage's kind |
| Stages.ChainOrdered | lib/run.js:25-35 | stages chained in pipeline order perform their effects in pipeline order |
| Stages.ChainThen | lib/run.js:25-35 | chaining `a + b` is chaining `a`, then chaining `b` from the context `a` resolved with, unless `a` rejected |
| Stages.ChainAt | lib/run.js:25-35 | when the stages before position `j` all succeed, they resolve with the input context (plus the code if `start` was among them), and the chain is their trace followed by the chain of the rest |
| Stages.StepIgnoresExitCode | lib/run.js:103-108 | a stage does the same thing whatever the close code, apart from the code in the posted report |
| Stages.ChainIgnoresExitCode | lib/run.js:103-108 | with any other close code, a chain performs the same effects apart from the reported code, and settles the same way |
| Properties.RunAfterClone | lib/run.js:25-26 | after a successful clone, the run is the clone event followed by the chain of the seven later stages |
| Properties.RunCloneFails | lib/run.js:44-47 | a failed clone ends the run after the clone event, with the clone's error |
| Properties.RunStopsAtFirstFailure | lib/run.js:24-38 | a run resolves exactly when every stage succeeds, and then carries the close code; a rejection names a failing stage whose predecessors all succeeded, and nothing after it is performed |
| Properties.RunOrdered | lib/run.js:25-35 | effects occur in the order clone, validate, acknowledge, start, add, commit, push, notify |
| Properties.RunSuffix | lib/run.js:25-35 | when the clone and every stage before position `j` succeeded, the run's trace ends with the chain of the stages from `j` on |
| Properties.RunReaches | lib/run.js:25-35 | when everything before stage `j` succeeded, every effect of stage `j` appears in the run |
| Properties.MismatchStopsAtValidation | lib/run.js:54-67 | when HEAD is not the start commit, the run is exactly the clone and the HEAD read, and rejects at validation: no response, spawn, commit, push or notify |
| Properties.AcknowledgedOnlyAfterValidation | lib/run.js:25-31 | the 201 "Starting process" answer is sent exactly when the clone and the validation succeeded, and always before the spawn |
| Properties.SpawnsOnlyAfterValidation | lib/run.js:87-96 | the script is spawned exactly when the clone and the validation succeeded and the listing holds a `main*` entry, and no run spawns twice |
| Properties.NotifiesOnlyAfterPush | lib/run.js:149-176 | a report is posted exactly when every stage up to the push succeeded and HEAD could be read afterwards; every posted report goes to `finalEndpoint` and holds the request's ids, the new HEAD and the close code; no run posts twice |
| Stages.StepCount | lib/run.js:87-110 | a stage spawns or posts at most once; only `start` spawns and only `notifyServer` posts |
| Stages.ChainCount | lib/run.js:25-35 | a chain spawns (posts) at most as many times as `start` (`notifyServer`) occurs among its stages |
| Properties.RunCount | lib/run.js:10-38 | a job spawns its script at most once and posts at most one report |
| Properties.AtMostOnce | lib/run.js:10-38 | no two events of a run are both spawns, and no two are both posted reports |
| Properties.PushedWhenPosted | lib/run.js:34-35 | a posted report means every stage up to the push succeeded, and it was the notify stage that posted it |
| Properties.NotifySegment | lib/run.js:149-165 | after a successful push, the run posts the expected report; every notify event is the HEAD read or that report |
| Properties.NotifyEvents | lib/run.js:151-165 | the notify stage's events are the HEAD read, followed by the report's POST when HEAD could be read |
| Properties.RunBeforeNotify | lib/run.js:25-35 | after a successful push, the run's trace is a notify-free prefix followed by the notify events |
| Properties.RunIgnoresExitCode | lib/run.js:103-108 | with any other close code (zero, non-zero or null), the run performs the same effects apart from the reported code, and ends the same way; a resolved run carries the code it was given |
| Properties.DemoEntryPoint | lib/run.js:69-75 | in the listing `data.csv`, `main.py`, the entry point is at index 1 and is the only one |
| Properties.DemoScript | lib/run.js:90-96 | `main.py` under `/home/ec2/repo/scripts` runs under `python` in that directory |
| Properties.HappyPathScenario | lib/run.js:10-38 | a job whose HEAD is its start commit and whose script `main.py` exits 0: the run resolves with code 0, spawns `python` on the script in `scripts/`, and posts the new HEAD `def456` with code 0 |
| Handler.Context.constructor | lib/run.js:48 | the job object starts with the request and the working copy, and no code |
| Handler.Worker.CloneEndpoint | lib/run.js:42-52 | performs exactly the clone stage's effects, and returns a fresh job object exactly when the clone succeeds |
| Handler.Worker.ValidateRepo | lib/run.js:54-67 | logs exactly the validation stage's effects and settles as that stage does |
| Handler.Worker.Start | lib/run.js:87-110 | logs exactly the start stage's effects, writes the close code into the job object when it resolves, and leaves the code untouched when it rejects |
| Handler.Worker.Launch | lib/run.js:93-108 | opens both outputs, spawns the interpreter for `main` in its directory, ends err then output, and records the code |
| Handler.Worker.AddOutput | lib/run.js:112-122 | logs exactly `git add output` and settles as the add stage does |
| Handler.Worker.Commit | lib/run.js:124-135 | logs exactly the commit with its message and settles as the commit stage does |
| Handler.Worker.Push | lib/run.js:137-147 | logs exactly the push to `origin master` and settles as the push stage does |
| Handler.Worker.NotifyServer | lib/run.js:149-176 | logs exactly the notify stage's effects and settles as that stage does |
| Handler.Worker.RunStages | lib/run.js:26-35 | the `.then` chain on the job object: logs exactly the trace of the chained stages and settles as their chain does |
| Handler.Worker.Prepare | lib/run.js:26-31 | validation, the 201 answer and `start` on the job object: logs exactly the trace of those chained stages and settles as their chain does |
| Handler.Worker.Accept | lib/run.js:26-30 | validation and then the `res.send(201, "Starting process")` callback: logs exactly the trace of those two chained stages and settles as their chain does |
| Handler.Worker.Publish | lib/run.js:32-35 | `addOutput`, `commit`, `push` and `notifyServer`: logs exactly the trace of those chained stages and settles as their chain does |
| Handler.Worker.Record | lib/run.js:32-33 | `addOutput` then `commit`: logs exactly the trace of those two chained stages and settles as their chain does |
| Handler.Worker.Deliver | lib/run.js:34-35 | `push` then `notifyServer`: logs exactly the trace of those two chained stages and settles as their chain does |
| Handler.Worker.RunHandler | lib/run.js:10-38 | the worker's log grows by exactly the trace of `Run`, and the job settles as `Run` does, so every `Properties` lemma holds of it |

## Left out

- Console output (`console.log` of the request body and of the caught error) is not modelled. The error the catch receives is the returned `JobError`.
- Streaming of stdout and stderr into the output files is left out. Only the opening and ending of both files is modelled.
- Spawn and stream failures are left out. If the interpreter cannot be started (line 96), the child emits `'error'`. If an output file cannot be opened (lines 93-94), for example because `output/` is missing, the stream emits `'error'`. The handler listens for neither event, so `emit` throws outside the promise chain and the worker process dies with an uncaught exception. No code path turns either failure into a rejection of the chain, so the catch at lines 36-38 never sees them.
- The interpreter is chosen by the regular expressions `R$` and `py$` (lines 78-83), with no dot and case-sensitive. So `happy` runs under `python` and `main.r` under `sh` (`Scripts.InferCmdExamples`).
- The model assumes the Node 0.10/0.12 runtime. There, `fs.createWriteStream(file, 'w')` (lines 93-94) ignores its string second argument and opens the file for writing. Later releases read a string second argument as an encoding, reject `'w'` as an unknown encoding, and throw at line 93. On those releases `start` would reject before the spawn on every run; the model does not capture that. The `Message` text of `MissingEntryPoint` ("Arguments to path.join must be strings") is the 0.10/0.12 wording as well.
- The model does not promise that the output files are flushed before `git add output`. `EndOutput` stands for `stream.end()` (lines 104-105), which only asks for the file to be flushed and closed. The source resolves right after (line 107) without waiting for the streams' `'finish'` events, so `addOutput` can run while data is still being written. This is an observation from reading the code; nothing was executed.
- `path.join` and `path.dirname` are modelled as joining with "/" and taking everything before the last "/". Node's normalisation of `..`, `.` and repeated separators is not modelled.
- `config.js` is not part of this model. The clone target `config.ec2RepoPath` is `World.repoPath`.
- `server.js`, the HTTP intake, is not part of this model. The 201 answer is an effect of the acknowledging stage.
- The gift git library, `request` and the file system are not modelled. Each call's outcome is a field of `World`.
- `new Date()` is not modelled. The date text is `World.date`.
- The JSON encoding of the report is not modelled. The report is the `Report` datatype.
- The JavaScript `undefined` (no code recorded yet) and `null` (child ended by a signal) are both `None`.
- Timing is not modelled. `runHandler` returns before the chain finishes, and `res.send` happens in the middle of the chain. The model gives the order of effects and the final outcome, not when the handler returns.
- `Stages.Start`: the listing error and the missing entry point are told apart. The source throws `TypeError` from `path.join(scripts, undefined)` for the missing entry point. The model names that case `MissingEntryPoint`, and its `Message` text is indicative.
