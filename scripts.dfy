/**
 * Choosing and launching the job's entry script (lib/run.js, `findMain`,
 * `inferCmd` and the paths `start` builds).
 *
 * Paths are plain strings joined with "/"; Node's path normalisation is not
 * modelled. A directory listing is the sequence of entry names in the order
 * the file system returns them.
 */
module Scripts {
  import opened Wrappers

  predicate StartsWith(s: string, prefix: string) {
    |prefix| <= |s| && s[..|prefix|] == prefix
  }

  predicate EndsWith(s: string, suffix: string) {
    |suffix| <= |s| && s[|s| - |suffix|..] == suffix
  }

  /** `path.join(dir, name)`, without normalisation. */
  function Join(dir: string, name: string): string {
    dir + "/" + name
  }

  /** `path.dirname(p)`: everything before the last "/", or "." when there is none. */
  function Dirname(p: string): string {
    if p == [] then "."
    else if p[|p| - 1] == '/' then p[..|p| - 1]
    else Dirname(p[..|p| - 1])
  }

  /** The script runs in the directory it was found in: a listing entry never contains "/". */
  lemma {:induction false} DirnameOfJoin(dir: string, name: string)
    requires '/' !in name
    ensures Dirname(Join(dir, name)) == dir
    decreases |name|
  {
    if name == [] {
      assert Join(dir, name)[..|Join(dir, name)| - 1] == dir;
    } else {
      var shorter := name[..|name| - 1];
      assert name[|name| - 1] in name;
      assert Join(dir, name)[..|Join(dir, name)| - 1] == Join(dir, shorter);
      assert forall c | c in shorter :: c in name;
      DirnameOfJoin(dir, shorter);
    }
  }

  /** The regular expression `^main`: an entry-point name begins with "main" (case-sensitive). */
  predicate IsMainName(name: string) {
    StartsWith(name, "main")
  }

  /** The first index of `files` holding an entry-point name. */
  ghost predicate FirstMainAt(files: seq<string>, k: int) {
    0 <= k < |files| && IsMainName(files[k]) &&
    forall j | 0 <= j < k :: !IsMainName(files[j])
  }

  /** `_.filter(files, f => f.match('^main'))`: the entry-point names, in listing order. */
  function MainCandidates(files: seq<string>): (r: seq<string>)
    ensures |r| <= |files|
    ensures forall x | x in r :: IsMainName(x) && x in files
    ensures forall i | 0 <= i < |files| && IsMainName(files[i]) :: files[i] in r
  {
    if files == [] then []
    else (if IsMainName(files[0]) then [files[0]] else []) + MainCandidates(files[1..])
  }

  /** The first candidate is the first entry-point name of the listing. */
  lemma {:induction false} FirstCandidateIsFirstMain(files: seq<string>)
    requires MainCandidates(files) != []
    ensures exists k :: FirstMainAt(files, k) && MainCandidates(files)[0] == files[k]
  {
    if IsMainName(files[0]) {
      assert FirstMainAt(files, 0);
    } else {
      assert MainCandidates(files) == MainCandidates(files[1..]);
      FirstCandidateIsFirstMain(files[1..]);
      var k :| FirstMainAt(files[1..], k) && MainCandidates(files[1..])[0] == files[1..][k];
      assert FirstMainAt(files, k + 1);
    }
  }

  /**
   * `findMain(scripts)` given the listing of `scripts`: the first entry-point
   * name in listing order, joined under `scripts`. With no such entry the
   * source evaluates `path.join(scripts, undefined)`, which throws; that is
   * `None` here.
   */
  function FindMain(scripts: string, files: seq<string>): (r: Option<string>)
    ensures r.None? <==> forall i | 0 <= i < |files| :: !IsMainName(files[i])
    ensures r.Some? ==> exists k :: FirstMainAt(files, k) && r.value == Join(scripts, files[k])
  {
    var candidates := MainCandidates(files);
    if candidates == [] then None
    else
      FirstCandidateIsFirstMain(files);
      Some(Join(scripts, candidates[0]))
  }

  /** `findMain` picks the entry at the first index holding an entry-point name. */
  lemma FindMainAt(scripts: string, files: seq<string>, k: nat)
    requires FirstMainAt(files, k)
    ensures FindMain(scripts, files) == Some(Join(scripts, files[k]))
  {
    var found := FindMain(scripts, files);
    assert found.Some?;
    var k' :| FirstMainAt(files, k') && found.value == Join(scripts, files[k']);
    assert !(k' < k) && !(k < k');
  }

  /**
   * `inferCmd(file)`: the regular expressions `R$` and `py$`, tried in that
   * order, look at the last characters of the whole path. There is no dot in
   * either pattern and the match is case-sensitive.
   */
  function InferCmd(file: string): (cmd: string)
    ensures cmd == "Rscript" <==> EndsWith(file, "R")
    ensures cmd == "python" <==> !EndsWith(file, "R") && EndsWith(file, "py")
    ensures cmd == "sh" <==> !EndsWith(file, "R") && !EndsWith(file, "py")
  {
    var n := |file|;
    if n >= 1 && file[n - 1] == 'R' then "Rscript"
    else if n >= 2 && file[n - 2] == 'p' && file[n - 1] == 'y' then "python"
    else "sh"
  }

  /** The interpreter depends on the file name alone, not on the directory it is joined under. */
  lemma InferCmdOfJoin(dir: string, name: string)
    requires name != []
    ensures InferCmd(Join(dir, name)) == InferCmd(name)
  {
    var p := Join(dir, name);
    assert p[|p| - 1] == name[|name| - 1];
    if |name| >= 2 {
      assert p[|p| - 2] == name[|name| - 2];
    } else {
      assert p[|p| - 2] == '/';
    }
  }

  /** Matching is case-sensitive and needs no dot: "x.r" runs under sh, "happy" under python. */
  lemma InferCmdExamples()
    ensures InferCmd("main.R") == "Rscript" && InferCmd("main.r") == "sh"
    ensures InferCmd("main.py") == "python" && InferCmd("happy") == "python"
    ensures InferCmd("main.PY") == "sh" && InferCmd("main.sh") == "sh"
  {
  }
}
