/** The syntactic script screen both executors run before anything else:
    a case-sensitive, whole-text substring search for a fixed list of
    keywords. */
module Denylist {
  import opened Strings

  /** Some keyword of `keywords` occurs in `script`. */
  predicate Flags(keywords: seq<string>, script: string) {
    exists k :: 0 <= k < |keywords| && Contains(script, keywords[k])
  }

  /** The screening loop: `for bad in keywords: if bad in script: return
      False`, then `return True`. */
  method Screen(keywords: seq<string>, script: string) returns (safe: bool)
    ensures safe == !Flags(keywords, script)
  {
    for k := 0 to |keywords|
      invariant forall j :: 0 <= j < k ==> !Contains(script, keywords[j])
    {
      if Contains(script, keywords[k]) {
        return false;
      }
    }
    return true;
  }

  /** A flagged script stays flagged whatever is put around it. */
  lemma FlagsWiden(keywords: seq<string>, script: string, p: string, q: string)
    requires Flags(keywords, script)
    ensures Flags(keywords, p + script + q)
  {
    var k :| 0 <= k < |keywords| && Contains(script, keywords[k]);
    ContainsWiden(script, keywords[k], p, q);
  }
}

/** What a sandboxed run returns, shaped like the dictionaries of the
    source, and what the child process did, supplied from outside. */
module Sandbox {
  import opened Wrappers
  import opened FileTree

  /** How the one child process ended: killed at the 60-second limit, or
      finished with captured text and an exit status. Either way `produced`
      holds the files it wrote before it stopped (relative to its working
      directory); a killed child's text is lost, its files are not. */
  datatype Outcome =
    | Timeout(produced: Tree)
    | Completed(stdout: string, stderr: string, exitCode: int, produced: Tree)

  /** The result dictionary: each field is a key that may be absent. */
  datatype ExecResult = ExecResult(error: Option<string>, stdout: Option<string>,
                                   stderr: Option<string>, folder: Option<Path>)

  /** `{"error": message}` */
  function ErrorResult(message: string): ExecResult {
    ExecResult(Some(message), None, None, None)
  }

  /** `{"stdout": out, "stderr": err, <folder key>: folder}` */
  function RanResult(out: string, err: string, folder: Path): ExecResult {
    ExecResult(None, Some(out), Some(err), Some(folder))
  }

  /** Exactly one of `error` and the folder is present, and the captured
      text comes with the folder and only with it. */
  predicate WellShaped(r: ExecResult) {
    && (r.error.Some? != r.folder.Some?)
    && (r.stdout.Some? == r.folder.Some?)
    && (r.stderr.Some? == r.folder.Some?)
  }
}
