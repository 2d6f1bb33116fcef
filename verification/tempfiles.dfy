/** The cleanup at the end of a request: evaluating the list of temporary
    path variables, then removing each listed path that exists. */
module TempFiles {
  import opened Wrappers
  import opened Text
  import opened Formats

  /** The local variables holding the request's temporary paths. */
  datatype Local = InputPath | FixedPath | OutputPath

  /** The variables bound at a point of the handler and their values. */
  type Env = map<Local, Path>

  /** Evaluating the list display `[v1, ..., vn]`: the values in order, or
      None when a variable is still unbound (Python then raises
      UnboundLocalError). */
  function EvalList(env: Env, names: seq<Local>): (r: Option<seq<Path>>)
    ensures r.Some? <==> forall i | 0 <= i < |names| :: names[i] in env
    ensures r.Some? ==> |r.value| == |names|
    ensures r.Some? ==> forall i | 0 <= i < |names| :: r.value[i] == env[names[i]]
  {
    if |names| == 0 then Some([])
    else if names[0] !in env then None
    else match EvalList(env, names[1..])
      case None => None
      case Some(rest) => Some([env[names[0]]] + rest)
  }

  function Listed(paths: seq<Path>): set<Path>
  {
    set p | p in paths
  }

  /** The files left, and the paths whose removal failed (one warning each). */
  datatype Removal = Removal(files: set<Path>, warnings: seq<Path>)

  /** The cleanup loop: every listed path that exists is removed, except
      those whose removal raises (`stuck`); such a failure is only logged and
      the loop goes on with the next path. Nothing unlisted is touched. */
  function RemoveExisting(paths: seq<Path>, files: set<Path>, stuck: set<Path>): (r: Removal)
    ensures r.files == files - (Listed(paths) - stuck)
    ensures forall p :: p in r.warnings <==> p in paths && p in files && p in stuck
    decreases |paths|
  {
    if |paths| == 0 then Removal(files, [])
    else
      var p := paths[0];
      assert Listed(paths) == {p} + Listed(paths[1..]);
      if p in files && p !in stuck then
        RemoveExisting(paths[1..], files - {p}, stuck)
      else if p in files then
        var rest := RemoveExisting(paths[1..], files, stuck);
        Removal(rest.files, [p] + rest.warnings)
      else
        RemoveExisting(paths[1..], files, stuck)
  }
}
