/** The four external-tool stages run on a staged input: repair pass,
    transcode to the target codec, tag rewrite, duration probe. Each tool is
    an oracle that succeeds or fails with its diagnostic text; the file
    system is the set of existing paths. */
module Pipeline {
  import opened Wrappers
  import opened Text
  import opened Formats
  import opened Http

  datatype Stage = Fix | Convert | Tag | Probe

  const AllStages: seq<Stage> := [Fix, Convert, Tag, Probe]

  /** One tool run: success, or a non-zero exit with its stderr; a failed
      run may or may not have left its output file behind. */
  datatype ToolRun = Succeeded | Failed(stderr: string, leftOutput: bool)

  /** The probe: a duration already rounded to whole milliseconds, a
      non-zero exit, or output that does not parse as a number (the parser's
      message is kept). */
  datatype ProbeRun = Measured(durationMs: nat) | ProbeFailed(stderr: string) | Unreadable(message: string)

  /** What the tools do for one request, and the bytes of the final file. */
  datatype Tools = Tools(fix: ToolRun, convert: ToolRun, tag: ToolRun, probe: ProbeRun, audio: Bytes)

  predicate Passes(tools: Tools, stage: Stage)
  {
    match stage
    case Fix => tools.fix.Succeeded?
    case Convert => tools.convert.Succeeded?
    case Tag => tools.tag.Succeeded?
    case Probe => tools.probe.Measured?
  }

  /** The text of the exception a failing stage raises. */
  function FailureMessage(tools: Tools, stage: Stage): string
    requires !Passes(tools, stage)
  {
    match stage
    case Fix => "Erro no ffmpeg (fix_audio): " + tools.fix.stderr
    case Convert => "Erro no ffmpeg (convert_audio): " + tools.convert.stderr
    case Tag => "Erro no opustags: " + tools.tag.stderr
    case Probe =>
      match tools.probe
      case ProbeFailed(err) => "Erro no ffprobe: " + err
      case Unreadable(message) => message
  }

  datatype Outcome = Converted(durationMs: nat) | Aborted(stage: Stage, message: string)

  /** The outcome, the stages actually invoked in order, and the files
      existing afterwards. */
  datatype Run = Run(outcome: Outcome, ran: seq<Stage>, files: set<Path>)

  /** A stage's output file, when the run leaves one. */
  function Produce(files: set<Path>, run: ToolRun, path: Path): set<Path>
  {
    if run.Succeeded? || run.leftOutput then files + {path} else files
  }

  /** The stages in order; the first failure ends the run with its message.
      Only the repair pass and the transcode create files. */
  function RunStages(tools: Tools, fixedPath: Path, outputPath: Path, files: set<Path>): (r: Run)
    ensures 0 < |r.ran| <= |AllStages| && r.ran == AllStages[..|r.ran|]
    ensures forall i | 0 <= i < |r.ran| - 1 :: Passes(tools, r.ran[i])
    ensures r.outcome.Converted? <==> forall s: Stage :: Passes(tools, s)
    ensures r.outcome.Converted? ==> r.ran == AllStages && tools.probe.Measured? && r.outcome.durationMs == tools.probe.durationMs
    ensures r.outcome.Aborted? ==>
              && r.outcome.stage == r.ran[|r.ran| - 1]
              && !Passes(tools, r.outcome.stage)
              && r.outcome.message == FailureMessage(tools, r.outcome.stage)
    ensures files <= r.files <= files + {fixedPath, outputPath}
    ensures tools.fix.Succeeded? ==> fixedPath in r.files
    ensures tools.fix.Succeeded? && tools.convert.Succeeded? ==> outputPath in r.files
  {
    var afterFix := Produce(files, tools.fix, fixedPath);
    if !tools.fix.Succeeded? then
      Run(Aborted(Fix, FailureMessage(tools, Fix)), [Fix], afterFix)
    else
      var afterConvert := Produce(afterFix, tools.convert, outputPath);
      if !tools.convert.Succeeded? then
        Run(Aborted(Convert, FailureMessage(tools, Convert)), [Fix, Convert], afterConvert)
      else if !tools.tag.Succeeded? then
        Run(Aborted(Tag, FailureMessage(tools, Tag)), [Fix, Convert, Tag], afterConvert)
      else if !tools.probe.Measured? then
        Run(Aborted(Probe, FailureMessage(tools, Probe)), AllStages, afterConvert)
      else
        Run(Converted(tools.probe.durationMs), AllStages, afterConvert)
  }

  /** The position of the first stage that does not pass, in the given
      order. */
  function FirstFailure(tools: Tools, stages: seq<Stage>): (k: Option<nat>)
    ensures k.Some? ==> k.value < |stages| && !Passes(tools, stages[k.value])
    ensures k.Some? ==> forall i | 0 <= i < k.value :: Passes(tools, stages[i])
    ensures k.None? <==> forall i | 0 <= i < |stages| :: Passes(tools, stages[i])
  {
    if |stages| == 0 then None
    else if !Passes(tools, stages[0]) then Some(0)
    else match FirstFailure(tools, stages[1..])
      case None => None
      case Some(j) => Some(j + 1)
  }

  /** The run aborts exactly at the first failing stage in pipeline order,
      and succeeds exactly when there is none. */
  lemma AbortsAtFirstFailure(tools: Tools, fixedPath: Path, outputPath: Path, files: set<Path>)
    ensures var r := RunStages(tools, fixedPath, outputPath, files);
            match FirstFailure(tools, AllStages)
            case None => r.outcome.Converted?
            case Some(k) => r.outcome.Aborted? && r.outcome.stage == AllStages[k] && |r.ran| == k + 1
  {
    var r := RunStages(tools, fixedPath, outputPath, files);
    match FirstFailure(tools, AllStages)
    case None =>
      forall s: Stage ensures Passes(tools, s) {
        assert s == AllStages[0] || s == AllStages[1] || s == AllStages[2] || s == AllStages[3];
      }
    case Some(k) =>
      assert !Passes(tools, AllStages[k]);
      assert r.outcome.Aborted?;
      assert r.ran[|r.ran| - 1] == AllStages[|r.ran| - 1];
  }
}
