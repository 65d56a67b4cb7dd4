/** The QAAC audio encoder job: a command-line job processor whose tool reads one
    input (a file or standard input), writes one AAC file, and reports the end of
    the job with an output line containing `.done`. */
module Qaac {
  import opened Text
  import opened JobProcessing

  /** The output text that tells the encoder is done. */
  const DoneMarker := ".done"

  /** The input path that stands for standard input. */
  const StdinPath := "-"

  /** The input path as it is rewritten into the job: standard input stays as it
      is, a file path is wrapped in double quotes. */
  function QuotedInput(path: string): (r: string)
    ensures path == StdinPath ==> r == path
    ensures path != StdinPath ==>
      |r| == |path| + 2 && r[0] == '"' && r[|r| - 1] == '"' && r[1..|r| - 1] == path
  {
    if path == StdinPath then path
    else
      var r := "\"" + path + "\"";
      assert r[1..|r| - 1] == path;
      r
  }

  /** Strips one pair of surrounding double quotes, if there is one. */
  function Unquote(s: string): string {
    if |s| >= 2 && s[0] == '"' && s[|s| - 1] == '"' then s[1..|s| - 1] else s
  }

  /** Quoting loses nothing: the original path can be read back. */
  lemma QuoteRoundTrip(path: string)
    ensures path != StdinPath ==> Unquote(QuotedInput(path)) == path
  {
  }

  /** Because the job is rewritten in place, building a second encoder for the
      same job quotes the path again. */
  lemma QuoteNotIdempotent(path: string)
    requires path != StdinPath
    ensures QuotedInput(QuotedInput(path)) != QuotedInput(path)
  {
    assert |QuotedInput(QuotedInput(path))| == |path| + 4;
  }

  /** The QAAC argument string: verbose, the given constant bit rate, quality 2,
      no encoder delay, the output path quoted, the input argument last. */
  function CommandLine(bitrate: int, outputPath: string, input: string): (r: string)
    ensures StartsWith(r, "-i -v " + IntToString(bitrate) + " ")
    ensures Contains(r, " -q 2 --no-delay -o \"" + outputPath + "\" ")
    ensures EndsWith(r, "\" " + input)
  {
    var head := "-i -v " + IntToString(bitrate);
    var middle := " -q 2 --no-delay -o \"" + outputPath + "\" ";
    var r := head + middle + input;
    assert r[..|head + " "|] == head + " ";
    assert r[|head|..|head| + |middle|] == middle;
    assert OccursAt(r, middle, |head|);
    ContainsAt(r, middle);
    assert r[|r| - |"\" " + input|..] == "\" " + input;
    r
  }

  /** A file input reaches the tool as the last argument, in quotes. */
  lemma FileInputQuotedLast(bitrate: int, outputPath: string, path: string)
    requires path != StdinPath
    ensures EndsWith(CommandLine(bitrate, outputPath, QuotedInput(path)), "\"" + path + "\"")
  {
    var r := CommandLine(bitrate, outputPath, QuotedInput(path));
    assert EndsWith(r, "\" " + QuotedInput(path));
    assert QuotedInput(path) == "\"" + path + "\"";
    assert r[|r| - |"\"" + path + "\""|..] == ("\" " + QuotedInput(path))[2..];
  }

  /** Standard input reaches the tool as a bare `-`. */
  lemma StdinInputLast(bitrate: int, outputPath: string)
    ensures EndsWith(CommandLine(bitrate, outputPath, QuotedInput(StdinPath)), "\" -")
  {
  }

  /** A blank line never ends the job. */
  lemma BlankLineNeverFinishes(line: string)
    requires IsBlank(line)
    ensures !LineFinishes(FinishOnMarker(DoneMarker), line)
  {
    BlankContainsNoText(line, DoneMarker, 0);
  }

  /** Draining QAAC output ends the job exactly when some line contains `.done`. */
  lemma DrainFinishesIff(lines: seq<string>)
    ensures LinesFinish(FinishOnMarker(DoneMarker), lines) <==>
            exists i :: 0 <= i < |lines| && Contains(lines[i], DoneMarker)
  {
    LinesFinishIff(FinishOnMarker(DoneMarker), lines);
    if LinesFinish(FinishOnMarker(DoneMarker), lines) {
      var i :| 0 <= i < |lines| && LineFinishes(FinishOnMarker(DoneMarker), lines[i]);
      assert Contains(lines[i], DoneMarker);
    }
    forall i | 0 <= i < |lines| && Contains(lines[i], DoneMarker)
      ensures LineFinishes(FinishOnMarker(DoneMarker), lines[i])
    {
    }
  }

  /** An audio job: the input and output paths. */
  class AudioJob {
    var inputPath: string
    var outputPath: string

    constructor (inputPath: string, outputPath: string)
      ensures this.inputPath == inputPath && this.outputPath == outputPath
    {
      this.inputPath := inputPath;
      this.outputPath := outputPath;
    }
  }

  /** A job handed to the factory: an audio job, or a job of another kind. */
  datatype JobRef = AudioJobRef(job: AudioJob) | OtherJob

  class QAACEncoder {
    /** The job-processor part of the encoder. */
    const base: CommandlineJobProcessor
    /** The argument string fixed at construction. */
    const commandLine: string
    /** The bit rate, output path and input argument it was built from. */
    ghost const bitrate: int
    ghost const outputPath: string
    ghost const inputArgument: string

    /** The encoder's standing configuration: `.done` ends the job, pausing is
        allowed, the exit code is checked, and the processor runs this argument
        string. */
    ghost predicate Valid() {
      base.lineRule == FinishOnMarker(DoneMarker) && base.canPause && base.checkExitCode &&
      base.commandLine == commandLine &&
      commandLine == CommandLine(bitrate, outputPath, inputArgument)
    }

    /** Quotes the job's input path in place (unless it is standard input) and
        fixes the tool and its argument string. Setup binds no task status. */
    constructor (qaacPath: string, j: AudioJob, bitrate: int)
      modifies j
      ensures Valid()
      ensures j.inputPath == QuotedInput(old(j.inputPath)) && j.outputPath == old(j.outputPath)
      ensures commandLine == CommandLine(bitrate, j.outputPath, j.inputPath)
      ensures base.executable == qaacPath && fresh(base)
      ensures base.State() == ProcessorState(Unstarted, None, true, false, false, false, false, false, false, [], 0)
      ensures base.su == null && base.handled == []
    {
      if j.inputPath != StdinPath {
        j.inputPath := "\"" + j.inputPath + "\"";
      }
      var line := CommandLine(bitrate, j.outputPath, j.inputPath);
      commandLine := line;
      this.bitrate := bitrate;
      outputPath := j.outputPath;
      inputArgument := j.inputPath;
      base := new CommandlineJobProcessor(qaacPath, line, FinishOnMarker(DoneMarker), true, true, null, false);
    }

    /** The Commandline property: the stored argument string, the same on every call. */
    function Commandline(): (r: string)
      requires Valid()
      ensures r == base.commandLine
      ensures StartsWith(r, "-i -v " + IntToString(bitrate) + " ")
      ensures EndsWith(r, "\" " + inputArgument)
    {
      commandLine
    }

    /** ProcessLine: a line containing `.done` raises the finish signal; every
        other line, blank or not, changes nothing. */
    method ProcessLine(line: string, str: StreamType)
      requires Valid()
      modifies base
      ensures Contains(line, DoneMarker) ==> base.State() == old(base.State()).(finished := true)
      ensures !Contains(line, DoneMarker) ==> base.State() == old(base.State())
      ensures base.handled == old(base.handled) + [(str, line)] && base.su == old(base.su)
    {
      base.ProcessLine(line, str);
    }

    /** Setup: binds nothing and changes nothing. */
    method Setup(job: JobRef, status: TaskStatus?)
      requires Valid()
      ensures base.State() == old(base.State()) && base.su == old(base.su)
    {
    }
  }

  /** NewQAACEncoder: an encoder when the tool exists and the job is an audio job,
      otherwise null. `fullName` is the tool's full path. */
  method NewQAACEncoder(qaacExists: bool, fullName: string, j: JobRef, bitrate: int)
    returns (e: QAACEncoder?)
    modifies if j.AudioJobRef? then {j.job} else {}
    ensures e != null <==> qaacExists && j.AudioJobRef?
    ensures e != null ==>
      fresh(e) && e.Valid() && e.base.executable == fullName &&
      j.job.inputPath == QuotedInput(old(j.job.inputPath)) &&
      e.commandLine == CommandLine(bitrate, j.job.outputPath, j.job.inputPath)
    ensures e == null && j.AudioJobRef? ==> j.job.inputPath == old(j.job.inputPath)
    ensures j.AudioJobRef? ==> j.job.outputPath == old(j.job.outputPath)
    ensures e != null ==>
      e.base.State() == ProcessorState(Unstarted, None, true, false, false, false, false, false, false, [], 0) &&
      e.base.su == null && e.base.handled == []
  {
    if qaacExists {
      match j
      case AudioJobRef(audio) =>
        e := new QAACEncoder(fullName, audio, bitrate);
        return;
      case OtherJob =>
    }
    e := null;
  }
}
