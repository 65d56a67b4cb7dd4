/** The life cycle shared by every command-line job processor: starting and
    stopping the external tool, the pause gate, the finish signal, process
    priority, the two output readers and the exit handler. The operating-system
    process is reduced to its observable state (`ProcState`); the reader threads
    are run one after the other as explicit calls. */
module JobProcessing {
  import opened Text

  /** Which output of the tool a line came from. */
  datatype StreamType = Stdout | Stderr

  /** The `proc` field. `Unstarted` is a process object that has not been started
      (the field initializer, or a start that threw): asking it whether it has
      exited throws, because no operating-system process is associated with it. */
  datatype ProcState = NoProcess | Unstarted | Running | Exited(exitCode: int)

  /** The priorities a user can choose. */
  datatype ProcessPriority = Idle | BelowNormal | Normal | AboveNormal | High

  /** The operating-system priority classes a process can be given. */
  datatype PriorityClass = IdleClass | BelowNormalClass | NormalClass | AboveNormalClass
                         | HighClass | RealTimeClass

  /** The exceptions the processor raises, each with its own cause. */
  datatype JobError =
    | CannotPause               // Pause on a job that cannot pause
    | CannotResume              // Resume on a job that cannot pause
    | ProcessDoesNotExist       // Stop with no process
    | ProcessAlreadyExited      // Stop on an exited process
    | NotStartedYet             // ChangePriority with no process
    | ProcessHasExited          // ChangePriority on an exited process
    | NoAssociatedProcess       // HasExited asked of a process never started
    | ExitCodeUnavailable       // ExitCode asked of a process that has not exited
    | LaunchFailed              // Process.Start threw
    | NoStatus                  // the task status was never bound (null dereference)
    | WriteFailed               // the temporary file could not be written
    | ReadFailed(message: string) // the output stream threw while reading

  /** How a call ends: normally, blocked on an event nobody will set in a
      sequential run, or with an exception. */
  datatype Outcome = Ok | Blocked | Failed(error: JobError)

  /** How one output reader stops. */
  datatype ReaderEnd = Finished | Waiting | Raised(message: string)

  /** ChangePriority's switch: every choice maps to its own class, and the highest
      choice is the real-time class, never the high class. */
  function PriorityClassOf(p: ProcessPriority): (r: PriorityClass)
    ensures r != HighClass
    ensures p == High <==> r == RealTimeClass
    ensures p == Idle <==> r == IdleClass
    ensures p == Normal <==> r == NormalClass
  {
    match p
    case Idle => IdleClass
    case BelowNormal => BelowNormalClass
    case Normal => NormalClass
    case AboveNormal => AboveNormalClass
    case High => RealTimeClass
  }

  /** Different choices give different priority classes. */
  lemma PriorityClassInjective(p: ProcessPriority, q: ProcessPriority)
    requires PriorityClassOf(p) == PriorityClassOf(q)
    ensures p == q
  {
  }

  /** The exit handler marks the task as failed exactly when exit codes are
      meaningful for the tool, the code is not 0 and the user did not abort. */
  predicate ExitMarksError(checkExitCode: bool, proc: ProcState, wasAborted: bool) {
    checkExitCode && proc.Exited? && proc.exitCode != 0 && !wasAborted
  }

  /** The ways proc_Exited can go, decided by the state it starts in:
      WaitsForReaders: a done flag is unset, so it waits (Blocked in a sequential run);
      CodeUnavailable: the exit code is checked but the process has not exited;
      StatusMissing: there is no task status where one is dereferenced;
      SecondPass: the second pass is started;
      Completes: the task is marked complete. */
  datatype ExitPath = WaitsForReaders | CodeUnavailable | StatusMissing | SecondPass | Completes

  function ExitPathOf(s: ProcessorState, checkExitCode: bool, hasStatus: bool): (path: ExitPath)
    ensures path == WaitsForReaders <==> !(s.stdoutDone && s.stderrDone)
    ensures path == SecondPass ==> s.runSecondTime
    ensures path == Completes ==> hasStatus && !s.runSecondTime
    ensures path == StatusMissing ==> !hasStatus
  {
    if !(s.stdoutDone && s.stderrDone) then WaitsForReaders
    else if checkExitCode && !s.proc.Exited? then CodeUnavailable
    else if !hasStatus && checkExitCode && s.proc.exitCode != 0 then StatusMissing
    else if s.runSecondTime then SecondPass
    else if !hasStatus then StatusMissing
    else Completes
  }

  /** The task status the processor reports to. */
  class TaskStatus {
    var hasError: bool
    var wasAborted: bool
    var isComplete: bool

    constructor ()
      ensures !hasError && !wasAborted && !isComplete
    {
      hasError := false;
      wasAborted := false;
      isComplete := false;
    }

    /** Marks the task complete unless it has already failed or been aborted. */
    method CompleteUnlessEnded()
      modifies this
      ensures isComplete == (old(isComplete) || (!hasError && !wasAborted))
      ensures hasError == old(hasError) && wasAborted == old(wasAborted)
    {
      if !hasError && !wasAborted {
        isComplete := true;
      }
    }

    /** Exactly one of the terminal flags is set. */
    predicate OneTerminalFlag()
      reads this
    {
      (hasError && !wasAborted && !isComplete) ||
      (!hasError && wasAborted && !isComplete) ||
      (!hasError && !wasAborted && isComplete)
    }
  }

  /** What ProcessLine does with a line. `Generic` is the base class: blank lines
      return at once and every other line is dropped too, since its logging is
      disabled. `FinishOnMarker(m)` is an override that signals the end of the job
      when the line contains `m`. */
  datatype LineRule = Generic | FinishOnMarker(marker: string)

  /** Whether handing `line` to ProcessLine sets the finish signal. */
  predicate LineFinishes(rule: LineRule, line: string) {
    rule.FinishOnMarker? && Contains(line, rule.marker)
  }

  /** Whether handing `lines` to ProcessLine, in order, sets the finish signal. */
  predicate LinesFinish(rule: LineRule, lines: seq<string>)
    decreases |lines|
  {
    lines != [] && (LinesFinish(rule, lines[..|lines| - 1]) || LineFinishes(rule, lines[|lines| - 1]))
  }

  /** The finish signal is set exactly when one of the lines finishes. */
  lemma {:induction false} LinesFinishIff(rule: LineRule, lines: seq<string>)
    ensures LinesFinish(rule, lines) <==> exists i :: 0 <= i < |lines| && LineFinishes(rule, lines[i])
    decreases |lines|
  {
    if lines != [] {
      var init := lines[..|lines| - 1];
      LinesFinishIff(rule, init);
      if LinesFinish(rule, init) {
        var i :| 0 <= i < |init| && LineFinishes(rule, init[i]);
        assert lines[i] == init[i];
      }
      forall i | 0 <= i < |init| && LineFinishes(rule, lines[i]) ensures LinesFinish(rule, init) {
        assert init[i] == lines[i];
      }
    }
  }

  /** The base rule never sets the finish signal, whatever the output. */
  lemma GenericNeverFinishes(lines: seq<string>)
    ensures !LinesFinish(Generic, lines)
  {
    LinesFinishIff(Generic, lines);
  }

  /** Reading two pieces of output one after the other finishes exactly when
      either piece does. */
  lemma {:induction false} LinesFinishConcat(rule: LineRule, a: seq<string>, b: seq<string>)
    ensures LinesFinish(rule, a + b) <==> LinesFinish(rule, a) || LinesFinish(rule, b)
    decreases |b|
  {
    if b == [] {
      assert a + b == a;
    } else {
      assert (a + b)[..|a + b| - 1] == a + b[..|b| - 1];
      LinesFinishConcat(rule, a, b[..|b| - 1]);
    }
  }

  /** The fixed text of the report readStream makes when reading throws. */
  const ReadExceptionText := "Exception in readStream. Line cannot be processed. "

  /** The line readStream hands to ProcessLine when reading throws: the fixed text
      followed by the exception's message. */
  function ExceptionLine(message: string): (r: string)
    ensures |r| == |ReadExceptionText| + |message|
    ensures StartsWith(r, ReadExceptionText)
    ensures EndsWith(r, message)
  {
    var r := ReadExceptionText + message;
    assert r[..|ReadExceptionText|] == ReadExceptionText;
    assert r[|r| - |message|..] == message;
    r
  }

  /** What one reader does with an available stream: the lines it hands to
      ProcessLine, whether it sets its done flag, and how it stops. */
  datatype DrainResult = DrainResult(handed: seq<string>, signalsDone: bool, stop: ReaderEnd)

  /** readStream over `lines` ending in `end`, with the pause gate as given. A
      line is read before the gate is consulted, so a closed gate stops the reader
      at the first line; an exception from the stream is reported as one more line
      and the done flag is not set. */
  function Drained(gateOpen: bool, lines: seq<string>, end: StreamEnd): DrainResult {
    if !gateOpen && lines != [] then DrainResult([], false, Waiting)
    else
      match end
      case EndOfStream => DrainResult(lines, true, Finished)
      case ReadFailure(m) => DrainResult(lines + [ExceptionLine(m)], false, Raised(m))
  }

  /** The done flag is set only after a normal end of stream, and then only when
      the reader was not held at the gate. */
  lemma DrainSignalsDoneIff(gateOpen: bool, lines: seq<string>, end: StreamEnd)
    ensures Drained(gateOpen, lines, end).signalsDone <==> end.EndOfStream? && (gateOpen || lines == [])
    ensures Drained(gateOpen, lines, end).signalsDone <==> Drained(gateOpen, lines, end).stop.Finished?
  {
  }

  /** Unless it is held at the gate, the reader hands every line over in stream
      order, followed by the exception report when the stream throws. */
  lemma DrainKeepsOrder(gateOpen: bool, lines: seq<string>, end: StreamEnd)
    requires gateOpen || lines == []
    ensures var d := Drained(gateOpen, lines, end);
      |d.handed| == |lines| + (if end.ReadFailure? then 1 else 0) &&
      d.handed[..|lines|] == lines &&
      (end.ReadFailure? ==> d.handed[|lines|] == ExceptionLine(end.message))
  {
    var d := Drained(gateOpen, lines, end);
    assert d.handed[..|lines|] == lines;
  }

  /** Pairs each line with the stream it came from. */
  function Tagged(str: StreamType, lines: seq<string>): (r: seq<(StreamType, string)>)
    ensures |r| == |lines|
    ensures forall i :: 0 <= i < |lines| ==> r[i] == (str, lines[i])
  {
    seq(|lines|, i requires 0 <= i < |lines| => (str, lines[i]))
  }

  /** Tagging one more line appends one more pair. */
  lemma TaggedSnoc(str: StreamType, lines: seq<string>, line: string)
    ensures Tagged(str, lines + [line]) == Tagged(str, lines) + [(str, line)]
  {
  }

  /** One more line finishes the run exactly when the run so far or the new line does. */
  lemma LinesFinishSnoc(rule: LineRule, lines: seq<string>, line: string)
    ensures LinesFinish(rule, lines + [line]) == (LinesFinish(rule, lines) || LineFinishes(rule, line))
  {
    assert (lines + [line])[..|lines|] == lines;
  }

  /** The processor's own state, as one value. */
  datatype ProcessorState = ProcessorState(
    proc: ProcState,
    priorityClass: Option<PriorityClass>,
    gateOpen: bool,
    finished: bool,
    stdoutDone: bool,
    stderrDone: bool,
    runSecondTime: bool,
    waitForExit: bool,
    isProcessing: bool,
    tempFiles: seq<string>,
    statusUpdates: nat)

  class CommandlineJobProcessor {
    /** The tool's path and its argument string. */
    const executable: string
    const commandLine: string
    /** The ProcessLine override in force. */
    const lineRule: LineRule
    /** The `canPause` and `checkExitCode` properties; both are true unless a
        subclass says otherwise. */
    const canPause: bool
    const checkExitCode: bool

    var proc: ProcState
    /** The priority class last given to the running process, if any. */
    var priorityClass: Option<PriorityClass>
    /** The pause gate: readers wait at it while it is closed. */
    var gateOpen: bool
    /** The finish signal WaitForFinish waits for. */
    var finished: bool
    var stdoutDone: bool
    var stderrDone: bool
    var runSecondTime: bool
    var waitForExit: bool
    var isProcessing: bool
    var tempFiles: seq<string>
    /** How many times StatusUpdate has been raised. */
    var statusUpdates: nat
    /** The task status; it stays null unless the subclass's Setup binds it. */
    var su: TaskStatus?
    /** Every line handed to ProcessLine so far, with its stream. */
    ghost var handled: seq<(StreamType, string)>

    function State(): ProcessorState
      reads this
    {
      ProcessorState(proc, priorityClass, gateOpen, finished, stdoutDone, stderrDone,
                     runSecondTime, waitForExit, isProcessing, tempFiles, statusUpdates)
    }

    /** A fresh processor: an unstarted process object, the gate open, no signal
        set. `status` is what the subclass's Setup binds (null if it binds
        nothing); `runSecondTime` is the subclass's request for a second pass. */
    constructor (executable: string, commandLine: string, lineRule: LineRule,
                 canPause: bool, checkExitCode: bool, status: TaskStatus?, runSecondTime: bool)
      ensures this.executable == executable && this.commandLine == commandLine
      ensures this.lineRule == lineRule && this.canPause == canPause && this.checkExitCode == checkExitCode
      ensures State() == ProcessorState(Unstarted, None, true, false, false, false,
                                        runSecondTime, false, false, [], 0)
      ensures su == status && handled == []
    {
      this.executable := executable;
      this.commandLine := commandLine;
      this.lineRule := lineRule;
      this.canPause := canPause;
      this.checkExitCode := checkExitCode;
      proc := Unstarted;
      priorityClass := None;
      gateOpen := true;
      finished := false;
      stdoutDone := false;
      stderrDone := false;
      this.runSecondTime := runSecondTime;
      waitForExit := false;
      isProcessing := false;
      tempFiles := [];
      statusUpdates := 0;
      su := status;
      handled := [];
    }

    /** writeTempTextFile: the path joins the list only once the file is written. */
    method WriteTempTextFile(filePath: string, writeOk: bool) returns (o: Outcome)
      modifies this
      ensures writeOk ==> o == Ok && State() == old(State()).(tempFiles := old(tempFiles) + [filePath])
      ensures !writeOk ==> o == Failed(WriteFailed) && State() == old(State())
      ensures su == old(su) && handled == old(handled)
    {
      if !writeOk {
        return Failed(WriteFailed);
      }
      tempFiles := tempFiles + [filePath];
      o := Ok;
    }

    /** Start: a new process object replaces the old one and bWaitForExit is
        cleared; when the launch succeeds the process runs and isProcessing is
        set, otherwise the exception propagates. The done flags are not reset. */
    method Start(launchOk: bool) returns (o: Outcome)
      modifies this
      ensures o == (if launchOk then Ok else Failed(LaunchFailed))
      ensures State() == old(State()).(proc := if launchOk then Running else Unstarted, priorityClass := None,
                                       waitForExit := false, isProcessing := old(isProcessing) || launchOk)
      ensures su == old(su) && handled == old(handled)
    {
      proc := Unstarted;
      priorityClass := None;
      waitForExit := false;
      if !launchOk {
        return Failed(LaunchFailed);
      }
      proc := Running;
      isProcessing := true;
      o := Ok;
    }

    /** The tool exits with `code`; nothing happens unless it is running. This is
        the operating system's step, not one of the processor's methods. */
    method ToolExits(code: int)
      modifies this
      ensures old(proc).Running? ==> State() == old(State()).(proc := Exited(code))
      ensures !old(proc).Running? ==> State() == old(State())
      ensures su == old(su) && handled == old(handled)
    {
      if proc.Running? {
        proc := Exited(code);
      }
    }

    /** IsRunning: a process exists and has not exited. Asking a never-started
        process object throws. */
    function IsRunning(): (r: Result<bool, JobError>)
      reads this
      ensures r.Failure? <==> proc.Unstarted?
      ensures r == Success(true) <==> proc.Running?
    {
      match proc
      case NoProcess => Success(false)
      case Unstarted => Failure(NoAssociatedProcess)
      case Running => Success(true)
      case Exited(_) => Success(false)
    }

    /** Stop: on a running process it asks the exit handler to be awaited, opens
        the gate, marks the task as aborted and kills the tool, which exits with
        code -1. It then waits for the exit handler to clear bWaitForExit, so in
        a sequential run it reports Blocked. */
    method Stop() returns (o: Outcome)
      modifies this, su
      ensures old(proc).NoProcess? ==> o == Failed(ProcessDoesNotExist) && State() == old(State())
      ensures old(proc).Unstarted? ==> o == Failed(NoAssociatedProcess) && State() == old(State())
      ensures old(proc).Exited? ==> o == Failed(ProcessAlreadyExited) && State() == old(State())
      ensures old(proc).Running? && su == null ==>
        o == Failed(NoStatus) && State() == old(State()).(waitForExit := true, gateOpen := true)
      ensures old(proc).Running? && su != null ==>
        o == Blocked && su.wasAborted &&
        State() == old(State()).(waitForExit := true, gateOpen := true, proc := Exited(-1))
      ensures su == old(su) && handled == old(handled)
      ensures su != null ==> su.hasError == old(su.hasError) && su.isComplete == old(su.isComplete)
      ensures su != null && !old(proc).Running? ==> su.wasAborted == old(su.wasAborted)
    {
      match proc
      case NoProcess => return Failed(ProcessDoesNotExist);
      case Unstarted => return Failed(NoAssociatedProcess);
      case Exited(_) => return Failed(ProcessAlreadyExited);
      case Running =>
        waitForExit := true;
        gateOpen := true;
        if su == null {
          return Failed(NoStatus);
        }
        su.wasAborted := true;
        proc := Exited(-1);
        o := Blocked;
    }

    /** Pause closes the gate, unless this kind of job cannot pause. */
    method Pause() returns (o: Outcome)
      modifies this
      ensures canPause ==> o == Ok && State() == old(State()).(gateOpen := false)
      ensures !canPause ==> o == Failed(CannotPause) && State() == old(State())
      ensures su == old(su) && handled == old(handled)
    {
      if !canPause {
        return Failed(CannotPause);
      }
      gateOpen := false;
      o := Ok;
    }

    /** Resume opens the gate, unless this kind of job cannot pause. */
    method Resume() returns (o: Outcome)
      modifies this
      ensures canPause ==> o == Ok && State() == old(State()).(gateOpen := true)
      ensures !canPause ==> o == Failed(CannotResume) && State() == old(State())
      ensures su == old(su) && handled == old(handled)
    {
      if !canPause {
        return Failed(CannotResume);
      }
      gateOpen := true;
      o := Ok;
    }

    /** SetFinish raises the finish signal; it is never lowered again. */
    method SetFinish()
      modifies this
      ensures State() == old(State()).(finished := true)
      ensures su == old(su) && handled == old(handled)
    {
      finished := true;
    }

    /** WaitForFinish returns once the finish signal is raised; before that it
        blocks. */
    method WaitForFinish() returns (o: Outcome)
      ensures o == Ok <==> finished
      ensures o != Ok ==> o == Blocked
    {
      o := if finished then Ok else Blocked;
    }

    /** ChangePriority gives a running process the class its choice maps to;
        otherwise it throws, telling a missing process from an exited one. */
    method ChangePriority(priority: ProcessPriority) returns (o: Outcome)
      modifies this
      ensures old(proc).Running? ==>
        o == Ok && State() == old(State()).(priorityClass := Some(PriorityClassOf(priority)))
      ensures old(proc).NoProcess? ==> o == Failed(NotStartedYet) && State() == old(State())
      ensures old(proc).Unstarted? ==> o == Failed(NoAssociatedProcess) && State() == old(State())
      ensures old(proc).Exited? ==> o == Failed(ProcessHasExited) && State() == old(State())
      ensures su == old(su) && handled == old(handled)
    {
      var running := IsRunning();
      match running
      case Failure(e) => return Failed(e);
      case Success(isRunning) =>
        if isRunning {
          priorityClass := Some(PriorityClassOf(priority));
          return Ok;
        }
        if proc.NoProcess? {
          return Failed(NotStartedYet);
        }
        o := Failed(ProcessHasExited);
    }

    /** ProcessLine, with the override in force. */
    method ProcessLine(line: string, str: StreamType)
      modifies this
      ensures handled == old(handled) + [(str, line)]
      ensures finished == (old(finished) || LineFinishes(lineRule, line))
      ensures unchanged(this`proc, this`priorityClass, this`gateOpen, this`stdoutDone, this`stderrDone, this`runSecondTime, this`waitForExit, this`isProcessing, this`tempFiles, this`statusUpdates)
      ensures su == old(su)
    {
      handled := handled + [(str, line)];
      match lineRule
      case Generic =>
        if IsBlank(line) {
          return;
        }
      case FinishOnMarker(m) =>
        if Contains(line, m) {
          SetFinish();
        }
    }

    /** The loop of readStream: each line, in order, goes to ProcessLine. */
    method HandOver(str: StreamType, lines: seq<string>)
      modifies this
      ensures handled == old(handled) + Tagged(str, lines)
      ensures finished == (old(finished) || LinesFinish(lineRule, lines))
      ensures unchanged(this`proc, this`priorityClass, this`gateOpen, this`stdoutDone, this`stderrDone, this`runSecondTime, this`waitForExit, this`isProcessing, this`tempFiles, this`statusUpdates)
      ensures su == old(su)
    {
      for i := 0 to |lines|
        invariant handled == old(handled) + Tagged(str, lines[..i])
        invariant finished == (old(finished) || LinesFinish(lineRule, lines[..i]))
        invariant unchanged(this`proc, this`priorityClass, this`gateOpen, this`stdoutDone, this`stderrDone, this`runSecondTime, this`waitForExit, this`isProcessing, this`tempFiles, this`statusUpdates)
        invariant su == old(su)
      {
        assert lines[..i + 1] == lines[..i] + [lines[i]];
        TaggedSnoc(str, lines[..i], lines[i]);
        LinesFinishSnoc(lineRule, lines[..i], lines[i]);
        ProcessLine(lines[i], str);
      }
      assert lines[..|lines|] == lines;
    }

    /** readStream: hands the lines to ProcessLine in stream order while the gate
        is open, then sets the stream's done flag after a normal end of stream; an
        exception from the stream is reported as one more line and rethrown.
        With no process it does nothing. */
    method ReadStream(str: StreamType, lines: seq<string>, end: StreamEnd) returns (stop: ReaderEnd)
      modifies this
      ensures old(proc).NoProcess? ==> stop == Finished && State() == old(State()) && handled == old(handled)
      ensures !old(proc).NoProcess? ==> stop == Drained(old(gateOpen), lines, end).stop
      ensures !old(proc).NoProcess? ==>
        handled == old(handled) + Tagged(str, Drained(old(gateOpen), lines, end).handed)
      ensures !old(proc).NoProcess? ==>
        finished == (old(finished) || LinesFinish(lineRule, Drained(old(gateOpen), lines, end).handed))
      ensures !old(proc).NoProcess? ==>
        stdoutDone == (old(stdoutDone) || (str == Stdout && Drained(old(gateOpen), lines, end).signalsDone))
      ensures !old(proc).NoProcess? ==>
        stderrDone == (old(stderrDone) || (str == Stderr && Drained(old(gateOpen), lines, end).signalsDone))
      ensures unchanged(this`proc, this`priorityClass, this`gateOpen, this`runSecondTime, this`waitForExit, this`isProcessing, this`tempFiles, this`statusUpdates)
      ensures su == old(su)
    {
      if proc.NoProcess? {
        return Finished;
      }
      if !gateOpen && lines != [] {
        assert Drained(gateOpen, lines, end) == DrainResult([], false, Waiting);
        return Waiting;
      }
      match end
      case EndOfStream =>
        assert Drained(gateOpen, lines, end) == DrainResult(lines, true, Finished);
        HandOver(str, lines);
        if str == Stdout {
          stdoutDone := true;
        } else {
          stderrDone := true;
        }
        stop := Finished;
      case ReadFailure(m) =>
        assert Drained(gateOpen, lines, end) == DrainResult(lines + [ExceptionLine(m)], false, Raised(m));
        HandOver(str, lines + [ExceptionLine(m)]);
        stop := Raised(m);
    }

    /** readStdOut / readStdErr: when the stream cannot be obtained (no process,
        or one never started) the done flag is set at once and nothing is read;
        otherwise the stream is drained. */
    method ReadOutput(str: StreamType, stream: LineStream) returns (stop: ReaderEnd)
      modifies this
      ensures (old(proc).NoProcess? || old(proc).Unstarted? || stream.Unavailable?) ==>
        stop == Finished && handled == old(handled) && finished == old(finished) &&
        stdoutDone == (old(stdoutDone) || str == Stdout) && stderrDone == (old(stderrDone) || str == Stderr)
      ensures (old(proc).Running? || old(proc).Exited?) && stream.Lines? ==>
        stop == Drained(old(gateOpen), stream.lines, stream.end).stop
      ensures (old(proc).Running? || old(proc).Exited?) && stream.Lines? ==>
        handled == old(handled) + Tagged(str, Drained(old(gateOpen), stream.lines, stream.end).handed)
      ensures (old(proc).Running? || old(proc).Exited?) && stream.Lines? ==>
        var d := Drained(old(gateOpen), stream.lines, stream.end);
        finished == (old(finished) || LinesFinish(lineRule, d.handed)) &&
        stdoutDone == (old(stdoutDone) || (str == Stdout && d.signalsDone)) &&
        stderrDone == (old(stderrDone) || (str == Stderr && d.signalsDone))
      ensures unchanged(this`proc, this`priorityClass, this`gateOpen, this`runSecondTime, this`waitForExit, this`isProcessing, this`tempFiles, this`statusUpdates)
      ensures su == old(su)
    {
      if proc.NoProcess? || proc.Unstarted? || stream.Unavailable? {
        if str == Stdout {
          stdoutDone := true;
        } else {
          stderrDone := true;
        }
        return Finished;
      }
      stop := ReadStream(str, stream.lines, stream.end);
    }

    /** The exit-code check of proc_Exited: a meaningful non-zero code marks the
        task as failed unless the user aborted it. */
    method CheckExitCode() returns (o: Outcome)
      modifies su
      ensures checkExitCode && !proc.Exited? ==> o == Failed(ExitCodeUnavailable)
      ensures checkExitCode && proc.Exited? && proc.exitCode != 0 && su == null ==> o == Failed(NoStatus)
      ensures (!checkExitCode || (proc.Exited? && (proc.exitCode == 0 || su != null))) ==> o == Ok
      ensures su != null ==> su.wasAborted == old(su.wasAborted) && su.isComplete == old(su.isComplete)
      ensures su != null ==>
        su.hasError == (old(su.hasError) || ExitMarksError(checkExitCode, proc, old(su.wasAborted)))
    {
      if checkExitCode {
        if !proc.Exited? {
          return Failed(ExitCodeUnavailable);
        }
        if proc.exitCode != 0 {
          if su == null {
            return Failed(NoStatus);
          }
          if !su.wasAborted {
            su.hasError := true;
          }
        }
      }
      o := Ok;
    }

    /** The last part of proc_Exited: the second pass, or completion with one
        StatusUpdate; either way bWaitForExit ends false. */
    method CompleteOrRestart(launchOk: bool) returns (o: Outcome)
      modifies this, su
      ensures su == old(su)
      ensures su != null ==> su.hasError == old(su.hasError) && su.wasAborted == old(su.wasAborted)
      ensures old(runSecondTime) ==>
        o == (if launchOk then Ok else Failed(LaunchFailed)) &&
        (su != null ==> su.isComplete == old(su.isComplete)) &&
        State() == old(State()).(runSecondTime := false, waitForExit := false,
                                 proc := if launchOk then Running else Unstarted, priorityClass := None,
                                 isProcessing := old(isProcessing) || launchOk)
      ensures !old(runSecondTime) && su == null ==> o == Failed(NoStatus) && State() == old(State())
      ensures !old(runSecondTime) && su != null ==>
        o == Ok && su.isComplete &&
        State() == old(State()).(waitForExit := false, statusUpdates := old(statusUpdates) + 1)
    {
      if runSecondTime {
        runSecondTime := false;
        o := Start(launchOk);
        return;
      }
      if su == null {
        return Failed(NoStatus);
      }
      su.isComplete := true;
      statusUpdates := statusUpdates + 1;
      waitForExit := false;
      o := Ok;
    }

    /** proc_Exited: opens the gate, waits for both readers, marks the task as
        failed when ExitMarksError holds, then either starts the second pass or
        marks the task complete and raises StatusUpdate once; bWaitForExit ends
        false. The path it takes is ExitPathOf the state it starts in. */
    method ProcExited(launchOk: bool) returns (o: Outcome)
      modifies this, su
      ensures su == old(su)
      ensures ExitPathOf(old(State()), checkExitCode, su != null) == WaitsForReaders ==> o == Blocked
      ensures ExitPathOf(old(State()), checkExitCode, su != null) == CodeUnavailable ==>
        o == Failed(ExitCodeUnavailable)
      ensures ExitPathOf(old(State()), checkExitCode, su != null) == StatusMissing ==> o == Failed(NoStatus)
      ensures ExitPathOf(old(State()), checkExitCode, su != null) == SecondPass ==>
        o == (if launchOk then Ok else Failed(LaunchFailed))
      ensures ExitPathOf(old(State()), checkExitCode, su != null) == Completes ==> o == Ok
      ensures su != null ==> su.wasAborted == old(su.wasAborted)
      ensures su != null ==>
        su.hasError == (old(su.hasError) ||
                        (old(stdoutDone && stderrDone) && ExitMarksError(checkExitCode, old(proc), old(su.wasAborted))))
      ensures su != null ==>
        su.isComplete == (old(su.isComplete) || ExitPathOf(old(State()), checkExitCode, true) == Completes)
      ensures ExitPathOf(old(State()), checkExitCode, su != null) in {WaitsForReaders, CodeUnavailable, StatusMissing} ==>
        State() == old(State()).(gateOpen := true)
      ensures ExitPathOf(old(State()), checkExitCode, su != null) == SecondPass ==>
        State() == old(State()).(gateOpen := true, runSecondTime := false, waitForExit := false,
                                 proc := if launchOk then Running else Unstarted, priorityClass := None,
                                 isProcessing := old(isProcessing) || launchOk)
      ensures ExitPathOf(old(State()), checkExitCode, su != null) == Completes ==>
        State() == old(State()).(gateOpen := true, waitForExit := false, statusUpdates := old(statusUpdates) + 1)
    {
      gateOpen := true;
      if !(stdoutDone && stderrDone) {
        return Blocked;
      }
      o := CheckExitCode();
      if o.Failed? {
        return;
      }
      o := CompleteOrRestart(launchOk);
    }

    /** The completion step with the terminal flags kept exclusive: IsComplete is
        set only when the run neither failed nor was aborted. */
    method CompleteOrRestartExclusive(launchOk: bool) returns (o: Outcome)
      modifies this, su
      ensures su == old(su)
      ensures su != null ==> su.hasError == old(su.hasError) && su.wasAborted == old(su.wasAborted)
      ensures old(runSecondTime) ==> o == (if launchOk then Ok else Failed(LaunchFailed))
      ensures old(runSecondTime) && su != null ==> su.isComplete == old(su.isComplete)
      ensures old(runSecondTime) ==>
        State() == old(State()).(runSecondTime := false, waitForExit := false,
                                 proc := if launchOk then Running else Unstarted, priorityClass := None,
                                 isProcessing := old(isProcessing) || launchOk)
      ensures !old(runSecondTime) && su == null ==> o == Failed(NoStatus) && State() == old(State())
      ensures !old(runSecondTime) && su != null ==> o == Ok
      ensures !old(runSecondTime) && su != null ==>
        su.isComplete == (old(su.isComplete) || (!su.hasError && !su.wasAborted))
      ensures !old(runSecondTime) && su != null ==>
        State() == old(State()).(waitForExit := false, statusUpdates := old(statusUpdates) + 1)
    {
      if runSecondTime {
        runSecondTime := false;
        o := Start(launchOk);
        return;
      }
      if su == null {
        return Failed(NoStatus);
      }
      su.CompleteUnlessEnded();
      statusUpdates := statusUpdates + 1;
      waitForExit := false;
      o := Ok;
    }

    /** proc_Exited with the terminal flags kept exclusive: it takes the same
        paths as ProcExited, and a run that completes from a status with no
        error and no completion set ends with exactly one terminal flag. */
    method ProcExitedExclusive(launchOk: bool) returns (o: Outcome)
      modifies this, su
      ensures su == old(su)
      ensures ExitPathOf(old(State()), checkExitCode, su != null) == WaitsForReaders ==> o == Blocked
      ensures ExitPathOf(old(State()), checkExitCode, su != null) == CodeUnavailable ==>
        o == Failed(ExitCodeUnavailable)
      ensures ExitPathOf(old(State()), checkExitCode, su != null) == StatusMissing ==> o == Failed(NoStatus)
      ensures ExitPathOf(old(State()), checkExitCode, su != null) == SecondPass ==>
        o == (if launchOk then Ok else Failed(LaunchFailed))
      ensures ExitPathOf(old(State()), checkExitCode, su != null) == Completes ==> o == Ok
      ensures su != null ==> su.wasAborted == old(su.wasAborted)
      ensures su != null ==>
        su.hasError == (old(su.hasError) ||
                        (old(stdoutDone && stderrDone) && ExitMarksError(checkExitCode, old(proc), old(su.wasAborted))))
      ensures su != null && ExitPathOf(old(State()), checkExitCode, true) == Completes ==>
        su.isComplete == (old(su.isComplete) || (!su.hasError && !su.wasAborted))
      ensures ExitPathOf(old(State()), checkExitCode, su != null) in {WaitsForReaders, CodeUnavailable, StatusMissing} ==>
        State() == old(State()).(gateOpen := true)
      ensures ExitPathOf(old(State()), checkExitCode, su != null) == SecondPass ==>
        State() == old(State()).(gateOpen := true, runSecondTime := false, waitForExit := false,
                                 proc := if launchOk then Running else Unstarted, priorityClass := None,
                                 isProcessing := old(isProcessing) || launchOk)
      ensures ExitPathOf(old(State()), checkExitCode, su != null) == Completes ==>
        State() == old(State()).(gateOpen := true, waitForExit := false, statusUpdates := old(statusUpdates) + 1)
      ensures (su != null && ExitPathOf(old(State()), checkExitCode, true) == Completes &&
               !old(su.hasError) && !old(su.isComplete)) ==> su.OneTerminalFlag()
      ensures su != null && ExitPathOf(old(State()), checkExitCode, true) != Completes ==>
        su.isComplete == old(su.isComplete)
    {
      gateOpen := true;
      if !(stdoutDone && stderrDone) {
        return Blocked;
      }
      o := CheckExitCode();
      if o.Failed? {
        return;
      }
      o := CompleteOrRestartExclusive(launchOk);
    }
  }

  /** As written, a checked non-zero exit of a job that was not aborted leaves
      the status both failed and complete. */
  method ErrorExitAlsoCompletes() returns (status: TaskStatus)
    ensures status.hasError && status.isComplete && !status.wasAborted
  {
    status := new TaskStatus();
    var p := new CommandlineJobProcessor("tool", "", Generic, true, true, status, false);
    var o := p.Start(true);
    p.ToolExits(1);
    var e := p.ReadOutput(Stdout, Lines([], EndOfStream));
    e := p.ReadOutput(Stderr, Lines([], EndOfStream));
    o := p.ProcExited(true);
  }

  /** As written, a stopped job that then exits is both aborted and complete. */
  method AbortAlsoCompletes() returns (status: TaskStatus)
    ensures status.wasAborted && status.isComplete && !status.hasError
  {
    status := new TaskStatus();
    var p := new CommandlineJobProcessor("tool", "", Generic, true, true, status, false);
    var o := p.Start(true);
    o := p.Stop();
    var e := p.ReadOutput(Stdout, Lines([], EndOfStream));
    e := p.ReadOutput(Stderr, Lines([], EndOfStream));
    o := p.ProcExited(true);
  }

  /** With the exclusive exit handler, the failed run is only failed. */
  method ErrorExitOnlyFails() returns (status: TaskStatus)
    ensures status.hasError && !status.isComplete && status.OneTerminalFlag()
  {
    status := new TaskStatus();
    var p := new CommandlineJobProcessor("tool", "", Generic, true, true, status, false);
    var o := p.Start(true);
    p.ToolExits(1);
    var e := p.ReadOutput(Stdout, Lines([], EndOfStream));
    e := p.ReadOutput(Stderr, Lines([], EndOfStream));
    o := p.ProcExitedExclusive(true);
  }

  /** With the exclusive exit handler, the stopped run is only aborted. */
  method AbortOnlyAborts() returns (status: TaskStatus)
    ensures status.wasAborted && !status.isComplete && status.OneTerminalFlag()
  {
    status := new TaskStatus();
    var p := new CommandlineJobProcessor("tool", "", Generic, true, true, status, false);
    var o := p.Start(true);
    o := p.Stop();
    var e := p.ReadOutput(Stdout, Lines([], EndOfStream));
    e := p.ReadOutput(Stderr, Lines([], EndOfStream));
    o := p.ProcExitedExclusive(true);
  }
}
