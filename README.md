# OKEGui job processors, modelled in Dafny

OKEGui drives external command-line tools to encode and mux video releases.
This project models three parts of it:

- **AutoMuxer** (module `Muxer`, `muxer.dfy`) is the muxer front end. It:
  - sorts the input files of an episode by extension into video, audio, chapter and subtitle;
  - sums the sizes of the media files;
  - picks Matroska or MP4 output from the output file's extension;
  - builds the argument strings for mkvmerge or the MP4 muxer;
  - reads the tool's output lines as progress reports or completion.
- **CommandlineJobProcessor** (module `JobProcessing`, `job_processor.dfy`) is the life cycle every
  command-line encoder shares. It covers:
  - start and stop;
  - the pause gate the output readers wait at;
  - the finish signal;
  - process priority;
  - the two output readers;
  - the exit handler, which decides error, completion or a second pass;
  - the list of temporary files.
- **QAACEncoder** (module `Qaac`, `qaac.dfy`) is the AAC encoder job. It quotes the input path in place,
  fixes the QAAC command line, and ends the job when an output line contains `.done`.

Module `Text` (`text.dfy`) holds the .NET string operations these rely on. They are:

- ordinal `Contains`;
- ASCII `ToLower`;
- `Path.GetExtension`;
- `String.Join`;
- `Trim` emptiness;
- decimal rendering;
- a digit scanner that stands in for the two progress regular expressions.

The operating-system process is reduced to its state, in `ProcState`:

- `NoProcess` means null.
- `Unstarted` is a process object that was never started. Asking it `HasExited` throws.
- `Running` is a started process.
- `Exited(code)` is a process that has exited with `code`.

Exceptions become `Outcome.Failed` or `Result.Failure` values. A wait on an event that nothing will set in a
sequential run becomes `Blocked`. The output readers run one after the other, as explicit calls, and receive
their lines as a `LineStream`. File existence and sizes are inputs (`InputFile`). Event subscribers are
recorded as a sequence of reports (`progressReports`) or a call count (`statusUpdates`).

The model makes two consequences of the code explicit:

- **Base processor.** The task status `su` is only bound by a subclass's `Setup`, and QAAC's `Setup` is empty.
  So for a QAAC encoder, `Stop` on a running process and the exit handler on its completion path both
  dereference a null status. The model reports this as `Failed(NoStatus)`.
- **AutoMuxer.** With a total size of 0, an MP4 byte count above 0 reports +infinity. A byte count of 0 gives
  NaN, which is not above -1, so it is not reported.

## Model

| member | source | states |
|---|---|---|
| Muxer.KindIgnoresCase | OKEGui/OKEGui/JobProcessor/Muxer/AutoMuxer.cs:87-110 | an input's classification does not depend on the case of its name |
| Muxer.FlacIsAudio | OKEGui/OKEGui/JobProcessor/Muxer/AutoMuxer.cs:79-93 | an existing file named `*.FLAC` is sorted into the audio list, whatever the case of the extension |
| Muxer.OutputTypeIgnoresCase | OKEGui/OKEGui/JobProcessor/Muxer/AutoMuxer.cs:114-126 | `.mkv`/`.mp4` are recognised whatever their case |
| Muxer.NamesOfKindMembers | OKEGui/OKEGui/JobProcessor/Muxer/AutoMuxer.cs:89-110 | a name is in the audio (subtitle) list exactly when some present input of that kind has it |
| Muxer.NamesOfKindConcat | OKEGui/OKEGui/JobProcessor/Muxer/AutoMuxer.cs:89-94 | the audio and subtitle lists keep input order: the list of a concatenation is the concatenation of the lists |
| Muxer.LastOfKindConcat | OKEGui/OKEGui/JobProcessor/Muxer/AutoMuxer.cs:95-105 | a later video (chapter) file replaces an earlier one |
| Muxer.LastOfKindNone | OKEGui/OKEGui/JobProcessor/Muxer/AutoMuxer.cs:95-105 | there is no video (chapter) file exactly when no input has that kind |
| Muxer.LastOfKindIsLast | OKEGui/OKEGui/JobProcessor/Muxer/AutoMuxer.cs:95-105 | the chosen video (chapter) file is an input of its kind with no input of that kind after it |
| Muxer.MediaSizeConcat | OKEGui/OKEGui/JobProcessor/Muxer/AutoMuxer.cs:92-98 | the total size is additive over the input list |
| Muxer.InsertedFileEffect | OKEGui/OKEGui/JobProcessor/Muxer/AutoMuxer.cs:79-110 | one input adds its length only when it is audio or video, is appended to its own kind's list only, and changes no other kind's last file |
| Muxer.MissingInputSkipped | OKEGui/OKEGui/JobProcessor/Muxer/AutoMuxer.cs:79-85 | a missing input changes nothing in the episode, wherever it stands |
| Muxer.GenerateEpisode | OKEGui/OKEGui/JobProcessor/Muxer/AutoMuxer.cs:61-128 | the loop builds exactly the episode of the specification function, or fails on a bad output extension |
| Muxer.TrackOrderDistinct | OKEGui/OKEGui/JobProcessor/Muxer/AutoMuxer.cs:143-156 | every file gets its own `--track-order` entry |
| Muxer.MkvLayout | OKEGui/OKEGui/JobProcessor/Muxer/AutoMuxer.cs:130-165 | the mkvmerge parameters, in order: output, video with language `und`, audio and subtitles with their languages, chapters when present, track order 0..n-1 |
| Muxer.MkvOnlyChaptersSlot | OKEGui/OKEGui/JobProcessor/Muxer/AutoMuxer.cs:140-164 | no parameter other than the one after the subtitles can be a `--chapters` argument |
| Muxer.TrackNotChapters | OKEGui/OKEGui/JobProcessor/Muxer/AutoMuxer.cs:142-157 | a track argument is never a `--chapters` argument |
| Muxer.MkvChaptersIffChapterFile | OKEGui/OKEGui/JobProcessor/Muxer/AutoMuxer.cs:160 | a `--chapters` argument appears if and only if there is a chapter file |
| Muxer.MkvArgumentsEnds | OKEGui/OKEGui/JobProcessor/Muxer/AutoMuxer.cs:140-164 | the joined string starts with `--output ` and ends with the track order |
| Muxer.AppendTracks | OKEGui/OKEGui/JobProcessor/Muxer/AutoMuxer.cs:145-157 | each audio (subtitle) file appends its track argument and the next track-order entry, in file order |
| Muxer.GenerateMkvMergeParameter | OKEGui/OKEGui/JobProcessor/Muxer/AutoMuxer.cs:130-165 | the loops with the running `fileID` produce the specified parameter list, joined with spaces |
| Muxer.Mp4AudioFilesMembers | OKEGui/OKEGui/JobProcessor/Muxer/AutoMuxer.cs:176-183 | an audio file reaches the MP4 muxer if and only if its extension is `.aac`, `.m4a` or `.ac3` |
| Muxer.Mp4AudioFilesConcat | OKEGui/OKEGui/JobProcessor/Muxer/AutoMuxer.cs:176-183 | the MP4 audio filter keeps input order |
| Muxer.Mp4DropsLosslessAudio | OKEGui/OKEGui/JobProcessor/Muxer/AutoMuxer.cs:179 | `.flac`, `.wav` and `.thd` audio never reaches the MP4 muxer |
| Muxer.Mp4Layout | OKEGui/OKEGui/JobProcessor/Muxer/AutoMuxer.cs:167-188 | the MP4 parameters, in order: format, chapter when present, video with fps, compatible audio with language, output |
| Muxer.Mp4OnlyChapterSlot | OKEGui/OKEGui/JobProcessor/Muxer/AutoMuxer.cs:170-187 | no parameter other than the second can be a `--chapter` argument |
| Muxer.Mp4AudioNotChapter | OKEGui/OKEGui/JobProcessor/Muxer/AutoMuxer.cs:176-183 | an audio argument is never a `--chapter` argument |
| Muxer.Mp4ChapterIffChapterFile | OKEGui/OKEGui/JobProcessor/Muxer/AutoMuxer.cs:172 | a `--chapter` argument appears if and only if there is a chapter file |
| Muxer.Mp4ArgumentsEnds | OKEGui/OKEGui/JobProcessor/Muxer/AutoMuxer.cs:170-187 | the joined string starts with `--file-format mp4` and ends with the output |
| Muxer.AppendMp4Audio | OKEGui/OKEGui/JobProcessor/Muxer/AutoMuxer.cs:176-183 | the loop appends an argument for exactly the compatible audio files, in order |
| Muxer.GenerateMp4MergeParameter | OKEGui/OKEGui/JobProcessor/Muxer/AutoMuxer.cs:167-188 | the filtering loop produces the specified parameter list, joined with spaces |
| Muxer.ClassifyMkvLine | OKEGui/OKEGui/JobProcessor/Muxer/AutoMuxer.cs:232-243 | completion exactly when the line has no `Progress: ` but has `Muxing took` or `Multiplexing took`; nothing exactly when it has none of the three; progress is never negative |
| Muxer.ClassifyMp4Line | OKEGui/OKEGui/JobProcessor/Muxer/AutoMuxer.cs:245-256 | completion exactly when the line has no `Importing: ` but has `Muxing completed`; an infinite report only over a total size of 0; progress is never negative |
| Muxer.ImportedShare | OKEGui/OKEGui/JobProcessor/Muxer/AutoMuxer.cs:250 | a positive total gives a report whose percentage times the total is 100 times the imported bytes; a total of 0 gives +infinity for a positive count and NaN, never reported, for 0 |
| Muxer.MkvMatchedLine | OKEGui/OKEGui/JobProcessor/Muxer/AutoMuxer.cs:233-237 | a line whose leftmost `Progress: (\d*?)%` match has the digits ds reads as ds percent, or fails to parse when ds is empty |
| Muxer.MkvLineSource | OKEGui/OKEGui/JobProcessor/Muxer/AutoMuxer.cs:233-237 | every mkvmerge report and parse failure comes from the leftmost match, with its digits; the reader stops exactly when the line holds `Progress: ` but no digit string completes the pattern anywhere |
| Muxer.Mp4MatchedLine | OKEGui/OKEGui/JobProcessor/Muxer/AutoMuxer.cs:246-250 | a line whose leftmost `Importing: (\d*?) bytes` match has the digits ds reads as ds bytes' share of the total, or fails to parse when ds is empty |
| Muxer.Mp4LineSource | OKEGui/OKEGui/JobProcessor/Muxer/AutoMuxer.cs:246-250 | every mp4 report, infinite share and parse failure comes from the leftmost match, with its digits; the reader stops exactly when the line holds `Importing: ` but no digit string completes the pattern anywhere |
| Muxer.ClassifyLine | OKEGui/OKEGui/JobProcessor/Muxer/AutoMuxer.cs:230-257 | the rules follow the output type; progress is never negative |
| Muxer.MkvProgressRoundTrip | OKEGui/OKEGui/JobProcessor/Muxer/AutoMuxer.cs:233-237 | `Progress: N%` is read back as N percent |
| Muxer.Mp4ProgressRoundTrip | OKEGui/OKEGui/JobProcessor/Muxer/AutoMuxer.cs:246-250 | `Importing: N bytes` is read back as N / total * 100 for every N, 0 included, when the total size is not 0 |
| Muxer.MkvProgressExample | OKEGui/OKEGui/JobProcessor/Muxer/AutoMuxer.cs:233-237 | `Progress: 42%` reads as 42 percent |
| Muxer.DrainConcat | OKEGui/OKEGui/JobProcessor/Muxer/AutoMuxer.cs:223-262 | reading lines is a left fold: reading a + b is reading b after a |
| Muxer.HaltIsFinal | OKEGui/OKEGui/JobProcessor/Muxer/AutoMuxer.cs:236-267 | once the reader has returned or thrown, later lines change nothing |
| Muxer.IgnoredLineChangesNothing | OKEGui/OKEGui/JobProcessor/Muxer/AutoMuxer.cs:228-261 | a line that is neither progress nor completion has no effect wherever it stands |
| Muxer.ReportsNonNegative | OKEGui/OKEGui/JobProcessor/Muxer/AutoMuxer.cs:258-261 | every finite progress value reported is at least 0 |
| Muxer.MkvProgressThenCompletion | OKEGui/OKEGui/JobProcessor/Muxer/AutoMuxer.cs:232-261 | a progress line then a completion line give one report and the completion signal |
| Muxer.LaunchFor | OKEGui/OKEGui/JobProcessor/Muxer/AutoMuxer.cs:311-322 | Mkv launches the mkvmerge path with `--output ...` arguments, Mp4 the MP4 muxer path with `--file-format mp4 ...` |
| Muxer.AutoMuxer.constructor | OKEGui/OKEGui/JobProcessor/Muxer/AutoMuxer.cs:55-59 | stores the two tool paths; nothing reported yet |
| Muxer.AutoMuxer.StartMerge | OKEGui/OKEGui/JobProcessor/Muxer/AutoMuxer.cs:300-324 | a bad output extension throws and leaves the episode unchanged; otherwise the episode is stored and the chosen tool and arguments are launched |
| Muxer.AutoMuxer.ReadStream | OKEGui/OKEGui/JobProcessor/Muxer/AutoMuxer.cs:216-268 | reports and completion are those of the fold over the lines; the reader returns on a failed match and throws on an empty number or a stream error |
| Muxer.AutoMuxer.ReadOutput | OKEGui/OKEGui/JobProcessor/Muxer/AutoMuxer.cs:270-298 | a stream that cannot be obtained is not read; otherwise as ReadStream |
| JobProcessing.PriorityClassOf | OKEGui/OKEGui/JobProcessor/CommandlineJobProcessor.cs:240-261 | HIGH maps to RealTime, and no choice maps to the High class |
| JobProcessing.PriorityClassInjective | OKEGui/OKEGui/JobProcessor/CommandlineJobProcessor.cs:240-261 | different choices give different classes |
| JobProcessing.LinesFinishIff | OKEGui/OKEGui/JobProcessor/CommandlineJobProcessor.cs:303-309 | reading lines raises the finish signal exactly when one of them does |
| JobProcessing.GenericNeverFinishes | OKEGui/OKEGui/JobProcessor/CommandlineJobProcessor.cs:352-364 | the base ProcessLine never raises the finish signal |
| JobProcessing.LinesFinishConcat | OKEGui/OKEGui/JobProcessor/CommandlineJobProcessor.cs:303-309 | reading two pieces finishes exactly when either piece does |
| JobProcessing.LinesFinishSnoc | OKEGui/OKEGui/JobProcessor/CommandlineJobProcessor.cs:303-309 | one more line finishes the run exactly when the run so far or that line does |
| JobProcessing.ExceptionLine | OKEGui/OKEGui/JobProcessor/CommandlineJobProcessor.cs:313 | the report of a read failure starts with the fixed text and ends with the exception's message |
| JobProcessing.DrainSignalsDoneIff | OKEGui/OKEGui/JobProcessor/CommandlineJobProcessor.cs:303-316 | the done flag is set exactly after a normal end of stream not held at the gate, and exactly when the reader finishes |
| JobProcessing.DrainKeepsOrder | OKEGui/OKEGui/JobProcessor/CommandlineJobProcessor.cs:303-314 | unless held at the gate, every line is handed on in order, then the failure report when the stream throws |
| JobProcessing.TaskStatus.constructor | OKEGui/OKEGui/JobProcessor/CommandlineJobProcessor.cs:24 | a fresh status has no flag set |
| JobProcessing.CommandlineJobProcessor.constructor | OKEGui/OKEGui/JobProcessor/CommandlineJobProcessor.cs:15-29 | an unstarted process object, the gate open, no signal, no temporary files |
| JobProcessing.CommandlineJobProcessor.WriteTempTextFile | OKEGui/OKEGui/JobProcessor/CommandlineJobProcessor.cs:39-49 | the path is appended to the list after a successful write and nothing else changes; nothing changes when the write fails |
| JobProcessing.CommandlineJobProcessor.Start | OKEGui/OKEGui/JobProcessor/CommandlineJobProcessor.cs:132-169 | a new process object, bWaitForExit cleared, and on success running with isProcessing set; the launch failure is rethrown |
| JobProcessing.CommandlineJobProcessor.IsRunning | OKEGui/OKEGui/JobProcessor/CommandlineJobProcessor.cs:229-232 | true exactly for a running process; throws for a process object never started |
| JobProcessing.CommandlineJobProcessor.Stop | OKEGui/OKEGui/JobProcessor/CommandlineJobProcessor.cs:171-201 | no process: "does not exist"; exited: "already existed"; never started: HasExited throws; on these paths nothing changes, the status included; running: bWaitForExit set, gate opened, aborted marked, process killed, then waits |
| JobProcessing.CommandlineJobProcessor.Pause | OKEGui/OKEGui/JobProcessor/CommandlineJobProcessor.cs:203-209 | throws when the job cannot pause, otherwise closes the gate and changes nothing else |
| JobProcessing.CommandlineJobProcessor.Resume | OKEGui/OKEGui/JobProcessor/CommandlineJobProcessor.cs:211-217 | throws when the job cannot pause, otherwise opens the gate and changes nothing else |
| JobProcessing.CommandlineJobProcessor.SetFinish | OKEGui/OKEGui/JobProcessor/CommandlineJobProcessor.cs:224-227 | raises the finish signal and nothing else |
| JobProcessing.CommandlineJobProcessor.WaitForFinish | OKEGui/OKEGui/JobProcessor/CommandlineJobProcessor.cs:219-222 | returns exactly when the finish signal is raised, and blocks otherwise |
| JobProcessing.CommandlineJobProcessor.ChangePriority | OKEGui/OKEGui/JobProcessor/CommandlineJobProcessor.cs:234-280 | a running process gets the mapped class; otherwise "not been started yet" or "has exited" |
| JobProcessing.CommandlineJobProcessor.ProcessLine | OKEGui/OKEGui/JobProcessor/CommandlineJobProcessor.cs:352-364 | the line is recorded and changes nothing except the finish signal, which the override decides |
| JobProcessing.CommandlineJobProcessor.HandOver | OKEGui/OKEGui/JobProcessor/CommandlineJobProcessor.cs:303-309 | every line goes to ProcessLine, in order |
| JobProcessing.CommandlineJobProcessor.ReadStream | OKEGui/OKEGui/JobProcessor/CommandlineJobProcessor.cs:296-318 | the lines handed on, the done flag and how the reader stops are those of the drain function; with no process nothing happens |
| JobProcessing.CommandlineJobProcessor.ReadOutput | OKEGui/OKEGui/JobProcessor/CommandlineJobProcessor.cs:320-350 | when the stream cannot be obtained the done flag is set at once; otherwise as ReadStream |
| JobProcessing.CommandlineJobProcessor.CheckExitCode | OKEGui/OKEGui/JobProcessor/CommandlineJobProcessor.cs:99-112 | HasError is set exactly when checkExitCode, a non-zero code and not aborted; WasAborted and IsComplete never change; reading the code of a process that has not exited throws |
| JobProcessing.ExitPathOf | OKEGui/OKEGui/JobProcessor/CommandlineJobProcessor.cs:92-125 | the exit handler waits exactly when a done flag is unset; it restarts only with the second-run flag set, completes only with a status and no second run, and reports a missing status only without one |
| JobProcessing.CommandlineJobProcessor.CompleteOrRestart | OKEGui/OKEGui/JobProcessor/CommandlineJobProcessor.cs:113-125 | a pending second run is started once; otherwise IsComplete is set with one StatusUpdate, or a null status fails; bWaitForExit ends false |
| JobProcessing.CommandlineJobProcessor.ProcExited | OKEGui/OKEGui/JobProcessor/CommandlineJobProcessor.cs:92-126 | for each path ExitPathOf gives, the outcome and the whole new state: it opens the gate, blocks until both readers are done, sets HasError as ExitMarksError says, then either clears the second-run flag and starts again, or sets IsComplete with exactly one StatusUpdate and bWaitForExit false; a missing status fails with the state otherwise unchanged |
| JobProcessing.TaskStatus.CompleteUnlessEnded | OKEGui/OKEGui/JobProcessor/CommandlineJobProcessor.cs:118-122 | the corrected completion step: IsComplete is set unless the task has failed or been aborted; the other flags are kept |
| JobProcessing.CommandlineJobProcessor.CompleteOrRestartExclusive | OKEGui/OKEGui/JobProcessor/CommandlineJobProcessor.cs:113-125 | as CompleteOrRestart, except that IsComplete is set only when the task has neither failed nor been aborted |
| JobProcessing.CommandlineJobProcessor.ProcExitedExclusive | OKEGui/OKEGui/JobProcessor/CommandlineJobProcessor.cs:92-126 | the paths, outcomes and whole new state of ProcExited; on a completing run IsComplete is set only without an error or an abort, so a run from a status with no error and no completion ends with exactly one terminal flag |
| JobProcessing.ErrorExitAlsoCompletes | OKEGui/OKEGui/JobProcessor/CommandlineJobProcessor.cs:99-125 | a started job whose tool exits with code 1 ends with HasError and IsComplete both set |
| JobProcessing.AbortAlsoCompletes | OKEGui/OKEGui/JobProcessor/CommandlineJobProcessor.cs:171-201 | a started job that is stopped and then handled by proc_Exited ends with WasAborted and IsComplete both set |
| JobProcessing.ErrorExitOnlyFails | OKEGui/OKEGui/JobProcessor/CommandlineJobProcessor.cs:99-125 | with the exclusive handler, the same failing run ends failed and not complete |
| JobProcessing.AbortOnlyAborts | OKEGui/OKEGui/JobProcessor/CommandlineJobProcessor.cs:171-201 | with the exclusive handler, the same stopped run ends aborted and not complete |
| Qaac.QuotedInput | OKEGui/OKEGui/JobProcessor/Audio/QAACEncoder.cs:31-35 | `-` is left as it is; any other path is wrapped in double quotes |
| Qaac.QuoteRoundTrip | OKEGui/OKEGui/JobProcessor/Audio/QAACEncoder.cs:31-35 | unquoting gives back the original path |
| Qaac.QuoteNotIdempotent | OKEGui/OKEGui/JobProcessor/Audio/QAACEncoder.cs:31-35 | quoting an already quoted path adds another pair of quotes |
| Qaac.CommandLine | OKEGui/OKEGui/JobProcessor/Audio/QAACEncoder.cs:38 | starts with `-i -v {bitrate} `, contains ` -q 2 --no-delay -o "{output}" ` and ends with the input argument |
| Qaac.FileInputQuotedLast | OKEGui/OKEGui/JobProcessor/Audio/QAACEncoder.cs:31-38 | a file input is the quoted last argument |
| Qaac.StdinInputLast | OKEGui/OKEGui/JobProcessor/Audio/QAACEncoder.cs:31-38 | standard input is a bare `-` at the end |
| Qaac.BlankLineNeverFinishes | OKEGui/OKEGui/JobProcessor/Audio/QAACEncoder.cs:44-47 | a blank line never ends the job |
| Qaac.DrainFinishesIff | OKEGui/OKEGui/JobProcessor/Audio/QAACEncoder.cs:44-47 | reading QAAC output ends the job exactly when some line contains `.done` |
| Qaac.AudioJob.constructor | OKEGui/OKEGui/JobProcessor/Audio/QAACEncoder.cs:29 | an audio job with its two paths |
| Qaac.QAACEncoder.constructor | OKEGui/OKEGui/JobProcessor/Audio/QAACEncoder.cs:29-39 | the job's input path is quoted in place, the executable is the QAAC path, the command line is the template |
| Qaac.QAACEncoder.Commandline | OKEGui/OKEGui/JobProcessor/Audio/QAACEncoder.cs:54-59 | the stored template, the same on every call |
| Qaac.QAACEncoder.ProcessLine | OKEGui/OKEGui/JobProcessor/Audio/QAACEncoder.cs:41-48 | raises the finish signal if and only if the line contains `.done`; nothing else changes |
| Qaac.QAACEncoder.Setup | OKEGui/OKEGui/JobProcessor/Audio/QAACEncoder.cs:50-52 | changes nothing |
| Qaac.NewQAACEncoder | OKEGui/OKEGui/JobProcessor/Audio/QAACEncoder.cs:11-23 | an encoder exactly when the tool exists and the job is an audio job, with the input path quoted, the output path kept and a fresh unstarted processor with no status; otherwise null and the job untouched |
| Text.GetExtensionShape | OKEGui/OKEGui/JobProcessor/Muxer/AutoMuxer.cs:87 | an extension is empty, or a '.' and at least one more character that end the path, with no '.' or separator after the dot |
| Text.GetExtensionOfSuffix | OKEGui/OKEGui/JobProcessor/Muxer/AutoMuxer.cs:87 | a '.' and a non-empty tail with no '.' or separator at the end of a path is exactly the extension returned |
| Text.LowerIdempotent | OKEGui/OKEGui/JobProcessor/Muxer/AutoMuxer.cs:87 | lower-casing twice is lower-casing once |
| Text.BlankContainsNoText | OKEGui/OKEGui/JobProcessor/CommandlineJobProcessor.cs:354 | a line that trims to empty contains no text with a character other than white space |
| Text.JoinStartsWithFirst | OKEGui/OKEGui/JobProcessor/Muxer/AutoMuxer.cs:164 | a joined list starts with its first part |
| Text.JoinEndsWithLast | OKEGui/OKEGui/JobProcessor/Muxer/AutoMuxer.cs:164 | a joined list ends with its last part |
| Text.ParseRendered | OKEGui/OKEGui/JobProcessor/Muxer/AutoMuxer.cs:237 | parsing a rendered number gives the number back |
| Text.NatToStringInjective | OKEGui/OKEGui/JobProcessor/Muxer/AutoMuxer.cs:143 | different numbers render differently |
| Text.FindMatch | OKEGui/OKEGui/JobProcessor/Muxer/AutoMuxer.cs:235 | a match's group is a string of digits |
| Text.FindMatchFirst | OKEGui/OKEGui/JobProcessor/Muxer/AutoMuxer.cs:235-248 | what the match returns is the group of an occurrence of prefix, digits and suffix, and no digit string completes the pattern at an earlier index |
| Text.FindMatchComplete | OKEGui/OKEGui/JobProcessor/Muxer/AutoMuxer.cs:235-248 | wherever prefix, a digit string and the suffix occur, the match succeeds |
| Text.FirstMatchUnique | OKEGui/OKEGui/JobProcessor/Muxer/AutoMuxer.cs:235-248 | there is at most one leftmost match, so its group is determined |
| Text.FindMatchIff | OKEGui/OKEGui/JobProcessor/Muxer/AutoMuxer.cs:235-248 | the match succeeds with group g exactly when g is the group of the leftmost occurrence of the pattern |
| Text.FindMatchNone | OKEGui/OKEGui/JobProcessor/Muxer/AutoMuxer.cs:235-248 | the match fails exactly when no digit string completes the pattern anywhere in the line |
| Text.MatchOfRendered | OKEGui/OKEGui/JobProcessor/Muxer/AutoMuxer.cs:235-248 | a line of prefix, digits and a suffix that starts with a non-digit matches with exactly those digits |

## Findings

| source | as written | input that shows it | evidently intended | confidence | as-written member | corrected member |
|---|---|---|---|---|---|---|
| OKEGui/OKEGui/JobProcessor/CommandlineJobProcessor.cs:99-125 | proc_Exited sets HasError for a non-zero exit and then sets IsComplete on the same path | a started job, checkExitCode on, not aborted, no second pass, the tool exits with code 1, and the exit handler is registered or called (its registration at CommandlineJobProcessor.cs:144-145 is commented out, so as shipped this is latent) | a task ends in exactly one terminal state: failed, aborted or complete | medium; not executed | JobProcessing.ErrorExitAlsoCompletes | JobProcessing.ErrorExitOnlyFails |
| OKEGui/OKEGui/JobProcessor/CommandlineJobProcessor.cs:171-201 | after Stop marks WasAborted, proc_Exited still sets IsComplete | a started job is stopped (exit code -1), both readers end, and proc_Exited runs because the exit handler is registered or called (its registration at CommandlineJobProcessor.cs:144-145 is commented out, so as shipped this is latent) | an aborted task is not also complete | medium; not executed | JobProcessing.AbortAlsoCompletes | JobProcessing.AbortOnlyAborts |

The corrected handler is `JobProcessing.CommandlineJobProcessor.ProcExitedExclusive`. `ProcExited` stays the model of the code as written.

## Left out

- Process launch, kill and wait, reader threads, `VistaStuff.SetProcessPriority`, and `RunStatusCycle` with its clock and sleeps. These are operating-system and timing work. The process is its `ProcState`, and the two readers run one after the other.
- The `DoEvents`/`Sleep` loop in `Stop`. It ends only when proc_Exited (CommandlineJobProcessor.cs:125) or a re-entrant `Start` (CommandlineJobProcessor.cs:146) clears bWaitForExit; the exit handler's registration is commented out (CommandlineJobProcessor.cs:144-145), and `DoEvents` lets other UI code run meanwhile. `Stop` reports `Blocked` after the kill instead.
- `deleteTempFiles` and the file write itself. These are file-system work; the temporary-file list is a sequence.
- `FileInfo.Exists` and `Length`. File existence and size are inputs.
- The `FileInfo` full name in `NewQAACEncoder`. The full path is an input.
- `StartProcess` and `StartMuxing`. These cover the process run, `OKEFile` and CRC32. `StartMerge` stops at the launch decision.
- The .NET regular-expression engine. The two progress patterns are a digit scanner over ASCII digits; `\d` in .NET also matches other Unicode decimal digits.
- Culture-sensitive `ToLower`. Lower-casing covers ASCII letters only.
- Invalid path characters in `Path.GetExtension`.
- Floating-point rounding. MP4 progress is an exact `real`.
- `Debugger.Log`, `getErrorLine`, `WindowUtil.GetErrorText` and the commented-out logging. They have no effect on the modelled state.
- `Muxer.AutoMuxer.ReadStream` records every report as if a `ProgressChanged` subscriber is attached. The event's null check is not modelled.
- `Muxer.AutoMuxer.ReadStream` omits the `null == proc` check, because `proc` is never null.
- `JobProcessing.CommandlineJobProcessor.ProcExited` counts `StatusUpdate` calls. It does not model the null dereference when no subscriber is attached.
- `JobProcessing.CommandlineJobProcessor.ProcExited` describes the reader wait as `Blocked` when a done flag is unset. It does not model threads setting those flags later.
- `JobProcessing.CommandlineJobProcessor.Start` models no reader threads. The caller runs `ReadOutput` for each stream.
- `Constants.QAACBitrate` is not part of this model; the bit rate is a parameter.
- `StartMerge`'s default languages (`"jpn"` for audio and subtitles, AutoMuxer.cs:304-305) are not modelled; callers pass both languages.
- `MediaFile` and `Track` are reduced to an optional video track.
- Muxer.IsCompatible is a one-expression null test of the video track (AutoMuxer.cs:354-358) and nothing in the modelled code calls it, so it is modelled as a plain function with no contract and no lemma.
- CMDPipeJobProcessor and VideoJob are not part of this model.
