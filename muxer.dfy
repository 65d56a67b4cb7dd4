/** AutoMuxer.cs: sorting the input files of an episode by extension, building the
    mkvmerge and mp4 muxer argument strings, classifying the tools' output lines
    into progress and completion, and choosing the tool for the output type. */
module Muxer {
  import opened Text

  datatype OutputType = Mkv | Mp4

  datatype MuxError = InvalidOutputExtension

  /** An input file name with what the file system says about it: whether the file
      exists, and its length in bytes. */
  datatype InputFile = InputFile(name: string, present: bool, length: nat)

  /** The Episode record. `videoFile` and `chapterFile` are None where the source
      leaves them null; null formats as the empty string. */
  datatype Episode = Episode(
    videoFile: Option<string>,
    videoFps: string,
    audioFiles: seq<string>,
    audioLanguage: string,
    chapterFile: Option<string>,
    subtitleFiles: seq<string>,
    subtitleLanguage: string,
    outputFileType: OutputType,
    outputFile: string,
    totalFileSize: nat)

  const AudioExtensions: seq<string> := [".flac", ".wav", ".ac3", ".thd", ".aac", ".m4a"]
  const VideoExtensions: seq<string> := [".hevc", ".h265", ".avc", ".h264"]

  /** The lower-cased extension of a file name. */
  function LowerExtension(name: string): string {
    Lower(GetExtension(name))
  }

  lemma LowerExtensionOfLower(name: string)
    ensures LowerExtension(Lower(name)) == LowerExtension(name)
  {
    ExtensionOfLower(name, |name|);
    LowerIdempotent(GetExtension(name));
  }

  // ---------------------------------------------------------------------------
  // Input classification (GenerateEpisode)
  // ---------------------------------------------------------------------------

  /** What GenerateEpisode does with one input file. */
  datatype FileKind = Missing | Audio | Video | Chapter | Subtitle | Other

  function KindOf(f: InputFile): FileKind {
    if !f.present then Missing
    else
      var ext := LowerExtension(f.name);
      if ext in AudioExtensions then Audio
      else if ext in VideoExtensions then Video
      else if ext == ".txt" then Chapter
      else if ext == ".sup" then Subtitle
      else Other
  }

  /** Classification ignores the case of the file name. */
  lemma KindIgnoresCase(f: InputFile)
    ensures KindOf(f.(name := Lower(f.name))) == KindOf(f)
  {
    LowerExtensionOfLower(f.name);
  }

  /** A present `.FLAC` file, in any case, is an audio input. */
  lemma FlacIsAudio(stem: string, length: nat)
    ensures KindOf(InputFile(stem + ".FLAC", true, length)) == Audio
  {
    GetExtensionOfSuffix(stem, "FLAC");
    assert stem + "." + "FLAC" == stem + ".FLAC";
    assert LowerExtension(stem + ".FLAC") == Lower(".FLAC") == ".flac";
    assert ".flac" in AudioExtensions;
  }

  /** The names of the inputs of kind `k`, in input order. */
  function NamesOfKind(fs: seq<InputFile>, k: FileKind): seq<string>
    decreases |fs|
  {
    if fs == [] then []
    else NamesOfKind(fs[..|fs| - 1], k) + (if KindOf(fs[|fs| - 1]) == k then [fs[|fs| - 1].name] else [])
  }

  /** The name of the last input of kind `k`, if any. */
  function LastOfKind(fs: seq<InputFile>, k: FileKind): Option<string>
    decreases |fs|
  {
    if fs == [] then None
    else if KindOf(fs[|fs| - 1]) == k then Some(fs[|fs| - 1].name)
    else LastOfKind(fs[..|fs| - 1], k)
  }

  predicate IsMedia(k: FileKind) {
    k == Audio || k == Video
  }

  /** The summed length of the audio and video inputs. */
  function MediaSize(fs: seq<InputFile>): nat
    decreases |fs|
  {
    if fs == [] then 0
    else MediaSize(fs[..|fs| - 1]) + (if IsMedia(KindOf(fs[|fs| - 1])) then fs[|fs| - 1].length else 0)
  }

  /** The output type chosen from the output file's extension. */
  function OutputTypeOf(outputFileName: string): Option<OutputType> {
    var ext := LowerExtension(outputFileName);
    if ext == ".mkv" then Some(Mkv)
    else if ext == ".mp4" then Some(Mp4)
    else None
  }

  /** The choice of output type ignores the case of the output file name. */
  lemma OutputTypeIgnoresCase(outputFileName: string)
    ensures OutputTypeOf(Lower(outputFileName)) == OutputTypeOf(outputFileName)
  {
    LowerExtensionOfLower(outputFileName);
  }

  /** The episode GenerateEpisode builds, or the error it throws. */
  function EpisodeOf(inputs: seq<InputFile>, outputFileName: string, videoFps: string,
                     audioLanguage: string, subtitleLanguage: string): Result<Episode, MuxError>
  {
    match OutputTypeOf(outputFileName)
    case None => Failure(InvalidOutputExtension)
    case Some(t) =>
      Success(Episode(LastOfKind(inputs, Video), videoFps,
                      NamesOfKind(inputs, Audio), audioLanguage,
                      LastOfKind(inputs, Chapter),
                      NamesOfKind(inputs, Subtitle), subtitleLanguage,
                      t, outputFileName, MediaSize(inputs)))
  }

  predicate KindAt(fs: seq<InputFile>, k: FileKind, name: string, i: int) {
    0 <= i < |fs| && fs[i].name == name && KindOf(fs[i]) == k
  }

  /** A name is listed exactly when some input of that kind carries it. */
  lemma {:induction false} NamesOfKindMembers(fs: seq<InputFile>, k: FileKind, name: string)
    ensures name in NamesOfKind(fs, k) <==> exists i :: KindAt(fs, k, name, i)
    decreases |fs|
  {
    if fs != [] {
      var init, last := fs[..|fs| - 1], fs[|fs| - 1];
      NamesOfKindMembers(init, k, name);
      if name in NamesOfKind(init, k) {
        var i :| KindAt(init, k, name, i);
        assert KindAt(fs, k, name, i);
      }
      if KindOf(last) == k && last.name == name {
        assert KindAt(fs, k, name, |fs| - 1);
      }
      forall i | KindAt(fs, k, name, i) ensures name in NamesOfKind(fs, k) {
        if i < |fs| - 1 {
          assert KindAt(init, k, name, i);
        }
      }
    }
  }

  /** Listing preserves input order: the list for a concatenation is the
      concatenation of the lists. */
  lemma {:induction false} NamesOfKindConcat(a: seq<InputFile>, b: seq<InputFile>, k: FileKind)
    ensures NamesOfKind(a + b, k) == NamesOfKind(a, k) + NamesOfKind(b, k)
    decreases |b|
  {
    if b == [] {
      assert a + b == a;
    } else {
      assert (a + b)[..|a + b| - 1] == a + b[..|b| - 1];
      NamesOfKindConcat(a, b[..|b| - 1], k);
    }
  }

  /** The last input of a kind wins: a later one of the same kind replaces it. */
  lemma {:induction false} LastOfKindConcat(a: seq<InputFile>, b: seq<InputFile>, k: FileKind)
    ensures LastOfKind(a + b, k) == if LastOfKind(b, k).Some? then LastOfKind(b, k) else LastOfKind(a, k)
    decreases |b|
  {
    if b == [] {
      assert a + b == a;
    } else {
      assert (a + b)[..|a + b| - 1] == a + b[..|b| - 1];
      LastOfKindConcat(a, b[..|b| - 1], k);
    }
  }

  /** LastOfKind is None exactly when no input has the kind. */
  lemma {:induction false} LastOfKindNone(fs: seq<InputFile>, k: FileKind)
    ensures LastOfKind(fs, k).None? <==> forall i :: 0 <= i < |fs| ==> KindOf(fs[i]) != k
    decreases |fs|
  {
    if fs != [] {
      var init := fs[..|fs| - 1];
      LastOfKindNone(init, k);
      if KindOf(fs[|fs| - 1]) != k {
        forall i | 0 <= i < |fs| - 1
          ensures fs[i] == init[i]
        {
        }
      }
    }
  }

  /** LastOfKind names the last input of its kind. */
  lemma {:induction false} LastOfKindIsLast(fs: seq<InputFile>, k: FileKind)
    ensures LastOfKind(fs, k).Some? ==>
      exists i :: KindAt(fs, k, LastOfKind(fs, k).value, i) &&
                  forall j :: i < j < |fs| ==> KindOf(fs[j]) != k
    decreases |fs|
  {
    if fs != [] {
      var init := fs[..|fs| - 1];
      if KindOf(fs[|fs| - 1]) == k {
        assert KindAt(fs, k, LastOfKind(fs, k).value, |fs| - 1);
      } else if LastOfKind(init, k).Some? {
        LastOfKindIsLast(init, k);
        var i :| KindAt(init, k, LastOfKind(init, k).value, i) &&
                 forall j :: i < j < |init| ==> KindOf(init[j]) != k;
        assert fs[i] == init[i];
        forall j | i < j < |fs|
          ensures KindOf(fs[j]) != k
        {
          if j < |init| {
            assert fs[j] == init[j];
          }
        }
        assert KindAt(fs, k, LastOfKind(fs, k).value, i);
      }
    }
  }

  lemma {:induction false} MediaSizeConcat(a: seq<InputFile>, b: seq<InputFile>)
    ensures MediaSize(a + b) == MediaSize(a) + MediaSize(b)
    decreases |b|
  {
    if b == [] {
      assert a + b == a;
    } else {
      assert (a + b)[..|a + b| - 1] == a + b[..|b| - 1];
      MediaSizeConcat(a, b[..|b| - 1]);
    }
  }

  /** One input's contribution, wherever it stands: a missing file contributes
      nothing; an audio file is appended to the audio list and adds its length; a
      video file adds its length; chapter, subtitle and other files add no length. */
  lemma InsertedFileEffect(a: seq<InputFile>, f: InputFile, b: seq<InputFile>)
    ensures MediaSize(a + [f] + b) == MediaSize(a + b) + (if IsMedia(KindOf(f)) then f.length else 0)
    ensures forall k :: (NamesOfKind(a + [f] + b, k) ==
      NamesOfKind(a, k) + (if KindOf(f) == k then [f.name] else []) + NamesOfKind(b, k))
    ensures forall k :: KindOf(f) != k ==> LastOfKind(a + [f] + b, k) == LastOfKind(a + b, k)
  {
    assert [f][..0] == [];
    MediaSizeConcat(a + [f], b);
    MediaSizeConcat(a, [f]);
    MediaSizeConcat(a, b);
    forall k ensures NamesOfKind(a + [f] + b, k) ==
      NamesOfKind(a, k) + (if KindOf(f) == k then [f.name] else []) + NamesOfKind(b, k)
    {
      NamesOfKindConcat(a + [f], b, k);
      NamesOfKindConcat(a, [f], k);
    }
    forall k | KindOf(f) != k ensures LastOfKind(a + [f] + b, k) == LastOfKind(a + b, k) {
      LastOfKindConcat(a + [f], b, k);
      LastOfKindConcat(a, [f], k);
      LastOfKindConcat(a, b, k);
    }
  }

  /** Input files that do not exist are skipped entirely. */
  lemma MissingInputSkipped(a: seq<InputFile>, f: InputFile, b: seq<InputFile>,
                            outputFileName: string, videoFps: string,
                            audioLanguage: string, subtitleLanguage: string)
    requires !f.present
    ensures EpisodeOf(a + [f] + b, outputFileName, videoFps, audioLanguage, subtitleLanguage)
         == EpisodeOf(a + b, outputFileName, videoFps, audioLanguage, subtitleLanguage)
  {
    InsertedFileEffect(a, f, b);
    assert LastOfKind(a + [f] + b, Video) == LastOfKind(a + b, Video);
    assert LastOfKind(a + [f] + b, Chapter) == LastOfKind(a + b, Chapter);
    assert NamesOfKind(a + [f] + b, Audio) == NamesOfKind(a, Audio) + NamesOfKind(b, Audio);
    assert NamesOfKind(a + [f] + b, Subtitle) == NamesOfKind(a, Subtitle) + NamesOfKind(b, Subtitle);
    NamesOfKindConcat(a, b, Audio);
    NamesOfKindConcat(a, b, Subtitle);
  }

  /** GenerateEpisode: one pass over the inputs, then the output type. */
  method GenerateEpisode(inputs: seq<InputFile>, outputFileName: string, videoFps: string,
                         audioLanguage: string, subtitleLanguage: string)
    returns (r: Result<Episode, MuxError>)
    ensures r == EpisodeOf(inputs, outputFileName, videoFps, audioLanguage, subtitleLanguage)
  {
    var videoFile: Option<string> := None;
    var chapterFile: Option<string> := None;
    var audioFiles: seq<string> := [];
    var subtitleFiles: seq<string> := [];
    var totalFileSize: nat := 0;
    for i := 0 to |inputs|
      invariant videoFile == LastOfKind(inputs[..i], Video)
      invariant chapterFile == LastOfKind(inputs[..i], Chapter)
      invariant audioFiles == NamesOfKind(inputs[..i], Audio)
      invariant subtitleFiles == NamesOfKind(inputs[..i], Subtitle)
      invariant totalFileSize == MediaSize(inputs[..i])
    {
      assert inputs[..i + 1][..i] == inputs[..i];
      var file := inputs[i];
      if file.present {
        var extension := Lower(GetExtension(file.name));
        if extension in AudioExtensions {
          audioFiles := audioFiles + [file.name];
          totalFileSize := totalFileSize + file.length;
        } else if extension in VideoExtensions {
          videoFile := Some(file.name);
          totalFileSize := totalFileSize + file.length;
        } else if extension == ".txt" {
          chapterFile := Some(file.name);
        } else if extension == ".sup" {
          subtitleFiles := subtitleFiles + [file.name];
        }
      }
    }
    assert inputs[..|inputs|] == inputs;
    var extension := Lower(GetExtension(outputFileName));
    if extension == ".mkv" {
      r := Success(Episode(videoFile, videoFps, audioFiles, audioLanguage, chapterFile,
                           subtitleFiles, subtitleLanguage, Mkv, outputFileName, totalFileSize));
    } else if extension == ".mp4" {
      r := Success(Episode(videoFile, videoFps, audioFiles, audioLanguage, chapterFile,
                           subtitleFiles, subtitleLanguage, Mp4, outputFileName, totalFileSize));
    } else {
      r := Failure(InvalidOutputExtension);
    }
  }

  // ---------------------------------------------------------------------------
  // Argument strings
  // ---------------------------------------------------------------------------

  function Quoted(s: string): string {
    "\"" + s + "\""
  }

  /** A null string formats as empty. */
  function OrEmpty(s: Option<string>): string {
    if s.Some? then s.value else ""
  }

  /** mkvmerge's per-file template `--language 0:{0} "(" "{1}" ")"`. */
  function TrackArgument(language: string, file: string): string {
    "--language 0:" + language + " \"(\" \"" + file + "\" \")\""
  }

  function TrackArguments(language: string, files: seq<string>): (r: seq<string>)
    ensures |r| == |files|
    ensures forall i :: 0 <= i < |files| ==> r[i] == TrackArgument(language, files[i])
  {
    seq(|files|, i requires 0 <= i < |files| => TrackArgument(language, files[i]))
  }

  /** The `{fileID}:0` entry of `--track-order`. */
  function TrackOrderEntry(fileID: nat): string {
    NatToString(fileID) + ":0"
  }

  /** The track-order entries of the first `n` files. */
  function TrackOrder(n: nat): (r: seq<string>)
    ensures |r| == n
    ensures forall i :: 0 <= i < n ==> r[i] == TrackOrderEntry(i)
  {
    seq(n, i requires 0 <= i < n => TrackOrderEntry(i))
  }

  /** Each file gets its own track-order entry: the entries are pairwise distinct. */
  lemma TrackOrderDistinct(n: nat, i: nat, j: nat)
    requires i < n && j < n && i != j
    ensures TrackOrder(n)[i] != TrackOrder(n)[j]
  {
    if TrackOrderEntry(i) == TrackOrderEntry(j) {
      var a, b := NatToString(i), NatToString(j);
      assert |a| == |b|;
      assert a == (a + ":0")[..|a|] == (b + ":0")[..|b|] == b;
      NatToStringInjective(i, j);
    }
  }

  /** The mkvmerge parameter list, before it is joined with spaces. */
  function MkvParameters(episode: Episode): seq<string> {
    ["--output " + Quoted(episode.outputFile),
     TrackArgument("und", OrEmpty(episode.videoFile))]
    + TrackArguments(episode.audioLanguage, episode.audioFiles)
    + TrackArguments(episode.subtitleLanguage, episode.subtitleFiles)
    + (if episode.chapterFile.Some? then ["--chapters " + Quoted(episode.chapterFile.value)] else [])
    + ["--track-order " + Join(",", TrackOrder(1 + |episode.audioFiles| + |episode.subtitleFiles|))]
  }

  /** The layout of the mkvmerge parameters: output first, then the video track with
      language `und`, each audio track with the audio language, each subtitle with
      the subtitle language, the chapters when there is a chapter file, and last a
      track order numbering every file from 0. */
  lemma MkvLayout(episode: Episode)
    ensures var p := MkvParameters(episode);
      var na, ns := |episode.audioFiles|, |episode.subtitleFiles|;
      var nc := if episode.chapterFile.Some? then 1 else 0;
      |p| == 3 + na + ns + nc &&
      p[0] == "--output " + Quoted(episode.outputFile) &&
      p[1] == TrackArgument("und", OrEmpty(episode.videoFile)) &&
      (forall j :: 0 <= j < na ==> p[2 + j] == TrackArgument(episode.audioLanguage, episode.audioFiles[j])) &&
      (forall j :: 0 <= j < ns ==> p[2 + na + j] == TrackArgument(episode.subtitleLanguage, episode.subtitleFiles[j])) &&
      (nc == 1 ==> p[2 + na + ns] == "--chapters " + Quoted(episode.chapterFile.value)) &&
      p[|p| - 1] == "--track-order " + Join(",", TrackOrder(1 + na + ns))
  {
  }

  predicate IsChaptersArgument(s: string) {
    StartsWith(s, "--chapters ")
  }

  /** Apart from the chapters slot, no mkvmerge parameter is a `--chapters` argument. */
  lemma MkvOnlyChaptersSlot(episode: Episode, i: int)
    requires 0 <= i < |MkvParameters(episode)|
    requires !(episode.chapterFile.Some? && i == 2 + |episode.audioFiles| + |episode.subtitleFiles|)
    ensures !IsChaptersArgument(MkvParameters(episode)[i])
  {
    var p := MkvParameters(episode);
    var na, ns := |episode.audioFiles|, |episode.subtitleFiles|;
    MkvLayout(episode);
    if i == 0 {
      assert p[i][2] == 'o';
      DiffersAt(p[i], "--chapters ", 2);
    } else if i == 1 {
      TrackNotChapters("und", OrEmpty(episode.videoFile));
    } else if i < 2 + na {
      TrackNotChapters(episode.audioLanguage, episode.audioFiles[i - 2]);
    } else if i < 2 + na + ns {
      TrackNotChapters(episode.subtitleLanguage, episode.subtitleFiles[i - 2 - na]);
    } else {
      assert i == |p| - 1;
      assert p[i][2] == 't';
      DiffersAt(p[i], "--chapters ", 2);
    }
  }

  lemma TrackNotChapters(language: string, file: string)
    ensures !IsChaptersArgument(TrackArgument(language, file))
  {
    var a := TrackArgument(language, file);
    assert a[2] == 'l';
    DiffersAt(a, "--chapters ", 2);
  }

  /** `--chapters` appears exactly when the episode has a chapter file. */
  lemma MkvChaptersIffChapterFile(episode: Episode)
    ensures (exists i :: 0 <= i < |MkvParameters(episode)| && IsChaptersArgument(MkvParameters(episode)[i]))
            <==> episode.chapterFile.Some?
  {
    var p := MkvParameters(episode);
    var slot := 2 + |episode.audioFiles| + |episode.subtitleFiles|;
    forall i | 0 <= i < |p| && !(episode.chapterFile.Some? && i == slot) ensures !IsChaptersArgument(p[i]) {
      MkvOnlyChaptersSlot(episode, i);
    }
    if episode.chapterFile.Some? {
      MkvLayout(episode);
      assert p[slot][..11] == "--chapters ";
      assert IsChaptersArgument(p[slot]);
    }
  }

  /** The joined mkvmerge argument string begins with `--output` and ends with the
      track order. */
  lemma MkvArgumentsEnds(episode: Episode)
    ensures StartsWith(Join(" ", MkvParameters(episode)), "--output ")
    ensures EndsWith(Join(" ", MkvParameters(episode)),
                     "--track-order " + Join(",", TrackOrder(1 + |episode.audioFiles| + |episode.subtitleFiles|)))
  {
    var p := MkvParameters(episode);
    var args := Join(" ", p);
    MkvLayout(episode);
    JoinStartsWithFirst(" ", p);
    JoinEndsWithLast(" ", p);
    assert p[0][..9] == "--output ";
    assert args[..9] == args[..|p[0]|][..9];
  }

  /** One of the track loops of GenerateMkvMergeParameter: each file adds its
      track argument and its track-order entry, numbered by the running `fileID`. */
  method AppendTracks(parameters: seq<string>, trackOrder: seq<string>, fileID: nat,
                      language: string, files: seq<string>)
    returns (newParameters: seq<string>, newTrackOrder: seq<string>, nextID: nat)
    requires trackOrder == TrackOrder(fileID)
    ensures newParameters == parameters + TrackArguments(language, files)
    ensures nextID == fileID + |files|
    ensures newTrackOrder == TrackOrder(nextID)
  {
    newParameters, newTrackOrder, nextID := parameters, trackOrder, fileID;
    for i := 0 to |files|
      invariant newParameters == parameters + TrackArguments(language, files[..i])
      invariant nextID == fileID + i
      invariant newTrackOrder == TrackOrder(nextID)
    {
      assert TrackArguments(language, files[..i + 1])
          == TrackArguments(language, files[..i]) + [TrackArgument(language, files[i])];
      assert TrackOrder(nextID + 1) == TrackOrder(nextID) + [TrackOrderEntry(nextID)];
      newParameters := newParameters + [TrackArgument(language, files[i])];
      newTrackOrder := newTrackOrder + [TrackOrderEntry(nextID)];
      nextID := nextID + 1;
    }
    assert files[..|files|] == files;
  }

  /** GenerateMkvMergeParameter: the parameter list and the track order grow
      together, numbered by the running `fileID`. */
  method GenerateMkvMergeParameter(episode: Episode) returns (args: string)
    ensures args == Join(" ", MkvParameters(episode))
  {
    var parameters: seq<string> := [];
    var trackOrder: seq<string> := [];
    var fileID: nat := 0;

    parameters := parameters + ["--output " + Quoted(episode.outputFile)];
    parameters := parameters + [TrackArgument("und", OrEmpty(episode.videoFile))];
    trackOrder := trackOrder + [TrackOrderEntry(fileID)];
    fileID := fileID + 1;
    assert trackOrder == TrackOrder(1);

    parameters, trackOrder, fileID := AppendTracks(parameters, trackOrder, fileID, episode.audioLanguage, episode.audioFiles);
    parameters, trackOrder, fileID := AppendTracks(parameters, trackOrder, fileID, episode.subtitleLanguage, episode.subtitleFiles);

    if episode.chapterFile.Some? {
      parameters := parameters + ["--chapters " + Quoted(episode.chapterFile.value)];
    }
    parameters := parameters + ["--track-order " + Join(",", trackOrder)];
    assert parameters == MkvParameters(episode);
    args := Join(" ", parameters);
  }

  /** The audio formats the mp4 muxer takes: `.aac`, `.m4a` and `.ac3`, any case. */
  predicate Mp4Compatible(file: string) {
    var ext := LowerExtension(file);
    ext == ".aac" || ext == ".m4a" || ext == ".ac3"
  }

  /** The audio files passed to the mp4 muxer, in order. */
  function Mp4AudioFiles(files: seq<string>): seq<string>
    decreases |files|
  {
    if files == [] then []
    else Mp4AudioFiles(files[..|files| - 1]) + (if Mp4Compatible(files[|files| - 1]) then [files[|files| - 1]] else [])
  }

  /** A file is passed exactly when it is an audio file of a compatible format. */
  lemma {:induction false} Mp4AudioFilesMembers(files: seq<string>, f: string)
    ensures f in Mp4AudioFiles(files) <==> f in files && Mp4Compatible(f)
    decreases |files|
  {
    if files != [] {
      var init := files[..|files| - 1];
      Mp4AudioFilesMembers(init, f);
      assert files == init + [files[|files| - 1]];
    }
  }

  /** The selection keeps the order of the audio files. */
  lemma {:induction false} Mp4AudioFilesConcat(a: seq<string>, b: seq<string>)
    ensures Mp4AudioFiles(a + b) == Mp4AudioFiles(a) + Mp4AudioFiles(b)
    decreases |b|
  {
    if b == [] {
      assert a + b == a;
    } else {
      assert (a + b)[..|a + b| - 1] == a + b[..|b| - 1];
      Mp4AudioFilesConcat(a, b[..|b| - 1]);
    }
  }

  /** Of an episode's audio files, `.flac`, `.wav` and `.thd` never reach the mp4 muxer. */
  lemma Mp4DropsLosslessAudio(episode: Episode, f: string)
    requires LowerExtension(f) in [".flac", ".wav", ".thd"]
    ensures f !in Mp4AudioFiles(episode.audioFiles)
  {
    Mp4AudioFilesMembers(episode.audioFiles, f);
  }

  function Mp4AudioArgument(file: string, language: string): string {
    "-i " + Quoted(file) + "?language=" + language
  }

  function Mp4AudioArguments(files: seq<string>, language: string): (r: seq<string>)
    ensures |r| == |files|
    ensures forall i :: 0 <= i < |files| ==> r[i] == Mp4AudioArgument(files[i], language)
  {
    seq(|files|, i requires 0 <= i < |files| => Mp4AudioArgument(files[i], language))
  }

  /** The mp4 muxer parameter list, before it is joined with spaces. */
  function Mp4Parameters(episode: Episode): seq<string> {
    ["--file-format mp4"]
    + (if episode.chapterFile.Some? then ["--chapter " + Quoted(episode.chapterFile.value)] else [])
    + ["-i " + Quoted(OrEmpty(episode.videoFile)) + "?fps=" + episode.videoFps]
    + Mp4AudioArguments(Mp4AudioFiles(episode.audioFiles), episode.audioLanguage)
    + ["-o " + Quoted(episode.outputFile)]
  }

  /** The layout of the mp4 muxer parameters: the format first, the chapter when
      there is a chapter file, the video with its frame rate, the compatible audio
      files in order, and the output last. */
  lemma Mp4Layout(episode: Episode)
    ensures var p := Mp4Parameters(episode);
      var nc := if episode.chapterFile.Some? then 1 else 0;
      var audio := Mp4AudioFiles(episode.audioFiles);
      |p| == 3 + nc + |audio| &&
      p[0] == "--file-format mp4" &&
      (nc == 1 ==> p[1] == "--chapter " + Quoted(episode.chapterFile.value)) &&
      p[1 + nc] == "-i " + Quoted(OrEmpty(episode.videoFile)) + "?fps=" + episode.videoFps &&
      (forall j :: 0 <= j < |audio| ==> p[2 + nc + j] == Mp4AudioArgument(audio[j], episode.audioLanguage)) &&
      p[|p| - 1] == "-o " + Quoted(episode.outputFile)
  {
  }

  predicate IsChapterArgument(s: string) {
    StartsWith(s, "--chapter ")
  }

  /** Apart from the chapter slot, no mp4 muxer parameter is a `--chapter` argument. */
  lemma Mp4OnlyChapterSlot(episode: Episode, i: int)
    requires 0 <= i < |Mp4Parameters(episode)|
    requires !(episode.chapterFile.Some? && i == 1)
    ensures !IsChapterArgument(Mp4Parameters(episode)[i])
  {
    var p := Mp4Parameters(episode);
    var nc := if episode.chapterFile.Some? then 1 else 0;
    var audio := Mp4AudioFiles(episode.audioFiles);
    Mp4Layout(episode);
    if i == 0 {
      DiffersAt(p[i], "--chapter ", 2);
    } else if i == 1 + nc {
      assert p[i][1] == 'i';
      DiffersAt(p[i], "--chapter ", 1);
    } else if i == |p| - 1 {
      assert p[i][1] == 'o';
      DiffersAt(p[i], "--chapter ", 1);
    } else {
      Mp4AudioNotChapter(audio[i - 2 - nc], episode.audioLanguage);
    }
  }

  lemma Mp4AudioNotChapter(file: string, language: string)
    ensures !IsChapterArgument(Mp4AudioArgument(file, language))
  {
    var a := Mp4AudioArgument(file, language);
    assert a[1] == 'i';
    DiffersAt(a, "--chapter ", 1);
  }

  /** `--chapter` appears exactly when the episode has a chapter file. */
  lemma Mp4ChapterIffChapterFile(episode: Episode)
    ensures (exists i :: 0 <= i < |Mp4Parameters(episode)| && IsChapterArgument(Mp4Parameters(episode)[i]))
            <==> episode.chapterFile.Some?
  {
    var p := Mp4Parameters(episode);
    forall i | 0 <= i < |p| && !(episode.chapterFile.Some? && i == 1) ensures !IsChapterArgument(p[i]) {
      Mp4OnlyChapterSlot(episode, i);
    }
    if episode.chapterFile.Some? {
      Mp4Layout(episode);
      assert p[1][..10] == "--chapter ";
      assert IsChapterArgument(p[1]);
    }
  }

  /** The joined mp4 argument string begins with the format and ends with the output. */
  lemma Mp4ArgumentsEnds(episode: Episode)
    ensures StartsWith(Join(" ", Mp4Parameters(episode)), "--file-format mp4")
    ensures EndsWith(Join(" ", Mp4Parameters(episode)), "-o " + Quoted(episode.outputFile))
  {
    var p := Mp4Parameters(episode);
    Mp4Layout(episode);
    JoinStartsWithFirst(" ", p);
    JoinEndsWithLast(" ", p);
  }

  /** The audio loop of GenerateMp4MergeParameter: only files whose lower-cased
      extension is `.aac`, `.m4a` or `.ac3` are appended. */
  method AppendMp4Audio(parameters: seq<string>, files: seq<string>, language: string)
    returns (newParameters: seq<string>)
    ensures newParameters == parameters + Mp4AudioArguments(Mp4AudioFiles(files), language)
  {
    newParameters := parameters;
    for i := 0 to |files|
      invariant newParameters == parameters + Mp4AudioArguments(Mp4AudioFiles(files[..i]), language)
    {
      var audioFile := files[i];
      assert files[..i + 1][..i] == files[..i];
      ghost var before := Mp4AudioFiles(files[..i]);
      var extension := Lower(GetExtension(audioFile));
      if extension == ".aac" || extension == ".m4a" || extension == ".ac3" {
        assert Mp4AudioFiles(files[..i + 1]) == before + [audioFile];
        assert Mp4AudioArguments(before + [audioFile], language)
            == Mp4AudioArguments(before, language) + [Mp4AudioArgument(audioFile, language)];
        newParameters := newParameters + [Mp4AudioArgument(audioFile, language)];
      }
    }
    assert files[..|files|] == files;
  }

  /** GenerateMp4MergeParameter: the format, the chapter, the video, the
      compatible audio files and the output, in that order. */
  method GenerateMp4MergeParameter(episode: Episode) returns (args: string)
    ensures args == Join(" ", Mp4Parameters(episode))
  {
    var parameters: seq<string> := ["--file-format mp4"];
    if episode.chapterFile.Some? {
      parameters := parameters + ["--chapter " + Quoted(episode.chapterFile.value)];
    }
    parameters := parameters + ["-i " + Quoted(OrEmpty(episode.videoFile)) + "?fps=" + episode.videoFps];
    parameters := AppendMp4Audio(parameters, episode.audioFiles, episode.audioLanguage);
    parameters := parameters + ["-o " + Quoted(episode.outputFile)];
    assert parameters == Mp4Parameters(episode);
    args := Join(" ", parameters);
  }

  // ---------------------------------------------------------------------------
  // Output-line classification (readStream)
  // ---------------------------------------------------------------------------

  /** What one output line means to readStream.
      StopsReading: the progress pattern did not match, so readStream returns.
      ParseFailure: the pattern matched an empty digit string and `double.Parse`
      throws. ProgressInfinite: an MP4 byte count over a total size of 0. */
  datatype LineEvent = Ignored | Progress(percent: real) | ProgressInfinite | Completed
                     | StopsReading | ParseFailure

  /** The mkvmerge rules: `Progress: N%` first, then either completion wording. */
  function ClassifyMkvLine(line: string): (e: LineEvent)
    ensures e.Progress? ==> e.percent >= 0.0
    ensures e.Completed? <==> !Contains(line, "Progress: ") &&
                              (Contains(line, "Muxing took") || Contains(line, "Multiplexing took"))
    ensures e.Ignored? <==> !Contains(line, "Progress: ") &&
                            !Contains(line, "Muxing took") && !Contains(line, "Multiplexing took")
  {
    if Contains(line, "Progress: ") then
      match FindMatch(line, "Progress: ", "%")
      case None => StopsReading
      case Some(digits) => if digits == "" then ParseFailure else Progress(ParseDigits(digits) as real)
    else if Contains(line, "Muxing took") || Contains(line, "Multiplexing took") then Completed
    else Ignored
  }

  /** `imported / TotalFileSize * 100d` in double arithmetic: the share in percent,
      +infinity for a positive count of a zero total, and NaN (never reported) for
      zero of zero. */
  function ImportedShare(imported: nat, totalFileSize: nat): (e: LineEvent)
    ensures e.Progress? <==> totalFileSize > 0
    ensures e.Progress? ==> e.percent * totalFileSize as real == imported as real * 100.0
    ensures e.ProgressInfinite? <==> totalFileSize == 0 && imported > 0
    ensures e.Ignored? <==> totalFileSize == 0 && imported == 0
  {
    if totalFileSize > 0 then Progress(imported as real / totalFileSize as real * 100.0)
    else if imported > 0 then ProgressInfinite
    else Ignored
  }

  /** The mp4 muxer rules: `Importing: N bytes` gives N / total * 100, then
      `Muxing completed`. With a total of 0 the division gives +infinity (reported)
      or NaN (not above -1, so nothing is reported). */
  function ClassifyMp4Line(line: string, totalFileSize: nat): (e: LineEvent)
    ensures e.Progress? ==> e.percent >= 0.0
    ensures e.Completed? <==> !Contains(line, "Importing: ") && Contains(line, "Muxing completed")
    ensures e.ProgressInfinite? ==> totalFileSize == 0
  {
    if Contains(line, "Importing: ") then
      match FindMatch(line, "Importing: ", " bytes")
      case None => StopsReading
      case Some(digits) =>
        if digits == "" then ParseFailure
        else
          ImportedShare(ParseDigits(digits), totalFileSize)
    else if Contains(line, "Muxing completed") then Completed
    else Ignored
  }

  function ClassifyLine(outputType: OutputType, totalFileSize: nat, line: string): (e: LineEvent)
    ensures e.Progress? ==> e.percent >= 0.0
  {
    match outputType
    case Mkv => ClassifyMkvLine(line)
    case Mp4 => ClassifyMp4Line(line, totalFileSize)
  }

  /** The mkvmerge progress line for a percentage is read back as that percentage. */
  lemma MkvProgressRoundTrip(n: nat)
    ensures ClassifyMkvLine("Progress: " + NatToString(n) + "%") == Progress(n as real)
  {
    var line := "Progress: " + NatToString(n) + "%";
    MatchOfRendered("Progress: ", NatToString(n), "%");
    assert StartsWith(line, "Progress: ");
    ParseRendered(n);
  }

  /** The mp4 muxer's byte count is read back as that share of the total size. */
  lemma Mp4ProgressRoundTrip(imported: nat, totalFileSize: nat)
    requires totalFileSize > 0
    ensures ClassifyMp4Line("Importing: " + NatToString(imported) + " bytes", totalFileSize)
         == Progress(imported as real / totalFileSize as real * 100.0)
  {
    var line := "Importing: " + NatToString(imported) + " bytes";
    MatchOfRendered("Importing: ", NatToString(imported), " bytes");
    assert StartsWith(line, "Importing: ");
    ParseRendered(imported);
  }

  /** A line whose leftmost match of `Progress: (\d*?)%` has the digits `ds` reads as
      that percentage, or fails to parse when the digits are empty. */
  lemma MkvMatchedLine(line: string, ds: string, i: int)
    requires FirstMatchAt(line, "Progress: ", ds, "%", i)
    ensures ClassifyMkvLine(line)
         == if ds == "" then ParseFailure else Progress(ParseDigits(ds) as real)
  {
    MatchContainsPrefix(line, "Progress: ", ds, "%", i);
    FindMatchIff(line, "Progress: ", "%", ds);
  }

  /** Every mkvmerge progress report and parse failure comes from the leftmost match
      of `Progress: (\d*?)%`; the reader stops exactly on a line that holds
      `Progress: ` but no match. */
  lemma MkvLineSource(line: string)
    ensures var e := ClassifyMkvLine(line);
      e.Progress? || e.ParseFailure? ==>
        exists ds, i :: FirstMatchAt(line, "Progress: ", ds, "%", i) &&
          e == if ds == "" then ParseFailure else Progress(ParseDigits(ds) as real)
    ensures ClassifyMkvLine(line).StopsReading?
        <==> Contains(line, "Progress: ") && NoMatch(line, "Progress: ", "%")
  {
    FindMatchNone(line, "Progress: ", "%");
    if Contains(line, "Progress: ") && FindMatch(line, "Progress: ", "%").Some? {
      FindMatchIff(line, "Progress: ", "%", FindMatch(line, "Progress: ", "%").value);
    }
  }

  /** A line whose leftmost match of `Importing: (\d*?) bytes` has the digits `ds`
      reads as that share of the total size, or fails to parse when the digits are
      empty. */
  lemma Mp4MatchedLine(line: string, totalFileSize: nat, ds: string, i: int)
    requires FirstMatchAt(line, "Importing: ", ds, " bytes", i)
    ensures ClassifyMp4Line(line, totalFileSize)
         == if ds == "" then ParseFailure else ImportedShare(ParseDigits(ds), totalFileSize)
  {
    MatchContainsPrefix(line, "Importing: ", ds, " bytes", i);
    FindMatchIff(line, "Importing: ", " bytes", ds);
  }

  /** Every mp4 progress report, infinite share and parse failure comes from the
      leftmost match of `Importing: (\d*?) bytes`; the reader stops exactly on a line
      that holds `Importing: ` but no match. */
  lemma Mp4LineSource(line: string, totalFileSize: nat)
    ensures var e := ClassifyMp4Line(line, totalFileSize);
      e.Progress? || e.ProgressInfinite? || e.ParseFailure? ==>
        exists ds, i :: FirstMatchAt(line, "Importing: ", ds, " bytes", i) &&
          e == if ds == "" then ParseFailure else ImportedShare(ParseDigits(ds), totalFileSize)
    ensures ClassifyMp4Line(line, totalFileSize).StopsReading?
        <==> Contains(line, "Importing: ") && NoMatch(line, "Importing: ", " bytes")
  {
    FindMatchNone(line, "Importing: ", " bytes");
    if Contains(line, "Importing: ") && FindMatch(line, "Importing: ", " bytes").Some? {
      FindMatchIff(line, "Importing: ", " bytes", FindMatch(line, "Importing: ", " bytes").value);
    }
  }

  /** Worked example: `Progress: 42%` reads as 42 percent. */
  lemma MkvProgressExample()
    ensures ClassifyMkvLine("Progress: 42%") == Progress(42.0)
  {
    MkvProgressRoundTrip(42);
    assert NatToString(42) == "42";
    assert "Progress: 42%" == "Progress: " + "42" + "%";
  }

  // ---------------------------------------------------------------------------
  // Draining one output stream (readStream)
  // ---------------------------------------------------------------------------

  /** A value passed to ProgressChanged. */
  datatype Report = Percent(value: real) | PlusInfinity

  /** How far a drain got: still reading, returned early, or threw. */
  datatype Halt = NotHalted | ReturnedEarly | Threw

  datatype DrainState = DrainState(reports: seq<Report>, completed: bool, halt: Halt)

  const DrainStart := DrainState([], false, NotHalted)

  /** The effect of one line; nothing happens after the drain has halted. */
  function DrainStep(outputType: OutputType, totalFileSize: nat, st: DrainState, line: string): DrainState {
    if !st.halt.NotHalted? then st
    else
      match ClassifyLine(outputType, totalFileSize, line)
      case Ignored => st
      case Progress(p) => if p > -1.0 then st.(reports := st.reports + [Percent(p)]) else st
      case ProgressInfinite => st.(reports := st.reports + [PlusInfinity])
      case Completed => st.(completed := true)
      case StopsReading => st.(halt := ReturnedEarly)
      case ParseFailure => st.(halt := Threw)
  }

  /** The effect of a sequence of lines, in order. */
  function DrainFrom(outputType: OutputType, totalFileSize: nat, st: DrainState, lines: seq<string>): DrainState
    decreases |lines|
  {
    if lines == [] then st
    else DrainStep(outputType, totalFileSize, DrainFrom(outputType, totalFileSize, st, lines[..|lines| - 1]), lines[|lines| - 1])
  }

  function Drain(outputType: OutputType, totalFileSize: nat, lines: seq<string>): DrainState {
    DrainFrom(outputType, totalFileSize, DrainStart, lines)
  }

  lemma {:induction false} DrainConcat(t: OutputType, total: nat, st: DrainState, a: seq<string>, b: seq<string>)
    ensures DrainFrom(t, total, st, a + b) == DrainFrom(t, total, DrainFrom(t, total, st, a), b)
    decreases |b|
  {
    if b == [] {
      assert a + b == a;
    } else {
      assert (a + b)[..|a + b| - 1] == a + b[..|b| - 1];
      DrainConcat(t, total, st, a, b[..|b| - 1]);
    }
  }

  /** Once a drain has halted, later lines change nothing. */
  lemma {:induction false} HaltIsFinal(t: OutputType, total: nat, st: DrainState, lines: seq<string>)
    requires !st.halt.NotHalted?
    ensures DrainFrom(t, total, st, lines) == st
    decreases |lines|
  {
    if lines != [] {
      HaltIsFinal(t, total, st, lines[..|lines| - 1]);
    }
  }

  /** A line classified Ignored changes nothing, wherever it stands. */
  lemma IgnoredLineChangesNothing(t: OutputType, total: nat, a: seq<string>, line: string, b: seq<string>)
    requires ClassifyLine(t, total, line).Ignored?
    ensures Drain(t, total, a + [line] + b) == Drain(t, total, a + b)
  {
    DrainConcat(t, total, DrainStart, a + [line], b);
    DrainConcat(t, total, DrainStart, a, [line]);
    assert [line][..0] == [];
    DrainConcat(t, total, DrainStart, a, b);
  }

  /** Every finite progress value reported is at least 0. */
  lemma {:induction false} ReportsNonNegative(t: OutputType, total: nat, lines: seq<string>)
    ensures forall r :: r in Drain(t, total, lines).reports && r.Percent? ==> r.value >= 0.0
    decreases |lines|
  {
    if lines != [] {
      ReportsNonNegative(t, total, lines[..|lines| - 1]);
    }
  }

  /** A progress line followed by a completion line: one report of that
      percentage, and completion signalled. */
  lemma MkvProgressThenCompletion(n: nat, total: nat, line: string)
    requires ClassifyMkvLine(line).Completed?
    ensures Drain(Mkv, total, ["Progress: " + NatToString(n) + "%", line])
         == DrainState([Percent(n as real)], true, NotHalted)
  {
    var lines := ["Progress: " + NatToString(n) + "%", line];
    MkvProgressRoundTrip(n);
    assert lines[..1] == ["Progress: " + NatToString(n) + "%"];
    assert lines[..1][..0] == [];
    var first := DrainStep(Mkv, total, DrainStart, lines[0]);
    assert ClassifyLine(Mkv, total, lines[0]) == Progress(n as real);
    assert first == DrainState([Percent(n as real)], false, NotHalted);
    assert DrainFrom(Mkv, total, DrainStart, lines[..1]) == first;
    assert ClassifyLine(Mkv, total, line) == Completed;
  }

  // ---------------------------------------------------------------------------
  // The muxer object
  // ---------------------------------------------------------------------------

  /** A program to launch and its argument string. */
  datatype Launch = Launch(program: string, arguments: string)

  /** StartMerge's choice: mkvmerge for Mkv, the mp4 muxer for Mp4, each with its
      own argument dialect. */
  function LaunchFor(episode: Episode, mkvMergePath: string, mp4MuxerPath: string): (l: Launch)
    ensures episode.outputFileType == Mkv ==>
      l.program == mkvMergePath && StartsWith(l.arguments, "--output ")
    ensures episode.outputFileType == Mp4 ==>
      l.program == mp4MuxerPath && StartsWith(l.arguments, "--file-format mp4")
  {
    match episode.outputFileType
    case Mkv =>
      MkvArgumentsEnds(episode);
      Launch(mkvMergePath, Join(" ", MkvParameters(episode)))
    case Mp4 =>
      Mp4ArgumentsEnds(episode);
      Launch(mp4MuxerPath, Join(" ", Mp4Parameters(episode)))
  }

  /** The parts of a media file the muxer looks at. */
  datatype MediaFile = MediaFile(videoTrack: Option<string>)

  /** The muxer is offered only media files without a video track. */
  function IsCompatible(mediaFile: MediaFile): bool {
    mediaFile.videoTrack == None
  }

  class AutoMuxer {
    const mkvMergePath: string
    const mp4MuxerPath: string
    /** The episode of the last successful StartMerge. */
    var episode: Episode
    /** The completion event, set by a completion line. */
    var finished: bool
    /** The values passed to ProgressChanged, in order. */
    var progressReports: seq<Report>

    constructor (mkvMergePath: string, mp4MuxerPath: string)
      ensures this.mkvMergePath == mkvMergePath && this.mp4MuxerPath == mp4MuxerPath
      ensures episode.outputFileType == Mkv && episode.totalFileSize == 0
      ensures !finished && progressReports == []
    {
      this.mkvMergePath := mkvMergePath;
      this.mp4MuxerPath := mp4MuxerPath;
      episode := Episode(None, "", [], "", None, [], "", Mkv, "", 0);
      finished := false;
      progressReports := [];
    }

    /** StartMerge up to the launch: builds the episode and returns the program and
        arguments to start. A bad output extension throws before anything changes. */
    method StartMerge(inputs: seq<InputFile>, outputFileName: string, videoFps: string,
                      audioLanguage: string, subtitleLanguage: string)
      returns (r: Result<Launch, MuxError>)
      modifies this
      ensures finished == old(finished) && progressReports == old(progressReports)
      ensures var e := EpisodeOf(inputs, outputFileName, videoFps, audioLanguage, subtitleLanguage);
        match e
        case Failure(err) => r == Failure(err) && episode == old(episode)
        case Success(ep) => episode == ep && r == Success(LaunchFor(ep, mkvMergePath, mp4MuxerPath))
    {
      var generated := GenerateEpisode(inputs, outputFileName, videoFps, audioLanguage, subtitleLanguage);
      if generated.Failure? {
        return Failure(generated.error);
      }
      episode := generated.value;
      var args: string;
      match episode.outputFileType {
        case Mkv =>
          args := GenerateMkvMergeParameter(episode);
          r := Success(Launch(mkvMergePath, args));
        case Mp4 =>
          args := GenerateMp4MergeParameter(episode);
          r := Success(Launch(mp4MuxerPath, args));
      }
    }

    /** readStream: classifies the lines in order, reporting progress and setting the
        completion event, until the stream ends, the pattern fails to match
        (return) or parsing throws; an exception from the reader is rethrown. */
    method ReadStream(lines: seq<string>, end: StreamEnd) returns (halt: Halt)
      modifies this
      ensures episode == old(episode)
      ensures var d := Drain(episode.outputFileType, episode.totalFileSize, lines);
        progressReports == old(progressReports) + d.reports &&
        finished == (old(finished) || d.completed) &&
        halt == (if d.halt.NotHalted? && end.ReadFailure? then Threw else d.halt)
    {
      var outputType, totalFileSize := episode.outputFileType, episode.totalFileSize;
      var i := 0;
      while i < |lines|
        invariant 0 <= i <= |lines|
        invariant episode == old(episode)
        invariant var d := Drain(outputType, totalFileSize, lines[..i]);
          progressReports == old(progressReports) + d.reports &&
          finished == (old(finished) || d.completed) &&
          d.halt.NotHalted?
      {
        assert lines[..i + 1][..i] == lines[..i];
        var event := ClassifyLine(outputType, totalFileSize, lines[i]);
        match event {
          case StopsReading =>
            DrainConcat(outputType, totalFileSize, DrainStart, lines[..i + 1], lines[i + 1..]);
            HaltIsFinal(outputType, totalFileSize, Drain(outputType, totalFileSize, lines[..i + 1]), lines[i + 1..]);
            assert lines[..i + 1] + lines[i + 1..] == lines;
            return ReturnedEarly;
          case ParseFailure =>
            DrainConcat(outputType, totalFileSize, DrainStart, lines[..i + 1], lines[i + 1..]);
            HaltIsFinal(outputType, totalFileSize, Drain(outputType, totalFileSize, lines[..i + 1]), lines[i + 1..]);
            assert lines[..i + 1] + lines[i + 1..] == lines;
            return Threw;
          case Completed =>
            finished := true;
          case Progress(p) =>
            if p > -1.0 {
              progressReports := progressReports + [Percent(p)];
            }
          case ProgressInfinite =>
            progressReports := progressReports + [PlusInfinity];
          case Ignored =>
        }
        i := i + 1;
      }
      assert lines[..|lines|] == lines;
      halt := if end.ReadFailure? then Threw else NotHalted;
    }

    /** readStdOut / readStdErr: a stream that cannot be obtained is not read. */
    method ReadOutput(stream: LineStream) returns (halt: Halt)
      modifies this
      ensures episode == old(episode)
      ensures stream.Unavailable? ==>
        halt == NotHalted && finished == old(finished) && progressReports == old(progressReports)
      ensures stream.Lines? ==>
        var d := Drain(episode.outputFileType, episode.totalFileSize, stream.lines);
        progressReports == old(progressReports) + d.reports &&
        finished == (old(finished) || d.completed) &&
        halt == (if d.halt.NotHalted? && stream.end.ReadFailure? then Threw else d.halt)
    {
      if stream.Unavailable? {
        return NotHalted;
      }
      halt := ReadStream(stream.lines, stream.end);
    }
  }
}
