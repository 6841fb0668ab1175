/** The top-level `DeepfakeAnalyzer`: two analyzer slots that are filled on
    first use, and the dispatch of a file to one of them by its suffix.

    The analyzer is an immutable value here; every operation that may fill
    a slot returns the analyzer state it leaves behind together with its
    result. */
module Deepfake {
  import opened Wrappers
  import opened Paths
  import opened Report
  import Audio
  import Video

  datatype DeepfakeAnalyzer = DeepfakeAnalyzer(
    verbose: bool,
    audio: Option<Audio.AudioAnalyzer>,
    video: Option<Video.VideoAnalyzer>)

  /** What the file system and the decoders yield for one path: the path
      itself with its existence and suffix, what `librosa.load` makes of it
      and what `cv2.VideoCapture` makes of it. */
  datatype Media = Media(file: FileRef, audio: Audio.AudioSource, video: Video.VideoSource)

  /** `DeepfakeAnalyzer(verbose)`: no analyzer has been created yet. */
  function New(verbose: bool): (d: DeepfakeAnalyzer)
    ensures d.verbose == verbose && d.audio == None && d.video == None
  {
    DeepfakeAnalyzer(verbose, None, None)
  }

  /** `_get_audio_analyzer`: creates the audio analyzer on first use and
      returns the stored one afterwards; the video slot is left alone. */
  function GetAudioAnalyzer(d: DeepfakeAnalyzer): (r: (DeepfakeAnalyzer, Audio.AudioAnalyzer))
    ensures r.0.audio == Some(r.1)
    ensures r.0.verbose == d.verbose && r.0.video == d.video
    ensures d.audio.Some? ==> r.0 == d && r.1 == d.audio.value
    ensures d.audio.None? ==> r.1 == Audio.AudioAnalyzer(d.verbose)
  {
    match d.audio
    case Some(a) => (d, a)
    case None =>
      var a := Audio.AudioAnalyzer(d.verbose);
      (d.(audio := Some(a)), a)
  }

  /** `_get_video_analyzer`: the same for the video slot; the analyzer is
      created with the default number of sampled frames. */
  function GetVideoAnalyzer(d: DeepfakeAnalyzer): (r: (DeepfakeAnalyzer, Video.VideoAnalyzer))
    ensures r.0.video == Some(r.1)
    ensures r.0.verbose == d.verbose && r.0.audio == d.audio
    ensures d.video.Some? ==> r.0 == d && r.1 == d.video.value
    ensures d.video.None? ==> r.1 == Video.VideoAnalyzer(d.verbose, Video.DefaultSampleFrames)
  {
    match d.video
    case Some(v) => (d, v)
    case None =>
      var v := Video.VideoAnalyzer(d.verbose, Video.DefaultSampleFrames);
      (d.(video := Some(v)), v)
  }

  /** `analyze_audio`: straight to the audio analyzer, whatever the suffix;
      the audio analyzer's own existence and format checks still apply. */
  function AnalyzeAudio(d: DeepfakeAnalyzer, m: Media): (r: (DeepfakeAnalyzer, Result<AnalysisResult, Error>))
    ensures r.0 == GetAudioAnalyzer(d).0
    ensures !m.file.present ==> r.1 == Failure(FileNotFound(m.file.path))
    ensures m.file.present && !Audio.SupportsFile(m.file) ==> r.1 == Failure(UnsupportedAudioFormat(m.file.suffix))
    ensures r.1.Success? <==> m.file.present && Audio.SupportsFile(m.file) && m.audio.Decoded?
    ensures r.1.Success? ==> r.1.value.fileType == "audio" && r.1.value.filePath == m.file.path
  {
    var (d', a) := GetAudioAnalyzer(d);
    (d', Audio.Analyze(a, m.file, m.audio))
  }

  /** `analyze_video`: straight to the video analyzer, whatever the suffix;
      the video analyzer's own existence and format checks still apply. */
  function AnalyzeVideo(d: DeepfakeAnalyzer, m: Media): (r: (DeepfakeAnalyzer, Result<AnalysisResult, Error>))
    ensures r.0 == GetVideoAnalyzer(d).0
    ensures !m.file.present ==> r.1 == Failure(FileNotFound(m.file.path))
    ensures m.file.present && !Video.SupportsFile(m.file) ==> r.1 == Failure(UnsupportedVideoFormat(m.file.suffix))
    ensures r.1.Success? <==> m.file.present && Video.SupportsFile(m.file) && m.video.Opened?
    ensures r.1.Success? ==> r.1.value.fileType == "video" && r.1.value.filePath == m.file.path
  {
    var (d', v) := GetVideoAnalyzer(d);
    (d', Video.Analyze(v, m.file, m.video))
  }

  /** `analyze`: existence first, then the lower-cased suffix is looked up in
      the audio formats and only then in the video formats; any other suffix
      is rejected without creating an analyzer. */
  function Analyze(d: DeepfakeAnalyzer, m: Media): (r: (DeepfakeAnalyzer, Result<AnalysisResult, Error>))
    ensures !m.file.present ==> r == (d, Failure(FileNotFound(m.file.path)))
    ensures m.file.present && Lower(m.file.suffix) in Audio.SupportedFormats ==> r == AnalyzeAudio(d, m)
    ensures m.file.present && Lower(m.file.suffix) in Video.SupportedFormats ==> r == AnalyzeVideo(d, m)
    ensures m.file.present && Lower(m.file.suffix) !in Audio.SupportedFormats + Video.SupportedFormats ==>
              r == (d, Failure(UnsupportedFormat(Lower(m.file.suffix))))
  {
    var file := m.file;
    if !file.present then (d, Failure(FileNotFound(file.path)))
    else
      var suffix := Lower(file.suffix);
      if suffix in Audio.SupportedFormats then AnalyzeAudio(d, m)
      else if suffix in Video.SupportedFormats then AnalyzeVideo(d, m)
      else (d, Failure(UnsupportedFormat(suffix)))
  }

  // ---------------------------------------------------------------------
  // Properties
  // ---------------------------------------------------------------------

  /** No suffix is both an audio and a video format, so trying the audio
      set first decides nothing that trying the video set first would not. */
  lemma FormatsDisjoint()
    ensures Audio.SupportedFormats !! Video.SupportedFormats
  {
    forall s | s in Audio.SupportedFormats
      ensures s !in Video.SupportedFormats
    {
      assert |s| >= 4 && s[0] == '.';
      assert s[1] in {'m', 'w', 'f', 'o', 'a'};
    }
  }

  /** No file is supported by both analyzers. */
  lemma SupportedByOneAnalyzer(f: FileRef)
    ensures !(Audio.SupportsFile(f) && Video.SupportsFile(f))
  {
    FormatsDisjoint();
  }

  /** Asking for the same analyzer twice creates it at most once: the second
      call changes nothing and hands back the instance the first one stored. */
  lemma GettersIdempotent(d: DeepfakeAnalyzer)
    ensures GetAudioAnalyzer(GetAudioAnalyzer(d).0) == GetAudioAnalyzer(d)
    ensures GetVideoAnalyzer(GetVideoAnalyzer(d).0) == GetVideoAnalyzer(d)
  {
  }

  /** Every outcome of `analyze` and the analyzer state it leaves: the state
      only ever gains the analyzer of the modality the file went to, and an
      analyzer already stored is reused. */
  lemma AnalyzeSlots(d: DeepfakeAnalyzer, m: Media)
    ensures Analyze(d, m).0.verbose == d.verbose
    ensures d.audio.Some? ==> Analyze(d, m).0.audio == d.audio
    ensures d.video.Some? ==> Analyze(d, m).0.video == d.video
    ensures Analyze(d, m).0.audio != d.audio ==>
              m.file.present && Lower(m.file.suffix) in Audio.SupportedFormats
              && Analyze(d, m).0.audio == Some(Audio.AudioAnalyzer(d.verbose))
    ensures Analyze(d, m).0.video != d.video ==>
              m.file.present && Lower(m.file.suffix) in Video.SupportedFormats
              && Analyze(d, m).0.video == Some(Video.VideoAnalyzer(d.verbose, Video.DefaultSampleFrames))
  {
    FormatsDisjoint();
  }

  /** `analyze` reports an unsupported format exactly when the file exists
      and its suffix is neither an audio nor a video format, and then it
      leaves the analyzer as it was. */
  lemma RejectedIffUnknown(d: DeepfakeAnalyzer, m: Media)
    ensures (Analyze(d, m).1.Failure? && Analyze(d, m).1.error.UnsupportedFormat?)
        <==> m.file.present && Lower(m.file.suffix) !in Audio.SupportedFormats + Video.SupportedFormats
    ensures Analyze(d, m).1.Failure? && Analyze(d, m).1.error.UnsupportedFormat? ==> Analyze(d, m).0 == d
  {
    if m.file.present {
      var suffix := Lower(m.file.suffix);
      if suffix in Audio.SupportedFormats {
        assert Audio.SupportsFile(m.file);
      } else if suffix in Video.SupportedFormats {
        assert Video.SupportsFile(m.file);
      }
    }
  }

  /** A file that exists and has a suffix of one modality is analyzed by
      that modality alone: the per-analyzer existence and format checks
      always pass, so the result is a success exactly when the file decodes,
      and it carries that modality's file type. */
  lemma DispatchedOutcome(d: DeepfakeAnalyzer, m: Media)
    requires m.file.present
    ensures Lower(m.file.suffix) in Audio.SupportedFormats ==>
              && (Analyze(d, m).1.Success? <==> m.audio.Decoded?)
              && (Analyze(d, m).1.Success? ==> Analyze(d, m).1.value.fileType == "audio")
              && (m.audio.Undecodable? ==> Analyze(d, m).1 == Failure(LoadFailure(m.file.path)))
    ensures Lower(m.file.suffix) in Video.SupportedFormats ==>
              && (Analyze(d, m).1.Success? <==> m.video.Opened?)
              && (Analyze(d, m).1.Success? ==> Analyze(d, m).1.value.fileType == "video")
              && (m.video.Unopenable? ==> Analyze(d, m).1 == Failure(OpenFailure(m.file.path)))
  {
    FormatsDisjoint();
  }

  /** `r` as it would read for a file at `path`: a result's `file_path`
      and the path an error names are replaced, everything else is kept. */
  function AtPath(r: Result<AnalysisResult, Error>, path: string): Result<AnalysisResult, Error>
  {
    match r
    case Success(v) => Success(v.(filePath := path))
    case Failure(FileNotFound(_)) => Failure(FileNotFound(path))
    case Failure(LoadFailure(_)) => Failure(LoadFailure(path))
    case Failure(OpenFailure(_)) => Failure(OpenFailure(path))
    case Failure(_) => r
  }

  /** The suffix is lower-cased before the lookup, and it is the only thing
      about a path the dispatch looks at: two files whose suffixes have the
      same lower-case form (`x.MP3` and `y.mp3`, say), which exist alike and
      decode alike, are dispatched alike and leave the same analyzer state.
      Their results differ at most in the path they report. */
  lemma CaseInsensitive(d: DeepfakeAnalyzer, m: Media, m': Media)
    requires m'.file.present == m.file.present && m'.audio == m.audio && m'.video == m.video
    requires Lower(m'.file.suffix) == Lower(m.file.suffix)
    ensures Analyze(d, m').0 == Analyze(d, m).0
    ensures Analyze(d, m').1 == AtPath(Analyze(d, m).1, m'.file.path)
  {
    if m.file.present {
      var a := GetAudioAnalyzer(d).1;
      var v := GetVideoAnalyzer(d).1;
      if Lower(m.file.suffix) in Audio.SupportedFormats {
        assert Audio.SupportsFile(m'.file) && Audio.SupportsFile(m.file);
        assert Audio.Analyze(a, m'.file, m.audio) == AtPath(Audio.Analyze(a, m.file, m.audio), m'.file.path);
      } else if Lower(m.file.suffix) in Video.SupportedFormats {
        assert Video.SupportsFile(m'.file) && Video.SupportsFile(m.file);
        assert Video.Analyze(v, m'.file, m.video) == AtPath(Video.Analyze(v, m.file, m.video), m'.file.path);
      }
    }
  }

  /** A missing file is reported as missing whatever its suffix, before any
      analyzer is created. */
  lemma MissingBeforeSuffix(d: DeepfakeAnalyzer, m: Media, suffix: string)
    requires !m.file.present
    ensures Analyze(d, m.(file := m.file.(suffix := suffix))) == (d, Failure(FileNotFound(m.file.path)))
  {
  }

  /** `analyze_audio` skips the dispatch but not the audio analyzer's own
      format check: a video file sent there is rejected as an unsupported
      audio format (with the suffix as written), after the audio slot has
      been filled. */
  lemma DirectRouteKeepsFormatCheck(d: DeepfakeAnalyzer, m: Media)
    requires m.file.present && Lower(m.file.suffix) in Video.SupportedFormats
    ensures AnalyzeAudio(d, m).1 == Failure(UnsupportedAudioFormat(m.file.suffix))
    ensures AnalyzeAudio(d, m).0.audio.Some?
  {
    FormatsDisjoint();
  }

  /** A `.MP3` file takes the audio route, and it is dispatched exactly like
      a `.mp3` file that exists and decodes alike: same analyzer state, and
      the same result up to the path it reports. */
  lemma UpperCaseMp3(d: DeepfakeAnalyzer, m: Media, lower: Media)
    requires m.file.present && m.file.suffix == ".MP3"
    requires lower.file.suffix == ".mp3"
    requires lower.file.present && lower.audio == m.audio && lower.video == m.video
    ensures Analyze(d, m) == AnalyzeAudio(d, m)
    ensures Analyze(d, m).0 == Analyze(d, lower).0
    ensures Analyze(d, m).1 == AtPath(Analyze(d, lower).1, m.file.path)
  {
    assert Lower(".MP3") == ".mp3";
    CaseInsensitive(d, lower, m);
  }

  /** An unknown suffix such as `.unsupported` is rejected and leaves a fresh
      analyzer fresh. */
  lemma UnknownSuffixRejected(verbose: bool, m: Media)
    requires m.file.present && m.file.suffix == ".unsupported"
    ensures Analyze(New(verbose), m) == (New(verbose), Failure(UnsupportedFormat(".unsupported")))
  {
    assert Lower(".unsupported") == ".unsupported";
  }
}
