/** What the analyzers learn about a path before any decoding: whether it
    exists and its suffix, plus the errors they raise. */
module Paths {

  /** A path as seen through `pathlib.Path`: the `exists()` answer is the oracle value `present`
      and `suffix` is the text `Path.suffix` returns. */
  datatype FileRef = FileRef(path: string, present: bool, suffix: string)

  /** The exceptions the core raises; each aborts the analysis in progress. */
  datatype Error =
    | FileNotFound(path: string)          // FileNotFoundError
    | UnsupportedFormat(suffix: string)   // ValueError from the dispatcher, lower-cased suffix
    | UnsupportedAudioFormat(suffix: string)  // ValueError from the audio analyzer, suffix as written
    | UnsupportedVideoFormat(suffix: string)  // ValueError from the video analyzer, suffix as written
    | LoadFailure(path: string)           // RuntimeError wrapping a failed `librosa.load`
    | OpenFailure(path: string)           // RuntimeError when `cv2.VideoCapture` does not open

  predicate IsUpper(c: char)
  {
    'A' <= c <= 'Z'
  }

  function LowerChar(c: char): (d: char)
    ensures !IsUpper(d)
    ensures !IsUpper(c) ==> d == c
  {
    if IsUpper(c) then (c as int + 32) as char else c
  }

  /** `str.lower()` on ASCII letters. */
  function Lower(s: string): (r: string)
    ensures |r| == |s|
    ensures forall i :: 0 <= i < |s| ==> r[i] == LowerChar(s[i])
  {
    if |s| == 0 then [] else Lower(s[..|s| - 1]) + [LowerChar(s[|s| - 1])]
  }
}
