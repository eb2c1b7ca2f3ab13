/** The upload filters of the two video converters: `allowed_file` in
    src/outros/web_video_converter.py accepts the video extensions of that
    tool, and the one in src/outros/web_video_converter_optimized.py picks the
    video or the audio set by file type.  Both take the text after the last
    '.' of the name, lower-cased. */
module UploadFilter {
  import opened Basics
  import opened Text

  /** `ALLOWED_EXTENSIONS` of the plain converter. */
  const ConverterExtensions: set<string> := {"mp4", "avi", "mov", "mkv", "wmv", "flv", "m4v"}
  /** `ALLOWED_VIDEO_EXTENSIONS` of the optimized converter. */
  const VideoExtensions: set<string> := {"mp4", "avi", "mov", "mkv", "webm", "flv"}
  /** `ALLOWED_AUDIO_EXTENSIONS` of the optimized converter. */
  const AudioExtensions: set<string> := {"wav", "mp3", "m4a", "flac", "ogg", "aac"}

  /** Position of the last '.', if any. */
  function LastDot(s: string): (r: Option<nat>)
    ensures r.None? <==> forall k | 0 <= k < |s| :: s[k] != '.'
    ensures r.Some? ==> r.value < |s| && s[r.value] == '.' && forall k | r.value < k < |s| :: s[k] != '.'
  {
    if |s| == 0 then None
    else if s[|s| - 1] == '.' then Some(|s| - 1)
    else
      var r := LastDot(s[..|s| - 1]);
      assert forall k | 0 <= k < |s| - 1 :: s[..|s| - 1][k] == s[k];
      r
  }

  /** `filename.rsplit('.', 1)[1]` when the name has a '.'. */
  function Extension(filename: string): (r: Option<string>)
    ensures r.None? <==> forall k | 0 <= k < |filename| :: filename[k] != '.'
    ensures r.Some? ==> forall k | 0 <= k < |r.value| :: r.value[k] != '.'
    ensures r.Some? ==> exists stem :: filename == stem + "." + r.value
  {
    var dot := LastDot(filename);
    if dot.None? then None
    else
      var i := dot.value;
      assert filename == filename[..i] + "." + filename[i + 1..];
      Some(filename[i + 1..])
  }

  /** `'.' in filename and filename.rsplit('.', 1)[1].lower() in allowed`. */
  function Accepts(filename: string, allowed: set<string>): (r: bool)
    ensures r ==> exists k | 0 <= k < |filename| :: filename[k] == '.'
    ensures r <==> Extension(filename).Some? && Lower(Extension(filename).value) in allowed
  {
    var ext := Extension(filename);
    ext.Some? && Lower(ext.value) in allowed
  }

  /** `allowed_file` of the plain converter. */
  function AllowedFile(filename: string): (r: bool)
    ensures r <==> Accepts(filename, ConverterExtensions)
  {
    Accepts(filename, ConverterExtensions)
  }

  /** `allowed_file` of the optimized converter: the video set for file type
      `"video"`, the audio set for any other. */
  function AllowedFileOfType(filename: string, fileType: string): (r: bool)
    ensures fileType == "video" ==> (r <==> Accepts(filename, VideoExtensions))
    ensures fileType != "video" ==> (r <==> Accepts(filename, AudioExtensions))
  {
    Accepts(filename, if fileType == "video" then VideoExtensions else AudioExtensions)
  }

  /** Only the part after the last '.' decides: any stem followed by a
      dot-free extension is judged by that extension alone. */
  lemma {:induction false} OnlyLastExtensionCounts(stem: string, ext: string, allowed: set<string>)
    requires forall k | 0 <= k < |ext| :: ext[k] != '.'
    ensures Extension(stem + "." + ext) == Some(ext)
    ensures Accepts(stem + "." + ext, allowed) <==> Lower(ext) in allowed
  {
    var s := stem + "." + ext;
    var dot := LastDot(s);
    assert s[|stem|] == '.';
    assert forall k | |stem| < k < |s| :: s[k] == ext[k - |stem| - 1];
    assert dot.value == |stem|;
    assert s[|stem| + 1..] == ext;
  }

  /** Lower-casing changes no '.' into something else, nor anything into a '.'. */
  lemma LowerKeepsDots(s: string)
    ensures forall k | 0 <= k < |s| :: Lower(s)[k] == '.' <==> s[k] == '.'
  {
  }

  /** Lower-casing a lower-cased character changes nothing. */
  lemma LowerCharIdempotent(c: char)
    ensures LowerChar(LowerChar(c)) == LowerChar(c)
  {
  }

  /** The name's case does not matter: a name is accepted exactly when its
      lower-cased form is. */
  lemma AcceptsIgnoresCase(filename: string, allowed: set<string>)
    ensures Accepts(Lower(filename), allowed) == Accepts(filename, allowed)
  {
    var low := Lower(filename);
    LowerKeepsDots(filename);
    var dot := LastDot(filename);
    var lowDot := LastDot(low);
    if dot.Some? {
      var i := dot.value;
      assert lowDot.Some?;
      assert lowDot.value == i;
      var e := filename[i + 1..];
      var le := low[i + 1..];
      assert |le| == |e|;
      forall k | 0 <= k < |e| ensures Lower(le)[k] == Lower(e)[k] {
        assert le[k] == LowerChar(e[k]);
        LowerCharIdempotent(e[k]);
      }
      assert Lower(le) == Lower(e);
    }
  }

  /** "talk.MP4" is accepted by the plain converter: case does not matter. */
  lemma UpperCaseExtensionAccepted()
    ensures AllowedFile("talk.MP4")
  {
    assert "talk" + "." + "MP4" == "talk.MP4";
    assert Lower("MP4") == "mp4";
    OnlyLastExtensionCounts("talk", "MP4", ConverterExtensions);
    assert "mp4" in ConverterExtensions;
  }

  /** "talk.mp4.txt" is refused: only the last extension counts. */
  lemma InnerExtensionIgnored()
    ensures !AllowedFile("talk.mp4.txt")
  {
    assert "talk.mp4" + "." + "txt" == "talk.mp4.txt";
    assert Lower("txt") == "txt";
    OnlyLastExtensionCounts("talk.mp4", "txt", ConverterExtensions);
    assert "txt" !in ConverterExtensions by {
      forall e | e in ConverterExtensions ensures e[0] != 't' {
      }
    }
  }

  /** A name without a '.' is refused even when it spells an extension. */
  lemma BareExtensionRefused()
    ensures !AllowedFile("mp4")
  {
  }

  /** "webm" is a video extension of the optimized converter only. */
  lemma WebmIsOptimizedVideoOnly()
    ensures AllowedFileOfType("talk.webm", "video")
    ensures !AllowedFileOfType("talk.webm", "audio")
    ensures !AllowedFile("talk.webm")
  {
    WebmSplits();
    WebmIsVideo();
    WebmIsNotAudio();
    WebmIsNotConverterVideo();
  }

  lemma WebmSplits()
    ensures "talk" + "." + "webm" == "talk.webm"
    ensures Lower("webm") == "webm"
  {
  }

  lemma WebmIsVideo()
    ensures Accepts("talk" + "." + "webm", VideoExtensions)
  {
    WebmSplits();
    OnlyLastExtensionCounts("talk", "webm", VideoExtensions);
  }

  lemma WebmIsNotAudio()
    ensures !Accepts("talk" + "." + "webm", AudioExtensions)
  {
    WebmSplits();
    OnlyLastExtensionCounts("talk", "webm", AudioExtensions);
    assert "webm" !in AudioExtensions by {
      forall e | e in AudioExtensions ensures |e| == 3 || e[0] == 'f' {
      }
    }
  }

  lemma WebmIsNotConverterVideo()
    ensures !Accepts("talk" + "." + "webm", ConverterExtensions)
  {
    WebmSplits();
    OnlyLastExtensionCounts("talk", "webm", ConverterExtensions);
    assert "webm" !in ConverterExtensions by {
      forall e | e in ConverterExtensions ensures |e| == 3 {
      }
    }
  }

  /** Any file type other than "video" selects the audio set. */
  lemma AnyOtherTypeIsAudio()
    ensures AllowedFileOfType("voice.Mp3", "audio")
    ensures AllowedFileOfType("voice.Mp3", "anything")
    ensures !AllowedFileOfType("voice.Mp3", "video")
  {
    assert "voice" + "." + "Mp3" == "voice.Mp3";
    assert Lower("Mp3") == "mp3";
    OnlyLastExtensionCounts("voice", "Mp3", AudioExtensions);
    assert "mp3" in AudioExtensions;
    assert "audio"[0] != "video"[0] && |"anything"| != |"video"|;
    OnlyLastExtensionCounts("voice", "Mp3", VideoExtensions);
    assert "mp3" !in VideoExtensions by {
      forall e | e in VideoExtensions ensures |e| != 3 || e[2] != '3' {
      }
    }
  }
}
