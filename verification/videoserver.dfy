/** The MediaPipe frame processor of src/back-end/websocket_video_server.py:
    each decoded frame's extracted features are stored in a history capped at
    1000 entries and counted, and session statistics average the last 30
    entries over whichever of them carry each figure.  Decoding and feature
    extraction are foreign: a frame is modelled by their outcome. */
module VideoFrameServer {
  import opened Basics

  /** `deque(maxlen=1000)`. */
  const HistoryCap: nat := 1000
  /** `[-30:]` in `get_session_stats`. */
  const RecentWindow: nat := 30

  /** The figures the statistics read from an extracted features dictionary,
      each missing when its key (`nervousness_score`, `blink_stats`,
      `raw_metrics`) is absent. */
  datatype Extracted = Extracted(nervousness: Option<real>, blinkRate: Option<real>, handMovement: Option<real>)

  /** What happens to one incoming frame before it is stored: it does not
      decode, feature extraction raises with a message, or features come out. */
  datatype Frame = Undecodable | ExtractionFailed(message: string) | Features(features: Extracted)

  /** A stored features dictionary: the stored object is the one the frame
      number and timing are written into after storing, so it carries them. */
  datatype Entry = Entry(features: Extracted, frameNumber: nat, sessionDuration: real)

  datatype Processor = Processor(history: seq<Entry>, frameCount: nat, startTime: real)

  /** `process_frame` at clock reading `now`: errors leave the processor
      untouched; extracted features are stored, counted, and numbered with the
      new count. */
  function ProcessFrame(p: Processor, frame: Frame, now: real): (r: (Processor, Result<Entry>))
    ensures frame.Undecodable? ==> r == (p, Err("Failed to decode frame"))
    ensures frame.ExtractionFailed? ==> r == (p, Err(frame.message))
    ensures frame.Features? ==>
              && r.1.Ok?
              && r.1.value.features == frame.features
              && r.0.frameCount == p.frameCount + 1
              && r.1.value.frameNumber == r.0.frameCount
              && r.0.history == Push(p.history, r.1.value, HistoryCap)
              && r.0.startTime == p.startTime
  {
    match frame
    case Undecodable => (p, Err("Failed to decode frame"))
    case ExtractionFailed(message) => (p, Err(message))
    case Features(features) =>
      var e := Entry(features, p.frameCount + 1, now - p.startTime);
      (Processor(Push(p.history, e, HistoryCap), p.frameCount + 1, p.startTime), Ok(e))
  }

  /** The history holds the most recent stored frames, at most `HistoryCap`
      of them, numbered consecutively up to the frame count. */
  predicate Consistent(p: Processor)
  {
    && |p.history| <= HistoryCap
    && |p.history| <= p.frameCount
    && forall k | 0 <= k < |p.history| :: p.history[k].frameNumber == p.frameCount - |p.history| + k + 1
  }

  /** Processing any frame keeps the history consistent: the count moves
      exactly when an entry is stored. */
  lemma ProcessFrameKeepsConsistent(p: Processor, frame: Frame, now: real)
    requires Consistent(p)
    ensures Consistent(ProcessFrame(p, frame, now).0)
  {
    if frame.Features? {
      var r := ProcessFrame(p, frame, now);
      NumberedPush(p.history, r.1.value, p.frameCount);
    }
  }

  /** Pushing the entry numbered `count + 1` onto a history numbered up to
      `count` gives a history numbered up to `count + 1`. */
  lemma NumberedPush(h: seq<Entry>, e: Entry, count: nat)
    requires |h| <= HistoryCap && |h| <= count
    requires forall k | 0 <= k < |h| :: h[k].frameNumber == count - |h| + k + 1
    requires e.frameNumber == count + 1
    ensures var h' := Push(h, e, HistoryCap);
            |h'| <= count + 1 && forall k | 0 <= k < |h'| :: h'[k].frameNumber == count + 1 - |h'| + k + 1
  {
    var h' := Push(h, e, HistoryCap);
    var all := h + [e];
    assert h' == all[|all| - |h'|..];
    forall k | 0 <= k < |h'| ensures h'[k].frameNumber == count + 1 - |h'| + k + 1 {
      var j := |all| - |h'| + k;
      assert h'[k] == all[j];
      if j < |h| {
        assert all[j] == h[j];
      } else {
        assert all[j] == e;
      }
    }
  }

  datatype SessionStats = SessionStats(
    totalFrames: nat, sessionDuration: real, currentNervousness: real,
    avgNervousness: real, avgBlinkRate: real, avgHandMovement: real, recentCount: nat)

  function NervousnessOf(h: seq<Entry>): (r: seq<Option<real>>)
    ensures |r| == |h| && forall k | 0 <= k < |h| :: r[k] == h[k].features.nervousness
  {
    seq(|h|, k requires 0 <= k < |h| => h[k].features.nervousness)
  }

  function BlinkRateOf(h: seq<Entry>): (r: seq<Option<real>>)
    ensures |r| == |h| && forall k | 0 <= k < |h| :: r[k] == h[k].features.blinkRate
  {
    seq(|h|, k requires 0 <= k < |h| => h[k].features.blinkRate)
  }

  function HandMovementOf(h: seq<Entry>): (r: seq<Option<real>>)
    ensures |r| == |h| && forall k | 0 <= k < |h| :: r[k] == h[k].features.handMovement
  {
    seq(|h|, k requires 0 <= k < |h| => h[k].features.handMovement)
  }

  /** `get_session_stats` at clock reading `now`: an error without history. */
  function GetSessionStats(p: Processor, now: real): (r: Result<SessionStats>)
    ensures r.Err? <==> |p.history| == 0
    ensures r.Err? ==> r.error == "No metrics available"
    ensures r.Ok? ==> r.value == RecentStats(p, now)
  {
    if |p.history| == 0 then Err("No metrics available") else Ok(RecentStats(p, now))
  }

  /** The statistics of a non-empty session: each figure is averaged over
      the entries of the last 30 that carry it, and is 0 when none does. */
  function RecentStats(p: Processor, now: real): (r: SessionStats)
    requires |p.history| > 0
    ensures var recent := TakeLast(p.history, RecentWindow);
            && r.totalFrames == p.frameCount
            && r.sessionDuration == now - p.startTime
            && r.recentCount == MinNat(|p.history|, RecentWindow)
            && r.currentNervousness == LastOrZero(Somes(NervousnessOf(recent)))
            && AverageOf(r.avgNervousness, Somes(NervousnessOf(recent)))
            && AverageOf(r.avgBlinkRate, Somes(BlinkRateOf(recent)))
            && AverageOf(r.avgHandMovement, Somes(HandMovementOf(recent)))
  {
    var recent := TakeLast(p.history, RecentWindow);
    var nervousness := Somes(NervousnessOf(recent));
    var avgNervousness := PresentMean(NervousnessOf(recent));
    var avgBlinkRate := PresentMean(BlinkRateOf(recent));
    var avgHandMovement := PresentMean(HandMovementOf(recent));
    SessionStats(p.frameCount, now - p.startTime, LastOrZero(nervousness), avgNervousness,
                 avgBlinkRate, avgHandMovement, |recent|)
  }

  /** The mean of the values present, 0 when there are none. */
  function PresentMean(s: seq<Option<real>>): (r: real)
    ensures AverageOf(r, Somes(s))
  {
    MeanOrZero(Somes(s))
  }

  /** A figure no recent entry carries averages to 0. */
  lemma MissingFigureAveragesZero(p: Processor, now: real)
    requires |p.history| > 0
    requires var recent := TakeLast(p.history, RecentWindow);
             forall k | 0 <= k < |recent| :: recent[k].features.blinkRate.None?
    ensures RecentStats(p, now).avgBlinkRate == 0.0
  {
    SomesExtremes(BlinkRateOf(TakeLast(p.history, RecentWindow)));
  }

  /** When every recent entry carries a nervousness score, the average is
      over the whole window and the current score is the latest entry's. */
  lemma CompleteFigureAveragesWindow(p: Processor, now: real)
    requires |p.history| > 0
    requires var recent := TakeLast(p.history, RecentWindow);
             forall k | 0 <= k < |recent| :: recent[k].features.nervousness.Some?
    ensures var recent := TakeLast(p.history, RecentWindow);
            |Somes(NervousnessOf(recent))| == |recent| == RecentStats(p, now).recentCount
    ensures RecentStats(p, now).currentNervousness == p.history[|p.history| - 1].features.nervousness.value
  {
    var recent := TakeLast(p.history, RecentWindow);
    SomesExtremes(NervousnessOf(recent));
    assert recent[|recent| - 1] == p.history[|p.history| - 1];
  }

  /** `reset_session` at clock reading `now`. */
  function ResetSession(p: Processor, now: real): (r: Processor)
    ensures r.history == [] && r.frameCount == 0 && r.startTime == now
  {
    Processor([], 0, now)
  }

  /** A reset leaves a consistent, empty session: the statistics report
      the error, and the next stored frame is numbered 1. */
  lemma ResetStartsOver(p: Processor, now: real, x: Extracted, later: real)
    ensures Consistent(ResetSession(p, now))
    ensures GetSessionStats(ResetSession(p, now), now).Err?
    ensures ProcessFrame(ResetSession(p, now), Features(x), later).1.value.frameNumber == 1
  {
  }
}
