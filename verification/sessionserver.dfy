/** The unified websocket server of src/back-end/websocket_server.py: a
    session of per-frame metrics and transcripts, its statistics and reset,
    and the dispatch of one incoming message to a reply and, for the three
    streaming message types, a broadcast of that reply to every client.
    JSON parsing, frame decoding, the MediaPipe and audio processors and the
    sockets are foreign: a message is modelled by what they make of it. */
module SessionServer {
  import opened Basics

  /** `metrics[-30:]` in `get_session_stats`. */
  const RecentWindow: nat := 30

  /** The figures of one frame's metrics dictionary that the server reads. */
  datatype Metrics = Metrics(timestamp: real, nervousness: real, blinkRate: real, handMovement: real)

  datatype Transcript = Transcript(text: string, timestamp: real, isFinal: bool)

  datatype Session = Session(metrics: seq<Metrics>, transcripts: seq<Transcript>, startTime: real)

  /** What decoding and the MediaPipe processor make of a `video_frame`
      payload: no image, a raised error with its text, or the frame's metrics. */
  datatype VideoOutcome = Undecodable | VideoFailed(detail: string) | Analysed(metrics: Metrics)

  /** What the audio processor makes of an `audio_data` payload: nothing
      (a falsy result), a raised error with its text, or features stamped
      with their time. */
  datatype AudioOutcome = NoFeatures | AudioFailed(detail: string) | AudioFeatures(timestamp: real)

  /** The `data` member of a `transcript` message: something without `.get`
      (the text of the error raised), or a mapping with optional keys. */
  datatype TranscriptPayload = NotMapping(detail: string) | Mapping(text: Option<string>, isFinal: Option<bool>)

  /** A parsed message object: its `type` (missing is `None`) and what its
      payload turns out to be for each type that reads one. */
  datatype Request = Request(msgType: Option<string>, video: VideoOutcome, audio: AudioOutcome, transcript: TranscriptPayload)

  /** An incoming text: not JSON, JSON without `.get` (the text of the error
      raised), or an object. */
  datatype Incoming = Unparseable | NotObject(detail: string) | Parsed(request: Request)

  datatype SessionStats =
    | NoDataYet(sessionDuration: real, totalFrames: nat, message: string)
    | Figures(sessionDuration: real, totalFrames: nat, currentNervousness: real, avgNervousness: real,
              avgBlinkRate: real, avgHandMovement: real, transcriptCount: nat)

  datatype Response =
    | VideoAnalysis(metrics: Metrics, timestamp: real)
    | AudioAnalysis(timestamp: real)
    | TranscriptReceived(text: string, isFinal: bool, timestamp: real)
    | Stats(stats: SessionStats)
    | SessionReset(message: string, timestamp: real)
    | Pong(timestamp: real)
    | ErrorReply(message: string)

  /** What handling one message does: the session afterwards, the reply sent
      to the sender (none for a falsy response), and whether the reply is
      also broadcast to every connected client. */
  datatype Outcome = Outcome(session: Session, reply: Option<Response>, broadcast: bool)

  /** The message types whose replies are broadcast. */
  const Streamed: set<string> := {"video_frame", "audio_data", "transcript"}

  /** `f"{message_type}"`. */
  function TypeText(t: Option<string>): string
  {
    if t.Some? then t.value else "None"
  }

  /** `process_video_frame`: nothing for an undecodable frame, an error reply
      for a processor failure, and otherwise the metrics are stored and sent back. */
  function ProcessVideoFrame(s: Session, v: VideoOutcome): (r: (Session, Option<Response>))
    ensures v.Undecodable? ==> r == (s, None)
    ensures v.VideoFailed? ==> r == (s, Some(ErrorReply("Video processing error: " + v.detail)))
    ensures v.Analysed? ==> r.0 == s.(metrics := s.metrics + [v.metrics])
                            && r.1 == Some(VideoAnalysis(v.metrics, v.metrics.timestamp))
  {
    match v
    case Undecodable => (s, None)
    case VideoFailed(detail) => (s, Some(ErrorReply("Video processing error: " + detail)))
    case Analysed(m) => (s.(metrics := s.metrics + [m]), Some(VideoAnalysis(m, m.timestamp)))
  }

  /** `process_audio_data`: nothing when the processor finds no features. */
  function ProcessAudioData(a: AudioOutcome): (r: Option<Response>)
    ensures r.None? <==> a.NoFeatures?
    ensures a.AudioFailed? ==> r == Some(ErrorReply("Audio processing error: " + a.detail))
    ensures a.AudioFeatures? ==> r == Some(AudioAnalysis(a.timestamp))
  {
    match a
    case NoFeatures => None
    case AudioFailed(detail) => Some(ErrorReply("Audio processing error: " + detail))
    case AudioFeatures(t) => Some(AudioAnalysis(t))
  }

  /** `handle_transcript` at clock reading `now`: a mapping is stored with
      an empty text and a non-final flag for missing keys, and echoed back. */
  function HandleTranscript(s: Session, t: TranscriptPayload, now: real): (r: (Session, Response))
    ensures t.NotMapping? ==> r == (s, ErrorReply("Transcript error: " + t.detail))
    ensures t.Mapping? ==>
              var text := t.text.GetOr("");
              var isFinal := t.isFinal.GetOr(false);
              r.0 == s.(transcripts := s.transcripts + [Transcript(text, now, isFinal)])
              && r.1 == TranscriptReceived(text, isFinal, now)
  {
    match t
    case NotMapping(detail) => (s, ErrorReply("Transcript error: " + detail))
    case Mapping(text, isFinal) =>
      var entry := Transcript(text.GetOr(""), now, isFinal.GetOr(false));
      (s.(transcripts := s.transcripts + [entry]), TranscriptReceived(entry.text, entry.isFinal, now))
  }

  function NervousnessOf(ms: seq<Metrics>): (r: seq<real>)
    ensures |r| == |ms| && forall k | 0 <= k < |ms| :: r[k] == ms[k].nervousness
  {
    seq(|ms|, k requires 0 <= k < |ms| => ms[k].nervousness)
  }

  function BlinkRateOf(ms: seq<Metrics>): (r: seq<real>)
    ensures |r| == |ms| && forall k | 0 <= k < |ms| :: r[k] == ms[k].blinkRate
  {
    seq(|ms|, k requires 0 <= k < |ms| => ms[k].blinkRate)
  }

  function HandMovementOf(ms: seq<Metrics>): (r: seq<real>)
    ensures |r| == |ms| && forall k | 0 <= k < |ms| :: r[k] == ms[k].handMovement
  {
    seq(|ms|, k requires 0 <= k < |ms| => ms[k].handMovement)
  }

  /** `get_session_stats` at clock reading `now`: a "No data yet" report with
      no frames; otherwise every stored frame is counted, the current score is
      the latest, and the averages are over the last 30 frames. */
  function GetSessionStats(s: Session, now: real): (r: SessionStats)
    ensures r.sessionDuration == now - s.startTime
    ensures r.NoDataYet? <==> |s.metrics| == 0
    ensures r.NoDataYet? ==> r.totalFrames == 0 && r.message == "No data yet"
    ensures r.Figures? ==> r == RecentFigures(s, now)
  {
    if |s.metrics| == 0 then NoDataYet(now - s.startTime, 0, "No data yet")
    else RecentFigures(s, now)
  }

  /** The figures of a session with frames. */
  function RecentFigures(s: Session, now: real): (r: SessionStats)
    requires |s.metrics| > 0
    ensures r.Figures?
    ensures var recent := TakeLast(s.metrics, RecentWindow);
            && r.sessionDuration == now - s.startTime
            && r.totalFrames == |s.metrics|
            && r.currentNervousness == s.metrics[|s.metrics| - 1].nervousness
            && AverageOf(r.avgNervousness, NervousnessOf(recent))
            && AverageOf(r.avgBlinkRate, BlinkRateOf(recent))
            && AverageOf(r.avgHandMovement, HandMovementOf(recent))
            && r.transcriptCount == |s.transcripts|
  {
    var recent := TakeLast(s.metrics, RecentWindow);
    var nervousness := NervousnessOf(recent);
    assert nervousness[|nervousness| - 1] == s.metrics[|s.metrics| - 1].nervousness;
    Figures(now - s.startTime, |s.metrics|, LastOrZero(nervousness), WindowMean(nervousness),
            WindowMean(BlinkRateOf(recent)), WindowMean(HandMovementOf(recent)), |s.transcripts|)
  }

  /** `sum(s) / len(s) if s else 0`, stated as an average. */
  function WindowMean(s: seq<real>): (r: real)
    ensures AverageOf(r, s)
  {
    MeanOrZero(s)
  }

  /** `reset_session` at clock reading `now`. */
  function ResetSession(now: real): (r: Session)
    ensures r.metrics == [] && r.transcripts == [] && r.startTime == now
  {
    Session([], [], now)
  }

  /** `handle_message` at clock reading `now`. */
  function HandleMessage(s: Session, incoming: Incoming, now: real): (r: Outcome)
    ensures incoming.Unparseable? ==> r == Outcome(s, Some(ErrorReply("Invalid JSON format")), false)
    ensures incoming.NotObject? ==> r == Outcome(s, Some(ErrorReply("Server error: " + incoming.detail)), false)
    ensures r.broadcast <==> incoming.Parsed? && r.reply.Some? && TypeText(incoming.request.msgType) in Streamed
                             && incoming.request.msgType.Some?
  {
    match incoming
    case Unparseable => Outcome(s, Some(ErrorReply("Invalid JSON format")), false)
    case NotObject(detail) => Outcome(s, Some(ErrorReply("Server error: " + detail)), false)
    case Parsed(req) =>
      var handled := Dispatch(s, req, now);
      Outcome(handled.0, handled.1, handled.1.Some? && req.msgType.Some? && req.msgType.value in Streamed)
  }

  /** The `if`/`elif` chain on the message type. */
  function Dispatch(s: Session, req: Request, now: real): (r: (Session, Option<Response>))
  {
    var t := TypeText(req.msgType);
    if req.msgType == Some("video_frame") then ProcessVideoFrame(s, req.video)
    else if req.msgType == Some("audio_data") then (s, ProcessAudioData(req.audio))
    else if req.msgType == Some("transcript") then
      var h := HandleTranscript(s, req.transcript, now);
      (h.0, Some(h.1))
    else if req.msgType == Some("get_stats") then (s, Some(Stats(GetSessionStats(s, now))))
    else if req.msgType == Some("reset_session") then (ResetSession(now), Some(SessionReset("Session data reset", now)))
    else if req.msgType == Some("ping") then (s, Some(Pong(now)))
    else (s, Some(ErrorReply("Unknown message type: " + t)))
  }

  /** The type a request names when it names one of the six known ones. */
  predicate Known(req: Request)
  {
    req.msgType.Some? && req.msgType.value in {"video_frame", "audio_data", "transcript", "get_stats", "reset_session", "ping"}
  }

  /** An unknown (or missing) type gets an error reply naming it, is not
      broadcast, and leaves the session as it was. */
  lemma UnknownTypeIsRejected(s: Session, req: Request, now: real)
    requires !Known(req)
    ensures HandleMessage(s, Parsed(req), now)
         == Outcome(s, Some(ErrorReply("Unknown message type: " + TypeText(req.msgType))), false)
  {
  }

  /** Every known type is answered, except an undecodable frame or an audio
      chunk without features, which get no reply at all. */
  lemma KnownTypesAreAnswered(s: Session, req: Request, now: real)
    requires Known(req)
    ensures HandleMessage(s, Parsed(req), now).reply.None?
        <==> (req.msgType == Some("video_frame") && req.video.Undecodable?)
             || (req.msgType == Some("audio_data") && req.audio.NoFeatures?)
  {
  }

  /** Queries and pings leave the session alone and are answered only to
      the sender; errors in a streamed type are still broadcast. */
  lemma QueriesAreNotBroadcast(s: Session, req: Request, now: real)
    requires req.msgType in {Some("get_stats"), Some("ping")}
    ensures HandleMessage(s, Parsed(req), now).session == s
    ensures !HandleMessage(s, Parsed(req), now).broadcast
    ensures HandleMessage(s, Parsed(req), now).reply.Some?
  {
  }

  /** A processed frame is counted by the statistics that follow, and is
      their current frame. */
  lemma FrameThenStats(s: Session, req: Request, now: real, later: real)
    requires req.msgType == Some("video_frame") && req.video.Analysed?
    ensures var after := HandleMessage(s, Parsed(req), now).session;
            var stats := GetSessionStats(after, later);
            stats.Figures? && stats.totalFrames == |s.metrics| + 1
            && stats.currentNervousness == req.video.metrics.nervousness
  {
  }

  /** After a reset message the statistics have nothing to report, and the
      transcript count starts over. */
  lemma ResetThenStats(s: Session, req: Request, now: real, later: real)
    requires req.msgType == Some("reset_session")
    ensures var after := HandleMessage(s, Parsed(req), now).session;
            GetSessionStats(after, later) == NoDataYet(later - now, 0, "No data yet")
            && after.transcripts == []
  {
  }
}
