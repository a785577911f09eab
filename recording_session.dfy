/**
 * The recording-session controller (components/recording-session.tsx): the
 * component that records one interview. Browser events become methods: the
 * microphone answer, each MediaRecorder data event, each one-second tick,
 * the pause button, the finish button and unmounting. Browser devices and
 * the network are parameters: a method receives what getUserMedia,
 * getCurrentPosition or the server answered.
 *
 * `trace` lists the effects on the outside world in the order the component
 * causes them, so that ordering promises can be stated.
 */
module Capture {
  import opened Wrappers
  import opened JsValue
  import opened Api
  import ClientStorage
  import Decimal
  import Text

  /** MediaRecorder.state. */
  datatype RecorderState = Inactive | Recording | Paused

  /** A position fix; the numbers are passed through and never computed with. */
  datatype Coords = Coords(latitude: real, longitude: real, accuracy: real)

  /** What the component does to the world outside its own state. */
  datatype Effect =
    | WatchStarted          // navigator.geolocation.watchPosition
    | RecorderStarted       // mediaRecorder.start(10000)
    | RecorderPaused
    | RecorderResumed
    | RecorderStopped
    | TimerStarted          // the one-second setInterval
    | TimerCleared
    | TracksStopped         // every microphone track stopped
    | PositionRequested     // navigator.geolocation.getCurrentPosition
    | Sent(request: HttpRequest)
    | CompletionSignalled   // onComplete()

  /** What getUserMedia did: granted a stream, or rejected with an exception. */
  datatype MicrophoneOutcome = Granted | Refused(thrown: Thrown)

  const GeoUnavailableMessage := "Геолокация недоступна"
  const InitFailedMessage := "Ошибка инициализации"
  const CompleteFailedMessage := "Ошибка завершения сессии"

  /** `err instanceof Error ? err.message : fallback`. */
  function ErrorText(t: Thrown, fallback: string): (text: string)
    ensures t.TypeError? || t.OtherError? ==> text == t.message
    ensures t.Rejected? || t.NonError? ==> text == fallback
  {
    match t
    case TypeError(m) => m
    case OtherError(m) => m
    case _ => fallback
  }

  /** formatTime: minutes, a colon, and the seconds padded to two digits. */
  function FormatTime(seconds: nat): (t: string)
    ensures |t| >= 4 && t[|t| - 3] == ':'
    ensures Decimal.AllDigits(t[..|t| - 3]) && Decimal.AllDigits(t[|t| - 2..])
  {
    var m := Decimal.NatToString(seconds / 60);
    var f := Text.PadStart(Decimal.NatToString(seconds % 60), 2, '0');
    SecondsField(seconds);
    var t := m + ":" + f;
    assert t[..|t| - 3] == m && t[|t| - 2..] == f;
    t
  }

  /** Reads an `m:ss` display back: digits, a colon, and two digits below 60. */
  function ParseTime(t: string): Option<nat> {
    if |t| >= 4 && t[|t| - 3] == ':' && Decimal.AllDigits(t[..|t| - 3]) && Decimal.AllDigits(t[|t| - 2..])
       && Decimal.DigitsValue(t[|t| - 2..]) < 60
    then Some(Decimal.DigitsValue(t[..|t| - 3]) * 60 + Decimal.DigitsValue(t[|t| - 2..]))
    else None
  }

  /** The seconds field of formatTime is two digits whose value is `seconds mod 60`. */
  lemma SecondsField(s: nat)
    ensures var f := Text.PadStart(Decimal.NatToString(s % 60), 2, '0');
      |f| == 2 && Decimal.AllDigits(f) && Decimal.DigitsValue(f) == s % 60
  {
    var d := Decimal.NatToString(s % 60);
    var f := Text.PadStart(d, 2, '0');
    Decimal.DigitsValueOfNatToString(s % 60);
    if s % 60 < 10 {
      assert d == [Decimal.DigitChar(s % 60)];
      assert f == ['0'] + d;
      assert f[..1] == "0";
    } else {
      assert s % 60 / 10 >= 1;
      assert |d| == 2 by {
        assert d == Decimal.NatToString(s % 60 / 10) + [Decimal.DigitChar(s % 60 % 10)];
      }
      assert f == d;
    }
  }

  /** A display built from a minutes field and a valid seconds field reads back as their sum. */
  lemma ParseJoined(m: string, f: string)
    requires |m| >= 1 && Decimal.AllDigits(m)
    requires |f| == 2 && Decimal.AllDigits(f) && Decimal.DigitsValue(f) < 60
    ensures ParseTime(m + ":" + f) == Some(Decimal.DigitsValue(m) * 60 + Decimal.DigitsValue(f))
  {
    var t := m + ":" + f;
    assert t[..|t| - 3] == m;
    assert t[|t| - 2..] == f;
  }

  /** formatTime loses nothing: the display reads back as the same number of seconds. */
  lemma FormatTimeRoundTrip(s: nat)
    ensures ParseTime(FormatTime(s)) == Some(s)
  {
    var m := Decimal.NatToString(s / 60);
    var f := Text.PadStart(Decimal.NatToString(s % 60), 2, '0');
    SecondsField(s);
    Decimal.DigitsValueOfNatToString(s / 60);
    MinutesAndSeconds(s);
    calc {
      ParseTime(FormatTime(s));
      ParseTime(m + ":" + f);
      { ParseJoined(m, f); }
      Some(Decimal.DigitsValue(m) * 60 + Decimal.DigitsValue(f));
      Some(s / 60 * 60 + s % 60);
      Some(s);
    }
  }

  lemma MinutesAndSeconds(s: nat)
    ensures (s / 60) * 60 + s % 60 == s
  {
  }

  /**
   * What finishing releases, in order: the recorder if it is active, the
   * timer if it runs, the microphone tracks if there is a stream, and then
   * the position is asked for.
   */
  function Releases(recorderActive: bool, timerRunning: bool, hasStream: bool): (r: seq<Effect>)
    ensures |r| >= 1 && r[|r| - 1] == PositionRequested
    ensures forall i :: 0 <= i < |r| ==> !r[i].Sent? && r[i] != CompletionSignalled
  {
    (if recorderActive then [RecorderStopped] else [])
    + (if timerRunning then [TimerCleared] else [])
    + (if hasStream then [TracksStopped] else [])
    + [PositionRequested]
  }

  /** The completeSession request for a session, sent with a given token. */
  function CompletionRequest(sessionId: string, token: Value): HttpRequest {
    HttpRequest(ApiBaseUrl + SessionPath(sessionId, "complete"), "POST", RequestHeaders(map[], token), JsonBody)
  }

  /** One recording session, as the component instance holds it. */
  class RecordingSession {
    const sessionId: string
    /** survey.min_duration_sec */
    const minDurationSec: int
    /** The shared API client. */
    const client: ApiClient

    var isRecording: bool
    var isPaused: bool
    var duration: nat
    var canFinish: bool
    var loading: bool
    /** The error banner; Str("") shows none. */
    var error: Value
    /** streamRef.current is set. */
    var hasStream: bool
    /** The microphone tracks have not been stopped. */
    var tracksLive: bool
    /** mediaRecorderRef.current is set. */
    var hasRecorder: bool
    var recorder: RecorderState
    /** The one-second interval is running. */
    var timerRunning: bool
    /** audioChunksRef.current: recorded audio not yet uploaded. */
    var chunks: seq<AudioChunk>
    var trace: seq<Effect>

    /** Every non-empty chunk the recorder delivered, in order. */
    ghost var emitted: seq<AudioChunk>
    /** The chunks covered by uploads that succeeded, in order. */
    ghost var uploaded: seq<AudioChunk>

    ghost predicate Valid()
      reads this
    {
      && (isRecording <==> hasRecorder && recorder != Inactive)
      && (!hasRecorder ==> recorder == Inactive)
      && (recorder == Paused ==> isPaused)
      && (recorder == Recording ==> !isPaused)
      && (timerRunning ==> isRecording)
      && (hasRecorder ==> hasStream)
      && (tracksLive ==> hasStream)
      && canFinish == (duration >= minDurationSec)
      && uploaded + chunks == emitted
      && (forall i :: 0 <= i < |chunks| ==> chunks[i].size > 0)
    }

    /** The auto-start effect would call startRecording now. */
    predicate AutoStartDue()
      reads this
    {
      !loading && hasRecorder && !isRecording
    }

    /** The component as mounted, after the minimum-duration effect's first run. */
    constructor(sessionId: string, minDurationSec: int, client: ApiClient)
      ensures Valid()
      ensures this.sessionId == sessionId && this.minDurationSec == minDurationSec && this.client == client
      ensures !isRecording && !isPaused && duration == 0 && loading && error == Str("")
      ensures !hasStream && !tracksLive && !hasRecorder && recorder == Inactive && !timerRunning
      ensures chunks == [] && trace == [] && emitted == [] && uploaded == []
      ensures canFinish == (0 >= minDurationSec)
    {
      this.sessionId := sessionId;
      this.minDurationSec := minDurationSec;
      this.client := client;
      isRecording, isPaused, duration, loading, error := false, false, 0, true, Str("");
      hasStream, tracksLive, hasRecorder, recorder, timerRunning := false, false, false, Inactive, false;
      chunks, trace, emitted, uploaded := [], [], [], [];
      canFinish := 0 >= minDurationSec;
    }

    /**
     * The synchronous start of initialization: install a stored token in the
     * client, then start the position watch; getUserMedia is then awaited.
     */
    method BeginInitialization(store: ClientStorage.Storage)
      requires Valid()
      modifies this, client
      ensures Valid()
      ensures var stored := ClientStorage.Lookup(store.items, ClientStorage.TokenKey);
        client.token == if stored.Some? && stored.value != "" then Str(stored.value) else old(client.token)
      ensures trace == old(trace) + [WatchStarted]
      ensures isRecording == old(isRecording) && isPaused == old(isPaused) && duration == old(duration)
      ensures loading == old(loading) && error == old(error) && canFinish == old(canFinish)
      ensures hasStream == old(hasStream) && tracksLive == old(tracksLive) && hasRecorder == old(hasRecorder)
      ensures recorder == old(recorder) && timerRunning == old(timerRunning) && chunks == old(chunks)
      ensures emitted == old(emitted) && uploaded == old(uploaded)
    {
      var stored := store.GetItem(ClientStorage.TokenKey);
      if stored.Some? && stored.value != "" {
        client.SetToken(Str(stored.value));
      }
      trace := trace + [WatchStarted];
    }

    /**
     * getUserMedia settled. On a stream the recorder is created (inactive)
     * with its data handler; on a rejection the error is shown. Either way
     * loading ends.
     */
    method MicrophoneAnswered(outcome: MicrophoneOutcome)
      requires Valid() && !hasStream
      modifies this
      ensures Valid()
      ensures !loading
      ensures outcome.Granted? ==> hasStream && tracksLive && hasRecorder && recorder == Inactive && error == old(error)
      ensures outcome.Granted? ==> AutoStartDue()
      ensures outcome.Refused? ==> !hasStream && !tracksLive && !hasRecorder && recorder == Inactive
                                   && error == Str(ErrorText(outcome.thrown, InitFailedMessage))
      ensures isRecording == old(isRecording) && isPaused == old(isPaused) && duration == old(duration)
      ensures canFinish == old(canFinish) && timerRunning == old(timerRunning) && chunks == old(chunks)
      ensures trace == old(trace) && emitted == old(emitted) && uploaded == old(uploaded)
    {
      match outcome
      case Granted =>
        hasStream, tracksLive := true, true;
        hasRecorder, recorder := true, Inactive;
        loading := false;
      case Refused(t) =>
        error := Str(ErrorText(t, InitFailedMessage));
        loading := false;
    }

    /** A position from the watch: it is sent to the server and any failure is only logged. */
    method PositionUpdate(reply: Reply, parse: Parser) returns (sent: HttpRequest)
      requires Valid()
      modifies this, client
      ensures Valid()
      ensures sent.url == ApiBaseUrl + SessionPath(sessionId, "location") && sent.body == JsonBody
      ensures sent.headers == RequestHeaders(map[], old(client.token))
      ensures trace == old(trace) + [Sent(sent)]
      ensures client.token == if IsUnauthorized(reply) then Null else old(client.token)
      ensures isRecording == old(isRecording) && isPaused == old(isPaused) && duration == old(duration)
      ensures loading == old(loading) && error == old(error) && canFinish == old(canFinish)
      ensures hasStream == old(hasStream) && tracksLive == old(tracksLive) && hasRecorder == old(hasRecorder)
      ensures recorder == old(recorder) && timerRunning == old(timerRunning) && chunks == old(chunks)
      ensures emitted == old(emitted) && uploaded == old(uploaded)
    {
      var result;
      result, sent := client.UpdateLocation(sessionId, reply, parse);
      trace := trace + [Sent(sent)];
    }

    /** The watch reported an error: only the banner changes; recording is not affected. */
    method WatchFailed()
      requires Valid()
      modifies this
      ensures Valid()
      ensures error == Str(GeoUnavailableMessage)
      ensures isRecording == old(isRecording) && isPaused == old(isPaused) && duration == old(duration)
      ensures loading == old(loading) && canFinish == old(canFinish)
      ensures hasStream == old(hasStream) && tracksLive == old(tracksLive) && hasRecorder == old(hasRecorder)
      ensures recorder == old(recorder) && timerRunning == old(timerRunning) && chunks == old(chunks)
      ensures trace == old(trace) && emitted == old(emitted) && uploaded == old(uploaded)
    {
      error := Str(GeoUnavailableMessage);
    }

    /**
     * startRecording: only an inactive recorder is started; then recording is
     * on, pause is off, and the one-second timer runs.
     */
    method StartRecording()
      requires Valid()
      modifies this
      ensures Valid()
      ensures old(hasRecorder && recorder == Inactive) ==>
        && recorder == Recording && isRecording && !isPaused && timerRunning
        && trace == old(trace) + [RecorderStarted, TimerStarted]
      ensures !old(hasRecorder && recorder == Inactive) ==>
        && recorder == old(recorder) && isRecording == old(isRecording) && isPaused == old(isPaused)
        && timerRunning == old(timerRunning) && trace == old(trace)
      ensures duration == old(duration) && loading == old(loading) && error == old(error) && canFinish == old(canFinish)
      ensures hasStream == old(hasStream) && tracksLive == old(tracksLive) && hasRecorder == old(hasRecorder)
      ensures chunks == old(chunks) && emitted == old(emitted) && uploaded == old(uploaded)
    {
      if hasRecorder && recorder == Inactive {
        recorder := Recording;
        isRecording, isPaused := true, false;
        timerRunning := true;
        trace := trace + [RecorderStarted, TimerStarted];
      }
    }

    /** The auto-start effect, which runs whenever `loading` changes. */
    method AutoStartEffect()
      requires Valid()
      modifies this
      ensures Valid()
      ensures old(AutoStartDue()) ==>
        && recorder == Recording && isRecording && !isPaused && timerRunning
        && trace == old(trace) + [RecorderStarted, TimerStarted]
      ensures !old(AutoStartDue()) ==>
        && recorder == old(recorder) && isRecording == old(isRecording) && isPaused == old(isPaused)
        && timerRunning == old(timerRunning) && trace == old(trace)
      ensures duration == old(duration) && loading == old(loading) && error == old(error) && canFinish == old(canFinish)
      ensures hasStream == old(hasStream) && tracksLive == old(tracksLive) && hasRecorder == old(hasRecorder)
      ensures chunks == old(chunks) && emitted == old(emitted) && uploaded == old(uploaded)
    {
      if !loading && hasRecorder && !isRecording {
        StartRecording();
      }
    }

    /**
     * One tick of the interval, followed by the minimum-duration effect: the
     * duration grows by exactly one, whether or not the recorder is paused,
     * and canFinish, once true, stays true.
     */
    method Tick()
      requires Valid() && timerRunning
      modifies this
      ensures Valid()
      ensures duration == old(duration) + 1
      ensures canFinish == (duration >= minDurationSec)
      ensures old(canFinish) ==> canFinish
      ensures isRecording == old(isRecording) && isPaused == old(isPaused) && loading == old(loading) && error == old(error)
      ensures hasStream == old(hasStream) && tracksLive == old(tracksLive) && hasRecorder == old(hasRecorder)
      ensures recorder == old(recorder) && timerRunning == old(timerRunning) && chunks == old(chunks)
      ensures trace == old(trace) && emitted == old(emitted) && uploaded == old(uploaded)
    {
      duration := duration + 1;
      canFinish := duration >= minDurationSec;
    }

    /**
     * togglePause, offered only while recording: flips isPaused and pauses or
     * resumes the recorder. The timer is left alone, so duration keeps growing
     * while paused.
     */
    method TogglePause()
      requires Valid() && isRecording
      modifies this
      ensures Valid()
      ensures isPaused == !old(isPaused)
      ensures recorder == (if isPaused then Paused else Recording)
      ensures trace == old(trace) + [if isPaused then RecorderPaused else RecorderResumed]
      ensures timerRunning == old(timerRunning) && duration == old(duration) && isRecording
      ensures loading == old(loading) && error == old(error) && canFinish == old(canFinish)
      ensures hasStream == old(hasStream) && tracksLive == old(tracksLive) && hasRecorder == old(hasRecorder)
      ensures chunks == old(chunks) && emitted == old(emitted) && uploaded == old(uploaded)
    {
      if isPaused {
        recorder := Recording;
        isPaused := false;
        trace := trace + [RecorderResumed];
      } else {
        recorder := Paused;
        isPaused := true;
        trace := trace + [RecorderPaused];
      }
    }

    /**
     * The recorder's ondataavailable handler, taken as one step (the model
     * lets no other event run while the upload is awaited). An empty chunk is
     * ignored. Otherwise the chunk is appended and the whole buffer, in order,
     * is uploaded as one blob; the buffer is emptied if the upload succeeded
     * and kept whole if it failed, so it is resent with the next chunk.
     */
    method DataAvailable(chunk: AudioChunk, reply: Reply, parse: Parser) returns (sent: Option<HttpRequest>)
      requires Valid()
      modifies this, client
      ensures Valid()
      ensures chunk.size == 0 ==>
        && sent == None && chunks == old(chunks) && trace == old(trace)
        && client.token == old(client.token)
      ensures chunk.size > 0 ==>
        && sent.Some?
        && sent.value == HttpRequest(ApiBaseUrl + SessionPath(sessionId, "audio"), "POST",
                                     UploadHeaders(old(client.token)), AudioForm(old(chunks) + [chunk]))
        && trace == old(trace) + [Sent(sent.value)]
        && chunks == (if UploadOutcome(reply, parse).Ok? then [] else old(chunks) + [chunk])
        && client.token == if IsUnauthorized(reply) then Null else old(client.token)
      ensures emitted == old(emitted) + (if chunk.size > 0 then [chunk] else [])
      ensures isRecording == old(isRecording) && isPaused == old(isPaused) && duration == old(duration)
      ensures loading == old(loading) && error == old(error) && canFinish == old(canFinish)
      ensures hasStream == old(hasStream) && tracksLive == old(tracksLive) && hasRecorder == old(hasRecorder)
      ensures recorder == old(recorder) && timerRunning == old(timerRunning)
    {
      sent := None;
      if chunk.size > 0 {
        ghost var before := chunks;
        chunks := chunks + [chunk];
        emitted := emitted + [chunk];
        assert uploaded + chunks == emitted by {
          assert uploaded + (before + [chunk]) == (uploaded + before) + [chunk];
        }
        var result, request := client.UploadAudio(sessionId, chunks, reply, parse);
        sent := Some(request);
        trace := trace + [Sent(request)];
        if result.Ok? {
          uploaded := uploaded + chunks;
          chunks := [];
          assert uploaded + chunks == uploaded;
        }
      }
    }

    /**
     * finishRecording, offered once canFinish holds and nothing is loading.
     * It stops an active recorder, clears the timer and stops the microphone
     * tracks, and only then asks for a position. `fix` is what
     * getCurrentPosition delivered: it has no error callback, so without a fix
     * the call never settles and loading stays on. With a fix it calls
     * completeSession: onComplete follows success, the error banner failure,
     * and loading ends either way. Nothing here uploads the buffer: the final
     * data event that stopping the recorder causes is a separate
     * DataAvailable, which uploads the buffer together with the last piece.
     */
    method FinishRecording(fix: Option<Coords>, reply: Reply, parse: Parser) returns (completed: bool)
      requires Valid() && canFinish && !loading
      modifies this, client
      ensures Valid()
      ensures recorder == Inactive && !isRecording && !timerRunning
      ensures old(hasStream) ==> !tracksLive
      ensures trace == old(trace) + Releases(old(recorder) != Inactive, old(timerRunning), old(hasStream))
                       + (if fix.Some? then [Sent(CompletionRequest(sessionId, old(client.token)))] else [])
                       + (if completed then [CompletionSignalled] else [])
      ensures completed <==> fix.Some? && RequestOutcome(reply, parse).Ok?
      ensures fix.None? ==> loading && error == old(error) && client.token == old(client.token)
      ensures fix.Some? ==> !loading && client.token == (if IsUnauthorized(reply) then Null else old(client.token))
      ensures fix.Some? && !completed ==>
        error == Or(RequestOutcome(reply, parse).error.Message(), Str(CompleteFailedMessage))
      ensures completed ==> error == old(error)
      ensures fix.Some? && !completed && hasRecorder ==> AutoStartDue()
      ensures isPaused == old(isPaused) && duration == old(duration) && canFinish == old(canFinish)
      ensures hasStream == old(hasStream) && hasRecorder == old(hasRecorder)
      ensures chunks == old(chunks) && emitted == old(emitted) && uploaded == old(uploaded)
    {
      completed := false;
      loading := true;
      Release();
      if fix.Some? {
        completed := Complete(reply, parse);
      }
    }

    /** The completeSession call once a position is known, and what follows it. */
    method Complete(reply: Reply, parse: Parser) returns (completed: bool)
      requires Valid() && loading
      modifies this, client
      ensures Valid() && !loading
      ensures trace == old(trace) + [Sent(CompletionRequest(sessionId, old(client.token)))]
                       + (if completed then [CompletionSignalled] else [])
      ensures completed <==> RequestOutcome(reply, parse).Ok?
      ensures client.token == if IsUnauthorized(reply) then Null else old(client.token)
      ensures !completed ==> error == Or(RequestOutcome(reply, parse).error.Message(), Str(CompleteFailedMessage))
      ensures completed ==> error == old(error)
      ensures recorder == old(recorder) && isRecording == old(isRecording) && timerRunning == old(timerRunning)
      ensures tracksLive == old(tracksLive) && isPaused == old(isPaused) && duration == old(duration) && canFinish == old(canFinish)
      ensures hasStream == old(hasStream) && hasRecorder == old(hasRecorder)
      ensures chunks == old(chunks) && emitted == old(emitted) && uploaded == old(uploaded)
    {
      var result, request := client.CompleteSession(sessionId, reply, parse);
      trace := trace + [Sent(request)];
      completed := result.Ok?;
      if completed {
        trace := trace + [CompletionSignalled];
      } else {
        error := Or(result.error.Message(), Str(CompleteFailedMessage));
      }
      loading := false;
    }

    /** The synchronous part of finishRecording after loading is switched on. */
    method Release()
      requires Valid() && loading
      modifies this
      ensures Valid() && loading
      ensures recorder == Inactive && !isRecording && !timerRunning
      ensures old(hasStream) ==> !tracksLive
      ensures trace == old(trace) + Releases(old(recorder) != Inactive, old(timerRunning), old(hasStream))
      ensures isPaused == old(isPaused) && duration == old(duration) && canFinish == old(canFinish) && error == old(error)
      ensures hasStream == old(hasStream) && hasRecorder == old(hasRecorder)
      ensures chunks == old(chunks) && emitted == old(emitted) && uploaded == old(uploaded)
    {
      trace := trace + Releases(recorder != Inactive, timerRunning, hasStream);
      recorder := Inactive;
      isRecording := false;
      timerRunning := false;
      tracksLive := false;
    }

    /**
     * The cleanup when the component unmounts: clear the timer and stop the
     * microphone tracks. It does not call stop() on the recorder and does not
     * clear the position watch. With every track ended the browser stops the
     * recorder itself and delivers a final data event; that event is a
     * separate DataAvailable, and the self-stop is not reflected in `recorder`.
     */
    method Unmount()
      requires Valid()
      modifies this
      ensures Valid()
      ensures !timerRunning && (old(hasStream) ==> !tracksLive)
      ensures trace == old(trace) + (if old(timerRunning) then [TimerCleared] else [])
                                  + (if old(hasStream) then [TracksStopped] else [])
      ensures recorder == old(recorder) && isRecording == old(isRecording) && isPaused == old(isPaused)
      ensures duration == old(duration) && loading == old(loading) && error == old(error) && canFinish == old(canFinish)
      ensures hasStream == old(hasStream) && hasRecorder == old(hasRecorder)
      ensures chunks == old(chunks) && emitted == old(emitted) && uploaded == old(uploaded)
    {
      if timerRunning {
        timerRunning := false;
        trace := trace + [TimerCleared];
      }
      if hasStream {
        tracksLive := false;
        trace := trace + [TracksStopped];
      }
    }
  }

  /** An effect that gives a device or the timer back. */
  predicate IsRelease(x: Effect) {
    x == RecorderStopped || x == TimerCleared || x == TracksStopped
  }

  /** Every release in `e` comes before every request sent. */
  predicate ReleasedBeforeSending(e: seq<Effect>) {
    forall i, j :: 0 <= i < |e| && 0 <= j < |e| && e[i].Sent? && IsRelease(e[j]) ==> j < i
  }

  /**
   * What finishing appends (its releases, then the completion request and
   * the completion signal) has the recorder, the timer and the microphone
   * released before anything goes to the network.
   */
  lemma FinishReleasesBeforeSending(active: bool, timer: bool, stream: bool, tail: seq<Effect>)
    requires forall k :: 0 <= k < |tail| ==> !IsRelease(tail[k])
    ensures ReleasedBeforeSending(Releases(active, timer, stream) + tail)
  {
    var r := Releases(active, timer, stream);
    assert forall j :: |r| <= j < |r + tail| ==> (r + tail)[j] == tail[j - |r|];
  }

  /**
   * A recording paused right after it started keeps counting: one tick later
   * the duration is one second and the recorder is still paused.
   */
  method PausedTimeCounts(sessionId: string, minDurationSec: int) returns (duration: nat, paused: bool, recording: bool)
    ensures duration == 1 && paused && recording
  {
    var client := new ApiClient();
    var session := new RecordingSession(sessionId, minDurationSec, client);
    session.MicrophoneAnswered(Granted);
    session.AutoStartEffect();
    session.TogglePause();
    session.Tick();
    duration, paused, recording := session.duration, session.isPaused, session.isRecording;
  }

  /**
   * A chunk whose upload fails is sent again with the next one: the second
   * upload carries both, in order, and when it succeeds nothing is left.
   */
  method FailedChunkIsResent(sessionId: string, a: AudioChunk, b: AudioChunk, parse: Parser)
    returns (second: HttpRequest, left: seq<AudioChunk>)
    requires a.size > 0 && b.size > 0
    ensures second.body == AudioForm([a, b])
    ensures left == []
  {
    var client := new ApiClient();
    var session := new RecordingSession(sessionId, 0, client);
    var failed := FetchFailed(TypeError(FetchFailure));
    var accepted := Responded(Response(200, "", ""));
    assert UploadOutcome(failed, parse).Err?;
    assert !IsJson("");
    assert UploadOutcome(accepted, parse).Ok?;
    var first := session.DataAvailable(a, failed, parse);
    assert session.chunks == [a];
    var sent := session.DataAvailable(b, accepted, parse);
    second, left := sent.value, session.chunks;
  }

  /**
   * The final data event after finishing: a piece whose upload failed is still
   * buffered when the recorder is stopped, and the data event that stop()
   * causes uploads it together with the last piece, after the stop.
   */
  method FinalDataEventFlushes(sessionId: string, a: AudioChunk, last: AudioChunk, reply: Reply, parse: Parser)
    returns (flushed: HttpRequest, left: seq<AudioChunk>, recorder: RecorderState)
    requires a.size > 0 && last.size > 0
    ensures flushed.body == AudioForm([a, last])
    ensures left == [] && recorder == Inactive
  {
    var client := new ApiClient();
    var session := new RecordingSession(sessionId, 0, client);
    session.MicrophoneAnswered(Granted);
    session.AutoStartEffect();
    var failed := FetchFailed(TypeError(FetchFailure));
    var accepted := Responded(Response(200, "", ""));
    assert UploadOutcome(failed, parse).Err?;
    assert !IsJson("");
    assert UploadOutcome(accepted, parse).Ok?;
    var first := session.DataAvailable(a, failed, parse);
    assert session.chunks == [a];
    var completed := session.FinishRecording(None, reply, parse);
    var sent := session.DataAvailable(last, accepted, parse);
    flushed, left, recorder := sent.value, session.chunks, session.recorder;
  }

  /**
   * Finishing when no position ever arrives: the devices are released, the
   * session is never completed and the loading screen stays up.
   */
  method FinishWithoutPositionHangs(sessionId: string, reply: Reply, parse: Parser)
    returns (completed: bool, loading: bool, tracksLive: bool, timerRunning: bool)
    ensures !completed && loading && !tracksLive && !timerRunning
  {
    var client := new ApiClient();
    var session := new RecordingSession(sessionId, 0, client);
    session.MicrophoneAnswered(Granted);
    session.AutoStartEffect();
    completed := session.FinishRecording(None, reply, parse);
    loading, tracksLive, timerRunning := session.loading, session.tracksLive, session.timerRunning;
  }
}
