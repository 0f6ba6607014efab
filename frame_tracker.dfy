/** The server's per-attempt frame tolerance and cooldown machine
    (backend/routes/proctoring.py, analyze_frame). */
module FrameTracker {
  import opened Wrappers

  const NO_FACE_THRESHOLD: int := 3      // frames
  const NO_FACE_TIME_WINDOW: real := 8.0 // seconds
  const EVENT_COOLDOWN: real := 2.0      // seconds

  const NO_FACE := "NO_FACE"

  type AttemptId = string

  /** One call of the foreign log_event, with the clock reading of the frame that caused it. */
  datatype LogRecord = LogRecord(event: string, attemptId: AttemptId, at: real)

  /** What the face analyser reports about a frame. */
  datatype FaceResult = FaceResult(faces: int, direction: string, event: Option<string>)

  /** The JSON values that appear in a frame response. */
  datatype Json = JNull | JBool(b: bool) | JInt(i: int) | JStr(s: string) | JOther

  /** The three module-level dictionaries and the events logged so far. */
  datatype Trackers = Trackers(
    lastFaceSeen: map<AttemptId, real>,
    noFaceCounter: map<AttemptId, int>,
    lastEventTime: map<AttemptId, real>,
    log: seq<LogRecord>)

  /** dict.setdefault: an existing entry is kept, a missing one is added; no other key moves. */
  function SetDefault<V>(m: map<AttemptId, V>, k: AttemptId, v: V): (r: map<AttemptId, V>)
    ensures k in r && r[k] == (if k in m then m[k] else v)
    ensures r.Keys == m.Keys + {k}
    ensures forall k' :: k' in m && k' != k ==> r[k'] == m[k']
  {
    if k in m then m else m[k := v]
  }

  /** The three setdefault calls that start tracking an attempt. */
  function InitTracking(t: Trackers, id: AttemptId, now: real): (r: Trackers)
    ensures id in r.lastFaceSeen && id in r.noFaceCounter && id in r.lastEventTime
    ensures r.lastFaceSeen[id] == (if id in t.lastFaceSeen then t.lastFaceSeen[id] else now)
    ensures r.noFaceCounter[id] == (if id in t.noFaceCounter then t.noFaceCounter[id] else 0)
    ensures r.lastEventTime[id] == (if id in t.lastEventTime then t.lastEventTime[id] else 0.0)
    ensures forall a :: a != id ==> OthersUnchanged(t, r, a)
    ensures r.log == t.log
  {
    Trackers(SetDefault(t.lastFaceSeen, id, now),
             SetDefault(t.noFaceCounter, id, 0),
             SetDefault(t.lastEventTime, id, 0.0),
             t.log)
  }

  /** Entries of attempt `a` are the same in both tracker states. */
  ghost predicate OthersUnchanged(t: Trackers, r: Trackers, a: AttemptId) {
    (a in r.lastFaceSeen <==> a in t.lastFaceSeen) &&
    (a in t.lastFaceSeen ==> r.lastFaceSeen[a] == t.lastFaceSeen[a]) &&
    (a in r.noFaceCounter <==> a in t.noFaceCounter) &&
    (a in t.noFaceCounter ==> r.noFaceCounter[a] == t.noFaceCounter[a]) &&
    (a in r.lastEventTime <==> a in t.lastEventTime) &&
    (a in t.lastEventTime ==> r.lastEventTime[a] == t.lastEventTime[a])
  }

  /** Whether a NO_FACE frame, after its counter increment, is logged. */
  predicate NoFaceLogged(t: Trackers, id: AttemptId, now: real)
    requires id in t.noFaceCounter && id in t.lastFaceSeen
  {
    t.noFaceCounter[id] + 1 >= NO_FACE_THRESHOLD
    && now - t.lastFaceSeen[id] > NO_FACE_TIME_WINDOW
  }

  /** Whether a frame with a face and event `event` is logged. */
  predicate OtherEventLogged(t: Trackers, id: AttemptId, now: real, event: Option<string>)
    requires id in t.lastEventTime
  {
    Truthy(event) && now - t.lastEventTime[id] > EVENT_COOLDOWN
  }

  /** The tracker part of analyze_frame: what one frame at time `now` does to the
      dictionaries and the event log. */
  function Analyze(t: Trackers, id: AttemptId, now: real, event: Option<string>): (r: Trackers)
    ensures var i := InitTracking(t, id, now);
      id in r.lastFaceSeen && id in r.noFaceCounter && id in r.lastEventTime &&
      (event == Some(NO_FACE) ==>
        // the face was not seen: last_face_seen is left as it was
        r.lastFaceSeen[id] == i.lastFaceSeen[id] &&
        (NoFaceLogged(i, id, now) ==>
          r.noFaceCounter[id] == 0 && r.lastEventTime[id] == now &&
          r.log == t.log + [LogRecord(NO_FACE, id, now)]) &&
        (!NoFaceLogged(i, id, now) ==>
          r.noFaceCounter[id] == i.noFaceCounter[id] + 1 &&
          r.lastEventTime[id] == i.lastEventTime[id] && r.log == t.log)) &&
      (event != Some(NO_FACE) ==>
        r.lastFaceSeen[id] == now && r.noFaceCounter[id] == 0 &&
        (OtherEventLogged(i, id, now, event) ==>
          r.lastEventTime[id] == now && r.log == t.log + [LogRecord(event.value, id, now)]) &&
        (!OtherEventLogged(i, id, now, event) ==>
          r.lastEventTime[id] == i.lastEventTime[id] && r.log == t.log))
  {
    var i := InitTracking(t, id, now);
    if event == Some(NO_FACE) then NoFaceFrame(i, id, now) else FaceFrame(i, id, now, event)
  }

  /** The NO_FACE tolerance branch, on tracked state. */
  function NoFaceFrame(i: Trackers, id: AttemptId, now: real): (r: Trackers)
    requires id in i.lastFaceSeen && id in i.noFaceCounter && id in i.lastEventTime
    ensures r.lastFaceSeen == i.lastFaceSeen
    ensures r.log == i.log || r.log == i.log + [LogRecord(NO_FACE, id, now)]
    ensures r.log != i.log <==> NoFaceLogged(i, id, now)
    ensures r.log != i.log ==>
      r.noFaceCounter == i.noFaceCounter[id := 0] && r.lastEventTime == i.lastEventTime[id := now]
    ensures r.log == i.log ==>
      r.noFaceCounter == i.noFaceCounter[id := i.noFaceCounter[id] + 1] && r.lastEventTime == i.lastEventTime
  {
    if NoFaceLogged(i, id, now) then
      i.(noFaceCounter := i.noFaceCounter[id := 0],
         lastEventTime := i.lastEventTime[id := now],
         log := i.log + [LogRecord(NO_FACE, id, now)])
    else
      i.(noFaceCounter := i.noFaceCounter[id := i.noFaceCounter[id] + 1])
  }

  /** The branch for a frame with a face: counters reset, other events under the cooldown. */
  function FaceFrame(i: Trackers, id: AttemptId, now: real, event: Option<string>): (r: Trackers)
    requires id in i.lastFaceSeen && id in i.noFaceCounter && id in i.lastEventTime
    ensures r.lastFaceSeen == i.lastFaceSeen[id := now] && r.noFaceCounter == i.noFaceCounter[id := 0]
    ensures r.log == i.log || (event.Some? && r.log == i.log + [LogRecord(event.value, id, now)])
    ensures r.log != i.log <==> OtherEventLogged(i, id, now, event)
    ensures r.lastEventTime == (if r.log != i.log then i.lastEventTime[id := now] else i.lastEventTime)
  {
    var j := i.(lastFaceSeen := i.lastFaceSeen[id := now],
                noFaceCounter := i.noFaceCounter[id := 0]);
    if OtherEventLogged(j, id, now, event) then
      j.(lastEventTime := j.lastEventTime[id := now],
         log := j.log + [LogRecord(event.value, id, now)])
    else
      j
  }

  /** A frame of one attempt leaves every other attempt's trackers as they were. */
  lemma AnalyzeTouchesOnlyItsAttempt(t: Trackers, id: AttemptId, now: real, event: Option<string>, a: AttemptId)
    requires a != id
    ensures OthersUnchanged(t, Analyze(t, id, now, event), a)
  {
  }

  /** The keys the response starts with. */
  const RESPONSE_KEYS: set<string> :=
    {"faces_detected", "direction", "phone_detected", "status", "warning"}

  /** The response dictionary: fixed defaults, overwritten by the phone detector and the face
      analyser, then updated with whatever evaluate_attempt returned (dict.update). */
  function Response(phone: bool, face: FaceResult, evaluation: map<string, Json>): (r: map<string, Json>)
    ensures r.Keys == RESPONSE_KEYS + evaluation.Keys
    ensures forall k :: k in evaluation ==> r[k] == evaluation[k]
    ensures "faces_detected" !in evaluation ==> r["faces_detected"] == JInt(face.faces)
    ensures "direction" !in evaluation ==> r["direction"] == JStr(face.direction)
    ensures "phone_detected" !in evaluation ==> r["phone_detected"] == JBool(phone)
    ensures "status" !in evaluation ==> r["status"] == JNull
    ensures "warning" !in evaluation ==> r["warning"] == JNull
  {
    var defaults := map["faces_detected" := JInt(0), "direction" := JStr("CENTER"),
                        "phone_detected" := JBool(false), "status" := JNull, "warning" := JNull];
    var filled := defaults["phone_detected" := JBool(phone)]
                          ["faces_detected" := JInt(face.faces)]
                          ["direction" := JStr(face.direction)];
    filled + evaluation
  }

  /** The time of the last event logged for attempt `id`; 0 before any (the initial
      last_event_time). */
  function LastLogTime(log: seq<LogRecord>, id: AttemptId): real {
    if log == [] then 0.0
    else if log[|log| - 1].attemptId == id then log[|log| - 1].at
    else LastLogTime(log[..|log| - 1], id)
  }

  /** last_event_time always holds the time of the attempt's last logged event. */
  ghost predicate Consistent(t: Trackers) {
    (forall a :: a in t.lastEventTime ==> t.lastEventTime[a] == LastLogTime(t.log, a)) &&
    (forall a :: a !in t.lastEventTime ==> LastLogTime(t.log, a) == 0.0)
  }

  /** Every logged event other than NO_FACE came more than EVENT_COOLDOWN seconds after the
      previous logged event of the same attempt (or after time 0). */
  ghost predicate CooldownRespected(log: seq<LogRecord>) {
    forall k :: 0 <= k < |log| && log[k].event != NO_FACE ==>
      log[k].at - LastLogTime(log[..k], log[k].attemptId) > EVENT_COOLDOWN
  }

  ghost predicate Invariant(t: Trackers) {
    Consistent(t) && CooldownRespected(t.log)
  }

  function EmptyTrackers(): Trackers {
    Trackers(map[], map[], map[], [])
  }

  lemma EmptyTrackersInvariant()
    ensures Invariant(EmptyTrackers())
  {
  }

  lemma LastLogTimeAppend(log: seq<LogRecord>, rec: LogRecord, a: AttemptId)
    ensures LastLogTime(log + [rec], a) == if rec.attemptId == a then rec.at else LastLogTime(log, a)
  {
    assert (log + [rec])[..|log|] == log;
  }

  /** One frame keeps the invariant. */
  lemma AnalyzeKeepsInvariant(t: Trackers, id: AttemptId, now: real, event: Option<string>)
    requires Invariant(t)
    ensures Invariant(Analyze(t, id, now, event))
  {
    var r := Analyze(t, id, now, event);
    var i := InitTracking(t, id, now);
    assert Consistent(i);
    if r.log == t.log {
      forall a | a in r.lastEventTime
        ensures r.lastEventTime[a] == LastLogTime(r.log, a)
      {
        if a != id { assert OthersUnchanged(t, r, a); }
      }
    } else {
      var rec := r.log[|t.log|];
      assert r.log == t.log + [rec];
      assert rec.attemptId == id && rec.at == now;
      forall a ensures LastLogTime(r.log, a) == if a == id then now else LastLogTime(t.log, a) {
        LastLogTimeAppend(t.log, rec, a);
      }
      forall a | a in r.lastEventTime
        ensures r.lastEventTime[a] == LastLogTime(r.log, a)
      {
        if a != id { assert OthersUnchanged(t, r, a); }
      }
      forall k | 0 <= k < |r.log| && r.log[k].event != NO_FACE
        ensures r.log[k].at - LastLogTime(r.log[..k], r.log[k].attemptId) > EVENT_COOLDOWN
      {
        if k < |t.log| {
          assert r.log[..k] == t.log[..k];
        } else {
          assert r.log[..k] == t.log;
          assert event != Some(NO_FACE);
        }
      }
    }
  }

  /** A sequence of frames, each with its attempt, clock reading and analyser event. */
  datatype Frame = Frame(id: AttemptId, now: real, event: Option<string>)

  /** The frames analysed one after another: the log only grows, by at most one record per
      frame, and every new record belongs to the attempt of one of the frames. */
  function AnalyzeAll(t: Trackers, frames: seq<Frame>): (r: Trackers)
    ensures t.log <= r.log && |r.log| <= |t.log| + |frames|
    ensures forall k :: |t.log| <= k < |r.log| ==> exists f :: f in frames && f.id == r.log[k].attemptId
    decreases |frames|
  {
    if frames == [] then t
    else AnalyzeAll(Analyze(t, frames[0].id, frames[0].now, frames[0].event), frames[1..])
  }

  /** For any frames in any order and with any clock readings, last_event_time tracks the
      log and the cooldown holds between logged events of one attempt. */
  lemma {:induction false} AnalyzeAllKeepsInvariant(t: Trackers, frames: seq<Frame>)
    requires Invariant(t)
    ensures Invariant(AnalyzeAll(t, frames))
    decreases |frames|
  {
    if frames != [] {
      AnalyzeKeepsInvariant(t, frames[0].id, frames[0].now, frames[0].event);
      AnalyzeAllKeepsInvariant(Analyze(t, frames[0].id, frames[0].now, frames[0].event), frames[1..]);
    }
  }

  /** The analyser's module state: the three dictionaries, and the log_event calls. */
  class FrameAnalyzer {
    var lastFaceSeen: map<AttemptId, real>
    var noFaceCounter: map<AttemptId, int>
    var lastEventTime: map<AttemptId, real>
    var logged: seq<LogRecord>

    function Snapshot(): Trackers
      reads this
    {
      Trackers(lastFaceSeen, noFaceCounter, lastEventTime, logged)
    }

    ghost predicate Valid()
      reads this
    {
      Invariant(Snapshot())
    }

    /** The module is loaded with three empty dictionaries. */
    constructor ()
      ensures Valid() && Snapshot() == EmptyTrackers()
    {
      lastFaceSeen, noFaceCounter, lastEventTime, logged := map[], map[], map[], [];
    }

    /** The three setdefault calls. */
    method StartTracking(id: AttemptId, now: real)
      modifies this
      ensures Snapshot() == InitTracking(old(Snapshot()), id, now)
    {
      if id !in lastFaceSeen { lastFaceSeen := lastFaceSeen[id := now]; }
      if id !in noFaceCounter { noFaceCounter := noFaceCounter[id := 0]; }
      if id !in lastEventTime { lastEventTime := lastEventTime[id := 0.0]; }
    }

    /** NO_FACE: one more faceless frame, logged once the threshold and window are passed. */
    method NoFaceTolerance(id: AttemptId, now: real)
      requires id in lastFaceSeen && id in noFaceCounter && id in lastEventTime
      modifies this
      ensures Snapshot() == NoFaceFrame(old(Snapshot()), id, now)
    {
      noFaceCounter := noFaceCounter[id := noFaceCounter[id] + 1];
      if noFaceCounter[id] >= NO_FACE_THRESHOLD && now - lastFaceSeen[id] > NO_FACE_TIME_WINDOW {
        logged := logged + [LogRecord(NO_FACE, id, now)];
        lastEventTime := lastEventTime[id := now];
        noFaceCounter := noFaceCounter[id := 0];
      }
    }

    /** A face was seen: reset the counters; log any other event outside the cooldown. */
    method FaceSeen(id: AttemptId, now: real, event: Option<string>)
      requires id in lastFaceSeen && id in noFaceCounter && id in lastEventTime
      modifies this
      ensures Snapshot() == FaceFrame(old(Snapshot()), id, now, event)
    {
      lastFaceSeen := lastFaceSeen[id := now];
      noFaceCounter := noFaceCounter[id := 0];
      if event.Some? && event.value != "" && now - lastEventTime[id] > EVENT_COOLDOWN {
        logged := logged + [LogRecord(event.value, id, now)];
        lastEventTime := lastEventTime[id := now];
      }
    }

    /** analyze_frame for one decoded frame, read at clock time `now`. The phone detector's
        and face analyser's verdicts, and the evaluate_attempt result, are inputs. */
    method AnalyzeFrame(id: AttemptId, now: real, phone: bool, face: FaceResult,
                        evaluation: map<string, Json>)
      returns (response: map<string, Json>)
      requires Valid()
      modifies this
      ensures Valid()
      ensures Snapshot() == Analyze(old(Snapshot()), id, now, face.event)
      ensures response == Response(phone, face, evaluation)
    {
      ghost var before := Snapshot();
      StartTracking(id, now);

      response := map["faces_detected" := JInt(0), "direction" := JStr("CENTER"),
                      "phone_detected" := JBool(false), "status" := JNull, "warning" := JNull];
      response := response["phone_detected" := JBool(phone)];
      response := response["faces_detected" := JInt(face.faces)];
      response := response["direction" := JStr(face.direction)];
      assert response + evaluation == Response(phone, face, evaluation);
      ghost var filled := response;

      var event := face.event;
      if event == Some(NO_FACE) {
        NoFaceTolerance(id, now);
      } else {
        FaceSeen(id, now, event);
      }
      response := response + evaluation;
      assert response == filled + evaluation;
      AnalyzeKeepsInvariant(before, id, now, event);
    }
  }
}
