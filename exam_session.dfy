/** The exam page's session controller (frontend/src/pages/Exam.jsx): the state cells
    attemptId, submitted, terminated, warning, current and answers, and the handlers that
    change them.

    Every network call is split in two: a dispatch step, which runs the handler up to its
    `await` (the guard and the request), and a completion step, which runs the code after the
    `await` with the response or the caught exception. Completions of different requests may
    arrive in any order, and a completion applies its response without checking the guard
    again, exactly as the handlers do. */
module ExamSession {
  import opened Wrappers
  import Webcam

  const EXAM_ID := "ai_exam_1"

  const PHONE_DETECTED := "PHONE_DETECTED"
  const FINAL_WARNING := "FINAL_WARNING"
  const WARNING_YELLOW := "WARNING_YELLOW"
  const TERMINATED := "TERMINATED"

  // ---------------- requests and responses ----------------

  /** The requests the page sends. */
  datatype Request =
    | StartExam(examId: string)
    | LogEvent(event: string, attemptId: string)
    | ProcessFrame(image: string, attemptId: string)
    | EndExam(maybeAttemptId: Option<string>)

  /** Behavioural evidence and frames are the requests that carry proctoring evidence. */
  predicate IsEvidence(req: Request) {
    req.LogEvent? || req.ProcessFrame?
  }

  /** /start-exam: the parsed attempt_id field, or a failed fetch or parse. */
  datatype StartResponse = StartOk(attemptId: Option<string>) | StartFailed

  /** /log-event: the warning and status fields, or a caught exception. */
  datatype LogResponse = LogOk(warning: Option<string>, status: Option<string>) | LogFailed

  /** /process-frame: the warnings list, ui_warning and exam_status, or a caught exception. */
  datatype FrameResponse =
    | FrameOk(warnings: Option<seq<string>>, uiWarning: Option<string>, examStatus: Option<string>)
    | FrameFailed

  /** /end-exam: the fetch resolved (whatever the HTTP status) or rejected. */
  datatype EndResponse = EndResolved | EndRejected

  // ---------------- session state ----------------

  /** The values a handler closure captured from the render that created it: the three state
      cells its guard reads. */
  datatype Closure = Closure(attemptId: Option<string>, submitted: bool, terminated: bool)

  /** A snapshot of the page's state. `inFlight` holds the requests whose completion has not
      run yet, by request number; `sent` is every request sent, in order. `listener` is the
      logEvent closure that the monitoring effect handed to the tab and clipboard monitors, once
      it has run; the effect returns no clean-up, so the listener stays installed. */
  datatype Session = Session(
    attemptId: Option<string>,
    submitted: bool,
    terminated: bool,
    warning: Option<string>,
    current: int,
    answers: map<int, nat>,
    inFlight: map<nat, Request>,
    nextId: nat,
    sent: seq<Request>,
    listener: Option<Closure>)

  /** The initial state, with the start-exam request of the mount effect in flight. */
  function Initial(): (s: Session)
    ensures !s.submitted && !s.terminated && s.attemptId == None && s.warning == None
    ensures s.current == 0 && s.answers == map[]
    ensures s.sent == [StartExam(EXAM_ID)] && s.inFlight == map[0 := StartExam(EXAM_ID)]
    ensures s.listener == None
  {
    Session(None, false, false, None, 0, map[], map[0 := StartExam(EXAM_ID)], 1, [StartExam(EXAM_ID)], None)
  }

  /** The invariant of a page with `n` questions: the current question exists, answers are
      recorded only for existing questions, and request numbers are never reused. The
      start-exam request is the one sent at mount; while it is in flight there is no attempt id
      and nothing listens. Once the listener is installed it holds the page's attempt id,
      which no longer changes, and the two flags as they were then: unset. */
  ghost predicate ValidSession(s: Session, n: nat) {
    0 <= s.current < n &&
    (forall q :: q in s.answers ==> 0 <= q < n) &&
    (forall id :: id in s.inFlight ==> id < s.nextId) &&
    (forall id :: id in s.inFlight && s.inFlight[id].StartExam? ==>
       id == 0 && s.attemptId == None && s.listener == None) &&
    (s.listener.Some? ==> Truthy(s.attemptId) && s.listener.value == Closure(s.attemptId, false, false))
  }

  /** The state that the exam page reads and the user sees, apart from the network. */
  predicate SamePage(s: Session, r: Session) {
    r.attemptId == s.attemptId && r.submitted == s.submitted && r.terminated == s.terminated &&
    r.warning == s.warning && r.current == s.current && r.answers == s.answers &&
    r.listener == s.listener
  }

  /** Sending `req`: it is recorded and becomes in flight under a fresh number. */
  function Send(s: Session, req: Request): (r: Session)
    ensures SamePage(s, r)
    ensures r.sent == s.sent + [req] && r.nextId == s.nextId + 1
    ensures r.inFlight == s.inFlight[s.nextId := req]
  {
    s.(inFlight := s.inFlight[s.nextId := req], nextId := s.nextId + 1, sent := s.sent + [req])
  }

  /** The guard of logEvent and sendFrameToBackend, on the values the closure captured: no
      attempt id yet (or a falsy one), already submitted, or already terminated. */
  predicate Blocked(c: Closure) {
    !Truthy(c.attemptId) || c.submitted || c.terminated
  }

  /** The closure of the current render. */
  function Current(s: Session): Closure {
    Closure(s.attemptId, s.submitted, s.terminated)
  }

  // ---------------- start exam ----------------

  /** The continuation of the mount effect's start-exam request, followed by the monitoring
      effect, which re-runs when attemptId changes: if the new attempt id is truthy and the
      exam is neither submitted nor terminated, logEvent's closure of this render is installed
      as the monitors' listener. */
  function CompleteStartExam(s: Session, id: nat, resp: StartResponse): (r: Session)
    requires id in s.inFlight && s.inFlight[id].StartExam?
    ensures r.inFlight == s.inFlight - {id} && r.sent == s.sent && r.nextId == s.nextId
    ensures r.attemptId == (if resp.StartOk? then resp.attemptId else s.attemptId)
    ensures r.submitted == s.submitted && r.terminated == s.terminated && r.warning == s.warning
    ensures r.current == s.current && r.answers == s.answers
    ensures r.listener == (if r.attemptId != s.attemptId && !Blocked(Current(r))
                           then Some(Current(r)) else s.listener)
    ensures s.submitted || s.terminated ==> r.listener == s.listener
  {
    var s' := s.(inFlight := s.inFlight - {id});
    match resp
    case StartOk(a) =>
      var s1 := s'.(attemptId := a);
      if a != s.attemptId && Truthy(a) && !s.submitted && !s.terminated
      then s1.(listener := Some(Closure(a, false, false)))
      else s1
    case StartFailed => s'
  }

  // ---------------- log events ----------------

  /** logEvent, run as closure `c`, up to its await: nothing happens when the guard holds on
      the captured values, otherwise the event is sent with the captured attempt id. */
  function DispatchLogEvent(s: Session, c: Closure, event: string): (r: Session)
    ensures SamePage(s, r)
    ensures Blocked(c) ==> r == s
    ensures !Blocked(c) ==>
      r.sent == s.sent + [LogEvent(event, c.attemptId.value)] &&
      r.nextId == s.nextId + 1 && r.inFlight == s.inFlight[s.nextId := LogEvent(event, c.attemptId.value)]
  {
    if !Truthy(c.attemptId) || c.submitted || c.terminated then s
    else Send(s, LogEvent(event, c.attemptId.value))
  }

  /** A tab switch or clipboard attempt: the installed listener, if any, runs logEvent with
      the values it captured; before the monitoring effect has run, nothing listens. */
  function MonitorEvent(s: Session, event: string): (r: Session)
    ensures SamePage(s, r)
    ensures s.listener == None ==> r == s
    ensures s.listener.Some? && !Blocked(s.listener.value) ==>
      r.sent == s.sent + [LogEvent(event, s.listener.value.attemptId.value)] &&
      r.inFlight == s.inFlight[s.nextId := LogEvent(event, s.listener.value.attemptId.value)]
  {
    match s.listener
    case None => s
    case Some(c) => DispatchLogEvent(s, c, event)
  }

  /** logEvent after its await: a truthy warning replaces the warning, a TERMINATED status
      terminates, the two independently; a failure changes nothing. The guard is not
      checked again. */
  function CompleteLogEvent(s: Session, id: nat, resp: LogResponse): (r: Session)
    requires id in s.inFlight && s.inFlight[id].LogEvent?
    ensures r.inFlight == s.inFlight - {id} && r.sent == s.sent && r.nextId == s.nextId
    ensures r.attemptId == s.attemptId && r.submitted == s.submitted
    ensures r.current == s.current && r.answers == s.answers && r.listener == s.listener
    ensures resp.LogFailed? ==> r.warning == s.warning && r.terminated == s.terminated
    ensures resp.LogOk? ==>
      r.warning == (if Truthy(resp.warning) then resp.warning else s.warning)
    ensures resp.LogOk? ==>
      (r.terminated <==> s.terminated || resp.status == Some(TERMINATED))
  {
    var s' := s.(inFlight := s.inFlight - {id});
    match resp
    case LogFailed => s'
    case LogOk(w, status) =>
      var s1 := if Truthy(w) then s'.(warning := w) else s';
      if status == Some(TERMINATED) then s1.(terminated := true) else s1
  }

  // ---------------- frames ----------------

  /** sendFrameToBackend up to its await: the same guard as logEvent. The webcam's interval is
      re-created whenever onCapture changes, which is at every render, so each tick runs the
      current render's closure. */
  function DispatchFrame(s: Session, image: string): (r: Session)
    ensures SamePage(s, r)
    ensures Blocked(Current(s)) ==> r == s
    ensures !Blocked(Current(s)) ==>
      r.sent == s.sent + [ProcessFrame(image, s.attemptId.value)] &&
      r.nextId == s.nextId + 1 && r.inFlight == s.inFlight[s.nextId := ProcessFrame(image, s.attemptId.value)]
  {
    if !Truthy(s.attemptId) || s.submitted || s.terminated then s
    else Send(s, ProcessFrame(image, s.attemptId.value))
  }

  /** `data.warnings && data.warnings.includes("PHONE_DETECTED")` (a list is truthy even when
      empty). */
  predicate ReportsPhone(warnings: Option<seq<string>>) {
    warnings.Some? && PHONE_DETECTED in warnings.value
  }

  /** sendFrameToBackend after its await. A reported phone overrides ui_warning; otherwise a
      truthy ui_warning replaces the warning and a falsy one leaves it; exam_status TERMINATED
      terminates whatever the warning fields say. A failure changes nothing. */
  function CompleteFrame(s: Session, id: nat, resp: FrameResponse): (r: Session)
    requires id in s.inFlight && s.inFlight[id].ProcessFrame?
    ensures r.inFlight == s.inFlight - {id} && r.sent == s.sent && r.nextId == s.nextId
    ensures r.attemptId == s.attemptId && r.submitted == s.submitted
    ensures r.current == s.current && r.answers == s.answers && r.listener == s.listener
    ensures resp.FrameFailed? ==> r.warning == s.warning && r.terminated == s.terminated
    ensures resp.FrameOk? && ReportsPhone(resp.warnings) ==> r.warning == Some(PHONE_DETECTED)
    ensures resp.FrameOk? && !ReportsPhone(resp.warnings) ==>
      r.warning == (if Truthy(resp.uiWarning) then resp.uiWarning else s.warning)
    ensures resp.FrameOk? ==>
      (r.terminated <==> s.terminated || resp.examStatus == Some(TERMINATED))
  {
    var s' := s.(inFlight := s.inFlight - {id});
    match resp
    case FrameFailed => s'
    case FrameOk(warnings, ui, status) =>
      var s1 :=
        if warnings.Some? && PHONE_DETECTED in warnings.value then s'.(warning := Some(PHONE_DETECTED))
        else if Truthy(ui) then s'.(warning := ui)
        else s';
      if status == Some(TERMINATED) then s1.(terminated := true) else s1
  }

  // ---------------- submit ----------------

  /** handleSubmit up to its await: there is no guard; the end-exam request carries the
      attempt id as it is, even when it is not set. */
  function DispatchSubmit(s: Session): (r: Session)
    ensures SamePage(s, r)
    ensures r.sent == s.sent + [EndExam(s.attemptId)] && r.nextId == s.nextId + 1
    ensures r.inFlight == s.inFlight[s.nextId := EndExam(s.attemptId)]
  {
    Send(s, EndExam(s.attemptId))
  }

  /** handleSubmit after its await: submitted becomes true only when the request resolved; a
      rejection propagates out of the handler before setSubmitted runs. */
  function CompleteSubmit(s: Session, id: nat, resp: EndResponse): (r: Session)
    requires id in s.inFlight && s.inFlight[id].EndExam?
    ensures r.inFlight == s.inFlight - {id} && r.sent == s.sent && r.nextId == s.nextId
    ensures r.submitted <==> s.submitted || resp.EndResolved?
    ensures r.attemptId == s.attemptId && r.terminated == s.terminated && r.warning == s.warning
    ensures r.current == s.current && r.answers == s.answers && r.listener == s.listener
  {
    var s' := s.(inFlight := s.inFlight - {id});
    if resp.EndResolved? then s'.(submitted := true) else s'
  }

  // ---------------- navigation and answers ----------------

  /** Only the current question differs between the two states. */
  predicate OnlyCurrentMoved(s: Session, r: Session) {
    r == s.(current := r.current)
  }

  /** "Previous": the button is disabled on the first question, where a click does nothing. */
  function GoPrevious(s: Session): (r: Session)
    ensures OnlyCurrentMoved(s, r)
    ensures s.current == 0 ==> r == s
    ensures s.current != 0 ==> r.current == s.current - 1
    ensures s.current >= 0 ==> r.current >= 0
  {
    if s.current == 0 then s else s.(current := s.current - 1)
  }

  /** The button in the footer's second slot. */
  datatype FooterButton = SaveAndNext | SubmitExam

  /** Save & Next is offered only before the last question; Submit Exam takes its place there. */
  function Footer(current: int, n: nat): (b: FooterButton)
    ensures b == SaveAndNext <==> current < n - 1
  {
    if current < n - 1 then SaveAndNext else SubmitExam
  }

  /** A click on the footer's second button: next question, or handleSubmit's dispatch. */
  function PressFooter(s: Session, n: nat): (r: Session)
    ensures s.current < n - 1 ==> OnlyCurrentMoved(s, r) && r.current == s.current + 1 && r.current < n
    ensures s.current >= n - 1 ==> r == DispatchSubmit(s)
  {
    match Footer(s.current, n)
    case SaveAndNext => s.(current := s.current + 1)
    case SubmitExam => DispatchSubmit(s)
  }

  /** A click on palette entry `i`; the palette lists exactly the questions 0 .. n-1. */
  function JumpTo(s: Session, i: int, n: nat): (r: Session)
    requires 0 <= i < n
    ensures OnlyCurrentMoved(s, r) && r.current == i
    ensures ValidSession(s, n) ==> ValidSession(r, n)
  {
    s.(current := i)
  }

  /** Selecting option `option` of the current question: only answers[current] changes. */
  function SelectOption(s: Session, option: nat): (r: Session)
    ensures s.current in r.answers && r.answers[s.current] == option
    ensures forall q :: q != s.current ==> (q in r.answers <==> q in s.answers)
    ensures forall q :: q in s.answers && q != s.current ==> r.answers[q] == s.answers[q]
    ensures r == s.(answers := r.answers)
  {
    s.(answers := s.answers[s.current := option])
  }

  // ---------------- warning banner ----------------

  datatype WarningStyle = Critical | High | Medium

  /** getWarningStyle. */
  function GetWarningStyle(w: string): (st: WarningStyle)
    ensures st == Critical <==> w == PHONE_DETECTED || w == FINAL_WARNING
    ensures st == High <==> w == WARNING_YELLOW
    ensures st == Medium <==> w != PHONE_DETECTED && w != FINAL_WARNING && w != WARNING_YELLOW
  {
    if w == PHONE_DETECTED || w == FINAL_WARNING then Critical
    else if w == WARNING_YELLOW then High
    else Medium
  }

  const PHONE_MESSAGE := "🚫 CELL PHONE DETECTED: Put it away immediately."
  const FINAL_MESSAGE := "🚨 FINAL WARNING: Exam will be terminated on next violation."
  const YELLOW_MESSAGE := "⚠️ Suspicious behavior detected. Please look at the screen."
  const DEFAULT_MESSAGE := "⚠️ Warning: Please stay focused on your exam screen."

  /** getWarningMessage: one message for each of the three known levels, one for the rest. */
  function GetWarningMessage(w: string): (m: string)
    ensures m == PHONE_MESSAGE <==> w == PHONE_DETECTED
    ensures m == FINAL_MESSAGE <==> w == FINAL_WARNING
    ensures m == YELLOW_MESSAGE <==> w == WARNING_YELLOW
    ensures m == DEFAULT_MESSAGE <==> w != PHONE_DETECTED && w != FINAL_WARNING && w != WARNING_YELLOW
  {
    if w == PHONE_DETECTED then PHONE_MESSAGE
    else if w == FINAL_WARNING then FINAL_MESSAGE
    else if w == WARNING_YELLOW then YELLOW_MESSAGE
    else DEFAULT_MESSAGE
  }

  /** The banner is critical exactly when the webcam border is critical. */
  lemma BannerAgreesWithWebcam(w: string)
    ensures GetWarningStyle(w) == Critical <==> Webcam.IsCritical(Some(w))
    ensures GetWarningStyle(w) == Critical ==> Webcam.BorderColor(Some(w)) == Webcam.RED
  {
  }

  // ---------------- rendering ----------------

  datatype Banner = Banner(style: WarningStyle, message: string)

  datatype Screen =
    | TerminatedScreen
    | SubmittedScreen
    | ExamScreen(question: int, banner: Option<Banner>, previousEnabled: bool,
                 footer: FooterButton, webcamLevel: Option<string>)

  /** What the page renders: the terminated view first, then the submitted view, then the
      exam with its banner (only for a truthy warning), navigation and webcam. */
  function Render(s: Session, n: nat): (v: Screen)
    ensures s.terminated ==> v == TerminatedScreen
    ensures !s.terminated && s.submitted ==> v == SubmittedScreen
    ensures !s.terminated && !s.submitted ==>
      v.ExamScreen? && v.question == s.current && v.webcamLevel == s.warning &&
      v.previousEnabled == (s.current != 0) && v.footer == Footer(s.current, n) &&
      (v.banner.Some? <==> Truthy(s.warning)) &&
      (v.banner.Some? ==>
        v.banner.value == Banner(GetWarningStyle(s.warning.value), GetWarningMessage(s.warning.value)))
  {
    if s.terminated then TerminatedScreen
    else if s.submitted then SubmittedScreen
    else
      var banner := if Truthy(s.warning)
        then Some(Banner(GetWarningStyle(s.warning.value), GetWarningMessage(s.warning.value)))
        else None;
      ExamScreen(s.current, banner, s.current != 0, Footer(s.current, n), s.warning)
  }

  // ---------------- runs of the page ----------------

  /** Everything that can happen to the page: a handler runs, or the continuation of an
      earlier request runs with its outcome. A continuation for a number that is not in
      flight, or for a request of another kind, does not exist and changes nothing; so does a
      click on a palette entry that is not rendered. */
  datatype Input =
    | StartDone(id: nat, startResp: StartResponse)
    | MonitorLog(event: string)
    | LogDone(id: nat, logResp: LogResponse)
    | Frame(image: string)
    | FrameDone(id: nat, frameResp: FrameResponse)
    | Finish
    | SubmitDone(id: nat, endResp: EndResponse)
    | Previous
    | FooterClick
    | Palette(index: int)
    | Choose(option: nat)

  function Step(s: Session, x: Input, n: nat): Session {
    match x
    case StartDone(id, resp) =>
      if id in s.inFlight && s.inFlight[id].StartExam? then CompleteStartExam(s, id, resp) else s
    case MonitorLog(event) => MonitorEvent(s, event)
    case LogDone(id, resp) =>
      if id in s.inFlight && s.inFlight[id].LogEvent? then CompleteLogEvent(s, id, resp) else s
    case Frame(image) => DispatchFrame(s, image)
    case FrameDone(id, resp) =>
      if id in s.inFlight && s.inFlight[id].ProcessFrame? then CompleteFrame(s, id, resp) else s
    case Finish => DispatchSubmit(s)
    case SubmitDone(id, resp) =>
      if id in s.inFlight && s.inFlight[id].EndExam? then CompleteSubmit(s, id, resp) else s
    case Previous => GoPrevious(s)
    case FooterClick => PressFooter(s, n)
    case Palette(i) => if 0 <= i < n then JumpTo(s, i, n) else s
    case Choose(option) => SelectOption(s, option)
  }

  function Run(s: Session, xs: seq<Input>, n: nat): Session
    decreases |xs|
  {
    if xs == [] then s else Run(Step(s, xs[0], n), xs[1..], n)
  }

  /** One step keeps the invariant. */
  lemma StepKeepsValid(s: Session, x: Input, n: nat)
    requires ValidSession(s, n)
    ensures ValidSession(Step(s, x, n), n)
  {
  }

  lemma {:induction false} RunKeepsValid(s: Session, xs: seq<Input>, n: nat)
    requires ValidSession(s, n)
    ensures ValidSession(Run(s, xs, n), n)
    decreases |xs|
  {
    if xs != [] {
      StepKeepsValid(s, xs[0], n);
      RunKeepsValid(Step(s, xs[0], n), xs[1..], n);
    }
  }

  /** No step resets submitted or terminated, and none removes a sent request. */
  lemma StepMonotone(s: Session, x: Input, n: nat)
    ensures s.submitted ==> Step(s, x, n).submitted
    ensures s.terminated ==> Step(s, x, n).terminated
    ensures s.sent <= Step(s, x, n).sent
  {
  }

  lemma {:induction false} RunMonotone(s: Session, xs: seq<Input>, n: nat)
    ensures s.submitted ==> Run(s, xs, n).submitted
    ensures s.terminated ==> Run(s, xs, n).terminated
    ensures s.sent <= Run(s, xs, n).sent
    decreases |xs|
  {
    if xs != [] {
      StepMonotone(s, xs[0], n);
      RunMonotone(Step(s, xs[0], n), xs[1..], n);
    }
  }

  /** What may still go out once the session has ended: no frame, and a log event only from
      the listener installed before the end, with the attempt id of the session. */
  predicate SentAfterEnd(s: Session, req: Request) {
    !req.ProcessFrame? && (req.LogEvent? ==> s.listener.Some? && s.attemptId == Some(req.attemptId))
  }

  /** Once the session is submitted or terminated, no step sends a frame, and a step sends a
      log event only through the listener, which stays as it was. */
  lemma StepNoFrameAfterEnd(s: Session, x: Input, n: nat)
    requires ValidSession(s, n) && (s.submitted || s.terminated)
    ensures var r := Step(s, x, n);
      s.sent <= r.sent && r.listener == s.listener &&
      (s.listener.Some? ==> r.attemptId == s.attemptId) &&
      forall k :: |s.sent| <= k < |r.sent| ==> SentAfterEnd(s, r.sent[k])
  {
  }

  /** Once the session is submitted or terminated, whatever happens next sends no frame; a log
      event can still be sent, because the monitors keep the listener installed before the
      end, and it carries the session's attempt id. */
  lemma {:induction false} RunNoFrameAfterEnd(s: Session, xs: seq<Input>, n: nat)
    requires ValidSession(s, n) && (s.submitted || s.terminated)
    ensures var r := Run(s, xs, n);
      s.sent <= r.sent && forall k :: |s.sent| <= k < |r.sent| ==> SentAfterEnd(s, r.sent[k])
    decreases |xs|
  {
    if xs != [] {
      var s1 := Step(s, xs[0], n);
      StepNoFrameAfterEnd(s, xs[0], n);
      StepMonotone(s, xs[0], n);
      StepKeepsValid(s, xs[0], n);
      RunNoFrameAfterEnd(s1, xs[1..], n);
      assert forall req :: SentAfterEnd(s1, req) == SentAfterEnd(s, req);
    }
  }

  /** A tab switch after the exam was submitted is still logged with the attempt id, and a
      TERMINATED reply turns the submitted view into the terminated view. */
  lemma MonitorLogAfterSubmitTerminates(s: Session, event: string, n: nat)
    requires ValidSession(s, n) && s.submitted && !s.terminated && s.listener.Some?
    ensures Render(s, n) == SubmittedScreen
    ensures var m := Step(s, MonitorLog(event), n);
      m.sent == s.sent + [LogEvent(event, s.attemptId.value)] &&
      Render(Step(m, LogDone(s.nextId, LogOk(None, Some(TERMINATED))), n), n) == TerminatedScreen
  {
    assert s.nextId !in s.inFlight;
  }

  /** Before the monitors listen, no step sends a log event. */
  lemma StepNoLogWithoutListener(s: Session, x: Input, n: nat)
    requires s.listener == None
    ensures var r := Step(s, x, n);
      s.sent <= r.sent && forall k :: |s.sent| <= k < |r.sent| ==> !r.sent[k].LogEvent?
  {
  }

  /** Before an attempt id arrives, no evidence is sent. */
  lemma StepNoEvidenceWithoutAttempt(s: Session, x: Input, n: nat)
    requires ValidSession(s, n) && !Truthy(s.attemptId)
    ensures var r := Step(s, x, n);
      s.sent <= r.sent && forall k :: |s.sent| <= k < |r.sent| ==> !IsEvidence(r.sent[k])
  {
  }

  /** The terminated view, once shown, is shown forever. */
  lemma TerminatedViewIsFinal(s: Session, xs: seq<Input>, n: nat)
    requires s.terminated
    ensures Render(Run(s, xs, n), n) == TerminatedScreen
  {
    RunMonotone(s, xs, n);
  }

  /** The page starts unsubmitted and unterminated, in a valid state. */
  lemma InitialValid(n: nat)
    requires n > 0
    ensures ValidSession(Initial(), n)
    ensures Render(Initial(), n).ExamScreen? && Render(Initial(), n).banner == None
  {
  }

  /** The handlers do not discard stale responses: a frame verdict that arrives after the exam
      was submitted still changes the warning and terminates the session. */
  lemma LateFrameVerdictStillApplies()
    ensures var s := Session(Some("A1"), true, false, None, 0, map[],
                             map[3 := ProcessFrame("frame", "A1")], 4, [], None);
      var r := CompleteFrame(s, 3, FrameOk(None, Some(FINAL_WARNING), Some(TERMINATED)));
      r.submitted && r.terminated && r.warning == Some(FINAL_WARNING)
  {
  }

  /** A run of the page: the attempt starts as A1, three frames come back without warnings,
      the fourth with WARNING_YELLOW, and a logged tab switch terminates the session; the frame
      captured after that is not sent. */
  lemma ScenarioYellowThenTerminated()
    ensures var r := Run(Initial(), ScenarioInputs(), 5);
      r.terminated && r.warning == Some(WARNING_YELLOW) && |r.sent| == 6 &&
      r.sent[5] == LogEvent("TAB_SWITCH", "A1") && Render(r, 5) == TerminatedScreen
  {
    var s7 := ScenarioOpening();
    ScenarioClosing(s7);
    RunConcat(Initial(), OpeningInputs(), ClosingInputs(), 5);
  }

  /** The start and three frames without a verdict. */
  lemma ScenarioOpening() returns (s7: Session)
    ensures s7 == Run(Initial(), OpeningInputs(), 5)
    ensures s7.attemptId == Some("A1") && !s7.submitted && !s7.terminated && s7.warning == None
    ensures s7.inFlight == map[] && s7.nextId == 4 && |s7.sent| == 4
    ensures s7.listener == Some(Closure(Some("A1"), false, false))
  {
    var s1 := Step(Initial(), StartDone(0, StartOk(Some("A1"))), 5);
    InitialValid(5);
    StepKeepsValid(Initial(), StartDone(0, StartOk(Some("A1"))), 5);
    assert s1.attemptId == Some("A1") && s1.inFlight == map[] && s1.nextId == 1 && |s1.sent| == 1;
    assert s1.listener == Some(Closure(Some("A1"), false, false));
    var s2, s3 := QuietFrame(s1, "f1", 5);
    var s4, s5 := QuietFrame(s3, "f2", 5);
    var s6, s7' := QuietFrame(s5, "f3", 5);
    s7 := s7';
    RunSteps(Initial(), OpeningInputs(), 5, [Initial(), s1, s2, s3, s4, s5, s6, s7]);
  }

  /** The yellow warning, the terminating log event and the frame that is not sent. */
  lemma ScenarioClosing(s7: Session)
    requires s7.attemptId == Some("A1") && !s7.submitted && !s7.terminated && s7.warning == None
    requires s7.inFlight == map[] && s7.nextId == 4 && |s7.sent| == 4
    requires s7.listener == Some(Closure(Some("A1"), false, false))
    ensures var r := Run(s7, ClosingInputs(), 5);
      r.terminated && r.warning == Some(WARNING_YELLOW) && |r.sent| == 6 &&
      r.sent[5] == LogEvent("TAB_SWITCH", "A1") && Render(r, 5) == TerminatedScreen
  {
    var s8 := Step(s7, Frame("f4"), 5);
    assert s8.inFlight == map[4 := ProcessFrame("f4", "A1")] && |s8.sent| == 5;
    var s9 := Step(s8, FrameDone(4, FrameOk(None, Some(WARNING_YELLOW), None)), 5);
    assert s9.warning == Some(WARNING_YELLOW) && s9.inFlight == map[] && !s9.terminated;
    var s10 := Step(s9, MonitorLog("TAB_SWITCH"), 5);
    assert s10.sent == s9.sent + [LogEvent("TAB_SWITCH", "A1")];
    assert s10.inFlight == map[5 := LogEvent("TAB_SWITCH", "A1")];
    var s11 := Step(s10, LogDone(5, LogOk(None, Some(TERMINATED))), 5);
    assert s11.terminated && s11.warning == Some(WARNING_YELLOW) && |s11.sent| == 6;
    var s12 := Step(s11, Frame("f5"), 5);
    assert s12 == s11;
    RunSteps(s7, ClosingInputs(), 5, [s7, s8, s9, s10, s11, s12]);
  }

  lemma {:induction false} RunConcat(s: Session, xs: seq<Input>, ys: seq<Input>, n: nat)
    ensures Run(s, xs + ys, n) == Run(Run(s, xs, n), ys, n)
    decreases |xs|
  {
    if xs == [] {
      assert xs + ys == ys;
    } else {
      assert (xs + ys)[0] == xs[0] && (xs + ys)[1..] == xs[1..] + ys;
      RunConcat(Step(s, xs[0], n), xs[1..], ys, n);
    }
  }

  /** A frame sent by an attempt in progress that comes back without any verdict. */
  lemma QuietFrame(s: Session, image: string, n: nat) returns (mid: Session, r: Session)
    requires ValidSession(s, n) && !Blocked(Current(s))
    ensures mid == Step(s, Frame(image), n)
    ensures r == Step(mid, FrameDone(s.nextId, FrameOk(None, None, None)), n)
    ensures r == s.(nextId := s.nextId + 1, sent := s.sent + [ProcessFrame(image, s.attemptId.value)])
    ensures ValidSession(r, n)
  {
    assert s.nextId !in s.inFlight;
    mid := Step(s, Frame(image), n);
    assert mid.inFlight == s.inFlight[s.nextId := ProcessFrame(image, s.attemptId.value)];
    r := Step(mid, FrameDone(s.nextId, FrameOk(None, None, None)), n);
    assert r.inFlight == s.inFlight;
  }

  /** The first scenario: a start, four frames and a terminating tab switch. */
  function ScenarioInputs(): seq<Input> {
    OpeningInputs() + ClosingInputs()
  }

  function OpeningInputs(): seq<Input> {
    [ StartDone(0, StartOk(Some("A1"))),
      Frame("f1"), FrameDone(1, FrameOk(None, None, None)),
      Frame("f2"), FrameDone(2, FrameOk(None, None, None)),
      Frame("f3"), FrameDone(3, FrameOk(None, None, None)) ]
  }

  function ClosingInputs(): seq<Input> {
    [ Frame("f4"), FrameDone(4, FrameOk(None, Some(WARNING_YELLOW), None)),
      MonitorLog("TAB_SWITCH"), LogDone(5, LogOk(None, Some(TERMINATED))),
      Frame("f5") ]
  }

  /** A run visits the given states when each is the step of the one before. */
  lemma {:induction false} RunSteps(s: Session, xs: seq<Input>, n: nat, states: seq<Session>)
    requires |states| == |xs| + 1 && states[0] == s
    requires forall k :: 0 <= k < |xs| ==> states[k + 1] == Step(states[k], xs[k], n)
    ensures Run(s, xs, n) == states[|xs|]
    decreases |xs|
  {
    if xs != [] {
      RunSteps(states[1], xs[1..], n, states[1..]);
    }
  }

  /** A submit whose end-exam request is rejected leaves the exam unsubmitted. */
  lemma RejectedSubmitStaysOpen(s: Session, id: nat)
    requires !s.submitted && id in s.inFlight && s.inFlight[id].EndExam?
    ensures !CompleteSubmit(s, id, EndRejected).submitted
    ensures Render(CompleteSubmit(s, id, EndRejected), 1) != SubmittedScreen
  {
  }

  // ---------------- the component ----------------

  /** The Exam component's state cells, plus the requests in flight and the requests sent. */
  class ExamController {
    const questionCount: nat
    var attemptId: Option<string>
    var submitted: bool
    var terminated: bool
    var warning: Option<string>
    var current: int
    var answers: map<int, nat>
    var inFlight: map<nat, Request>
    var nextId: nat
    var sent: seq<Request>
    var listener: Option<Closure>

    function Snapshot(): Session
      reads this
    {
      Session(attemptId, submitted, terminated, warning, current, answers, inFlight, nextId, sent, listener)
    }

    ghost predicate Valid()
      reads this
    {
      ValidSession(Snapshot(), questionCount)
    }

    /** useState initial values, and the mount effect's start-exam request. */
    constructor (n: nat)
      requires n > 0
      ensures Valid() && questionCount == n && Snapshot() == Initial()
    {
      questionCount := n;
      attemptId, submitted, terminated, warning := None, false, false, None;
      current, answers := 0, map[];
      inFlight, nextId, sent := map[0 := StartExam(EXAM_ID)], 1, [StartExam(EXAM_ID)];
      listener := None;
    }

    /** The start-exam request returns: setAttemptId(data.attempt_id), or the error is logged;
        then the monitoring effect runs if attemptId changed. */
    method StartExamDone(id: nat, resp: StartResponse)
      requires Valid() && id in inFlight && inFlight[id].StartExam?
      modifies this
      ensures Valid() && Snapshot() == CompleteStartExam(old(Snapshot()), id, resp)
    {
      inFlight := inFlight - {id};
      var previous := attemptId;
      if resp.StartOk? {
        attemptId := resp.attemptId;
      }
      if attemptId != previous && !submitted && !terminated && Truthy(attemptId) {
        listener := Some(Closure(attemptId, submitted, terminated));
      }
    }

    /** A tab switch or clipboard attempt reaches the installed listener, which runs logEvent
        up to the await. Returns the request's number when one was sent: whenever a listener
        is installed, even after the exam ended. */
    method MonitorLogDispatch(event: string) returns (id: Option<nat>)
      requires Valid()
      modifies this
      ensures Valid() && Snapshot() == MonitorEvent(old(Snapshot()), event)
      ensures id.Some? <==> listener.Some?
      ensures id.Some? ==> id.value == old(nextId) && inFlight[id.value] == LogEvent(event, attemptId.value)
    {
      if listener == None {
        return None;
      }
      var c := listener.value;
      if !Truthy(c.attemptId) || c.submitted || c.terminated {
        return None;
      }
      var req := LogEvent(event, c.attemptId.value);
      inFlight := inFlight[nextId := req];
      sent := sent + [req];
      id := Some(nextId);
      nextId := nextId + 1;
    }

    /** logEvent after the await, with the parsed response or the caught exception. */
    method LogEventDone(id: nat, resp: LogResponse)
      requires Valid() && id in inFlight && inFlight[id].LogEvent?
      modifies this
      ensures Valid() && Snapshot() == CompleteLogEvent(old(Snapshot()), id, resp)
    {
      inFlight := inFlight - {id};
      match resp {
        case LogFailed =>
        case LogOk(w, status) =>
          if Truthy(w) { warning := w; }
          if status == Some(TERMINATED) { terminated := true; }
      }
    }

    /** sendFrameToBackend(image), up to the await. */
    method FrameDispatch(image: string) returns (id: Option<nat>)
      requires Valid()
      modifies this
      ensures Valid() && Snapshot() == DispatchFrame(old(Snapshot()), image)
      ensures id.Some? <==> !Blocked(Current(old(Snapshot())))
      ensures id.Some? ==> id.value == old(nextId) && inFlight[id.value] == ProcessFrame(image, attemptId.value)
    {
      if !Truthy(attemptId) || submitted || terminated {
        return None;
      }
      var req := ProcessFrame(image, attemptId.value);
      inFlight := inFlight[nextId := req];
      sent := sent + [req];
      id := Some(nextId);
      nextId := nextId + 1;
    }

    /** sendFrameToBackend after the await. */
    method FrameDone(id: nat, resp: FrameResponse)
      requires Valid() && id in inFlight && inFlight[id].ProcessFrame?
      modifies this
      ensures Valid() && Snapshot() == CompleteFrame(old(Snapshot()), id, resp)
    {
      inFlight := inFlight - {id};
      match resp {
        case FrameFailed =>
        case FrameOk(warnings, ui, status) =>
          if warnings.Some? && PHONE_DETECTED in warnings.value {
            warning := Some(PHONE_DETECTED);
          } else if Truthy(ui) {
            warning := ui;
          }
          if status == Some(TERMINATED) { terminated := true; }
      }
    }

    /** handleSubmit, up to the await (the header's Finish Exam button). */
    method SubmitDispatch() returns (id: nat)
      requires Valid()
      modifies this
      ensures Valid() && Snapshot() == DispatchSubmit(old(Snapshot()))
      ensures id == old(nextId) && inFlight[id] == EndExam(attemptId)
    {
      var req := EndExam(attemptId);
      inFlight := inFlight[nextId := req];
      sent := sent + [req];
      id := nextId;
      nextId := nextId + 1;
    }

    /** handleSubmit after the await. */
    method SubmitDone(id: nat, resp: EndResponse)
      requires Valid() && id in inFlight && inFlight[id].EndExam?
      modifies this
      ensures Valid() && Snapshot() == CompleteSubmit(old(Snapshot()), id, resp)
    {
      inFlight := inFlight - {id};
      if resp.EndResolved? {
        submitted := true;
      }
    }

    /** The Previous button. */
    method PreviousClick()
      requires Valid()
      modifies this
      ensures Valid() && Snapshot() == GoPrevious(old(Snapshot()))
    {
      if current != 0 {
        current := current - 1;
      }
    }

    /** The footer's second button: Save & Next, or Submit Exam on the last question. */
    method FooterButtonClick() returns (id: Option<nat>)
      requires Valid()
      modifies this
      ensures Valid() && Snapshot() == PressFooter(old(Snapshot()), questionCount)
      ensures id.Some? <==> old(current) >= questionCount - 1
    {
      if current < questionCount - 1 {
        current := current + 1;
        id := None;
      } else {
        var sid := SubmitDispatch();
        id := Some(sid);
      }
    }

    /** A palette entry. */
    method PaletteClick(i: int)
      requires Valid() && 0 <= i < questionCount
      modifies this
      ensures Valid() && Snapshot() == JumpTo(old(Snapshot()), i, questionCount)
    {
      current := i;
    }

    /** An option card of the current question. */
    method OptionClick(option: nat)
      requires Valid()
      modifies this
      ensures Valid() && Snapshot() == SelectOption(old(Snapshot()), option)
    {
      answers := answers[current := option];
    }
  }
}
