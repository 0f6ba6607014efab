# Online exam proctoring: session controller, frame tolerance and login, in Dafny

This project models the proctoring core of an online exam application and proves
properties of the model. It has four parts:

- `exam_session.dfy` (module `ExamSession`) models the exam page's session controller. It
  holds the state cells `attemptId`, `submitted`, `terminated`, `warning`, `current` and
  `answers`, and the handlers that change them. It also covers the precedence of the rendered
  views and the warning banner's style and message.
  - Each network call is split into a dispatch step and a completion step. The dispatch step
    runs the handler up to its `await`: it checks the guard and records the request as in
    flight. The completion step runs the rest of the handler with the response or the caught
    exception.
  - Completions may arrive in any order. They apply their response without rechecking the
    guard, as the handlers do.
  - Pure transition functions on a `Session` value specify the handlers. Class
    `ExamController`, whose fields are the page's state cells, implements them. Each of its
    methods ensures that its new state is the transition function applied to its old state.
- `frame_tracker.dfy` (module `FrameTracker`) models the server's per-attempt frame
  tolerance and cooldown machine.
  - Class `FrameAnalyzer` holds the three dictionaries `last_face_seen`, `no_face_counter` and
    `last_event_time` as maps, plus the log of `log_event` calls.
  - `AnalyzeFrame` applies one frame.
  - The invariant proved across any sequence of frames has two parts: `last_event_time`
    always holds the time of the attempt's last logged event, and every logged event other
    than `NO_FACE` came more than `EVENT_COOLDOWN` seconds after the attempt's previous one.
- `webcam.dfy` (module `Webcam`) models the body of the 2000 ms capture tick, and how the
  warning level maps to the critical flag, the border colour and the pulse animation.
- `login.dfy` (module `Login`) models the credential check of the login screen as a decision
  function plus a method that applies its outcome.

`wrappers.dfy` defines `Option` and JavaScript/Python truthiness of an optional string.

### Where the code differs from the intended behaviour

The model follows the code in each case below.

- Once the exam is submitted or terminated, no more evidence is meant to be sent. The
  monitoring effect (`Exam.jsx:56-61`) hands `startTabMonitoring` and `blockClipboard` the
  `logEvent` closure of the render in which `attemptId` became truthy. It returns no clean-up,
  so that listener stays installed, and its guard still sees `submitted` and `terminated` as
  false. A tab switch after submission therefore still posts `/log-event` with the attempt id,
  and a `TERMINATED` reply turns the submitted view into the terminated view. See
  `MonitorLogAfterSubmitTerminates`. Frames do stop: the webcam's interval is re-created at
  every render, so each tick runs the current `sendFrameToBackend`. See `RunNoFrameAfterEnd`.
- A response that arrives after the session ended is meant to be discarded. In the code, the
  guard `!attemptId || submitted || terminated` runs only before the `await`. A late frame or
  log-event response can still change `warning`, or set `terminated` after `submitted`. See
  `LateFrameVerdictStillApplies`.
- Finalising is meant always to end in the submitted state. In the code, `handleSubmit` has
  no `try`: a rejected end-exam request leaves `submitted` false. See
  `RejectedSubmitStaysOpen`.
- The warning level is meant only to rise. The code replaces it with any truthy warning or
  `ui_warning` from the server, and the contracts state that.
- The page posts frames to `/process-frame` and reads `warnings`, `ui_warning` and
  `exam_status`. The backend route shown is `/analyze-frame`, and its response has
  `status`/`warning` keys plus whatever `evaluate_attempt` merges in. The two sides are
  modelled separately, each as its code reads.

## Model

| member | source | states |
|---|---|---|
| ExamSession.Initial | frontend/src/pages/Exam.jsx:16-33 | the page starts with no attempt id, not submitted, not terminated, no warning, question 0, no answers, and only the start-exam request sent |
| ExamSession.Send | frontend/src/pages/Exam.jsx:40-44 | sending a request records it once at the end of the sent list under a fresh request number and changes nothing on the page |
| ExamSession.CompleteStartExam | frontend/src/pages/Exam.jsx:24-61 | a parsed start-exam response sets attemptId to its attempt_id field, even when that is missing; a failure leaves everything else as it was; when attemptId changed to a truthy value while neither flag is set, the monitoring effect installs a listener capturing that id and both flags unset, and otherwise the listener is kept, in particular whenever the exam already ended |
| ExamSession.DispatchLogEvent | frontend/src/pages/Exam.jsx:36-44 | a logEvent closure whose captured attemptId is falsy, or whose captured submitted or terminated is set, sends nothing and changes nothing; otherwise exactly LogEvent(event, captured attemptId) is sent, and the page state is untouched |
| ExamSession.MonitorEvent | frontend/src/pages/Exam.jsx:56-61 | before the monitoring effect has installed a listener, a tab or clipboard event does nothing; afterwards it runs the installed listener, which sends LogEvent with the captured attempt id whatever the current flags are |
| ExamSession.CompleteLogEvent | frontend/src/pages/Exam.jsx:46-53 | a truthy `warning` replaces the warning, a falsy one keeps it; `status == "TERMINATED"` sets terminated whether or not a warning came; a failure changes neither; submitted is never changed and the guard is not rechecked |
| ExamSession.DispatchFrame | frontend/src/pages/Exam.jsx:64-72 | the same guard as logEvent, on the current render's values: blocked means no request and no change, otherwise exactly ProcessFrame(image, attemptId) is sent |
| ExamSession.CompleteFrame | frontend/src/pages/Exam.jsx:74-88 | a `warnings` list containing PHONE_DETECTED sets the warning to PHONE_DETECTED whatever ui_warning says; otherwise a truthy ui_warning replaces it and a falsy one keeps it; `exam_status == "TERMINATED"` terminates independently; a failure changes nothing |
| ExamSession.DispatchSubmit | frontend/src/pages/Exam.jsx:92-97 | handleSubmit has no guard: it always sends EndExam with the attempt id as it is, and the page state is untouched until the request returns |
| ExamSession.CompleteSubmit | frontend/src/pages/Exam.jsx:93-98 | submitted becomes true exactly when it was already true or the end-exam request resolved; a rejection leaves it as it was; nothing else on the page changes |
| ExamSession.GoPrevious | frontend/src/pages/Exam.jsx:206-208 | Previous does nothing on question 0 and otherwise moves back one question; only `current` changes and it stays non-negative |
| ExamSession.Footer | frontend/src/pages/Exam.jsx:217-228 | Save & Next is offered exactly when current < length-1; Submit Exam takes its place otherwise |
| ExamSession.PressFooter | frontend/src/pages/Exam.jsx:217-227 | before the last question the footer button advances by one and stays below the question count; on the last question it dispatches handleSubmit |
| ExamSession.JumpTo | frontend/src/pages/Exam.jsx:237-240 | a palette click sets current to the clicked index, which lies in [0, length), and keeps the page invariant |
| ExamSession.SelectOption | frontend/src/pages/Exam.jsx:181-186 | selecting an option records it for the current question and leaves every other question's answer, and everything else, unchanged |
| ExamSession.GetWarningStyle | frontend/src/pages/Exam.jsx:287-291 | PHONE_DETECTED and FINAL_WARNING are critical, WARNING_YELLOW is high, and exactly all other levels are medium |
| ExamSession.GetWarningMessage | frontend/src/pages/Exam.jsx:293-298 | each of the three known levels gets its own message and exactly the other levels get the default; the four messages are distinct |
| ExamSession.BannerAgreesWithWebcam | frontend/src/pages/Exam.jsx:287-291 | the banner is critical exactly when the webcam's isCritical holds for the same level, and then the border is red |
| ExamSession.Render | frontend/src/pages/Exam.jsx:101-276 | the terminated view wins over the submitted view, which wins over the exam view; the exam view shows a banner exactly when the warning is truthy, with that level's style and message, enables Previous exactly off question 0, and passes the warning to the webcam |
| ExamSession.StepKeepsValid | frontend/src/pages/Exam.jsx:24-240 | no event or completion takes current outside [0, length), records an answer for a missing question, reuses a request number, or puts the start-exam request anywhere but at mount; an installed listener holds the page's attempt id and unset flags |
| ExamSession.RunKeepsValid | frontend/src/pages/Exam.jsx:181-240 | the same invariant holds after any sequence of events and completions |
| ExamSession.StepMonotone | frontend/src/pages/Exam.jsx:49-98 | no single event or completion resets submitted or terminated or removes a sent request |
| ExamSession.RunMonotone | frontend/src/pages/Exam.jsx:18-98 | submitted and terminated are only ever set to true, over any run: once true they stay true, and the sent list only grows |
| ExamSession.StepNoFrameAfterEnd | frontend/src/pages/Exam.jsx:36-72 | once submitted or terminated, a step sends no frame request, keeps the listener, and sends a log event only through an installed listener, with the session's attempt id |
| ExamSession.RunNoFrameAfterEnd | frontend/src/pages/Exam.jsx:36-89 | once submitted or terminated, no later frame request is ever sent, whatever happens next; a later log event comes only from the listener installed before the end and carries the session's attempt id |
| ExamSession.MonitorLogAfterSubmitTerminates | frontend/src/pages/Exam.jsx:36-61 | with the listener installed, a submitted exam shows the submitted view; a tab switch still sends LogEvent with the attempt id, and a TERMINATED reply to it makes the page render the terminated view |
| ExamSession.StepNoLogWithoutListener | frontend/src/pages/Exam.jsx:56-61 | before the monitoring effect has installed a listener, no step sends a log event |
| ExamSession.StepNoEvidenceWithoutAttempt | frontend/src/pages/Exam.jsx:36-72 | in a reachable state whose attemptId is falsy, no step sends a log event or a frame |
| ExamSession.TerminatedViewIsFinal | frontend/src/pages/Exam.jsx:101-118 | once terminated, the terminated view is rendered after any further run |
| ExamSession.InitialValid | frontend/src/pages/Exam.jsx:16-21 | the initial state satisfies the invariant for a non-empty question list and shows the exam without a banner |
| ExamSession.LateFrameVerdictStillApplies | frontend/src/pages/Exam.jsx:74-84 | a frame verdict that arrives after submission still changes the warning and sets terminated |
| ExamSession.RejectedSubmitStaysOpen | frontend/src/pages/Exam.jsx:92-98 | a rejected end-exam request leaves the exam unsubmitted and the submitted view not shown |
| ExamSession.ScenarioYellowThenTerminated | frontend/src/pages/Exam.jsx:24-89 | start with attempt A1, three frames without verdict, a fourth with WARNING_YELLOW, then a tab switch through the listener answered TERMINATED: the warning is WARNING_YELLOW, the session is terminated, and the frame captured afterwards is not sent |
| ExamSession.ScenarioOpening | frontend/src/pages/Exam.jsx:24-88 | the start-exam reply A1 installs the listener for A1, and three frames without verdict then leave the attempt open and unwarned, with four requests sent and none in flight |
| ExamSession.ScenarioClosing | frontend/src/pages/Exam.jsx:36-89 | from that state, a WARNING_YELLOW frame and a tab switch answered TERMINATED give the terminated view with the yellow warning and six requests, the sixth LogEvent("TAB_SWITCH", "A1"); a later frame sends nothing |
| ExamSession.RunSteps | frontend/src/pages/Exam.jsx:36-98 | a run reaches the last of a list of states when each one is the step of the previous one |
| ExamSession.RunConcat | frontend/src/pages/Exam.jsx:36-98 | running two input sequences one after the other is running their concatenation |
| ExamSession.QuietFrame | frontend/src/pages/Exam.jsx:64-88 | in any reachable state whose guard lets a frame through, a frame whose response carries no fields adds exactly ProcessFrame(image, attemptId) to the sent list, and attempt id, flags, warning, question, answers, listener and the requests in flight end as they were |
| ExamSession.ExamController.constructor | frontend/src/pages/Exam.jsx:16-33 | the component's state starts as Initial, with the start-exam request in flight |
| ExamSession.ExamController.StartExamDone | frontend/src/pages/Exam.jsx:30-61 | applies CompleteStartExam to the fields, installing the listener as the monitoring effect does |
| ExamSession.ExamController.MonitorLogDispatch | frontend/src/pages/Exam.jsx:36-61 | applies MonitorEvent; returns a request number exactly when a listener is installed, even after the exam ended, and the request carries the attempt id |
| ExamSession.ExamController.LogEventDone | frontend/src/pages/Exam.jsx:46-53 | applies CompleteLogEvent and keeps the invariant |
| ExamSession.ExamController.FrameDispatch | frontend/src/pages/Exam.jsx:64-72 | applies DispatchFrame; returns a request number exactly when the guard let the request through |
| ExamSession.ExamController.FrameDone | frontend/src/pages/Exam.jsx:74-88 | applies CompleteFrame and keeps the invariant |
| ExamSession.ExamController.SubmitDispatch | frontend/src/pages/Exam.jsx:92-97 | applies DispatchSubmit and returns the end-exam request's number |
| ExamSession.ExamController.SubmitDone | frontend/src/pages/Exam.jsx:93-98 | applies CompleteSubmit and keeps the invariant |
| ExamSession.ExamController.PreviousClick | frontend/src/pages/Exam.jsx:206-208 | applies GoPrevious and keeps current in range |
| ExamSession.ExamController.FooterButtonClick | frontend/src/pages/Exam.jsx:217-228 | applies PressFooter; returns a request number exactly on the last question |
| ExamSession.ExamController.PaletteClick | frontend/src/pages/Exam.jsx:237-240 | applies JumpTo |
| ExamSession.ExamController.OptionClick | frontend/src/pages/Exam.jsx:186 | applies SelectOption |
| FrameTracker.SetDefault | backend/routes/proctoring.py:42-44 | setdefault keeps an existing entry, adds a missing one with the default, and leaves every other key as it was |
| FrameTracker.InitTracking | backend/routes/proctoring.py:42-44 | on an attempt's first frame the trackers become last_face_seen = now, no_face_counter = 0 and last_event_time = 0; existing entries, other attempts and the log are untouched |
| FrameTracker.Analyze | backend/routes/proctoring.py:41-96 | a NO_FACE frame keeps last_face_seen; it logs NO_FACE exactly when the incremented counter is >= 3 and now - last_face_seen > 8, and then resets the counter to 0 and sets last_event_time = now; otherwise it leaves the counter incremented by 1. Any other frame sets last_face_seen = now and the counter to 0, and logs a truthy event exactly when now - last_event_time > 2, then setting last_event_time = now; a falsy event logs nothing |
| FrameTracker.NoFaceFrame | backend/routes/proctoring.py:73-82 | a NO_FACE frame leaves last_face_seen alone; it appends exactly one NO_FACE record, resets the counter and sets last_event_time = now exactly when NoFaceLogged holds, ignoring the cooldown; otherwise it only increments the counter |
| FrameTracker.FaceFrame | backend/routes/proctoring.py:84-96 | a frame with a face sets last_face_seen = now and the counter to 0; it appends exactly one record of its event and sets last_event_time = now exactly when the event is truthy and the cooldown has passed, and otherwise changes nothing else |
| FrameTracker.AnalyzeTouchesOnlyItsAttempt | backend/routes/proctoring.py:42-96 | a frame changes no other attempt's entries in any of the three dictionaries |
| FrameTracker.Response | backend/routes/proctoring.py:46-98 | the response starts from the defaults faces 0, CENTER, no phone, status and warning None; it gets the detector's and analyser's values, and every key that evaluate_attempt returns overrides them |
| FrameTracker.EmptyTrackersInvariant | backend/routes/proctoring.py:21-23 | the empty dictionaries satisfy the tracking invariant |
| FrameTracker.LastLogTimeAppend | backend/routes/proctoring.py:80-96 | logging an event makes it its attempt's last logged event and changes no other attempt's |
| FrameTracker.AnalyzeKeepsInvariant | backend/routes/proctoring.py:76-96 | one frame keeps the invariant: last_event_time equals the attempt's last logged time, and every non-NO_FACE event is logged more than 2 s after its attempt's previous logged event |
| FrameTracker.AnalyzeAll | backend/routes/proctoring.py:41-96 | a sequence of frames only appends to the log, at most one record per frame, and each new record belongs to the attempt of one of the frames |
| FrameTracker.AnalyzeAllKeepsInvariant | backend/routes/proctoring.py:76-96 | the invariant holds after any sequence of frames, for any attempt ids and clock readings |
| FrameTracker.FrameAnalyzer.constructor | backend/routes/proctoring.py:21-23 | the module starts with three empty dictionaries and an empty log |
| FrameTracker.FrameAnalyzer.StartTracking | backend/routes/proctoring.py:42-44 | applies InitTracking to the dictionaries |
| FrameTracker.FrameAnalyzer.NoFaceTolerance | backend/routes/proctoring.py:73-82 | runs the NO_FACE branch on the dictionaries |
| FrameTracker.FrameAnalyzer.FaceSeen | backend/routes/proctoring.py:88-96 | runs the face-seen branch and the cooldown on the dictionaries |
| FrameTracker.FrameAnalyzer.AnalyzeFrame | backend/routes/proctoring.py:29-99 | the dictionaries and the log move by exactly Analyze; the response is exactly Response; the tracking invariant is kept |
| Webcam.BorderColor | frontend/src/components/Webcam.jsx:23-27 | the border is red exactly when critical, amber exactly for any other truthy level, and green exactly when the level is null or empty |
| Webcam.Animation | frontend/src/components/Webcam.jsx:38 | the pulse runs exactly when the level is critical; otherwise there is no animation |
| Webcam.CriticalIsRedAndPulsing | frontend/src/components/Webcam.jsx:19-38 | a critical level is truthy, red and pulsing |
| Webcam.TickCall | frontend/src/components/Webcam.jsx:9-12 | a tick calls onCapture exactly when the ref is set and the screenshot is truthy, and then with that screenshot |
| Webcam.CapturesAtMostOncePerTick | frontend/src/components/Webcam.jsx:8-13 | a run of ticks makes at most one onCapture call per tick, never with an empty screenshot |
| Webcam.LastTickCaptures | frontend/src/components/Webcam.jsx:8-13 | a further tick appends its own call, if any, after the earlier ones |
| Webcam.WebcamWidget.constructor | frontend/src/components/Webcam.jsx:7-13 | mounting installs a 2000 ms interval, with no calls yet |
| Webcam.WebcamWidget.Tick | frontend/src/components/Webcam.jsx:8-12 | an interval firing makes at most one call, as TickCall says, and records the tick; a cleared interval makes no call and records nothing |
| Webcam.WebcamWidget.Cleanup | frontend/src/components/Webcam.jsx:15 | clean-up clears the interval |
| Login.Decide | frontend/src/pages/Login.jsx:16-34 | student + student@example.com + exam123 exactly gives /exam; admin + admin@example.com + admin123 exactly gives /admin; exactly every other combination gives "Invalid credentials"; there is no fourth outcome |
| Login.WrongRoleIsRejected | frontend/src/pages/Login.jsx:19-33 | correct credentials under the other role are rejected |
| Login.LoginForm.constructor | frontend/src/pages/Login.jsx:11-14 | the form starts on the student role with empty fields and no error |
| Login.LoginForm.SelectRole | frontend/src/pages/Login.jsx:53-62 | a role button sets the role |
| Login.LoginForm.TypeEmail | frontend/src/pages/Login.jsx:80 | the email input sets the email |
| Login.LoginForm.TypePassword | frontend/src/pages/Login.jsx:90 | the password input sets the password |
| Login.LoginForm.HandleLogin | frontend/src/pages/Login.jsx:16-34 | the error is cleared first; then the method either navigates once, leaving the error empty, or sets "Invalid credentials" without navigating, as Decide says |

## Left out

- HTTP transport, JSON parsing and `API_BASE` are left out. Each response is an abstract
  value with optional fields, or a failure standing for a rejected fetch or a thrown parse,
  and it is fed to the completion step.
- The JSON shapes of responses are simplified. `attempt_id`, `warning`, `ui_warning`,
  `status` and `exam_status` are optional strings, and `warnings` is an optional list of
  strings. Other JSON types for these fields are not modelled.
- React rendering, styles, hook scheduling and the `react-webcam` library are left out.
  `Render` keeps only which view is chosen and what the banner, navigation and webcam receive.
- Captured closures are modelled only for the monitors' listener, whose captured values are
  those of the render that installed it. The other handlers are modelled as reading the
  current state: the buttons and the webcam's interval get a fresh closure at every render.
- `startTabMonitoring` and `blockClipboard` are not part of this model. Their output appears
  only as `MonitorLog(event)` inputs, each a call of the installed listener. The monitoring
  effect's condition becomes true only when the start-exam reply sets a truthy attempt id, so
  it runs its body at most once; the effect itself is folded into `CompleteStartExam`.
- The questions data module is not part of this model. The question count is a parameter and
  must be positive, since the page reads `questions[current]`. The number of options per
  question is not modelled, so any option number can be chosen.
- The Finish Exam button and the navigation handlers exist only in the exam view. The model
  lets them run in any state, which covers more than the page allows.
- Real concurrency and timers are left out. Asynchronous completions are separate,
  arbitrarily ordered steps. The 2000 ms period is recorded, but the clock that fires ticks is
  not modelled; each firing is a call of `Tick`. The widget model does not re-create the
  interval when `onCapture` changes; the exam page model uses that re-creation only in that
  each tick runs the current render's `sendFrameToBackend`.
- The backend's foreign calls are inputs or records: `log_event` is an appended record that
  also carries the frame's clock reading, `evaluate_attempt` is a supplied map merged as
  `dict.update`, and `analyze_face` and `detect_phone` results are parameters. A failing
  `log_event` (an exception after the counter increment) is not modelled.
- The base64/OpenCV frame decoding is left out. `time.time()` is a supplied `real` `now`,
  and floating-point rounding is not modelled.
- `backend/routes/admin.py`, `backend/routes/face_auth.py`, `backend/proctoring/face_auth.py`
  and `backend/proctoring/phone.py` are left out. They are SQL and row shaping, thin wrappers
  around foreign face and YOLO models, and floating-point embedding distances.
