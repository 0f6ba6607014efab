/** The webcam widget (frontend/src/components/Webcam.jsx): the capture interval's tick and
    the severity colouring of its border. */
module Webcam {
  import opened Wrappers

  const CAPTURE_INTERVAL_MS: nat := 2000

  const FINAL_WARNING := "FINAL_WARNING"
  const PHONE_DETECTED := "PHONE_DETECTED"

  const RED := "#dc2626"
  const AMBER := "#f59e0b"
  const GREEN := "#22c55e"

  const PULSE := "pulse 1.2s infinite"
  const NO_ANIMATION := "none"

  /** isCritical: strict equality with one of the two critical levels. */
  predicate IsCritical(level: Option<string>) {
    level == Some(FINAL_WARNING) || level == Some(PHONE_DETECTED)
  }

  /** borderColor: red when critical, amber for any other truthy level, green otherwise. */
  function BorderColor(level: Option<string>): (c: string)
    ensures c == RED <==> IsCritical(level)
    ensures c == AMBER <==> !IsCritical(level) && Truthy(level)
    ensures c == GREEN <==> !Truthy(level)
  {
    if IsCritical(level) then RED else if Truthy(level) then AMBER else GREEN
  }

  /** The border's animation: the pulse runs exactly when the level is critical. */
  function Animation(level: Option<string>): (a: string)
    ensures a == PULSE <==> IsCritical(level)
    ensures a == PULSE || a == NO_ANIMATION
  {
    if IsCritical(level) then PULSE else NO_ANIMATION
  }

  /** A critical border is never the calm colour and always pulses. */
  lemma CriticalIsRedAndPulsing(level: Option<string>)
    requires IsCritical(level)
    ensures BorderColor(level) == RED && Animation(level) == PULSE
    ensures Truthy(level)
  {
  }

  /** The body of one interval tick: with the webcam ref set and a truthy screenshot,
      onCapture is called once with that screenshot; otherwise the tick is skipped. */
  function TickCall(refSet: bool, screenshot: Option<string>): (call: Option<string>)
    ensures call.Some? <==> refSet && Truthy(screenshot)
    ensures call.Some? ==> call == screenshot
  {
    if refSet && Truthy(screenshot) then screenshot else None
  }

  /** The onCapture calls made by a run of ticks, in tick order. Each tick is the ref state
      and what getScreenshot returned at that tick. */
  function Captures(ticks: seq<(bool, Option<string>)>): seq<string> {
    if ticks == [] then []
    else
      var call := TickCall(ticks[0].0, ticks[0].1);
      (if call.Some? then [call.value] else []) + Captures(ticks[1..])
  }

  /** A run of ticks calls onCapture at most once per tick, only with truthy screenshots. */
  lemma {:induction false} CapturesAtMostOncePerTick(ticks: seq<(bool, Option<string>)>)
    ensures |Captures(ticks)| <= |ticks|
    ensures forall k :: 0 <= k < |Captures(ticks)| ==> Captures(ticks)[k] != ""
  {
    if ticks != [] {
      CapturesAtMostOncePerTick(ticks[1..]);
    }
  }

  /** The mounted component: whether its interval is set, the interval period, and the
      onCapture calls made so far. `firings` records what each firing of the interval saw. */
  class WebcamWidget {
    var intervalSet: bool
    var periodMs: nat
    var calls: seq<string>
    ghost var firings: seq<(bool, Option<string>)>

    ghost predicate Valid()
      reads this
    {
      calls == Captures(firings) && periodMs == CAPTURE_INTERVAL_MS
    }

    /** The effect's set-up: a 2000 ms interval is installed. */
    constructor ()
      ensures Valid() && intervalSet && calls == [] && firings == []
    {
      intervalSet := true;
      periodMs := CAPTURE_INTERVAL_MS;
      calls := [];
      firings := [];
    }

    /** One firing of the interval. A cleared interval no longer fires. */
    method Tick(refSet: bool, screenshot: Option<string>) returns (call: Option<string>)
      requires Valid()
      modifies this`calls, this`firings
      ensures Valid()
      ensures call == (if old(intervalSet) then TickCall(refSet, screenshot) else None)
      ensures calls == old(calls) + (if call.Some? then [call.value] else [])
      ensures firings == old(firings) + (if old(intervalSet) then [(refSet, screenshot)] else [])
      ensures |calls| <= |old(calls)| + 1
    {
      call := None;
      if intervalSet {
        if refSet {
          if screenshot.Some? && screenshot.value != "" {
            call := screenshot;
            calls := calls + [screenshot.value];
          }
        }
        ghost var tick := (refSet, screenshot);
        LastTickCaptures(firings, tick);
        firings := firings + [tick];
      }
    }

    /** The effect's clean-up: the interval is cleared. */
    method Cleanup()
      requires Valid()
      modifies this`intervalSet
      ensures Valid() && !intervalSet
    {
      intervalSet := false;
    }
  }

  /** Adding one tick at the end adds its call, if any, at the end. */
  lemma {:induction false} LastTickCaptures(ticks: seq<(bool, Option<string>)>, t: (bool, Option<string>))
    ensures Captures(ticks + [t]) ==
      Captures(ticks) + (var c := TickCall(t.0, t.1); if c.Some? then [c.value] else [])
  {
    if ticks == [] {
      assert ([t])[1..] == [];
    } else {
      assert (ticks + [t])[1..] == ticks[1..] + [t];
      LastTickCaptures(ticks[1..], t);
    }
  }
}
