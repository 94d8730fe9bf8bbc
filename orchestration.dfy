/**
 * The behaviour of one dialog controller (DialogDemo/DialogController.cs) as a
 * state machine over values. The controller's threads are abstracted away: the
 * caller thread blocked in `ShowModal`, the UI thread running the dispatcher loop,
 * the countdown timer and any thread calling the public update/close methods each
 * contribute `Event`s, and any interleaving of them is a sequence of events folded
 * by `Run`. Every `BeginInvoke` appends a `UiAction` to the dispatcher queue; the
 * UI thread performs queued actions one at a time (`DispatchNext`).
 *
 * The class `Controller.DialogController` implements these steps on mutable
 * fields and is proved to follow them; the lemmas here state what the source
 * promises about them.
 */
module Orchestration {
  import opened Themes
  import opened Surface

  /** A unit of work posted to the UI thread's dispatcher with `BeginInvoke`. */
  datatype UiAction =
    | SetProgress(percent: real)
    | TimeoutClose
    | CloseWindow
    | UpdateMain(text: NullableString)
    | UpdateSub(text: NullableString)

  /** The dedicated UI thread: not yet started, started, inside `Dispatcher.Run`, finished. */
  datatype UiThread = NotLaunched | Launched | Looping | Ended

  /** Where the caller thread is inside `ShowModal`. */
  datatype CallerPhase = NotStarted | AwaitingCreated | AwaitingClosed | Returned

  /**
   * The controller's state. `window` is `_window` (None for null), `dispatcherReady`
   * says `_dispatcher` is set, `result`/`external` are the fields of `_result`,
   * `timerActive` says `_countdownTimer` is non-null, and the two counters record
   * how often `_windowCreated` and `_windowClosed` were set.
   */
  datatype Ctl = Ctl(
    window: Option<WindowView>,
    dispatcherReady: bool,
    ui: UiThread,
    result: DialogButtonResult,
    external: bool,
    secondsLeft: int,
    timerActive: bool,
    createdSignals: nat,
    closedSignals: nat,
    queue: seq<UiAction>,
    caller: CallerPhase)

  /**
   * A freshly constructed controller: its result record is a fresh `DialogResultInfo`;
   * no window, dispatcher, timer, posted action or signal exists yet.
   */
  function Initial(): (s: Ctl)
    ensures Info(s) == NewResultInfo()
    ensures s.window.None? && !s.dispatcherReady && !s.timerActive && s.queue == []
    ensures s.createdSignals == 0 && s.closedSignals == 0 && s.ui == NotLaunched && s.caller == NotStarted
  {
    Ctl(Option.None, false, NotLaunched, NewResultInfo().result, NewResultInfo().closedByExternalRequest,
        0, false, 0, 0, [], NotStarted)
  }

  /** The result record as the caller receives it. */
  function Info(s: Ctl): DialogResultInfo {
    DialogResultInfo(s.result, s.external)
  }

  // ---------------------------------------------------------------------------
  // Countdown
  // ---------------------------------------------------------------------------

  /** Durations at or below this many seconds disable the countdown. */
  const CountdownThreshold := 3

  /** The progress shown with `secondsLeft` of `total` seconds remaining, clamped at 0. */
  function ProgressPercent(secondsLeft: int, total: int): (p: real)
    requires total > 0
    ensures 0.0 <= p
    ensures secondsLeft <= 0 ==> p == 0.0
  {
    var percent := (secondsLeft as real / total as real) * 100.0;
    if percent < 0.0 then 0.0 else percent
  }

  /**
   * The progress is the share of the duration still left, as a percentage: never
   * negative, 0 once no time is left, at most 100 while within the duration and
   * below 100 once a second has passed.
   */
  lemma ProgressClamp(secondsLeft: int, total: int)
    requires total > 0
    ensures var p := ProgressPercent(secondsLeft, total);
      && 0.0 <= p
      && (secondsLeft <= total ==> p <= 100.0)
      && (secondsLeft < total ==> p < 100.0)
      && (secondsLeft <= 0 ==> p == 0.0)
      && (0 <= secondsLeft ==> p * (total as real) == (secondsLeft as real) * 100.0)
  {
    var fraction := secondsLeft as real / total as real;
    assert fraction * (total as real) == secondsLeft as real;
    assert secondsLeft < total ==> fraction < 1.0;
    assert secondsLeft <= 0 ==> fraction <= 0.0;
  }

  /** `StartCountdownIfNeeded`: a timer with the full duration, only above the threshold; nothing else changes. */
  function StartCountdownIfNeeded(opts: DialogOptions, s: Ctl): (r: Ctl)
    ensures opts.autoCloseSeconds > CountdownThreshold ==>
      r.timerActive && r.secondsLeft == opts.autoCloseSeconds
    ensures opts.autoCloseSeconds <= CountdownThreshold ==> r == s
    ensures r.(secondsLeft := s.secondsLeft, timerActive := s.timerActive) == s
  {
    if opts.autoCloseSeconds <= CountdownThreshold then s
    else s.(secondsLeft := opts.autoCloseSeconds, timerActive := true)
  }

  /** `StopCountdown`: no timer afterwards, nothing else changes, and without a timer nothing happens. */
  function StopCountdown(s: Ctl): (r: Ctl)
    ensures !r.timerActive && r.(timerActive := s.timerActive) == s
    ensures !s.timerActive ==> r == s
  {
    s.(timerActive := false)
  }

  /** `CountdownTick`, one `Elapsed` event of the one-second timer. */
  function CountdownTick(opts: DialogOptions, s: Ctl): (r: Ctl)
    requires opts.autoCloseSeconds > 0
    ensures !s.dispatcherReady ==> r == s
    ensures r == s.(secondsLeft := r.secondsLeft, timerActive := r.timerActive, queue := r.queue)
    ensures s.dispatcherReady ==>
      && r.secondsLeft == s.secondsLeft - 1
      && s.queue < r.queue
      && |r.queue| == |s.queue| + (if r.secondsLeft <= 0 then 2 else 1)
      && r.queue[|s.queue|] == SetProgress(ProgressPercent(r.secondsLeft, opts.autoCloseSeconds))
      && (r.queue[|r.queue| - 1] == TimeoutClose <==> r.secondsLeft <= 0)
      && (r.timerActive <==> s.timerActive && r.secondsLeft > 0)
  {
    if !s.dispatcherReady then s
    else
      var left := s.secondsLeft - 1;
      var queue := s.queue + [SetProgress(ProgressPercent(left, opts.autoCloseSeconds))];
      if left <= 0 then s.(secondsLeft := left, queue := queue + [TimeoutClose], timerActive := false)
      else s.(secondsLeft := left, queue := queue)
  }

  // ---------------------------------------------------------------------------
  // Event handlers and public methods
  // ---------------------------------------------------------------------------

  /**
   * `CloseWindowInternal`: signal closed at once without a dispatcher, else post a
   * close; exactly one of the two happens and nothing else changes.
   */
  function CloseWindowInternal(s: Ctl): (r: Ctl)
    ensures r == s.(closedSignals := r.closedSignals, queue := r.queue)
    ensures !s.dispatcherReady <==> r.closedSignals == s.closedSignals + 1
    ensures s.dispatcherReady <==> r.queue == s.queue + [CloseWindow]
    ensures r.closedSignals == s.closedSignals || r.queue == s.queue
  {
    if !s.dispatcherReady then s.(closedSignals := s.closedSignals + 1)
    else s.(queue := s.queue + [CloseWindow])
  }

  /** `OnButtonClicked`: the button's result is recorded at once; the window is closed through `CloseWindowInternal`. */
  function OnButtonClicked(s: Ctl, r: DialogButtonResult): (t: Ctl)
    ensures Info(t) == DialogResultInfo(r, s.external)
    ensures t.window == s.window && t.ui == s.ui && t.caller == s.caller
    ensures t.closedSignals > s.closedSignals || t.queue == s.queue + [CloseWindow]
  {
    CloseWindowInternal(s.(result := r))
  }

  /** `OnDialogClosed`: the result record is untouched; the window is closed through `CloseWindowInternal`. */
  function OnDialogClosed(s: Ctl): (t: Ctl)
    ensures Info(t) == Info(s)
    ensures t.closedSignals > s.closedSignals || t.queue == s.queue + [CloseWindow]
  {
    CloseWindowInternal(s)
  }

  /** The controller's subscription to the window's events, run when the window raises one. */
  function Raise(s: Ctl, e: WindowEvent): (t: Ctl)
    ensures t.closedSignals >= s.closedSignals && t.createdSignals == s.createdSignals
    ensures t.ui == s.ui && t.caller == s.caller && t.window == s.window
  {
    match e
    case ButtonClicked(r) => OnButtonClicked(s, r)
    case DialogClosed => OnDialogClosed(s)
    case NoEvent => s
  }

  /** `CloseFromExternal`: marks the record external, keeps its result, and closes through `CloseWindowInternal`. */
  function CloseFromExternal(s: Ctl): (t: Ctl)
    ensures Info(t) == DialogResultInfo(s.result, true)
    ensures t.closedSignals > s.closedSignals || t.queue == s.queue + [CloseWindow]
  {
    CloseWindowInternal(s.(external := true))
  }

  /** `UpdateMainMessage`: posted only when the dispatcher exists, and dropped otherwise. */
  function UpdateMainMessage(s: Ctl, text: NullableString): (t: Ctl)
    ensures t == s.(queue := t.queue)
    ensures s.dispatcherReady <==> t.queue == s.queue + [UpdateMain(text)]
    ensures !s.dispatcherReady <==> t == s
  {
    if s.dispatcherReady then s.(queue := s.queue + [UpdateMain(text)]) else s
  }

  /** `UpdateSubMessage`: posted only when the dispatcher exists, and dropped otherwise. */
  function UpdateSubMessage(s: Ctl, text: NullableString): (t: Ctl)
    ensures t == s.(queue := t.queue)
    ensures s.dispatcherReady <==> t.queue == s.queue + [UpdateSub(text)]
    ensures !s.dispatcherReady <==> t == s
  {
    if s.dispatcherReady then s.(queue := s.queue + [UpdateSub(text)]) else s
  }

  // ---------------------------------------------------------------------------
  // The UI thread
  // ---------------------------------------------------------------------------

  /** The catch block of `UiThreadStart`: failed, external, closed signalled; the thread ends. */
  function Failed(s: Ctl): (t: Ctl)
    ensures Info(t) == DialogResultInfo(DialogFailed, true)
    ensures t.closedSignals > 0 && t.createdSignals == s.createdSignals && t.ui == Ended
    ensures t.window == s.window && t.queue == s.queue && t.caller == s.caller
  {
    s.(result := DialogFailed, external := true, closedSignals := s.closedSignals + 1, ui := Ended)
  }

  /**
   * `UiThreadStart` up to `Dispatcher.Run`: build the window, capture the dispatcher,
   * signal created, enter the loop. If the window's construction throws, only the
   * catch block runs: `_windowCreated` is never set.
   */
  function UiThreadStart(opts: DialogOptions, s: Ctl, constructionFails: bool): (t: Ctl)
    ensures constructionFails ==> t.createdSignals == s.createdSignals && t.closedSignals > 0 && t.ui == Ended
    ensures constructionFails ==> Info(t) == DialogResultInfo(DialogFailed, true)
    ensures !constructionFails ==>
      UserCanAct(t) && t.dispatcherReady && t.createdSignals > 0 && t.window == Some(InitialView(opts))
    ensures !constructionFails ==> Info(t) == Info(s) && t.closedSignals == s.closedSignals
  {
    if constructionFails then Failed(s)
    else s.(window := Some(InitialView(opts)), dispatcherReady := true,
            createdSignals := s.createdSignals + 1, ui := Looping)
  }

  /**
   * Performing one posted action on the UI thread. Only a close ends the loop: it
   * drops the window and signals closed. A timeout on a live window records an
   * external timeout; the updates show their value on a live window.
   */
  function Perform(s: Ctl, a: UiAction): (t: Ctl)
    ensures t.caller == s.caller && t.createdSignals == s.createdSignals && t.dispatcherReady == s.dispatcherReady
    ensures a.CloseWindow? ==> t.ui == Ended && t.window.None? && t.closedSignals > s.closedSignals
    ensures t.closedSignals >= s.closedSignals
    ensures !a.CloseWindow? ==> t.ui == s.ui && (t.window.Some? <==> s.window.Some?)
    ensures a.TimeoutClose? && s.window.Some? ==> Info(t) == DialogResultInfo(Timeout, true)
    ensures !a.CloseWindow? && !a.TimeoutClose? ==> Info(t) == Info(s) && t.queue == s.queue
    ensures a.SetProgress? && s.window.Some? ==> t.window.value.progress == a.percent && t.window.value.progressVisible
    ensures a.SetProgress? && s.window.Some? ==>
      t == s.(window := Some(s.window.value.(progressVisible := true, progress := a.percent)))
    ensures a.UpdateMain? && s.window.Some? ==> t == s.(window := Some(s.window.value.(mainText := OrEmpty(a.text))))
    ensures a.UpdateSub? && s.window.Some? ==> t == s.(window := Some(s.window.value.(subText := OrEmpty(a.text))))
    ensures !a.CloseWindow? && !a.TimeoutClose? && s.window.None? ==> t == s
  {
    match a
    case SetProgress(p) =>
      if s.window.None? then s
      else s.(window := Some(s.window.value.(progressVisible := true, progress := p)))
    case UpdateMain(t) =>
      if s.window.None? then s else s.(window := Some(s.window.value.(mainText := OrEmpty(t))))
    case UpdateSub(t) =>
      if s.window.None? then s else s.(window := Some(s.window.value.(subText := OrEmpty(t))))
    case TimeoutClose =>
      if s.window.None? then s
      else Raise(s.(result := Timeout, external := true), ButtonClicked(Timeout))
    case CloseWindow =>
      var s1 :=
        if s.window.None? then s
        else
          var w := s.window.value;
          var raised := if w.closed then NoEvent else DialogClosed;
          Raise(s.(window := Some(w.(closed := true))), raised).(window := Option.None);
      // `_windowClosed.Set()`, then `Dispatcher.ExitAllFrames()` ends the loop
      s1.(closedSignals := s1.closedSignals + 1, ui := Ended)
  }

  /** The dispatcher loop runs the oldest posted action, if the loop is still running. */
  function DispatchNext(s: Ctl): (t: Ctl)
    ensures t.createdSignals == s.createdSignals && t.closedSignals >= s.closedSignals && t.caller == s.caller
    ensures s.ui == Ended ==> t == s
  {
    if s.ui == Looping && |s.queue| > 0 then Perform(s.(queue := s.queue[1..]), s.queue[0]) else s
  }

  /** The window is shown and open, so the user can act on it. */
  predicate UserCanAct(s: Ctl) {
    s.ui == Looping && s.window.Some? && !s.window.value.closed
  }

  // ---------------------------------------------------------------------------
  // The caller thread inside ShowModal
  // ---------------------------------------------------------------------------

  /** `ShowModal` up to the first wait; when starting the UI thread throws, its catch block. */
  function ShowModalStart(s: Ctl, threadFails: bool): (t: Ctl)
    ensures threadFails ==> t.caller == Returned && Info(t) == DialogResultInfo(DialogFailed, true) && t.ui == s.ui
    ensures !threadFails ==> t.caller == AwaitingCreated && t.ui == Launched && Info(t) == Info(s)
    ensures t.window == s.window && t.queue == s.queue && t.closedSignals == s.closedSignals
  {
    if threadFails then s.(result := DialogFailed, external := true, caller := Returned)
    else s.(ui := Launched, caller := AwaitingCreated)
  }

  /**
   * The caller thread resumes from whichever wait it is blocked in, if that event
   * is set; it returns only from the second wait, with the timer stopped and the
   * result record as it stands.
   */
  function ResumeCaller(opts: DialogOptions, s: Ctl): (t: Ctl)
    ensures Info(t) == Info(s) && t.queue == s.queue && t.window == s.window
    ensures t.(caller := s.caller, secondsLeft := s.secondsLeft, timerActive := s.timerActive) == s
    ensures t.caller == Returned <==>
      s.caller == Returned || (s.caller == AwaitingClosed && s.closedSignals > 0)
    ensures s.caller == AwaitingClosed && t.caller == Returned ==> !t.timerActive
    ensures s.caller == AwaitingCreated && s.createdSignals > 0 ==> t.caller == AwaitingClosed
  {
    if s.caller == AwaitingCreated && s.createdSignals > 0 then
      StartCountdownIfNeeded(opts, s).(caller := AwaitingClosed)
    else if s.caller == AwaitingClosed && s.closedSignals > 0 then
      StopCountdown(s).(caller := Returned)
    else s
  }

  // ---------------------------------------------------------------------------
  // Interleavings
  // ---------------------------------------------------------------------------

  /** One thing any of the threads can do next. */
  datatype Event =
    | UiThreadRuns(constructionFails: bool)   // the UI thread starts (and may fail to build the window)
    | UiLoopFaults                            // an exception escapes the dispatcher loop
    | Dispatch                                // the UI thread runs the oldest posted action
    | TimerElapsed                            // the countdown timer fires
    | UserClicks(index: nat)                  // the user clicks a panel button
    | UserClosesWindow                        // the user closes the window from its frame
    | ExternalUpdateMain(text: NullableString)
    | ExternalUpdateSub(text: NullableString)
    | ExternalClose
    | CallerWakes                             // the caller thread returns from a wait

  /**
   * The effect of one event; an event that cannot happen in state `s` changes
   * nothing. The counts of `Set` calls on the two wait handles only grow, a
   * finished UI thread stays finished and a returned caller stays returned.
   */
  function Step(opts: DialogOptions, s: Ctl, e: Event): (t: Ctl)
    ensures t.createdSignals >= s.createdSignals && t.closedSignals >= s.closedSignals
    ensures s.ui == Ended ==> t.ui == Ended
    ensures s.caller == Returned ==> t.caller == Returned
  {
    match e
    case UiThreadRuns(fails) => if s.ui == Launched then UiThreadStart(opts, s, fails) else s
    case UiLoopFaults => if s.ui == Looping then Failed(s) else s
    case Dispatch => DispatchNext(s)
    case TimerElapsed =>
      // the timer exists only when the duration exceeds the threshold
      if s.timerActive && opts.autoCloseSeconds > CountdownThreshold then CountdownTick(opts, s) else s
    case UserClicks(i) =>
      if UserCanAct(s) && i < |s.window.value.buttons| then
        Raise(s, ButtonClicked(s.window.value.buttons[i].result))
      else s
    case UserClosesWindow =>
      if UserCanAct(s) then Raise(s.(window := Some(s.window.value.(closed := true))), DialogClosed)
      else s
    case ExternalUpdateMain(t) => UpdateMainMessage(s, t)
    case ExternalUpdateSub(t) => UpdateSubMessage(s, t)
    case ExternalClose => CloseFromExternal(s)
    case CallerWakes => ResumeCaller(opts, s)
  }

  /** The state after the events `es`, in order. */
  function Run(opts: DialogOptions, s: Ctl, es: seq<Event>): Ctl
    decreases |es|
  {
    if es == [] then s else Step(opts, Run(opts, s, es[..|es| - 1]), es[|es| - 1])
  }

  /** The state `ShowDialog` starts the interleaving from. */
  function Launch(threadFails: bool): Ctl {
    ShowModalStart(Initial(), threadFails)
  }

  /** The caller inside `ShowModal` has not returned after any prefix of `es` up to length `n`. */
  ghost predicate BlockedThrough(options: DialogOptions, s: Ctl, es: seq<Event>, n: int)
    requires 0 <= n <= |es|
  {
    forall j :: 0 <= j <= n ==> Run(options, s, es[..j]).caller != Returned
  }

  /** A run that has not returned after one more event stays blocked through it. */
  lemma BlockedExtend(options: DialogOptions, s: Ctl, es: seq<Event>, n: int)
    requires 0 <= n < |es| && BlockedThrough(options, s, es, n)
    requires Run(options, s, es[..n + 1]).caller != Returned
    ensures BlockedThrough(options, s, es, n + 1)
  {
  }

  /** The caller returns from `ShowModal` only by waking on the closed signal; nothing else returns it. */
  lemma StepReturnsOnlyOnWake(opts: DialogOptions, s: Ctl, e: Event)
    requires s.caller != Returned
    ensures Step(opts, s, e).caller == Returned <==>
      e.CallerWakes? && s.caller == AwaitingClosed && s.closedSignals > 0
  {
  }

  lemma {:induction false} RunAppend(opts: DialogOptions, s: Ctl, a: seq<Event>, b: seq<Event>)
    ensures Run(opts, s, a + b) == Run(opts, Run(opts, s, a), b)
    decreases |b|
  {
    if b == [] {
      assert a + b == a;
    } else {
      RunAppend(opts, s, a, b[..|b| - 1]);
      assert (a + b)[..|a + b| - 1] == a + b[..|b| - 1];
    }
  }

  // ---------------------------------------------------------------------------
  // The invariant every interleaving keeps
  // ---------------------------------------------------------------------------

  /** No progress update is queued and none has been shown. */
  ghost predicate NoProgress(s: Ctl) {
    && (forall i :: 0 <= i < |s.queue| ==> !s.queue[i].SetProgress?)
    && (s.window.Some? ==> !s.window.value.progressVisible)
  }

  ghost predicate Inv(opts: DialogOptions, s: Ctl) {
    // the timer exists only after the caller started it and before it stopped it
    && (s.timerActive ==>
          && CountdownThreshold < opts.autoCloseSeconds
          && 0 < s.secondsLeft <= opts.autoCloseSeconds
          && s.dispatcherReady
          && s.caller == AwaitingClosed)
    && (opts.autoCloseSeconds <= CountdownThreshold ==> NoProgress(s))
    // every progress value posted or shown is a percentage
    && (forall i :: 0 <= i < |s.queue| && s.queue[i].SetProgress? ==> 0.0 <= s.queue[i].percent <= 100.0)
    && (s.window.Some? ==> 0.0 <= s.window.value.progress <= 100.0)
    // the window and the dispatcher exist together, from the created signal on
    && (s.window.Some? ==> s.dispatcherReady)
    && (s.createdSignals > 0 <==> s.dispatcherReady)
    && (s.ui == Looping ==> s.dispatcherReady)
    && (s.dispatcherReady ==> s.ui == Looping || s.ui == Ended)
  }

  lemma InitialInv(opts: DialogOptions, threadFails: bool)
    ensures Inv(opts, Initial()) && Inv(opts, Launch(threadFails))
    ensures Info(Initial()) == NewResultInfo()
  {
  }

  lemma PerformPreservesInv(opts: DialogOptions, s: Ctl, a: UiAction)
    requires Inv(opts, s) && s.dispatcherReady
    requires a.SetProgress? ==> 0.0 <= a.percent <= 100.0
    requires opts.autoCloseSeconds <= CountdownThreshold ==> !a.SetProgress?
    ensures Inv(opts, Perform(s, a))
  {
  }

  lemma StepPreservesInv(opts: DialogOptions, s: Ctl, e: Event)
    requires Inv(opts, s)
    ensures Inv(opts, Step(opts, s, e))
  {
    match e
    case Dispatch =>
      if s.ui == Looping && |s.queue| > 0 {
        PerformPreservesInv(opts, s.(queue := s.queue[1..]), s.queue[0]);
      }
    case TimerElapsed =>
      if s.timerActive && opts.autoCloseSeconds > CountdownThreshold {
        ProgressClamp(s.secondsLeft - 1, opts.autoCloseSeconds);
      }
    case UiThreadRuns(_) => ThreadStepPreservesInv(opts, s, e);
    case UiLoopFaults => ThreadStepPreservesInv(opts, s, e);
    case CallerWakes => ThreadStepPreservesInv(opts, s, e);
    case _ => RequestStepPreservesInv(opts, s, e);
  }

  /** The UI thread starting or failing, and the caller waking, keep the invariant. */
  lemma ThreadStepPreservesInv(opts: DialogOptions, s: Ctl, e: Event)
    requires Inv(opts, s) && (e.UiThreadRuns? || e.UiLoopFaults? || e.CallerWakes?)
    ensures Inv(opts, Step(opts, s, e))
  {
  }

  /** What the user and other threads request (clicks, closes, updates) keeps the invariant. */
  lemma RequestStepPreservesInv(opts: DialogOptions, s: Ctl, e: Event)
    requires Inv(opts, s)
    requires e.UserClicks? || e.UserClosesWindow? || e.ExternalUpdateMain? || e.ExternalUpdateSub? || e.ExternalClose?
    ensures Inv(opts, Step(opts, s, e))
  {
  }

  lemma {:induction false} RunPreservesInv(opts: DialogOptions, s: Ctl, es: seq<Event>)
    requires Inv(opts, s)
    ensures Inv(opts, Run(opts, s, es))
    decreases |es|
  {
    if es != [] {
      RunPreservesInv(opts, s, es[..|es| - 1]);
      StepPreservesInv(opts, Run(opts, s, es[..|es| - 1]), es[|es| - 1]);
    }
  }

  // ---------------------------------------------------------------------------
  // The countdown
  // ---------------------------------------------------------------------------

  /** `k` consecutive timer ticks. */
  function Ticks(k: nat): (es: seq<Event>)
    ensures |es| == k
  {
    if k == 0 then [] else Ticks(k - 1) + [TimerElapsed]
  }

  /** The progress updates posted by `k` ticks counting down from `from` seconds of `total`. */
  function ProgressTrail(total: int, from: int, k: nat): (trail: seq<UiAction>)
    requires total > 0
    ensures |trail| == k
  {
    if k == 0 then [] else ProgressTrail(total, from, k - 1) + [SetProgress(ProgressPercent(from - k, total))]
  }

  /** Starting the countdown: only above the threshold, and then from the full duration. */
  lemma CountdownStart(opts: DialogOptions, s: Ctl)
    requires s.caller == AwaitingCreated && s.createdSignals > 0
    ensures var r := Step(opts, s, CallerWakes);
      && r.caller == AwaitingClosed
      && (opts.autoCloseSeconds <= CountdownThreshold ==> r == s.(caller := AwaitingClosed))
      && (opts.autoCloseSeconds > CountdownThreshold ==>
            r == s.(caller := AwaitingClosed, secondsLeft := opts.autoCloseSeconds, timerActive := true))
  {
  }

  /** A tick before the dispatcher exists changes nothing. */
  lemma TickWithoutDispatcher(opts: DialogOptions, s: Ctl)
    requires opts.autoCloseSeconds > 0 && !s.dispatcherReady
    ensures CountdownTick(opts, s) == s
  {
  }

  /**
   * `k` ticks of a running countdown with `n` seconds left: each takes one second
   * off and posts one progress value; the timer stops, and the timeout close is
   * posted, exactly at the `n`-th tick.
   */
  lemma {:induction false} TicksToTimeout(opts: DialogOptions, s: Ctl, k: nat)
    requires s.timerActive && s.dispatcherReady && opts.autoCloseSeconds > CountdownThreshold
    requires 1 <= k <= s.secondsLeft
    ensures Run(opts, s, Ticks(k)) ==
      s.(secondsLeft := s.secondsLeft - k,
         timerActive := k < s.secondsLeft,
         queue := s.queue + ProgressTrail(opts.autoCloseSeconds, s.secondsLeft, k)
                  + (if k == s.secondsLeft then [TimeoutClose] else []))
  {
    if k > 1 {
      TicksToTimeout(opts, s, k - 1);
    }
    TickAfterTicks(opts, s, k);
  }

  /** The inductive step of `TicksToTimeout`: the `k`-th tick, given the state after `k - 1`. */
  lemma TickAfterTicks(opts: DialogOptions, s: Ctl, k: nat)
    requires s.timerActive && s.dispatcherReady && opts.autoCloseSeconds > CountdownThreshold
    requires 1 <= k <= s.secondsLeft
    requires Run(opts, s, Ticks(k - 1)) ==
      s.(secondsLeft := s.secondsLeft - (k - 1),
         queue := s.queue + ProgressTrail(opts.autoCloseSeconds, s.secondsLeft, k - 1))
    ensures Run(opts, s, Ticks(k)) ==
      s.(secondsLeft := s.secondsLeft - k,
         timerActive := k < s.secondsLeft,
         queue := s.queue + ProgressTrail(opts.autoCloseSeconds, s.secondsLeft, k)
                  + (if k == s.secondsLeft then [TimeoutClose] else []))
  {
    var prev := Run(opts, s, Ticks(k - 1));
    RunSnoc(opts, s, Ticks(k - 1), TimerElapsed);
    TickOnTrail(opts, s, k, prev);
  }

  /** The `k`-th tick applied to the state `k - 1` ticks left, stated without the run. */
  lemma TickOnTrail(opts: DialogOptions, s: Ctl, k: nat, prev: Ctl)
    requires s.timerActive && s.dispatcherReady && opts.autoCloseSeconds > CountdownThreshold
    requires 1 <= k <= s.secondsLeft
    requires prev == s.(secondsLeft := s.secondsLeft - (k - 1),
                        queue := s.queue + ProgressTrail(opts.autoCloseSeconds, s.secondsLeft, k - 1))
    ensures Step(opts, prev, TimerElapsed) ==
      s.(secondsLeft := s.secondsLeft - k,
         timerActive := k < s.secondsLeft,
         queue := s.queue + ProgressTrail(opts.autoCloseSeconds, s.secondsLeft, k)
                  + (if k == s.secondsLeft then [TimeoutClose] else []))
  {
    var n := s.secondsLeft;
    var total := opts.autoCloseSeconds;
    OneTick(opts, prev);
    var posted := prev.queue + [SetProgress(ProgressPercent(n - k, total))];
    assert posted == s.queue + ProgressTrail(total, n, k);
  }

  /** The last event of a run is applied to the state the rest of the run reaches. */
  lemma RunSnoc(opts: DialogOptions, s: Ctl, es: seq<Event>, e: Event)
    ensures Run(opts, s, es + [e]) == Step(opts, Run(opts, s, es), e)
  {
    assert (es + [e])[..|es|] == es;
  }

  /** Running one more event of a schedule is one more step. */
  lemma RunPrefixStep(opts: DialogOptions, s: Ctl, es: seq<Event>, n: nat)
    requires n < |es|
    ensures Run(opts, s, es[..n + 1]) == Step(opts, Run(opts, s, es[..n]), es[n])
  {
    RunSnoc(opts, s, es[..n], es[n]);
    assert es[..n] + [es[n]] == es[..n + 1];
  }

  /** One tick of a running countdown with a ready dispatcher. */
  lemma OneTick(opts: DialogOptions, s: Ctl)
    requires s.timerActive && opts.autoCloseSeconds > CountdownThreshold && s.dispatcherReady
    ensures var left := s.secondsLeft - 1;
      var posted := s.queue + [SetProgress(ProgressPercent(left, opts.autoCloseSeconds))];
      Step(opts, s, TimerElapsed) ==
        if left <= 0 then s.(secondsLeft := left, queue := posted + [TimeoutClose], timerActive := false)
        else s.(secondsLeft := left, queue := posted)
  {
  }

  /** The `i`-th progress value of a countdown from `from` seconds is the one for `from - 1 - i` seconds left. */
  lemma {:induction false} ProgressTrailAt(total: int, from: int, k: nat, i: nat)
    requires total > 0 && i < k
    ensures ProgressTrail(total, from, k)[i] == SetProgress(ProgressPercent(from - 1 - i, total))
  {
    if i < k - 1 {
      ProgressTrailAt(total, from, k - 1, i);
    }
  }

  /** Every progress value a full countdown posts is a percentage below 100, the last one 0. */
  lemma ProgressTrailBounds(total: int, k: nat)
    requires 0 < k <= total
    ensures var trail := ProgressTrail(total, total, k);
      && (forall i :: 0 <= i < k ==> trail[i].SetProgress? && 0.0 <= trail[i].percent < 100.0)
      && (k == total ==> trail[k - 1] == SetProgress(0.0))
  {
    var trail := ProgressTrail(total, total, k);
    forall i | 0 <= i < k ensures trail[i].SetProgress? && 0.0 <= trail[i].percent < 100.0 {
      ProgressTrailAt(total, total, k, i);
      ProgressClamp(total - 1 - i, total);
    }
    ProgressTrailAt(total, total, k, k - 1);
    ProgressClamp(total - k, total);
  }

  /** With a duration at or below the threshold, no progress update is ever posted or shown. */
  lemma ShortDurationNeverShowsProgress(opts: DialogOptions, threadFails: bool, es: seq<Event>)
    requires opts.autoCloseSeconds <= CountdownThreshold
    ensures var r := Run(opts, Launch(threadFails), es);
      !r.timerActive && NoProgress(r)
  {
    InitialInv(opts, threadFails);
    RunPreservesInv(opts, Launch(threadFails), es);
  }

  /** Whenever `ShowModal` has returned, the countdown timer is stopped. */
  lemma ReturnedWithTimerStopped(opts: DialogOptions, threadFails: bool, es: seq<Event>)
    ensures var r := Run(opts, Launch(threadFails), es);
      r.caller == Returned ==> !r.timerActive
  {
    InitialInv(opts, threadFails);
    RunPreservesInv(opts, Launch(threadFails), es);
  }

  // ---------------------------------------------------------------------------
  // Closing
  // ---------------------------------------------------------------------------

  /** Without a dispatcher a close request just signals closed. */
  lemma CloseWithoutDispatcher(s: Ctl)
    requires !s.dispatcherReady
    ensures CloseWindowInternal(s) == s.(closedSignals := s.closedSignals + 1)
  {
  }

  /**
   * The posted close on an open window: the window closes, which raises
   * `DialogClosed` and so posts a second close; the window is dropped, closed is
   * signalled and the loop ends, so the second close never runs. The result record
   * is untouched.
   */
  lemma CloseActionOnOpenWindow(s: Ctl)
    requires s.dispatcherReady && s.window.Some? && !s.window.value.closed
    ensures var r := Perform(s, CloseWindow);
      && r == s.(window := Option.None, queue := s.queue + [CloseWindow],
                 closedSignals := s.closedSignals + 1, ui := Ended)
      && DispatchNext(r) == r
  {
  }

  /** A close that finds the window already gone (the re-entrant second close) only signals again. */
  lemma CloseActionWithoutWindow(s: Ctl)
    requires s.window.None?
    ensures Perform(s, CloseWindow) == s.(closedSignals := s.closedSignals + 1, ui := Ended)
  {
  }

  /** A close that finds a window the user already closed drops it without raising anything. */
  lemma CloseActionOnClosedWindow(s: Ctl)
    requires s.window.Some? && s.window.value.closed
    ensures Perform(s, CloseWindow) == s.(window := Option.None, closedSignals := s.closedSignals + 1, ui := Ended)
  {
  }

  /** Closing never changes the recorded result. */
  lemma CloseKeepsResult(s: Ctl)
    ensures Info(Perform(s, CloseWindow)) == Info(s)
    ensures Info(CloseWindowInternal(s)) == Info(s)
  {
  }

  /** `CloseFromExternal` marks the result external and requests a close; the result itself is kept. */
  lemma ExternalCloseKeepsResult(s: Ctl)
    ensures var r := CloseFromExternal(s);
      && r.result == s.result && r.external
      && r == CloseWindowInternal(s.(external := true))
  {
  }

  /** A button click records that button's result and then requests a close. */
  lemma ButtonClickRecordsResult(opts: DialogOptions, s: Ctl, i: nat)
    requires UserCanAct(s) && s.dispatcherReady && i < |s.window.value.buttons|
    ensures Step(opts, s, UserClicks(i)) ==
      s.(result := s.window.value.buttons[i].result, queue := s.queue + [CloseWindow])
  {
  }

  /**
   * An external close that arrives after a click but before the close has run
   * keeps the button's result and still marks it external.
   */
  lemma ExternalCloseAfterClick(s: Ctl, r: DialogButtonResult)
    ensures Info(CloseFromExternal(OnButtonClicked(s, r))) == DialogResultInfo(r, true)
  {
  }

  /**
   * The window stays open until the posted close runs, so a second click in between
   * is handled too: the later click's result replaces the first, and a second close
   * is posted.
   */
  lemma LaterClickOverwrites(opts: DialogOptions, s: Ctl, i: nat, j: nat)
    requires UserCanAct(s) && s.dispatcherReady && i < |s.window.value.buttons| && j < |s.window.value.buttons|
    ensures var r := Step(opts, Step(opts, s, UserClicks(i)), UserClicks(j));
      && r.result == s.window.value.buttons[j].result
      && r.queue == s.queue + [CloseWindow, CloseWindow]
  {
    ButtonClickRecordsResult(opts, s, i);
    ButtonClickRecordsResult(opts, Step(opts, s, UserClicks(i)), j);
  }

  // ---------------------------------------------------------------------------
  // Timeout and updates
  // ---------------------------------------------------------------------------

  /** The posted timeout close: with a window, timeout/external then the button path; else nothing. */
  lemma TimeoutAction(s: Ctl)
    ensures s.window.None? ==> Perform(s, TimeoutClose) == s
    ensures s.window.Some? && s.dispatcherReady ==>
      Perform(s, TimeoutClose) == s.(result := Timeout, external := true, queue := s.queue + [CloseWindow])
  {
  }

  /** Message updates are dropped without a dispatcher, and when the window is gone at dispatch time. */
  lemma UpdatesDropped(s: Ctl, t: NullableString, p: real)
    ensures !s.dispatcherReady ==> UpdateMainMessage(s, t) == s && UpdateSubMessage(s, t) == s
    ensures s.window.None? ==>
      Perform(s, UpdateMain(t)) == s && Perform(s, UpdateSub(t)) == s && Perform(s, SetProgress(p)) == s
  {
  }

  /** A dispatched update reaches a live window, with null shown as the empty string. */
  lemma UpdatesShown(s: Ctl, t: NullableString)
    requires s.window.Some?
    ensures Perform(s, UpdateMain(t)).window == Some(s.window.value.(mainText := OrEmpty(t)))
    ensures Perform(s, UpdateSub(t)).window == Some(s.window.value.(subText := OrEmpty(t)))
    ensures t.None? ==> Perform(s, UpdateMain(t)).window.value.mainText == ""
  {
  }

  // ---------------------------------------------------------------------------
  // The failure path
  // ---------------------------------------------------------------------------

  /** What the catch block of `UiThreadStart` leaves when the window cannot be built. */
  ghost predicate FailedBeforeCreated(s: Ctl) {
    && s.ui == Ended && s.createdSignals == 0 && !s.dispatcherReady && s.window.None? && !s.timerActive
    && s.caller == AwaitingCreated && s.result == DialogFailed && s.external && s.closedSignals > 0
  }

  /** A failed window construction: failed, external, closed signalled, created not signalled. */
  lemma ConstructionFailure(opts: DialogOptions)
    ensures var r := Step(opts, Launch(false), UiThreadRuns(true));
      && Info(r) == DialogResultInfo(DialogFailed, true)
      && r.closedSignals == 1 && r.createdSignals == 0
      && FailedBeforeCreated(r)
  {
  }

  /** No interleaving wakes the caller once the window failed to build. */
  lemma {:induction false} FailedStaysBlocked(opts: DialogOptions, s: Ctl, es: seq<Event>)
    requires FailedBeforeCreated(s)
    ensures FailedBeforeCreated(Run(opts, s, es))
    decreases |es|
  {
    if es != [] {
      FailedStaysBlocked(opts, s, es[..|es| - 1]);
    }
  }

  /**
   * As written, `ShowModal` never returns when the window cannot be built: the
   * catch block signals closed but not created, and the caller waits for created.
   */
  lemma FailedConstructionNeverReturns(opts: DialogOptions, es: seq<Event>)
    ensures Run(opts, Launch(false), [UiThreadRuns(true)] + es).caller == AwaitingCreated
  {
    ConstructionFailure(opts);
    RunAppend(opts, Launch(false), [UiThreadRuns(true)], es);
    assert Run(opts, Launch(false), [UiThreadRuns(true)]) == Step(opts, Launch(false), UiThreadRuns(true)) by {
      assert [UiThreadRuns(true)][..0] == [];
    }
    FailedStaysBlocked(opts, Step(opts, Launch(false), UiThreadRuns(true)), es);
  }

  // ---------------------------------------------------------------------------
  // A close before the dispatcher exists
  // ---------------------------------------------------------------------------

  /** Unfolds the four-event run of CloseBeforeDispatcherReturnsEarly one step at a time. */
  lemma EarlyCloseRun(opts: DialogOptions)
    ensures Run(opts, Launch(false), [ExternalClose, UiThreadRuns(false), CallerWakes, CallerWakes]) ==
      Step(opts, Step(opts, Step(opts, Step(opts, Launch(false), ExternalClose), UiThreadRuns(false)), CallerWakes), CallerWakes)
  {
    var s0 := Launch(false);
    RunSnoc(opts, s0, [], ExternalClose);
    assert [] + [ExternalClose] == [ExternalClose];
    RunSnoc(opts, s0, [ExternalClose], UiThreadRuns(false));
    assert [ExternalClose] + [UiThreadRuns(false)] == [ExternalClose, UiThreadRuns(false)];
    RunSnoc(opts, s0, [ExternalClose, UiThreadRuns(false)], CallerWakes);
    assert [ExternalClose, UiThreadRuns(false)] + [CallerWakes] == [ExternalClose, UiThreadRuns(false), CallerWakes];
    RunSnoc(opts, s0, [ExternalClose, UiThreadRuns(false), CallerWakes], CallerWakes);
    assert [ExternalClose, UiThreadRuns(false), CallerWakes] + [CallerWakes]
        == [ExternalClose, UiThreadRuns(false), CallerWakes, CallerWakes];
  }

  /**
   * An external close that arrives before the UI thread has captured its dispatcher
   * sets the closed signal at once. The caller then passes both waits and returns
   * while the window is open and the dispatcher loop still runs, so a later click
   * still writes the result record the caller already holds.
   */
  lemma CloseBeforeDispatcherReturnsEarly(opts: DialogOptions) returns (r: Ctl)
    ensures r == Run(opts, Launch(false), [ExternalClose, UiThreadRuns(false), CallerWakes, CallerWakes])
    ensures r.caller == Returned && Info(r) == DialogResultInfo(DialogButtonResult.None, true)
    ensures UserCanAct(r) && r.window == Some(InitialView(opts))
    ensures forall i :: 0 <= i < |r.window.value.buttons| ==>
      Step(opts, r, UserClicks(i)).result == r.window.value.buttons[i].result
  {
    EarlyCloseRun(opts);
    r := Step(opts, Step(opts, Step(opts, Step(opts, Launch(false), ExternalClose), UiThreadRuns(false)), CallerWakes), CallerWakes);
    forall i | 0 <= i < |r.window.value.buttons|
      ensures Step(opts, r, UserClicks(i)).result == r.window.value.buttons[i].result
    {
      ButtonClickRecordsResult(opts, r, i);
    }
  }

  // ---------------------------------------------------------------------------
  // An auto-close with no user action
  // ---------------------------------------------------------------------------

  /** `k` consecutive dispatches. */
  function Dispatches(k: nat): (es: seq<Event>)
    ensures |es| == k
  {
    if k == 0 then [] else Dispatches(k - 1) + [Dispatch]
  }

  /** Dispatching a run of posted progress updates shows each in turn on a live window. */
  lemma {:induction false} DispatchProgress(opts: DialogOptions, s: Ctl, updates: seq<UiAction>, rest: seq<UiAction>)
    requires s.ui == Looping && s.window.Some? && s.queue == updates + rest
    requires forall i :: 0 <= i < |updates| ==> updates[i].SetProgress?
    ensures var r := Run(opts, s, Dispatches(|updates|));
      && r.queue == rest && r.window.Some?
      && r == s.(queue := rest, window := r.window)
      && r.window.value == (if updates == [] then s.window.value
                            else s.window.value.(progressVisible := true, progress := updates[|updates| - 1].percent))
    decreases |updates|
  {
    var k := |updates|;
    if k > 0 {
      var front := updates[..k - 1];
      assert s.queue == front + ([updates[k - 1]] + rest);
      DispatchProgress(opts, s, front, [updates[k - 1]] + rest);
      var prev := Run(opts, s, Dispatches(k - 1));
      RunSnoc(opts, s, Dispatches(k - 1), Dispatch);
      DispatchOneProgress(opts, prev, updates[k - 1].percent, rest);
    }
  }

  /** Dispatching a posted progress update shows it on a live window. */
  lemma DispatchOneProgress(opts: DialogOptions, s: Ctl, p: real, rest: seq<UiAction>)
    requires s.ui == Looping && s.window.Some? && s.queue == [SetProgress(p)] + rest
    ensures Step(opts, s, Dispatch) ==
      s.(queue := rest, window := Some(s.window.value.(progressVisible := true, progress := p)))
  {
    assert s.queue[1..] == rest;
  }

  /**
   * With a duration of `n` seconds above the threshold and no user action: the UI
   * thread shows the window, the caller starts the countdown, `n` ticks post `n`
   * progress values and the timeout, `n + 2` dispatches show them, record the
   * timeout and close the window, and the caller returns Timeout with the external
   * flag set and the timer stopped.
   */
  lemma TimeoutScenario(opts: DialogOptions)
    requires opts.autoCloseSeconds > CountdownThreshold
    ensures var r := Run(opts, Launch(false), [UiThreadRuns(false)] + TimeoutSchedule(opts.autoCloseSeconds));
      && r.caller == Returned && Info(r) == DialogResultInfo(Timeout, true)
      && r.window.None? && !r.timerActive
  {
    var s := Step(opts, Launch(false), UiThreadRuns(false));
    RunSnoc(opts, Launch(false), [], UiThreadRuns(false));
    assert [] + [UiThreadRuns(false)] == [UiThreadRuns(false)];
    var r := TimeoutFromShownWindow(opts, s);
    RunThrough(opts, Launch(false), [UiThreadRuns(false)], TimeoutSchedule(opts.autoCloseSeconds), s, r);
  }

  /** The caller wakes, `n` ticks, `n + 2` dispatches, the caller wakes again. */
  function TimeoutSchedule(n: nat): seq<Event>
  {
    TimeoutPrefix(n) + [CallerWakes]
  }

  /** The caller wakes, `n` ticks, `n + 2` dispatches. */
  function TimeoutPrefix(n: nat): seq<Event>
  {
    [CallerWakes] + Ticks(n) + Dispatches(n + 2)
  }

  /** `TimeoutScenario` from the moment the window is shown and the created signal set. */
  lemma TimeoutFromShownWindow(opts: DialogOptions, s: Ctl) returns (r: Ctl)
    requires UserCanAct(s) && s.dispatcherReady && s.createdSignals > 0 && s.queue == []
    requires s.caller == AwaitingCreated && opts.autoCloseSeconds > CountdownThreshold
    ensures r == Run(opts, s, TimeoutSchedule(opts.autoCloseSeconds))
    ensures r.caller == Returned && Info(r) == DialogResultInfo(Timeout, true)
    ensures r.window.None? && !r.timerActive
  {
    var n := opts.autoCloseSeconds;
    var s5 := TimeoutClosesWindow(opts, s);
    WakeAfterClose(opts, s, TimeoutPrefix(n));
    r := Run(opts, s, TimeoutSchedule(n));
  }

  /** The timeout scenario up to the closed signal, before the caller wakes for the second time. */
  lemma TimeoutClosesWindow(opts: DialogOptions, s: Ctl) returns (r: Ctl)
    requires UserCanAct(s) && s.dispatcherReady && s.createdSignals > 0 && s.queue == []
    requires s.caller == AwaitingCreated && opts.autoCloseSeconds > CountdownThreshold
    ensures r == Run(opts, s, TimeoutPrefix(opts.autoCloseSeconds))
    ensures r.caller == AwaitingClosed && r.closedSignals > 0 && !r.timerActive
    ensures r.window.None? && r.result == Timeout && r.external
  {
    var n := opts.autoCloseSeconds;
    var s2 := CountdownPhase(opts, s);
    ProgressTrailBounds(n, n);
    r := ClosingPhase(opts, s2, ProgressTrail(n, n, n));
    RunThrough(opts, s, [CallerWakes] + Ticks(n), Dispatches(n + 2), s2, r);
    TimeoutPrefixParts(n);
  }

  lemma TimeoutPrefixParts(n: nat)
    ensures TimeoutPrefix(n) == [CallerWakes] + Ticks(n) + Dispatches(n + 2)
  {
  }

  /** Two runs in a row are one run. */
  lemma RunThrough(opts: DialogOptions, s: Ctl, a: seq<Event>, b: seq<Event>, mid: Ctl, end: Ctl)
    requires Run(opts, s, a) == mid && Run(opts, mid, b) == end
    ensures Run(opts, s, a + b) == end
  {
    RunAppend(opts, s, a, b);
  }

  /** The caller, woken by the closed signal with no timer running, returns and changes nothing else. */
  lemma WakeAfterClose(opts: DialogOptions, s: Ctl, es: seq<Event>)
    requires var r := Run(opts, s, es); r.caller == AwaitingClosed && r.closedSignals > 0 && !r.timerActive
    ensures Run(opts, s, es + [CallerWakes]) == Run(opts, s, es).(caller := Returned)
  {
    RunSnoc(opts, s, es, CallerWakes);
  }

  /** Phase one of `TimeoutScenario`: the caller starts the timer and it runs down to zero. */
  lemma CountdownPhase(opts: DialogOptions, s: Ctl) returns (r: Ctl)
    requires s.dispatcherReady && s.createdSignals > 0 && s.queue == []
    requires s.caller == AwaitingCreated && opts.autoCloseSeconds > CountdownThreshold
    ensures var n := opts.autoCloseSeconds;
      && r == Run(opts, s, [CallerWakes] + Ticks(n))
      && r == s.(caller := AwaitingClosed, secondsLeft := 0, timerActive := false,
                 queue := ProgressTrail(n, n, n) + [TimeoutClose])
  {
    var n := opts.autoCloseSeconds;
    var s1 := Step(opts, s, CallerWakes);
    assert s1 == s.(caller := AwaitingClosed, secondsLeft := n, timerActive := true);
    assert Run(opts, s, [CallerWakes]) == s1 by { assert [CallerWakes][..0] == []; }
    TicksToTimeout(opts, s1, n);
    RunAppend(opts, s, [CallerWakes], Ticks(n));
    r := Run(opts, s, [CallerWakes] + Ticks(n));
  }

  /** Phase two of `TimeoutScenario`: the posted progress updates, the timeout and the close are dispatched. */
  lemma ClosingPhase(opts: DialogOptions, s: Ctl, trail: seq<UiAction>) returns (r: Ctl)
    requires UserCanAct(s) && s.dispatcherReady && s.queue == trail + [TimeoutClose]
    requires forall i :: 0 <= i < |trail| ==> trail[i].SetProgress?
    ensures r == Run(opts, s, Dispatches(|trail| + 2))
    ensures r == s.(window := Option.None, queue := [CloseWindow], result := Timeout, external := true,
                    closedSignals := s.closedSignals + 1, ui := Ended)
  {
    var k := |trail|;
    DispatchProgress(opts, s, trail, [TimeoutClose]);
    var s3 := Run(opts, s, Dispatches(k));
    assert s3 == s.(queue := [TimeoutClose], window := s3.window) && !s3.window.value.closed;
    TimeoutDispatch(opts, s3);
    assert Dispatches(k + 2) == Dispatches(k) + [Dispatch, Dispatch];
    RunAppend(opts, s, Dispatches(k), [Dispatch, Dispatch]);
    r := Run(opts, s, Dispatches(k + 2));
  }

  /** Dispatching a posted timeout on a live window: the timeout is recorded, then the window closes. */
  lemma TimeoutDispatch(opts: DialogOptions, s: Ctl)
    requires UserCanAct(s) && s.dispatcherReady && s.queue == [TimeoutClose]
    ensures Run(opts, s, [Dispatch, Dispatch]) ==
      s.(window := Option.None, queue := [CloseWindow], result := Timeout, external := true,
         closedSignals := s.closedSignals + 1, ui := Ended)
  {
    var s4 := Step(opts, s, Dispatch);
    assert s4 == s.(queue := [CloseWindow], result := Timeout, external := true);
    CloseActionOnOpenWindow(s4.(queue := []));
    assert [Dispatch, Dispatch][..1] == [Dispatch];
    assert [Dispatch][..0] == [];
  }
}
