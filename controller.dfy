/**
 * `DialogController` (DialogDemo/DialogController.cs) as a class over mutable
 * fields. Each method is one thing a thread does; its postcondition ties the
 * controller's new state to the step function of the same name in module
 * `Orchestration`, whose lemmas state what the source promises. A method that
 * changes the window object also changes `window`'s own fields, so every
 * state-changing method names both `this` and `window` in its frame.
 *
 * The two waits of `ShowModal` split it in two: `ShowModalStart` runs up to the
 * first wait, and `CallerWakes` runs from whichever wait is satisfied to the next
 * one (or to the return).
 */
module Controller {
  import opened Themes
  import opened Surface
  import opened Orchestration

  class DialogController {
    const options: DialogOptions
    const clientHwnd: int
    var window: DialogWindow?         // `_window`
    var dispatcherReady: bool         // `_dispatcher != null`
    var ui: UiThread                  // where `_uiThread` is
    var result: DialogButtonResult    // `_result.Result`
    var external: bool                // `_result.ClosedByExternalRequest`
    var secondsLeft: int              // `_secondsLeft`
    var timerActive: bool             // `_countdownTimer != null`
    var createdSignals: nat           // times `_windowCreated` was set
    var closedSignals: nat            // times `_windowClosed` was set
    var queue: seq<UiAction>          // actions posted with `BeginInvoke`, oldest first
    var caller: CallerPhase           // where the thread inside `ShowModal` is

    /** The controller's state as a value, with the window's contents in place of the reference. */
    function State(): Ctl
      reads this, window
    {
      Ctl(if window == null then Option.None else Some(window.View()),
          dispatcherReady, ui, result, external, secondsLeft, timerActive,
          createdSignals, closedSignals, queue, caller)
    }

    /** The constructor, for non-null options: a fresh result record and nothing started. */
    constructor (options: DialogOptions, clientHwnd: int)
      ensures this.options == options && this.clientHwnd == clientHwnd
      ensures State() == Initial()
    {
      this.options := options;
      this.clientHwnd := clientHwnd;
      window := null;
      dispatcherReady := false;
      ui := NotLaunched;
      result := NewResultInfo().result;
      external := NewResultInfo().closedByExternalRequest;
      secondsLeft := 0;
      timerActive := false;
      createdSignals := 0;
      closedSignals := 0;
      queue := [];
      caller := NotStarted;
    }

    /** `new DialogController(options, clientHwnd)`, which throws on null options. */
    static method Create(options: Option<DialogOptions>, clientHwnd: int) returns (c: DialogController?, fault: Option<Fault>)
      ensures options.None? ==> c == null && fault == Some(ArgumentNull("options"))
      ensures options.Some? ==>
        && fault.None? && c != null && fresh(c)
        && c.options == options.value && c.clientHwnd == clientHwnd && c.State() == Initial()
    {
      if options.None? {
        c, fault := null, Some(ArgumentNull("options"));
      } else {
        c := new DialogController(options.value, clientHwnd);
        fault := Option.None;
      }
    }

    // -------------------------------------------------------------------------
    // Private methods
    // -------------------------------------------------------------------------

    /** `CloseWindowInternal`. */
    method CloseWindowInternal()
      modifies this`closedSignals, this`queue
      ensures State() == Orchestration.CloseWindowInternal(old(State()))
    {
      if !dispatcherReady {
        closedSignals := closedSignals + 1;
        return;
      }
      queue := queue + [CloseWindow];
    }

    /** `OnButtonClicked`. */
    method OnButtonClicked(r: DialogButtonResult)
      modifies this`result, this`closedSignals, this`queue
      ensures State() == Orchestration.OnButtonClicked(old(State()), r)
    {
      result := r;
      CloseWindowInternal();
    }

    /** `OnDialogClosed`. */
    method OnDialogClosed()
      modifies this`closedSignals, this`queue
      ensures State() == Orchestration.OnDialogClosed(old(State()))
    {
      CloseWindowInternal();
    }

    /** The subscriptions made in `UiThreadStart`: the handler of whatever event the window raised. */
    method Handle(e: WindowEvent)
      modifies this`result, this`closedSignals, this`queue
      ensures State() == Raise(old(State()), e)
    {
      match e
      case ButtonClicked(r) => OnButtonClicked(r);
      case DialogClosed => OnDialogClosed();
      case NoEvent =>
    }

    /** `StartCountdownIfNeeded`. */
    method StartCountdownIfNeeded()
      modifies this`secondsLeft, this`timerActive
      ensures State() == Orchestration.StartCountdownIfNeeded(options, old(State()))
    {
      if options.autoCloseSeconds <= CountdownThreshold {
        return;
      }
      secondsLeft := options.autoCloseSeconds;
      timerActive := true;
    }

    /** `CountdownTick`; the timer it handles exists only for durations above the threshold. */
    method CountdownTick()
      requires options.autoCloseSeconds > CountdownThreshold
      modifies this`secondsLeft, this`timerActive, this`queue
      ensures State() == Orchestration.CountdownTick(options, old(State()))
    {
      if !dispatcherReady {
        return;
      }
      secondsLeft := secondsLeft - 1;
      var percent := ProgressPercent(secondsLeft, options.autoCloseSeconds);
      queue := queue + [SetProgress(percent)];
      if secondsLeft <= 0 {
        timerActive := false;
        queue := queue + [TimeoutClose];
      }
    }

    /** `StopCountdown`. */
    method StopCountdown()
      modifies this`timerActive
      ensures State() == Orchestration.StopCountdown(old(State()))
    {
      if timerActive {
        timerActive := false;
      }
    }

    /** The catch block of `UiThreadStart`. */
    method UiThreadCatch()
      modifies this`result, this`external, this`closedSignals, this`ui
      ensures State() == Failed(old(State()))
    {
      result := DialogFailed;
      external := true;
      closedSignals := closedSignals + 1;
      ui := Ended;
    }

    /** `UiThreadStart` up to `Dispatcher.Run`, or its catch block when building the window throws. */
    method UiThreadStart(constructionFails: bool)
      modifies this
      ensures State() == Orchestration.UiThreadStart(options, old(State()), constructionFails)
      ensures constructionFails ==> window == old(window)
      ensures !constructionFails ==> window != null && fresh(window)
    {
      if constructionFails {
        UiThreadCatch();
        return;
      }
      var w := new DialogWindow(options);
      assert w.View() == InitialView(options);
      window := w;
      dispatcherReady := true;
      createdSignals := createdSignals + 1;
      ui := Looping;
    }

    /** The body of one posted action, run on the UI thread. */
    method Perform(a: UiAction)
      modifies this, window
      ensures State() == Orchestration.Perform(old(State()), a)
      ensures window == null || window == old(window)
    {
      match a
      case SetProgress(p) =>
        if window != null {
          window.SetProgress(p);
        }
      case UpdateMain(t) =>
        if window != null {
          window.UpdateMainMessage(t);
        }
      case UpdateSub(t) =>
        if window != null {
          window.UpdateSubMessage(t);
        }
      case TimeoutClose => TimeoutAction();
      case CloseWindow => CloseAction();
    }

    /** The action `CountdownTick` posts once the time is up. */
    method TimeoutAction()
      modifies this`result, this`external, this`closedSignals, this`queue
      ensures State() == Orchestration.Perform(old(State()), TimeoutClose)
    {
      if window != null {
        result := Timeout;
        external := true;
        var e := window.SimulateButtonClick(Timeout);
        Handle(e);
      }
    }

    /** The action `CloseWindowInternal` posts. */
    method CloseAction()
      modifies this, window
      ensures State() == Orchestration.Perform(old(State()), CloseWindow)
      ensures window == null
    {
      if window != null {
        var e := window.Close();
        Handle(e);
        window := null;
      }
      closedSignals := closedSignals + 1;
      ui := Ended;   // `Dispatcher.ExitAllFrames()`
    }

    // -------------------------------------------------------------------------
    // What the UI thread, the timer and the user do
    // -------------------------------------------------------------------------

    /** The dispatcher loop runs the oldest posted action, while it is running. */
    method DispatchNext()
      modifies this, window
      ensures State() == Orchestration.DispatchNext(old(State()))
      ensures window == null || window == old(window)
    {
      if ui == Looping && |queue| > 0 {
        var a := queue[0];
        queue := queue[1..];
        Perform(a);
      }
    }

    /** The user clicks the panel's `index`-th button of the open window. */
    method UserClicks(index: nat)
      modifies this`result, this`closedSignals, this`queue
      ensures State() == Orchestration.Step(options, old(State()), Event.UserClicks(index))
    {
      if ui == Looping && window != null && !window.closed && index < |window.buttons| {
        var e := window.ClickButton(index);
        Handle(e);
      }
    }

    /** The user closes the open window from its frame. */
    method UserClosesWindow()
      modifies this, window
      ensures State() == Orchestration.Step(options, old(State()), Event.UserClosesWindow)
      ensures window == old(window)
    {
      if ui == Looping && window != null && !window.closed {
        var e := window.Close();
        Handle(e);
      }
    }

    // -------------------------------------------------------------------------
    // Public methods
    // -------------------------------------------------------------------------

    /**
     * `ShowModal` up to its first wait: start the UI thread, or, when starting it
     * throws, return the failure result at once.
     */
    method ShowModalStart(threadFails: bool) returns (early: Option<DialogResultInfo>)
      requires caller == NotStarted
      modifies this`result, this`external, this`ui, this`caller
      ensures State() == Orchestration.ShowModalStart(old(State()), threadFails)
      ensures early.Some? <==> threadFails
      ensures early.Some? ==> early.value == Orchestration.Info(State()) == DialogResultInfo(DialogFailed, true)
    {
      if threadFails {
        result := DialogFailed;
        external := true;
        caller := Returned;
        early := Some(DialogResultInfo(result, external));
      } else {
        ui := Launched;
        caller := AwaitingCreated;
        early := Option.None;
      }
    }

    /**
     * The caller thread inside `ShowModal` passes the wait it is blocked in, if that
     * event is set: after the created signal it starts the countdown and waits for
     * the closed signal; after that one it stops the countdown and returns the result.
     */
    method CallerWakes() returns (done: Option<DialogResultInfo>)
      modifies this`secondsLeft, this`timerActive, this`caller
      ensures State() == ResumeCaller(options, old(State()))
      ensures done.Some? <==> old(caller) == AwaitingClosed && old(closedSignals) > 0
      ensures done.Some? ==> caller == Returned && !timerActive && done.value == Orchestration.Info(State())
    {
      done := Option.None;
      if caller == AwaitingCreated && createdSignals > 0 {
        StartCountdownIfNeeded();
        caller := AwaitingClosed;
      } else if caller == AwaitingClosed && closedSignals > 0 {
        StopCountdown();
        caller := Returned;
        done := Some(DialogResultInfo(result, external));
      }
    }

    /** `UpdateMainMessage`: posts the update when the dispatcher exists. */
    method UpdateMainMessage(text: NullableString)
      modifies this`queue
      ensures State() == Orchestration.UpdateMainMessage(old(State()), text)
    {
      if dispatcherReady {
        queue := queue + [UpdateMain(text)];
      }
    }

    /** `UpdateSubMessage`: posts the update when the dispatcher exists. */
    method UpdateSubMessage(text: NullableString)
      modifies this`queue
      ensures State() == Orchestration.UpdateSubMessage(old(State()), text)
    {
      if dispatcherReady {
        queue := queue + [UpdateSub(text)];
      }
    }

    /** `CloseFromExternal`. */
    method CloseFromExternal()
      modifies this`external, this`closedSignals, this`queue
      ensures State() == Orchestration.CloseFromExternal(old(State()))
    {
      external := true;
      CloseWindowInternal();
    }

    /**
     * Any one event of any thread. `done` carries the result when the event is the
     * caller returning from `ShowModal`.
     */
    method Step(e: Event) returns (done: Option<DialogResultInfo>)
      modifies this, window
      ensures State() == Orchestration.Step(options, old(State()), e)
      ensures window == null || window == old(window) || fresh(window)
      ensures done.Some? <==> e.CallerWakes? && old(caller) == AwaitingClosed && old(closedSignals) > 0
      ensures done.Some? ==> caller == Returned && !timerActive && done.value == Orchestration.Info(State())
    {
      done := Option.None;
      match e
      case UiThreadRuns(fails) =>
        if ui == Launched {
          UiThreadStart(fails);
        }
      case UiLoopFaults =>
        if ui == Looping {
          UiThreadCatch();
        }
      case Dispatch => DispatchNext();
      case TimerElapsed =>
        if timerActive && options.autoCloseSeconds > CountdownThreshold {
          CountdownTick();
        }
      case UserClicks(i) => UserClicks(i);
      case UserClosesWindow => UserClosesWindow();
      case ExternalUpdateMain(t) => UpdateMainMessage(t);
      case ExternalUpdateSub(t) => UpdateSubMessage(t);
      case ExternalClose => CloseFromExternal();
      case CallerWakes => done := CallerWakes();
    }

    /**
     * `ShowModal`, called once on a fresh controller: start the UI thread, then wait while the threads run the events
     * of `schedule`, until the caller returns (`done` holds the result) or the
     * schedule ends with the caller still blocked.
     */
    method ShowModal(threadFails: bool, schedule: seq<Event>) returns (done: Option<DialogResultInfo>, consumed: nat)
      requires State() == Initial()
      modifies this, window
      ensures window == null || window == old(window) || fresh(window)
      ensures var start := Launch(threadFails);
        && consumed <= |schedule|
        && State() == Run(options, start, schedule[..consumed])
        && (done.Some? <==> caller == Returned)
        && (done.Some? ==> done.value == Orchestration.Info(State()) && !timerActive)
        && (consumed > 0 ==> BlockedThrough(options, start, schedule, consumed - 1))
        && (done.None? ==> consumed == |schedule| && BlockedThrough(options, start, schedule, consumed))
    {
      done := ShowModalStart(threadFails);
      consumed := 0;
      if done.None? {
        done, consumed := AwaitResult(schedule);
      } else {
        assert schedule[..0] == [];
      }
    }

    /**
     * The caller blocked inside `ShowModal` while the threads run the events of
     * `schedule`, until it returns (`done` holds the result) or the schedule ends.
     */
    method AwaitResult(schedule: seq<Event>) returns (done: Option<DialogResultInfo>, consumed: nat)
      requires caller != Returned
      modifies this, window
      ensures window == null || window == old(window) || fresh(window)
      ensures consumed <= |schedule|
      ensures State() == Run(options, old(State()), schedule[..consumed])
      ensures done.Some? <==> caller == Returned
      ensures done.Some? ==> done.value == Orchestration.Info(State()) && !timerActive
      ensures consumed > 0 ==> BlockedThrough(options, old(State()), schedule, consumed - 1)
      ensures done.None? ==> consumed == |schedule| && BlockedThrough(options, old(State()), schedule, consumed)
    {
      ghost var start := State();
      assert start == Run(options, start, schedule[..0]);
      done := Option.None;
      consumed := 0;
      while done.None? && consumed < |schedule|
        invariant consumed <= |schedule|
        invariant window == null || window == old(window) || fresh(window)
        invariant State() == Run(options, start, schedule[..consumed])
        invariant done.Some? <==> caller == Returned
        invariant done.Some? ==> done.value == Orchestration.Info(State()) && !timerActive
        invariant consumed > 0 ==> BlockedThrough(options, start, schedule, consumed - 1)
        invariant done.None? ==> BlockedThrough(options, start, schedule, consumed)
        decreases |schedule| - consumed
      {
        var e := schedule[consumed];
        StepReturnsOnlyOnWake(options, State(), e);
        done := Step(e);
        RunPrefixStep(options, start, schedule, consumed);
        if done.None? {
          BlockedExtend(options, start, schedule, consumed);
        }
        consumed := consumed + 1;
      }
      if done.None? {
        assert schedule[..consumed] == schedule;
      }
    }
  }
}
