/**
 * `SystemWideModalDialogService` (DialogDemo/SystemWideModalDialogService.cs):
 * finding the foreign client window, suppressing it for the lifetime of one dialog,
 * and the single static slot that routes message updates and close requests to the
 * active controller.
 *
 * The Win32 lookups are an oracle (`Desktop`): for a class name, the handle
 * `FindWindowByClass` returns; for a process name, the handle
 * `FindMainWindowByProcessName` returns; 0 stands for `IntPtr.Zero`. Every Win32
 * call the service makes is recorded in a ghost log so that what was called, and
 * in which order, can be stated.
 */
module Service {
  import opened Themes
  import opened Orchestration
  import opened Controller

  /** What the Win32 lookups answer on the current desktop. */
  datatype Desktop = Desktop(windowByClass: string -> int, mainWindowByProcess: string -> int)

  /** One call into user32 (or the process table) made by the service. */
  datatype Win32Call =
    | FindWindowByClass(className: string)
    | FindMainWindowByProcessName(processName: string)
    | EnableWindow(hwnd: int, enable: bool)
    | SetForegroundWindow(hwnd: int)

  /** A resolved handle together with the lookups made to find it, in order. */
  datatype Resolution = Resolution(handle: int, calls: seq<Win32Call>)

  // ---------------------------------------------------------------------------
  // ResolveClientWindow
  // ---------------------------------------------------------------------------

  /** The `foreach` over the class names: blank names skipped, the first non-zero handle returned. */
  function ClassSearch(names: seq<NullableString>, desk: Desktop): (r: Resolution)
    ensures |r.calls| <= |names|
    ensures forall k :: 0 <= k < |r.calls| ==> r.calls[k].FindWindowByClass?
    ensures r.handle != 0 ==> r.calls != [] && desk.windowByClass(r.calls[|r.calls| - 1].className) == r.handle
    decreases |names|
  {
    if names == [] then Resolution(0, [])
    else if IsNullOrWhiteSpace(names[0]) then ClassSearch(names[1..], desk)
    else
      var hwnd := desk.windowByClass(names[0].value);
      if hwnd != 0 then Resolution(hwnd, [FindWindowByClass(names[0].value)])
      else
        var rest := ClassSearch(names[1..], desk);
        Resolution(rest.handle, [FindWindowByClass(names[0].value)] + rest.calls)
  }

  /** The lookups made for every non-blank name of `names`, in order. */
  function ClassLookups(names: seq<NullableString>): (calls: seq<Win32Call>)
    ensures |calls| <= |names|
    ensures forall k :: 0 <= k < |calls| ==> calls[k].FindWindowByClass?
    decreases |names|
  {
    if names == [] then []
    else (if IsNullOrWhiteSpace(names[0]) then [] else [FindWindowByClass(names[0].value)]) + ClassLookups(names[1..])
  }

  /** No non-blank class name has a window. */
  predicate NoClassMatch(names: seq<NullableString>, desk: Desktop) {
    forall i :: 0 <= i < |names| && !IsNullOrWhiteSpace(names[i]) ==> desk.windowByClass(names[i].value) == 0
  }

  /** `names[i]` is the first non-blank class name that has a window. */
  predicate FirstMatchAt(names: seq<NullableString>, desk: Desktop, i: int) {
    && 0 <= i < |names|
    && !IsNullOrWhiteSpace(names[i])
    && desk.windowByClass(names[i].value) != 0
    && NoClassMatch(names[..i], desk)
  }

  /**
   * The target searched for: the caller's own when the options carry one, otherwise
   * the VB6 default, which names no handle and no process and only the three VB6
   * window classes.
   */
  function TargetOf(options: DialogOptions): (t: DialogClientTarget)
    ensures options.clientTarget.Some? ==> t == options.clientTarget.value
    ensures options.clientTarget.None? ==>
      t.windowHandle == 0 && t.processName.None? && t.windowClassNames.Some? && |t.windowClassNames.value| == 3
  {
    if options.clientTarget.None? then CreateDefaultVb6Target() else options.clientTarget.value
  }

  /** Steps 1 to 3 of `ResolveClientWindow` on a given target. */
  function ResolveTarget(target: DialogClientTarget, desk: Desktop): (r: Resolution)
    ensures target.windowHandle != 0 ==> r == Resolution(target.windowHandle, [])
    ensures forall k :: 0 <= k < |r.calls| ==>
      r.calls[k].FindWindowByClass? || (k == |r.calls| - 1 && target.processName.Some?
         && r.calls[k] == FindMainWindowByProcessName(target.processName.value))
    ensures r.calls != [] && r.calls[|r.calls| - 1].FindWindowByClass? && r.handle != 0 ==>
      r.handle == desk.windowByClass(r.calls[|r.calls| - 1].className)
  {
    if target.windowHandle != 0 then Resolution(target.windowHandle, [])
    else
      var classes :=
        if target.windowClassNames.Some? && |target.windowClassNames.value| > 0
        then ClassSearch(target.windowClassNames.value, desk)
        else Resolution(0, []);
      if classes.handle != 0 then classes
      else if !IsNullOrEmpty(target.processName) then
        Resolution(desk.mainWindowByProcess(target.processName.value),
                   classes.calls + [FindMainWindowByProcessName(target.processName.value)])
      else Resolution(0, classes.calls)
  }

  /**
   * `ResolveClientWindow`: only lookups are made (no window is enabled or disabled);
   * an explicit handle is taken without any lookup; with no target in the options
   * only the three VB6 class names are looked up.
   */
  function ResolveClientWindow(options: DialogOptions, desk: Desktop): (r: Resolution)
    ensures forall k :: 0 <= k < |r.calls| ==>
      r.calls[k].FindWindowByClass? || r.calls[k].FindMainWindowByProcessName?
    ensures options.clientTarget.Some? && options.clientTarget.value.windowHandle != 0 ==>
      r == Resolution(options.clientTarget.value.windowHandle, [])
    ensures options.clientTarget.None? ==>
      |r.calls| <= 3 && forall k :: 0 <= k < |r.calls| ==> r.calls[k].FindWindowByClass?
  {
    ResolveTarget(TargetOf(options), desk)
  }

  /** The class search finds nothing exactly when no non-blank name has a window; it then asks for every one. */
  lemma {:induction false} ClassSearchMiss(names: seq<NullableString>, desk: Desktop)
    ensures ClassSearch(names, desk).handle == 0 <==> NoClassMatch(names, desk)
    ensures ClassSearch(names, desk).handle == 0 ==> ClassSearch(names, desk).calls == ClassLookups(names)
    decreases |names|
  {
    if names != [] {
      ClassSearchMiss(names[1..], desk);
      if !NoClassMatch(names[1..], desk) {
        var i :| 0 <= i < |names[1..]| && !IsNullOrWhiteSpace(names[1..][i])
                 && desk.windowByClass(names[1..][i].value) != 0;
        assert names[i + 1] == names[1..][i];
      }
      if NoClassMatch(names[1..], desk) && (IsNullOrWhiteSpace(names[0]) || desk.windowByClass(names[0].value) == 0) {
        forall i | 0 <= i < |names| && !IsNullOrWhiteSpace(names[i])
          ensures desk.windowByClass(names[i].value) == 0
        {
          if i > 0 {
            assert names[i] == names[1..][i - 1];
          }
        }
      }
    }
  }

  /** When `names[i]` is the first match, the search returns its handle, having asked for the non-blank names up to it. */
  lemma {:induction false} ClassSearchHit(names: seq<NullableString>, desk: Desktop, i: int)
    requires FirstMatchAt(names, desk, i)
    ensures ClassSearch(names, desk) == Resolution(desk.windowByClass(names[i].value), ClassLookups(names[..i + 1]))
    decreases |names|
  {
    if i == 0 {
      assert names[..1][1..] == [];
    } else {
      assert names[0] == names[..i][0];
      assert FirstMatchAt(names[1..], desk, i - 1) by {
        var before := names[1..][..i - 1];
        forall j | 0 <= j < i - 1 && !IsNullOrWhiteSpace(before[j])
          ensures desk.windowByClass(before[j].value) == 0
        {
          assert before[j] == names[..i][j + 1];
        }
      }
      ClassSearchHit(names[1..], desk, i - 1);
      assert names[..i + 1][1..] == names[1..][..i];
    }
  }

  /** Without a target in the options, resolution is exactly that of the default VB6 target. */
  lemma NullTargetIsDefault(options: DialogOptions, desk: Desktop)
    requires options.clientTarget.None?
    ensures ResolveClientWindow(options, desk) == ResolveTarget(CreateDefaultVb6Target(), desk)
    ensures NewDialogOptions().clientTarget.None?
  {
  }

  /** A non-zero explicit handle is returned as it is, and nothing is looked up. */
  lemma ExplicitHandleWins(target: DialogClientTarget, desk: Desktop)
    requires target.windowHandle != 0
    ensures ResolveTarget(target, desk) == Resolution(target.windowHandle, [])
  {
  }

  /** With a zero handle, the first non-blank class name with a window wins, and the process is never asked. */
  lemma ClassNameWins(target: DialogClientTarget, desk: Desktop, i: int)
    requires target.windowHandle == 0 && target.windowClassNames.Some?
    requires FirstMatchAt(target.windowClassNames.value, desk, i)
    ensures var names := target.windowClassNames.value;
      ResolveTarget(target, desk) == Resolution(desk.windowByClass(names[i].value), ClassLookups(names[..i + 1]))
  {
    ClassSearchHit(target.windowClassNames.value, desk, i);
  }

  /**
   * With a zero handle and no class match, the process name decides: a null or
   * empty one gives zero without a process lookup; otherwise its main window, after
   * one lookup made last.
   */
  lemma ProcessFallback(target: DialogClientTarget, desk: Desktop)
    requires target.windowHandle == 0
    requires target.windowClassNames.None? || NoClassMatch(target.windowClassNames.value, desk)
    ensures var names := if target.windowClassNames.Some? then target.windowClassNames.value else [];
      var r := ResolveTarget(target, desk);
      && (IsNullOrEmpty(target.processName) ==> r == Resolution(0, ClassLookups(names)))
      && (!IsNullOrEmpty(target.processName) ==>
            r == Resolution(desk.mainWindowByProcess(target.processName.value),
                            ClassLookups(names) + [FindMainWindowByProcessName(target.processName.value)]))
  {
    if target.windowClassNames.Some? {
      ClassSearchMiss(target.windowClassNames.value, desk);
    }
  }

  /** The default VB6 target: the three VB6 form classes, in order, and no process fallback. */
  lemma DefaultTargetResolution(desk: Desktop)
    ensures var h1 := desk.windowByClass("ThunderRT6FormDC");
      var h2 := desk.windowByClass("ThunderRT6Main");
      var h3 := desk.windowByClass("ThunderRT6MDIForm");
      var r := ResolveTarget(CreateDefaultVb6Target(), desk);
      && r.handle == (if h1 != 0 then h1 else if h2 != 0 then h2 else h3)
      && (forall k :: 0 <= k < |r.calls| ==> r.calls[k].FindWindowByClass?)
      && |r.calls| == (if h1 != 0 then 1 else if h2 != 0 then 2 else 3)
  {
    var names := AsNullable(DefaultVb6WindowClasses);
    assert names == [Some("ThunderRT6FormDC"), Some("ThunderRT6Main"), Some("ThunderRT6MDIForm")];
    var n2 := names[1..];
    var n3 := n2[1..];
    assert n3[1..] == [];
    NonBlankSearchStep(n3, desk);
    NonBlankSearchStep(n2, desk);
    NonBlankSearchStep(names, desk);
  }

  /** One step of the class search on a name that starts with a letter. */
  lemma NonBlankSearchStep(names: seq<NullableString>, desk: Desktop)
    requires names != [] && names[0].Some? && |names[0].value| > 0 && 'A' <= names[0].value[0] <= 'Z'
    ensures var hwnd := desk.windowByClass(names[0].value);
      var rest := ClassSearch(names[1..], desk);
      ClassSearch(names, desk) ==
        if hwnd != 0 then Resolution(hwnd, [FindWindowByClass(names[0].value)])
        else Resolution(rest.handle, [FindWindowByClass(names[0].value)] + rest.calls)
  {
    assert !IsWhiteSpace(names[0].value[0]);
  }

  /** A freshly constructed target, with nothing set, resolves to zero without any lookup. */
  lemma FreshTargetResolvesToZero(desk: Desktop)
    ensures ResolveTarget(NewClientTarget(), desk) == Resolution(0, [])
  {
  }

  // ---------------------------------------------------------------------------
  // The suppression bracket
  // ---------------------------------------------------------------------------

  /** The client window is disabled for the dialog's lifetime. */
  predicate Suppresses(options: DialogOptions, hwnd: int) {
    options.modalMode == BlockClientWindow && hwnd != 0
  }

  /** The call made before the controller is created. */
  function DisableCalls(options: DialogOptions, hwnd: int): seq<Win32Call> {
    if Suppresses(options, hwnd) then [EnableWindow(hwnd, false)] else []
  }

  /** The calls made by the `finally` block. */
  function RestoreCalls(options: DialogOptions, hwnd: int): seq<Win32Call> {
    if Suppresses(options, hwnd) then [EnableWindow(hwnd, true), SetForegroundWindow(hwnd)] else []
  }

  /** Every window disabled in `log` is enabled again later in `log`. */
  predicate Paired(log: seq<Win32Call>) {
    forall i :: 0 <= i < |log| && log[i].EnableWindow? && !log[i].enable ==>
      exists j :: i < j < |log| && log[j] == EnableWindow(log[i].hwnd, true)
  }

  /**
   * The bracket around one dialog: a disable happens exactly when the mode blocks
   * the client window and one was found; it is then undone on the same handle, and
   * the window is brought to the front after being enabled.
   */
  lemma SuppressionBracket(options: DialogOptions, hwnd: int)
    ensures var log := DisableCalls(options, hwnd) + RestoreCalls(options, hwnd);
      && Paired(log)
      && (EnableWindow(hwnd, false) in log <==> options.modalMode == BlockClientWindow && hwnd != 0)
      && (Suppresses(options, hwnd) ==>
            log == [EnableWindow(hwnd, false), EnableWindow(hwnd, true), SetForegroundWindow(hwnd)])
      && (!Suppresses(options, hwnd) ==> log == [])
  {
    var log := DisableCalls(options, hwnd) + RestoreCalls(options, hwnd);
    if Suppresses(options, hwnd) {
      assert log[1] == EnableWindow(log[0].hwnd, true);
    }
  }

  /**
   * The Win32 log of one `ShowDialog` call that returns: the lookups, then the
   * bracket. Every window it disables it enables again later, and the lookups
   * neither disable nor enable anything.
   */
  lemma ShowDialogLogPaired(options: DialogOptions, desk: Desktop)
    ensures var r := ResolveClientWindow(options, desk);
      var log := r.calls + DisableCalls(options, r.handle) + RestoreCalls(options, r.handle);
      && Paired(log)
      && (forall k :: 0 <= k < |r.calls| ==> !log[k].EnableWindow?)
  {
    var r := ResolveClientWindow(options, desk);
    var n := |r.calls|;
    var log := r.calls + (DisableCalls(options, r.handle) + RestoreCalls(options, r.handle));
    assert r.calls + DisableCalls(options, r.handle) + RestoreCalls(options, r.handle) == log;
    forall i | 0 <= i < |log| && log[i].EnableWindow? && !log[i].enable
      ensures exists j :: i < j < |log| && log[j] == EnableWindow(log[i].hwnd, true)
    {
      if i < n {
        assert false;
      }
      assert Suppresses(options, r.handle) && i == n;
      assert log[n + 1] == EnableWindow(log[i].hwnd, true);
    }
  }

  /** Default options block the client window, so any window found is suppressed. */
  lemma DefaultOptionsSuppress(hwnd: int)
    ensures Suppresses(NewDialogOptions(), hwnd) <==> hwnd != 0
  {
  }

  // ---------------------------------------------------------------------------
  // The service
  // ---------------------------------------------------------------------------

  /** How a `ShowDialog` call ends: with a result, by throwing, or never (the caller stays blocked). */
  datatype ShowOutcome = Returned(info: DialogResultInfo) | ThrewArgumentNull | StillBlocked

  /**
   * The static class. One instance stands for its static state: the controller
   * slot, and (ghost) the log of Win32 calls made so far.
   */
  class SystemWideModalDialogService {
    var currentController: DialogController?
    ghost var calls: seq<Win32Call>

    constructor ()
      ensures currentController == null && calls == []
    {
      currentController := null;
      calls := [];
    }

    /**
     * `ShowDialog`. The threads of the dialog run the events of `schedule` in order
     * until the caller returns from `ShowModal`; `threadStartFails` says whether
     * starting the UI thread throws. If the caller has not returned when the
     * schedule ends, the call is still blocked (`StillBlocked`): the client window
     * is still disabled and the controller is still in the slot.
     */
    method ShowDialog(options: Option<DialogOptions>, desk: Desktop, threadStartFails: bool, schedule: seq<Event>)
      returns (outcome: ShowOutcome, ghost hwnd: int, ghost consumed: nat)
      modifies this
      ensures options.None? ==>
        outcome == ThrewArgumentNull && calls == old(calls) && currentController == old(currentController)
      ensures options.Some? ==>
        var o := options.value;
        var start := Launch(threadStartFails);
        var r := ResolveClientWindow(o, desk);
        && hwnd == r.handle
        && consumed <= |schedule|
        && (outcome.Returned? || outcome.StillBlocked?)
        && (outcome.Returned? ==>
              && Run(o, start, schedule[..consumed]).caller == CallerPhase.Returned
              && outcome.info == Orchestration.Info(Run(o, start, schedule[..consumed]))
              && (consumed > 0 ==> BlockedThrough(o, start, schedule, consumed - 1))
              && calls == old(calls) + r.calls + DisableCalls(o, hwnd) + RestoreCalls(o, hwnd)
              && currentController == null)
        && (outcome.StillBlocked? ==>
              && consumed == |schedule|
              && BlockedThrough(o, start, schedule, |schedule|)
              && calls == old(calls) + r.calls + DisableCalls(o, hwnd)
              && currentController != null && currentController.options == o
              && currentController.clientHwnd == hwnd
              && currentController.State() == Run(o, start, schedule))
    {
      if options.None? {
        return ShowOutcome.ThrewArgumentNull, 0, 0;
      }
      var o := options.value;
      var resolution := ResolveClientWindow(o, desk);
      calls := calls + resolution.calls;
      var clientHwnd := resolution.handle;
      hwnd := clientHwnd;

      if o.modalMode == BlockClientWindow && clientHwnd != 0 {
        calls := calls + [EnableWindow(clientHwnd, false)];
      }

      // try
      var c := new DialogController(o, clientHwnd);
      currentController := c;
      var done;
      done, consumed := c.ShowModal(threadStartFails, schedule);
      if done.None? {
        assert schedule[..consumed] == schedule;
        return ShowOutcome.StillBlocked, hwnd, consumed;
      }
      outcome := ShowOutcome.Returned(done.value);

      // finally
      if o.modalMode == BlockClientWindow && clientHwnd != 0 {
        calls := calls + [EnableWindow(clientHwnd, true)];
        calls := calls + [SetForegroundWindow(clientHwnd)];
      }
      currentController := null;
    }

    /** `UpdateMainMessage`: forwarded to the active controller, if any. */
    method UpdateMainMessage(text: NullableString)
      modifies currentController
      ensures currentController == old(currentController)
      ensures currentController != null ==>
        currentController.State() == Orchestration.UpdateMainMessage(old(currentController.State()), text)
    {
      if currentController != null {
        currentController.UpdateMainMessage(text);
      }
    }

    /** `UpdateSubMessage`: forwarded to the active controller, if any. */
    method UpdateSubMessage(text: NullableString)
      modifies currentController
      ensures currentController == old(currentController)
      ensures currentController != null ==>
        currentController.State() == Orchestration.UpdateSubMessage(old(currentController.State()), text)
    {
      if currentController != null {
        currentController.UpdateSubMessage(text);
      }
    }

    /** `Close`: forwarded to the active controller, if any. */
    method Close()
      modifies currentController
      ensures currentController == old(currentController)
      ensures currentController != null ==>
        currentController.State() == Orchestration.CloseFromExternal(old(currentController.State()))
    {
      if currentController != null {
        currentController.CloseFromExternal();
      }
    }
  }
}
