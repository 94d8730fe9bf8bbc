# DialogDemo: a verified model of the system-wide modal dialog

DialogDemo shows a modal notification dialog on its own WPF UI thread, on top of a
foreign client window (by default a VB6 form). While the dialog is up:

- the caller's thread blocks in `ShowDialog`;
- the client window is disabled;
- message updates and close requests from other threads go to the dialog's UI
  thread through its dispatcher;
- an optional countdown closes the dialog with a `Timeout` result.

This project models the core of that behaviour in Dafny and proves what the source
promises about it. Five modules, one file each:

| file | module | models |
|---|---|---|
| `themes.dfy` | `Themes` | `Themes.cs`: the enumerations, `DialogClientTarget`, `DialogOptions`, `DialogResultInfo`, and the .NET string tests the code relies on |
| `surface.dfy` | `Surface` | `DialogWindow.xaml.cs`: the button panel, the icon glyph, the message and progress widgets, and the two events the window raises (class `DialogWindow`) |
| `orchestration.dfy` | `Orchestration` | `DialogController.cs` as pure step functions on a state value `Ctl`, plus the lemmas about them |
| `controller.dfy` | `Controller` | `DialogController.cs` as a class over mutable fields; every method is proved to follow a step function of `Orchestration` (its Model row names it) |
| `service.dfy` | `Service` | `SystemWideModalDialogService.cs`: client-window resolution, the suppression bracket, and the static controller slot (class `SystemWideModalDialogService`) |

## How the model works

**Threads become events.** The controller has four kinds of thread:

- the caller blocked in `ShowModal`;
- the UI thread running `Dispatcher.Run`;
- the one-second countdown timer;
- any thread calling `UpdateMainMessage`, `UpdateSubMessage` or `CloseFromExternal`.

Each thing one of them can do next is an `Event`, and any interleaving is a
sequence of events. `Orchestration.Run` folds `Orchestration.Step` over such a
sequence.

**The dispatcher is a queue.** Every `BeginInvoke` appends a `UiAction` to
`queue`. The `Dispatch` event performs the oldest action.
`Dispatcher.ExitAllFrames` ends the UI loop, so actions still queued after a
close action never run.

**The two `AutoResetEvent`s are counters.** `createdSignals` and `closedSignals`
record how often each was set. `CallerWakes` passes the wait the caller is
blocked in when that wait's counter is non-zero.

**The window is a class.** Raising an event is synchronous in WPF. A window method
that raises one therefore returns it as a `WindowEvent`, and the controller's
`Handle` runs the subscribed handler at once.

**Win32 is an oracle.** `Service.Desktop` gives the handle `FindWindowByClass`
returns for a class name, and the main-window handle for a process name. A ghost
log records every Win32 call the service makes, in order.

`ShowDialog` takes the event schedule as a parameter and runs it through the
controller until the caller returns. If the caller has not returned when the
schedule ends, the outcome is `StillBlocked`: the call has not returned yet, the
client window is still disabled, and the controller is still in the slot.

## Model

| member | source | states |
|---|---|---|
| Themes.OrEmpty | DialogDemo/DialogWindow.xaml.cs:21-25 | `text ?? string.Empty`: a non-null string is kept, null becomes the empty string |
| Themes.BlankIsNullOrEmptyOrWhiteSpace | DialogDemo/SystemWideModalDialogService.cs:35 | every null-or-empty string is also null-or-white-space, but not conversely (`" "`), so blank class names and empty process names are screened by different rules |
| Themes.ButtonResultOfValue | DialogDemo/Themes.cs:7-22 | a member found for an integer has that integer as its value |
| Themes.ButtonResultValues | DialogDemo/Themes.cs:7-22 | `DialogButtonResult` has exactly the values 0, 1, 2, 3, 4, 100 and 101, and the value of each member maps back to it |
| Themes.ButtonResultValuesDistinct | DialogDemo/Themes.cs:7-22 | no two members of `DialogButtonResult` share a value |
| Themes.IconValue | DialogDemo/Themes.cs:24-35 | icon values lie in 0..4, and only `None` has value 0 |
| Themes.ModalModeValue | DialogDemo/Themes.cs:37-42 | only `None` has value 0, and `BlockClientWindow` has value 1 |
| Themes.NewClientTarget | DialogDemo/Themes.cs:59-64 | a new target has a zero handle, a non-null empty class-name array and a null process name |
| Themes.NewDialogOptions | DialogDemo/Themes.cs:232-258 | new options show the Info icon (value 1) and block the client window (value 1); they carry no target, no texts, no buttons and no auto-close |
| Themes.NewResultInfo | DialogDemo/Themes.cs:260-268 | a new result record holds no button (value 0) and is not marked external |
| Themes.CreateDefaultVb6Target | DialogDemo/Themes.cs:48-78 | the default target has a zero handle and no process name; its class names are `ThunderRT6FormDC`, `ThunderRT6Main` and `ThunderRT6MDIForm` in that order, none of them blank |
| Surface.CreateButton | DialogDemo/DialogWindow.xaml.cs:38-53 | no button exactly when the configuration is null or its text is null or white space; otherwise the button shows that text and carries the given result |
| Surface.PresentMembers | DialogDemo/DialogWindow.xaml.cs:55-59 | a button ends up in the panel exactly when one of the candidates produced it |
| Surface.PanelButtonsAssembled | DialogDemo/DialogWindow.xaml.cs:32-35 | the panel is what the four `AddButtonIfVisible` calls for buttons 4, 3, 2 and 1 assemble, in that order |
| Surface.PanelHasButtonIff | DialogDemo/DialogWindow.xaml.cs:27-35 | the panel holds a button raising `Option k` exactly when `Button k` is configured with a non-blank text |
| Surface.PanelButtonCarriesConfig | DialogDemo/DialogWindow.xaml.cs:27-53 | every panel button raises one of `Option1`..`Option4` and shows the text of that option's own configuration |
| Surface.PanelButtonsDescending | DialogDemo/DialogWindow.xaml.cs:32-35 | the panel lists its buttons in strictly descending result order (`Option4` first) |
| Surface.IconGlyph | DialogDemo/DialogWindow.xaml.cs:92-102 | the glyph is empty exactly for `DialogIcon.None`, and a single character otherwise |
| Surface.IconGlyphInjective | DialogDemo/DialogWindow.xaml.cs:92-102 | distinct icons are shown with distinct glyphs |
| Surface.DefaultOptionsView | DialogDemo/DialogWindow.xaml.cs:118-127 | a window built from default options shows the info glyph, empty texts and no buttons |
| Surface.DialogWindow.constructor | DialogDemo/DialogWindow.xaml.cs:118-127 | the constructor runs `BuildUi` then `ApplyIcon`: the view is the title, messages, panel and glyph of the options, not closed, progress not shown |
| Surface.DialogWindow.BuildUi | DialogDemo/DialogWindow.xaml.cs:19-36 | title and both messages set, null shown as empty; the panel is `PanelButtons(opt)`; nothing else changes |
| Surface.DialogWindow.BuildButtons | DialogDemo/DialogWindow.xaml.cs:27-35 | `_btn1`..`_btn4` hold the buttons created from the four configurations, and the panel built from an empty one is `PanelButtons(opt)` |
| Surface.DialogWindow.AddButtonIfVisible | DialogDemo/DialogWindow.xaml.cs:55-59 | a non-null button is appended to the panel; a null one changes nothing |
| Surface.DialogWindow.ApplyIcon | DialogDemo/DialogWindow.xaml.cs:92-102 | the icon text becomes the glyph of the icon |
| Surface.DialogWindow.SetProgress | DialogDemo/DialogWindow.xaml.cs:141-147 | the progress bar becomes visible and shows the value; nothing else changes |
| Surface.DialogWindow.UpdateMainMessage | DialogDemo/DialogWindow.xaml.cs:149 | only the main text changes, to the text with null shown as empty |
| Surface.DialogWindow.UpdateSubMessage | DialogDemo/DialogWindow.xaml.cs:151 | only the sub text changes, to the text with null shown as empty |
| Surface.DialogWindow.SimulateButtonClick | DialogDemo/DialogWindow.xaml.cs:153-156 | raises `ButtonClicked` with the given result and changes nothing |
| Surface.DialogWindow.ClickButton | DialogDemo/DialogWindow.xaml.cs:51 | clicking a panel button raises that button's own result |
| Surface.DialogWindow.Close | DialogDemo/DialogWindow.xaml.cs:108-112 | the window becomes closed; the first close raises `DialogClosed`, a repeated close raises nothing |
| Orchestration.Initial | DialogDemo/DialogController.cs:12-30 | a new controller has no window, dispatcher, timer, posted action or signal yet, and a fresh result record |
| Orchestration.ProgressPercent | DialogDemo/DialogController.cs:112-113 | the progress shown is never negative, and it is 0 once no time is left |
| Orchestration.StartCountdownIfNeeded | DialogDemo/DialogController.cs:92-103 | above 3 seconds a timer starts with the full duration; at 3 or less nothing changes; only the countdown changes |
| Orchestration.StopCountdown | DialogDemo/DialogController.cs:139-147 | afterwards no timer exists; nothing else changes, and with no timer nothing happens |
| Orchestration.CountdownTick | DialogDemo/DialogController.cs:105-137 | before the dispatcher exists nothing changes; otherwise one second is taken off and the progress for the new value is posted; the timeout close is posted after it, as the only other action, and the timer stops, exactly when no seconds are left; only the countdown and the queue change |
| Orchestration.CloseWindowInternal | DialogDemo/DialogController.cs:71-90 | without a dispatcher the closed signal is set at once, otherwise one close is posted; exactly one of the two happens and nothing else changes |
| Orchestration.OnButtonClicked | DialogDemo/DialogController.cs:60-64 | the button's result is recorded at once, the external flag is kept, and the window stays open while a close is requested |
| Orchestration.OnDialogClosed | DialogDemo/DialogController.cs:66-69 | the result record is untouched and a close is requested |
| Orchestration.Raise | DialogDemo/DialogController.cs:41-42 | an event raised by the window never touches the window, the UI thread, the caller or the created signal, and never takes back a closed signal |
| Orchestration.CloseFromExternal | DialogDemo/DialogController.cs:209-213 | the record is marked external with its result kept, and a close is requested |
| Orchestration.UpdateMainMessage | DialogDemo/DialogController.cs:193-199 | the update is posted exactly when the dispatcher exists, and dropped otherwise; nothing else changes |
| Orchestration.UpdateSubMessage | DialogDemo/DialogController.cs:201-207 | the update is posted exactly when the dispatcher exists, and dropped otherwise; nothing else changes |
| Orchestration.Failed | DialogDemo/DialogController.cs:52-57 | the catch block records `DialogFailed` as external and sets the closed signal but never the created one; the window, the queue and the caller are untouched |
| Orchestration.UiThreadStart | DialogDemo/DialogController.cs:36-58 | a failed construction ends the thread with `DialogFailed` and only the closed signal; otherwise the window built from the options is open, the dispatcher exists and created is signalled, with the record untouched |
| Orchestration.Perform | DialogDemo/DialogController.cs:79-135 | only a posted close ends the loop, dropping the window and signalling closed; a timeout on a live window records an external `Timeout`; a progress or message update on a live window changes only that value in the window, and with no window nothing changes; no action moves the caller or signals created |
| Orchestration.DispatchNext | DialogDemo/DialogController.cs:88 | once the loop has ended nothing more is dispatched; dispatching never moves the caller or signals created |
| Orchestration.ShowModalStart | DialogDemo/DialogController.cs:163-191 | a failure to start the UI thread returns at once with `DialogFailed` as external; otherwise the thread is launched and the caller waits for created |
| Orchestration.ResumeCaller | DialogDemo/DialogController.cs:175-183 | the caller returns exactly when it is in the closed wait and closed was signalled, and then the timer is stopped; only the caller's phase and the countdown change |
| Orchestration.Step | DialogDemo/DialogController.cs:36-213 | the counts of signals set only grow, an ended UI thread stays ended, and a returned caller stays returned |
| Orchestration.ProgressClamp | DialogDemo/DialogController.cs:112-113 | the percentage is never negative; it is 0 once no time is left, at most 100 within the duration, and below 100 once a second has passed; otherwise it is exactly `secondsLeft * 100 / total` |
| Orchestration.InitialInv | DialogDemo/DialogController.cs:12-30 | a new controller, and one whose `ShowModal` has started, satisfy the invariant; the initial result is a fresh `DialogResultInfo` |
| Orchestration.PerformPreservesInv | DialogDemo/DialogController.cs:79-135 | performing a posted action on the UI thread keeps the invariant |
| Orchestration.StepPreservesInv | DialogDemo/DialogController.cs:36-213 | every event keeps the invariant: a timer exists only between the caller starting it and the caller returning, and never for durations of 3 or less; every progress value is a percentage; the window and the dispatcher exist only after the created signal |
| Orchestration.ThreadStepPreservesInv | DialogDemo/DialogController.cs:36-58 | the UI thread starting or failing, and the caller passing a wait, keep the invariant |
| Orchestration.RequestStepPreservesInv | DialogDemo/DialogController.cs:60-90 | clicks, window closes, message updates and external closes keep the invariant |
| Orchestration.RunPreservesInv | DialogDemo/DialogController.cs:36-213 | every interleaving keeps the invariant |
| Orchestration.StepReturnsOnlyOnWake | DialogDemo/DialogController.cs:179-183 | the caller returns from `ShowModal` only by passing the closed wait after the closed signal was set |
| Orchestration.CountdownStart | DialogDemo/DialogController.cs:92-103 | after the created signal the caller starts the countdown from the full duration when that is above 3 seconds, and changes nothing else otherwise |
| Orchestration.TickWithoutDispatcher | DialogDemo/DialogController.cs:107-108 | a tick before the dispatcher exists changes nothing |
| Orchestration.OneTick | DialogDemo/DialogController.cs:105-137 | one tick takes a second off, posts that progress value, and at zero stops the timer and posts the timeout close |
| Orchestration.TicksToTimeout | DialogDemo/DialogController.cs:105-137 | `k` ticks from `n` seconds left take `k` seconds off and post `k` progress values in order; the timer stops, and the timeout close is posted, exactly at the `n`-th tick |
| Orchestration.ProgressTrailBounds | DialogDemo/DialogController.cs:110-118 | every progress value a full countdown posts is at least 0 and below 100, and the last one is exactly 0 |
| Orchestration.ShortDurationNeverShowsProgress | DialogDemo/DialogController.cs:94-95 | with a duration of 3 seconds or less, no timer ever runs and no progress is ever posted or shown, whatever the interleaving |
| Orchestration.ReturnedWithTimerStopped | DialogDemo/DialogController.cs:179-183 | whenever `ShowModal` has returned, the countdown timer is stopped, whatever the interleaving |
| Orchestration.CloseWithoutDispatcher | DialogDemo/DialogController.cs:73-77 | a close request before the dispatcher exists only sets the closed signal |
| Orchestration.CloseActionOnOpenWindow | DialogDemo/DialogController.cs:79-89 | the posted close on an open window closes it; that raises `DialogClosed`, which posts a second close that never runs because the loop has ended; the window is dropped and closed is signalled |
| Orchestration.CloseActionWithoutWindow | DialogDemo/DialogController.cs:79-89 | a posted close that finds no window only signals closed and ends the loop |
| Orchestration.CloseActionOnClosedWindow | DialogDemo/DialogController.cs:79-89 | a posted close that finds a window the user already closed drops it without raising anything |
| Orchestration.CloseKeepsResult | DialogDemo/DialogController.cs:71-90 | closing never changes the recorded result |
| Orchestration.ExternalCloseKeepsResult | DialogDemo/DialogController.cs:209-213 | an external close sets the external flag, keeps the result and requests a close |
| Orchestration.ButtonClickRecordsResult | DialogDemo/DialogController.cs:60-64 | a click records that button's result and posts a close |
| Orchestration.ExternalCloseAfterClick | DialogDemo/DialogController.cs:209-213 | an external close after a click keeps the button's result and still sets the external flag |
| Orchestration.LaterClickOverwrites | DialogDemo/DialogController.cs:60-64 | a second click before the posted close runs replaces the first click's result and posts a second close |
| Orchestration.TimeoutAction | DialogDemo/DialogController.cs:126-135 | the posted timeout sets `Timeout` and the external flag, then runs the button path, when the window still exists; it does nothing once the window is gone |
| Orchestration.UpdatesDropped | DialogDemo/DialogController.cs:193-207 | updates are not posted before the dispatcher exists, and are dropped when the window is gone by the time they run |
| Orchestration.UpdatesShown | DialogDemo/DialogController.cs:193-207 | a dispatched update reaches a live window, with null shown as empty |
| Orchestration.ConstructionFailure | DialogDemo/DialogController.cs:52-57 | when the window cannot be built: result `DialogFailed`, external flag set, closed signalled once, created never signalled |
| Orchestration.FailedStaysBlocked | DialogDemo/DialogController.cs:163-179 | after a failed construction no event ever signals created or lets the caller pass the created wait |
| Orchestration.FailedConstructionNeverReturns | DialogDemo/DialogController.cs:163-179 | as written, `ShowModal` never returns once the window failed to build: the caller stays in the created wait whatever happens next |
| Orchestration.CloseBeforeDispatcherReturnsEarly | DialogDemo/DialogController.cs:73-77 | an external close before the dispatcher exists signals closed at once, so the caller passes both waits and returns while the window is open and the loop runs; a later click still writes the result record |
| Orchestration.DispatchProgress | DialogDemo/DialogController.cs:115-118 | dispatching posted progress updates shows each in turn on a live window; the last one stays visible |
| Orchestration.TimeoutScenario | DialogDemo/DialogController.cs:36-191 | with a duration above 3 seconds and no user action, the interleaving (window shown, countdown started, `n` ticks, `n + 2` dispatches, caller wakes) ends with the caller returned with `Timeout` and the external flag set, the window gone and the timer stopped |
| Controller.DialogController.constructor | DialogDemo/DialogController.cs:153-157 | a new controller keeps its options and handle and is in the initial state |
| Controller.DialogController.Create | DialogDemo/DialogController.cs:153-157 | null options throw `ArgumentNullException("options")`; otherwise a fresh controller in the initial state |
| Controller.DialogController.CloseWindowInternal | DialogDemo/DialogController.cs:71-90 | the new state is `CloseWindowInternal` of the old one |
| Controller.DialogController.OnButtonClicked | DialogDemo/DialogController.cs:60-64 | the new state is `OnButtonClicked` of the old one |
| Controller.DialogController.OnDialogClosed | DialogDemo/DialogController.cs:66-69 | the new state is `OnDialogClosed` of the old one |
| Controller.DialogController.Handle | DialogDemo/DialogController.cs:41-42 | the handler subscribed to whatever event the window raised runs |
| Controller.DialogController.StartCountdownIfNeeded | DialogDemo/DialogController.cs:92-103 | the new state is `StartCountdownIfNeeded` of the old one |
| Controller.DialogController.CountdownTick | DialogDemo/DialogController.cs:105-137 | the new state is `CountdownTick` of the old one |
| Controller.DialogController.StopCountdown | DialogDemo/DialogController.cs:139-147 | the timer is stopped and nothing else changes |
| Controller.DialogController.UiThreadCatch | DialogDemo/DialogController.cs:52-57 | the new state is `Failed` of the old one |
| Controller.DialogController.UiThreadStart | DialogDemo/DialogController.cs:36-58 | the new state is `UiThreadStart` of the old one; a fresh window is built unless construction fails |
| Controller.DialogController.Perform | DialogDemo/DialogController.cs:79-135 | performing a posted action changes the state as `Perform` does |
| Controller.DialogController.TimeoutAction | DialogDemo/DialogController.cs:126-135 | the posted timeout changes the state as `Perform(TimeoutClose)` does |
| Controller.DialogController.CloseAction | DialogDemo/DialogController.cs:79-89 | the posted close changes the state as `Perform(CloseWindow)` does, and `_window` is null afterwards |
| Controller.DialogController.DispatchNext | DialogDemo/DialogController.cs:50 | the dispatcher loop performs the oldest posted action while it runs |
| Controller.DialogController.UserClicks | DialogDemo/DialogController.cs:60-64 | a user click on the open window changes the state as `Step(UserClicks)` does |
| Controller.DialogController.UserClosesWindow | DialogDemo/DialogController.cs:66-69 | a user closing the open window changes the state as `Step(UserClosesWindow)` does |
| Controller.DialogController.ShowModalStart | DialogDemo/DialogController.cs:163-191 | starts the UI thread, or returns `DialogFailed` with the external flag at once when starting it throws |
| Controller.DialogController.CallerWakes | DialogDemo/DialogController.cs:175-183 | passes the wait the caller is in; the result is returned exactly when the closed signal was set while waiting for it, with the timer stopped |
| Controller.DialogController.UpdateMainMessage | DialogDemo/DialogController.cs:193-199 | the new state is `UpdateMainMessage` of the old one |
| Controller.DialogController.UpdateSubMessage | DialogDemo/DialogController.cs:201-207 | the new state is `UpdateSubMessage` of the old one |
| Controller.DialogController.CloseFromExternal | DialogDemo/DialogController.cs:209-213 | the new state is `CloseFromExternal` of the old one |
| Controller.DialogController.Step | DialogDemo/DialogController.cs:36-213 | any event changes the state as `Step` does; a result comes back exactly when the caller passes the closed wait |
| Controller.DialogController.ShowModal | DialogDemo/DialogController.cs:163-191 | the state is the run of the consumed events from `Launch`; a result comes back exactly when the caller returned, it is the recorded result, and the timer is stopped; the caller was blocked after every earlier prefix |
| Controller.DialogController.AwaitResult | DialogDemo/DialogController.cs:175-183 | events are taken from the schedule until the caller returns or the schedule ends; the state is their run, and the caller was blocked after every earlier prefix |
| Service.ClassSearch | DialogDemo/SystemWideModalDialogService.cs:31-42 | the class search makes only class lookups, at most one per name; a handle it finds is the answer of its last lookup |
| Service.TargetOf | DialogDemo/SystemWideModalDialogService.cs:18-24 | options carrying a target use it; otherwise the VB6 default is used, with no handle, no process name and three class names |
| Service.ResolveClientWindow | DialogDemo/SystemWideModalDialogService.cs:16-50 | only lookups are made; a non-zero explicit handle is taken without any; with no target in the options at most three class lookups are made |
| Service.ResolveTarget | DialogDemo/SystemWideModalDialogService.cs:26-49 | a non-zero explicit handle is returned without any lookup; otherwise only class lookups are made, then at most one process lookup, for the target's own process name and made last; a handle found by a class lookup is that lookup's answer |
| Service.ClassSearchMiss | DialogDemo/SystemWideModalDialogService.cs:31-42 | the class search finds nothing exactly when no non-blank class name has a window, and it then looks up every non-blank name in order |
| Service.ClassSearchHit | DialogDemo/SystemWideModalDialogService.cs:31-42 | the search returns the first non-blank class name's window, having looked up only the non-blank names up to it |
| Service.NullTargetIsDefault | DialogDemo/SystemWideModalDialogService.cs:18-24 | options without a target resolve exactly as the default VB6 target; new options carry no target |
| Service.ExplicitHandleWins | DialogDemo/SystemWideModalDialogService.cs:26-28 | a non-zero explicit handle is returned as it is, without any lookup |
| Service.ClassNameWins | DialogDemo/SystemWideModalDialogService.cs:30-42 | with a zero handle, the first non-blank class name with a window wins, and the process is never looked up |
| Service.ProcessFallback | DialogDemo/SystemWideModalDialogService.cs:44-49 | with no handle and no class match, a null or empty process name gives zero without a process lookup; otherwise the process's main window, after one lookup made last |
| Service.DefaultTargetResolution | DialogDemo/SystemWideModalDialogService.cs:20-42 | the default target tries the three VB6 classes in order and stops at the first with a window; it makes one to three class lookups and no process lookup |
| Service.FreshTargetResolvesToZero | DialogDemo/SystemWideModalDialogService.cs:26-49 | a new target with nothing set resolves to zero without any lookup |
| Service.SuppressionBracket | DialogDemo/SystemWideModalDialogService.cs:63-82 | the client window is disabled exactly when the mode blocks it and a window was found; it is then enabled again on the same handle and brought to the front; otherwise no Win32 call is made |
| Service.ShowDialogLogPaired | DialogDemo/SystemWideModalDialogService.cs:56-86 | in the Win32 log of a returning `ShowDialog`, every window disabled is enabled again later, and the lookups neither disable nor enable anything |
| Service.DefaultOptionsSuppress | DialogDemo/SystemWideModalDialogService.cs:63-67 | default options suppress exactly when a client window is found |
| Service.SystemWideModalDialogService.constructor | DialogDemo/SystemWideModalDialogService.cs:10 | the slot starts empty |
| Service.SystemWideModalDialogService.ShowDialog | DialogDemo/SystemWideModalDialogService.cs:56-86 | null options throw before anything happens. Otherwise the client window is resolved and the controller runs the schedule. On return: the result is the controller's, the log is the resolution lookups, then disable, then enable and foreground, and the slot is empty. While still blocked: the window stays disabled and the controller stays in the slot |
| Service.SystemWideModalDialogService.UpdateMainMessage | DialogDemo/SystemWideModalDialogService.cs:88-89 | forwarded to the active controller, if any |
| Service.SystemWideModalDialogService.UpdateSubMessage | DialogDemo/SystemWideModalDialogService.cs:91-92 | forwarded to the active controller, if any |
| Service.SystemWideModalDialogService.Close | DialogDemo/SystemWideModalDialogService.cs:94-95 | forwarded to the active controller's `CloseFromExternal`, if any |

## Where the code may surprise a caller

The model follows the code in each case.

- **A failed window construction.** A caller of `ShowModal` would expect a
  `DialogFailed` result when the window cannot be built, as `ShowModal`'s own catch
  block returns for a failure to start the UI thread (`DialogController.cs:185-190`).
  The UI thread's catch block (`DialogController.cs:52-57`) records `DialogFailed`
  but sets only `_windowClosed`, while the caller is waiting on `_windowCreated`
  (line 175). So `ShowModal` never returns
  (`Orchestration.FailedConstructionNeverReturns`).
- **An external close after a click.** `ClosedByExternalRequest` reads as "the
  dialog was closed by `CloseFromExternal`". When a click has already recorded a
  button and its close is still pending, a `CloseFromExternal` call
  (`DialogController.cs:209-213`) still sets the flag, so the caller sees the
  button's result marked as an external close
  (`Orchestration.ExternalCloseAfterClick`).
- **Result precedence.** A caller would expect the button the user clicked to be
  the result. A click only records its result and posts a close
  (`DialogController.cs:60-64`, 79). A timeout close that the timer thread posted
  before that close runs first and overwrites the click's result with `Timeout`
  (`DialogController.cs:126-135`, `Orchestration.TimeoutAction`). The model leaves
  the order of dispatched actions and user input open, so it also admits a second
  click before the first click's close runs (`Orchestration.LaterClickOverwrites`).
  WPF runs `BeginInvoke` work at Normal priority, ahead of input, which likely rules
  that interleaving out in practice.
- **A close before the dispatcher exists.** A caller would expect `ShowModal` to
  return only once the window has closed, since it waits on `_windowClosed`
  (line 179). An external close that arrives before the UI thread sets
  `_dispatcher` sets `_windowClosed` directly (`DialogController.cs:73-77`). The
  caller then passes both waits and returns while the window is still open and the
  UI loop still runs (`Orchestration.CloseBeforeDispatcherReturnsEarly`). The
  window then stays up with nobody waiting for it, and the client window is enabled
  again under it.

## Left out

- Threads, `AutoResetEvent`, `Dispatcher` and `System.Timers.Timer` are not modelled as such. They become events, counters and a queue. Which interleavings happen is left open: `ShowDialog` takes the schedule as a parameter.
- A timer `Elapsed` event that is already in flight when `StopCountdown` runs is not modelled. Ticks happen only while the timer exists.
- Orchestration.ProgressPercent: computed on `real`, not on IEEE `double`. The division and the clamp are exact in the model.
- The Win32 calls in `Win32Interop.cs` are not part of this model. `FindWindowByClass` and `FindMainWindowByProcessName` are the `Desktop` oracle. `EnableWindow` and `SetForegroundWindow` appear only as entries of the ghost call log.
- Service.SystemWideModalDialogService.ShowDialog: the `finally` block's exception path is not modelled. It is unreachable here: `ShowModal` catches every exception, and the only throwing constructor call gets non-null options.
- Service.SystemWideModalDialogService.ShowDialog: calls from several threads at once, which share the one static slot, are not modelled.
- Themes, fonts, colours and `ApplyTheme` (`DialogThemeType.cs`, `DialogTheme`) are not part of this model. They have no effect on the orchestration.
- `_window.Show()`, `Topmost`, window layout, the XAML markup, and the `AutomationId` of a button configuration are not modelled.
- The model starts the progress bar hidden. The XAML markup that sets its initial visibility is not part of this model.
- `DialogTestWindow.xaml.cs` and `Program.cs` (the demo front end) are not part of this model.
- The thread name, the STA apartment state and the `IsBackground` flag of the UI thread are not modelled.
- `DialogResultInfo` is returned by reference in the code. The model returns its value as it is when `ShowModal` returns. After an external close that came before the dispatcher existed, a later click still writes the record the caller holds (`Orchestration.CloseBeforeDispatcherReturnsEarly`); the returned value does not show that write.
- WPF dispatcher priorities are not modelled: a posted action and a user input may run in either order, so the model admits some interleavings that WPF would not produce.
- Surface.DialogWindow.Close: that closing an already closed window does nothing is taken from how WPF's `Window.Close` behaves; the WPF code itself is not part of this model.
- A handle (`IntPtr`) is an unbounded integer, with `IntPtr.Zero` as 0. `AutoCloseSeconds` is an unbounded integer as well: the countdown only decrements a copy that starts above 3, so 32-bit wrap-around cannot arise.
