/**
 * The data contracts of the dialog (DialogDemo/Themes.cs): the result, icon and
 * modal-mode enumerations, the client-window target descriptor, the button
 * configuration, the dialog options and the result record, each with the defaults
 * the source gives a freshly constructed object. The .NET string tests used
 * throughout (null-or-empty, null-or-white-space, `?? string.Empty`) live here too.
 * Theme brushes and fonts are styling and are not modelled.
 */
module Themes {

  datatype Option<+T> = None | Some(value: T)

  /** A .NET string reference: `None` is `null`. */
  type NullableString = Option<string>

  // ---------------------------------------------------------------------------
  // .NET string helpers
  // ---------------------------------------------------------------------------

  /** `char.IsWhiteSpace`: the Unicode White_Space characters. */
  predicate IsWhiteSpace(c: char) {
    || ('\t' <= c <= '\r')
    || c == ' '
    || c == '\U{0085}'
    || c == '\U{00A0}'
    || c == '\U{1680}'
    || ('\U{2000}' <= c <= '\U{200A}')
    || c == '\U{2028}'
    || c == '\U{2029}'
    || c == '\U{202F}'
    || c == '\U{205F}'
    || c == '\U{3000}'
  }

  /** `string.IsNullOrWhiteSpace`. */
  predicate IsNullOrWhiteSpace(s: NullableString) {
    s.None? || forall i :: 0 <= i < |s.value| ==> IsWhiteSpace(s.value[i])
  }

  /** `string.IsNullOrEmpty`. */
  predicate IsNullOrEmpty(s: NullableString) {
    s.None? || s.value == []
  }

  /** `s ?? string.Empty`. */
  function OrEmpty(s: NullableString): (r: string)
    ensures s.Some? ==> r == s.value
    ensures s.None? ==> r == ""
  {
    match s
    case Some(t) => t
    case None => ""
  }

  lemma BlankIsNullOrEmptyOrWhiteSpace(s: NullableString)
    ensures IsNullOrEmpty(s) ==> IsNullOrWhiteSpace(s)
    ensures IsNullOrWhiteSpace(Some(" ")) && !IsNullOrEmpty(Some(" "))
  {
    assert IsWhiteSpace(" "[0]);
  }

  // ---------------------------------------------------------------------------
  // Enumerations
  // ---------------------------------------------------------------------------

  datatype DialogButtonResult = None | Option1 | Option2 | Option3 | Option4 | Timeout | DialogFailed

  /** The integer value of each `DialogButtonResult` member. */
  function ButtonResultValue(r: DialogButtonResult): int {
    match r
    case None => 0
    case Option1 => 1
    case Option2 => 2
    case Option3 => 3
    case Option4 => 4
    case Timeout => 100
    case DialogFailed => 101
  }

  /** The member with integer value `n`, if `n` names one. */
  function ButtonResultOfValue(n: int): (r: Option<DialogButtonResult>)
    ensures r.Some? ==> ButtonResultValue(r.value) == n
  {
    if n == 0 then Some(DialogButtonResult.None)
    else if n == 1 then Some(Option1)
    else if n == 2 then Some(Option2)
    else if n == 3 then Some(Option3)
    else if n == 4 then Some(Option4)
    else if n == 100 then Some(Timeout)
    else if n == 101 then Some(DialogFailed)
    else Option.None
  }

  /** The enumeration has exactly the values 0..4, 100 and 101, one member each. */
  lemma ButtonResultValues(r: DialogButtonResult, n: int)
    ensures ButtonResultOfValue(ButtonResultValue(r)) == Some(r)
    ensures ButtonResultOfValue(n).Some? <==> n in {0, 1, 2, 3, 4, 100, 101}
  {
  }

  lemma ButtonResultValuesDistinct(a: DialogButtonResult, b: DialogButtonResult)
    ensures ButtonResultValue(a) == ButtonResultValue(b) ==> a == b
  {
    ButtonResultValues(a, 0);
    ButtonResultValues(b, 0);
  }

  datatype DialogIcon = None | Info | Warning | Error | Question

  function IconValue(i: DialogIcon): (n: int)
    ensures 0 <= n <= 4
    ensures n == 0 <==> i == DialogIcon.None
  {
    match i
    case None => 0
    case Info => 1
    case Warning => 2
    case Error => 3
    case Question => 4
  }

  datatype DialogModalMode = None | BlockClientWindow

  function ModalModeValue(m: DialogModalMode): (n: int)
    ensures n == 0 <==> m == DialogModalMode.None
    ensures m == BlockClientWindow ==> n == 1
  {
    match m
    case None => 0
    case BlockClientWindow => 1
  }

  // ---------------------------------------------------------------------------
  // Client-window target
  // ---------------------------------------------------------------------------

  /**
   * `DialogClientTarget`. A window handle is an opaque integer token; 0 is
   * `IntPtr.Zero`. The class-name array may itself be null (its setter is public)
   * and so may each entry.
   */
  datatype DialogClientTarget = DialogClientTarget(
    windowHandle: int,
    windowClassNames: Option<seq<NullableString>>,
    processName: NullableString)

  /** `new DialogClientTarget()`: zero handle, empty non-null class list, null process name. */
  function NewClientTarget(): (t: DialogClientTarget)
    ensures t.windowClassNames.Some? && |t.windowClassNames.value| == 0
    ensures t.windowHandle == 0 && t.processName.None?
  {
    DialogClientTarget(0, Some([]), Option.None)
  }

  /** `DialogClientTarget.DefaultVb6WindowClasses`. */
  const DefaultVb6WindowClasses: seq<string> := ["ThunderRT6FormDC", "ThunderRT6Main", "ThunderRT6MDIForm"]

  function AsNullable(names: seq<string>): (r: seq<NullableString>)
    ensures |r| == |names|
    ensures forall i :: 0 <= i < |names| ==> r[i] == Some(names[i])
  {
    if names == [] then [] else [Some(names[0])] + AsNullable(names[1..])
  }

  /**
   * `DialogClientTarget.CreateDefaultVb6Target`: no explicit handle, no process
   * name, and the three VB6 runtime classes in their search order, none blank.
   */
  function CreateDefaultVb6Target(): (t: DialogClientTarget)
    ensures t.windowHandle == 0 && t.processName.None? && t.windowClassNames.Some?
    ensures t.windowClassNames.value == [Some("ThunderRT6FormDC"), Some("ThunderRT6Main"), Some("ThunderRT6MDIForm")]
    ensures forall i :: 0 <= i < |t.windowClassNames.value| ==> !IsNullOrWhiteSpace(t.windowClassNames.value[i])
  {
    var names := AsNullable(DefaultVb6WindowClasses);
    assert forall i :: 0 <= i < |names| ==> names[i].value[0] == 'T' && !IsWhiteSpace(names[i].value[0]);
    DialogClientTarget(0, Some(names), Option.None)
  }

  // ---------------------------------------------------------------------------
  // Options and result
  // ---------------------------------------------------------------------------

  /** `DialogButtonConfig`. */
  datatype DialogButtonConfig = DialogButtonConfig(text: NullableString, automationId: NullableString)

  /**
   * `DialogOptions` without its theme. `autoCloseSeconds` is a C# `int`; the model
   * only ever decrements a copy of it that starts above 3, so no wrap-around arises.
   */
  datatype DialogOptions = DialogOptions(
    title: NullableString,
    mainMessage: NullableString,
    subMessage: NullableString,
    icon: DialogIcon,
    modalMode: DialogModalMode,
    clientTarget: Option<DialogClientTarget>,
    button1: Option<DialogButtonConfig>,
    button2: Option<DialogButtonConfig>,
    button3: Option<DialogButtonConfig>,
    button4: Option<DialogButtonConfig>,
    autoCloseSeconds: int)

  /**
   * `new DialogOptions()`: the Info icon, the client window blocked, no target (so
   * the VB6 default is searched), no texts, no buttons and no auto-close.
   */
  function NewDialogOptions(): (o: DialogOptions)
    ensures IconValue(o.icon) == 1 && ModalModeValue(o.modalMode) == 1
    ensures o.clientTarget.None? && o.autoCloseSeconds == 0
    ensures o.title.None? && o.mainMessage.None? && o.subMessage.None?
    ensures o.button1.None? && o.button2.None? && o.button3.None? && o.button4.None?
  {
    DialogOptions(Option.None, Option.None, Option.None, Info, BlockClientWindow, Option.None,
                  Option.None, Option.None, Option.None, Option.None, 0)
  }

  /** `DialogResultInfo`, as the value the caller receives. */
  datatype DialogResultInfo = DialogResultInfo(result: DialogButtonResult, closedByExternalRequest: bool)

  /** `new DialogResultInfo()`: no button (value 0), not closed externally. */
  function NewResultInfo(): (r: DialogResultInfo)
    ensures ButtonResultValue(r.result) == 0 && !r.closedByExternalRequest
  {
    DialogResultInfo(DialogButtonResult.None, false)
  }

  /** Exceptions a caller can observe. */
  datatype Fault = ArgumentNull(paramName: string)
}
