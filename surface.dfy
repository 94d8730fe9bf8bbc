/**
 * The dialog surface (DialogDemo/DialogWindow.xaml.cs), as far as the controller
 * depends on it: the button panel built from the four button configurations, the
 * icon glyph, the message and progress widgets, and the two events the window
 * raises. Raising an event is synchronous in the source, so a window method that
 * raises one returns it as a `WindowEvent` and the subscriber handles it at once.
 */
module Surface {
  import opened Themes

  /** A button placed in the panel: its caption and the fixed result its click raises. */
  datatype Button = Button(text: string, result: DialogButtonResult)

  /** What a window method raised: `ButtonClicked(r)`, `DialogClosed`, or nothing. */
  datatype WindowEvent = ButtonClicked(result: DialogButtonResult) | DialogClosed | NoEvent

  /** The widget state the controller can observe or change. */
  datatype WindowView = WindowView(
    title: string,
    icon: string,
    buttons: seq<Button>,
    mainText: string,
    subText: string,
    progressVisible: bool,
    progress: real,
    closed: bool)

  /** `CreateButton`: no button for a null configuration or a blank caption. */
  function CreateButton(cfg: Option<DialogButtonConfig>, result: DialogButtonResult): (b: Option<Button>)
    ensures b.None? <==> cfg.None? || IsNullOrWhiteSpace(cfg.value.text)
    ensures b.Some? ==> b.value.result == result && cfg.value.text == Some(b.value.text)
  {
    if cfg.None? || IsNullOrWhiteSpace(cfg.value.text) then Option.None
    else Some(Button(cfg.value.text.value, result))
  }

  /** The panel children `AddButtonIfVisible` contributes. */
  function Visible(b: Option<Button>): seq<Button> {
    if b.Some? then [b.value] else []
  }

  /** The buttons that `AddButtonIfVisible` keeps from a sequence of candidates, in order. */
  function Present(cs: seq<Option<Button>>): (p: seq<Button>)
    ensures |p| <= |cs|
  {
    if cs == [] then [] else Visible(cs[0]) + Present(cs[1..])
  }

  /** A button is in the panel exactly when some candidate produced it. */
  lemma {:induction false} PresentMembers(cs: seq<Option<Button>>, b: Button)
    ensures b in Present(cs) <==> Some(b) in cs
  {
    if cs != [] {
      PresentMembers(cs[1..], b);
      assert cs == [cs[0]] + cs[1..];
    }
  }

  /** Candidates in strictly descending result order stay so once the absent ones are dropped. */
  lemma {:induction false} PresentKeepsOrder(cs: seq<Option<Button>>)
    requires forall i, j :: 0 <= i < j < |cs| && cs[i].Some? && cs[j].Some? ==>
               ButtonResultValue(cs[i].value.result) > ButtonResultValue(cs[j].value.result)
    ensures var p := Present(cs);
      forall i, j :: 0 <= i < j < |p| ==> ButtonResultValue(p[i].result) > ButtonResultValue(p[j].result)
  {
    if cs != [] {
      PresentKeepsOrder(cs[1..]);
      var rest := Present(cs[1..]);
      if cs[0].Some? {
        forall j | 0 <= j < |rest|
          ensures ButtonResultValue(cs[0].value.result) > ButtonResultValue(rest[j].result)
        {
          PresentMembers(cs[1..], rest[j]);
          var k :| 0 <= k < |cs[1..]| && cs[1..][k] == Some(rest[j]);
          assert cs[k + 1] == Some(rest[j]);
        }
      }
    }
  }

  /** `_btn4`, `_btn3`, `_btn2`, `_btn1` as `BuildUi` creates them, in the order it adds them. */
  function Candidates(opt: DialogOptions): (cs: seq<Option<Button>>)
    ensures |cs| == 4
  {
    [CreateButton(opt.button4, Option4), CreateButton(opt.button3, Option3),
     CreateButton(opt.button2, Option2), CreateButton(opt.button1, Option1)]
  }

  lemma PresentOfFour(a: Option<Button>, b: Option<Button>, c: Option<Button>, d: Option<Button>)
    ensures Present([a, b, c, d]) == [] + Visible(a) + Visible(b) + Visible(c) + Visible(d)
  {
    var cs := [a, b, c, d];
    assert Present(cs[3..]) == Visible(cs[3]) + Present([]) by { assert cs[3..][1..] == []; }
    assert Present(cs[2..]) == Visible(cs[2]) + Present(cs[3..]) by { assert cs[2..][1..] == cs[3..]; }
    assert Present(cs[1..]) == Visible(cs[1]) + Present(cs[2..]) by { assert cs[1..][1..] == cs[2..]; }
    assert Present(cs) == Visible(cs[0]) + Present(cs[1..]);
  }

  /** The panel `BuildUi` produces. */
  function PanelButtons(opt: DialogOptions): seq<Button> {
    Present(Candidates(opt))
  }

  /** The panel, as `BuildUi`'s four `AddButtonIfVisible` calls assemble it. */
  lemma PanelButtonsAssembled(opt: DialogOptions)
    ensures PanelButtons(opt) == [] + Visible(CreateButton(opt.button4, Option4))
      + Visible(CreateButton(opt.button3, Option3)) + Visible(CreateButton(opt.button2, Option2))
      + Visible(CreateButton(opt.button1, Option1))
  {
    PresentOfFour(CreateButton(opt.button4, Option4), CreateButton(opt.button3, Option3),
                  CreateButton(opt.button2, Option2), CreateButton(opt.button1, Option1));
  }

  /** The configuration of option button `k` (1..4). */
  function ButtonConfig(opt: DialogOptions, k: int): Option<DialogButtonConfig>
    requires 1 <= k <= 4
  {
    if k == 1 then opt.button1 else if k == 2 then opt.button2
    else if k == 3 then opt.button3 else opt.button4
  }

  /** The result raised by option button `k` (1..4). */
  function OptionResult(k: int): (r: DialogButtonResult)
    requires 1 <= k <= 4
    ensures ButtonResultValue(r) == k
  {
    if k == 1 then Option1 else if k == 2 then Option2 else if k == 3 then Option3 else Option4
  }

  /** The panel holds a button for option `k` exactly when its configuration is present with a non-blank caption. */
  lemma PanelHasButtonIff(opt: DialogOptions, k: int)
    requires 1 <= k <= 4
    ensures (exists b :: b in PanelButtons(opt) && b.result == OptionResult(k))
            <==> ButtonConfig(opt, k).Some? && !IsNullOrWhiteSpace(ButtonConfig(opt, k).value.text)
  {
    var cs := Candidates(opt);
    var c := CreateButton(ButtonConfig(opt, k), OptionResult(k));
    assert c == cs[4 - k];
    if c.Some? {
      PresentMembers(cs, c.value);
      assert c.value in PanelButtons(opt);
    }
    forall b | b in PanelButtons(opt) && b.result == OptionResult(k) ensures c.Some? {
      PresentMembers(cs, b);
      var i :| 0 <= i < 4 && cs[i] == Some(b);
      assert ButtonResultValue(b.result) == 4 - i;
    }
  }

  /** Every button in the panel shows its own configuration's caption and raises its own option result. */
  lemma PanelButtonCarriesConfig(opt: DialogOptions, b: Button)
    requires b in PanelButtons(opt)
    ensures 1 <= ButtonResultValue(b.result) <= 4
    ensures ButtonConfig(opt, ButtonResultValue(b.result)).Some?
    ensures ButtonConfig(opt, ButtonResultValue(b.result)).value.text == Some(b.text)
  {
    var cs := Candidates(opt);
    PresentMembers(cs, b);
    var i :| 0 <= i < 4 && cs[i] == Some(b);
    assert ButtonResultValue(b.result) == 4 - i;
  }

  /** The panel lists its buttons in strictly descending result order, Option4 first. */
  lemma PanelButtonsDescending(opt: DialogOptions)
    ensures var p := PanelButtons(opt);
      forall i, j :: 0 <= i < j < |p| ==> ButtonResultValue(p[i].result) > ButtonResultValue(p[j].result)
  {
    var cs := Candidates(opt);
    forall i, j | 0 <= i < j < |cs| && cs[i].Some? && cs[j].Some?
      ensures ButtonResultValue(cs[i].value.result) > ButtonResultValue(cs[j].value.result)
    {
      assert ButtonResultValue(cs[i].value.result) == 4 - i;
      assert ButtonResultValue(cs[j].value.result) == 4 - j;
    }
    PresentKeepsOrder(cs);
    assert PanelButtons(opt) == Present(cs);
  }

  /** `ApplyIcon`: the glyph shown for an icon kind. */
  function IconGlyph(icon: DialogIcon): (g: string)
    ensures g == "" <==> icon == DialogIcon.None
    ensures icon != DialogIcon.None ==> |g| == 1
  {
    match icon
    case Info => "\U{2139}"
    case Warning => "\U{26A0}"
    case Error => "\U{2716}"
    case Question => "?"
    case None => ""
  }

  /** Distinct icon kinds are shown with distinct glyphs. */
  lemma IconGlyphInjective(a: DialogIcon, b: DialogIcon)
    ensures IconGlyph(a) == IconGlyph(b) ==> a == b
  {
  }

  /** The window as its constructor leaves it. */
  function InitialView(opt: DialogOptions): WindowView {
    WindowView(OrEmpty(opt.title), IconGlyph(opt.icon), PanelButtons(opt),
               OrEmpty(opt.mainMessage), OrEmpty(opt.subMessage), false, 0.0, false)
  }

  /** A window built from default options: info glyph, empty texts, no buttons, no progress shown. */
  lemma DefaultOptionsView()
    ensures InitialView(NewDialogOptions()) == WindowView("", "\U{2139}", [], "", "", false, 0.0, false)
  {
    PresentOfFour(Option.None, Option.None, Option.None, Option.None);
  }

  /** `DialogWindow`. */
  class DialogWindow {
    var title: string
    var icon: string
    var buttons: seq<Button>      // ButtonsPanel.Children
    var btn1: Option<Button>
    var btn2: Option<Button>
    var btn3: Option<Button>
    var btn4: Option<Button>
    var mainText: string
    var subText: string
    var progressVisible: bool
    var progress: real
    var closed: bool

    function View(): WindowView
      reads this
    {
      WindowView(title, icon, buttons, mainText, subText, progressVisible, progress, closed)
    }

    /** The constructor: `BuildUi` then `ApplyIcon`. */
    constructor (opt: DialogOptions)
      ensures View() == InitialView(opt)
    {
      title := OrEmpty(opt.title);
      icon := "";
      buttons := [];
      mainText := "";
      subText := "";
      progressVisible := false;
      progress := 0.0;
      closed := false;
      new;
      BuildUi(opt);
      ApplyIcon(opt.icon);
    }

    /** `BuildUi`: title and messages (null shown as empty), then the button panel. */
    method BuildUi(opt: DialogOptions)
      requires buttons == []
      modifies this
      ensures buttons == PanelButtons(opt)
      ensures title == OrEmpty(opt.title)
      ensures mainText == OrEmpty(opt.mainMessage) && subText == OrEmpty(opt.subMessage)
      ensures icon == old(icon) && progressVisible == old(progressVisible)
      ensures progress == old(progress) && closed == old(closed)
    {
      title := OrEmpty(opt.title);
      mainText := OrEmpty(opt.mainMessage);
      subText := OrEmpty(opt.subMessage);
      BuildButtons(opt);
    }

    /** The button part of `BuildUi`: `_btn1`..`_btn4`, then the panel in the order 4, 3, 2, 1. */
    method BuildButtons(opt: DialogOptions)
      requires buttons == []
      modifies this`buttons, this`btn1, this`btn2, this`btn3, this`btn4
      ensures buttons == PanelButtons(opt)
      ensures btn1 == CreateButton(opt.button1, Option1) && btn2 == CreateButton(opt.button2, Option2)
      ensures btn3 == CreateButton(opt.button3, Option3) && btn4 == CreateButton(opt.button4, Option4)
    {
      btn1 := CreateButton(opt.button1, Option1);
      btn2 := CreateButton(opt.button2, Option2);
      btn3 := CreateButton(opt.button3, Option3);
      btn4 := CreateButton(opt.button4, Option4);
      AddButtonIfVisible(btn4);
      AddButtonIfVisible(btn3);
      AddButtonIfVisible(btn2);
      AddButtonIfVisible(btn1);
      PanelButtonsAssembled(opt);
    }

    method AddButtonIfVisible(b: Option<Button>)
      modifies this`buttons
      ensures buttons == old(buttons) + Visible(b)
    {
      if b.Some? {
        buttons := buttons + [b.value];
      }
    }

    method ApplyIcon(i: DialogIcon)
      modifies this`icon
      ensures icon == IconGlyph(i)
    {
      icon := IconGlyph(i);
    }

    /** `SetProgress`: the bar becomes visible and shows `percent`. */
    method SetProgress(percent: real)
      modifies this
      ensures View() == old(View()).(progressVisible := true, progress := percent)
    {
      if !progressVisible {
        progressVisible := true;
      }
      progress := percent;
    }

    method UpdateMainMessage(text: NullableString)
      modifies this
      ensures View() == old(View()).(mainText := OrEmpty(text))
    {
      mainText := OrEmpty(text);
    }

    method UpdateSubMessage(text: NullableString)
      modifies this
      ensures View() == old(View()).(subText := OrEmpty(text))
    {
      subText := OrEmpty(text);
    }

    /** `SimulateButtonClick`: raises `ButtonClicked(result)` synchronously, changing nothing. */
    method SimulateButtonClick(result: DialogButtonResult) returns (e: WindowEvent)
      ensures e == ButtonClicked(result)
    {
      e := ButtonClicked(result);
    }

    /** A user click on the panel's `index`-th button raises that button's fixed result. */
    method ClickButton(index: nat) returns (e: WindowEvent)
      requires index < |buttons|
      ensures e == ButtonClicked(buttons[index].result)
    {
      e := ButtonClicked(buttons[index].result);
    }

    /**
     * `Close`: the first close runs `OnClosed`, which raises `DialogClosed`; closing
     * a window that is already closed does nothing.
     */
    method Close() returns (e: WindowEvent)
      modifies this
      ensures View() == old(View()).(closed := true)
      ensures e == if old(closed) then NoEvent else DialogClosed
    {
      if closed {
        e := NoEvent;
      } else {
        closed := true;
        e := DialogClosed;
      }
    }
  }
}
