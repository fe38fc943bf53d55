/**
 * The game log and the menu of the older single-file client (js/index.js).
 * They wrap their text as the current client does (`TextBoxes.Wrap`), with
 * fixed instructions naming the L, C and M keys; the menu's cursor stops at
 * either end instead of wrapping around, and the log scrolls one line
 * further than the current client's.
 */
module LegacyTextBoxes {
  import opened Wrappers
  import opened Text
  import opened Cursors
  import opened TextBoxes

  const LOG_HELP: string := "Press L to exit the log, C to clear, and arrow keys to scroll."
  const LOG_OPEN_MSG: string := "Press L to open the log!"
  const MENU_HELP: string := "Press M to close the menu, arrow keys to pick an option, and <enter> to choose."
  const MENU_OPEN_MSG: string := "Press M to open the menu!"
  /** The width `initialize` gives the log and the menu. */
  const BOX_WIDTH: real := 250.0

  /** The older client's game log. */
  class GameLog {
    const width: real
    /** The instructions shown above the open log, and the prompt shown while it is closed. */
    const help: string
    const openMsg: string
    var messageLog: seq<string>
    var lineStart: int
    var wrappedText: seq<string>

    ghost predicate Valid()
      reads this
    {
      |wrappedText| >= 1 && lineStart >= 0
    }

    /** `new GameLog(width)`: empty and unfocused. */
    constructor (width: real, measure: string -> real)
      ensures Valid() && this.width == width && messageLog == [] && lineStart == 0
      ensures help == LOG_HELP && openMsg == LOG_OPEN_MSG
      ensures wrappedText == Wrap(openMsg, measure, width)
    {
      this.width := width;
      help := LOG_HELP;
      openMsg := LOG_OPEN_MSG;
      messageLog := [];
      lineStart := 0;
      var lines := WrapText(LOG_OPEN_MSG, measure, width);
      wrappedText := lines;
    }

    function FocusText(): string
      reads this
    {
      Join([help] + messageLog, ENTRY_SEPARATOR)
    }

    function UnfocusText(): string
      reads this
    {
      if |messageLog| > 0 then openMsg + ENTRY_SEPARATOR + messageLog[0] else openMsg
    }

    /** `focus`: the whole log, after the instructions. */
    method Focus(measure: string -> real)
      requires Valid()
      modifies this`wrappedText
      ensures Valid() && wrappedText == Wrap(FocusText(), measure, width)
    {
      wrappedText := WrapText(FocusText(), measure, width);
    }

    /** `unfocus`: the prompt and the newest message, from the top. */
    method Unfocus(measure: string -> real)
      modifies this`wrappedText, this`lineStart
      ensures Valid() && lineStart == 0 && wrappedText == Wrap(UnfocusText(), measure, width)
    {
      wrappedText := WrapText(UnfocusText(), measure, width);
      lineStart := 0;
    }

    /** `addMsg`: the message goes first; the open log is redrawn in full, the closed one as a preview. */
    method AddMsg(msg: string, logOpen: bool, measure: string -> real)
      requires Valid()
      modifies this
      ensures Valid() && messageLog == [msg] + old(messageLog)
      ensures logOpen ==> wrappedText == Wrap(FocusText(), measure, width) && lineStart == old(lineStart)
      ensures !logOpen ==> wrappedText == Wrap(UnfocusText(), measure, width) && lineStart == 0
      ensures !logOpen ==> UnfocusText() == openMsg + ENTRY_SEPARATOR + msg
    {
      messageLog := [msg] + messageLog;
      if logOpen {
        Focus(measure);
      } else {
        Unfocus(measure);
      }
    }

    /** `scrollUp`: one line up, never above the first. */
    method ScrollUp()
      requires Valid()
      modifies this`lineStart
      ensures Valid() && lineStart == ClampUp(old(lineStart))
    {
      lineStart := lineStart - 1;
      if lineStart < 0 {
        lineStart := 0;
      }
    }

    /** `scrollDown`: one line down, stopping one line past the last. */
    method ScrollDown()
      requires Valid()
      modifies this`lineStart
      ensures Valid() && lineStart == ClampDown(old(lineStart), |wrappedText|)
      ensures lineStart <= |wrappedText|
    {
      lineStart := lineStart + 1;
      if lineStart > |wrappedText| {
        lineStart := |wrappedText|;
      }
    }

    /** `clear`: no messages, the instructions alone, from the top. */
    method Clear(measure: string -> real)
      requires Valid()
      modifies this
      ensures Valid() && messageLog == [] && lineStart == 0
      ensures wrappedText == Wrap(help, measure, width)
    {
      messageLog := [];
      Focus(measure);
      assert FocusText() == help;
      lineStart := 0;
    }
  }

  /**
   * The older log's `scrollDown` from the last line moves past it: the
   * page it then draws is empty.
   */
  lemma ScrollDownPastEnd(wrapped: seq<string>)
    requires |wrapped| >= 1
    ensures ClampDown(|wrapped| - 1, |wrapped|) == |wrapped|
    ensures Page(wrapped, ClampDown(|wrapped| - 1, |wrapped|)) == []
  {
  }

  /** The older client's menu: the cursor stops at either end. */
  class Menu {
    const width: real
    /** The instructions shown above the open menu, and the prompt shown while it is closed. */
    const help: string
    const openMsg: string
    var items: seq<string>
    var currentlySelected: int
    var wrappedText: seq<string>

    ghost predicate InRange()
      reads this
    {
      0 <= currentlySelected < |items|
    }

    /** `new Menu(width)`: no items, the cursor at 0, unfocused. */
    constructor (width: real, measure: string -> real)
      ensures this.width == width && items == [] && currentlySelected == 0
      ensures help == MENU_HELP && openMsg == MENU_OPEN_MSG
      ensures wrappedText == Wrap(openMsg, measure, width)
    {
      this.width := width;
      help := MENU_HELP;
      openMsg := MENU_OPEN_MSG;
      items := [];
      currentlySelected := 0;
      var lines := WrapText(MENU_OPEN_MSG, measure, width);
      wrappedText := lines;
    }

    function FocusText(): string
      reads this
    {
      Join(MenuLines(help, items, currentlySelected), ENTRY_SEPARATOR)
    }

    /** `focus`: the instructions and the items, the selected one marked. */
    method Focus(measure: string -> real)
      modifies this`wrappedText
      ensures wrappedText == Wrap(FocusText(), measure, width)
    {
      wrappedText := WrapText(FocusText(), measure, width);
    }

    /** `unfocus`: the prompt to open the menu alone. */
    method Unfocus(measure: string -> real)
      modifies this`wrappedText
      ensures wrappedText == Wrap(openMsg, measure, width)
    {
      wrappedText := WrapText(openMsg, measure, width);
    }

    /** `addItem`: the item goes last; the cursor stays where it was. */
    method AddItem(item: string, menuOpen: bool, measure: string -> real)
      modifies this`items, this`wrappedText
      ensures items == old(items) + [item]
      ensures old(InRange()) ==> InRange()
      ensures |old(items)| == 0 && currentlySelected == 0 ==> InRange()
      ensures menuOpen ==> wrappedText == Wrap(FocusText(), measure, width)
      ensures !menuOpen ==> wrappedText == Wrap(openMsg, measure, width)
    {
      items := items + [item];
      if menuOpen {
        Focus(measure);
      } else {
        wrappedText := WrapText(openMsg, measure, width);
      }
    }

    /** `cursorUp`: one item up, staying on the first. */
    method CursorUp(measure: string -> real)
      modifies this`currentlySelected, this`wrappedText
      ensures currentlySelected == ClampUp(old(currentlySelected))
      ensures old(InRange()) ==> InRange()
      ensures wrappedText == Wrap(FocusText(), measure, width)
    {
      currentlySelected := currentlySelected - 1;
      if currentlySelected < 0 {
        currentlySelected := 0;
      }
      Focus(measure);
    }

    /** `cursorDown`: one item down, staying on the last. */
    method CursorDown(measure: string -> real)
      modifies this`currentlySelected, this`wrappedText
      ensures currentlySelected == ClampDown(old(currentlySelected), |items| - 1)
      ensures old(InRange()) ==> InRange()
      ensures wrappedText == Wrap(FocusText(), measure, width)
    {
      currentlySelected := currentlySelected + 1;
      if currentlySelected >= |items| {
        currentlySelected := |items| - 1;
      }
      Focus(measure);
    }
  }

  /** `initialize`: a closed log and a closed menu offering Profile and Inventory. */
  method Initialize(measure: string -> real) returns (log: GameLog, menu: Menu)
    ensures fresh(log) && fresh(menu) && log.Valid()
    ensures log.width == BOX_WIDTH && log.messageLog == [] && log.lineStart == 0
    ensures log.help == LOG_HELP && log.openMsg == LOG_OPEN_MSG && log.wrappedText == Wrap(log.openMsg, measure, BOX_WIDTH)
    ensures menu.width == BOX_WIDTH && menu.items == ["Profile", "Inventory"] && menu.currentlySelected == 0
    ensures menu.help == MENU_HELP && menu.openMsg == MENU_OPEN_MSG
    ensures menu.wrappedText == Wrap(menu.openMsg, measure, BOX_WIDTH)
  {
    log := new GameLog(BOX_WIDTH, measure);
    menu := new Menu(BOX_WIDTH, measure);
    menu.AddItem("Profile", false, measure);
    menu.AddItem("Inventory", false, measure);
    AddTwo("Profile", "Inventory");
  }

  /** Two items added to an empty list, in order. */
  lemma AddTwo<T>(a: T, b: T)
    ensures [] + [a] + [b] == [a, b]
  {
  }
}
