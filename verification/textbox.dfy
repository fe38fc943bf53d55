/**
 * The client's text widgets (js/index/textbox.mjs): word wrapping, the game
 * log with its scroll position, the menu with its wrap-around cursor, and
 * the dialogue box, which either shows scrollable text or offers options.
 * Text measurement (`ctx.measureText(s).width`) is the parameter `measure`;
 * the instruction lines, which name the bound keys, are parameters too.
 */
module TextBoxes {
  import opened Wrappers
  import opened Text
  import opened Cursors

  /** A wrapped line is empty, a single word, or narrower than the box. */
  predicate Fits(line: string, words: seq<string>, measure: string -> real, maxWidth: real)
  {
    line == "" || line in words || measure(line) < maxWidth
  }

  /** Every line fits in the sense of `Fits`. */
  predicate AllFit(lines: seq<string>, words: seq<string>, measure: string -> real, maxWidth: real)
  {
    forall k :: 0 <= k < |lines| ==> Fits(lines[k], words, measure, maxWidth)
  }

  /**
   * The lines `wrapText` produces from word `i` on, given the lines pushed
   * so far and the line being filled: a "\n" word ends the line; any other
   * word joins the line while the result is narrower than `maxWidth`, and
   * otherwise starts the next line.
   */
  function WrapFrom(words: seq<string>, i: nat, lines: seq<string>, cur: string,
                    measure: string -> real, maxWidth: real): (r: seq<string>)
    requires i <= |words|
    ensures |r| > |lines| && r[..|lines|] == lines
    decreases |words| - i
  {
    if i == |words| then lines + [cur]
    else if words[i] == "\n" then WrapFrom(words, i + 1, lines + [cur], "", measure, maxWidth)
    else
      var test := if cur == "" then words[i] else cur + " " + words[i];
      if measure(test) < maxWidth then WrapFrom(words, i + 1, lines, test, measure, maxWidth)
      else WrapFrom(words, i + 1, lines + [cur], words[i], measure, maxWidth)
  }

  /** `wrapText(ctx, text, maxWidth)` on the words of `text`, split at spaces. */
  function Wrap(text: string, measure: string -> real, maxWidth: real): (r: seq<string>)
    ensures |r| >= 1
  {
    var words := Split(text, ' ');
    WrapFrom(words, 1, [], words[0], measure, maxWidth)
  }

  /** Every line `wrapText` produces fits the box, unless it is a single word too wide for it. */
  lemma {:induction false} WrapFromFits(words: seq<string>, i: nat, lines: seq<string>, cur: string,
                                        measure: string -> real, maxWidth: real)
    requires i <= |words|
    requires AllFit(lines, words, measure, maxWidth)
    requires Fits(cur, words, measure, maxWidth)
    ensures AllFit(WrapFrom(words, i, lines, cur, measure, maxWidth), words, measure, maxWidth)
    decreases |words| - i
  {
    if i < |words| {
      var test := if cur == "" then words[i] else cur + " " + words[i];
      var pushed := lines + [cur];
      assert AllFit(pushed, words, measure, maxWidth) by {
        forall k | 0 <= k < |pushed| ensures Fits(pushed[k], words, measure, maxWidth) {
          if k < |lines| { assert pushed[k] == lines[k]; }
        }
      }
      if words[i] == "\n" {
        WrapFromFits(words, i + 1, lines + [cur], "", measure, maxWidth);
      } else if measure(test) < maxWidth {
        assert Fits(test, words, measure, maxWidth);
        assert WrapFrom(words, i, lines, cur, measure, maxWidth) == WrapFrom(words, i + 1, lines, test, measure, maxWidth);
        WrapFromFits(words, i + 1, lines, test, measure, maxWidth);
      } else {
        assert words[i] in words;
        assert WrapFrom(words, i, lines, cur, measure, maxWidth) ==
          WrapFrom(words, i + 1, lines + [cur], words[i], measure, maxWidth);
        WrapFromFits(words, i + 1, lines + [cur], words[i], measure, maxWidth);
      }
    }
  }

  lemma WrapFits(text: string, measure: string -> real, maxWidth: real)
    ensures AllFit(Wrap(text, measure, maxWidth), Split(text, ' '), measure, maxWidth)
  {
    var words := Split(text, ' ');
    assert words[0] in words;
    assert Wrap(text, measure, maxWidth) == WrapFrom(words, 1, [], words[0], measure, maxWidth);
    WrapFromFits(words, 1, [], words[0], measure, maxWidth);
  }

  /** Each "\n" word after the first starts a new line, so there are more lines than breaks. */
  lemma {:induction false} WrapFromBreaks(words: seq<string>, i: nat, lines: seq<string>, cur: string,
                                          measure: string -> real, maxWidth: real)
    requires i <= |words|
    ensures |WrapFrom(words, i, lines, cur, measure, maxWidth)| > |lines| + Breaks(words, i)
    decreases |words| - i
  {
    if i < |words| {
      var test := if cur == "" then words[i] else cur + " " + words[i];
      if words[i] == "\n" {
        WrapFromBreaks(words, i + 1, lines + [cur], "", measure, maxWidth);
      } else if measure(test) < maxWidth {
        WrapFromBreaks(words, i + 1, lines, test, measure, maxWidth);
      } else {
        WrapFromBreaks(words, i + 1, lines + [cur], words[i], measure, maxWidth);
      }
    }
  }

  /** The number of "\n" words from word `i` on. */
  function Breaks(words: seq<string>, i: nat): nat
    requires i <= |words|
    decreases |words| - i
  {
    if i == |words| then 0 else (if words[i] == "\n" then 1 else 0) + Breaks(words, i + 1)
  }

  /** `wrapText`, with its loop over the words. */
  method WrapText(text: string, measure: string -> real, maxWidth: real) returns (lines: seq<string>)
    ensures lines == Wrap(text, measure, maxWidth)
  {
    var words := Split(text, ' ');
    var cur := words[0];
    lines := [];
    var i := 1;
    while i < |words|
      invariant 1 <= i <= |words|
      invariant WrapFrom(words, i, lines, cur, measure, maxWidth) == Wrap(text, measure, maxWidth)
    {
      if words[i] == "\n" {
        lines := lines + [cur];
        cur := "";
      } else {
        var test := if cur == "" then words[i] else cur + " " + words[i];
        if measure(test) < maxWidth {
          cur := test;
        } else {
          lines := lines + [cur];
          cur := words[i];
        }
      }
      i := i + 1;
    }
    lines := lines + [cur];
  }

  /** The lines `render` draws: `wrappedText.slice(lineStart)`. */
  function Page(wrapped: seq<string>, lineStart: nat): (page: seq<string>)
    ensures |page| == if lineStart <= |wrapped| then |wrapped| - lineStart else 0
    ensures forall k :: 0 <= k < |page| ==> page[k] == wrapped[lineStart + k]
  {
    if lineStart <= |wrapped| then wrapped[lineStart..] else []
  }

  /**
   * Scrolling down never empties the box: from any line of the text, the
   * page after `scrollDown` still shows the last line.
   */
  lemma ScrollDownKeepsLastLine(wrapped: seq<string>, lineStart: nat)
    requires lineStart <= |wrapped| - 1
    ensures var next := ClampDown(lineStart, |wrapped| - 1);
      0 <= next && |Page(wrapped, next)| >= 1 && Page(wrapped, next)[|Page(wrapped, next)| - 1] == wrapped[|wrapped| - 1]
  {
  }

  /** The separator the log and the menu put between their entries. */
  const ENTRY_SEPARATOR: string := " \n ----- \n "

  /** The game log: newest message first, wrapped either in full or as a one-message preview. */
  class GameLog {
    const width: real
    var messageLog: seq<string>
    var lineStart: int
    var wrappedText: seq<string>

    /** The first line shown is on the page. */
    ghost predicate Valid()
      reads this
    {
      |wrappedText| >= 1 && lineStart >= 0
    }

    /** `new GameLog(game, width)`: empty, and unfocused. */
    constructor (width: real, openMsg: string, measure: string -> real)
      ensures Valid() && this.width == width && messageLog == [] && lineStart == 0
      ensures wrappedText == Wrap(openMsg, measure, width)
    {
      this.width := width;
      messageLog := [];
      lineStart := 0;
      wrappedText := Wrap(openMsg, measure, width);
    }

    /** The text `focus` wraps: the instructions, then every message, newest first. */
    function FocusText(help: string): string
      reads this
    {
      Join([help] + messageLog, ENTRY_SEPARATOR)
    }

    /** The text `unfocus` wraps: the prompt to open the log, then the newest message. */
    function UnfocusText(openMsg: string): string
      reads this
    {
      if |messageLog| > 0 then openMsg + ENTRY_SEPARATOR + messageLog[0] else openMsg
    }

    /** `focus`: the whole log is wrapped; the scroll position is kept. */
    method Focus(help: string, measure: string -> real)
      requires Valid()
      modifies this`wrappedText
      ensures Valid() && wrappedText == Wrap(FocusText(help), measure, width)
    {
      wrappedText := WrapText(FocusText(help), measure, width);
    }

    /** `unfocus`: the preview is wrapped and the log scrolls back to the top. */
    method Unfocus(openMsg: string, measure: string -> real)
      modifies this`wrappedText, this`lineStart
      ensures Valid() && lineStart == 0
      ensures wrappedText == Wrap(UnfocusText(openMsg), measure, width)
    {
      wrappedText := WrapText(UnfocusText(openMsg), measure, width);
      lineStart := 0;
    }

    /** `addMsg`: the message goes first, and the text is redrawn for the open or closed log. */
    method AddMsg(msg: string, logOpen: bool, help: string, openMsg: string, measure: string -> real)
      requires Valid()
      modifies this
      ensures Valid() && messageLog == [msg] + old(messageLog)
      ensures logOpen ==> wrappedText == Wrap(FocusText(help), measure, width) && lineStart == old(lineStart)
      ensures !logOpen ==> wrappedText == Wrap(UnfocusText(openMsg), measure, width) && lineStart == 0
      ensures !logOpen ==> UnfocusText(openMsg) == openMsg + ENTRY_SEPARATOR + msg
    {
      messageLog := [msg] + messageLog;
      if logOpen {
        Focus(help, measure);
      } else {
        Unfocus(openMsg, measure);
      }
    }

    /** `scrollUp`: one line up, never above the first. */
    method ScrollUp()
      requires Valid()
      modifies this`lineStart
      ensures Valid() && lineStart == ClampUp(old(lineStart))
      ensures old(lineStart) > 0 ==> lineStart == old(lineStart) - 1
    {
      lineStart := lineStart - 1;
      if lineStart < 0 {
        lineStart := 0;
      }
    }

    /** `scrollDown`: one line down, never past the last line. */
    method ScrollDown()
      requires Valid()
      modifies this`lineStart
      ensures Valid() && lineStart == ClampDown(old(lineStart), |wrappedText| - 1)
      ensures lineStart <= |wrappedText| - 1
    {
      lineStart := lineStart + 1;
      if lineStart > |wrappedText| - 1 {
        lineStart := |wrappedText| - 1;
      }
    }

    /** `clear`: no messages, the (now bare) instructions, at the top. */
    method Clear(help: string, measure: string -> real)
      requires Valid()
      modifies this
      ensures Valid() && messageLog == [] && lineStart == 0
      ensures wrappedText == Wrap(help, measure, width)
    {
      messageLog := [];
      Focus(help, measure);
      assert FocusText(help) == help;
      lineStart := 0;
    }
  }

  /** The menu's lines: the instructions, then each item, the selected one marked with ">". */
  function MenuLines(help: string, items: seq<string>, selected: int): (lines: seq<string>)
    ensures |lines| == |items| + 1 && lines[0] == help
    ensures forall i :: 0 <= i < |items| ==> lines[i + 1] == (if i == selected then ">" + items[i] else items[i])
  {
    [help] + Marked(items, selected, 0)
  }

  /** `items.map((item, i) => i === selected ? ">" + item : item)`, for items numbered from `from`. */
  function Marked(items: seq<string>, selected: int, from: int): (r: seq<string>)
    ensures |r| == |items|
    ensures forall i :: 0 <= i < |items| ==> r[i] == (if from + i == selected then ">" + items[i] else items[i])
  {
    if |items| == 0 then []
    else [if from == selected then ">" + items[0] else items[0]] + Marked(items[1..], selected, from + 1)
  }

  /** The menu of actions, with a cursor that wraps around. */
  class Menu {
    const width: real
    var items: seq<string>
    var currentlySelected: int
    var wrappedText: seq<string>

    /** The cursor is on an item. */
    ghost predicate InRange()
      reads this
    {
      0 <= currentlySelected < |items|
    }

    /** `new Menu(game, width)`: no items, the cursor at 0, unfocused. */
    constructor (width: real, openMsg: string, measure: string -> real)
      ensures this.width == width && items == [] && currentlySelected == 0
      ensures wrappedText == Wrap(openMsg, measure, width)
    {
      this.width := width;
      items := [];
      currentlySelected := 0;
      wrappedText := Wrap(openMsg, measure, width);
    }

    /** The text `focus` wraps: the instructions, then the items with the selected one marked. */
    function FocusText(help: string): string
      reads this
    {
      Join(MenuLines(help, items, currentlySelected), ENTRY_SEPARATOR)
    }

    /** `focus`: the instructions and every item, the selected one marked. */
    method Focus(help: string, measure: string -> real)
      modifies this`wrappedText
      ensures wrappedText == Wrap(FocusText(help), measure, width)
    {
      wrappedText := WrapText(FocusText(help), measure, width);
    }

    /** `unfocus`: only the line telling how to open the menu. */
    method Unfocus(openMsg: string, measure: string -> real)
      modifies this`wrappedText
      ensures wrappedText == Wrap(openMsg, measure, width)
    {
      wrappedText := WrapText(openMsg, measure, width);
    }

    /**
     * `addItem`: the item goes last and the cursor stays where it was; the
     * text is redrawn for the open or closed menu.
     */
    method AddItem(item: string, menuOpen: bool, help: string, openMsg: string, measure: string -> real)
      modifies this`items, this`wrappedText
      ensures items == old(items) + [item] && items[|items| - 1] == item
      ensures old(InRange()) ==> InRange()
      ensures |old(items)| == 0 && currentlySelected == 0 ==> InRange()
      ensures menuOpen ==> wrappedText == Wrap(FocusText(help), measure, width)
      ensures !menuOpen ==> wrappedText == Wrap(openMsg, measure, width)
    {
      items := items + [item];
      if menuOpen {
        Focus(help, measure);
      } else {
        Unfocus(openMsg, measure);
      }
    }

    /** `getSelectedItem`: `items[currentlySelected]`, undefined (None) when the cursor is off the list. */
    function SelectedItem(): (r: Option<string>)
      reads this
      ensures r.Some? <==> InRange()
      ensures r.Some? ==> r.value == items[currentlySelected]
    {
      if 0 <= currentlySelected < |items| then Some(items[currentlySelected]) else None
    }

    /** `cursorUp`: one item up, from the first to the last, and the menu is redrawn. */
    method CursorUp(help: string, measure: string -> real)
      modifies this`currentlySelected, this`wrappedText
      ensures currentlySelected == WrapUp(old(currentlySelected), |items|)
      ensures old(InRange()) ==> InRange()
      ensures wrappedText == Wrap(FocusText(help), measure, width)
    {
      currentlySelected := currentlySelected - 1;
      if currentlySelected < 0 {
        currentlySelected := currentlySelected + |items|;
      }
      Focus(help, measure);
    }

    /** `cursorDown`: one item down, from the last to the first, and the menu is redrawn. */
    method CursorDown(help: string, measure: string -> real)
      modifies this`currentlySelected, this`wrappedText
      ensures currentlySelected == WrapDown(old(currentlySelected), |items|)
      ensures old(InRange()) ==> InRange()
      ensures wrappedText == Wrap(FocusText(help), measure, width)
    {
      currentlySelected := currentlySelected + 1;
      if currentlySelected >= |items| {
        currentlySelected := currentlySelected - |items|;
      }
      Focus(help, measure);
    }
  }

  datatype DialogueState = TextState | ChooseState

  /** The option lines: each option, the selected one marked, one per line. */
  function OptionText(options: seq<string>, selected: int): string
  {
    Join(Marked(options, selected, 0), " \n ")
  }

  /** The dialogue box: closed, showing an NPC's text, or offering options. */
  class DialogueBox {
    const width: real
    const height: real
    var state: Option<DialogueState>
    var text: Option<string>
    var options: Option<seq<string>>
    var lineStart: int
    var currentlySelected: int
    var wrappedText: seq<string>
    var entityUuid: Option<string>

    /**
     * The state says which of text and options is set, and within it the
     * scroll position or the cursor is in range.
     */
    ghost predicate Valid()
      reads this
    {
      (state == None ==> text.None? && options.None?) &&
      (state == Some(TextState) ==> text.Some? && options.None? && |wrappedText| >= 1 && lineStart >= 0) &&
      (state == Some(ChooseState) ==>
        options.Some? && text.None? && (|options.value| > 0 ==> 0 <= currentlySelected < |options.value|))
    }

    /** `new DialogueBox(width, height)`: closed. */
    constructor (width: real, height: real)
      ensures Valid() && this.width == width && this.height == height && state.None? && entityUuid.None?
      ensures lineStart == 0 && currentlySelected == 0 && wrappedText == []
    {
      this.width := width;
      this.height := height;
      state := None;
      text := None;
      options := None;
      lineStart := 0;
      currentlySelected := 0;
      wrappedText := [];
      entityUuid := None;
    }

    /** `setText`: show the text from the top, for the NPC `uuid`. */
    method SetText(t: string, uuid: string, measure: string -> real)
      modifies this
      ensures Valid() && state == Some(TextState) && text == Some(t) && options.None?
      ensures entityUuid == Some(uuid) && lineStart == 0 && currentlySelected == old(currentlySelected)
      ensures wrappedText == Wrap(t, measure, width)
    {
      options := None;
      text := Some(t);
      state := Some(TextState);
      entityUuid := Some(uuid);
      lineStart := 0;
      wrappedText := WrapText(t, measure, width);
    }

    /** `setOptions`: offer the options with the first one selected, for the NPC `uuid`. */
    method SetOptions(opts: seq<string>, uuid: string, measure: string -> real)
      modifies this
      ensures Valid() && state == Some(ChooseState) && options == Some(opts) && text.None?
      ensures entityUuid == Some(uuid) && lineStart == 0 && currentlySelected == 0
      ensures wrappedText == Wrap(OptionText(opts, 0), measure, width)
    {
      text := None;
      options := Some(opts);
      lineStart := 0;
      state := Some(ChooseState);
      entityUuid := Some(uuid);
      currentlySelected := 0;
      wrappedText := WrapText(OptionText(opts, 0), measure, width);
    }

    /** `endDialogue`: closed, with no text or options; the NPC's UUID is kept. */
    method EndDialogue()
      modifies this`text, this`options, this`state
      ensures Valid() && state.None? && text.None? && options.None?
    {
      text := None;
      options := None;
      state := None;
    }

    /**
     * `onUpArrow`: scroll the text up, stopping at the top, or move the
     * option cursor up with wrap-around; a closed box ignores the key.
     */
    method OnUpArrow(measure: string -> real)
      requires Valid()
      modifies this`lineStart, this`currentlySelected, this`wrappedText
      ensures Valid()
      ensures old(state).None? ==>
        lineStart == old(lineStart) && currentlySelected == old(currentlySelected) && wrappedText == old(wrappedText)
      ensures old(state) == Some(TextState) ==>
        lineStart == ClampUp(old(lineStart)) && currentlySelected == old(currentlySelected) && wrappedText == old(wrappedText)
      ensures old(state) == Some(ChooseState) ==>
        lineStart == old(lineStart) && currentlySelected == WrapUp(old(currentlySelected), |options.value|) &&
        wrappedText == Wrap(OptionText(options.value, currentlySelected), measure, width)
    {
      if state == Some(TextState) {
        lineStart := lineStart - 1;
        if lineStart < 0 {
          lineStart := 0;
        }
      } else if state == Some(ChooseState) {
        currentlySelected := currentlySelected - 1;
        if currentlySelected < 0 {
          currentlySelected := currentlySelected + |options.value|;
        }
        wrappedText := WrapText(OptionText(options.value, currentlySelected), measure, width);
      }
    }

    /**
     * `onDownArrow`: scroll the text down, stopping at the last line, or
     * move the option cursor down with wrap-around; a closed box ignores the key.
     */
    method OnDownArrow(measure: string -> real)
      requires Valid()
      modifies this`lineStart, this`currentlySelected, this`wrappedText
      ensures Valid()
      ensures old(state).None? ==>
        lineStart == old(lineStart) && currentlySelected == old(currentlySelected) && wrappedText == old(wrappedText)
      ensures old(state) == Some(TextState) ==>
        lineStart == ClampDown(old(lineStart), |wrappedText| - 1) && lineStart <= |wrappedText| - 1 &&
        currentlySelected == old(currentlySelected) && wrappedText == old(wrappedText)
      ensures old(state) == Some(ChooseState) ==>
        lineStart == old(lineStart) && currentlySelected == WrapDown(old(currentlySelected), |options.value|) &&
        wrappedText == Wrap(OptionText(options.value, currentlySelected), measure, width)
    {
      if state == Some(TextState) {
        lineStart := lineStart + 1;
        if lineStart > |wrappedText| - 1 {
          lineStart := |wrappedText| - 1;
        }
      } else if state == Some(ChooseState) {
        currentlySelected := currentlySelected + 1;
        if currentlySelected >= |options.value| {
          currentlySelected := currentlySelected - |options.value|;
        }
        wrappedText := WrapText(OptionText(options.value, currentlySelected), measure, width);
      }
    }
  }
}
