/**
 * The drawing-tool toolbar of the canvas room: the seven tools with their
 * keyboard shortcuts, the shortcut lookup done on a key press, the cursor
 * shown for each tool, and the selected-tool state.
 */
module Toolbar {
  import opened Wrappers
  import opened JsStrings

  /** The tool identifiers of the source's `TSelectedTool` union. */
  datatype Tool = Select | Rect | Circle | Line | Arrow | Pencil | Eraser

  /** One entry of the `tools` table: its id, its label (caption) and its shortcut letter. */
  datatype ToolEntry = ToolEntry(id: Tool, caption: string, shortcut: string)

  /** The `tools` table, in display order. */
  const Tools: seq<ToolEntry> := [
    ToolEntry(Select, "Select", "V"),
    ToolEntry(Rect, "Rectangle", "R"),
    ToolEntry(Circle, "Circle", "O"),
    ToolEntry(Line, "Line", "L"),
    ToolEntry(Arrow, "Arrow", "A"),
    ToolEntry(Pencil, "Pencil", "P"),
    ToolEntry(Eraser, "Eraser", "E")
  ]

  /** The tool selected when the room is first shown. */
  const InitialTool: Tool := Rect

  /** The shortcut letter listed for tool `t`. */
  function ShortcutOf(t: Tool): (r: string)
    ensures exists i :: 0 <= i < |Tools| && Tools[i].id == t && Tools[i].shortcut == r
  {
    match t
    case Select => assert Tools[0].id == t; "V"
    case Rect => assert Tools[1].id == t; "R"
    case Circle => assert Tools[2].id == t; "O"
    case Line => assert Tools[3].id == t; "L"
    case Arrow => assert Tools[4].id == t; "A"
    case Pencil => assert Tools[5].id == t; "P"
    case Eraser => assert Tools[6].id == t; "E"
  }

  /** `tools.find(t => t.shortcut === key)`: the first entry of `table` with that shortcut. */
  function Find(table: seq<ToolEntry>, key: string): (r: Option<ToolEntry>)
    ensures r.Some? ==> r.value in table && r.value.shortcut == key
    ensures r.None? ==> forall i :: 0 <= i < |table| ==> table[i].shortcut != key
    decreases |table|
  {
    if table == [] then None
    else if table[0].shortcut == key then Some(table[0])
    else Find(table[1..], key)
  }

  /** The seven tools have pairwise distinct shortcuts and pairwise distinct ids. */
  lemma ShortcutsDistinct()
    ensures forall i, j :: 0 <= i < j < |Tools| ==> Tools[i].shortcut != Tools[j].shortcut
    ensures forall i, j :: 0 <= i < j < |Tools| ==> Tools[i].id != Tools[j].id
  {
  }

  /** The shortcut lookup finds tool `t` exactly for `t`'s own shortcut letter. */
  lemma {:induction false} FindShortcut(key: string, t: Tool)
    ensures Find(Tools, key) == Some(ToolEntry(t, LabelOf(t), ShortcutOf(t))) <==> key == ShortcutOf(t)
  {
    if key == ShortcutOf(t) {
      var i :| 0 <= i < |Tools| && Tools[i].id == t && Tools[i].shortcut == key;
      assert Find(Tools, key).Some?;
      var e := Find(Tools, key).value;
      EntryShortcut(e);
      assert e.id == t by {
        match e.id
        case Select =>
        case Rect =>
        case Circle =>
        case Line =>
        case Arrow =>
        case Pencil =>
        case Eraser =>
      }
    }
  }

  /** Every entry of the table lists its own tool's shortcut. */
  lemma EntryShortcut(e: ToolEntry)
    requires e in Tools
    ensures e == ToolEntry(e.id, LabelOf(e.id), ShortcutOf(e.id))
  {
    var i :| 0 <= i < |Tools| && Tools[i] == e;
    assert i in {0, 1, 2, 3, 4, 5, 6};
  }

  /** The label listed for tool `t`. */
  function LabelOf(t: Tool): string {
    match t
    case Select => "Select"
    case Rect => "Rectangle"
    case Circle => "Circle"
    case Line => "Line"
    case Arrow => "Arrow"
    case Pencil => "Pencil"
    case Eraser => "Eraser"
  }

  /**
   * The tool selected after a key press: presses aimed at a text input are
   * ignored; otherwise the upper-cased key is looked up among the shortcuts
   * and an unknown key keeps the current tool.
   */
  function AfterKey(selected: Tool, key: string, targetIsInput: bool): (r: Tool)
    ensures targetIsInput ==> r == selected
    ensures !targetIsInput && Find(Tools, ToUpper(key)).None? ==> r == selected
    ensures r != selected ==> ShortcutOf(r) == ToUpper(key)
  {
    if targetIsInput then selected
    else
      match Find(Tools, ToUpper(key))
      case Some(entry) =>
        EntryShortcut(entry);
        entry.id
      case None => selected
  }

  /** Pressing a tool's shortcut, in either case, selects that tool outside a text input. */
  lemma KeySelectsTool(selected: Tool, t: Tool, lowerCase: bool)
    ensures AfterKey(selected, if lowerCase then [(ShortcutOf(t)[0] as int + 32) as char] else ShortcutOf(t), false) == t
  {
    var key: string := if lowerCase then [(ShortcutOf(t)[0] as int + 32) as char] else ShortcutOf(t);
    assert ToUpper(key) == ShortcutOf(t);
    FindShortcut(ShortcutOf(t), t);
    var e := Find(Tools, ShortcutOf(t)).value;
    FindShortcut(ShortcutOf(t), e.id);
  }

  /** The canvas cursor for the selected tool. */
  function Cursor(t: Tool): (r: string)
    ensures r == "default" <==> t == Select
    ensures r == "cell" <==> t == Eraser
    ensures r == "crosshair" <==> t != Select && t != Eraser
  {
    match t
    case Select => "default"
    case Eraser => "cell"
    case _ => "crosshair"
  }

  /** The toolbar's selected-tool state, changed by key presses and button clicks. */
  class ToolSelection {
    var selected: Tool

    constructor ()
      ensures selected == InitialTool
    {
      selected := InitialTool;
    }

    /** `handleKeyDown`. */
    method KeyDown(key: string, targetIsInput: bool)
      modifies this
      ensures selected == AfterKey(old(selected), key, targetIsInput)
    {
      if targetIsInput {
        return;
      }
      var upper := ToUpper(key);
      var tool := Find(Tools, upper);
      if tool.Some? {
        selected := tool.value.id;
      }
    }

    /** Clicking a tool's toolbar button. */
    method Click(t: Tool)
      modifies this
      ensures selected == t
    {
      selected := t;
    }
  }
}
