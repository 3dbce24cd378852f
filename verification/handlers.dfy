/**
 * The handlers attached to the editor's key bindings.  Each handler edits the
 * focused buffer, or calls out to code that is not modelled here (saving and
 * quitting, the window arrangement, the command line, prompt_toolkit's redo
 * and cursor motions, and the reconciliation with prompt_toolkit's layout).
 * Those outside calls are recorded, in order, in the editor's `calls` log.
 */
module Handlers {
  import opened Options
  import opened Documents
  import opened Buffers
  import opened Paths
  import opened Filters

  /** The handler a binding runs. */
  datatype Action =
    | WriteAndQuit
    | QuitDiscardingChanges
    | SuspendProcess
    | IgnoreTranspose
    | IndentLine
    | DedentLine
    | Redo
    | EnterCommandMode
    | AutocompleteOrIndent
    | LeaveCommandMode
    | FocusNextWindow
    | HorizontalSplit
    | VerticalSplit
    | FocusNextTab
    | FocusPreviousTab
    | ShowHelp
    | OpenPath
    | ToParentDirectory
    | ToNthLine

  /** A call a handler makes into code outside this model. */
  datatype Call =
    | WriteAndQuitCommand
    | QuitCommand(force: bool)
    | SuspendToBackground
    | BufferRedo
    | EnterCommandModeCall
    | LeaveCommandModeCall
    | CycleFocus
    | HSplit(splitLocation: Option<string>)
    | VSplit(splitLocation: Option<string>)
    | GoToNextTab
    | GoToPreviousTab
    | ShowHelpCall
    | OpenBuffer(path: string, showInCurrentWindow: bool)
    | AutoDown(count: nat, goToStartOfLineIfHistoryChanges: bool)
    | AutoUp(count: nat, goToStartOfLineIfHistoryChanges: bool)
    | SyncWithPromptToolkit

  /** The handlers that quit or change which windows, tabs or buffers are shown. */
  predicate ChangesTopology(a: Action) {
    match a
    case WriteAndQuit | QuitDiscardingChanges | FocusNextWindow | HorizontalSplit | VerticalSplit
      | FocusNextTab | FocusPreviousTab | OpenPath | ToParentDirectory => true
    case _ => false
  }

  /** One indentation unit: four spaces with `expand_tab`, otherwise a tab character. */
  function Indent(expandTab: bool): (s: string)
    ensures |s| == (if expandTab then 4 else 1)
    ensures AllSpace(s)
  {
    if expandTab then "    " else "\t"
  }

  /**
   * The document with `ind` inserted at offset `p` and the cursor moved right
   * by its width: `insert_text` at `p` followed by a cursor move back to where
   * it was, relative to the text.
   */
  function InsertBeforeCursor(d: Document, p: nat, ind: string): (r: Document)
    requires p <= |d.text|
    ensures |r.text| == |d.text| + |ind| && r.cursor == d.cursor + |ind|
    ensures r.text[p..p + |ind|] == ind
    ensures RemoveAt(r.text, p, |ind|) == d.text
    ensures d.cursor >= p ==> r.text[r.cursor..] == d.text[d.cursor..]
  {
    InsertShifts(d.text, p, ind, d.cursor);
    Doc(InsertAt(d.text, p, ind), d.cursor + |ind|)
  }

  /**
   * The document after `indent_line`: one indentation unit inserted at the
   * first non-whitespace column of the cursor's line, and the cursor moved
   * right by its width.
   */
  function IndentLineResult(d: Document, expandTab: bool): (r: Document)
    ensures var p, w := FirstNonBlank(d), |Indent(expandTab)|;
      && |r.text| == |d.text| + w
      && r.cursor == d.cursor + w
      && r.text[p..p + w] == Indent(expandTab)
      && RemoveAt(r.text, p, w) == d.text
      && (d.cursor >= p ==> r.text[r.cursor..] == d.text[d.cursor..])
      && (d.cursor < p ==> r.cursor < p + w)
  {
    InsertBeforeCursor(d, FirstNonBlank(d), Indent(expandTab))
  }

  /** The document after `autocomplete_or_indent`: one indentation unit inserted at the cursor. */
  function IndentAtCursorResult(d: Document, expandTab: bool): (r: Document)
    ensures var w := |Indent(expandTab)|;
      && |r.text| == |d.text| + w
      && r.cursor == d.cursor + w
      && r.text[d.cursor..r.cursor] == Indent(expandTab)
      && RemoveAt(r.text, d.cursor, w) == d.text
      && r.text[r.cursor..] == d.text[d.cursor..]
  {
    InsertBeforeCursor(d, d.cursor, Indent(expandTab))
  }

  /** How each handler changes the focused buffer's document. */
  function HandlerEdit(a: Action, d: Document, expandTab: bool): (r: Document)
    ensures a != IndentLine && a != AutocompleteOrIndent ==> r == d
    ensures a == IndentLine || a == AutocompleteOrIndent ==> |r.text| == |d.text| + |Indent(expandTab)|
  {
    match a
    case IndentLine => IndentLineResult(d, expandTab)
    case AutocompleteOrIndent => IndentAtCursorResult(d, expandTab)
    case _ => d
  }

  /** The row `G` aims at: the last row plus one with no count or a count of 1, otherwise the count minus one. */
  function NthLineTarget(d: Document, arg: int): (row: int)
    ensures arg == 1 ==> row == LineCount(d) && CursorRow(d) < row
    ensures arg != 1 ==> row + 1 == arg
  {
    CursorRowBelowLineCount(d);
    if arg == 1 then LineCount(d) else arg - 1
  }

  /** The signed number of rows `to_nth_line` moves. */
  function NthLineDelta(d: Document, arg: int): (delta: int)
    ensures CursorRow(d) + delta == NthLineTarget(d, arg)
    ensures arg == 1 ==> delta >= 1
  {
    CursorRowBelowLineCount(d);
    (if arg == 1 then LineCount(d) else arg - 1) - CursorRow(d)
  }

  /** The cursor motion `to_nth_line` requests: down for a positive delta, up for a negative one, none for zero. */
  function NthLineMotion(d: Document, arg: int): (r: seq<Call>)
    ensures |r| <= 1
    ensures r == [] <==> NthLineDelta(d, arg) == 0
    ensures |r| == 1 ==> (r[0].AutoDown? || r[0].AutoUp?) && r[0].count > 0 && r[0].goToStartOfLineIfHistoryChanges
  {
    var delta := NthLineDelta(d, arg);
    if delta > 0 then [AutoDown(delta, true)]
    else if delta < 0 then [AutoUp(-delta, true)]
    else []
  }

  /** The row reached from `row` by a requested motion, before any clamping to the document. */
  function RowAfter(row: int, motion: seq<Call>): int
    decreases |motion|
  {
    if motion == [] then row
    else if motion[0].AutoDown? then RowAfter(row + motion[0].count, motion[1..])
    else if motion[0].AutoUp? then RowAfter(row - motion[0].count, motion[1..])
    else RowAfter(row, motion[1..])
  }

  /** The motion `G` requests leads from the cursor's row to the target row. */
  lemma NthLineReachesTarget(d: Document, arg: int)
    ensures RowAfter(CursorRow(d), NthLineMotion(d, arg)) == NthLineTarget(d, arg)
  {
  }

  /** `G` with no count, and `1G`, always move down, to one row past the last row. */
  lemma NthLineWithoutCount(d: Document)
    ensures LineCount(d) - CursorRow(d) >= 1
    ensures NthLineMotion(d, 1) == [AutoDown(LineCount(d) - CursorRow(d), true)]
    ensures NthLineTarget(d, 1) == (LineCount(d) - 1) + 1
  {
    assert NthLineDelta(d, 1) >= 1;
  }

  /** The number of times `c` occurs in `calls`. */
  function Occurrences(calls: seq<Call>, c: Call): (n: nat)
    ensures n == 0 <==> c !in calls
  {
    if calls == [] then 0
    else (if calls[0] == c then 1 else 0) + Occurrences(calls[1..], c)
  }

  /** The one outside call a handler that changes topology makes before it synchronises. */
  function TopologyCall(a: Action, d: Document, explorer: Option<EditorBuffer>): (c: Call)
    requires ChangesTopology(a)
    requires a == OpenPath || a == ToParentDirectory ==> explorer.Some?
    ensures c != SyncWithPromptToolkit
    ensures a == OpenPath || a == ToParentDirectory <==> c.OpenBuffer?
    ensures c.OpenBuffer? ==> c.showInCurrentWindow
  {
    match a
    case WriteAndQuit => WriteAndQuitCommand
    case QuitDiscardingChanges => QuitCommand(true)
    case FocusNextWindow => CycleFocus
    case HorizontalSplit => HSplit(None)
    case VerticalSplit => VSplit(None)
    case FocusNextTab => GoToNextTab
    case FocusPreviousTab => GoToPreviousTab
    case OpenPath => OpenBuffer(NormPath(Join(explorer.value.location, CurrentLine(d))), true)
    case ToParentDirectory => OpenBuffer(NormPath(Join(explorer.value.location, "..")), true)
  }

  /** The outside calls of a handler that leaves the topology alone; none of them synchronises. */
  function LocalCalls(a: Action, d: Document, arg: int): (r: seq<Call>)
    requires !ChangesTopology(a)
    ensures SyncWithPromptToolkit !in r
    ensures a in {IgnoreTranspose, IndentLine, DedentLine, AutocompleteOrIndent} ==> r == []
    ensures a in {SuspendProcess, Redo, EnterCommandMode, LeaveCommandMode, ShowHelp} ==> |r| == 1
  {
    match a
    case SuspendProcess => [SuspendToBackground]
    case IgnoreTranspose => []
    case IndentLine => []
    case DedentLine => []
    case Redo => [BufferRedo]
    case EnterCommandMode => [EnterCommandModeCall]
    case AutocompleteOrIndent => []
    case LeaveCommandMode => [LeaveCommandModeCall]
    case ShowHelp => [ShowHelpCall]
    case ToNthLine => NthLineMotion(d, arg)
  }

  /**
   * The outside calls each handler makes, in order.  A handler that quits or
   * changes the window arrangement makes its one call and then synchronises
   * with prompt_toolkit exactly once, as its last step; no other handler
   * synchronises.
   */
  function HandlerCalls(a: Action, d: Document, explorer: Option<EditorBuffer>, arg: int): (r: seq<Call>)
    requires a == OpenPath || a == ToParentDirectory ==> explorer.Some?
    ensures ChangesTopology(a) ==>
      |r| == 2 && r[0] != SyncWithPromptToolkit && r[1] == SyncWithPromptToolkit
      && Occurrences(r, SyncWithPromptToolkit) == 1
    ensures !ChangesTopology(a) ==> SyncWithPromptToolkit !in r
    ensures a in {IgnoreTranspose, IndentLine, DedentLine, AutocompleteOrIndent} ==> r == []
    ensures a in {SuspendProcess, Redo, EnterCommandMode, LeaveCommandMode, ShowHelp} ==> |r| == 1
    ensures a == OpenPath || a == ToParentDirectory ==> r[0].OpenBuffer? && r[0].showInCurrentWindow
  {
    if ChangesTopology(a) then
      var r := [TopologyCall(a, d, explorer), SyncWithPromptToolkit];
      assert Occurrences(r[1..], SyncWithPromptToolkit) == 1;
      r
    else LocalCalls(a, d, arg)
  }

  /** The two no-op handlers (`c-t` without a filter, and `dedent_line`) change nothing and call nothing. */
  lemma NoOpHandlers(a: Action, d: Document, explorer: Option<EditorBuffer>, arg: int, expandTab: bool)
    requires a == IgnoreTranspose || a == DedentLine
    ensures HandlerEdit(a, d, expandTab) == d
    ensures HandlerCalls(a, d, explorer, arg) == []
  {
  }

  /** From an absolute directory, both file-explorer handlers open a clean absolute path in the current window. */
  lemma ExplorerTargetsAbsolute(a: Action, d: Document, e: EditorBuffer, arg: int)
    requires a == OpenPath || a == ToParentDirectory
    requires |e.location| > 0 && e.location[0] == '/'
    ensures var c := HandlerCalls(a, d, Some(e), arg)[0];
      c.OpenBuffer? && c.showInCurrentWindow && c.path[0] == '/' && CleanAbsolute(c.path)
  {
    var name := if a == OpenPath then CurrentLine(d) else "..";
    assert HandlerCalls(a, d, Some(e), arg)[0] == OpenBuffer(NormPath(Join(e.location, name)), true) by {
      assert ChangesTopology(a);
    }
    assert Join(e.location, name)[0] == '/';
    NormPathAbsolute(Join(e.location, name));
  }

  /**
   * From a clean absolute directory, `enter` on a plain name opens that name
   * inside it, and `-` opens its parent (the root stays the root).
   */
  lemma ExplorerTargets(segs: seq<string>, d: Document, arg: int)
    requires Normalised(segs, true)
    ensures var e := Some(EditorBuffer(Absolute(segs), true));
      HandlerCalls(ToParentDirectory, d, e, arg)[0].path
        == Absolute(if segs == [] then [] else segs[..|segs| - 1])
    ensures var e := Some(EditorBuffer(Absolute(segs), true));
      Name(CurrentLine(d)) && CurrentLine(d) != ".." ==>
        HandlerCalls(OpenPath, d, e, arg)[0].path == Absolute(segs + [CurrentLine(d)])
  {
    var e := Some(EditorBuffer(Absolute(segs), true));
    assert HandlerCalls(ToParentDirectory, d, e, arg)[0].path == NormPath(Join(Absolute(segs), "..")) by {
      assert ChangesTopology(ToParentDirectory);
    }
    ParentDirectory(segs);
    var name := CurrentLine(d);
    assert HandlerCalls(OpenPath, d, e, arg)[0].path == NormPath(Join(Absolute(segs), name)) by {
      assert ChangesTopology(OpenPath);
    }
    if Name(name) && name != ".." {
      ChildDirectory(segs, name);
    }
  }


  /**
   * The editor as the handlers see it: the `expand_tab` option, the current
   * editor buffer, and the log of outside calls made so far.
   */
  class Editor {
    const expandTab: bool
    const currentEditorBuffer: Option<EditorBuffer>
    var calls: seq<Call>

    constructor (expandTab: bool, currentEditorBuffer: Option<EditorBuffer>)
      ensures this.expandTab == expandTab && this.currentEditorBuffer == currentEditorBuffer
      ensures calls == []
    {
      this.expandTab := expandTab;
      this.currentEditorBuffer := currentEditorBuffer;
      calls := [];
    }

    /** `Z Z`: write and quit, then synchronise. */
    method WriteAndQuit()
      modifies this`calls
      ensures calls == old(calls) + [WriteAndQuitCommand, SyncWithPromptToolkit]
    {
      calls := calls + [WriteAndQuitCommand];
      calls := calls + [SyncWithPromptToolkit];
    }

    /** `Z Q`: quit discarding changes, then synchronise. */
    method QuitDiscardingChanges()
      modifies this`calls
      ensures calls == old(calls) + [QuitCommand(true), SyncWithPromptToolkit]
    {
      calls := calls + [QuitCommand(true)];
      calls := calls + [SyncWithPromptToolkit];
    }

    /** `c-z`: suspend the process to the background. */
    method SuspendProcess()
      modifies this`calls
      ensures calls == old(calls) + [SuspendToBackground]
    {
      calls := calls + [SuspendToBackground];
    }

    /** `c-t` without a filter: overrides readline's transpose with nothing. */
    method IgnoreTranspose()
    {
    }

    /**
     * `c-t` in insert mode: jump to the first non-whitespace column of the
     * line, insert one indentation unit, and jump back by the same distance.
     * The cursor setter clamps, but neither assignment here is ever clamped.
     */
    method IndentLine(b: Buffer)
      requires b.Valid()
      modifies b
      ensures b.Valid()
      ensures b.Doc() == IndentLineResult(old(b.Doc()), expandTab)
    {
      ghost var d := b.Doc();
      ghost var p, ind := FirstNonBlank(d), Indent(expandTab);
      var pos := StartOfLinePositionAfterWhitespace(b.Doc());
      b.SetCursorPosition(b.cursorPosition + pos);
      assert b.text == d.text && b.cursorPosition == p;
      if expandTab {
        b.InsertText("    ");
      } else {
        b.InsertText("\t");
      }
      assert b.text == InsertAt(d.text, p, ind) && b.cursorPosition == p + |ind|;
      b.SetCursorPosition(b.cursorPosition - pos);
      assert b.Doc() == InsertBeforeCursor(d, p, ind);
    }

    /** `c-d` in insert mode: not implemented, does nothing. */
    method DedentLine(b: Buffer)
    {
    }

    /** `c-r`: redo in the focused buffer. */
    method Redo()
      modifies this`calls
      ensures calls == old(calls) + [BufferRedo]
    {
      calls := calls + [BufferRedo];
    }

    /** `:`: enter command mode. */
    method EnterCommandMode()
      modifies this`calls
      ensures calls == old(calls) + [EnterCommandModeCall]
    {
      calls := calls + [EnterCommandModeCall];
    }

    /** `tab` with whitespace before the cursor: insert one indentation unit at the cursor. */
    method AutocompleteOrIndent(b: Buffer)
      requires b.Valid()
      modifies b
      ensures b.Valid()
      ensures b.Doc() == IndentAtCursorResult(old(b.Doc()), expandTab)
    {
      if expandTab {
        b.InsertText("    ");
      } else {
        b.InsertText("\t");
      }
    }

    /** `escape`, `c-c`, or `backspace` on an empty command line: leave command mode. */
    method LeaveCommandMode()
      modifies this`calls
      ensures calls == old(calls) + [LeaveCommandModeCall]
    {
      calls := calls + [LeaveCommandModeCall];
    }

    /** `c-w c-w`. */
    method FocusNextWindow()
      modifies this`calls
      ensures calls == old(calls) + [CycleFocus, SyncWithPromptToolkit]
    {
      calls := calls + [CycleFocus];
      calls := calls + [SyncWithPromptToolkit];
    }

    /** `c-w n`. */
    method HorizontalSplit()
      modifies this`calls
      ensures calls == old(calls) + [HSplit(None), SyncWithPromptToolkit]
    {
      calls := calls + [HSplit(None)];
      calls := calls + [SyncWithPromptToolkit];
    }

    /** `c-w v`. */
    method VerticalSplit()
      modifies this`calls
      ensures calls == old(calls) + [VSplit(None), SyncWithPromptToolkit]
    {
      calls := calls + [VSplit(None)];
      calls := calls + [SyncWithPromptToolkit];
    }

    /** `g t`. */
    method FocusNextTab()
      modifies this`calls
      ensures calls == old(calls) + [GoToNextTab, SyncWithPromptToolkit]
    {
      calls := calls + [GoToNextTab];
      calls := calls + [SyncWithPromptToolkit];
    }

    /** `g T`. */
    method FocusPreviousTab()
      modifies this`calls
      ensures calls == old(calls) + [GoToPreviousTab, SyncWithPromptToolkit]
    {
      calls := calls + [GoToPreviousTab];
      calls := calls + [SyncWithPromptToolkit];
    }

    /** `f1`. */
    method ShowHelp()
      modifies this`calls
      ensures calls == old(calls) + [ShowHelpCall]
    {
      calls := calls + [ShowHelpCall];
    }

    /** `enter` in a file explorer: open the path named by the line under the cursor. */
    method OpenPath(b: Buffer)
      requires b.Valid() && currentEditorBuffer.Some?
      modifies this`calls
      ensures calls == old(calls)
        + [OpenBuffer(NormPath(Join(currentEditorBuffer.value.location, CurrentLine(b.Doc()))), true),
           SyncWithPromptToolkit]
    {
      var nameUnderCursor := CurrentLine(b.Doc());
      var newPath := NormPath(Join(currentEditorBuffer.value.location, nameUnderCursor));
      calls := calls + [OpenBuffer(newPath, true), SyncWithPromptToolkit];
    }

    /** `-` in a file explorer: open the parent directory. */
    method ToParentDirectory()
      requires currentEditorBuffer.Some?
      modifies this`calls
      ensures calls == old(calls)
        + [OpenBuffer(NormPath(Join(currentEditorBuffer.value.location, "..")), true), SyncWithPromptToolkit]
    {
      var newPath := NormPath(Join(currentEditorBuffer.value.location, ".."));
      calls := calls + [OpenBuffer(newPath, true), SyncWithPromptToolkit];
    }

    /** `G`, with the repeat count `arg` (1 when none was typed). */
    method ToNthLine(b: Buffer, arg: int)
      requires b.Valid()
      modifies this`calls
      ensures calls == old(calls) + NthLineMotion(b.Doc(), arg)
    {
      var d := b.Doc();
      var count := (if arg == 1 then LineCount(d) else arg - 1) - CursorRow(d);
      if count > 0 {
        calls := calls + [AutoDown(count, true)];
      } else if count < 0 {
        calls := calls + [AutoUp(-count, true)];
      }
    }

    /** Runs the handler a binding is attached to. */
    method Handle(a: Action, b: Buffer, arg: int)
      requires b.Valid()
      requires a == Action.OpenPath || a == Action.ToParentDirectory ==> currentEditorBuffer.Some?
      modifies this`calls, b
      ensures b.Valid()
      ensures b.Doc() == HandlerEdit(a, old(b.Doc()), expandTab)
      ensures calls == old(calls) + HandlerCalls(a, old(b.Doc()), currentEditorBuffer, arg)
    {
      if ChangesTopology(a) {
        HandleTopology(a, b);
      } else if a == Action.IndentLine {
        IndentLine(b);
      } else if a == Action.AutocompleteOrIndent {
        AutocompleteOrIndent(b);
      } else {
        HandleLocal(a, b, arg);
      }
    }

    /** Runs a handler that quits or changes the window arrangement. */
    method HandleTopology(a: Action, b: Buffer)
      requires b.Valid() && ChangesTopology(a)
      requires a == Action.OpenPath || a == Action.ToParentDirectory ==> currentEditorBuffer.Some?
      modifies this`calls
      ensures calls == old(calls) + [TopologyCall(a, b.Doc(), currentEditorBuffer), SyncWithPromptToolkit]
    {
      match a
      case WriteAndQuit => WriteAndQuit();
      case QuitDiscardingChanges => QuitDiscardingChanges();
      case FocusNextWindow => FocusNextWindow();
      case HorizontalSplit => HorizontalSplit();
      case VerticalSplit => VerticalSplit();
      case FocusNextTab => FocusNextTab();
      case FocusPreviousTab => FocusPreviousTab();
      case OpenPath => OpenPath(b);
      case ToParentDirectory => ToParentDirectory();
    }

    /** Runs a handler that neither edits the focused buffer nor changes the topology. */
    method HandleLocal(a: Action, b: Buffer, arg: int)
      requires b.Valid() && !ChangesTopology(a) && a != Action.IndentLine && a != Action.AutocompleteOrIndent
      modifies this`calls
      ensures calls == old(calls) + LocalCalls(a, b.Doc(), arg)
    {
      match a
      case SuspendProcess => SuspendProcess();
      case IgnoreTranspose => IgnoreTranspose();
      case DedentLine => DedentLine(b);
      case Redo => Redo();
      case EnterCommandMode => EnterCommandMode();
      case LeaveCommandMode => LeaveCommandMode();
      case ShowHelp => ShowHelp();
      case ToNthLine => ToNthLine(b, arg);
    }
  }
}
