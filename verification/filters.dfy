/**
 * The editor state that the key-binding filters read, and the filters
 * themselves as boolean expressions over it.  A filter is built at
 * registration time from primitive conditions combined with `&` and `~`; it
 * reads the state and changes nothing.
 */
module Filters {
  import opened Options
  import opened Documents

  /**
   * prompt_toolkit's vi state as the two filters `vi_insert_mode` and
   * `vi_navigation_mode` see it.  The two are never true together; `ViOther`
   * stands for every state in which neither holds (replace modes, a pending
   * operator, a selection).
   */
  datatype ViMode = ViNavigation | ViInsert | ViOther

  /** The buffer that has keyboard focus. */
  datatype Focus = EditorWindow | SearchBuffer | CommandBuffer

  /** The editor buffer shown in the active window (`editor.current_editor_buffer`). */
  datatype EditorBuffer = EditorBuffer(location: string, inFileExplorerMode: bool)

  /**
   * Everything a filter can look at: the vi mode, the focus, the text typed in
   * the command line, the current editor buffer if there is one, and the
   * document of the focused buffer (`get_app().current_buffer`).
   */
  datatype State = State(
    viMode: ViMode,
    focus: Focus,
    commandText: string,
    currentEditorBuffer: Option<EditorBuffer>,
    current: Document)

  /** Filter expressions: the primitive conditions and the `&` / `~` combinators. */
  datatype Filter =
    | Always
    | ViInsertMode
    | ViNavigationMode
    | HasFocus(target: Focus)
    | CommandTextEmpty
    | InFileExplorerMode
    | WhitespaceBeforeCursorOnLine
    | And(left: Filter, right: Filter)
    | Not(operand: Filter)

  /**
   * `whitespace_before_cursor_on_line`: the line before the cursor is empty,
   * or its LAST character is whitespace.  Nothing before that last character
   * is looked at.
   */
  predicate WhitespaceBeforeCursor(d: Document)
    ensures WhitespaceBeforeCursor(d) <==> d.cursor == 0 || IsSpace(d.text[d.cursor - 1])
  {
    var before := CurrentLineBeforeCursor(d);
    before == [] || IsSpace(before[|before| - 1])
  }

  /** `in_file_explorer_mode`: there is a current editor buffer and it shows a directory. */
  predicate InFileExplorer(s: State)
    ensures InFileExplorer(s) ==> s.currentEditorBuffer.Some?
    ensures s.currentEditorBuffer.Some? ==> (InFileExplorer(s) <==> s.currentEditorBuffer.value.inFileExplorerMode)
  {
    s.currentEditorBuffer.Some? && s.currentEditorBuffer.value.inFileExplorerMode
  }

  function Eval(f: Filter, s: State): bool {
    match f
    case Always => true
    case ViInsertMode => s.viMode == ViInsert
    case ViNavigationMode => s.viMode == ViNavigation
    case HasFocus(t) => s.focus == t
    case CommandTextEmpty => s.commandText == ""
    case InFileExplorerMode => InFileExplorer(s)
    case WhitespaceBeforeCursorOnLine => WhitespaceBeforeCursor(s.current)
    case And(l, r) => Eval(l, s) && Eval(r, s)
    case Not(g) => !Eval(g, s)
  }

  /** `vi_buffer_focussed`: neither the search buffer nor the command buffer has focus. */
  const ViBufferFocussed: Filter := And(Not(HasFocus(SearchBuffer)), Not(HasFocus(CommandBuffer)))

  /** `in_insert_mode`. */
  const InInsertMode: Filter := And(ViInsertMode, ViBufferFocussed)

  /** `in_navigation_mode`. */
  const InNavigationMode: Filter := And(ViNavigationMode, ViBufferFocussed)

  /** The filter of the `tab` binding: vi insert mode, not in the command line, whitespace before the cursor. */
  const TabFilter: Filter := And(And(ViInsertMode, Not(HasFocus(CommandBuffer))), WhitespaceBeforeCursorOnLine)

  /** The filter of the `backspace` binding: the command line has focus and is empty. */
  const BackspaceFilter: Filter := And(HasFocus(CommandBuffer), CommandTextEmpty)

  /** The vi buffer counts as focused exactly when the editor window has focus. */
  lemma ViBufferFocussedMeaning(s: State)
    ensures Eval(ViBufferFocussed, s) <==> s.focus == EditorWindow
    ensures Eval(InInsertMode, s) <==> s.viMode == ViInsert && s.focus == EditorWindow
    ensures Eval(InNavigationMode, s) <==> s.viMode == ViNavigation && s.focus == EditorWindow
  {
    assert Eval(Not(HasFocus(SearchBuffer)), s) <==> s.focus != SearchBuffer;
    assert Eval(Not(HasFocus(CommandBuffer)), s) <==> s.focus != CommandBuffer;
  }

  /** Insert-mode and navigation-mode bindings are never both enabled. */
  lemma ModesExclusive(s: State)
    ensures !(Eval(InInsertMode, s) && Eval(InNavigationMode, s))
    ensures !(Eval(TabFilter, s) && Eval(ViNavigationMode, s))
  {
    ViBufferFocussedMeaning(s);
    TabFilterMeaning(s);
  }

  /**
   * The `tab` filter, unlike `in_insert_mode`, lets the search buffer through:
   * with search focus it holds exactly when the mode is insert and there is
   * whitespace (or nothing) before the cursor.
   */
  lemma TabFilterMeaning(s: State)
    ensures Eval(TabFilter, s) <==> s.viMode == ViInsert && s.focus != CommandBuffer && WhitespaceBeforeCursor(s.current)
    ensures s.focus == SearchBuffer ==> !Eval(InInsertMode, s)
  {
    ViBufferFocussedMeaning(s);
    var insertOutsideCommand := And(ViInsertMode, Not(HasFocus(CommandBuffer)));
    assert Eval(Not(HasFocus(CommandBuffer)), s) <==> s.focus != CommandBuffer;
    assert Eval(insertOutsideCommand, s) <==> s.viMode == ViInsert && s.focus != CommandBuffer;
    assert Eval(TabFilter, s) <==> Eval(insertOutsideCommand, s) && Eval(WhitespaceBeforeCursorOnLine, s);
  }

  /** A line with only whitespace (or nothing) before the cursor passes the `tab` filter's whitespace test. */
  lemma {:induction false} AllSpaceBeforeCursor(d: Document)
    requires AllSpace(CurrentLineBeforeCursor(d))
    ensures WhitespaceBeforeCursor(d)
  {
    var before := CurrentLineBeforeCursor(d);
    if before != [] {
      assert IsSpace(before[|before| - 1]);
    }
  }

  /**
   * Only the last character before the cursor is examined: two documents
   * whose lines before the cursor are both empty, or end in the same
   * character, pass or fail the test together.
   */
  lemma WhitespaceOnlyLastChar(d: Document, e: Document)
    requires var a, b := CurrentLineBeforeCursor(d), CurrentLineBeforeCursor(e);
      (a == [] && b == []) || (a != [] && b != [] && a[|a| - 1] == b[|b| - 1])
    ensures WhitespaceBeforeCursor(d) == WhitespaceBeforeCursor(e)
  {
  }

  /** So a line like `x ` passes the test although not everything before the cursor is whitespace. */
  lemma WhitespaceNotWholePrefix()
    ensures var d: Document := Doc("x ", 2);
      WhitespaceBeforeCursor(d) && !AllSpace(CurrentLineBeforeCursor(d))
  {
    var d: Document := Doc("x ", 2);
    assert LineStart(d) == 0 by {
      assert d.text[1] == ' ' && d.text[0] == 'x';
      assert LineStartBefore(d.text, 1) == 0;
    }
    assert CurrentLineBeforeCursor(d) == "x " by {
      assert d.text[0..2] == "x ";
    }
    assert IsSpace(' ') && !IsSpace('x');
  }

  /** The file-explorer filter never holds without a current editor buffer, and reads nothing else. */
  lemma InFileExplorerMeaning(s: State, s': State)
    ensures s.currentEditorBuffer.None? ==> !Eval(InFileExplorerMode, s)
    ensures s.currentEditorBuffer == s'.currentEditorBuffer ==> Eval(InFileExplorerMode, s) == Eval(InFileExplorerMode, s')
  {
  }
}
