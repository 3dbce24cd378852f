/**
 * The editor's own key-binding table: each binding pairs a key sequence with
 * a filter over the editor state and the handler it runs, in registration
 * order.  Which of several enabled bindings for the same keys runs is decided
 * by prompt_toolkit's key processor; this model assumes the last registered
 * enabled binding wins.
 */
module Bindings {
  import opened Options
  import opened Filters
  import opened Handlers

  /** The keys the table mentions. */
  datatype Key = Char(c: char) | Control(letter: char) | Escape | Tab | Backspace | Enter | F1

  /**
   * One registration: the key sequence, its filter, its handler, and whether
   * the buffer's undo state is saved before the handler runs (prompt_toolkit's
   * `save_before`, true unless the registration says otherwise).
   */
  datatype Binding = Binding(keys: seq<Key>, filter: Filter, action: Action, saveBefore: bool)

  /** The registry `create_key_bindings` fills. */
  class KeyBindings {
    var bindings: seq<Binding>

    constructor ()
      ensures bindings == []
    {
      bindings := [];
    }

    /** `kb.add(*keys, filter=..., save_before=...)` applied to a handler: appends one binding. */
    method Add(keys: seq<Key>, filter: Filter, action: Action, saveBefore: bool)
      modifies this
      ensures bindings == old(bindings) + [Binding(keys, filter, action, saveBefore)]
    {
      bindings := bindings + [Binding(keys, filter, action, saveBefore)];
    }
  }

  /** Quitting and suspending (`ZZ`, `ZQ`, `c-z`). */
  function SessionBindings(): seq<Binding> {
    [ Binding([Char('Z'), Char('Z')], InNavigationMode, WriteAndQuit, true),
      Binding([Char('Z'), Char('Q')], InNavigationMode, QuitDiscardingChanges, true),
      Binding([Control('z')], InNavigationMode, SuspendProcess, true) ]
  }

  /**
   * Editing and the command line.  The three stacked decorators for leaving
   * command mode apply from the bottom up, so `backspace` is registered
   * before `c-c`, and `c-c` before `escape`.
   */
  function EditingBindings(): seq<Binding> {
    [ Binding([Control('t')], Always, IgnoreTranspose, true),
      Binding([Control('t')], InInsertMode, IndentLine, true),
      Binding([Control('d')], InInsertMode, DedentLine, true),
      Binding([Control('r')], InNavigationMode, Redo, false),
      Binding([Char(':')], InNavigationMode, EnterCommandMode, true),
      Binding([Tab], TabFilter, AutocompleteOrIndent, true),
      Binding([Backspace], BackspaceFilter, LeaveCommandMode, true),
      Binding([Control('c')], HasFocus(CommandBuffer), LeaveCommandMode, true),
      Binding([Escape], HasFocus(CommandBuffer), LeaveCommandMode, true) ]
  }

  /** Windows, tabs and help. */
  function WindowBindings(): seq<Binding> {
    [ Binding([Control('w'), Control('w')], InNavigationMode, FocusNextWindow, true),
      Binding([Control('w'), Char('n')], InNavigationMode, HorizontalSplit, true),
      Binding([Control('w'), Char('v')], InNavigationMode, VerticalSplit, true),
      Binding([Char('g'), Char('t')], InNavigationMode, FocusNextTab, true),
      Binding([Char('g'), Char('T')], InNavigationMode, FocusPreviousTab, true),
      Binding([F1], Always, ShowHelp, true) ]
  }

  /** The file explorer and `G`. */
  function NavigationBindings(): seq<Binding> {
    [ Binding([Enter], InFileExplorerMode, OpenPath, true),
      Binding([Char('-')], InFileExplorerMode, ToParentDirectory, true),
      Binding([Char('G')], ViNavigationMode, ToNthLine, true) ]
  }

  /** The 21 registrations in the order they happen. */
  function Table(): (t: seq<Binding>)
    ensures |t| == 21
    ensures forall k :: 0 <= k < |t| ==> 1 <= |t[k].keys| <= 2
  {
    SessionBindings() + EditingBindings() + WindowBindings() + NavigationBindings()
  }

  /** `create_key_bindings`: a fresh registry holding exactly the table, in order. */
  method CreateKeyBindings() returns (kb: KeyBindings)
    ensures fresh(kb)
    ensures kb.bindings == Table()
  {
    kb := new KeyBindings();
    AddSession(kb);
    AddEditing(kb);
    AddWindows(kb);
    AddNavigation(kb);
  }

  /** Registers the quit and suspend bindings, in source order. */
  method AddSession(kb: KeyBindings)
    modifies kb
    ensures kb.bindings == old(kb.bindings) + SessionBindings()
  {
    kb.Add([Char('Z'), Char('Z')], InNavigationMode, WriteAndQuit, true);
    kb.Add([Char('Z'), Char('Q')], InNavigationMode, QuitDiscardingChanges, true);
    kb.Add([Control('z')], InNavigationMode, SuspendProcess, true);
  }

  /** Registers the editing and command-line bindings, in source order. */
  method AddEditing(kb: KeyBindings)
    modifies kb
    ensures kb.bindings == old(kb.bindings) + EditingBindings()
  {
    kb.Add([Control('t')], Always, IgnoreTranspose, true);
    kb.Add([Control('t')], InInsertMode, IndentLine, true);
    kb.Add([Control('d')], InInsertMode, DedentLine, true);
    kb.Add([Control('r')], InNavigationMode, Redo, false);
    kb.Add([Char(':')], InNavigationMode, EnterCommandMode, true);
    kb.Add([Tab], TabFilter, AutocompleteOrIndent, true);
    kb.Add([Backspace], BackspaceFilter, LeaveCommandMode, true);
    kb.Add([Control('c')], HasFocus(CommandBuffer), LeaveCommandMode, true);
    kb.Add([Escape], HasFocus(CommandBuffer), LeaveCommandMode, true);
  }

  /** Registers the window, tab and help bindings, in source order. */
  method AddWindows(kb: KeyBindings)
    modifies kb
    ensures kb.bindings == old(kb.bindings) + WindowBindings()
  {
    kb.Add([Control('w'), Control('w')], InNavigationMode, FocusNextWindow, true);
    kb.Add([Control('w'), Char('n')], InNavigationMode, HorizontalSplit, true);
    kb.Add([Control('w'), Char('v')], InNavigationMode, VerticalSplit, true);
    kb.Add([Char('g'), Char('t')], InNavigationMode, FocusNextTab, true);
    kb.Add([Char('g'), Char('T')], InNavigationMode, FocusPreviousTab, true);
    kb.Add([F1], Always, ShowHelp, true);
  }

  /** Registers the file-explorer bindings and `G`, in source order. */
  method AddNavigation(kb: KeyBindings)
    modifies kb
    ensures kb.bindings == old(kb.bindings) + NavigationBindings()
  {
    kb.Add([Enter], InFileExplorerMode, OpenPath, true);
    kb.Add([Char('-')], InFileExplorerMode, ToParentDirectory, true);
    kb.Add([Char('G')], ViNavigationMode, ToNthLine, true);
  }

  /** Binding `i` of `t` is for exactly `keys` and its filter holds in `s`. */
  predicate EnabledAt(t: seq<Binding>, i: nat, keys: seq<Key>, s: State) {
    i < |t| && t[i].keys == keys && Eval(t[i].filter, s)
  }

  /** The last of the first `n` bindings of `t` that is enabled for `keys` in `s`, if any. */
  function LastEnabled(t: seq<Binding>, keys: seq<Key>, s: State, n: nat): (r: Option<nat>)
    requires n <= |t|
    ensures r.Some? ==> r.value < n && EnabledAt(t, r.value, keys, s)
    ensures r.Some? ==> forall j :: r.value < j < n ==> !EnabledAt(t, j, keys, s)
    ensures r.None? ==> forall j :: 0 <= j < n ==> !EnabledAt(t, j, keys, s)
  {
    if n == 0 then None
    else if EnabledAt(t, n - 1, keys, s) then Some(n - 1)
    else LastEnabled(t, keys, s, n - 1)
  }

  /** The handler that runs for a complete key sequence: the last registered enabled binding's, if any. */
  function Dispatch(t: seq<Binding>, keys: seq<Key>, s: State): (r: Option<Action>)
    ensures r.Some? <==> exists i :: 0 <= i < |t| && EnabledAt(t, i, keys, s)
    ensures r.Some? ==> exists i ::
      && 0 <= i < |t| && EnabledAt(t, i, keys, s) && r.value == t[i].action
      && forall j :: i < j < |t| ==> !EnabledAt(t, j, keys, s)
  {
    match LastEnabled(t, keys, s, |t|)
    case None => None
    case Some(i) => Some(t[i].action)
  }

  /** When exactly one binding of `t` is for `keys`, that binding's filter alone decides. */
  lemma DispatchSingle(t: seq<Binding>, keys: seq<Key>, s: State, i: nat)
    requires i < |t| && t[i].keys == keys
    requires forall j :: 0 <= j < |t| && j != i ==> t[j].keys != keys
    ensures Dispatch(t, keys, s) == if Eval(t[i].filter, s) then Some(t[i].action) else None
  {
    if Eval(t[i].filter, s) {
      assert EnabledAt(t, i, keys, s);
    }
  }

  /** When two bindings of `t` are for `keys`, the later one wins whenever its filter holds. */
  lemma DispatchPair(t: seq<Binding>, keys: seq<Key>, s: State, i: nat, k: nat)
    requires i < k < |t| && t[i].keys == keys && t[k].keys == keys
    requires forall j :: 0 <= j < |t| && j != i && j != k ==> t[j].keys != keys
    ensures Dispatch(t, keys, s) ==
      if Eval(t[k].filter, s) then Some(t[k].action)
      else if Eval(t[i].filter, s) then Some(t[i].action)
      else None
  {
    if Eval(t[k].filter, s) {
      assert EnabledAt(t, k, keys, s);
    } else if Eval(t[i].filter, s) {
      assert EnabledAt(t, i, keys, s);
    }
  }

  /** Every key sequence in the table is registered once, except `c-t`, which is registered twice. */
  lemma TableKeysDistinct()
    ensures |Table()| == 21
    ensures forall i, j :: 0 <= i < j < |Table()| && Table()[i].keys == Table()[j].keys ==> i == 3 && j == 4
    ensures Table()[3].keys == Table()[4].keys == [Control('t')]
  {
  }

  /** The key sequence of any binding other than the two for `c-t` belongs to that binding alone. */
  lemma UniqueKeys(i: nat)
    requires i < |Table()| && i != 3 && i != 4
    ensures forall j :: 0 <= j < |Table()| && j != i ==> Table()[j].keys != Table()[i].keys
  {
    TableKeysDistinct();
  }

  /** `escape` and `c-c` leave command mode exactly when the command line has focus; `backspace` only when it is also empty. */
  lemma {:induction false} CommandLineKeys(s: State)
    ensures Dispatch(Table(), [Escape], s) == if s.focus == CommandBuffer then Some(LeaveCommandMode) else None
    ensures Dispatch(Table(), [Control('c')], s) == if s.focus == CommandBuffer then Some(LeaveCommandMode) else None
    ensures Dispatch(Table(), [Backspace], s) ==
      if s.focus == CommandBuffer && s.commandText == "" then Some(LeaveCommandMode) else None
  {
    assert Eval(BackspaceFilter, s) <==> s.focus == CommandBuffer && s.commandText == "";
    assert Dispatch(Table(), [Backspace], s) == if Eval(BackspaceFilter, s) then Some(LeaveCommandMode) else None by {
      UniqueKeys(9);
      DispatchSingle(Table(), [Backspace], s, 9);
    }
    assert Dispatch(Table(), [Control('c')], s) == if s.focus == CommandBuffer then Some(LeaveCommandMode) else None by {
      UniqueKeys(10);
      DispatchSingle(Table(), [Control('c')], s, 10);
    }
    UniqueKeys(11);
    DispatchSingle(Table(), [Escape], s, 11);
  }

  /**
   * `c-t` always does something: it indents the line in insert mode with the
   * editor focused, and is swallowed everywhere else (no binding of this table
   * transposes).
   */
  lemma {:induction false} ControlTKey(s: State)
    ensures Dispatch(Table(), [Control('t')], s) ==
      Some(if s.viMode == ViInsert && s.focus == EditorWindow then IndentLine else IgnoreTranspose)
  {
    TableKeysDistinct();
    DispatchPair(Table(), [Control('t')], s, 3, 4);
    ViBufferFocussedMeaning(s);
  }

  /** `c-d` dedents exactly in insert mode with the editor focused. */
  lemma {:induction false} ControlDKey(s: State)
    ensures Dispatch(Table(), [Control('d')], s) ==
      if s.viMode == ViInsert && s.focus == EditorWindow then Some(DedentLine) else None
  {
    UniqueKeys(5);
    DispatchSingle(Table(), [Control('d')], s, 5);
    ViBufferFocussedMeaning(s);
  }

  /**
   * `tab` is handled in insert mode outside the command line, the search line
   * included, when the line before the cursor is empty or ends in whitespace.
   */
  lemma {:induction false} TabKey(s: State)
    ensures Dispatch(Table(), [Tab], s) ==
      if s.viMode == ViInsert && s.focus != CommandBuffer && WhitespaceBeforeCursor(s.current)
      then Some(AutocompleteOrIndent) else None
  {
    UniqueKeys(8);
    DispatchSingle(Table(), [Tab], s, 8);
    TabFilterMeaning(s);
  }

  /** Every binding filtered by `in_navigation_mode` runs exactly in navigation mode with the editor focused. */
  lemma {:induction false} NavigationModeKeys(i: nat, s: State)
    requires i < |Table()| && Table()[i].filter == InNavigationMode
    ensures Dispatch(Table(), Table()[i].keys, s) ==
      if s.viMode == ViNavigation && s.focus == EditorWindow then Some(Table()[i].action) else None
  {
    assert i != 3 && i != 4;
    UniqueKeys(i);
    DispatchSingle(Table(), Table()[i].keys, s, i);
    ViBufferFocussedMeaning(s);
  }

  /**
   * `enter` and `-` act on the file explorer whenever the current editor
   * buffer shows a directory, whatever the vi mode and focus.
   */
  lemma {:induction false} ExplorerKeys(s: State)
    ensures Dispatch(Table(), [Enter], s) == if InFileExplorer(s) then Some(OpenPath) else None
    ensures Dispatch(Table(), [Char('-')], s) == if InFileExplorer(s) then Some(ToParentDirectory) else None
  {
    UniqueKeys(18);
    UniqueKeys(19);
    DispatchSingle(Table(), [Enter], s, 18);
    DispatchSingle(Table(), [Char('-')], s, 19);
  }

  /** `G` runs in vi navigation mode whatever has focus; `f1` always shows help. */
  lemma {:induction false} LineAndHelpKeys(s: State)
    ensures Dispatch(Table(), [Char('G')], s) == if s.viMode == ViNavigation then Some(ToNthLine) else None
    ensures Dispatch(Table(), [F1], s) == Some(ShowHelp)
  {
    UniqueKeys(20);
    UniqueKeys(17);
    DispatchSingle(Table(), [Char('G')], s, 20);
    DispatchSingle(Table(), [F1], s, 17);
  }

  /**
   * With the command line focused, no key reaches an editing, window or tab
   * handler: only swallowing `c-t`, leaving command mode, help, the file
   * explorer and `G` can run.
   */
  lemma {:induction false} CommandFocusDispatch(keys: seq<Key>, s: State)
    requires s.focus == CommandBuffer
    ensures Dispatch(Table(), keys, s).Some? ==>
      Dispatch(Table(), keys, s).value in {IgnoreTranspose, LeaveCommandMode, ShowHelp, OpenPath, ToParentDirectory, ToNthLine}
  {
    var r := LastEnabled(Table(), keys, s, |Table()|);
    if r.Some? {
      var i := r.value;
      assert Eval(Table()[i].filter, s);
      ViBufferFocussedMeaning(s);
      TabFilterMeaning(s);
    }
  }

  /** Only `c-r` (redo) skips saving the buffer's undo state before it runs. */
  lemma SaveBeforeOnlyForRedo()
    ensures forall i :: 0 <= i < |Table()| ==> (!Table()[i].saveBefore <==> Table()[i].action == Redo)
  {
  }
}
