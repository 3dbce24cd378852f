# pyvim key bindings, modelled in Dafny

This project models pyvim's own key bindings: the table that
`create_key_bindings` registers on top of prompt_toolkit's vi bindings, the
filters that switch each binding on and off, the handlers the bindings run,
and the `whitespace_before_cursor_on_line` filter.

The model has seven modules:

- `Options` is a plain option type.
- `Documents` is the read-only document view the handlers consult: the current line, the text before the cursor, the cursor row, the line count, and the offset of the first non-blank character. It also holds the insertion arithmetic they rely on.
- `Buffers` is the mutable buffer (`event.app.current_buffer`). It is a class with the cursor setter, which clamps, and with `insert_text`.
- `Paths` is POSIX `os.path.join` and `os.path.normpath`, as the file-explorer handlers use them.
- `Filters` is the editor state the filters read, the filters as `&`/`~` expressions over it, and their meaning.
- `Handlers` describes every handler in two ways:
  - as an `Editor` class method. The method edits the buffer in place and appends the outside calls it makes to a `calls` log.
  - as a pair of specification functions: the document it produces and the calls it makes.
- `Bindings` is the `KeyBindings` registry class with its 21 registrations in source order. It also defines which handler a complete key sequence dispatches to in a given state.

Key dispatch follows one rule: among the bindings for the exact key sequence whose filters hold, the one registered last wins.

The three stacked decorators on `leave_command_mode` apply from the bottom up, so `backspace`, `c-c` and `escape` are registered in that order.

## Model

| member | source | states |
|---|---|---|
| Filters.ViBufferFocussedMeaning | pyvim/key_bindings.py:24-32 | `vi_buffer_focussed` holds iff neither the search nor the command buffer has focus; `in_insert_mode` and `in_navigation_mode` add the vi mode to that |
| Filters.ModesExclusive | pyvim/key_bindings.py:31-32 | insert-mode and navigation-mode bindings are never enabled together, and neither are `tab` and `G` |
| Filters.TabFilterMeaning | pyvim/key_bindings.py:105 | the `tab` filter holds iff the mode is insert, the command line is not focused, and the whitespace test passes; unlike `in_insert_mode` it lets search focus through |
| Filters.AllSpaceBeforeCursor | pyvim/key_bindings.py:202-211 | a line that is all whitespace (or empty) before the cursor passes the whitespace filter |
| Filters.WhitespaceOnlyLastChar | pyvim/key_bindings.py:209-211 | only the last character before the cursor decides the whitespace filter |
| Filters.WhitespaceNotWholePrefix | pyvim/key_bindings.py:209-211 | the line `x ` with the cursor at its end passes the whitespace filter although `x` is not whitespace |
| Filters.WhitespaceBeforeCursor | pyvim/key_bindings.py:202-211 | the whitespace filter holds iff the cursor is at the start of the text or the character just before it is whitespace (a line break counts, so an empty line before the cursor passes) |
| Filters.InFileExplorer | pyvim/key_bindings.py:161-163 | the file-explorer filter is false without a current editor buffer, and with one it is that buffer's explorer flag |
| Filters.InFileExplorerMeaning | pyvim/key_bindings.py:161-163 | the file-explorer filter is false without a current editor buffer and depends on nothing else |
| Documents.CountNewlines | pyvim/key_bindings.py:193 | the newline count is bounded by the length and is zero iff there is no line break |
| Documents.CountNewlinesAppend | pyvim/key_bindings.py:193 | newline counts add over concatenation |
| Documents.CursorRow | pyvim/key_bindings.py:193 | the cursor row is at most the cursor offset, and is 0 iff no line break precedes the cursor |
| Documents.LineCount | pyvim/key_bindings.py:193 | a document has at least one line and at most one more than its length, and exactly one iff it has no line break |
| Documents.CursorRowBelowLineCount | pyvim/key_bindings.py:193 | the cursor row is always below the line count |
| Documents.LineStartBefore | pyvim/key_bindings.py:209 | the start of the cursor's line: right after a line break or at 0, with no break between it and the cursor |
| Documents.LineEndFrom | pyvim/key_bindings.py:170 | the end of the cursor's line: at a line break or the end of the text, with no break before it |
| Documents.CurrentLineBeforeCursor | pyvim/key_bindings.py:209 | the text before the cursor on its line is the longest break-free suffix of the text before the cursor |
| Documents.CurrentLine | pyvim/key_bindings.py:170 | the line under the cursor starts where the part before the cursor starts, is the text from there up to the next line break or the end of the text, and holds no line break |
| Documents.LeadingWhitespace | pyvim/key_bindings.py:74 | the leading run is all whitespace and is followed by a non-whitespace character or the end |
| Documents.FirstNonBlank | pyvim/key_bindings.py:74 | the first non-blank offset lies within the line, only whitespace precedes it there, and it holds a non-blank character unless it is the line end |
| Documents.StartOfLinePositionAfterWhitespace | pyvim/key_bindings.py:74-75 | the cursor plus the returned distance is the first non-blank offset of the line |
| Documents.InsertAt | pyvim/key_bindings.py:79-81 | insertion keeps the prefix, places the inserted text, and shifts the rest right |
| Documents.InsertShifts | pyvim/key_bindings.py:77-84 | the inserted text sits at the insertion point, removing it restores the original, and text after a later offset is shifted intact |
| Documents.RemoveInserted | pyvim/key_bindings.py:77-81 | removing what was inserted gives back the original text |
| Buffers.Buffer.SetCursorPosition | pyvim/key_bindings.py:75 | assigning the cursor clamps it into the text and changes nothing else |
| Buffers.Buffer.InsertText | pyvim/key_bindings.py:79-81 | `insert_text` inserts at the cursor and moves the cursor past the inserted text |
| Paths.Join | pyvim/key_bindings.py:171-172 | `os.path.join` returns an absolute second argument unchanged; otherwise it appends the second argument to the first, adding one `/` only when the first is non-empty and does not already end in `/` |
| Paths.Split | pyvim/key_bindings.py:171-172 | splitting on `/` yields at least one component, none containing `/` |
| Paths.JoinSplit | pyvim/key_bindings.py:171-172 | joining the split components with `/` gives back the path |
| Paths.SplitJoin | pyvim/key_bindings.py:171-172 | splitting `/`-joined slash-free components gives them back |
| Paths.ResolveFrom | pyvim/key_bindings.py:171-172 | normpath's component loop yields names with `..` only as a leading run, and none at all for an absolute path |
| Paths.NormPath | pyvim/key_bindings.py:171-172 | `os.path.normpath` never returns the empty string |
| Paths.NormPathIdempotent | pyvim/key_bindings.py:171-172 | normalising a normalised path changes nothing |
| Paths.NormPathAbsolute | pyvim/key_bindings.py:171-172 | an absolute path normalises to one with the same one or two leading slashes, followed by `..`-free names |
| Paths.ParentOfRoot | pyvim/key_bindings.py:180-181 | `..` under `/` is `/` |
| Paths.JoinOntoAbsolute | pyvim/key_bindings.py:171-172 | joining a relative component onto a clean absolute path appends it as a component |
| Paths.ParentDirectory | pyvim/key_bindings.py:180-181 | the parent of a clean absolute directory drops its last component; the root stays the root |
| Paths.ChildDirectory | pyvim/key_bindings.py:171-172 | a plain name under a clean absolute directory normalises to that directory plus the name |
| Paths.ResolveSkips | pyvim/key_bindings.py:171-172 | an empty component (from `//` or a trailing `/`) or a `.` component, wherever it occurs, leaves normpath's result unchanged |
| Paths.SplitJoinSlashSnoc | pyvim/key_bindings.py:171-172 | splitting slash-free components joined onto a final text gives those components followed by the text's own split |
| Paths.SplitOntoAbsolute | pyvim/key_bindings.py:171-172 | a clean absolute directory with a relative path appended has one leading slash and splits into the root, its components, then the path's |
| Paths.NormPathJoinRelative | pyvim/key_bindings.py:170-172 | normalising any relative path, the empty line included, joined onto a clean absolute directory resolves the path's components, in order, starting from the directory's |
| Paths.ChildDirectorySlash | pyvim/key_bindings.py:171-172 | a name with a trailing `/` under a clean absolute directory normalises to that directory plus the name |
| Paths.EmptyName | pyvim/key_bindings.py:170-172 | an empty line under the cursor makes `enter` open the directory itself |
| Paths.CurrentDirectory | pyvim/key_bindings.py:171-172 | `.` and `./` under a clean absolute directory normalise to the directory itself |
| Paths.ParentDirectorySlash | pyvim/key_bindings.py:171-172 | `../` under a clean absolute directory normalises to its parent, and the root stays the root |
| Paths.ChildSlashExample | pyvim/key_bindings.py:171-172 | `subdir/` under `/a/b` is `/a/b/subdir` |
| Paths.ChildExample | pyvim/key_bindings.py:171-172 | `subdir` under `/a/b` is `/a/b/subdir` |
| Paths.ParentExample | pyvim/key_bindings.py:180-181 | the parent of `/a/b` is `/a` |
| Handlers.Indent | pyvim/key_bindings.py:78-81 | one indentation unit is four spaces with `expand_tab` and one tab otherwise; all of it is whitespace |
| Handlers.InsertBeforeCursor | pyvim/key_bindings.py:77-84 | inserting a unit before the cursor grows the text by its width, places it at the insertion offset, can be undone, and moves the cursor by its width; a cursor at or after the offset keeps the text after it |
| Handlers.IndentLineResult | pyvim/key_bindings.py:66-84 | `indent_line` inserts one unit at the first non-blank column, can be undone by removing it, and moves the cursor right by its width; a cursor at or after that column keeps the text after it, and one inside the leading whitespace stays before the end of the inserted unit |
| Handlers.IndentAtCursorResult | pyvim/key_bindings.py:105-115 | the `tab` handler inserts one unit at the cursor, which moves past it, and the text after the cursor is kept |
| Handlers.HandlerEdit | pyvim/key_bindings.py:34-197 | of the handlers' own direct edits, only `indent_line` and `autocomplete_or_indent` change the document, each growing it by one unit; the other handlers leave it to collaborators |
| Handlers.NthLineTarget | pyvim/key_bindings.py:193 | with no count (or a count of 1) `G` aims at the line count, which is below no cursor row; a count `n` aims at the zero-based row of line `n` |
| Handlers.NthLineDelta | pyvim/key_bindings.py:193 | the row delta takes the cursor row to the target row; with no count it is at least 1 |
| Handlers.NthLineMotion | pyvim/key_bindings.py:193-197 | `G` requests at most one motion, none iff the delta is 0, with a positive count and the go-to-start-of-line-if-history-changes flag set |
| Handlers.NthLineReachesTarget | pyvim/key_bindings.py:187-197 | the requested motion leads from the cursor row to the target row |
| Handlers.NthLineWithoutCount | pyvim/key_bindings.py:189-193 | `G` and `1G` always move down, to the row one past the last row |
| Handlers.Occurrences | pyvim/key_bindings.py:34-185 | a call occurs zero times iff it is absent |
| Handlers.TopologyCall | pyvim/key_bindings.py:34-185 | the call a topology-changing handler makes before synchronising is never the synchronisation itself; it opens a buffer, in the current window, exactly for the two explorer handlers |
| Handlers.LocalCalls | pyvim/key_bindings.py:50-197 | the other handlers never synchronise; the no-op and edit handlers call nothing, and suspend, redo, entering or leaving command mode and help make one call each |
| Handlers.HandlerCalls | pyvim/key_bindings.py:34-197 | the quit, window, tab and explorer handlers make one call and then synchronise exactly once, last; no other handler synchronises; the no-op and edit handlers call nothing; the explorer handlers open their path in the current window |
| Handlers.NoOpHandlers | pyvim/key_bindings.py:57-64 | the unfiltered `c-t` handler and `dedent_line` change nothing and call nothing |
| Handlers.ExplorerTargetsAbsolute | pyvim/key_bindings.py:165-185 | from an absolute directory, both explorer handlers open a clean absolute path |
| Handlers.ExplorerTargets | pyvim/key_bindings.py:165-185 | from a clean absolute directory, `enter` on a plain name opens the name inside it, and `-` opens its parent |
| Handlers.Editor.WriteAndQuit | pyvim/key_bindings.py:34-40 | writes and quits, then synchronises |
| Handlers.Editor.QuitDiscardingChanges | pyvim/key_bindings.py:42-48 | force-quits, then synchronises |
| Handlers.Editor.SuspendProcess | pyvim/key_bindings.py:50-55 | suspends to the background |
| Handlers.Editor.IndentLine | pyvim/key_bindings.py:66-84 | moves to the first non-blank column, inserts one unit, and moves back by the same distance; the buffer ends as `IndentLineResult` says |
| Handlers.Editor.Redo | pyvim/key_bindings.py:91-96 | calls redo on the buffer |
| Handlers.Editor.EnterCommandMode | pyvim/key_bindings.py:98-103 | enters command mode |
| Handlers.Editor.AutocompleteOrIndent | pyvim/key_bindings.py:105-115 | inserts one unit at the cursor; the buffer ends as `IndentAtCursorResult` says |
| Handlers.Editor.LeaveCommandMode | pyvim/key_bindings.py:117-124 | leaves command mode |
| Handlers.Editor.FocusNextWindow | pyvim/key_bindings.py:126-129 | cycles the window focus, then synchronises |
| Handlers.Editor.HorizontalSplit | pyvim/key_bindings.py:131-137 | splits horizontally with no location, then synchronises |
| Handlers.Editor.VerticalSplit | pyvim/key_bindings.py:139-145 | splits vertically with no location, then synchronises |
| Handlers.Editor.FocusNextTab | pyvim/key_bindings.py:147-150 | goes to the next tab, then synchronises |
| Handlers.Editor.FocusPreviousTab | pyvim/key_bindings.py:152-155 | goes to the previous tab, then synchronises |
| Handlers.Editor.ShowHelp | pyvim/key_bindings.py:157-159 | shows help |
| Handlers.Editor.OpenPath | pyvim/key_bindings.py:165-176 | opens the normalised join of the buffer's location and the line under the cursor in the current window, then synchronises |
| Handlers.Editor.ToParentDirectory | pyvim/key_bindings.py:178-185 | opens the normalised join of the buffer's location and `..` in the current window, then synchronises |
| Handlers.Editor.ToNthLine | pyvim/key_bindings.py:187-197 | requests exactly the motion `NthLineMotion` describes |
| Handlers.Editor.Handle | pyvim/key_bindings.py:34-197 | running a handler applies the handler's own direct edit to the buffer as `HandlerEdit` says and appends the collaborator calls `HandlerCalls` lists |
| Handlers.Editor.HandleTopology | pyvim/key_bindings.py:34-185 | a topology-changing handler appends its one call and then the synchronisation |
| Handlers.Editor.HandleLocal | pyvim/key_bindings.py:50-197 | any other non-editing handler appends exactly the calls `LocalCalls` lists |
| Bindings.Table | pyvim/key_bindings.py:34-197 | the registrations are 21, each on a key sequence of one or two keys |
| Bindings.KeyBindings.Add | pyvim/key_bindings.py:34 | a registration appends one binding and keeps the earlier ones |
| Bindings.CreateKeyBindings | pyvim/key_bindings.py:14-199 | `create_key_bindings` returns a fresh registry holding exactly the 21 bindings, in registration order |
| Bindings.AddSession | pyvim/key_bindings.py:34-55 | registers `ZZ`, `ZQ` and `c-z` in that order |
| Bindings.AddEditing | pyvim/key_bindings.py:57-124 | registers `c-t` twice, then `c-d`, `c-r`, `:`, `tab`, `backspace`, `c-c` and `escape` |
| Bindings.AddWindows | pyvim/key_bindings.py:126-159 | registers `c-w c-w`, `c-w n`, `c-w v`, `g t`, `g T` and `f1` |
| Bindings.AddNavigation | pyvim/key_bindings.py:161-197 | registers `enter`, `-` and `G` |
| Bindings.LastEnabled | pyvim/key_bindings.py:57-66 | finds the last enabled binding for the keys, or reports that none is enabled |
| Bindings.Dispatch | pyvim/key_bindings.py:57-66 | a handler is dispatched iff some binding for the keys is enabled, and it is that of the last such binding |
| Bindings.DispatchSingle | pyvim/key_bindings.py:34-197 | a key sequence registered once runs its handler exactly when its filter holds |
| Bindings.DispatchPair | pyvim/key_bindings.py:57-66 | of two bindings for the same keys, the later wins when enabled, otherwise the earlier one |
| Bindings.UniqueKeys | pyvim/key_bindings.py:34-197 | a binding other than the two for `c-t` is the only one for its keys |
| Bindings.TableKeysDistinct | pyvim/key_bindings.py:34-197 | every key sequence is registered once, except `c-t`, which is registered twice |
| Bindings.CommandLineKeys | pyvim/key_bindings.py:117-124 | `escape` and `c-c` leave command mode iff the command line has focus; `backspace` does so iff the command line is also empty |
| Bindings.ControlTKey | pyvim/key_bindings.py:57-84 | `c-t` indents iff the mode is insert and the editor window has focus; otherwise it is swallowed |
| Bindings.ControlDKey | pyvim/key_bindings.py:86-89 | `c-d` runs `dedent_line` iff the mode is insert and the editor window has focus |
| Bindings.TabKey | pyvim/key_bindings.py:105-115 | `tab` indents iff the mode is insert, the command line is not focused, and the whitespace test passes |
| Bindings.NavigationModeKeys | pyvim/key_bindings.py:34-155 | every `in_navigation_mode` binding runs its handler iff the mode is navigation and the editor window has focus |
| Bindings.ExplorerKeys | pyvim/key_bindings.py:161-185 | `enter` and `-` run their handlers iff the current editor buffer is a file explorer, whatever the mode and focus |
| Bindings.LineAndHelpKeys | pyvim/key_bindings.py:157-197 | `G` runs iff the mode is navigation, whatever has focus; `f1` always shows help |
| Bindings.CommandFocusDispatch | pyvim/key_bindings.py:24-32 | with the command line focused, only the swallowed `c-t`, leaving command mode, help, the explorer keys and `G` can run |
| Bindings.SaveBeforeOnlyForRedo | pyvim/key_bindings.py:91 | only `c-r` skips saving the undo state before it runs |

## Left out

- `pyvim/lexer.py` is not part of this model; it only chooses a syntax highlighter.
- Key sequences are dispatched only once complete. prompt_toolkit's prefix matching, its pending-sequence timeouts and its default bindings are not modelled. "Last registered enabled binding wins" is an assumption about its key processor.
- Saving, quitting, suspending, redo, command mode, help, the window arrangement, `auto_down`/`auto_up` and `sync_with_prompt_toolkit` belong to collaborators that are not part of this model. Each appears only as an entry in the editor's `calls` log.
- The handlers' effects on those collaborators (which window gains focus, what redo restores, how far `auto_down` can really move) are left out for the same reason.
- `Handlers.HandlerEdit`: the buffer effects of `redo()` (line 96) and of the `auto_down`/`auto_up` motions of `G` (lines 194-197) are logged as calls, not applied, so for `c-r` and `G` the document it returns is the one before those collaborator calls run.
- `Handlers.Editor.Handle`: for the same reason, after `c-r` and `G` the buffer it leaves is the buffer before redo or the cursor motion happens; those changes appear only as `BufferRedo`, `AutoDown` and `AutoUp` entries in the `calls` log.
- The editor's `expand_tab` setting and its current editor buffer are fixed when an `Editor` is built. The `:set` commands and window changes that alter them in pyvim are not part of this model.
- `get_app()`, the focused buffer and the vi mode are inputs: a `State` value and a `Buffer` argument.
- `Filters.WhitespaceBeforeCursor`: the whitespace filter checks only the last character before the cursor, as the code does. Its docstring (`pyvim/key_bindings.py:204-206`) says that everything before the cursor is whitespace, which is stronger. The model follows the code; `Filters.WhitespaceNotWholePrefix` shows the difference.
- The `tab` handler's docstring describes its two cases the other way round from the code. The model follows the code: with whitespace (or nothing) before the cursor, it inserts indentation.
- `Handlers.Editor.DedentLine` and `Handlers.Editor.IgnoreTranspose` have empty bodies, as in the source, so they carry no contract. `Handlers.NoOpHandlers` states their effect.
- `Handlers.HandlerCalls` requires a current editor buffer for the two explorer handlers. The source would fail on a missing buffer, but their filter never lets them run without one (`Filters.InFileExplorerMeaning`).
- A current editor buffer whose location is `None` is not modelled, because locations are strings.
- `Paths.NormPath`: its own contract says only that the result is not empty. Its value is stated by lemmas instead: `NormPathIdempotent` and `NormPathAbsolute` for every path, `ResolveSkips` for `//` and `.` anywhere, and `NormPathJoinRelative` with its corollaries for any relative path joined onto a clean absolute directory. For an absolute directory location that is not itself normalised, only `NormPathAbsolute` (the shape of the result) and `NormPathIdempotent` apply. For a relative location, only `NormPathIdempotent`, `ResolveSkips` and the shape that `ResolveFrom` ensures apply.
- `Documents.IsSpace` lists the characters Python's `str.isspace` accepts, as an assumption about that table.
- `event.arg` is any integer. prompt_toolkit's own clamping of counts is not modelled.
