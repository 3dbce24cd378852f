/**
 * The mutable text buffer the handlers edit (`event.app.current_buffer`): its
 * text and cursor offset, the clamping cursor setter and `insert_text`.  Both
 * operations belong to prompt_toolkit; their behaviour here is an assumption
 * of this model.
 */
module Buffers {
  import opened Documents

  class Buffer {
    var text: string
    var cursorPosition: nat

    ghost predicate Valid()
      reads this
    {
      cursorPosition <= |text|
    }

    /** `buffer.document`: a snapshot of the text and cursor. */
    function Doc(): Document
      reads this
      requires Valid()
    {
      DocumentValue.Doc(text, cursorPosition)
    }

    constructor (text: string, cursorPosition: nat)
      requires cursorPosition <= |text|
      ensures Valid()
      ensures this.text == text && this.cursorPosition == cursorPosition
    {
      this.text := text;
      this.cursorPosition := cursorPosition;
    }

    /** Assigning `cursor_position`: values outside the text are clamped to it. */
    method SetCursorPosition(value: int)
      modifies this`cursorPosition
      ensures Valid()
      ensures 0 <= value <= |text| ==> cursorPosition == value
      ensures value < 0 ==> cursorPosition == 0
      ensures value > |text| ==> cursorPosition == |text|
    {
      if value > |text| {
        cursorPosition := |text|;
      } else if value < 0 {
        cursorPosition := 0;
      } else {
        cursorPosition := value;
      }
    }

    /** `insert_text(data)`: insert at the cursor and move the cursor past the inserted text. */
    method InsertText(data: string)
      requires Valid()
      modifies this
      ensures Valid()
      ensures text == InsertAt(old(text), old(cursorPosition), data)
      ensures cursorPosition == old(cursorPosition) + |data|
    {
      text := InsertAt(text, cursorPosition, data);
      cursorPosition := cursorPosition + |data|;
    }
  }
}
