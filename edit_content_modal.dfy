/** The body editor dialog: a text area limited to 3000 characters, with a
    warning from 2700 on, saved by a button or Ctrl/Cmd+Enter. */
module EditContentModal {
  import opened Common

  const MaxChars: int := 3000
  const WarningThreshold: int := 2700

  predicate IsNearLimit(text: string)
  {
    |text| >= WarningThreshold
  }

  predicate IsOverLimit(text: string)
  {
    |text| > MaxChars
  }

  /** The "Approaching LinkedIn limit" note. */
  predicate ShowsApproachingNote(text: string)
  {
    IsNearLimit(text) && !IsOverLimit(text)
  }

  predicate SaveDisabled(text: string)
  {
    IsOverLimit(text)
  }

  /** The colour of the character counter. */
  datatype CounterTone = Normal | Warning | Error

  function CounterToneOf(text: string): (t: CounterTone)
    ensures t == Error <==> |text| > MaxChars
    ensures t == Warning <==> WarningThreshold <= |text| <= MaxChars
    ensures t == Normal <==> |text| < WarningThreshold
  {
    if IsOverLimit(text) then Error else if IsNearLimit(text) then Warning else Normal
  }

  /** What the dialog asks of its owner: the text to save (`onSave`), and
      whether to close (`onClose`). */
  datatype ModalAction = ModalAction(saved: Option<string>, closed: bool)

  const NoAction: ModalAction := ModalAction(None, false)

  /** `handleSave`: save then close, unless over the limit. */
  function SaveAction(text: string): (r: ModalAction)
    ensures r.saved.Some? <==> |text| <= MaxChars
    ensures r.saved.Some? ==> r.saved.value == text
    ensures r.closed <==> r.saved.Some?
  {
    if !IsOverLimit(text) then ModalAction(Some(text), true) else NoAction
  }

  /** The limit is inclusive: 3000 characters save, 3001 do nothing. */
  lemma LimitIsInclusive(text: string)
    ensures |text| == MaxChars ==> SaveAction(text) == ModalAction(Some(text), true)
    ensures |text| == MaxChars + 1 ==> SaveAction(text) == NoAction
    ensures SaveDisabled(text) <==> SaveAction(text) == NoAction
    ensures ShowsApproachingNote(text) ==> SaveAction(text).saved == Some(text)
  {
  }

  datatype KeyEvent = KeyEvent(key: string, metaKey: bool, ctrlKey: bool)

  predicate IsSubmitChord(e: KeyEvent)
  {
    (e.metaKey || e.ctrlKey) && e.key == "Enter"
  }

  /** `handleKeyDown`. */
  function KeyAction(e: KeyEvent, text: string): (r: ModalAction)
    ensures IsSubmitChord(e) ==> r == SaveAction(text)
    ensures e.key == "Escape" ==> r == ModalAction(None, true)
    ensures !IsSubmitChord(e) && e.key != "Escape" ==> r == NoAction
  {
    if IsSubmitChord(e) then SaveAction(text)
    else if e.key == "Escape" then ModalAction(None, true)
    else NoAction
  }

  /** A key press saves only what Save would save, within the limit, and
      closes without saving only on Escape. */
  lemma KeysSaveOnlyLikeSave(e: KeyEvent, text: string)
    ensures KeyAction(e, text).saved.Some? ==> KeyAction(e, text) == SaveAction(text) && |text| <= MaxChars
    ensures KeyAction(e, text).saved.None? && KeyAction(e, text).closed ==> e.key == "Escape"
  {
  }

  /** The dialog's state: the text being edited, seeded from the `content` prop. */
  class EditDialog {
    var content: string
    var editedContent: string

    constructor(content: string)
      ensures this.content == content && editedContent == content
    {
      this.content := content;
      editedContent := content;
    }

    /** The effect on `content`: a new prop value replaces whatever was typed. */
    method ContentChanged(c: string)
      modifies this
      ensures content == c && editedContent == c
    {
      content := c;
      editedContent := c;
    }

    method Input(text: string)
      modifies this`editedContent
      ensures editedContent == text
    {
      editedContent := text;
    }

    method Save() returns (action: ModalAction)
      ensures action == SaveAction(editedContent)
    {
      if !IsOverLimit(editedContent) {
        action := ModalAction(Some(editedContent), true);
      } else {
        action := NoAction;
      }
    }

    method KeyDown(e: KeyEvent) returns (action: ModalAction)
      ensures action == KeyAction(e, editedContent)
    {
      if (e.metaKey || e.ctrlKey) && e.key == "Enter" {
        action := Save();
      } else if e.key == "Escape" {
        action := ModalAction(None, true);
      } else {
        action := NoAction;
      }
    }

    /** Cancel, the close button and a click outside only close. */
    method Cancel() returns (action: ModalAction)
      ensures action == ModalAction(None, true)
    {
      action := ModalAction(None, true);
    }
  }
}
