/** The phone's text-input rules
    (CravePhone/Presentation/Common/DesignSystem/Components/CraveTextEditor.swift):
    the character limit applied on every edit and the editor's height. */
module TextEditor {

  const DefaultCharacterLimit := 300
  const MinEditorHeight := 120
  const MaxEditorHeight := 300
  const CharactersPerLine := 35
  const LineHeight := 20

  function Min(a: int, b: int): (m: int)
    ensures m <= a && m <= b && (m == a || m == b)
  {
    if a <= b then a else b
  }

  function Max(a: int, b: int): (m: int)
    ensures m >= a && m >= b && (m == a || m == b)
  {
    if a >= b then a else b
  }

  /** The text the change handler leaves for a new value: the first
      `characterLimit` characters when a positive limit is exceeded, the new
      value itself otherwise. */
  function LimitText(characterLimit: int, newVal: string): (r: string)
    ensures r <= newVal
    ensures characterLimit > 0 ==> |r| <= characterLimit
    ensures characterLimit > 0 && |newVal| > characterLimit ==> |r| == characterLimit
    ensures characterLimit <= 0 || |newVal| <= characterLimit ==> r == newVal
  {
    if characterLimit > 0 && |newVal| > characterLimit then newVal[..characterLimit] else newVal
  }

  /** Applying the limit to its own output changes nothing, so the handler's
      second firing, caused by its own assignment, is harmless. */
  lemma LimitTextIdempotent(characterLimit: int, newVal: string)
    ensures LimitText(characterLimit, LimitText(characterLimit, newVal)) == LimitText(characterLimit, newVal)
  {
  }

  /** The limited text is the longest prefix of the new value within the limit. */
  lemma LimitTextKeepsLongestPrefix(characterLimit: int, newVal: string, p: string)
    requires characterLimit > 0
    requires p <= newVal && |p| <= characterLimit
    ensures p <= LimitText(characterLimit, newVal)
  {
  }

  /** The editor height for a text of `count` characters: one 20-point line
      per 35 characters, plus one, clamped to [120, 300]. */
  function EditorHeight(count: nat): (h: int)
    ensures MinEditorHeight <= h <= MaxEditorHeight
    ensures h % LineHeight == 0
    ensures h == MinEditorHeight <==> count < 210
    ensures h == MaxEditorHeight <==> count >= 490
  {
    Min(Max(MinEditorHeight, (count / CharactersPerLine + 1) * LineHeight), MaxEditorHeight)
  }

  /** A longer text never gets a shorter editor. */
  lemma EditorHeightMonotone(n: nat, m: nat)
    requires n <= m
    ensures EditorHeight(n) <= EditorHeight(m)
  {
  }

  /** Between the clamps the height is the line count times the line height. */
  lemma EditorHeightUnclamped(count: nat)
    requires 210 <= count < 490
    ensures EditorHeight(count) == (count / CharactersPerLine + 1) * LineHeight
  {
  }

  /** Under the default limit of 300 characters the editor never grows past 180. */
  lemma EditorHeightUnderDefaultLimit(newVal: string)
    ensures EditorHeight(|LimitText(DefaultCharacterLimit, newVal)|) <= 180
  {
  }

  class CraveTextEditor {
    /** The bound text (`@Binding`), owned by the parent view. */
    var text: string
    /** `@State editorHeight`. */
    var editorHeight: int
    const characterLimit: int

    ghost predicate Valid()
      reads this
    {
      MinEditorHeight <= editorHeight <= MaxEditorHeight
    }

    /** The height starts at 120 whatever the initial text; neither rule runs
        until the text first changes. */
    constructor (text: string, characterLimit: int := DefaultCharacterLimit)
      ensures Valid()
      ensures this.text == text && this.characterLimit == characterLimit
      ensures editorHeight == MinEditorHeight
    {
      this.text := text;
      this.characterLimit := characterLimit;
      editorHeight := MinEditorHeight;
    }

    /** The height the frame is given, `max(editorHeight, 120)`: always the
        editor height itself. */
    function FrameHeight(): (h: int)
      reads this
      requires Valid()
      ensures h == editorHeight
      ensures MinEditorHeight <= h <= MaxEditorHeight
    {
      Max(editorHeight, MinEditorHeight)
    }

    /** `calculateEditorHeight`: reassigns the height only when it differs,
        and either way leaves the height computed from the current text. */
    method CalculateEditorHeight()
      modifies this`editorHeight
      ensures Valid()
      ensures editorHeight == EditorHeight(|text|)
    {
      var newHeight := EditorHeight(|text|);
      if editorHeight != newHeight {
        editorHeight := newHeight;
      }
    }

    /** The change handler, run with the binding's new value: truncates the
        bound text when it exceeds a positive limit, then recomputes the
        height from the resulting text. */
    method OnTextChange(newVal: string)
      requires text == newVal
      modifies this`text, this`editorHeight
      ensures Valid()
      ensures text == LimitText(characterLimit, newVal)
      ensures editorHeight == EditorHeight(|text|)
    {
      if characterLimit > 0 && |newVal| > characterLimit {
        text := newVal[..characterLimit];
      }
      CalculateEditorHeight();
    }

    /** One write of the text editor into the binding. The handler is
        attached with `initial: false` and runs only when the text changes:
        a write of the same text does nothing. When the handler's own
        truncation changes the text again, the handler runs once more on the
        truncated text, which it then leaves as it is. */
    method EditText(newVal: string)
      requires Valid()
      modifies this`text, this`editorHeight
      ensures Valid()
      ensures newVal == old(text) ==> text == old(text) && editorHeight == old(editorHeight)
      ensures newVal != old(text) ==>
                && text == LimitText(characterLimit, newVal)
                && (characterLimit > 0 ==> |text| <= characterLimit)
                && editorHeight == EditorHeight(|text|)
    {
      if newVal == text {
        return;
      }
      text := newVal;
      OnTextChange(newVal);
      if text != newVal {
        LimitTextIdempotent(characterLimit, newVal);
        OnTextChange(text);
      }
    }
  }
}
