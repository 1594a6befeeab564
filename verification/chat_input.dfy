/** `ChatInput`: the send button's guard and enabled rule. */
module ChatInput {
  import opened Optional
  import opened Text

  /** The outcome of a click: what `onSend` received, if anything, and the field's text afterwards. */
  datatype Click = Click(sent: Option<string>, text: string)

  /** The button is enabled exactly when the input is enabled and the text is not blank. */
  predicate SendEnabled(enabled: bool, text: string) {
    enabled && !IsBlank(text)
  }

  /**
    The button's `onClick`: a non-blank text goes to `onSend` as typed
    (untrimmed) and the field is cleared; a blank text does nothing at all.
   */
  function OnClick(text: string): (r: Click)
    ensures r.sent.Some? <==> !IsBlank(text)
    ensures r.sent.Some? ==> r.sent.value == text && r.text == ""
    ensures r.sent.None? ==> r.text == text
  {
    if !IsBlank(text) then Click(Some(text), "") else Click(None, text)
  }

  /** A press on the button; a disabled button does not run its `onClick`. */
  function Press(enabled: bool, text: string): (r: Click)
    ensures r.sent.Some? <==> enabled && !IsBlank(text)
    ensures r.sent.Some? ==> r.sent.value == text && r.text == ""
    ensures r.sent.None? ==> r.text == text
  {
    if SendEnabled(enabled, text) then OnClick(text) else Click(None, text)
  }

  /** A second press right after a send finds an empty field and sends nothing. */
  lemma PressTwiceSendsOnce(enabled: bool, text: string)
    ensures var first := Press(enabled, text);
            first.sent.Some? ==> Press(enabled, first.text) == Click(None, "")
  {
  }
}
