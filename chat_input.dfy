/**
 * components/chat/ChatInput.tsx: the text box that hands a message to the
 * chat. The box owns the `input` state; `onSend` is recorded as the list of
 * texts it was called with; `disabled` is the prop of the render the event
 * happens in. The auto-resize and auto-focus effects only touch the DOM and
 * are not modelled.
 */
module ChatInput {
  import opened Optional
  import opened JsStrings
  import opened ChatTypes

  /**
   * The guard of `handleSend`: the trimmed text it passes to `onSend`, or
   * `None` when the text is blank, the box is disabled or the trimmed text is
   * over the limit.
   */
  function SendGate(input: string, disabled: bool): (r: Option<string>)
    ensures r.Some? ==> r.value == Trim(input) && |r.value| <= MaxMessageLength
    ensures r.Some? ==> r.value != [] && !IsWhitespace(r.value[0]) && !IsWhitespace(r.value[|r.value| - 1])
  {
    var trimmed := Trim(input);
    if trimmed != [] && !disabled && |trimmed| <= MaxMessageLength then Some(trimmed) else None
  }

  /** `isOverLimit`: the raw text, not the trimmed one, is measured. */
  function IsOverLimit(input: string): bool {
    |input| > MaxMessageLength
  }

  /** The `disabled` attribute of the send button. */
  function SendButtonDisabled(input: string, disabled: bool): bool {
    disabled || Trim(input) == [] || IsOverLimit(input)
  }

  /** `handleSend` sends exactly when the box is enabled, the text is not all whitespace and its trimmed form fits. */
  lemma SendGateIff(input: string, disabled: bool)
    ensures SendGate(input, disabled).Some?
      <==> !disabled && !AllWhitespace(input) && |Trim(input)| <= MaxMessageLength
  {
    TrimEmptyIff(input);
  }

  /** The button is disabled exactly when the box is, the text is all whitespace, or the raw text is over the limit. */
  lemma SendButtonDisabledIff(input: string, disabled: bool)
    ensures SendButtonDisabled(input, disabled)
      <==> disabled || AllWhitespace(input) || |input| > MaxMessageLength
  {
    TrimEmptyIff(input);
  }

  /** A click on an enabled button always gets through the guard of `handleSend`. */
  lemma EnabledButtonSends(input: string, disabled: bool)
    requires !SendButtonDisabled(input, disabled)
    ensures SendGate(input, disabled) == Some(Trim(input))
  {
    TrimShorter(input);
  }

  /** One space and 4000 letters: the button is disabled, yet Enter sends the 4000 letters. */
  lemma ButtonAndEnterDisagree()
    ensures var input := " " + seq(MaxMessageLength, _ => 'a');
      SendButtonDisabled(input, false) && SendGate(input, false) == Some(seq(MaxMessageLength, _ => 'a'))
  {
    var letters := seq(MaxMessageLength, _ => 'a');
    var input := " " + letters;
    assert input[1..] == letters;
    assert TrimStart(letters) == letters by {
      assert letters[0] == 'a';
    }
    assert TrimStart(input) == letters;
    assert TrimEnd(letters) == letters by {
      assert letters[|letters| - 1] == 'a';
    }
  }

  /** The state of one input box. */
  class InputBox {
    /** The `input` state. */
    var input: string
    /** The texts `onSend` was called with, oldest first. */
    var sent: seq<string>

    constructor()
      ensures input == [] && sent == []
    {
      input := [];
      sent := [];
    }

    predicate OverLimit()
      reads this
    {
      IsOverLimit(input)
    }

    predicate ButtonDisabled(disabled: bool)
      reads this
    {
      SendButtonDisabled(input, disabled)
    }

    /** `onChange`: the text area's value becomes the state. */
    method Change(value: string)
      modifies this
      ensures input == value && sent == old(sent)
    {
      input := value;
    }

    /** `handleSend`: when the guard passes, `onSend(trimmed)` and the box is cleared; otherwise nothing happens. */
    method HandleSend(disabled: bool)
      modifies this
      ensures SendGate(old(input), disabled).Some? ==> input == [] && sent == old(sent) + [SendGate(old(input), disabled).value]
      ensures SendGate(old(input), disabled).None? ==> input == old(input) && sent == old(sent)
    {
      var trimmed := Trim(input);
      if trimmed != [] && !disabled && |trimmed| <= MaxMessageLength {
        sent := sent + [trimmed];
        input := [];
      }
    }

    /** `handleKeyDown`: Enter without Shift prevents the default action (the new line) and sends. */
    method HandleKeyDown(key: string, shiftKey: bool, disabled: bool) returns (preventDefault: bool)
      modifies this
      ensures preventDefault <==> key == "Enter" && !shiftKey
      ensures preventDefault && SendGate(old(input), disabled).Some?
        ==> input == [] && sent == old(sent) + [SendGate(old(input), disabled).value]
      ensures !preventDefault || SendGate(old(input), disabled).None? ==> input == old(input) && sent == old(sent)
    {
      preventDefault := false;
      if key == "Enter" && !shiftKey {
        preventDefault := true;
        HandleSend(disabled);
      }
    }
  }
}
