/** The message input box: a one-field text buffer with a submit guard and
    an Enter-key handler. */
module ChatInputBox {
  import opened Wrappers
  import opened Text

  /** What `handleSend` passes on for a buffer: the trimmed text, when it is
      non-empty and the input is enabled. */
  function Submission(buffer: string, disabled: bool): (r: Option<string>)
    ensures r.Some? ==> r.value == Trim(buffer)
  {
    if Trim(buffer) != "" && !disabled then Some(Trim(buffer)) else None
  }

  /** Something is sent exactly when the input is enabled and the buffer holds
      a non-whitespace character; what is sent is non-empty, already trimmed,
      and neither starts nor ends with whitespace. */
  lemma SubmissionSpec(buffer: string, disabled: bool)
    ensures Submission(buffer, disabled).Some? <==> !disabled && !AllWhitespace(buffer)
    ensures Submission(buffer, disabled).Some? ==>
      var t := Submission(buffer, disabled).value;
      && t != ""
      && Trim(t) == t
      && !IsWhitespace(t[0]) && !IsWhitespace(t[|t| - 1])
  {
    TrimEmptyIffBlank(buffer);
    TrimIdempotent(buffer);
    var _ := TrimIsCore(buffer);
  }

  /** The effect of a key press: nothing, or the default action suppressed
      (plain Enter), with a send attempted only when no reply is loading. */
  datatype KeyEffect = Ignored | Suppressed(attemptSend: bool)

  function KeyPress(key: string, shiftKey: bool, isLoading: bool): (r: KeyEffect)
    ensures r.Suppressed? <==> key == "Enter" && !shiftKey
    ensures r.Suppressed? ==> (r.attemptSend <==> !isLoading)
  {
    if key == "Enter" && !shiftKey then Suppressed(!isLoading) else Ignored
  }

  class ChatInput {
    var message: string

    constructor ()
      ensures message == ""
    {
      message := "";
    }

    /** The textarea's change handler. */
    method OnChange(text: string)
      modifies this
      ensures message == text
    {
      message := text;
    }

    /** `handleSend`: passes on the trimmed buffer and clears it, or leaves the
        buffer as it was when the guard fails. */
    method HandleSend(disabled: bool) returns (sent: Option<string>)
      modifies this
      ensures sent == Submission(old(message), disabled)
      ensures message == if sent.Some? then "" else old(message)
    {
      var trimmed := Trim(message);
      if trimmed != "" && !disabled {
        sent := Some(trimmed);
        message := "";
      } else {
        sent := None;
      }
    }

    /** `handleKeyPress`: Enter without Shift suppresses the newline and, while
        no reply is loading, attempts a send; any other key does nothing. */
    method HandleKeyPress(key: string, shiftKey: bool, isLoading: bool, disabled: bool)
      returns (preventDefault: bool, sent: Option<string>)
      modifies this
      ensures preventDefault == KeyPress(key, shiftKey, isLoading).Suppressed?
      ensures sent == (if KeyPress(key, shiftKey, isLoading) == Suppressed(true)
                       then Submission(old(message), disabled) else None)
      ensures message == if sent.Some? then "" else old(message)
    {
      preventDefault := false;
      sent := None;
      if key == "Enter" && !shiftKey {
        preventDefault := true;
        if !isLoading {
          sent := HandleSend(disabled);
        }
      }
    }
  }
}
