/** The chat input box: a draft that is sent only when it holds more than white space and
    input is enabled, and that is cleared once sent. */
module ChatInput {
  import opened Common

  /** The characters `String.prototype.trim` strips: ECMAScript white space and line
      terminators. */
  predicate IsSpace(c: char) {
    || c == '\t' || c == '\n' || c == '\U{000B}' || c == '\U{000C}' || c == '\r' || c == ' '
    || c == '\U{00A0}' || c == '\U{1680}' || ('\U{2000}' <= c <= '\U{200A}')
    || c == '\U{2028}' || c == '\U{2029}' || c == '\U{202F}' || c == '\U{205F}'
    || c == '\U{3000}' || c == '\U{FEFF}'
  }

  /** Nothing but white space. */
  predicate Blank(s: string) {
    forall i :: 0 <= i < |s| ==> IsSpace(s[i])
  }

  /** `s` with its leading white space removed. */
  function TrimStart(s: string): (r: string)
    ensures |r| <= |s| && r == s[|s| - |r|..]
    ensures forall i :: 0 <= i < |s| - |r| ==> IsSpace(s[i])
    ensures r == [] || !IsSpace(r[0])
  {
    if s == [] || !IsSpace(s[0]) then s
    else
      var r := TrimStart(s[1..]);
      assert forall i :: 1 <= i < |s| ==> s[1..][i - 1] == s[i];
      r
  }

  /** `s` with its trailing white space removed. */
  function TrimEnd(s: string): (r: string)
    ensures |r| <= |s| && r == s[..|r|]
    ensures forall i :: |r| <= i < |s| ==> IsSpace(s[i])
    ensures r == [] || !IsSpace(r[|r| - 1])
  {
    if s == [] || !IsSpace(s[|s| - 1]) then s
    else
      var r := TrimEnd(s[..|s| - 1]);
      assert forall i :: 0 <= i < |s| - 1 ==> s[..|s| - 1][i] == s[i];
      r
  }

  /** `s.trim()` */
  function Trim(s: string): string {
    TrimEnd(TrimStart(s))
  }

  /** The trimmed text is empty exactly when the text is blank. */
  lemma TrimEmptyIffBlank(s: string)
    ensures Trim(s) == "" <==> Blank(s)
  {
    var t := TrimStart(s);
    if Trim(s) == "" {
      assert |t| == 0;
    } else {
      assert t[0] == s[|s| - |t|];
    }
  }

  /** Trimming keeps the text between the first and the last character that is not white
      space. */
  lemma TrimIsInner(s: string)
    ensures var t := Trim(s);
            t == [] || (!IsSpace(t[0]) && !IsSpace(t[|t| - 1]))
  {
    var u := TrimStart(s);
    var t := TrimEnd(u);
    if t != [] {
      assert t[0] == u[0];
    }
  }

  /** The send rule: `message.trim() && !disabled`. */
  predicate CanSend(message: string, disabled: bool) {
    Trim(message) != "" && !disabled
  }

  /** A message can be sent exactly when it is not blank and input is enabled. */
  lemma CanSendIffNotBlank(message: string, disabled: bool)
    ensures CanSend(message, disabled) <==> !Blank(message) && !disabled
  {
    TrimEmptyIffBlank(message);
  }

  /** The send button's `disabled` rule. */
  predicate SendButtonDisabled(message: string, disabled: bool) {
    Trim(message) == "" || disabled
  }

  /** The button is disabled exactly when the draft is blank or input is disabled, that is,
      exactly when a send would do nothing. */
  lemma SendButtonDisabledIffBlank(message: string, disabled: bool)
    ensures SendButtonDisabled(message, disabled) <==> Blank(message) || disabled
    ensures SendButtonDisabled(message, disabled) <==> !CanSend(message, disabled)
  {
    TrimEmptyIffBlank(message);
  }

  /** The key that triggers a send attempt: Enter without Shift. */
  predicate IsSendKey(key: string, shiftKey: bool) {
    key == "Enter" && !shiftKey
  }

  /** The state of the chat input: the draft being typed. `disabled` is the component's
      property at the time of each event. */
  class ChatInputBox {
    var message: string

    constructor()
      ensures message == ""
    {
      message := "";
    }

    /** `handleSend`: `sent` is the text handed to `onSendMessage`, untrimmed. */
    method HandleSend(disabled: bool) returns (sent: Option<string>)
      modifies this
      ensures CanSend(old(message), disabled) ==> sent == Some(old(message)) && message == ""
      ensures !CanSend(old(message), disabled) ==> sent == None && message == old(message)
      ensures SendButtonDisabled(old(message), disabled) <==> sent == None
    {
      if Trim(message) != "" && !disabled {
        sent := Some(message);
        message := "";
      } else {
        sent := None;
      }
    }

    /** `handleKeyPress`: Enter without Shift attempts a send and suppresses the newline. */
    method HandleKeyPress(key: string, shiftKey: bool, disabled: bool)
      returns (sent: Option<string>, prevented: bool)
      modifies this
      ensures prevented <==> IsSendKey(key, shiftKey)
      ensures IsSendKey(key, shiftKey) && CanSend(old(message), disabled) ==>
                sent == Some(old(message)) && message == ""
      ensures !(IsSendKey(key, shiftKey) && CanSend(old(message), disabled)) ==>
                sent == None && message == old(message)
    {
      prevented := false;
      sent := None;
      if key == "Enter" && !shiftKey {
        prevented := true;
        sent := HandleSend(disabled);
      }
    }

    /** The text field's change handler. */
    method SetMessage(value: string)
      modifies this
      ensures message == value
    {
      message := value;
    }
  }
}
