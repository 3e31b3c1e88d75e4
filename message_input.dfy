/** `components/message-input.tsx`: the text area with its send guard. The
    `message` state is a field; the `onSendMessage` callback is modelled by
    recording each text handed to it in `sent`. `isLoading` is a prop, so
    it is a parameter of every handler. */
module MessageInputComponent {
  import opened Basics

  class MessageInput {
    var message: string
    /** The texts passed to `onSendMessage`, oldest first. */
    var sent: seq<string>

    constructor()
      ensures message == "" && sent == []
    {
      message := "";
      sent := [];
    }

    /** `onChange`: the field takes the typed value. */
    method Change(value: string)
      modifies this
      ensures message == value && sent == old(sent)
    {
      message := value;
    }

    /** `handleSend`: a text that is not blank is sent as typed, untrimmed,
        and the field is cleared; while loading, or for a blank text,
        nothing happens. */
    method HandleSend(isLoading: bool)
      modifies this
      ensures !IsBlank(old(message)) && !isLoading ==> sent == old(sent) + [old(message)] && message == ""
      ensures IsBlank(old(message)) || isLoading ==> sent == old(sent) && message == old(message)
    {
      if !TrimsToEmpty(message) && !isLoading {
        sent := sent + [message];
        message := "";
      }
    }

    /** `handleKeyPress`: Enter without Shift sends and suppresses the
        newline; any other key is left to the text area. */
    method HandleKeyPress(key: string, shiftKey: bool, isLoading: bool) returns (preventDefault: bool)
      modifies this
      ensures preventDefault <==> key == "Enter" && !shiftKey
      ensures preventDefault && !IsBlank(old(message)) && !isLoading ==>
                sent == old(sent) + [old(message)] && message == ""
      ensures !preventDefault || IsBlank(old(message)) || isLoading ==>
                sent == old(sent) && message == old(message)
    {
      preventDefault := key == "Enter" && !shiftKey;
      if preventDefault {
        HandleSend(isLoading);
      }
    }

    /** The send button is disabled exactly when the text is blank or a
        reply is pending. */
    function SubmitDisabled(isLoading: bool): (disabled: bool)
      reads this
      ensures disabled <==> IsBlank(message) || isLoading
    {
      TrimsToEmpty(message) || isLoading
    }

    /** The text area is disabled exactly while a reply is pending, and then
        the send button is disabled too. */
    function TextareaDisabled(isLoading: bool): (disabled: bool)
      reads this
      ensures disabled <==> isLoading
      ensures disabled ==> SubmitDisabled(isLoading)
    {
      isLoading
    }
  }
}
