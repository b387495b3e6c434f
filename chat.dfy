/**
  Sending a chat message on the Matches tab (App.tsx:838-846), without the
  delayed auto-reply.
 */
module Chat {
  import opened Model
  import opened Text

  /** The chat history and the input box after pressing send, with the new
      message's id supplied by the caller. */
  function Send(history: seq<Message>, input: string, id: string): (r: (seq<Message>, string))
    ensures !HasText(input) ==> r == (history, input)
    ensures HasText(input) ==>
      && r.1 == ""
      && |r.0| == |history| + 1
      && r.0[..|history|] == history
      && r.0[|history|] == Message(id, Trim(input), true)
  {
    if HasText(input) then (history + [Message(id, Trim(input), true)], "")
    else (history, input)
  }

  /** Input made only of white space (or no input) is ignored. */
  lemma SendBlank(history: seq<Message>, input: string, id: string)
    requires AllSpace(input)
    ensures Send(history, input, id) == (history, input)
  {
    HasTextIff(input);
  }

  /** A message that was sent is non-empty, from the user, and has no white
      space at either end: sending it again would send it unchanged. */
  lemma SentMessageTrimmed(history: seq<Message>, input: string, id: string)
    requires HasText(input)
    ensures var m := Send(history, input, id).0[|history|];
      && m.isFromUser && m.message != []
      && !IsSpace(m.message[0]) && !IsSpace(m.message[|m.message| - 1])
      && Trim(m.message) == m.message
  {
    var m := Send(history, input, id).0[|history|];
    assert m.message == Trim(input);
    var i, j := TrimBounds(input);
    TrimIdempotent(input);
  }
}
