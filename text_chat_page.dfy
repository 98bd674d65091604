/**
 * The text chat page (frontend/src/pages/TextChatPage.tsx). `send` appends the user's message and a
 * "Thinking..." placeholder, clears the input, and when the reply (or the failure) arrives replaces
 * the text of the placeholder, found by its id, in whatever the list holds by then. The two halves
 * of `send` are `Send` and `ReplyArrived`; the ids that `crypto.randomUUID` would draw are inputs,
 * assumed fresh.
 */
module TextChat {
  import opened Wrappers
  import opened Text

  datatype Role = User | Assistant

  datatype ChatMessage = ChatMessage(id: string, role: Role, text: string)

  const Thinking: string := "Thinking..."
  const EmptyResponse: string := "(empty response)"

  /**
   * The chat request's outcome: the `text` field of an OK reply (maybe absent), a reply that is not
   * OK (status code, status text, body), or an exception thrown by `fetch` or `res.json`.
   */
  datatype ChatOutcome =
    | Replied(text: Option<string>)
    | NotOk(status: string, statusText: string, body: string)
    | Threw(message: string)

  /** The header: "Chat cu <name>" for a non-blank avatar name, else "Chat". */
  function Title(avatarName: Option<string>): (r: string)
    ensures AllSpace(avatarName.GetOr("")) ==> r == "Chat"
    ensures !AllSpace(avatarName.GetOr("")) ==> r == "Chat cu " + Trim(avatarName.GetOr(""))
  {
    var name := Trim(avatarName.GetOr(""));
    if name != "" then "Chat cu " + name else "Chat"
  }

  predicate IdsOf(messages: seq<ChatMessage>, id: string) {
    exists i :: 0 <= i < |messages| && messages[i].id == id
  }

  /** The two messages `send` appends, in order. */
  function Appended(messages: seq<ChatMessage>, trimmed: string, userId: string, thinkingId: string): (r: seq<ChatMessage>)
    ensures |r| == |messages| + 2 && r[..|messages|] == messages
    ensures r[|messages|] == ChatMessage(userId, User, trimmed)
    ensures r[|messages| + 1] == ChatMessage(thinkingId, Assistant, Thinking)
  {
    messages + [ChatMessage(userId, User, trimmed), ChatMessage(thinkingId, Assistant, Thinking)]
  }

  /** `m.map(msg => msg.id === id ? { ...msg, text } : msg)`. */
  function ReplaceText(messages: seq<ChatMessage>, id: string, text: string): (r: seq<ChatMessage>)
    ensures |r| == |messages|
    ensures forall i :: 0 <= i < |messages| && messages[i].id != id ==> r[i] == messages[i]
    ensures forall i :: 0 <= i < |messages| && messages[i].id == id ==> r[i] == messages[i].(text := text)
  {
    seq(|messages|, i requires 0 <= i < |messages| =>
      if messages[i].id == id then messages[i].(text := text) else messages[i])
  }

  /** Replacing over one more message extends the result by that message, replaced or not. */
  lemma ReplaceTextSnoc(messages: seq<ChatMessage>, m: ChatMessage, id: string, text: string)
    ensures ReplaceText(messages + [m], id, text) ==
      ReplaceText(messages, id, text) + [if m.id == id then m.(text := text) else m]
  {
    var all := messages + [m];
    assert forall i :: 0 <= i < |messages| ==> all[i] == messages[i];
    assert all[|messages|] == m;
  }

  /** What the placeholder comes to say: the trimmed reply, a marker for a blank one, or the error. */
  function PlaceholderText(outcome: ChatOutcome): (r: string)
    ensures outcome.Replied? && !AllSpace(outcome.text.GetOr("")) ==> r == Trim(outcome.text.GetOr(""))
    ensures outcome.Replied? && AllSpace(outcome.text.GetOr("")) ==> r == EmptyResponse
    ensures outcome.NotOk? ==> r == "Error: " + HttpFailure("HTTP", outcome.status, outcome.statusText, outcome.body)
    ensures outcome.Threw? ==> r == "Error: " + outcome.message
    ensures r != ""
  {
    match outcome
    case Replied(text) =>
      var reply := Trim(text.GetOr(""));
      if reply != "" then reply else EmptyResponse
    case NotOk(status, statusText, body) => "Error: " + HttpFailure("HTTP", status, statusText, body)
    case Threw(message) => "Error: " + message
  }

  /** Replies to two different placeholders can arrive in either order with the same result. */
  lemma {:induction false} RepliesCommute(messages: seq<ChatMessage>, a: string, ta: string, b: string, tb: string)
    requires a != b
    ensures ReplaceText(ReplaceText(messages, a, ta), b, tb) == ReplaceText(ReplaceText(messages, b, tb), a, ta)
  {
    var left := ReplaceText(ReplaceText(messages, a, ta), b, tb);
    var right := ReplaceText(ReplaceText(messages, b, tb), a, ta);
    assert forall i :: 0 <= i < |messages| ==> left[i] == right[i];
  }

  /** Replacing by an id no message carries leaves the list as it is. */
  lemma ReplaceAbsentId(messages: seq<ChatMessage>, id: string, text: string)
    requires !IdsOf(messages, id)
    ensures ReplaceText(messages, id, text) == messages
  {
  }

  /** The page's state: the message list and the input box. */
  class TextChatPage {
    var messages: seq<ChatMessage>
    var text: string

    constructor ()
      ensures messages == [] && text == ""
    {
      messages := [];
      text := "";
    }

    method SetText(t: string)
      modifies this
      ensures text == t && messages == old(messages)
    {
      text := t;
    }

    /**
     * `send` up to the request. A blank input changes nothing and sends nothing; otherwise the user's
     * trimmed text and the placeholder are appended, the input is cleared, and `sent` is the text
     * posted to `/chat`.
     */
    method Send(userId: string, thinkingId: string) returns (sent: Option<string>)
      requires userId != thinkingId && !IdsOf(messages, thinkingId)
      modifies this
      ensures AllSpace(old(text)) ==> sent.None? && messages == old(messages) && text == old(text)
      ensures !AllSpace(old(text)) ==>
        && sent == Some(Trim(old(text)))
        && messages == Appended(old(messages), Trim(old(text)), userId, thinkingId)
        && text == ""
    {
      var trimmed := Trim(text);
      if trimmed == "" {
        return None;
      }
      messages := messages + [ChatMessage(userId, User, trimmed), ChatMessage(thinkingId, Assistant, Thinking)];
      text := "";
      sent := Some(trimmed);
    }

    /** The rest of `send`: only the message with `thinkingId` changes, and only its text. */
    method ReplyArrived(thinkingId: string, outcome: ChatOutcome)
      modifies this
      ensures messages == ReplaceText(old(messages), thinkingId, PlaceholderText(outcome))
      ensures text == old(text)
    {
      var newText := PlaceholderText(outcome);
      var current := messages;
      var updated: seq<ChatMessage> := [];
      for i := 0 to |current|
        invariant updated == ReplaceText(current[..i], thinkingId, newText)
        invariant messages == current && text == old(text)
      {
        var msg := current[i];
        assert current[..i + 1] == current[..i] + [msg];
        ReplaceTextSnoc(current[..i], msg, thinkingId, newText);
        updated := updated + [if msg.id == thinkingId then msg.(text := newText) else msg];
      }
      assert current[..|current|] == current;
      messages := updated;
    }
  }

  /** After a send and its reply, the list has grown by two and ends with the user text and the answer. */
  lemma SendThenReply(messages: seq<ChatMessage>, trimmed: string, userId: string, thinkingId: string, outcome: ChatOutcome)
    requires userId != thinkingId && !IdsOf(messages, thinkingId)
    ensures var r := ReplaceText(Appended(messages, trimmed, userId, thinkingId), thinkingId, PlaceholderText(outcome));
      && |r| == |messages| + 2
      && r[..|messages|] == messages
      && r[|messages|] == ChatMessage(userId, User, trimmed)
      && r[|messages| + 1] == ChatMessage(thinkingId, Assistant, PlaceholderText(outcome))
  {
    var appended := Appended(messages, trimmed, userId, thinkingId);
    var r := ReplaceText(appended, thinkingId, PlaceholderText(outcome));
    forall i | 0 <= i < |messages|
      ensures r[i] == messages[i]
    {
      assert appended[i] == messages[i];
    }
  }
}
