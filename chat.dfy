/** The turn-taking of components/AIChat.tsx. The awaited call to the
    text-generation service is split at its only suspension point: sending
    returns the request to hand to the service, and completing takes what
    the service produced (a reply text or a failure). */
module Chat {
  import opened Types

  const Greeting: string :=
    "Konnichiwa! I am your Anime Assistant. Ask me anything about your favorite series, or let me help you pick out some awesome gear from the shop!"

  /** The history a newly mounted panel shows: one greeting by the model. */
  function InitialHistory(): (h: seq<ChatMessage>)
    ensures |h| == 1 && h[0].role == Model && h[0].text == Greeting
  {
    [ChatMessage(Model, Greeting)]
  }

  // ---- String.prototype.trim ----------------------------------------------

  /** The characters `trim` strips: ECMAScript WhiteSpace and LineTerminator. */
  predicate IsSpace(c: char)
  {
    c == ' ' || c == '\t' || c == '\n' || c == '\r' || c == '\U{000B}' || c == '\U{000C}'
    || c == '\U{00A0}' || c == '\U{FEFF}' || c == '\U{1680}' || ('\U{2000}' <= c <= '\U{200A}')
    || c == '\U{2028}' || c == '\U{2029}' || c == '\U{202F}' || c == '\U{205F}' || c == '\U{3000}'
  }

  /** Every character of `s` is white space (vacuously so for ""). */
  predicate Blank(s: string)
  {
    forall i :: 0 <= i < |s| ==> IsSpace(s[i])
  }

  /** `s` without its leading white space. */
  function TrimStart(s: string): (r: string)
    ensures |r| <= |s| && r == s[|s| - |r|..]
    ensures forall i :: 0 <= i < |s| - |r| ==> IsSpace(s[i])
    ensures r != [] ==> !IsSpace(r[0])
  {
    if s != [] && IsSpace(s[0]) then TrimStart(s[1..]) else s
  }

  /** `s` without its trailing white space. */
  function TrimEnd(s: string): (r: string)
    ensures |r| <= |s| && r == s[..|r|]
    ensures forall i :: |r| <= i < |s| ==> IsSpace(s[i])
    ensures r != [] ==> !IsSpace(r[|r| - 1])
  {
    if s != [] && IsSpace(s[|s| - 1]) then TrimEnd(s[..|s| - 1]) else s
  }

  function Trim(s: string): string
  {
    TrimEnd(TrimStart(s))
  }

  /** `!s.trim()` holds exactly for the blank strings. */
  lemma TrimEmptyIffBlank(s: string)
    ensures Trim(s) == [] <==> Blank(s)
  {
    var t := TrimStart(s);
    assert t != [] ==> t[0] == s[|s| - |t|];
    assert Trim(s) == [] ==> Blank(t);
  }

  // ---- the panel ----------------------------------------------------------

  /** What `generateProfessorResponse(history, text)` is called with. */
  datatype Request = Request(history: seq<ChatMessage>, text: string)

  /** How the awaited call ends: with a reply text, or by throwing. */
  datatype Outcome = Reply(text: string) | Failure

  class ChatPanel {
    var messages: seq<ChatMessage>
    var inputValue: string
    var isLoading: bool

    constructor ()
      ensures messages == InitialHistory() && inputValue == "" && !isLoading
    {
      messages := InitialHistory();
      inputValue := "";
      isLoading := false;
    }

    /** Typing in the input box, which is disabled while a request is pending. */
    method TypeInput(s: string)
      modifies this`inputValue
      ensures inputValue == (if isLoading then old(inputValue) else s)
    {
      if !isLoading {
        inputValue := s;
      }
    }

    /** `handleSendMessage` up to the await. Blank input changes nothing and
        sends nothing. Otherwise the untrimmed input is appended as a user
        message, the input is cleared, the panel turns pending, and the
        request carries the history as it was before the new message. */
    method HandleSendMessage() returns (request: Option<Request>)
      modifies this
      ensures Blank(old(inputValue)) ==>
                request == None && messages == old(messages)
                && inputValue == old(inputValue) && isLoading == old(isLoading)
      ensures !Blank(old(inputValue)) ==>
                request == Some(Request(old(messages), old(inputValue)))
                && messages == old(messages) + [ChatMessage(User, old(inputValue))]
                && inputValue == "" && isLoading
      ensures old(messages) <= messages
    {
      TrimEmptyIffBlank(inputValue);
      if Trim(inputValue) == [] {
        return None;
      }
      var text := inputValue;
      var history := messages;
      messages := messages + [ChatMessage(User, text)];
      inputValue := "";
      isLoading := true;
      request := Some(Request(history, text));
    }

    /** The rest of `handleSendMessage`, once the awaited call has ended: a
        reply is appended as one model message, a failure appends nothing,
        and the pending flag clears on both paths. */
    method CompleteSend(outcome: Outcome)
      requires isLoading
      modifies this
      ensures outcome.Reply? ==> messages == old(messages) + [ChatMessage(Model, outcome.text)]
      ensures outcome.Failure? ==> messages == old(messages)
      ensures !isLoading && inputValue == old(inputValue)
      ensures old(messages) <= messages
    {
      if outcome.Reply? {
        messages := messages + [ChatMessage(Model, outcome.text)];
      }
      isLoading := false;
    }

    /** The Enter key, which sends only when nothing is pending. */
    method PressEnter() returns (request: Option<Request>)
      modifies this
      ensures old(isLoading) ==>
                request == None && messages == old(messages) && inputValue == old(inputValue) && isLoading
      ensures !old(isLoading) && !Blank(old(inputValue)) ==>
                request == Some(Request(old(messages), old(inputValue)))
                && messages == old(messages) + [ChatMessage(User, old(inputValue))]
                && inputValue == "" && isLoading
      ensures !old(isLoading) && Blank(old(inputValue)) ==>
                request == None && messages == old(messages) && inputValue == old(inputValue) && !isLoading
      ensures old(messages) <= messages
    {
      if isLoading {
        return None;
      }
      request := HandleSendMessage();
    }

    /** The send button, disabled while pending or while the input is blank. */
    method ClickSend() returns (request: Option<Request>)
      modifies this
      ensures old(isLoading) || Blank(old(inputValue)) ==>
                request == None && messages == old(messages)
                && inputValue == old(inputValue) && isLoading == old(isLoading)
      ensures !old(isLoading) && !Blank(old(inputValue)) ==>
                request == Some(Request(old(messages), old(inputValue)))
                && messages == old(messages) + [ChatMessage(User, old(inputValue))]
                && inputValue == "" && isLoading
      ensures old(messages) <= messages
    {
      TrimEmptyIffBlank(inputValue);
      if isLoading || Trim(inputValue) == [] {
        return None;
      }
      request := HandleSendMessage();
    }
  }

  /** One full exchange on a fresh panel: "Hello" answered by "Hi there". */
  method HelloExchange()
  {
    var panel := new ChatPanel();
    panel.TypeInput("Hello");
    assert !IsSpace('H');
    var request := panel.PressEnter();
    assert request == Some(Request(InitialHistory(), "Hello"));
    var second := panel.PressEnter();
    assert second == None;
    panel.CompleteSend(Reply("Hi there"));
    assert panel.messages == [ChatMessage(Model, Greeting), ChatMessage(User, "Hello"), ChatMessage(Model, "Hi there")];
    assert !panel.isLoading;
  }
}
