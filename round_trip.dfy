/**
 * The page and the worker together: the JSON the page posts, how the page reads the
 * worker's response, and what a full round trip leaves in the chat history.
 */
module RoundTrip {
  import opened Wrappers
  import opened JsValue
  import opened Text
  import opened Selection
  import opened Conversation
  import opened Gateway

  function RoleName(role: Role): string {
    match role
    case System => "system"
    case User => "user"
    case Assistant => "assistant"
  }

  /** A message as `JSON.stringify` writes it and the worker parses it; an undefined content is dropped. */
  function MessageJson(m: Message): Value {
    if m.content.Undefined? then Obj(map["role" := Str(RoleName(m.role))])
    else Obj(map["role" := Str(RoleName(m.role)), "content" := m.content])
  }

  function MessagesJson(messages: seq<Message>): (r: seq<Value>)
    ensures |r| == |messages|
  {
    if messages == [] then [] else [MessageJson(messages[0])] + MessagesJson(messages[1..])
  }

  /** The parsed body of the page's POST: `{messages}`. */
  function RequestDoc(messages: seq<Message>): Value {
    Obj(map["messages" := Arr(MessagesJson(messages))])
  }

  /** How the page sees a worker response: `response.ok`, then `response.json()`. */
  function ClientOutcome(r: Response): Outcome {
    if !IsOk(r.status) then HttpNotOk(r.status)
    else match r.body
      case None => Threw
      case Some(doc) => Ok(doc)
  }

  /** Whatever the page sends (it never sends an empty list) is forwarded with its messages unchanged. */
  lemma PageRequestForwarded(messages: seq<Message>)
    requires messages != []
    ensures Forwarded("POST", Some(RequestDoc(messages))) == Some(Payload("gpt-4o", MessagesJson(messages)))
  {
    assert CheckBody(Some(RequestDoc(messages))) == Forward(MessagesJson(messages));
  }

  /** A request the page posts passes the checks; its response is decided by the upstream result alone. */
  lemma PageRequestRelayed(messages: seq<Message>, upstream: Upstream)
    requires messages != []
    ensures Handle("POST", Some(RequestDoc(messages)), upstream) == Relay(upstream)
  {
    assert CheckBody(Some(RequestDoc(messages))) == Forward(MessagesJson(messages));
  }

  /**
   * A follow-up answered by the provider with a well-formed completion: the worker
   * relays it and the history gains the question and then the answer.
   */
  lemma FollowUpRoundTrip(history: seq<Message>, input: string, content: Value,
                          status: int, statusText: string, text: string)
    requires Trim(input) != [] && IsOk(status)
    ensures var asked := history + [Message(User, Str(Trim(input)))];
            var r := Handle("POST", Some(RequestDoc(asked)), Answered(status, statusText, text, Some(CompletionDoc(content))));
            r == Response(200, JsonHeaders, Some(CompletionDoc(content)))
            && FollowedUp(history, input, ClientOutcome(r)) == asked + [Message(Assistant, content)]
  {
    var asked := history + [Message(User, Str(Trim(input)))];
    var upstream := Answered(status, statusText, text, Some(CompletionDoc(content)));
    PageRequestRelayed(asked, upstream);
    assert ClientOutcome(Relay(upstream)) == Ok(CompletionDoc(content));
    CompletionDocReply(content);
  }

  /**
   * A follow-up whose upstream call fails with a status in 300..599 other than 304: the
   * page sees that status and the history keeps the question without an answer.
   */
  lemma FollowUpUpstreamFailure(history: seq<Message>, input: string, status: int, statusText: string,
                                text: string, json: Option<Value>)
    requires Trim(input) != [] && 300 <= status <= 599 && status != 304
    ensures var asked := history + [Message(User, Str(Trim(input)))];
            var r := Handle("POST", Some(RequestDoc(asked)), Answered(status, statusText, text, json));
            ClientOutcome(r) == HttpNotOk(status)
            && FollowedUp(history, input, ClientOutcome(r)) == asked
  {
    var asked := history + [Message(User, Str(Trim(input)))];
    var upstream := Answered(status, statusText, text, json);
    PageRequestRelayed(asked, upstream);
    var r := Relay(upstream);
    assert r.status == status && !IsOk(status);
    assert ClientOutcome(r) == HttpNotOk(status);
    assert Reply(HttpNotOk(status)) == None;
  }

  /** A routine generated through the worker leaves exactly the request and the answer in the history. */
  lemma GenerateRoundTrip(selected: seq<SelectedProduct>, history: seq<Message>, content: Value,
                          status: int, statusText: string, text: string)
    requires selected != [] && IsOk(status)
    ensures var r := Handle("POST", Some(RequestDoc(RoutineRequest(selected))),
                            Answered(status, statusText, text, Some(CompletionDoc(content))));
            Generated(selected, history, ClientOutcome(r)) == RoutineRequest(selected) + [Message(Assistant, content)]
  {
    var upstream := Answered(status, statusText, text, Some(CompletionDoc(content)));
    PageRequestRelayed(RoutineRequest(selected), upstream);
    assert ClientOutcome(Relay(upstream)) == Ok(CompletionDoc(content));
    CompletionDocReply(content);
  }
}
