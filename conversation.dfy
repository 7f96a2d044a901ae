/**
 * The conversation with the routine assistant, as values: the request built from the
 * selection, the reading of the worker's answer, and the history each click or
 * submit leaves behind.
 */
module Conversation {
  import opened Wrappers
  import opened JsValue
  import opened Text
  import opened Selection
  import opened SelectionJson

  datatype Role = System | User | Assistant

  /** `{role, content}`; an assistant turn holds whatever `message.content` was. */
  datatype Message = Message(role: Role, content: Value)

  /** How a call to the worker ended, seen from the page. */
  datatype Outcome =
    | Ok(data: Value)            // response.ok and response.json() produced `data`
    | HttpNotOk(status: int)     // !response.ok
    | Threw                      // fetch or response.json() rejected

  const SystemPrompt: string :=
    "You are a helpful assistant specializing in beauty routines. Use web search to provide the most up-to-date information about L’Oréal products."

  const RoutinePrefix: string := "Generate" + " a personalized routine using these products: "

  /** The user turn asking for a routine: the prefix, then the selection as JSON. */
  function RoutinePrompt(selected: seq<SelectedProduct>): string {
    RoutinePrefix + Stringify(selected)
  }

  /** The two messages the "Generate Routine" button sends. */
  function RoutineRequest(selected: seq<SelectedProduct>): seq<Message> {
    [Message(System, Str(SystemPrompt)), Message(User, Str(RoutinePrompt(selected)))]
  }

  /**
   * `data.choices[0].message.content`, guarded by the check that `data.choices`,
   * `data.choices[0]` and `data.choices[0].message` are all truthy; `None` when the
   * check fails or reading `.choices` of a null document throws.
   */
  function ExtractReply(data: Value): Option<Value> {
    if Nullish(data) then None
    else
      var choices := Member(data, "choices");
      if !Truthy(choices) then None
      else
        var first := Index0(choices);
        if !Truthy(first) then None
        else
          var message := Member(first, "message");
          if !Truthy(message) then None
          else Some(Member(message, "content"))
  }

  /** What the try block produces: the assistant's content, or `None` when it ends in the catch. */
  function Reply(outcome: Outcome): Option<Value> {
    match outcome
    case Ok(data) => ExtractReply(data)
    case HttpNotOk(_) => None
    case Threw => None
  }

  /** The history after a click on "Generate Routine". */
  function Generated(selected: seq<SelectedProduct>, history: seq<Message>, outcome: Outcome): seq<Message> {
    if selected == [] then history
    else match Reply(outcome)
      case Some(content) => RoutineRequest(selected) + [Message(Assistant, content)]
      case None => history
  }

  /** The history after a follow-up question is submitted with the input's raw text. */
  function FollowedUp(history: seq<Message>, input: string, outcome: Outcome): seq<Message> {
    var question := Trim(input);
    if question == [] then history
    else
      var asked := history + [Message(User, Str(question))];
      match Reply(outcome)
      case Some(content) => asked + [Message(Assistant, content)]
      case None => asked
  }

  // The shape the page expects from the worker.

  /** `{"choices": [{"message": {"content": content}}]}` */
  function CompletionDoc(content: Value): Value {
    Obj(map["choices" := Arr([Obj(map["message" := Obj(map["content" := content])])])])
  }

  /** The selection a routine prompt was built from, read back from its text. */
  function PromptSelection(content: Value): Option<seq<SelectedProduct>> {
    if content.Str? && |RoutinePrefix| <= |content.s| && content.s[..|RoutinePrefix|] == RoutinePrefix
    then ReadSelection(content.s[|RoutinePrefix|..])
    else None
  }

  /** No user turn is empty, and none begins or ends with white space. */
  predicate UserTurnsTrimmed(history: seq<Message>) {
    forall k :: 0 <= k < |history| && history[k].role == User ==>
      history[k].content.Str? && IsTrimmed(history[k].content.s)
  }

  /** A well-formed completion yields its content. */
  lemma CompletionDocReply(content: Value)
    ensures ExtractReply(CompletionDoc(content)) == Some(content)
  {
  }

  /**
   * Each of the three guards rejects a document lacking its part, and a document that
   * passes all three yields the message's content.
   */
  lemma MissingPartsRejected(data: Value)
    requires !Nullish(data)
    ensures var choices := Member(data, "choices");
            !Truthy(choices) ==> ExtractReply(data) == None
    ensures var choices := Member(data, "choices");
            Truthy(choices) && !Truthy(Index0(choices)) ==> ExtractReply(data) == None
    ensures var choices := Member(data, "choices");
            Truthy(choices) && Truthy(Index0(choices)) ==>
              var message := Member(Index0(choices), "message");
              !Truthy(message) ==> ExtractReply(data) == None
    ensures var choices := Member(data, "choices");
            Truthy(choices) && Truthy(Index0(choices)) ==>
              var message := Member(Index0(choices), "message");
              Truthy(message) ==> ExtractReply(data) == Some(Member(message, "content"))
  {
  }

  /** The routine prompt names the selection, in store order: it can be read back from the text. */
  lemma RoutinePromptNamesSelection(selected: seq<SelectedProduct>)
    ensures PromptSelection(Str(RoutinePrompt(selected))) == Some(selected)
  {
    var p := RoutinePrompt(selected);
    assert p[..|RoutinePrefix|] == RoutinePrefix;
    assert p[|RoutinePrefix|..] == Stringify(selected);
    StringifyRoundTrip(selected);
  }

  /** An empty selection or a failed call leaves the history exactly as it was. */
  lemma GenerateFailureKeepsHistory(selected: seq<SelectedProduct>, history: seq<Message>, outcome: Outcome)
    requires selected == [] || Reply(outcome) == None
    ensures Generated(selected, history, outcome) == history
  {
  }

  /**
   * A successful generation replaces the history by exactly three turns: the fixed
   * system prompt, the user turn naming the selection in store order, and the
   * assistant's content.
   */
  lemma GenerateSuccessHistory(selected: seq<SelectedProduct>, history: seq<Message>, outcome: Outcome, content: Value)
    requires selected != [] && Reply(outcome) == Some(content)
    ensures var h := Generated(selected, history, outcome);
            |h| == 3
            && h[0] == Message(System, Str(SystemPrompt))
            && h[1].role == User && PromptSelection(h[1].content) == Some(selected)
            && h[2] == Message(Assistant, content)
  {
    RoutinePromptNamesSelection(selected);
  }

  /**
   * A follow-up never rewrites the past: the old history is a prefix of the new one;
   * blank input adds nothing, otherwise the trimmed question is added and the
   * assistant's answer follows it exactly when the call succeeded.
   */
  lemma FollowUpAppends(history: seq<Message>, input: string, outcome: Outcome)
    ensures var h := FollowedUp(history, input, outcome);
            |history| <= |h| && h[..|history|] == history
            && (h == history <==> Trim(input) == [])
            && (Trim(input) != [] ==>
                  h[|history|] == Message(User, Str(Trim(input)))
                  && |h| == |history| + (if Reply(outcome).Some? then 2 else 1)
                  && (Reply(outcome).Some? ==> h[|history| + 1] == Message(Assistant, Reply(outcome).value)))
  {
    var question := Trim(input);
    if question != [] {
      var asked := history + [Message(User, Str(question))];
      assert asked[..|history|] == history && asked[|history|] == Message(User, Str(question));
      match Reply(outcome)
      case Some(content) =>
        var h := asked + [Message(Assistant, content)];
        assert h[..|history|] == asked[..|history|];
        assert h[|history|] == asked[|history|];
      case None =>
    }
  }

  /** Once a routine has been generated, follow-ups keep the two opening turns in place. */
  lemma FollowUpKeepsOpening(selected: seq<SelectedProduct>, history: seq<Message>, input: string, outcome: Outcome)
    requires |history| >= 2 && history[..2] == RoutineRequest(selected)
    ensures var h := FollowedUp(history, input, outcome);
            |h| >= 2 && h[..2] == RoutineRequest(selected)
  {
    FollowUpAppends(history, input, outcome);
    var h := FollowedUp(history, input, outcome);
    assert h[..2] == h[..|history|][..2];
  }

  /** Generating keeps every user turn non-empty and trimmed. */
  lemma GenerateKeepsTurnsTrimmed(selected: seq<SelectedProduct>, history: seq<Message>, outcome: Outcome)
    requires UserTurnsTrimmed(history)
    ensures UserTurnsTrimmed(Generated(selected, history, outcome))
  {
    var p := RoutinePrompt(selected);
    assert IsTrimmed(p) by {
      assert p[0] == RoutinePrefix[0] == 'G';
      assert p[|p| - 1] == ']';
    }
  }

  /** Following up keeps every user turn non-empty and trimmed. */
  lemma FollowUpKeepsTurnsTrimmed(history: seq<Message>, input: string, outcome: Outcome)
    requires UserTurnsTrimmed(history)
    ensures UserTurnsTrimmed(FollowedUp(history, input, outcome))
  {
    var question := Trim(input);
    if question != [] {
      var asked := history + [Message(User, Str(question))];
      AppendKeepsTurnsTrimmed(history, Message(User, Str(question)));
      if Reply(outcome).Some? {
        AppendKeepsTurnsTrimmed(asked, Message(Assistant, Reply(outcome).value));
      }
    }
  }

  lemma AppendKeepsTurnsTrimmed(history: seq<Message>, m: Message)
    requires UserTurnsTrimmed(history)
    requires m.role == User ==> m.content.Str? && IsTrimmed(m.content.s)
    ensures UserTurnsTrimmed(history + [m])
  {
    var h := history + [m];
    forall k | 0 <= k < |h| && h[k].role == User
      ensures h[k].content.Str? && IsTrimmed(h[k].content.s)
    {
      if k < |history| {
        assert h[k] == history[k];
      }
    }
  }
}
