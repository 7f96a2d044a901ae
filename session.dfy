/**
 * The page's state: the selected products and the chat history that the click and
 * submit handlers update in place.
 */
module Session {
  import opened Wrappers
  import opened JsValue
  import opened Text
  import opened Selection
  import opened Conversation

  class ClientSession {
    var selectedProducts: seq<SelectedProduct>
    var chatHistory: seq<Message>

    /** No product is selected twice and no user turn is blank or untrimmed. */
    ghost predicate Valid()
      reads this
    {
      UniqueIds(selectedProducts) && UserTurnsTrimmed(chatHistory)
    }

    constructor ()
      ensures Valid()
      ensures selectedProducts == [] && chatHistory == []
    {
      selectedProducts := [];
      chatHistory := [];
    }

    /** `selectedProducts.findIndex(product => product.id === productId)` */
    method FindIndex(productId: string) returns (index: int)
      ensures index == IndexOf(selectedProducts, productId)
    {
      index := 0;
      while index < |selectedProducts|
        invariant 0 <= index <= |selectedProducts|
        invariant forall k :: 0 <= k < index ==> selectedProducts[k].id != productId
      {
        if selectedProducts[index].id == productId {
          return;
        }
        index := index + 1;
      }
      index := -1;
    }

    /**
     * A click on a product card: an unselected product is pushed with the name shown
     * on its card, a selected one is spliced out. Reports whether it was added.
     */
    method ToggleProduct(productId: string, name: string) returns (added: bool)
      requires Valid()
      modifies this
      ensures Valid()
      ensures added == !HasId(old(selectedProducts), productId)
      ensures added ==> selectedProducts == old(selectedProducts) + [SelectedProduct(productId, name)]
      ensures !added ==> (selectedProducts == WithoutId(old(selectedProducts), productId)
                          && |selectedProducts| == |old(selectedProducts)| - 1)
      ensures selectedProducts == Toggled(old(selectedProducts), productId, name)
      ensures chatHistory == old(chatHistory)
    {
      ToggleKeepsUnique(selectedProducts, productId, name);
      var productIndex := FindIndex(productId);
      if productIndex == -1 {
        selectedProducts := selectedProducts + [SelectedProduct(productId, name)];
        added := true;
      } else {
        TogglePresentRemoves(selectedProducts, productId, name);
        selectedProducts := selectedProducts[..productIndex] + selectedProducts[productIndex + 1..];
        added := false;
      }
    }

    /** A click on a "Remove" button in the selected list. */
    method RemoveProduct(productId: string)
      requires Valid()
      modifies this
      ensures Valid()
      ensures selectedProducts == WithoutId(old(selectedProducts), productId)
      ensures !HasId(selectedProducts, productId)
      ensures chatHistory == old(chatHistory)
    {
      RemoveKeepsUnique(selectedProducts, productId);
      RemoveIdempotent(selectedProducts, productId);
      selectedProducts := WithoutId(selectedProducts, productId);
    }

    /**
     * A click on "Generate Routine". Returns the messages sent to the worker, or `None`
     * when nothing was sent; `outcome` is how that call ended.
     */
    method GenerateRoutine(outcome: Outcome) returns (sent: Option<seq<Message>>)
      requires Valid()
      modifies this
      ensures Valid()
      ensures sent == if old(selectedProducts) == [] then None else Some(RoutineRequest(old(selectedProducts)))
      ensures chatHistory == Generated(old(selectedProducts), old(chatHistory), outcome)
      ensures selectedProducts == old(selectedProducts)
    {
      GenerateKeepsTurnsTrimmed(selectedProducts, chatHistory, outcome);
      if |selectedProducts| == 0 {
        return None;
      }
      var messages := RoutineRequest(selectedProducts);
      sent := Some(messages);
      match outcome {
        case Ok(data) =>
          var routine := ExtractReply(data);
          if routine.Some? {
            chatHistory := messages + [Message(Assistant, routine.value)];
          }
        case HttpNotOk(_) =>
        case Threw =>
      }
    }

    /**
     * A submit of the chat form with the input's raw text. Returns the history sent to
     * the worker, or `None` when the trimmed text is empty; `outcome` is how the call ended.
     */
    method SubmitFollowUp(input: string, outcome: Outcome) returns (sent: Option<seq<Message>>)
      requires Valid()
      modifies this
      ensures Valid()
      ensures sent == if Trim(input) == [] then None
                      else Some(old(chatHistory) + [Message(User, Str(Trim(input)))])
      ensures chatHistory == FollowedUp(old(chatHistory), input, outcome)
      ensures selectedProducts == old(selectedProducts)
    {
      FollowUpKeepsTurnsTrimmed(chatHistory, input, outcome);
      var userMessage := Trim(input);
      if userMessage == [] {
        return None;
      }
      chatHistory := chatHistory + [Message(User, Str(userMessage))];
      sent := Some(chatHistory);
      match outcome {
        case Ok(data) =>
          var aiResponse := ExtractReply(data);
          if aiResponse.Some? {
            chatHistory := chatHistory + [Message(Assistant, aiResponse.value)];
          }
        case HttpNotOk(_) =>
        case Threw =>
      }
    }
  }
}
