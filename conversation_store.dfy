/** pdfier/src/store/ConversationStore.ts: the conversations shown in the chat
    sidebar and the one selected. List entries are the JSON values the service
    returned: the `Conversation` type is only a cast, never checked. */
module ConversationStore {
  import opened Wrappers
  import opened Http

  class Store {
    var selectedConversation: Option<Json>
    var conversations: seq<Json>

    /** No selection and an empty list. */
    constructor ()
      ensures selectedConversation == None && conversations == []
    {
      selectedConversation := None;
      conversations := [];
    }

    /** `setSelectedConversation`: only the selection changes. */
    method SetSelectedConversation(conv: Option<Json>)
      modifies this
      ensures selectedConversation == conv
      ensures conversations == old(conversations)
    {
      selectedConversation := conv;
    }

    /** `setConversations`: the list becomes the value given when it is an array,
        and empty otherwise. The selection is left alone, even when it is no
        longer in the list. */
    method SetConversations(list: Json)
      modifies this
      ensures conversations == ArrayOrEmpty(list)
      ensures selectedConversation == old(selectedConversation)
    {
      conversations := if list.JArr? then list.items else [];
    }
  }

  /** Nothing ties the selection to the list: after `setConversations` the
      selected conversation can be one the list does not hold. */
  method SelectionMayLeaveList(c: Json) returns (store: Store)
    ensures store.selectedConversation == Some(c) && c !in store.conversations
  {
    store := new Store();
    store.SetSelectedConversation(Some(c));
    store.SetConversations(JArr([]));
  }
}
