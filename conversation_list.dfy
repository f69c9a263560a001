/**
 * Writing the finished conversation back into the list of all
 * conversations: every entry with the selected id is replaced, and the
 * conversation is added only when the list is empty. A non-empty list
 * without a matching entry is left as it is.
 */
module ConversationList {
  import opened ChatTypes

  /** The id-based `map` over the list of conversations. */
  function ReplaceById(conversations: seq<Conversation>, id: string, updated: Conversation): (r: seq<Conversation>)
    ensures |r| == |conversations|
    ensures forall i :: 0 <= i < |r| && conversations[i].id == id ==> r[i] == updated
    ensures forall i :: 0 <= i < |r| && conversations[i].id != id ==> r[i] == conversations[i]
  {
    seq(|conversations|, i requires 0 <= i < |conversations| =>
      if conversations[i].id == id then updated else conversations[i])
  }

  /**
   * The list written back at the end of a send: the id-based replacement,
   * or the conversation alone when the list was empty.
   */
  function ListAfter(conversations: seq<Conversation>, id: string, final: Conversation): (r: seq<Conversation>)
    ensures conversations == [] ==> r == [final]
    ensures conversations != [] ==> |r| == |conversations|
    ensures final in r <==>
      conversations == [] || final in conversations || exists i :: 0 <= i < |conversations| && conversations[i].id == id
  {
    if conversations == [] then [final]
    else ReplacedMembership(conversations, id, final); ReplaceById(conversations, id, final)
  }

  /** The replacement followed by the push that happens only on an empty result. */
  method UpdateConversationList(conversations: seq<Conversation>, selectedId: string, updated: Conversation)
    returns (updatedConversations: seq<Conversation>)
    ensures updatedConversations == ListAfter(conversations, selectedId, updated)
    ensures conversations == [] ==> updatedConversations == [updated]
    ensures conversations != [] ==> updatedConversations == ReplaceById(conversations, selectedId, updated)
    ensures conversations != [] ==> |updatedConversations| == |conversations|
    ensures updated in updatedConversations <==>
      conversations == [] || updated in conversations || exists i :: 0 <= i < |conversations| && conversations[i].id == selectedId
  {
    updatedConversations := ReplaceById(conversations, selectedId, updated);
    if |updatedConversations| == 0 {
      updatedConversations := updatedConversations + [updated];
    }
  }

  /**
   * The updated conversation is in the replaced list exactly when it was
   * already there or some entry carried the selected id.
   */
  lemma ReplacedMembership(conversations: seq<Conversation>, id: string, updated: Conversation)
    ensures updated in ReplaceById(conversations, id, updated) <==>
      updated in conversations || exists i :: 0 <= i < |conversations| && conversations[i].id == id
  {
    var r := ReplaceById(conversations, id, updated);
    if updated in r {
      var i :| 0 <= i < |r| && r[i] == updated;
      if conversations[i].id != id {
        assert conversations[i] == updated;
      }
    }
    if updated in conversations {
      var i :| 0 <= i < |conversations| && conversations[i] == updated;
      assert r[i] == updated;
    }
    if exists i :: 0 <= i < |conversations| && conversations[i].id == id {
      var i :| 0 <= i < |conversations| && conversations[i].id == id;
      assert r[i] == updated;
    }
  }

  /** A non-empty list without a matching id gains nothing and loses nothing. */
  lemma NoMatchUnchanged(conversations: seq<Conversation>, id: string, updated: Conversation)
    requires forall i :: 0 <= i < |conversations| ==> conversations[i].id != id
    ensures ReplaceById(conversations, id, updated) == conversations
  {
  }

  /** Writing the same conversation back twice is the same as writing it once. */
  lemma ReplaceIdempotent(conversations: seq<Conversation>, updated: Conversation)
    ensures var once := ReplaceById(conversations, updated.id, updated);
      ReplaceById(once, updated.id, updated) == once
  {
  }
}
