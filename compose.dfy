/**
 * Recomposing the message list of the selected conversation before a send:
 * the last `deleteCount` messages are popped, then the new message is
 * appended. Popping an empty list does nothing, so a `deleteCount` larger
 * than the list leaves only the new message.
 */
module Compose {
  import opened ChatTypes

  /** How many of `n` messages survive popping `deleteCount` of them. */
  function Kept(n: nat, deleteCount: nat): nat
  {
    if deleteCount <= n then n - deleteCount else 0
  }

  /** The recomposed message list, as a value. */
  function Recomposed(messages: seq<Message>, deleteCount: nat, message: Message): seq<Message>
  {
    messages[..Kept(|messages|, deleteCount)] + [message]
  }

  /**
   * The recomposition as the send flow performs it: a zero `deleteCount`
   * appends to the list as it is, any other value pops from a copy one
   * message at a time before appending.
   */
  method ComposeMessages(messages: seq<Message>, deleteCount: nat, message: Message)
    returns (updated: seq<Message>)
    ensures |updated| == Kept(|messages|, deleteCount) + 1
    ensures updated[..|updated| - 1] == messages[..Kept(|messages|, deleteCount)]
    ensures updated[|updated| - 1] == message
    ensures updated == Recomposed(messages, deleteCount, message)
  {
    if deleteCount != 0 {
      var kept := messages;
      for i := 0 to deleteCount
        invariant kept == messages[..Kept(|messages|, i)]
      {
        if |kept| > 0 {
          kept := kept[..|kept| - 1];
        }
      }
      updated := kept + [message];
    } else {
      updated := messages + [message];
    }
  }

  /** A normal send (`deleteCount` 0) is a plain append. */
  lemma NormalSendAppends(messages: seq<Message>, message: Message)
    ensures Recomposed(messages, 0, message) == messages + [message]
  {
    assert messages[..|messages|] == messages;
  }

  /**
   * Editing the message at `index` resends with `deleteCount` equal to the
   * number of messages from `index` on: the edited message takes the place
   * of the original and every later message is discarded.
   */
  lemma EditAndResend(messages: seq<Message>, index: nat, edited: Message)
    requires index < |messages|
    ensures Recomposed(messages, |messages| - index, edited) == messages[..index] + [edited]
    ensures Recomposed(messages, |messages| - index, edited)[index] == edited
    ensures |Recomposed(messages, |messages| - index, edited)| == index + 1
  {
  }

  /**
   * Regenerating resends the second-to-last message with `deleteCount` 2:
   * the result is the list without its last message, so the user message
   * that prompted the discarded reply is again the last one.
   */
  lemma Regenerate(messages: seq<Message>)
    requires |messages| >= 2
    ensures Recomposed(messages, 2, messages[|messages| - 2]) == messages[..|messages| - 1]
  {
    var n := |messages|;
    var r := Recomposed(messages, 2, messages[n - 2]);
    assert |r| == n - 1;
    forall k | 0 <= k < n - 1
      ensures r[k] == messages[k]
    {
    }
  }
}
