/**
 * Naming a conversation after its first message: when a send without a
 * plugin leaves exactly one message in the conversation, the conversation
 * is renamed to that message's content, cut to 30 characters and followed
 * by an ellipsis when it is longer.
 */
module AutoName {
  import opened ChatTypes

  const NAME_LIMIT: nat := 30
  const ELLIPSIS: string := "..."

  /** The name derived from a message's content. */
  function CustomName(content: string): (name: string)
    ensures |name| <= NAME_LIMIT + |ELLIPSIS|
    ensures |content| <= NAME_LIMIT ==> name == content
    ensures |content| > NAME_LIMIT ==>
      |name| == NAME_LIMIT + |ELLIPSIS| && name[..NAME_LIMIT] == content[..NAME_LIMIT] && name[NAME_LIMIT..] == ELLIPSIS
  {
    if |content| > NAME_LIMIT then content[..NAME_LIMIT] + ELLIPSIS else content
  }

  /**
   * Renaming the updated conversation: only the name may change, and only
   * when no plugin is used and the conversation holds exactly one message.
   */
  function AutoNamed(conv: Conversation, message: Message, plugin: Option<Plugin>): (r: Conversation)
    ensures r.(name := conv.name) == conv
    ensures plugin.None? && |conv.messages| == 1 ==> r.name == CustomName(message.content)
    ensures r.name != conv.name ==> plugin.None? && |conv.messages| == 1
  {
    if plugin.None? && |conv.messages| == 1 then conv.(name := CustomName(message.content)) else conv
  }

  /** A derived name is already its own derived name. */
  lemma CustomNameIdempotent(content: string)
    ensures CustomName(CustomName(content)) == CustomName(content)
  {
    var name := CustomName(content);
    if |content| > NAME_LIMIT {
      assert |name| > NAME_LIMIT;
      assert name[..NAME_LIMIT] + ELLIPSIS == name;
    }
  }

  /** The derived name starts with the first (at most) 30 characters of the content. */
  lemma CustomNameKeepsLead(content: string)
    ensures var k := Min(|content|, NAME_LIMIT); |CustomName(content)| >= k && CustomName(content)[..k] == content[..k]
  {
  }

  /** A content longer than 30 characters keeps exactly its first 30, then the ellipsis. */
  lemma LongContentCut(lead: string, rest: string)
    requires |lead| == NAME_LIMIT && rest != []
    ensures CustomName(lead + rest) == lead + ELLIPSIS
  {
    assert (lead + rest)[..NAME_LIMIT] == lead;
  }
}
