/**
 * One send, from the message the user typed to the store the UI reads.
 *
 * The central store is a value here: each dispatch replaces one of its
 * fields, and every conversation dispatched as the selected one is also
 * recorded, in order, in `published`. The backend's behaviour (whether the
 * hosted response is ok and has a body, the decoded chunks of the stream,
 * when the stop flag is first seen, the plugin's answer) is an input.
 */
module Send {
  import opened ChatTypes
  import opened Compose
  import opened AutoName
  import opened Stream
  import opened ConversationList
  import opened Backend

  /** The fields of the central store that a send reads or writes. */
  datatype Home = Home(
    selectedConversation: Option<Conversation>,
    conversations: seq<Conversation>,
    pluginKeys: seq<PluginKey>,
    windowaiEnabled: bool,
    windowaiPresent: bool,
    openrouterApiKey: string,
    loading: bool,
    messageIsStreaming: bool)

  /** What the backend answers, as the send flow observes it. */
  datatype Reply = Reply(
    ok: bool,             // `response.ok` of the hosted POST
    hasBody: bool,        // `response.body` of the hosted POST is present
    chunks: seq<string>,  // the decoded values of the stream's reads
    stopAt: nat,          // the first iteration at whose top the stop flag reads true
    answer: string)       // the `answer` field of a plugin reply

  datatype Exit = Returned | Threw(error: string)

  /** The send gets past the early return and finds a selected conversation. */
  predicate Proceeds(home: Home)
  {
    !(home.windowaiEnabled && !home.windowaiPresent) && home.selectedConversation.Some?
  }

  /** The selected conversation with its recomposed message list. */
  function Composed(home: Home, message: Message, deleteCount: nat): Conversation
    requires home.selectedConversation.Some?
  {
    var c := home.selectedConversation.value;
    c.(messages := Recomposed(c.messages, deleteCount, message))
  }

  function ChosenBackend(home: Home): Backend
  {
    SelectBackend(home.windowaiEnabled, home.windowaiPresent, home.openrouterApiKey)
  }

  /** The backend produced a readable response: always for the extension, else when ok and with a body. */
  predicate Responded(home: Home, reply: Reply)
  {
    Proceeds(home) &&
    (ChosenBackend(home) == Extension || (ChosenBackend(home) == Hosted && reply.ok && reply.hasBody))
  }

  method HandleSend(home: Home, message: Message, deleteCount: nat, plugin: Option<Plugin>, reply: Reply)
    returns (home': Home, published: seq<Conversation>, sent: Option<Request>, exit: Exit)
    // dropped: window.ai not ready, or no conversation selected
    ensures !Proceeds(home) ==> home' == home && published == [] && sent == None && exit == Returned
    // otherwise the recomposed conversation is published first
    ensures Proceeds(home) ==> |published| >= 1 && published[0] == Composed(home, message, deleteCount)
    // no backend: an error after publishing, with the busy flags left set
    ensures exit.Threw? <==> Proceeds(home) && ChosenBackend(home) == Unconfigured
    ensures exit.Threw? ==>
      && exit.error == NO_BACKEND_ERROR && sent == None && published == [Composed(home, message, deleteCount)]
      && home' == home.(selectedConversation := Some(published[0]), loading := true, messageIsStreaming := true)
    // a request leaves exactly when a backend was chosen
    ensures sent.Some? <==> Proceeds(home) && ChosenBackend(home) in {Extension, Hosted}
    ensures sent.Some? ==>
      sent == MakeRequest(ChosenBackend(home),
                          MakeChatBody(Composed(home, message, deleteCount), home.openrouterApiKey, plugin, home.pluginKeys),
                          plugin)
    // a failed hosted response clears the busy flags and stops
    ensures Proceeds(home) && ChosenBackend(home) == Hosted && !Responded(home, reply) ==>
      && published == [Composed(home, message, deleteCount)] && exit == Returned
      && home' == home.(selectedConversation := Some(published[0]), loading := false, messageIsStreaming := false)
    // a stream: the renamed conversation is reconciled and written back; the store
    // keeps the unnamed composed conversation selected when stopped before any read
    ensures Responded(home, reply) && plugin.None? ==>
      var composed := Composed(home, message, deleteCount);
      var named := AutoNamed(composed, message, None);
      var final := Reconciled(named, reply.chunks, reply.stopAt);
      && exit == Returned
      && |published| == 1 + Processed(|reply.chunks|, reply.stopAt)
      && (forall j :: 1 <= j < |published| ==> published[j] == Reconciled(named, reply.chunks, j))
      && home' == home.(selectedConversation := Some(if reply.stopAt == 0 then composed else final),
                        conversations := ListAfter(home.conversations, home.selectedConversation.value.id, final),
                        loading := false, messageIsStreaming := false)
    // a plugin answer: one assistant message appended and written back
    ensures Responded(home, reply) && plugin.Some? ==>
      var composed := Composed(home, message, deleteCount);
      var final := composed.(messages := composed.messages + [Message(Assistant, reply.answer)]);
      && exit == Returned
      && published == [composed, final]
      && home' == home.(selectedConversation := Some(final),
                        conversations := ListAfter(home.conversations, home.selectedConversation.value.id, final),
                        loading := false, messageIsStreaming := false)
  {
    home', published, sent, exit := home, [], None, Returned;
    if home.windowaiEnabled && !home.windowaiPresent {
      return;
    }
    if home.selectedConversation.None? {
      return;
    }
    var selected := home.selectedConversation.value;
    var messages := ComposeMessages(selected.messages, deleteCount, message);
    var updated := selected.(messages := messages);
    home', sent, exit := Dispatch(home, updated, plugin);
    published := [updated];
    if exit.Threw? {
      return;
    }
    var replies;
    home', replies := Respond(home', updated, message, selected.id, ChosenBackend(home) == Extension, plugin, reply);
    published := published + replies;
    if plugin.None? {
      forall j | 1 <= j < |published|
        ensures published[j] == Reconciled(AutoNamed(updated, message, None), reply.chunks, j)
      {
        assert published[j] == replies[j - 1];
      }
    }
  }

  /**
   * Publishing the composed conversation, raising the busy flags, choosing
   * the backend and sending the request. With no backend configured the
   * send fails here, after publishing and without a request.
   */
  method Dispatch(home: Home, composed: Conversation, plugin: Option<Plugin>)
    returns (store: Home, sent: Option<Request>, exit: Exit)
    requires ChosenBackend(home) != ExtensionNotReady  // that case returned before
    ensures store == home.(selectedConversation := Some(composed), loading := true, messageIsStreaming := true)
    ensures exit.Threw? <==> ChosenBackend(home) == Unconfigured
    ensures exit.Threw? ==> exit.error == NO_BACKEND_ERROR && sent == None
    ensures exit.Returned? ==>
      && sent.Some?
      && sent == MakeRequest(ChosenBackend(home), MakeChatBody(composed, home.openrouterApiKey, plugin, home.pluginKeys), plugin)
  {
    store := home.(selectedConversation := Some(composed), loading := true, messageIsStreaming := true);
    var body := MakeChatBody(composed, home.openrouterApiKey, plugin, home.pluginKeys);
    var backend := ChosenBackend(home);
    if backend == Unconfigured {
      sent, exit := None, Threw(NO_BACKEND_ERROR);
    } else {
      sent, exit := MakeRequest(backend, body, plugin), Returned;
    }
  }

  /**
   * Handling the response. The extension's response is built around a
   * local stream, so it is always ok and has a body; a hosted response that
   * is not ok or has no body only clears the busy flags. `replies` are the
   * conversations published while handling it.
   */
  method Respond(store: Home, composed: Conversation, message: Message, selectedId: string,
                 extension: bool, plugin: Option<Plugin>, reply: Reply)
    returns (store': Home, replies: seq<Conversation>)
    ensures !(extension || (reply.ok && reply.hasBody)) ==>
      store' == store.(loading := false, messageIsStreaming := false) && replies == []
    ensures (extension || (reply.ok && reply.hasBody)) && plugin.None? ==>
      var named := AutoNamed(composed, message, None);
      var final := Reconciled(named, reply.chunks, reply.stopAt);
      && store' == store.(selectedConversation := if reply.stopAt == 0 then store.selectedConversation else Some(final),
                          conversations := ListAfter(store.conversations, selectedId, final),
                          loading := false, messageIsStreaming := false)
      && |replies| == Processed(|reply.chunks|, reply.stopAt)
      && forall j :: 0 <= j < |replies| ==> replies[j] == Reconciled(named, reply.chunks, j + 1)
    ensures (extension || (reply.ok && reply.hasBody)) && plugin.Some? ==>
      var final := composed.(messages := composed.messages + [Message(Assistant, reply.answer)]);
      && store' == store.(selectedConversation := Some(final),
                          conversations := ListAfter(store.conversations, selectedId, final),
                          loading := false, messageIsStreaming := false)
      && replies == [final]
  {
    var ok := extension || reply.ok;
    var hasBody := extension || reply.hasBody;
    if !ok || !hasBody {
      store', replies := store.(loading := false, messageIsStreaming := false), [];
    } else if plugin.None? {
      store', replies := StreamReply(store, composed, message, selectedId, reply.chunks, reply.stopAt);
    } else {
      var final;
      store', final := PluginReply(store, composed, selectedId, reply.answer);
      replies := [final];
    }
  }

  /**
   * The streaming branch: the conversation is renamed, the stream is
   * reconciled into it and the result is written into the list of
   * conversations. The selected conversation in the store is the last one
   * published, so it stays as it was when nothing is read.
   */
  method StreamReply(store: Home, composed: Conversation, message: Message, selectedId: string,
                     chunks: seq<string>, stopAt: nat)
    returns (store': Home, snapshots: seq<Conversation>)
    ensures var final := Reconciled(AutoNamed(composed, message, None), chunks, stopAt);
      && store' == store.(selectedConversation := if stopAt == 0 then store.selectedConversation else Some(final),
                          conversations := ListAfter(store.conversations, selectedId, final),
                          loading := false, messageIsStreaming := false)
      && (stopAt > 0 ==> |snapshots| > 0 && snapshots[|snapshots| - 1] == final)
    ensures |snapshots| == Processed(|chunks|, stopAt)
    ensures forall j :: 0 <= j < |snapshots| ==>
      snapshots[j] == Reconciled(AutoNamed(composed, message, None), chunks, j + 1)
  {
    var named := AutoNamed(composed, message, None);
    store' := store.(loading := false);
    var final, text;
    final, text, snapshots := Reconcile(named, chunks, stopAt);
    if |snapshots| > 0 {
      StopKeepsLastPublished(named, chunks, stopAt);
      store' := store'.(selectedConversation := Some(snapshots[|snapshots| - 1]));
    }
    var list := UpdateConversationList(store.conversations, selectedId, final);
    store' := store'.(conversations := list, messageIsStreaming := false);
  }

  /**
   * The plugin branch: the whole answer arrives at once and is appended as
   * one assistant message, which is published and written into the list.
   */
  method PluginReply(store: Home, composed: Conversation, selectedId: string, answer: string)
    returns (store': Home, final: Conversation)
    ensures final.(messages := composed.messages) == composed
    ensures final.messages == composed.messages + [Message(Assistant, answer)]
    ensures store' == store.(selectedConversation := Some(final),
                             conversations := ListAfter(store.conversations, selectedId, final),
                             loading := false, messageIsStreaming := false)
  {
    final := composed.(messages := composed.messages + [Message(Assistant, answer)]);
    var list := UpdateConversationList(store.conversations, selectedId, final);
    store' := store.(selectedConversation := Some(final), conversations := list,
                     loading := false, messageIsStreaming := false);
  }

  /**
   * Regenerating a reply that streams at least one read leaves the
   * conversation as it was, minus its last message, plus one fresh
   * assistant message holding the new buffer. In a conversation of two
   * messages the recomposed list has one message, so the conversation is
   * named again after that message.
   */
  lemma RegenerateReplacesReply(conv: Conversation, chunks: seq<string>, stopAt: nat)
    requires |conv.messages| >= 2 && stopAt > 0
    ensures var n := |conv.messages|;
      var resent := conv.messages[n - 2];
      var composed := conv.(messages := Recomposed(conv.messages, 2, resent));
      var final := Reconciled(AutoNamed(composed, resent, None), chunks, stopAt);
      && final.messages == conv.messages[..n - 1] + [Message(Assistant, Received(chunks, stopAt))]
      && final.(messages := conv.messages, name := conv.name) == conv
      && (n > 2 ==> final.name == conv.name)
      && (n == 2 ==> final.name == CustomName(conv.messages[0].content))
  {
    var n := |conv.messages|;
    Regenerate(conv.messages);
    assert |conv.messages[..n - 1]| == n - 1 >= 1;
  }

  /**
   * The first exchange of a fresh conversation names it after the user's
   * message; the name then stays with the conversation through the stream.
   */
  lemma FirstExchangeNamesConversation(conv: Conversation, message: Message, chunks: seq<string>, stopAt: nat)
    requires conv.messages == []
    ensures var composed := conv.(messages := Recomposed(conv.messages, 0, message));
      var final := Reconciled(AutoNamed(composed, message, None), chunks, stopAt);
      && final.name == CustomName(message.content)
      && final.messages[0] == message
      && |final.name| <= NAME_LIMIT + |ELLIPSIS|
  {
    NormalSendAppends(conv.messages, message);
  }
}
