# A verified model of chatbot-ui's send flow

This project models `handleSend`, the function of the chat view that sends a
message. It sends the message to the hosted OpenRouter endpoint or to the
window.ai browser extension, streams the reply into the conversation and
writes the result back to the list of conversations. The function is split
into the steps it performs:

- **Compose** (`compose.dfy`): the selected conversation's message list
  loses its last `deleteCount` messages and gains the new one. Popping an
  empty list does nothing. Lemmas cover the three ways the view calls it:
  a normal send (0), edit-and-resend (the number of messages from the edited
  one on), and regenerate (2, resending the second-to-last message).
- **AutoName** (`auto_name.dfy`): a send without a plugin that leaves one
  message in the conversation renames the conversation. The new name is that
  message's content, cut to 30 characters plus `...` when the content is
  longer.
- **Stream** (`stream.dfy`): the `while (!done)` loop that folds decoded
  chunks into the conversation. The first processed read appends an
  assistant message. Every later read replaces that message's content with
  the cumulative buffer. The stop flag is checked before each read.
- **ConversationList** (`conversation_list.dfy`): the id-based replacement in
  the list of all conversations. The conversation is pushed only when the
  list is empty.
- **Backend** (`backend.dfy`): the backend decision (not ready, extension,
  hosted, or the error `Must use OpenRouter or Window AI`), the request body
  and the google-search plugin credential lookup.
- **Send** (`send.dfy`): the whole flow over a value-typed store. Every
  dispatch replaces one store field. Every conversation dispatched as the
  selected one is recorded in order.

Points where the send flow is easy to misread:

- The conversation is renamed *before* the stream is read, not after it ends.
  A send stopped before its first read therefore leaves the unrenamed
  conversation selected, while the renamed one goes into the conversation
  list.
- Chunks are increments, and the message content is their concatenation.
  They are not cumulative snapshots.
- The read that reports completion still runs the loop body with an empty
  chunk. A stream that finishes at once still leaves an empty assistant
  message.
- `Must use OpenRouter or Window AI` is thrown *after* the recomposed
  conversation has been dispatched and `loading`/`messageIsStreaming` have
  been set. These flags stay set.
- When the conversation has two messages, regenerating leaves one message
  after recomposition, so the conversation is named again.

An OpenRouter key is a string, and the empty string stands for an absent
(falsy) key. The stop flag is the index `stopAt`: at the top of iteration
`i` it reads true exactly when `stopAt <= i`.

## Model

| member | source | states |
|---|---|---|
| `Compose.ComposeMessages` | components/Chat/Chat.tsx:92-108 | The result has max(N-k,0)+1 messages: the first max(N-k,0) original messages, then the new message. The popping loop's invariant keeps the copy equal to a prefix of the original. |
| `Compose.NormalSendAppends` | components/Chat/Chat.tsx:672-675 | A normal send (deleteCount 0) is a plain append. |
| `Compose.EditAndResend` | components/Chat/Chat.tsx:647-653 | Editing message i gives messages[..i] + [edited]: the edited message sits at index i and every later message is gone. |
| `Compose.Regenerate` | components/Chat/Chat.tsx:677-681 | Resending messages[N-2] with deleteCount 2 gives the list without its last message. |
| `AutoName.CustomName` | components/Chat/Chat.tsx:209-211 | The name is the content when it has at most 30 characters. Otherwise it is the first 30 characters followed by `...`. It never exceeds 33 characters. |
| `AutoName.AutoNamed` | components/Chat/Chat.tsx:207-216 | Only the name can change. It changes only when no plugin is used and the conversation holds exactly one message, and then it becomes the derived name. |
| `AutoName.CustomNameIdempotent` | components/Chat/Chat.tsx:210-211 | Deriving a name from a derived name changes nothing. |
| `AutoName.CustomNameKeepsLead` | components/Chat/Chat.tsx:210-211 | The name starts with the content's first min(length, 30) characters. |
| `AutoName.LongContentCut` | components/Chat/Chat.tsx:210-211 | Content made of 30 characters followed by anything non-empty is named after exactly those 30 characters plus `...`. |
| `Stream.ReplaceLastContent` | components/Chat/Chat.tsx:248-257 | The length is kept. The last message keeps its role and gets the new content. Every other message is unchanged. |
| `Stream.Reconcile` | components/Chat/Chat.tsx:218-267 | The loop ends with the pre-stream conversation plus one assistant message holding the concatenation of the chunks read, or unchanged if the flag was set before the first read. It publishes one snapshot per processed read, and snapshot j is the state after j+1 reads. |
| `Stream.ConcatAppend` | components/Chat/Chat.tsx:229-232 | Accumulating `text += chunk` over two runs of chunks equals accumulating each run and joining the results. |
| `Stream.ReceivedGrows` | components/Chat/Chat.tsx:229-232 | The buffer only grows: an earlier buffer is a prefix of every later one. |
| `Stream.ReconciledShape` | components/Chat/Chat.tsx:233-261 | After at least one read, the messages are the pre-stream messages unchanged plus exactly one assistant message whose content is the buffer. No other field changes, and the conversation is untouched when stopped before the first read. |
| `Stream.AppendedOnce` | components/Chat/Chat.tsx:233-266 | All snapshots have the same message count (one more than before the stream) and the same earlier messages. The assistant content of a later snapshot extends that of an earlier one. |
| `Stream.EmptyStream` | components/Chat/Chat.tsx:229-246 | A stream that reports completion on its first read leaves one assistant message with empty content. |
| `Stream.StopAfterFirstChunk` | components/Chat/Chat.tsx:223-246 | With the flag set after the first read, the assistant message holds only the first chunk. |
| `Stream.StreamRunsToCompletion` | components/Chat/Chat.tsx:223-267 | Without a stop, the assistant message holds the concatenation of all chunks. |
| `Stream.StopKeepsLastPublished` | components/Chat/Chat.tsx:223-228 | A stop exits without another read and without a change: the final conversation is the one after the last processed read. No read is processed exactly when the flag is set from the start. |
| `ConversationList.ReplaceById` | components/Chat/Chat.tsx:269-276 | The length is kept. Entries with the selected id become the updated conversation, and all others are unchanged. |
| `ConversationList.ListAfter` | components/Chat/Chat.tsx:269-279 | An empty list becomes [final]. A non-empty list keeps its length. The final conversation is in the result exactly when the list was empty, already held it, or had an entry with the selected id. |
| `ConversationList.UpdateConversationList` | components/Chat/Chat.tsx:269-279 | The result is the list after the send. An empty list becomes [updated]. A non-empty list keeps its length and is replaced by id. The updated conversation is in the result exactly when the list was empty, already held it, or had an entry with the selected id. |
| `ConversationList.ReplacedMembership` | components/Chat/Chat.tsx:269-276 | After replacement, the updated conversation is present exactly when it already was or some entry carried the selected id. |
| `ConversationList.NoMatchUnchanged` | components/Chat/Chat.tsx:269-279 | A list with no entry of the selected id is returned as it is: it gains nothing. |
| `ConversationList.ReplaceIdempotent` | components/Chat/Chat.tsx:269-276 | Writing the same conversation back twice equals writing it once. |
| `Backend.SelectBackend` | components/Chat/Chat.tsx:88-194 | Enabled without a handle means not ready (early return), and enabled with a handle means the extension. Otherwise a non-empty OpenRouter key means hosted, and with neither it is the `Must use OpenRouter or Window AI` error. The four cases are exclusive and cover every input. |
| `Backend.FindIndex` | components/Chat/Chat.tsx:129-134 | Like `find`: the first index whose element satisfies the predicate, or none when no element does. |
| `Backend.GoogleCredential` | components/Chat/Chat.tsx:129-134 | A credential that is sent is stored under that name in the first google-search entry. None is sent only when every google-search entry holding the name comes after an earlier google-search entry. |
| `Backend.GoogleCredentialFound` | components/Chat/Chat.tsx:129-134 | The credential sent is the first one with that name in the first google-search entry. |
| `Backend.GoogleCredentialShadowed` | components/Chat/Chat.tsx:129-134 | If the first google-search entry lacks the credential, none is sent, even when a later google-search entry has it. |
| `Backend.GoogleCredentialAbsent` | components/Chat/Chat.tsx:129-134 | Without a google-search entry no credential is sent. |
| `Backend.MakeChatBody` | components/Chat/Chat.tsx:115-136 | The body carries the composed conversation's model, messages, prompt and temperature and the OpenRouter key. The google credentials are present only with a plugin. |
| `Backend.MakeRequest` | components/Chat/Chat.tsx:139-191 | A request leaves only for the extension or the hosted backend. The extension receives the prompt as a leading system message before the messages, with the body's temperature and a limit of 1000 tokens. The hosted endpoint receives the plugin and the body unchanged. |
| `Send.HandleSend` | components/Chat/Chat.tsx:85-315 | The not-ready and no-selection cases change nothing. Otherwise the composed conversation is published first. With no backend the error is thrown with no request sent and the busy flags left set. A failed hosted response clears the flags. A stream publishes one snapshot per read, writes the renamed, reconciled conversation into the list and clears the flags. A plugin answer appends one assistant message. |
| `Send.Dispatch` | components/Chat/Chat.tsx:109-194 | The composed conversation is selected and both busy flags are set. With no backend the error `Must use OpenRouter or Window AI` is raised and nothing is sent. Otherwise the request for the chosen backend is sent, built from the composed conversation. |
| `Send.Respond` | components/Chat/Chat.tsx:195-313 | A hosted response that is not ok or has no body only clears the busy flags and publishes nothing. The extension's response always goes on. A stream or a plugin answer is then handled as below. |
| `Send.StreamReply` | components/Chat/Chat.tsx:207-282 | The renamed conversation is reconciled with the stream, with one snapshot per processed read. The final conversation replaces its entry in the list, or forms the list when it was empty. Both busy flags are cleared. The store keeps its selected conversation when no read happened. |
| `Send.PluginReply` | components/Chat/Chat.tsx:284-313 | The whole answer is appended as one assistant message, and no other field changes. The result is selected and written into the list, and the busy flags are cleared. |
| `Send.RegenerateReplacesReply` | components/Chat/Chat.tsx:677-681 | After a regenerate that reads at least once, the messages are the old ones minus the last, plus one fresh assistant message. The name changes only when the conversation had two messages. |
| `Send.FirstExchangeNamesConversation` | components/Chat/Chat.tsx:207-246 | The first send into an empty conversation names it after the message (at most 33 characters), and the name stays through the stream. |

## Left out

- Rendering and React: hooks, JSX, the empty-state screens, scrolling, the IntersectionObserver, the throttle and the toasts are user interface with no state to model. The toast's status text is therefore not part of the store.
- Networking: `fetch`, `AbortController`, `ReadableStream`, `Response` and `TextDecoder` are host APIs. The reply is an input (ok, body present, decoded chunks, stop position, plugin answer). Aborting the transport on stop is not modelled. Byte decoding is foreign, and chunks are given as decoded strings.
- `getEndpoint` (utils/app/api.ts) is not part of this model: a hosted request records the plugin that the endpoint is chosen from.
- Send.HandleSend: a `fetch` that rejects (Chat.tsx:181) or a `reader.read()` that rejects (Chat.tsx:229) is not modelled, because the reply input always resolves. In the source `handleSend` then rejects: the snapshots already published stay, `messageIsStreaming` stays true (and `loading` too when `fetch` rejects), and the list of conversations is never written.
- The window.ai extension: `generateText`, its callback adapter, the `waitForAI` polling and the model-changed listener are asynchronous foreign code. When generation throws, the source clears the busy flags and never closes the stream. The reply input has no such case.
- The plugin reply's JSON parsing is foreign: `answer` is an input. When the extension is enabled together with a plugin, the source would parse the extension's text stream as JSON; the model just takes `answer`.
- In the plugin branch the source dispatches the imported function `updateConversation` instead of the conversation `updatedConversation` (a misspelling). The model publishes the updated conversation there.
- Persistence: `saveConversation` and `saveConversations` write to local storage. The model keeps only the in-memory list they are given.
- AutoName.CustomName: lengths are counted in Unicode scalar values, while JavaScript's `length` and `substring` count UTF-16 code units. For any content with a character outside the Basic Multilingual Plane, both the 30 threshold and the cut position differ. For example, 20 emoji have a JavaScript length of 40, so the source names the conversation after the first 15 emoji plus `...`, while the model keeps all 20 unchanged.
- `temperature` is a floating-point value. It is carried as an opaque `real` and never computed with.
- Fields of a conversation that `handleSend` only copies (types/chat.ts is not part of this model) are not modelled.
- Overlapping sends on the same conversation and a stop flag that is cleared again are concurrency questions outside one send. The flag is modelled as the first iteration at which it reads true.
- components/Chatbar/components/ChatbarSettings.tsx is sidebar buttons, a redirect and a local-storage toggle of `windowaiEnabled`, with no logic to state.
