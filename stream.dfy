/**
 * Reconciling a streamed reply into the conversation.
 *
 * The reply arrives as the decoded values of successive reads; `chunks`
 * holds the values of the reads that are not yet done, and the read after
 * them reports completion with an empty value. That last read is still
 * processed like the others. The stop flag is observed through `stopAt`:
 * at the top of iteration `i` the flag reads true exactly when
 * `stopAt <= i`, and the loop then leaves without reading again.
 */
module Stream {
  import opened ChatTypes

  /** The left-to-right concatenation of chunks: `text += chunk` for each. */
  function Concat(chunks: seq<string>): string
  {
    if chunks == [] then "" else Concat(chunks[..|chunks| - 1]) + chunks[|chunks| - 1]
  }

  /** The number of loop iterations that read, given where the stop flag is first seen. */
  function Processed(chunkCount: nat, stopAt: nat): nat
  {
    Min(stopAt, chunkCount + 1)
  }

  /** The buffer accumulated after `iterations` reads. */
  function Received(chunks: seq<string>, iterations: nat): string
  {
    Concat(chunks[..Min(iterations, |chunks|)])
  }

  /**
   * The index-based replacement of the last message's content, keeping its
   * role; every other message is returned as it is.
   */
  function ReplaceLastContent(messages: seq<Message>, text: string): (r: seq<Message>)
    ensures |r| == |messages|
    ensures |r| > 0 ==> r[|r| - 1] == Message(messages[|r| - 1].role, text)
    ensures forall k :: 0 <= k < |r| - 1 ==> r[k] == messages[k]
  {
    seq(|messages|, k requires 0 <= k < |messages| =>
      if k == |messages| - 1 then messages[k].(content := text) else messages[k])
  }

  /**
   * The conversation once the loop has stopped on `stopAt`: untouched when
   * the flag was already set before the first read, otherwise the messages
   * it started with plus one assistant message holding the whole buffer.
   */
  function Reconciled(start: Conversation, chunks: seq<string>, stopAt: nat): Conversation
  {
    if stopAt == 0 then start
    else start.(messages := start.messages + [Message(Assistant, Received(chunks, stopAt))])
  }

  /**
   * The streaming loop. `published` lists every conversation handed to the
   * store, one per processed read, in order.
   */
  method Reconcile(start: Conversation, chunks: seq<string>, stopAt: nat)
    returns (conv: Conversation, text: string, published: seq<Conversation>)
    ensures conv == Reconciled(start, chunks, stopAt)
    ensures text == Received(chunks, stopAt)
    ensures |published| == Processed(|chunks|, stopAt)
    ensures forall j :: 0 <= j < |published| ==> published[j] == Reconciled(start, chunks, j + 1)
  {
    conv, text, published := start, "", [];
    var done, isFirst := false, true;
    var i := 0;
    while !done
      invariant i <= |chunks| + 1 && i <= stopAt
      invariant done <==> i == |chunks| + 1
      invariant isFirst <==> i == 0
      invariant text == Received(chunks, i)
      invariant conv == Reconciled(start, chunks, i)
      invariant |published| == i
      invariant forall j :: 0 <= j < i ==> published[j] == Reconciled(start, chunks, j + 1)
      decreases |chunks| + 1 - i
    {
      if stopAt <= i {
        break;
      }
      // reader.read(): the next chunk, or completion with an empty value
      var chunk := if i < |chunks| then chunks[i] else "";
      done := i == |chunks|;
      if i < |chunks| {
        assert chunks[..i + 1][..i] == chunks[..i];
      }
      text := text + chunk;
      if isFirst {
        isFirst := false;
        assert text == chunk;
        conv := conv.(messages := conv.messages + [Message(Assistant, chunk)]);
      } else {
        ghost var before := conv.messages;
        conv := conv.(messages := ReplaceLastContent(conv.messages, text));
        assert conv.messages == start.messages + [Message(Assistant, text)] by {
          assert |conv.messages| == |before|;
          forall k | 0 <= k < |conv.messages|
            ensures conv.messages[k] == (start.messages + [Message(Assistant, text)])[k]
          {
          }
        }
      }
      published := published + [conv];
      i := i + 1;
    }
  }

  /** Concatenation distributes over splitting the chunk list. */
  lemma {:induction false} ConcatAppend(a: seq<string>, b: seq<string>)
    ensures Concat(a + b) == Concat(a) + Concat(b)
    decreases |b|
  {
    if b == [] {
      assert a + b == a;
    } else {
      var b' := b[..|b| - 1];
      assert (a + b)[..|a + b| - 1] == a + b';
      ConcatAppend(a, b');
    }
  }

  /** The buffer only grows: an earlier buffer is a prefix of any later one. */
  lemma ReceivedGrows(chunks: seq<string>, i: nat, j: nat)
    requires i <= j
    ensures Received(chunks, i) <= Received(chunks, j)
  {
    var a, b := Min(i, |chunks|), Min(j, |chunks|);
    assert chunks[..b] == chunks[..a] + chunks[a..b];
    ConcatAppend(chunks[..a], chunks[a..b]);
  }

  /**
   * While the loop runs, the messages are the pre-stream messages plus
   * exactly one trailing assistant message whose content is the buffer;
   * a flag set before the first read leaves the conversation as it was.
   */
  lemma ReconciledShape(start: Conversation, chunks: seq<string>, stopAt: nat)
    ensures var r := Reconciled(start, chunks, stopAt);
      && r.(messages := start.messages) == start
      && (stopAt == 0 ==> r == start)
      && (stopAt > 0 ==>
            && |r.messages| == |start.messages| + 1
            && r.messages[..|start.messages|] == start.messages
            && r.messages[|start.messages|] == Message(Assistant, Received(chunks, stopAt)))
  {
    var r := Reconciled(start, chunks, stopAt);
    if stopAt > 0 {
      assert r.messages[..|start.messages|] == start.messages;
    }
  }

  /**
   * The assistant message is appended once: every snapshot published
   * during one stream has exactly one message more than the conversation
   * the stream started from, and consecutive snapshots only extend the
   * content of that message.
   */
  lemma AppendedOnce(start: Conversation, chunks: seq<string>, j: nat, k: nat)
    requires 0 < j <= k
    ensures |Reconciled(start, chunks, j).messages| == |Reconciled(start, chunks, k).messages| == |start.messages| + 1
    ensures Reconciled(start, chunks, j).messages[..|start.messages|] == Reconciled(start, chunks, k).messages[..|start.messages|]
    ensures Reconciled(start, chunks, j).messages[|start.messages|].content <= Reconciled(start, chunks, k).messages[|start.messages|].content
  {
    ReconciledShape(start, chunks, j);
    ReconciledShape(start, chunks, k);
    ReceivedGrows(chunks, j, k);
  }

  /** A stream that finishes at once still leaves one empty assistant message. */
  lemma EmptyStream(start: Conversation, stopAt: nat)
    requires stopAt > 0
    ensures Reconciled(start, [], stopAt).messages == start.messages + [Message(Assistant, "")]
  {
  }

  /** A flag set after the first read and before the second keeps only the first chunk. */
  lemma StopAfterFirstChunk(start: Conversation, chunks: seq<string>)
    requires |chunks| > 0
    ensures Reconciled(start, chunks, 1).messages == start.messages + [Message(Assistant, chunks[0])]
  {
    assert chunks[..1][..0] == [];
    assert Concat(chunks[..1]) == chunks[0];
  }

  /** A flag never seen keeps the concatenation of every chunk. */
  lemma StreamRunsToCompletion(start: Conversation, chunks: seq<string>, stopAt: nat)
    requires stopAt > |chunks|
    ensures Reconciled(start, chunks, stopAt).messages == start.messages + [Message(Assistant, Concat(chunks))]
  {
    assert chunks[..|chunks|] == chunks;
  }

  /**
   * Once the flag is seen, nothing changes any more: the conversation the
   * loop ends with is the one it published last, and it is the start
   * conversation when nothing was published.
   */
  lemma StopKeepsLastPublished(start: Conversation, chunks: seq<string>, stopAt: nat)
    ensures Reconciled(start, chunks, stopAt) == Reconciled(start, chunks, Processed(|chunks|, stopAt))
    ensures Processed(|chunks|, stopAt) == 0 <==> stopAt == 0
  {
  }
}
