/**
 The messages of an agent, and the shape that the agent loop keeps them in.

 A tool result has to follow the assistant message that asked for it, with nothing but other
 tool results in between. As long as that holds, a transcript can be cut in front of any message
 that is not a tool result.
 */
module Transcript {
  import opened Types

  type ToolId(==, !new)

  datatype ToolUse = ToolUse(id: ToolId, name: string, input: Value)

  datatype ToolResult = ToolResult(id: ToolId, name: string, content: Value, isError: bool)

  datatype Block =
    | Text(text: string)
    | Digest(omitted: nat)
    | Thinking(thought: Value)
    | Use(use: ToolUse)
    | Returned(result: ToolResult)

  datatype Message = User(content: seq<Block>) | Assistant(content: seq<Block>)

  function ResultMessage(result: ToolResult): Message {
    User([Returned(result)])
  }

  predicate HoldsResult(content: seq<Block>, id: ToolId) {
    exists b :: b in content && b.Returned? && b.result.id == id
  }

  predicate HoldsUse(content: seq<Block>, id: ToolId) {
    exists b :: b in content && b.Use? && b.use.id == id
  }

  /** A user message with a tool result in it: a window must not start here. */
  predicate UnsafeStart(m: Message) {
    m.User? && exists b :: b in m.content && b.Returned?
  }

  ghost predicate Uses(m: Message, id: ToolId) {
    m.Assistant? && HoldsUse(m.content, id)
  }

  ghost predicate Used(ms: seq<Message>, id: ToolId) {
    exists i :: 0 <= i < |ms| && Uses(ms[i], id)
  }

  ghost predicate Resulted(ms: seq<Message>, id: ToolId) {
    exists i :: 0 <= i < |ms| && HoldsResult(ms[i].content, id)
  }

  /** Message `j` uses the tool, and from there on to before `i` there are only tool results. */
  ghost predicate UsedAt(ms: seq<Message>, j: int, i: int, id: ToolId) {
    0 <= j < i <= |ms| && Uses(ms[j], id) && forall k :: j < k < i ==> UnsafeStart(ms[k])
  }

  ghost predicate Follows(ms: seq<Message>, i: int, id: ToolId) {
    exists j :: UsedAt(ms, j, i, id)
  }

  /** Each tool result follows its use through tool results only. */
  ghost predicate Grouped(ms: seq<Message>) {
    && (forall i, id :: 0 <= i < |ms| && HoldsResult(ms[i].content, id) ==> ms[i].User? && Follows(ms, i, id))
  }

  ghost predicate AllResulted(ms: seq<Message>) {
    forall id :: Used(ms, id) ==> Resulted(ms, id)
  }

  /** What every saved transcript satisfies: a use without a result is in the last group, where its
      result can still be added. */
  ghost predicate WellFormed(ms: seq<Message>) {
    && Grouped(ms)
    && forall id :: Used(ms, id) && !Resulted(ms, id) ==> Follows(ms, |ms|, id)
  }

  /** No block of the message has to do with tools. */
  ghost predicate Plain(m: Message) {
    forall b :: b in m.content ==> !b.Use? && !b.Returned?
  }

  ghost predicate NoResults(content: seq<Block>) {
    forall b :: b in content ==> !b.Returned?
  }

  // ---------------------------------------------------------------- growing the transcript

  lemma FollowsLonger(ms: seq<Message>, more: seq<Message>, i: int, id: ToolId)
    requires i <= |ms|
    ensures Follows(ms, i, id) <==> Follows(ms + more, i, id)
  {
    var all := ms + more;
    assert forall k :: 0 <= k < |ms| ==> all[k] == ms[k];
    if Follows(ms, i, id) {
      var j :| UsedAt(ms, j, i, id);
      assert UsedAt(all, j, i, id);
    }
    if Follows(all, i, id) {
      var j :| UsedAt(all, j, i, id);
      assert UsedAt(ms, j, i, id);
    }
  }

  /** What one more message adds. */
  lemma Pushed(ms: seq<Message>, m: Message, id: ToolId)
    ensures Used(ms + [m], id) <==> Used(ms, id) || Uses(m, id)
    ensures Resulted(ms + [m], id) <==> Resulted(ms, id) || HoldsResult(m.content, id)
    ensures UnsafeStart(m) && Follows(ms, |ms|, id) ==> Follows(ms + [m], |ms| + 1, id)
    ensures Uses(m, id) ==> Follows(ms + [m], |ms| + 1, id)
  {
    var all := ms + [m];
    assert all[|ms|] == m && forall k :: 0 <= k < |ms| ==> all[k] == ms[k];
    if Used(ms, id) {
      var i :| 0 <= i < |ms| && Uses(ms[i], id);
      assert Uses(all[i], id);
    }
    if Resulted(ms, id) {
      var i :| 0 <= i < |ms| && HoldsResult(ms[i].content, id);
      assert HoldsResult(all[i].content, id);
    }
    if UnsafeStart(m) && Follows(ms, |ms|, id) {
      var j :| UsedAt(ms, j, |ms|, id);
      assert UsedAt(all, j, |ms| + 1, id);
    }
    if Uses(m, id) {
      assert UsedAt(all, |ms|, |ms| + 1, id);
    }
  }

  lemma PushedGrouped(ms: seq<Message>, m: Message)
    requires Grouped(ms)
    requires forall id :: HoldsResult(m.content, id) ==> m.User? && Follows(ms, |ms|, id)
    ensures Grouped(ms + [m])
  {
    var all := ms + [m];
    forall i, id | 0 <= i < |all| && HoldsResult(all[i].content, id) ensures all[i].User? && Follows(all, i, id) {
      FollowsLonger(ms, [m], i, id);
    }
  }

  /** The result of an open use can be added. */
  lemma ResultPushed(ms: seq<Message>, r: ToolResult)
    requires WellFormed(ms) && Follows(ms, |ms|, r.id)
    ensures WellFormed(ms + [ResultMessage(r)]) && Resulted(ms + [ResultMessage(r)], r.id)
    ensures forall id :: Follows(ms, |ms|, id) ==> Follows(ms + [ResultMessage(r)], |ms| + 1, id)
    ensures forall id :: Used(ms + [ResultMessage(r)], id) ==> Used(ms, id)
    ensures forall id :: Resulted(ms, id) ==> Resulted(ms + [ResultMessage(r)], id)
  {
    var m := ResultMessage(r);
    assert Returned(r) in m.content;
    assert UnsafeStart(m);
    assert forall id :: HoldsResult(m.content, id) ==> id == r.id;
    PushedGrouped(ms, m);
    forall id ensures Used(ms + [m], id) ==> Used(ms, id)
              ensures Resulted(ms + [m], id) <==> Resulted(ms, id) || id == r.id
              ensures Follows(ms, |ms|, id) ==> Follows(ms + [m], |ms| + 1, id)
    {
      Pushed(ms, m, id);
    }
  }

  /** A new assistant message is added where every use has its result. */
  lemma AssistantPushed(ms: seq<Message>, content: seq<Block>)
    requires Grouped(ms) && AllResulted(ms) && NoResults(content)
    ensures WellFormed(ms + [Assistant(content)])
    ensures forall id :: HoldsUse(content, id) ==> Follows(ms + [Assistant(content)], |ms| + 1, id)
    ensures forall id :: Used(ms + [Assistant(content)], id) ==> Resulted(ms + [Assistant(content)], id) || HoldsUse(content, id)
  {
    var m := Assistant(content);
    PushedGrouped(ms, m);
    forall id ensures HoldsUse(content, id) ==> Follows(ms + [m], |ms| + 1, id)
              ensures Used(ms + [m], id) ==> Resulted(ms + [m], id) || HoldsUse(content, id)
    {
      Pushed(ms, m, id);
    }
  }

  /** New messages without tool blocks are added where every use has its result. */
  lemma {:induction false} PlainPushed(ms: seq<Message>, more: seq<Message>, n: nat)
    requires n <= |more| && Grouped(ms) && AllResulted(ms) && forall i :: 0 <= i < |more| ==> Plain(more[i])
    ensures Grouped(ms + more[..n]) && AllResulted(ms + more[..n])
  {
    if n == 0 {
      assert ms + more[..0] == ms;
    } else {
      PlainPushed(ms, more, n - 1);
      var before := ms + more[..n - 1];
      assert ms + more[..n] == before + [more[n - 1]];
      assert Plain(more[n - 1]);
      PushedGrouped(before, more[n - 1]);
      forall id ensures Used(ms + more[..n], id) ==> Resulted(ms + more[..n], id) {
        Pushed(before, more[n - 1], id);
      }
    }
  }

  // ---------------------------------------------------------------- cutting the transcript

  /** Cut in front of a message that is not a tool result, the rest is grouped in itself: every
      result in it still follows its use. */
  lemma CutGrouped(ms: seq<Message>, o: nat)
    requires Grouped(ms) && o <= |ms| && (o < |ms| ==> !UnsafeStart(ms[o]))
    ensures Grouped(ms[o..])
  {
    var rest := ms[o..];
    forall i, id | 0 <= i < |rest| && HoldsResult(rest[i].content, id) ensures rest[i].User? && Follows(rest, i, id) {
      assert rest[i] == ms[o + i];
      var b :| b in ms[o + i].content && b.Returned? && b.result.id == id;
      assert UnsafeStart(ms[o + i]);
      var j :| UsedAt(ms, j, o + i, id);
      assert o <= j;
      assert UsedAt(rest, j - o, i, id);
    }
  }
}
