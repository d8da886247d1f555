/**
 What an agent records: for each tool use the result of the tool that the policy let it call, for
 each response the text and the uses of the model; and what it never asks, neither of a tool nor
 of the model.
 */
module AgentResults {
  import opened Types
  import opened Transcript
  import opened AgentContext
  import opened AgentSpec

  // ---------------------------------------------------------------- the permission policy

  /** The tools that the registry may be asked to run: ordinary ones that the policy allows. */
  predicate Callable(w: World, use: ToolUse) {
    && use.name != "ask_user" && use.name != "emit_artifact" && !IsTerminalTool(w, use) && w.allowed(use)
  }

  ghost predicate IsWindow(policy: Policy, ms: seq<Message>) {
    exists t: seq<Message> :: WindowOf(t, policy).messages == ms
  }

  /** The worlds differ at most in what denied tools would do, and what the model would say to
      something that is no window of a transcript. */
  ghost predicate SameButDenied(a: World, b: World) {
    && b == a.(call := b.call, respond := b.respond)
    && (forall n, use :: Callable(a, use) ==> b.call(n, use) == a.call(n, use))
    && (forall n, ms :: IsWindow(a.policy, ms) ==> b.respond(n, ms) == a.respond(n, ms))
  }

  lemma OneIgnoresDenied(a: World, b: World, s: State, use: ToolUse)
    requires b == a.(call := b.call, respond := b.respond)
    requires Callable(a, use) && s.toolCalls < s.budget.maxToolCalls ==>
               b.call(s.toolCalls + 1, use) == a.call(s.toolCalls + 1, use)
    ensures DispatchOne(a, s, use) == DispatchOne(b, s, use)
  {
  }

  /** Dispatching depends on the registry only at the pending uses that the policy allows, and only for
      the numbers that the budget leaves. */
  lemma {:induction false} DispatchIgnoresDenied(a: World, b: World, s: State)
    requires b == a.(call := b.call, respond := b.respond)
    requires forall n: nat, use :: s.toolCalls < n <= s.budget.maxToolCalls && use in s.pendingTools && Callable(a, use) ==>
               b.call(n, use) == a.call(n, use)
    ensures Dispatch(a, s) == Dispatch(b, s)
    decreases |s.pendingTools|
  {
    if |s.pendingTools| > 0 {
      OneIgnoresDenied(a, b, Popped(s), s.pendingTools[0]);
      var one := DispatchOne(a, Popped(s), s.pendingTools[0]);
      if one.Answered? {
        DispatchIgnoresDenied(a, b, one.next);
      }
    }
  }

  lemma {:induction false} ClosedSame(a: World, b: World, ms: seq<Message>, uses: seq<ToolUse>, n: nat)
    requires n <= |uses| && b.errorText == a.errorText
    ensures Closed(ms, uses, a, n) == Closed(ms, uses, b, n)
  {
    if n > 0 {
      ClosedSame(a, b, ms, uses, n - 1);
    }
  }

  lemma PerformIgnoresDenied(a: World, b: World, c: Config, act: Act)
    requires SameButDenied(a, b)
    ensures Perform(a, c, act) == Perform(b, c, act)
  {
    match act
    case Begin(input, sameRun) =>
      var dangling := Dangling(c.state.messages, |c.state.messages|);
      ClosedSame(a, b, c.state.messages, dangling, |dangling|);
      assert Fresh(input, Some(c.state), a) == Fresh(input, Some(c.state), b);
      hide Fresh;
      TransitIgnoresDenied(a, b, if sameRun && c.phase.Ready? then c.phase.step else PrepareTurn,
                           Fresh(input, Some(c.state), a));
    case Answer(input) => DispatchIgnoresDenied(a, b, Resumed(c.state, input));
    case Advance =>
      if c.phase.Ready? {
        TransitIgnoresDenied(a, b, c.phase.step, c.state);
      }
  }

  lemma TransitIgnoresDenied(a: World, b: World, step: Step, s: State)
    requires SameButDenied(a, b)
    ensures Transit(a, step, s) == Transit(b, step, s)
  {
    hide WindowOf, Responded;
    match step
    case PrepareTurn =>
    case ModelStep => assert IsWindow(a.policy, WindowOf(s.messages, a.policy).messages);
    case DispatchTools => DispatchIgnoresDenied(a, b, s);
  }

  /** Over whole sessions: whatever denied tools would do, and whatever the model would say to anything
      but a window of the transcript, the session is the same. */
  lemma {:induction false} SessionIgnoresDenied(w: World, w': World, first: AgentInput, turns: seq<Turn>,
                                                turns': seq<Turn>, n: nat)
    requires n <= |turns| == |turns'| && SameButDenied(w, w')
    requires forall i :: 0 <= i < n ==> turns'[i].act == turns[i].act && SameButDenied(turns[i].world, turns'[i].world)
    ensures Session(w, first, turns, n) == Session(w', first, turns', n)
  {
    hide SameButDenied, Perform;
    if n == 0 {
    } else {
      SessionIgnoresDenied(w, w', first, turns, turns', n - 1);
      PerformIgnoresDenied(turns[n - 1].world, turns'[n - 1].world, Session(w, first, turns, n - 1), turns[n - 1].act);
    }
  }

  // ---------------------------------------------------------------- what is recorded for a use

  /** The place of the first question among the uses. */
  function FirstQuestion(uses: seq<ToolUse>): nat {
    if |uses| == 0 || uses[0].name == "ask_user" then 0 else 1 + FirstQuestion(uses[1..])
  }

  /** The answer that is waiting is for another question than the one it will meet. */
  predicate AnswerStrays(s: State) {
    var q := FirstQuestion(s.pendingTools);
    q < |s.pendingTools| && s.humanInput.Some? && s.humanInput.value.id != s.pendingTools[q].id
  }

  /** The number under which use `i` counts: every use before it counts, except a question that got the
      answer to another one. */
  function CallNumber(s: State, i: nat): int {
    s.toolCalls + i + 1 - if AnswerStrays(s) && FirstQuestion(s.pendingTools) < i then 1 else 0
  }

  /** `r` is the result, or the note in its place if it is archived. */
  predicate ResultOrNote(w: World, result: ToolResult, r: ToolResult) {
    match w.archived(result)
    case None => r == result
    case Some(note) => r == ToolResult(result.id, result.name, note, result.isError)
  }

  function Refusal(w: World, use: ToolUse): ToolResult {
    ToolResult(use.id, use.name, w.errorText(use), true)
  }

  /** What is recorded for use `i`: the user's answer for the first question, the tool's own result if
      the policy allows the call, an error if not. */
  ghost predicate RecordedFor(w: World, s: State, i: nat, r: ToolResult)
    requires i < |s.pendingTools|
  {
    var use := s.pendingTools[i];
    if use.name == "ask_user" then
      && s.humanInput.Some? && i == FirstQuestion(s.pendingTools)
      && r == if s.humanInput.value.id == use.id
              then ToolResult(use.id, use.name, w.answerText(s.humanInput.value), false) else Refusal(w, use)
    else if use.name == "emit_artifact" then
      w.artifactOk(use) && ResultOrNote(w, ToolResult(use.id, use.name, w.okText, false), r)
    else
      && !IsTerminalTool(w, use) && s.toolCalls < CallNumber(s, i) <= s.budget.maxToolCalls
      && ResultOrNote(w, if w.allowed(use) then w.call(CallNumber(s, i), use) else Refusal(w, use), r)
  }

  /** Why dispatching ended at use `k`, with the ones before it recorded. */
  ghost predicate EndsAt(w: World, s: State, k: nat, next: State, move: Move)
    requires k <= |s.pendingTools|
  {
    match move
    case Goto(step) => step == ModelStep && k == |s.pendingTools| && next.pendingTools == []
    case Ask(use) =>
      && k < |s.pendingTools| && use == s.pendingTools[k] && use.name == "ask_user" && w.questionOk(use)
      && next.pendingHuman == Some(use) && next.pendingTools == s.pendingTools[k + 1..]
      && (s.humanInput.None? || FirstQuestion(s.pendingTools) < k)
    case Complete(reason) =>
      if reason == MaxToolCalls then
        k < |s.pendingTools| && next.toolCalls >= s.budget.maxToolCalls && next.pendingTools == s.pendingTools[k + 1..]
      else
        && reason == Terminal
        && if k > 0 && s.pendingTools[k - 1].name == "emit_artifact" && IsTerminalTool(w, s.pendingTools[k - 1])
           then next.pendingTools == s.pendingTools[k..]
           else k < |s.pendingTools| && s.pendingTools[k].name != "emit_artifact"
                && IsTerminalTool(w, s.pendingTools[k]) && next.pendingTools == s.pendingTools[k + 1..]
    case Broken =>
      && k < |s.pendingTools|
      && var use := s.pendingTools[k];
         if use.name == "ask_user" then !w.questionOk(use) else use.name == "emit_artifact" && !w.artifactOk(use)
  }

  /** Message `i` after those of the state is the result of use `i`. */
  ghost predicate RecordAt(w: World, s: State, i: nat, after: seq<Message>)
    requires i < |s.pendingTools| && |s.messages| + i < |after|
  {
    var m := after[|s.messages| + i];
    m.User? && |m.content| == 1 && m.content[0].Returned? && RecordedFor(w, s, i, m.content[0].result)
  }

  /** The messages are those before and one result each for the first `k` pending uses, in order. */
  ghost predicate RecordsFirst(w: World, s: State, k: nat, after: seq<Message>) {
    && k <= |s.pendingTools| && |after| == |s.messages| + k && after[..|s.messages|] == s.messages
    && forall i :: 0 <= i < k ==> RecordAt(w, s, i, after)
  }

  lemma LaterRecord(w: World, s: State, next: State, i: nat, r: ToolResult)
    requires |s.pendingTools| > 0 && DispatchOne(w, Popped(s), s.pendingTools[0]) == Answered(next)
    requires 0 < i < |s.pendingTools| && RecordedFor(w, next, i - 1, r)
    ensures next.pendingTools == s.pendingTools[1..] && CallNumber(next, i - 1) == CallNumber(s, i)
    ensures RecordedFor(w, s, i, r)
  {
    assert next.pendingTools == s.pendingTools[1..];
    assert next.pendingTools[i - 1] == s.pendingTools[i];
    if s.pendingTools[0].name != "ask_user" {
      var q := FirstQuestion(next.pendingTools);
      assert q < |next.pendingTools| ==> next.pendingTools[q] == s.pendingTools[q + 1];
    }
  }

  lemma FirstRecord(w: World, s: State, use: ToolUse)
    requires |s.pendingTools| > 0 && use == s.pendingTools[0]
    ensures var one := DispatchOne(w, Popped(s), use);
            match one
            case Answered(next) =>
              && |next.messages| == |s.messages| + 1 && next.messages[..|s.messages|] == s.messages
              && RecordAt(w, s, 0, next.messages) && next.pendingTools == s.pendingTools[1..]
              && !(use.name == "emit_artifact" && IsTerminalTool(w, use))
              && next.budget == s.budget
              && (if use.name == "ask_user" then next.humanInput.None? else next.humanInput == s.humanInput)
            case Ends(last, move) =>
              var k := |last.messages| - |s.messages|;
              0 <= k && RecordsFirst(w, s, k, last.messages) && EndsAt(w, s, k, last, move)
  {
    var one := DispatchOne(w, Popped(s), use);
    var r := if use.name == "ask_user" && s.humanInput.Some? then AnswerResult(w, use, s.humanInput.value)
             else Archived(w, CallResult(w, s.toolCalls + 1, use));
    var next := if one.Answered? then one.next else one.last;
    assert next.messages == s.messages || next.messages == s.messages + [ResultMessage(r)];
    assert |next.messages| > |s.messages| ==> RecordAt(w, s, 0, next.messages);
  }

  /** What is recorded after the first use, and where that ends, said from the start. */
  lemma LaterRecords(w: World, s: State, next: State, k: nat, last: State, move: Move)
    requires |s.pendingTools| > 0 && DispatchOne(w, Popped(s), s.pendingTools[0]) == Answered(next)
    requires RecordsFirst(w, next, k, last.messages) && EndsAt(w, next, k, last, move)
    ensures RecordsFirst(w, s, k + 1, last.messages) && EndsAt(w, s, k + 1, last, move)
  {
    hide DispatchOne, RecordedFor, IsTerminalTool;
    FirstRecord(w, s, s.pendingTools[0]);
    assert last.messages[..|s.messages|] == next.messages[..|s.messages|];
    assert last.messages[|s.messages|] == next.messages[|s.messages|];
    assert k < |next.pendingTools| ==> next.pendingTools[k] == s.pendingTools[k + 1]
                                       && next.pendingTools[k + 1..] == s.pendingTools[k + 2..];
    assert next.pendingTools[k..] == s.pendingTools[k + 1..];
    forall i | 0 <= i < k + 1 ensures RecordAt(w, s, i, last.messages) {
      if i > 0 {
        assert RecordAt(w, next, i - 1, last.messages);
        LaterRecord(w, s, next, i, last.messages[|s.messages| + i].content[0].result);
      }
    }
  }

  /** What dispatching records, and where and why it ends. */
  lemma {:induction false} DispatchRecords(w: World, s: State)
    ensures var (next, move) := Dispatch(w, s);
            var k := |next.messages| - |s.messages|;
            k >= 0 && RecordsFirst(w, s, k, next.messages) && EndsAt(w, s, k, next, move)
    decreases |s.pendingTools|
  {
    hide DispatchOne, RecordsFirst, EndsAt, RecordAt;
    if |s.pendingTools| > 0 {
      FirstRecord(w, s, s.pendingTools[0]);
      var one := DispatchOne(w, Popped(s), s.pendingTools[0]);
      if one.Answered? {
        DispatchRecords(w, one.next);
        var (next, move) := Dispatch(w, one.next);
        LaterRecords(w, s, one.next, |next.messages| - |one.next.messages|, next, move);
      }
    } else {
      NothingRecorded(w, s);
    }
  }

  lemma NothingRecorded(w: World, s: State)
    requires s.pendingTools == []
    ensures RecordsFirst(w, s, 0, s.messages) && EndsAt(w, s, 0, s, Goto(ModelStep))
  {
  }

  /** A built-in ending or a terminal tool of the registry ends dispatching: it is not called and leaves
      no result. */
  lemma TerminalEnds(w: World, s: State)
    requires |s.pendingTools| > 0 && s.toolCalls < s.budget.maxToolCalls
    requires s.pendingTools[0].name != "ask_user" && s.pendingTools[0].name != "emit_artifact"
    ensures var name := s.pendingTools[0].name;
            Dispatch(w, s) == (s.(pendingTools := s.pendingTools[1..]), Complete(Terminal))
            <==> w.terminalSpec(name) || name == "report" || name == "reject" || name == "terminal"
                 || name == "planner.report" || name == "planner.reject"
  {
    var use := s.pendingTools[0];
    if !IsTerminalTool(w, use) {
      var one := DispatchOne(w, Popped(s), use);
      assert |one.next.messages| == |s.messages| + 1;
      DispatchRecords(w, one.next);
    }
  }

  lemma LaterNumber(w: World, s: State, next: State, i: nat)
    requires |s.pendingTools| > 0 && DispatchOne(w, Popped(s), s.pendingTools[0]) == Answered(next)
    requires 0 < i <= |s.pendingTools|
    ensures CallNumber(next, i - 1) == CallNumber(s, i)
  {
    assert next.pendingTools == s.pendingTools[1..];
    if s.pendingTools[0].name != "ask_user" {
      var q := FirstQuestion(next.pendingTools);
      assert q < |next.pendingTools| ==> next.pendingTools[q] == s.pendingTools[q + 1];
    }
  }

  lemma RecordedCount(w: World, s: State, k: nat)
    requires RecordsFirst(w, s, k, Dispatch(w, s).0.messages)
    ensures k <= |s.pendingTools|
  {
  }

  lemma OneCounted(w: World, s: State)
    requires |s.pendingTools| > 0
    ensures match DispatchOne(w, Popped(s), s.pendingTools[0])
            case Answered(next) => |next.messages| == |s.messages| + 1 && |next.pendingTools| == |s.pendingTools| - 1
            case Ends(last, move) =>
              && 0 <= |last.messages| - |s.messages|
              && (!move.Broken? ==> last.toolCalls == CallNumber(s, |last.messages| - |s.messages|) - 1)
  {
  }

  lemma NothingCounted(s: State)
    ensures CallNumber(s, 0) == s.toolCalls + 1
  {
  }

  /** Every recorded use counts against the budget, except a question that got the answer to another. */
  lemma {:induction false} CallsCounted(w: World, s: State)
    ensures var (next, move) := Dispatch(w, s);
            && |next.messages| >= |s.messages|
            && (!move.Broken? ==> next.toolCalls == CallNumber(s, |next.messages| - |s.messages|) - 1)
    decreases |s.pendingTools|
  {
    hide DispatchOne, CallNumber, RecordsFirst, EndsAt, RecordAt;
    if |s.pendingTools| > 0 {
      FirstRecord(w, s, s.pendingTools[0]);
      OneCounted(w, s);
      var one := DispatchOne(w, Popped(s), s.pendingTools[0]);
      if one.Answered? {
        CallsCounted(w, one.next);
        DispatchRecords(w, one.next);
        RecordedCount(w, one.next, |Dispatch(w, one.next).0.messages| - |one.next.messages|);
        LaterNumber(w, s, one.next, |Dispatch(w, one.next).0.messages| - |s.messages|);
      }
    } else {
      NothingCounted(s);
    }
  }

  /** A run that asked and is resumed with an answer records it first, for the question it is for; an
      answer to another question leaves an error. */
  lemma AnswerIsRecorded(w: World, s: State, input: AgentInput)
    requires s.pendingHuman.Some? && s.pendingHuman.value.name == "ask_user" && input.humanInput.Some?
    requires s.toolCalls < s.budget.maxToolCalls
    ensures var question, given := s.pendingHuman.value, input.humanInput.value;
            var after := Dispatch(w, Resumed(s, input)).0.messages;
            && |after| > |s.messages| && after[..|s.messages|] == s.messages
            && after[|s.messages|]
               == ResultMessage(if given.id == question.id
                                then ToolResult(question.id, question.name, w.answerText(given), false)
                                else Refusal(w, question))
  {
    var resumed := Resumed(s, input);
    FirstRecord(w, resumed, s.pendingHuman.value);
    var one := DispatchOne(w, Popped(resumed), s.pendingHuman.value);
    assert one.Answered?;
    DispatchRecords(w, one.next);
    var m := Dispatch(w, one.next).0.messages;
    assert m[..|one.next.messages|] == one.next.messages;
    assert m[..|s.messages|] == one.next.messages[..|s.messages|];
  }

  // ---------------------------------------------------------------- what is recorded of a response

  function Joined(texts: seq<string>): string {
    if |texts| == 0 then "" else texts[0] + Joined(texts[1..])
  }

  /** The text of the blocks, in order. */
  function TextOf(content: seq<Block>): string {
    if |content| == 0 then "" else (if content[0].Text? then content[0].text else "") + TextOf(content[1..])
  }

  /** The blocks that are no text, in order. */
  function OtherBlocks(content: seq<Block>): seq<Block> {
    if |content| == 0 then [] else (if content[0].Text? then [] else [content[0]]) + OtherBlocks(content[1..])
  }

  lemma Regrouped<T>(a: seq<T>, b: seq<T>, c: seq<T>)
    ensures a + (b + c) == a + b + c
  {
  }

  lemma {:induction false} TextOfConcat(a: seq<Block>, b: seq<Block>)
    ensures TextOf(a + b) == TextOf(a) + TextOf(b) && OtherBlocks(a + b) == OtherBlocks(a) + OtherBlocks(b)
  {
    if |a| == 0 {
      assert a + b == b;
    } else {
      var text := if a[0].Text? then a[0].text else "";
      var other := if a[0].Text? then [] else [a[0]];
      assert (a + b)[1..] == a[1..] + b && (a + b)[0] == a[0];
      TextOfConcat(a[1..], b);
      Regrouped(text, TextOf(a[1..]), TextOf(b));
      Regrouped(other, OtherBlocks(a[1..]), OtherBlocks(b));
    }
  }

  lemma {:induction false} JoinedConcat(a: seq<string>, b: seq<string>)
    ensures Joined(a + b) == Joined(a) + Joined(b)
  {
    if |a| == 0 {
      assert a + b == b;
    } else {
      assert (a + b)[1..] == a[1..] + b && (a + b)[0] == a[0];
      JoinedConcat(a[1..], b);
      Regrouped(a[0], Joined(a[1..]), Joined(b));
    }
  }

  lemma {:induction false} TextsJoin(deltas: seq<string>)
    ensures TextOf(Texts(deltas)) == Joined(deltas) && OtherBlocks(Texts(deltas)) == []
    ensures forall b :: b in Texts(deltas) ==> b.Text? && |b.text| > 0
  {
    if |deltas| > 0 {
      var front, last := deltas[..|deltas| - 1], deltas[|deltas| - 1];
      TextsJoin(front);
      assert deltas == front + [last];
      JoinedConcat(front, [last]);
      assert Joined([last]) == last;
      TextOfConcat(Texts(front), [Text(last)]);
      assert TextOf([Text(last)]) == last;
    }
  }

  lemma {:induction false} KeptText(content: seq<Block>)
    ensures TextOf(Kept(content)) == TextOf(content) && OtherBlocks(Kept(content)) == OtherBlocks(content)
    ensures forall b :: b in Kept(content) && b.Text? ==> |b.text| > 0
  {
    if |content| > 0 {
      var front, last := content[..|content| - 1], content[|content| - 1];
      KeptText(front);
      assert content == front + [last];
      TextOfConcat(front, [last]);
      TextOfConcat(Kept(front), [last]);
      assert TextOf([last]) == if last.Text? then last.text else "";
      assert OtherBlocks([last]) == if last.Text? then [] else [last];
    }
  }

  lemma {:induction false} NoText(content: seq<Block>)
    requires forall b :: b in content ==> !b.Text?
    ensures TextOf(content) == "" && OtherBlocks(content) == content
  {
    if |content| > 0 {
      NoText(content[1..]);
      assert content == [content[0]] + content[1..];
    }
  }

  /** All that the response says. */
  function Said(r: Response): string {
    Joined(r.streamed) + Joined(r.deltas) + TextOf(r.content)
  }

  /** The recorded content says all that the response says, in order, and has all its other blocks
      followed by its tool uses. */
  lemma ContentSays(r: Response)
    ensures TextOf(AssistantContent(r)) == Said(r)
    ensures OtherBlocks(AssistantContent(r)) == OtherBlocks(r.content) + UseBlocks(r.toolUses)
  {
    var a, b, c, d := Texts(r.streamed), Texts(r.deltas), Kept(r.content), UseBlocks(r.toolUses);
    hide Texts, Kept, UseBlocks, TextOf, OtherBlocks, Joined;
    assert AssistantContent(r) == a + b + c + d;
    NoText(d);
    hide AssistantContent;
    TextsJoin(r.streamed);
    TextsJoin(r.deltas);
    KeptText(r.content);
    TextOfConcat(a, b);
    TextOfConcat(a + b, c);
    TextOfConcat(a + b + c, d);
  }

  lemma NoEmptyText(r: Response)
    ensures forall b :: b in AssistantContent(r) && b.Text? ==> |b.text| > 0
  {
    TextsJoin(r.streamed);
    TextsJoin(r.deltas);
    KeptText(r.content);
    hide Texts, Kept, TextOf, OtherBlocks, Joined;
  }

  lemma {:induction false} SaysSomething(content: seq<Block>)
    requires forall b :: b in content && b.Text? ==> |b.text| > 0
    ensures HasText(content) <==> TextOf(content) != ""
  {
    if |content| > 0 {
      SaysSomething(content[1..]);
      assert content == [content[0]] + content[1..];
      if HasText(content) && !content[0].Text? {
        var b :| b in content && b.Text?;
        assert b in content[1..];
      }
    }
  }

  lemma {:induction false} WithoutUsesText(content: seq<Block>)
    ensures TextOf(WithoutUses(content)) == TextOf(content)
  {
    if |content| > 0 {
      var front, last := content[..|content| - 1], content[|content| - 1];
      WithoutUsesText(front);
      assert content == front + [last];
      TextOfConcat(front, [last]);
      TextOfConcat(WithoutUses(front), [last]);
      assert TextOf([last]) == if last.Text? then last.text else "";
    }
  }

  /** A response adds at most one message, which says what the response says, or its final text if it
      says nothing else; one that was cut off leaves no tool pending, any other one all that it
      asked for. */
  lemma ResponseIsRecorded(s: State, r: Response)
    ensures var (next, move) := Responded(s, r);
            && (next.messages == s.messages
                || exists content: seq<Block> :: next.messages == s.messages + [Assistant(content)])
            && s.messages <= next.messages
            && var said := if |next.messages| > |s.messages| then TextOf(next.messages[|s.messages|].content) else "";
               && said == (if !r.cutOff && r.finalText.Some? && Said(r) == "" then r.finalText.value else Said(r))
               && next.pendingTools == (if r.cutOff then [] else s.pendingTools + Requested(r))
               && move == (if r.cutOff then Complete(MaxTokens)
                           else if r.finalText.Some? || |next.pendingTools| == 0 then Complete(Stop)
                           else Goto(DispatchTools))
  {
    ContentSays(r);
    NoEmptyText(r);
    var content := AssistantContent(r);
    SaysSomething(content);
    WithoutUsesText(content);
    assert TextOf([]) == "";
    if r.finalText.Some? {
      TextOfConcat(content, [Text(r.finalText.value)]);
      assert TextOf([Text(r.finalText.value)]) == r.finalText.value;
    }
    hide AssistantContent, Said, TextOf, HasText, WithoutUses;
    var next := Responded(s, r).0;
    if |next.messages| > |s.messages| {
      assert next.messages == s.messages + [next.messages[|s.messages|]];
    }
  }

  // ---------------------------------------------------------------- a new run

  lemma {:induction false} DanglingOpen(ms: seq<Message>, n: nat, i: nat)
    requires n <= |ms| && i < |Dangling(ms, n)|
    ensures var use := Dangling(ms, n)[i]; !Resulted(ms, use.id) && Used(ms, use.id)
  {
    DanglingNames(ms, n, Dangling(ms, n)[i].id);
    var id := Dangling(ms, n)[i].id;
    assert Names(Dangling(ms, n), id);
    var j :| 0 <= j < n && Uses(ms[..n][j], id);
    assert Uses(ms[j], id);
  }

  lemma {:induction false} ClosedAdds(ms: seq<Message>, uses: seq<ToolUse>, w: World, n: nat)
    requires n <= |uses|
    ensures var after := Closed(ms, uses, w, n);
            && |after| == |ms| + n && after[..|ms|] == ms
            && forall i :: |ms| <= i < |ms| + n ==> after[i] == ResultMessage(Refusal(w, uses[i - |ms|]))
  {
    if n > 0 {
      ClosedAdds(ms, uses, w, n - 1);
      var before, after := Closed(ms, uses, w, n - 1), Closed(ms, uses, w, n);
      assert after == before + [ResultMessage(ErrorResult(uses[n - 1], w))];
      assert after[..|ms|] == before[..|ms|];
    }
  }

  /** The message is an error for a use that has no result in the transcript. */
  ghost predicate ClosesOpen(w: World, ms: seq<Message>, m: Message) {
    exists use: ToolUse :: m == ResultMessage(Refusal(w, use)) && Used(ms, use.id) && !Resulted(ms, use.id)
  }

  lemma RepairedAdds(ms: seq<Message>, w: World)
    ensures var after := Repaired(ms, w);
            && |after| >= |ms| && after[..|ms|] == ms
            && forall i :: |ms| <= i < |after| ==> ClosesOpen(w, ms, after[i])
  {
    var dangling, after := Dangling(ms, |ms|), Repaired(ms, w);
    ClosedAdds(ms, dangling, w, |dangling|);
    assert after == Closed(ms, dangling, w, |dangling|);
    hide Closed, Dangling, Repaired;
    forall i | |ms| <= i < |after| ensures ClosesOpen(w, ms, after[i]) {
      DanglingOpen(ms, |ms|, i - |ms|);
    }
  }

  lemma Slices<T>(a: seq<T>, b: seq<T>, n: nat)
    requires n <= |a|
    ensures (a + b)[..n] == a[..n] && (a + b)[|a|..] == b
  {
  }

  /** A new run keeps the earlier transcript, adds an error for uses without a result only, and ends with
      the new input; it begins with nothing pending and its whole budget. */
  lemma FreshContinues(input: AgentInput, previous: Option<State>, w: World)
    ensures var earlier := if previous.Some? then previous.value.messages else [];
            var s := Fresh(input, previous, w);
            var n := |s.messages| - |input.messages|;
            && n >= |earlier| && s.messages[..|earlier|] == earlier && s.messages[n..] == input.messages
            && (forall i :: |earlier| <= i < n ==> ClosesOpen(w, earlier, s.messages[i]))
            && s == State(s.messages, input.budget, 0, 0, [], None, input.humanInput)
  {
    hide Repaired, ClosesOpen;
    var earlier := if previous.Some? then previous.value.messages else [];
    RepairedAdds(earlier, w);
    Slices(Repaired(earlier, w), input.messages, |earlier|);
  }

  /** A run begins in front of the model, with the transcript of a new run and none of the tools that were
      pending; one that is executed again while it stood there goes on with the model's turn. */
  lemma BeginsAtModel(w: World, c: Config, input: AgentInput, sameRun: bool)
    ensures var s := Fresh(input, Some(c.state), w);
            Perform(w, c, Begin(input, sameRun))
            == if sameRun && c.phase == Ready(ModelStep) then Saved(c, ModelTurn(w, s)) else Config(s, Ready(ModelStep))
  {
    hide ModelTurn;
    var s := Fresh(input, Some(c.state), w);
    assert s.pendingTools == [];
    assert Dispatch(w, s) == (s, Goto(ModelStep));
  }
}
