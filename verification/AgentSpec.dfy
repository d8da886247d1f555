/**
 The agent loop as functions on its state, and what it keeps: the shape of the transcript, and
 its budgets.

 The model, the tools and the permission policy are arbitrary functions, collected in a `World`.
 */
module AgentSpec {
  import opened Types
  import opened Transcript
  import opened AgentContext

  datatype HumanAnswer = HumanAnswer(id: ToolId, answer: Value)

  datatype Budget = Budget(maxModelTurns: nat, maxToolCalls: nat)

  datatype AgentInput = AgentInput(messages: seq<Message>, budget: Budget, humanInput: Option<HumanAnswer>)

  datatype Response = Response(streamed: seq<string>, deltas: seq<string>, content: seq<Block>,
                               toolUses: seq<ToolUse>, finalText: Option<string>, cutOff: bool)

  datatype State = State(messages: seq<Message>, budget: Budget, modelTurns: nat, toolCalls: nat,
                         pendingTools: seq<ToolUse>, pendingHuman: Option<ToolUse>,
                         humanInput: Option<HumanAnswer>)

  datatype Reason = Stop | Terminal | MaxModelTurns | MaxToolCalls | MaxTokens

  datatype Step = PrepareTurn | ModelStep | DispatchTools

  /** How a transition ends. A broken one is an error; its state is not saved. */
  datatype Move = Goto(step: Step) | Ask(use: ToolUse) | Complete(reason: Reason) | Broken

  /** `respond` and `call` get a running number, so that they may answer differently each time. */
  datatype World = World(
    policy: Policy,
    respond: (nat, seq<Message>) -> Option<Response>,
    call: (nat, ToolUse) -> ToolResult,
    allowed: ToolUse -> bool,
    terminalSpec: string -> bool,
    questionOk: ToolUse -> bool,
    artifactOk: ToolUse -> bool,
    archived: ToolResult -> Option<Value>,
    errorText: ToolUse -> Value,
    answerText: HumanAnswer -> Value,
    okText: Value)

  // ---------------------------------------------------------------- repairing a transcript

  function UsesIn(content: seq<Block>): seq<ToolUse> {
    if |content| == 0 then []
    else
      var front := UsesIn(content[..|content| - 1]);
      var last := content[|content| - 1];
      if last.Use? then front + [last.use] else front
  }

  predicate HasResult(ms: seq<Message>, id: ToolId) {
    exists m :: m in ms && HoldsResult(m.content, id)
  }

  /** The uses among the first `n` of `uses` that have no result in the transcript. */
  function Unresolved(ms: seq<Message>, uses: seq<ToolUse>, n: nat): seq<ToolUse>
    requires n <= |uses|
  {
    if n == 0 then []
    else
      var front := Unresolved(ms, uses, n - 1);
      if HasResult(ms, uses[n - 1].id) then front else front + [uses[n - 1]]
  }

  /** The uses without a result in the first `n` messages, in order. */
  function Dangling(ms: seq<Message>, n: nat): seq<ToolUse>
    requires n <= |ms|
  {
    if n == 0 then []
    else
      var front := Dangling(ms, n - 1);
      if ms[n - 1].User? then front
      else
        var uses := UsesIn(ms[n - 1].content);
        front + Unresolved(ms, uses, |uses|)
  }

  function ErrorResult(use: ToolUse, w: World): ToolResult {
    ToolResult(use.id, use.name, w.errorText(use), true)
  }

  /** The transcript with an error result for each of the first `n` uses. */
  function Closed(ms: seq<Message>, uses: seq<ToolUse>, w: World, n: nat): seq<Message>
    requires n <= |uses|
  {
    if n == 0 then ms else Closed(ms, uses, w, n - 1) + [ResultMessage(ErrorResult(uses[n - 1], w))]
  }

  function Repaired(ms: seq<Message>, w: World): seq<Message> {
    var dangling := Dangling(ms, |ms|);
    Closed(ms, dangling, w, |dangling|)
  }

  function Fresh(input: AgentInput, previous: Option<State>, w: World): State {
    var earlier := if previous.Some? then previous.value.messages else [];
    State(Repaired(earlier, w) + input.messages, input.budget, 0, 0, [], None, input.humanInput)
  }

  function Resumed(s: State, input: AgentInput): State {
    var given := s.(humanInput := input.humanInput);
    if input.humanInput.Some? && s.pendingHuman.Some?
    then given.(pendingHuman := None, pendingTools := [s.pendingHuman.value] + s.pendingTools)
    else given
  }

  // ---------------------------------------------------------------- the model step

  function Texts(deltas: seq<string>): seq<Block> {
    if |deltas| == 0 then []
    else
      var front := Texts(deltas[..|deltas| - 1]);
      var last := deltas[|deltas| - 1];
      if |last| == 0 then front else front + [Text(last)]
  }

  /** The recorded blocks of the response; empty texts leave no block. */
  function Kept(content: seq<Block>): seq<Block> {
    if |content| == 0 then []
    else
      var front := Kept(content[..|content| - 1]);
      var last := content[|content| - 1];
      if last.Text? && |last.text| == 0 then front else front + [last]
  }

  function UseBlocks(uses: seq<ToolUse>): (r: seq<Block>)
    ensures |r| == |uses| && forall i :: 0 <= i < |uses| ==> r[i] == Use(uses[i])
  {
    seq(|uses|, i requires 0 <= i < |uses| => Use(uses[i]))
  }

  function AssistantContent(r: Response): seq<Block> {
    Texts(r.streamed) + Texts(r.deltas) + Kept(r.content) + UseBlocks(r.toolUses)
  }

  function Requested(r: Response): seq<ToolUse> {
    UsesIn(r.content) + r.toolUses
  }

  function WithoutUses(content: seq<Block>): seq<Block> {
    if |content| == 0 then []
    else
      var front := WithoutUses(content[..|content| - 1]);
      if content[|content| - 1].Use? then front else front + [content[|content| - 1]]
  }

  function PushAssistant(ms: seq<Message>, content: seq<Block>): seq<Message> {
    if |content| == 0 then ms else ms + [Assistant(content)]
  }

  predicate HasText(content: seq<Block>) {
    exists b :: b in content && b.Text?
  }

  /** The response is taken into the state. */
  function Responded(s: State, r: Response): (State, Move) {
    var content := AssistantContent(r);
    var next := s.(pendingTools := s.pendingTools + Requested(r));
    if r.cutOff then
      (s.(messages := PushAssistant(s.messages, WithoutUses(content)), pendingTools := []), Complete(MaxTokens))
    else if r.finalText.Some? then
      var all := if |r.finalText.value| > 0 && !HasText(content) then content + [Text(r.finalText.value)] else content;
      (next.(messages := PushAssistant(s.messages, all)), Complete(Stop))
    else
      (next.(messages := PushAssistant(s.messages, content)),
       if |next.pendingTools| == 0 then Complete(Stop) else Goto(DispatchTools))
  }

  function ModelTurn(w: World, s: State): (State, Move) {
    if s.modelTurns >= s.budget.maxModelTurns then (s, Complete(MaxModelTurns))
    else
      var counted := s.(modelTurns := s.modelTurns + 1);
      var response := w.respond(counted.modelTurns, WindowOf(s.messages, w.policy).messages);
      if response.None? then (counted, Broken) else Responded(counted, response.value)
  }

  // ---------------------------------------------------------------- dispatching tools

  predicate IsTerminalTool(w: World, use: ToolUse) {
    w.terminalSpec(use.name) || use.name in {"report", "reject", "terminal", "planner.report", "planner.reject"}
  }

  /** A result that is too large is replaced by a note; it stays the result of the same use. */
  function Archived(w: World, r: ToolResult): ToolResult {
    var note := w.archived(r);
    if note.Some? then r.(content := note.value) else r
  }

  /** The answer to `ask_user`, and whether it counts as a tool call. */
  function AnswerResult(w: World, use: ToolUse, a: HumanAnswer): ToolResult {
    if a.id != use.id then ErrorResult(use, w) else ToolResult(use.id, use.name, w.answerText(a), false)
  }

  function CallResult(w: World, n: nat, use: ToolUse): ToolResult {
    if use.name == "emit_artifact" then ToolResult(use.id, use.name, w.okText, false)
    else if w.allowed(use) then w.call(n, use)
    else ErrorResult(use, w)
  }

  /** What happens to one tool use: it is answered and the next one follows, or dispatching ends. */
  datatype OneTool = Answered(next: State) | Ends(last: State, move: Move)

  function DispatchOne(w: World, s: State, use: ToolUse): OneTool {
    if s.toolCalls >= s.budget.maxToolCalls then Ends(s, Complete(MaxToolCalls))
    else if use.name == "ask_user" then
      if s.humanInput.Some? then
        var a := s.humanInput.value;
        Answered(s.(humanInput := None, pendingHuman := None,
                    toolCalls := if a.id != use.id then s.toolCalls else s.toolCalls + 1,
                    messages := s.messages + [ResultMessage(AnswerResult(w, use, a))]))
      else if !w.questionOk(use) then Ends(s, Broken)
      else Ends(s.(pendingHuman := Some(use)), Ask(use))
    else
      var terminal := IsTerminalTool(w, use);
      if terminal && use.name != "emit_artifact" then Ends(s, Complete(Terminal))
      else if use.name == "emit_artifact" && !w.artifactOk(use) then Ends(s.(toolCalls := s.toolCalls + 1), Broken)
      else
        var result := Archived(w, CallResult(w, s.toolCalls + 1, use));
        var next := s.(toolCalls := s.toolCalls + 1, messages := s.messages + [ResultMessage(result)]);
        if terminal then Ends(next, Complete(Terminal)) else Answered(next)
  }

  function Popped(s: State): State
    requires |s.pendingTools| > 0
  {
    s.(pendingTools := s.pendingTools[1..])
  }

  function Dispatch(w: World, s: State): (r: (State, Move))
    ensures r.0.modelTurns == s.modelTurns && r.0.budget == s.budget
    ensures r.1.Goto? ==> r.1.step == ModelStep
    decreases |s.pendingTools|
  {
    if |s.pendingTools| == 0 then (s, Goto(ModelStep))
    else
      var one := DispatchOne(w, Popped(s), s.pendingTools[0]);
      if one.Ends? then (one.last, one.move)
      else
        assert one.next.pendingTools == s.pendingTools[1..];
        Dispatch(w, one.next)
  }

  function Transit(w: World, step: Step, s: State): (State, Move) {
    match step
    case PrepareTurn => (s, Goto(ModelStep))
    case ModelStep => ModelTurn(w, s)
    case DispatchTools => Dispatch(w, s)
  }

  // ---------------------------------------------------------------- invariants

  /** The model answers with text, thinking and tool uses only. */
  ghost predicate Proper(w: World) {
    forall n, ms :: w.respond(n, ms).Some? ==> NoResults(w.respond(n, ms).value.content)
  }

  /** The registry answers under the id it was asked for. */
  ghost predicate Echoes(w: World) {
    forall n, use :: w.call(n, use).id == use.id
  }

  ghost predicate Open(ms: seq<Message>, uses: seq<ToolUse>) {
    forall i :: 0 <= i < |uses| ==> Follows(ms, |ms|, uses[i].id)
  }

  predicate Names(uses: seq<ToolUse>, id: ToolId) {
    exists i :: 0 <= i < |uses| && uses[i].id == id
  }

  /** Every use has a result or is among those still to be answered. */
  ghost predicate Covered(ms: seq<Message>, uses: seq<ToolUse>) {
    forall id :: Used(ms, id) ==> Resulted(ms, id) || Names(uses, id)
  }

  ghost predicate BudgetOk(s: State) {
    s.modelTurns <= s.budget.maxModelTurns && s.toolCalls <= s.budget.maxToolCalls
  }

  /** Before a model step every tool use has its result. */
  ghost predicate AtModel(s: State) {
    Grouped(s.messages) && AllResulted(s.messages) && s.pendingTools == [] && s.pendingHuman.None?
  }

  /** While tools are dispatched the ones without a result are pending, in the last group. */
  ghost predicate AtDispatch(s: State) {
    && WellFormed(s.messages) && s.pendingHuman.None?
    && Open(s.messages, s.pendingTools) && Covered(s.messages, s.pendingTools)
  }

  /** Waiting for the user's answer. */
  ghost predicate AtQuestion(s: State) {
    && WellFormed(s.messages) && s.pendingHuman.Some?
    && Open(s.messages, [s.pendingHuman.value] + s.pendingTools)
    && Covered(s.messages, [s.pendingHuman.value] + s.pendingTools)
  }

  // ---------------------------------------------------------------- repair

  lemma {:induction false} UsesInHolds(content: seq<Block>, id: ToolId)
    ensures HoldsUse(content, id) <==> Names(UsesIn(content), id)
  {
    if |content| > 0 {
      var front, last := content[..|content| - 1], content[|content| - 1];
      UsesInHolds(front, id);
      assert content == front + [last];
      var a, b := UsesIn(front), UsesIn(content);
      if Names(a, id) {
        var i :| 0 <= i < |a| && a[i].id == id;
        assert b[i].id == id;
      }
      if last.Use? {
        assert b[|a|] == last.use;
      }
      if Names(b, id) {
        var i :| 0 <= i < |b| && b[i].id == id;
        assert i < |a| ==> a[i].id == id;
      }
    }
  }

  lemma NamesConcat(a: seq<ToolUse>, b: seq<ToolUse>, id: ToolId)
    ensures Names(a + b, id) <==> Names(a, id) || Names(b, id)
  {
    var all := a + b;
    if Names(a, id) {
      var i :| 0 <= i < |a| && a[i].id == id;
      assert all[i].id == id;
    }
    if Names(b, id) {
      var i :| 0 <= i < |b| && b[i].id == id;
      assert all[|a| + i].id == id;
    }
    if Names(all, id) {
      var i :| 0 <= i < |all| && all[i].id == id;
      assert if i < |a| then a[i].id == id else b[i - |a|].id == id;
    }
  }

  lemma HasResultIs(ms: seq<Message>, id: ToolId)
    ensures HasResult(ms, id) <==> Resulted(ms, id)
  {
    if HasResult(ms, id) {
      var m :| m in ms && HoldsResult(m.content, id);
      var i :| 0 <= i < |ms| && ms[i] == m;
    }
    if Resulted(ms, id) {
      var i :| 0 <= i < |ms| && HoldsResult(ms[i].content, id);
      assert ms[i] in ms;
    }
  }

  lemma {:induction false} UnresolvedNames(ms: seq<Message>, uses: seq<ToolUse>, n: nat, id: ToolId)
    requires n <= |uses|
    ensures Names(Unresolved(ms, uses, n), id) <==> Names(uses[..n], id) && !Resulted(ms, id)
  {
    if n > 0 {
      UnresolvedNames(ms, uses, n - 1, id);
      HasResultIs(ms, uses[n - 1].id);
      assert uses[..n] == uses[..n - 1] + [uses[n - 1]];
      NamesConcat(uses[..n - 1], [uses[n - 1]], id);
      NamesConcat(Unresolved(ms, uses, n - 1), [uses[n - 1]], id);
      assert [uses[n - 1]][0] == uses[n - 1];
    }
  }

  lemma {:induction false} DanglingNames(ms: seq<Message>, n: nat, id: ToolId)
    requires n <= |ms|
    ensures Names(Dangling(ms, n), id) <==> Used(ms[..n], id) && !Resulted(ms, id)
  {
    if n > 0 {
      DanglingNames(ms, n - 1, id);
      var uses := UsesIn(ms[n - 1].content);
      assert ms[..n] == ms[..n - 1] + [ms[n - 1]];
      Pushed(ms[..n - 1], ms[n - 1], id);
      if ms[n - 1].Assistant? {
        UsesInHolds(ms[n - 1].content, id);
        UnresolvedNames(ms, uses, |uses|, id);
        assert uses[..|uses|] == uses;
        NamesConcat(Dangling(ms, n - 1), Unresolved(ms, uses, |uses|), id);
      }
    }
  }

  /** What closing the first `n` uses has come to. */
  ghost predicate Closing(ms: seq<Message>, after: seq<Message>, uses: seq<ToolUse>, n: nat) {
    && n <= |uses| && WellFormed(after) && Open(after, uses)
    && (forall id :: Used(after, id) ==> Used(ms, id))
    && (forall id :: Resulted(ms, id) ==> Resulted(after, id))
    && (forall i :: 0 <= i < n ==> Resulted(after, uses[i].id))
  }

  lemma ClosingStep(ms: seq<Message>, before: seq<Message>, uses: seq<ToolUse>, n: nat, r: ToolResult)
    requires Closing(ms, before, uses, n) && n < |uses| && r.id == uses[n].id
    ensures Closing(ms, before + [ResultMessage(r)], uses, n + 1)
  {
    hide WellFormed, Used, Resulted, Follows, ResultMessage;
    ResultPushed(before, r);
    var after := before + [ResultMessage(r)];
    assert |after| == |before| + 1;
  }

  /** Closing open uses one after the other keeps the transcript well formed. */
  lemma {:induction false} ClosedWellFormed(ms: seq<Message>, uses: seq<ToolUse>, w: World, n: nat)
    requires n <= |uses| && WellFormed(ms) && Open(ms, uses)
    ensures Closing(ms, Closed(ms, uses, w, n), uses, n)
  {
    hide WellFormed, Open, Used, Resulted;
    if n > 0 {
      ClosedWellFormed(ms, uses, w, n - 1);
      hide Closing;
      ClosingStep(ms, Closed(ms, uses, w, n - 1), uses, n - 1, ErrorResult(uses[n - 1], w));
    }
  }

  /** After the repair every tool use has a result, and the shape is kept. */
  lemma RepairCloses(ms: seq<Message>, w: World)
    requires WellFormed(ms)
    ensures Grouped(Repaired(ms, w)) && AllResulted(Repaired(ms, w))
  {
    var dangling := Dangling(ms, |ms|);
    assert ms[..|ms|] == ms;
    forall i | 0 <= i < |dangling| ensures Follows(ms, |ms|, dangling[i].id) {
      DanglingNames(ms, |ms|, dangling[i].id);
      assert Names(dangling, dangling[i].id);
    }
    ClosedWellFormed(ms, dangling, w, |dangling|);
    forall id | Used(Repaired(ms, w), id) ensures Resulted(Repaired(ms, w), id) {
      DanglingNames(ms, |ms|, id);
      HasResultIs(ms, id);
    }
  }

  lemma FreshKeeps(input: AgentInput, previous: Option<State>, w: World)
    requires previous.Some? ==> WellFormed(previous.value.messages)
    requires forall i :: 0 <= i < |input.messages| ==> Plain(input.messages[i])
    ensures AtModel(Fresh(input, previous, w)) && BudgetOk(Fresh(input, previous, w))
  {
    var earlier := if previous.Some? then previous.value.messages else [];
    RepairCloses(earlier, w);
    PlainPushed(Repaired(earlier, w), input.messages, |input.messages|);
    assert input.messages[..|input.messages|] == input.messages;
  }

  // ---------------------------------------------------------------- the model step keeps the shape

  lemma {:induction false} TextsPlain(deltas: seq<string>)
    ensures forall b :: b in Texts(deltas) ==> b.Text?
  {
    if |deltas| > 0 {
      TextsPlain(deltas[..|deltas| - 1]);
    }
  }

  lemma {:induction false} KeptSame(content: seq<Block>)
    ensures forall b :: b in Kept(content) ==> b in content
    ensures forall b :: b in content && !b.Text? ==> b in Kept(content)
  {
    if |content| > 0 {
      KeptSame(content[..|content| - 1]);
    }
  }

  lemma {:induction false} WithoutUsesHas(content: seq<Block>)
    ensures forall b :: b in WithoutUses(content) <==> b in content && !b.Use?
  {
    if |content| > 0 {
      WithoutUsesHas(content[..|content| - 1]);
      assert content == content[..|content| - 1] + [content[|content| - 1]];
    }
  }

  /** The uses in the new message are the requested ones. */
  lemma ContentUses(r: Response, id: ToolId)
    ensures HoldsUse(AssistantContent(r), id) <==> Names(Requested(r), id)
  {
    TextsPlain(r.streamed);
    TextsPlain(r.deltas);
    KeptSame(r.content);
    UsesInHolds(r.content, id);
    NamesConcat(UsesIn(r.content), r.toolUses, id);
    var blocks := UseBlocks(r.toolUses);
    if Names(r.toolUses, id) {
      var i :| 0 <= i < |r.toolUses| && r.toolUses[i].id == id;
      assert blocks[i] in AssistantContent(r);
    }
    if HoldsUse(AssistantContent(r), id) {
      var b :| b in AssistantContent(r) && b.Use? && b.use.id == id;
      if b in blocks {
        var i :| 0 <= i < |blocks| && blocks[i] == b;
      }
    }
  }

  lemma ContentProper(r: Response)
    requires NoResults(r.content)
    ensures NoResults(AssistantContent(r)) && NoResults(WithoutUses(AssistantContent(r)))
    ensures |AssistantContent(r)| == 0 ==> |Requested(r)| == 0
  {
    TextsPlain(r.streamed);
    TextsPlain(r.deltas);
    KeptSame(r.content);
    WithoutUsesHas(AssistantContent(r));
    if |Requested(r)| > 0 {
      ContentUses(r, Requested(r)[0].id);
    }
  }

  lemma PushedWellFormed(ms: seq<Message>, content: seq<Block>)
    requires Grouped(ms) && AllResulted(ms) && NoResults(content)
    ensures WellFormed(PushAssistant(ms, content))
    ensures forall id :: HoldsUse(content, id) ==>
              Follows(PushAssistant(ms, content), |PushAssistant(ms, content)|, id)
    ensures forall id :: Used(PushAssistant(ms, content), id) ==>
              Resulted(PushAssistant(ms, content), id) || HoldsUse(content, id)
  {
    if |content| > 0 {
      AssistantPushed(ms, content);
    }
  }

  lemma RespondedKeeps(s: State, r: Response)
    requires AtModel(s) && NoResults(r.content)
    ensures var (next, move) := Responded(s, r);
            match move
            case Goto(step) => step == DispatchTools && AtDispatch(next)
            case Complete(_) => WellFormed(next.messages)
            case _ => false
  {
    var content := AssistantContent(r);
    ContentProper(r);
    var (next, move) := Responded(s, r);
    hide Grouped, AllResulted, WellFormed, Used, Resulted, Follows, HoldsUse, AssistantContent;
    if r.cutOff {
      PushedWellFormed(s.messages, WithoutUses(content));
    } else if r.finalText.Some? {
      var all := if |r.finalText.value| > 0 && !HasText(content) then content + [Text(r.finalText.value)] else content;
      PushedWellFormed(s.messages, all);
    } else {
      PushedWellFormed(s.messages, content);
      assert next.pendingTools == Requested(r);
      forall i | 0 <= i < |next.pendingTools|
        ensures Follows(next.messages, |next.messages|, next.pendingTools[i].id)
      {
        ContentUses(r, next.pendingTools[i].id);
        assert Names(Requested(r), next.pendingTools[i].id);
      }
      forall id | Used(next.messages, id) ensures Resulted(next.messages, id) || Names(next.pendingTools, id) {
        ContentUses(r, id);
      }
    }
  }

  lemma ModelTurnKeeps(w: World, s: State)
    requires AtModel(s) && BudgetOk(s) && Proper(w)
    ensures var (next, move) := ModelTurn(w, s);
            && BudgetOk(next)
            && match move
               case Goto(step) => step == DispatchTools && AtDispatch(next)
               case Complete(_) => WellFormed(next.messages)
               case Ask(_) => false
               case Broken => true
  {
    hide WellFormed, AtDispatch, AtModel, WindowOf, NoResults;
    AtModelIsAtDispatch(s);
    SameTranscript(s, s.(modelTurns := s.modelTurns + 1));
    if s.modelTurns < s.budget.maxModelTurns {
      var counted := s.(modelTurns := s.modelTurns + 1);
      var response := w.respond(counted.modelTurns, WindowOf(s.messages, w.policy).messages);
      if response.Some? {
        RespondedKeeps(counted, response.value);
        RespondedCounts(counted, response.value);
        hide Responded;
      }
    }
  }

  lemma SameTranscript(s: State, next: State)
    requires AtModel(s) && next == s.(modelTurns := next.modelTurns)
    ensures AtModel(next)
  {
  }

  lemma RespondedCounts(s: State, r: Response)
    ensures var next := Responded(s, r).0;
            next.budget == s.budget && next.modelTurns == s.modelTurns && next.toolCalls == s.toolCalls
  {
  }

  // ---------------------------------------------------------------- dispatching keeps the shape

  /** The result of the first open use is added. */
  lemma AnsweredKeeps(ms: seq<Message>, use: ToolUse, rest: seq<ToolUse>, r: ToolResult)
    requires WellFormed(ms) && Open(ms, [use] + rest) && Covered(ms, [use] + rest) && r.id == use.id
    ensures var after := ms + [ResultMessage(r)];
            WellFormed(after) && Open(after, rest) && Covered(after, rest)
  {
    var after := ms + [ResultMessage(r)];
    assert ([use] + rest)[0] == use;
    ResultPushed(ms, r);
    forall i | 0 <= i < |rest| ensures Follows(after, |after|, rest[i].id) {
      assert ([use] + rest)[i + 1] == rest[i];
    }
    forall id | Used(after, id) ensures Resulted(after, id) || Names(rest, id) {
      NamesConcat([use], rest, id);
      assert Names([use], id) ==> id == use.id;
    }
  }

  lemma DispatchOneKeeps(w: World, s: State)
    requires AtDispatch(s) && BudgetOk(s) && Echoes(w) && |s.pendingTools| > 0
    ensures var one := DispatchOne(w, Popped(s), s.pendingTools[0]);
            match one
            case Answered(next) => AtDispatch(next) && BudgetOk(next) && next.pendingTools == s.pendingTools[1..]
            case Ends(last, move) =>
              && (move.Broken? || BudgetOk(last)) && !move.Goto?
              && (move.Complete? ==> WellFormed(last.messages))
              && (move.Ask? ==> AtQuestion(last) && last.pendingHuman == Some(move.use))
  {
    var use, rest := s.pendingTools[0], s.pendingTools[1..];
    assert s.pendingTools == [use] + rest;
    hide WellFormed, Open, Covered, Follows;
    if s.humanInput.Some? {
      AnsweredKeeps(s.messages, use, rest, AnswerResult(w, use, s.humanInput.value));
    }
    AnsweredKeeps(s.messages, use, rest, Archived(w, CallResult(w, s.toolCalls + 1, use)));
  }

  lemma {:induction false} DispatchKeeps(w: World, s: State)
    requires AtDispatch(s) && BudgetOk(s) && Echoes(w)
    ensures var (next, move) := Dispatch(w, s);
            && (move.Broken? || BudgetOk(next))
            && match move
               case Goto(step) => step == ModelStep && AtModel(next)
               case Ask(use) => AtQuestion(next) && next.pendingHuman == Some(use)
               case Complete(_) => WellFormed(next.messages)
               case Broken => true
    decreases |s.pendingTools|
  {
    if |s.pendingTools| > 0 {
      DispatchOneKeeps(w, s);
      var one := DispatchOne(w, Popped(s), s.pendingTools[0]);
      hide AtDispatch, AtModel, AtQuestion, WellFormed;
      if one.Answered? {
        DispatchKeeps(w, one.next);
      }
    }
  }

  lemma ResumedKeeps(s: State, input: AgentInput)
    requires AtQuestion(s) && BudgetOk(s) && input.humanInput.Some?
    ensures AtDispatch(Resumed(s, input)) && BudgetOk(Resumed(s, input))
  {
  }

  /** Dispatching that reaches the model answers the pending uses and no others. */
  lemma {:induction false} DispatchAnswers(w: World, s: State, id: ToolId)
    requires Echoes(w) && Dispatch(w, s).1.Goto?
    ensures var after := Dispatch(w, s).0.messages;
            && (Resulted(after, id) <==> Resulted(s.messages, id) || Names(s.pendingTools, id))
            && (Used(after, id) <==> Used(s.messages, id))
    decreases |s.pendingTools|
  {
    if |s.pendingTools| > 0 {
      var use, rest := s.pendingTools[0], s.pendingTools[1..];
      assert s.pendingTools == [use] + rest;
      NamesConcat([use], rest, id);
      assert [use][0] == use;
      AnswersOne(w, Popped(s), use, id);
      DispatchAnswers(w, DispatchOne(w, Popped(s), use).next, id);
    }
  }

  lemma AnswersOne(w: World, s: State, use: ToolUse, id: ToolId)
    requires Echoes(w) && DispatchOne(w, s, use).Answered?
    ensures var next := DispatchOne(w, s, use).next;
            && next.pendingTools == s.pendingTools
            && (Resulted(next.messages, id) <==> Resulted(s.messages, id) || id == use.id)
            && (Used(next.messages, id) <==> Used(s.messages, id))
  {
    var next := DispatchOne(w, s, use).next;
    var result := if use.name == "ask_user" then AnswerResult(w, use, s.humanInput.value)
                  else Archived(w, CallResult(w, s.toolCalls + 1, use));
    assert next.messages == s.messages + [ResultMessage(result)] && result.id == use.id;
    assert Returned(result) in ResultMessage(result).content;
    Pushed(s.messages, ResultMessage(result), id);
  }

  /** What a resume makes of an open question, exactly: when the loop goes on to the model every use
      has its result if and only if the resume carried an answer, or the question's id has a result
      already, or a pending tool has the same id. */
  lemma ResumeClosesExactly(w: World, s: State, input: AgentInput)
    requires AtQuestion(s) && Echoes(w) && Dispatch(w, Resumed(s, input)).1.Goto?
    ensures AllResulted(Dispatch(w, Resumed(s, input)).0.messages)
            <==> input.humanInput.Some? || Resulted(s.messages, s.pendingHuman.value.id)
                 || Names(s.pendingTools, s.pendingHuman.value.id)
  {
    var question := s.pendingHuman.value;
    var resumed := Resumed(s, input);
    var after := Dispatch(w, resumed).0.messages;
    assert ([question] + s.pendingTools)[0] == question;
    assert Follows(s.messages, |s.messages|, question.id);
    var j :| UsedAt(s.messages, j, |s.messages|, question.id);
    assert Used(s.messages, question.id);
    hide Dispatch, WellFormed, Open, Follows;
    DispatchAnswers(w, resumed, question.id);
    forall id | Used(after, id)
      ensures Resulted(after, id) || (id == question.id && input.humanInput.None?)
    {
      DispatchAnswers(w, resumed, id);
      NamesConcat([question], s.pendingTools, id);
      assert Names([question], id) ==> id == question.id;
    }
    assert Names([question], question.id) by { assert [question][0].id == question.id; }
    NamesConcat([question], s.pendingTools, question.id);
  }

  // ---------------------------------------------------------------- sessions

  /** Where the saved state of a thread stands: between two steps of a run, waiting for an answer,
      or after a run. */
  datatype Phase = Ready(step: Step) | Asking | Over

  datatype Config = Config(state: State, phase: Phase)

  /** A run is started (again under the same run id, perhaps), a question is answered, or the
      running run takes its next step. */
  datatype Act = Begin(input: AgentInput, sameRun: bool) | Answer(input: AgentInput) | Advance

  function Saved(c: Config, result: (State, Move)): Config {
    match result.1
    case Goto(step) => Config(result.0, Ready(step))
    case Ask(_) => Config(result.0, Asking)
    case Complete(_) => Config(result.0, Over)
    case Broken => c
  }

  function Perform(w: World, c: Config, act: Act): Config {
    match act
    case Begin(input, sameRun) =>
      Saved(c, Transit(w, if sameRun && c.phase.Ready? then c.phase.step else PrepareTurn,
                       Fresh(input, Some(c.state), w)))
    case Answer(input) => if c.phase.Asking? then Saved(c, Dispatch(w, Resumed(c.state, input))) else c
    case Advance => if c.phase.Ready? then Saved(c, Transit(w, c.phase.step, c.state)) else c
  }

  /** An act and the world it happens in: model, tools and policy may differ from one to the next. */
  datatype Turn = Turn(world: World, act: Act)

  function Session(w: World, first: AgentInput, turns: seq<Turn>, n: nat): Config
    requires n <= |turns|
  {
    if n == 0 then Config(Fresh(first, None, w), Ready(PrepareTurn))
    else Perform(turns[n - 1].world, Session(w, first, turns, n - 1), turns[n - 1].act)
  }

  ghost predicate TurnsOk(turns: seq<Turn>) {
    forall i :: 0 <= i < |turns| ==> Proper(turns[i].world) && Echoes(turns[i].world) && InputOk(turns[i].act)
  }

  /** Inputs hold no tool blocks, and every resume carries an answer. */
  ghost predicate InputOk(act: Act) {
    match act
    case Begin(input, _) => forall i :: 0 <= i < |input.messages| ==> Plain(input.messages[i])
    case Answer(input) => input.humanInput.Some?
    case Advance => true
  }

  ghost predicate AtStep(s: State, step: Step) {
    if step == DispatchTools then AtDispatch(s) else AtModel(s)
  }

  ghost predicate ConfigOk(c: Config) {
    && BudgetOk(c.state)
    && match c.phase
       case Ready(step) => AtStep(c.state, step)
       case Asking => AtQuestion(c.state)
       case Over => WellFormed(c.state.messages)
  }

  lemma TransitKeeps(w: World, c: Config, step: Step, s: State)
    requires Proper(w) && Echoes(w) && ConfigOk(c) && AtStep(s, step) && BudgetOk(s)
    ensures ConfigOk(Saved(c, Transit(w, step, s)))
  {
    hide WellFormed, AtModel, AtDispatch, AtQuestion, Proper, Echoes;
    match step
    case PrepareTurn =>
    case ModelStep => ModelTurnKeeps(w, s);
    case DispatchTools => DispatchKeeps(w, s);
  }

  /** Where every use has its result, there is nothing to dispatch. */
  lemma AtModelIsAtDispatch(s: State)
    requires AtModel(s)
    ensures AtDispatch(s) && WellFormed(s.messages)
  {
  }

  lemma ConfigWellFormed(c: Config)
    requires ConfigOk(c)
    ensures WellFormed(c.state.messages)
  {
  }

  lemma PerformKeeps(w: World, c: Config, act: Act)
    requires Proper(w) && Echoes(w) && ConfigOk(c) && InputOk(act)
    ensures ConfigOk(Perform(w, c, act))
  {
    match act
    case Begin(input, sameRun) =>
      ConfigWellFormed(c);
      FreshKeeps(input, Some(c.state), w);
      AtModelIsAtDispatch(Fresh(input, Some(c.state), w));
      hide AtModel, AtDispatch, WellFormed, Fresh, ConfigOk, Transit;
      TransitKeeps(w, c, if sameRun && c.phase.Ready? then c.phase.step else PrepareTurn,
                   Fresh(input, Some(c.state), w));
    case Answer(input) =>
      if c.phase.Asking? {
        ResumedKeeps(c.state, input);
        hide AtModel, AtDispatch, AtQuestion, WellFormed, Resumed, Dispatch;
        assert Transit(w, DispatchTools, Resumed(c.state, input)) == Dispatch(w, Resumed(c.state, input));
        TransitKeeps(w, c, DispatchTools, Resumed(c.state, input));
      }
    case Advance =>
      if c.phase.Ready? {
        TransitKeeps(w, c, c.phase.step, c.state);
        hide ConfigOk, Transit;
      }
  }

  lemma {:induction false} SessionOk(w: World, first: AgentInput, turns: seq<Turn>, n: nat)
    requires n <= |turns| && InputOk(Begin(first, false)) && TurnsOk(turns)
    ensures ConfigOk(Session(w, first, turns, n))
  {
    if n == 0 {
      FreshKeeps(first, None, w);
      hide AtModel, Fresh;
    } else {
      hide ConfigOk, InputOk, Proper, Echoes, Perform;
      SessionOk(w, first, turns, n - 1);
      PerformKeeps(turns[n - 1].world, Session(w, first, turns, n - 1), turns[n - 1].act);
    }
  }

  /** In every reachable state the transcript is grouped, before a model step every tool use has
      its result, and the budgets hold. */
  lemma SessionKeeps(w: World, first: AgentInput, turns: seq<Turn>, n: nat)
    requires n <= |turns| && InputOk(Begin(first, false)) && TurnsOk(turns)
    ensures Grouped(Session(w, first, turns, n).state.messages)
    ensures Session(w, first, turns, n).phase == Ready(ModelStep) ==>
              AllResulted(Session(w, first, turns, n).state.messages)
    ensures BudgetOk(Session(w, first, turns, n).state)
  {
    hide Session, TurnsOk, InputOk, Grouped, AllResulted, AtDispatch, AtQuestion;
    SessionOk(w, first, turns, n);
    ConfigWellFormed(Session(w, first, turns, n));
  }

  // ---------------------------------------------------------------- a resume without an answer

  /** A model that asks the user each time. */
  ghost predicate AlwaysAsks(w: World, use: ToolUse) {
    && (forall n, ms :: w.respond(n, ms) == Some(Response([], [], [], [use], None, false)))
    && use.name == "ask_user" && w.questionOk(use)
  }

  /** A reachable state in front of the model with an unanswered tool use: the model asks the user,
      and the run is resumed without an answer. */
  lemma UnansweredSession(w: World, use: ToolUse, first: AgentInput)
    requires AlwaysAsks(w, use) && first.messages == [] && first.humanInput.None?
    requires first.budget.maxModelTurns > 0 && first.budget.maxToolCalls > 0
    ensures var turns := [Turn(w, Advance), Turn(w, Advance), Turn(w, Advance), Turn(w, Answer(first))];
            var end := Session(w, first, turns, 4);
            end.phase == Ready(ModelStep) && !AllResulted(end.state.messages)
  {
    var turns := [Turn(w, Advance), Turn(w, Advance), Turn(w, Advance), Turn(w, Answer(first))];
    var s0 := State([], first.budget, 0, 0, [], None, None);
    assert Session(w, first, turns, 0) == Config(s0, Ready(PrepareTurn));
    assert Session(w, first, turns, 1) == Config(s0, Ready(ModelStep));
    AsksUser(w, use, s0);
    var asked := s0.(messages := [Assistant([Use(use)])], modelTurns := 1, pendingTools := [use]);
    assert Session(w, first, turns, 2) == Config(asked, Ready(DispatchTools));
    var waiting := asked.(pendingTools := [], pendingHuman := Some(use));
    assert Dispatch(w, asked) == (waiting, Ask(use));
    hide Transit;
    assert Session(w, first, turns, 3) == Config(waiting, Asking);
    assert Session(w, first, turns, 4) == Config(waiting, Ready(ModelStep));
    OnlyUsed(use);
  }

  lemma AsksUser(w: World, use: ToolUse, s: State)
    requires AlwaysAsks(w, use) && s.messages == [] && s.pendingTools == [] && s.modelTurns < s.budget.maxModelTurns
    ensures ModelTurn(w, s) == (s.(messages := [Assistant([Use(use)])], modelTurns := s.modelTurns + 1,
                                   pendingTools := [use]), Goto(DispatchTools))
  {
    var r := Response([], [], [], [use], None, false);
    assert Requested(r) == [use] && UseBlocks([use]) == [Use(use)];
    assert AssistantContent(r) == [Use(use)];
    assert w.respond(s.modelTurns + 1, WindowOf(s.messages, w.policy).messages) == Some(r);
    assert s.messages + [Assistant([Use(use)])] == [Assistant([Use(use)])];
    assert s.pendingTools + [use] == [use];
    hide AssistantContent, Requested, WindowOf;
  }

  lemma OnlyUsed(use: ToolUse)
    ensures !AllResulted([Assistant([Use(use)])])
  {
    var ms := [Assistant([Use(use)])];
    assert Use(use) in ms[0].content;
    assert Uses(ms[0], use.id);
    assert Used(ms, use.id);
  }

  // ---------------------------------------------------------------- the length of a run

  function TurnsLeft(s: State): nat {
    if s.modelTurns < s.budget.maxModelTurns then s.budget.maxModelTurns - s.modelTurns else 0
  }

  /** How many transitions there can still be. */
  function Bound(step: Step, s: State): nat {
    2 * TurnsLeft(s) + if step == ModelStep then 1 else 2
  }

  lemma BoundFalls(w: World, step: Step, s: State)
    requires Transit(w, step, s).1.Goto?
    ensures Bound(Transit(w, step, s).1.step, Transit(w, step, s).0) < Bound(step, s)
  {
    hide Dispatch;
  }

  /** How many transitions a run takes until it completes, asks or breaks. */
  function Length(w: World, step: Step, s: State): nat
    decreases Bound(step, s)
  {
    var (next, move) := Transit(w, step, s);
    if move.Goto? then
      BoundFalls(w, step, s);
      1 + Length(w, move.step, next)
    else 1
  }

  lemma {:induction false} LengthBounded(w: World, step: Step, s: State)
    ensures Length(w, step, s) <= Bound(step, s)
    decreases Bound(step, s)
  {
    hide Transit;
    var (next, move) := Transit(w, step, s);
    if move.Goto? {
      BoundFalls(w, step, s);
      LengthBounded(w, move.step, next);
    }
  }

  /** A run takes at most two transitions for each turn of the model and two more. */
  lemma RunLength(w: World, input: AgentInput, previous: Option<State>)
    ensures Length(w, PrepareTurn, Fresh(input, previous, w)) <= 2 * input.budget.maxModelTurns + 2
  {
    LengthBounded(w, PrepareTurn, Fresh(input, previous, w));
  }

  /** A model that asks for one ordinary tool each time. */
  ghost predicate AlwaysCalls(w: World, use: ToolUse) {
    && (forall n, ms :: w.respond(n, ms) == Some(Response([], [], [], [use], None, false)))
    && use.name != "ask_user" && use.name != "emit_artifact" && !IsTerminalTool(w, use)
  }

  lemma CallsOnce(w: World, use: ToolUse, s: State)
    requires AlwaysCalls(w, use) && s.pendingTools == [use] && s.toolCalls < s.budget.maxToolCalls
    ensures Dispatch(w, s).1 == Goto(ModelStep) && Dispatch(w, s).0.pendingTools == []
    ensures Dispatch(w, s).0.toolCalls == s.toolCalls + 1
  {
    var one := DispatchOne(w, Popped(s), use);
    assert one.Answered? && one.next.pendingTools == [];
  }

  /** The bound is reached: by a model that keeps asking for a tool, with enough tool calls. */
  lemma {:induction false} BoundIsTight(w: World, use: ToolUse, s: State)
    requires AlwaysCalls(w, use) && s.pendingTools == []
    requires s.toolCalls + TurnsLeft(s) <= s.budget.maxToolCalls
    ensures Length(w, ModelStep, s) == Bound(ModelStep, s)
    ensures Length(w, PrepareTurn, s) == Bound(PrepareTurn, s)
    decreases TurnsLeft(s)
  {
    if TurnsLeft(s) > 0 {
      var asked := ModelTurn(w, s);
      assert asked.1 == Goto(DispatchTools) && asked.0.pendingTools == [use] by {
        assert Requested(Response([], [], [], [use], None, false)) == [use];
      }
      CallsOnce(w, use, asked.0);
      BoundIsTight(w, use, Dispatch(w, asked.0).0);
      assert Length(w, DispatchTools, asked.0) == 1 + Length(w, ModelStep, Dispatch(w, asked.0).0);
    }
    assert Length(w, PrepareTurn, s) == 1 + Length(w, ModelStep, s);
  }
}
