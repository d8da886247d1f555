/**
 The agent loop as it works: a state that each transition changes in place. Every method is proved
 to do what the function of module AgentSpec says.
 */
module Agent {
  import opened Types
  import opened Transcript
  import opened AgentContext
  import opened AgentSpec

  /** Adds an error result for every tool use that has no result. */
  method RepairDanglingToolUses(ms: seq<Message>, w: World) returns (repaired: seq<Message>)
    ensures repaired == Repaired(ms, w)
  {
    var resulted: set<ToolId> := {};
    for i := 0 to |ms|
      invariant forall id :: id in resulted <==> HasResult(ms[..i], id)
    {
      var content := ms[i].content;
      ghost var before := resulted;
      for k := 0 to |content|
        invariant forall id :: id in resulted <==> id in before || HoldsResult(content[..k], id)
      {
        assert content[..k + 1] == content[..k] + [content[k]];
        if content[k].Returned? {
          resulted := resulted + {content[k].result.id};
        }
      }
      assert content[..|content|] == content;
      assert ms[..i + 1] == ms[..i] + [ms[i]];
      assert forall id :: HasResult(ms[..i + 1], id) <==> HasResult(ms[..i], id) || HoldsResult(content, id);
    }
    assert ms[..|ms|] == ms;
    var dangling: seq<ToolUse> := [];
    for i := 0 to |ms|
      invariant dangling == Dangling(ms, i)
    {
      if ms[i].Assistant? {
        var content := ms[i].content;
        ghost var before := dangling;
        for k := 0 to |content|
          invariant dangling == before + AllUnresolved(ms, UsesIn(content[..k]))
        {
          assert content[..k + 1][..k] == content[..k];
          if content[k].Use? {
            UnresolvedOneMore(ms, UsesIn(content[..k]), content[k].use);
            if content[k].use.id !in resulted {
              dangling := dangling + [content[k].use];
            }
          }
        }
        assert content[..|content|] == content;
      }
    }
    repaired := ms;
    for i := 0 to |dangling|
      invariant repaired == Closed(ms, dangling, w, i)
    {
      repaired := repaired + [ResultMessage(ErrorResult(dangling[i], w))];
    }
  }

  function AllUnresolved(ms: seq<Message>, uses: seq<ToolUse>): seq<ToolUse> {
    Unresolved(ms, uses, |uses|)
  }

  lemma {:induction false} UnresolvedPrefix(ms: seq<Message>, uses: seq<ToolUse>, more: seq<ToolUse>, n: nat)
    requires n <= |uses|
    ensures Unresolved(ms, uses + more, n) == Unresolved(ms, uses, n)
  {
    if n > 0 {
      UnresolvedPrefix(ms, uses, more, n - 1);
    }
  }

  lemma UnresolvedOneMore(ms: seq<Message>, uses: seq<ToolUse>, use: ToolUse)
    ensures AllUnresolved(ms, uses + [use])
            == if HasResult(ms, use.id) then AllUnresolved(ms, uses) else AllUnresolved(ms, uses) + [use]
  {
    UnresolvedPrefix(ms, uses, [use], |uses|);
  }

  class AgentState {
    var messages: seq<Message>
    var budget: Budget
    var modelTurns: nat
    var toolCalls: nat
    var pendingTools: seq<ToolUse>
    var pendingHuman: Option<ToolUse>
    var humanInput: Option<HumanAnswer>

    function View(): State
      reads this
    {
      State(messages, budget, modelTurns, toolCalls, pendingTools, pendingHuman, humanInput)
    }

    /** A new run over the messages of the one before. */
    constructor (input: AgentInput, previous: Option<State>, w: World)
      ensures View() == Fresh(input, previous, w)
    {
      var earlier := if previous.Some? then previous.value.messages else [];
      var repaired := RepairDanglingToolUses(earlier, w);
      messages := repaired + input.messages;
      budget, humanInput := input.budget, input.humanInput;
      modelTurns, toolCalls, pendingTools, pendingHuman := 0, 0, [], None;
    }

    /** The question that was asked comes first again when there is an answer. */
    method ApplyResumeInput(input: AgentInput)
      modifies this
      ensures View() == Resumed(old(View()), input)
    {
      humanInput := input.humanInput;
      if humanInput.Some? && pendingHuman.Some? {
        pendingTools := [pendingHuman.value] + pendingTools;
        pendingHuman := None;
      }
    }

    method AppendDeltas(content: seq<Block>, deltas: seq<string>) returns (all: seq<Block>)
      ensures all == content + Texts(deltas)
    {
      all := content;
      for i := 0 to |deltas|
        invariant all == content + Texts(deltas[..i])
      {
        assert deltas[..i + 1][..i] == deltas[..i];
        if |deltas[i]| > 0 {
          all := all + [Text(deltas[i])];
        }
      }
      assert deltas[..|deltas|] == deltas;
    }

    /** Records the blocks of the response; a tool use also becomes pending. */
    method RecordBlocks(content: seq<Block>, blocks: seq<Block>) returns (all: seq<Block>)
      modifies this`pendingTools
      ensures all == content + Kept(blocks)
      ensures pendingTools == old(pendingTools) + UsesIn(blocks)
    {
      all := content;
      for i := 0 to |blocks|
        invariant all == content + Kept(blocks[..i])
        invariant pendingTools == old(pendingTools) + UsesIn(blocks[..i])
      {
        assert blocks[..i + 1][..i] == blocks[..i];
        match blocks[i]
        case Text(text) =>
          if |text| > 0 {
            all := all + [blocks[i]];
          }
        case Use(use) =>
          all := all + [blocks[i]];
          pendingTools := pendingTools + [use];
        case _ => all := all + [blocks[i]];
      }
      assert blocks[..|blocks|] == blocks;
    }

    method Collect(r: Response) returns (content: seq<Block>)
      modifies this`pendingTools
      ensures content == AssistantContent(r) && pendingTools == old(pendingTools) + Requested(r)
    {
      content := AppendDeltas([], r.streamed);
      content := AppendDeltas(content, r.deltas);
      content := RecordBlocks(content, r.content);
      ghost var recorded := content;
      for i := 0 to |r.toolUses|
        invariant content == recorded + UseBlocks(r.toolUses)[..i]
        invariant pendingTools == old(pendingTools) + UsesIn(r.content) + r.toolUses[..i]
      {
        content := content + [Use(r.toolUses[i])];
        pendingTools := pendingTools + [r.toolUses[i]];
        assert UseBlocks(r.toolUses)[..i + 1] == UseBlocks(r.toolUses)[..i] + [Use(r.toolUses[i])];
        assert r.toolUses[..i + 1] == r.toolUses[..i] + [r.toolUses[i]];
      }
      assert UseBlocks(r.toolUses)[..|r.toolUses|] == UseBlocks(r.toolUses);
      assert r.toolUses[..|r.toolUses|] == r.toolUses;
    }

    /** Everything but the tool uses. */
    method RetainOthers(content: seq<Block>) returns (kept: seq<Block>)
      ensures kept == WithoutUses(content)
    {
      kept := [];
      for i := 0 to |content|
        invariant kept == WithoutUses(content[..i])
      {
        assert content[..i + 1][..i] == content[..i];
        if !content[i].Use? {
          kept := kept + [content[i]];
        }
      }
      assert content[..|content|] == content;
    }

    /** One turn of the model. */
    method ModelTurn(w: World) returns (move: Move)
      modifies this
      ensures (View(), move) == AgentSpec.ModelTurn(w, old(View()))
    {
      hide WindowOf, AssistantContent, Requested, HasText, WithoutUses;
      if modelTurns >= budget.maxModelTurns {
        return Complete(MaxModelTurns);
      }
      modelTurns := modelTurns + 1;
      var window := PromptWindow(messages, w.policy);
      var response := w.respond(modelTurns, window.messages);
      if response.None? {
        return Broken;
      }
      var r := response.value;
      var content := Collect(r);
      if r.cutOff {
        var kept := RetainOthers(content);
        pendingTools := [];
        if |kept| > 0 {
          messages := messages + [Assistant(kept)];
        }
        return Complete(MaxTokens);
      }
      if r.finalText.Some? {
        if |r.finalText.value| > 0 && !HasText(content) {
          content := content + [Text(r.finalText.value)];
        }
        if |content| > 0 {
          messages := messages + [Assistant(content)];
        }
        return Complete(Stop);
      }
      if |content| > 0 {
        messages := messages + [Assistant(content)];
      }
      return if |pendingTools| == 0 then Complete(Stop) else Goto(Step.DispatchTools);
    }

    /** The result of a question for which there is an answer, right or wrong. */
    method ConsumeHumanAnswer(w: World, use: ToolUse) returns (r: Option<ToolResult>)
      modifies this
      ensures r.Some? <==> old(humanInput).Some?
      ensures r.None? ==> View() == old(View())
      ensures r.Some? ==>
                && r.value == AnswerResult(w, use, old(humanInput).value)
                && View() == old(View()).(humanInput := None, pendingHuman := None,
                                          toolCalls := if old(humanInput).value.id != use.id then old(toolCalls)
                                                       else old(toolCalls) + 1)
    {
      if humanInput.None? {
        return None;
      }
      var answer := humanInput.value;
      humanInput := None;
      pendingHuman := None;
      if answer.id != use.id {
        return Some(ErrorResult(use, w));
      }
      toolCalls := toolCalls + 1;
      return Some(ToolResult(use.id, use.name, w.answerText(answer), false));
    }

    /** Works through the pending tool uses until one ends the step. */
    method DispatchTools(w: World) returns (move: Move)
      modifies this
      ensures (View(), move) == Dispatch(w, old(View()))
    {
      while |pendingTools| > 0
        invariant Dispatch(w, View()) == Dispatch(w, old(View()))
        decreases |pendingTools|
      {
        var use := pendingTools[0];
        pendingTools := pendingTools[1..];
        if toolCalls >= budget.maxToolCalls {
          return Complete(MaxToolCalls);
        }
        if use.name == "ask_user" {
          var answered := ConsumeHumanAnswer(w, use);
          if answered.Some? {
            messages := messages + [ResultMessage(answered.value)];
            continue;
          }
          if !w.questionOk(use) {
            return Broken;
          }
          pendingHuman := Some(use);
          return Ask(use);
        }
        var terminal := IsTerminalTool(w, use);
        if terminal && use.name != "emit_artifact" {
          return Complete(Terminal);
        }
        toolCalls := toolCalls + 1;
        if use.name == "emit_artifact" && !w.artifactOk(use) {
          return Broken;
        }
        var result := CallResult(w, toolCalls, use);
        messages := messages + [ResultMessage(Archived(w, result))];
        if terminal {
          return Complete(Terminal);
        }
      }
      return Goto(ModelStep);
    }

    method Transition(w: World, step: Step) returns (move: Move)
      modifies this
      ensures (View(), move) == Transit(w, step, old(View()))
    {
      match step
      case PrepareTurn => move := Goto(ModelStep);
      case ModelStep => move := ModelTurn(w);
      case DispatchTools => move := DispatchTools(w);
    }
  }
}
