/**
 The prompt window: the whole transcript, or a digest of what was left out and the messages after it.
 */
module AgentContext {
  import opened Types
  import opened Transcript

  /** `tokens` estimates the size of a transcript; how it does so does not matter here. */
  datatype Policy = Policy(maxInputTokens: nat, compactAtTokens: nat, recentMessages: nat,
                           tokens: seq<Message> -> nat)

  datatype Compaction = Compaction(before: nat, after: nat, archived: nat)

  datatype Window = Window(messages: seq<Message>, compaction: Option<Compaction>)

  function DigestMessage(omitted: nat): Message {
    User([Digest(omitted)])
  }

  /** The latest place at or before `o` that is a safe start. */
  function SafeStart(ms: seq<Message>, o: nat): (r: nat)
    requires o <= |ms|
    ensures r <= o && (0 < r < |ms| ==> !UnsafeStart(ms[r]))
    ensures forall k :: r < k <= o && k < |ms| ==> UnsafeStart(ms[k])
  {
    if 0 < o < |ms| && UnsafeStart(ms[o]) then SafeStart(ms, o - 1) else o
  }

  function Compacted(ms: seq<Message>, omitted: nat): seq<Message>
    requires omitted <= |ms|
  {
    [DigestMessage(omitted)] + ms[omitted..]
  }

  /** Leaves out all but the last `keep` messages, and fewer if that would cut a group. */
  method BuildCompactedWindow(ms: seq<Message>, keep: nat) returns (window: seq<Message>, omitted: nat)
    requires keep > 0
    ensures omitted == SafeStart(ms, if |ms| > keep then |ms| - keep else 0)
    ensures window == Compacted(ms, omitted)
  {
    omitted := if |ms| > keep then |ms| - keep else 0;
    ghost var wanted := omitted;
    while omitted > 0 && UnsafeStart(ms[omitted])
      invariant omitted <= wanted <= |ms| && (omitted == 0 || omitted < |ms|)
      invariant SafeStart(ms, omitted) == SafeStart(ms, wanted)
    {
      omitted := omitted - 1;
    }
    window := [DigestMessage(omitted)];
    window := window + ms[omitted..];
  }

  /** The window is the whole transcript. */
  predicate FitsWhole(ms: seq<Message>, policy: Policy) {
    policy.tokens(ms) < policy.compactAtTokens || |ms| <= policy.recentMessages
  }

  function CompactedAt(ms: seq<Message>, keep: nat): nat {
    SafeStart(ms, if |ms| > keep then |ms| - keep else 0)
  }

  /** `keep` is the largest count, from the wanted one down, whose window is within the budget, or 1. */
  ghost predicate KeepsMost(ms: seq<Message>, policy: Policy, wanted: nat, keep: nat) {
    && 1 <= keep <= wanted
    && (keep == 1 || policy.tokens(Compacted(ms, CompactedAt(ms, keep))) <= policy.maxInputTokens)
    && forall k :: keep < k <= wanted ==>
         policy.tokens(Compacted(ms, CompactedAt(ms, k))) > policy.maxInputTokens
  }

  /** Drops one message more at a time until the window is within the budget. */
  function Shrunk(ms: seq<Message>, policy: Policy, keep: nat): (r: nat)
    requires keep > 0
    ensures KeepsMost(ms, policy, keep, r)
  {
    if policy.tokens(Compacted(ms, CompactedAt(ms, keep))) > policy.maxInputTokens && keep > 1
    then Shrunk(ms, policy, keep - 1) else keep
  }

  function Wanted(ms: seq<Message>, policy: Policy): nat {
    var n := if policy.recentMessages < 1 then 1 else policy.recentMessages;
    if n < |ms| then n else |ms|
  }

  function WindowOf(ms: seq<Message>, policy: Policy): Window {
    if FitsWhole(ms, policy) then Window(ms, None)
    else WindowAt(ms, policy, CompactedAt(ms, Shrunk(ms, policy, Wanted(ms, policy))))
  }

  method PromptWindow(ms: seq<Message>, policy: Policy) returns (window: Window)
    ensures window == WindowOf(ms, policy)
  {
    var before := policy.tokens(ms);
    if before < policy.compactAtTokens || |ms| <= policy.recentMessages {
      return Window(ms, None);
    }
    var keep := if policy.recentMessages < 1 then 1 else policy.recentMessages;
    if keep > |ms| {
      keep := |ms|;
    }
    var messages, omitted := BuildCompactedWindow(ms, keep);
    while policy.tokens(messages) > policy.maxInputTokens && keep > 1
      invariant keep >= 1 && Shrunk(ms, policy, keep) == Shrunk(ms, policy, Wanted(ms, policy))
      invariant omitted == CompactedAt(ms, keep) && messages == Compacted(ms, omitted)
      decreases keep
    {
      keep := keep - 1;
      messages, omitted := BuildCompactedWindow(ms, keep);
    }
    window := Window(messages, Some(Compaction(before, policy.tokens(messages), omitted)));
  }

  function WindowAt(ms: seq<Message>, policy: Policy, omitted: nat): Window
    requires omitted <= |ms|
  {
    Window(Compacted(ms, omitted),
           Some(Compaction(policy.tokens(ms), policy.tokens(Compacted(ms, omitted)), omitted)))
  }

  /** Whatever is kept, the window of a grouped transcript is grouped, nothing is lost or counted
      twice, and no tool use is separated from a result it has. */
  lemma CompactedIsSafe(ms: seq<Message>, keep: nat)
    requires Grouped(ms) && keep > 0 && |ms| > 0
    ensures var o := CompactedAt(ms, keep);
            && Grouped(Compacted(ms, o)) && o + (|Compacted(ms, o)| - 1) == |ms|
            && |ms| - o >= (if keep < |ms| then keep else |ms|)
            && (forall i, j, id :: 0 <= j < o <= i < |ms| && HoldsResult(ms[i].content, id) ==> !UsedAt(ms, j, i, id))
  {
    var o := CompactedAt(ms, keep);
    var window := Compacted(ms, o);
    if o == 0 {
      assert ms[0..] == ms;
      FirstIsSafe(ms);
    }
    CutGrouped(ms, o);
    var rest := ms[o..];
    forall i, id | 0 <= i < |window| && HoldsResult(window[i].content, id)
      ensures window[i].User? && Follows(window, i, id)
    {
      assert window[i] == rest[i - 1];
      var j :| UsedAt(rest, j, i - 1, id);
      assert forall k :: 0 <= k < |rest| ==> window[k + 1] == rest[k];
      assert UsedAt(window, j + 1, i, id);
    }
    forall i, j, id | 0 <= j < o <= i < |ms| && HoldsResult(ms[i].content, id) ensures !UsedAt(ms, j, i, id) {
      assert !UnsafeStart(ms[o]);
    }
  }

  /** What is sent of a grouped transcript is the whole of it, or a digest and a suffix in which
      every tool result follows its use; archived and kept messages add up to the total; and no
      longer suffix was within the budget. */
  lemma WindowIsSafe(ms: seq<Message>, policy: Policy)
    requires Grouped(ms)
    ensures var window := WindowOf(ms, policy);
            && Grouped(window.messages)
            && if window.compaction.None? then window.messages == ms
               else
                 var o := window.compaction.value.archived;
                 && o <= |ms| && window.messages == [DigestMessage(o)] + ms[o..]
                 && o + (|window.messages| - 1) == |ms| && |window.messages| > 1
                 && exists keep :: KeepsMost(ms, policy, Wanted(ms, policy), keep) && o == CompactedAt(ms, keep)
  {
    if !FitsWhole(ms, policy) {
      CompactedIsSafe(ms, Shrunk(ms, policy, Wanted(ms, policy)));
    }
  }

  /** Exactly when the whole transcript is sent. Otherwise no more than the recent messages are wanted;
      what is left out ends at a safe place, with nothing but results up to the wanted one; and the
      window is within the budget unless it is down to its last message and what belongs to that. */
  lemma WindowExactly(ms: seq<Message>, policy: Policy)
    ensures var window := WindowOf(ms, policy);
            && (window.compaction.None?
                <==> policy.tokens(ms) < policy.compactAtTokens || |ms| <= policy.recentMessages)
            && if window.compaction.None? then window.messages == ms
               else
                 var c := window.compaction.value;
                 && c.before == policy.tokens(ms) && c.after == policy.tokens(window.messages)
                 && c.archived <= |ms| && window.messages == [User([Digest(c.archived)])] + ms[c.archived..]
                 && exists keep: nat :: KeepsAtLeast(ms, policy, c, keep)
  {
    if !FitsWhole(ms, policy) {
      var keep := Shrunk(ms, policy, Wanted(ms, policy));
      assert KeepsAtLeast(ms, policy, WindowOf(ms, policy).compaction.value, keep);
    }
  }

  /** At least `keep` messages are kept, as many as belong together; less than wanted only to be within
      the budget. */
  predicate KeepsAtLeast(ms: seq<Message>, policy: Policy, c: Compaction, keep: nat) {
    var recent := if policy.recentMessages < 1 then 1 else policy.recentMessages;
    && 1 <= keep <= |ms| && keep <= recent
    && CutsAt(ms, c.archived, if |ms| > keep then |ms| - keep else 0)
    && (c.after <= policy.maxInputTokens || keep == 1)
  }

  /** `o` is the latest safe place at or before the wanted one. */
  predicate CutsAt(ms: seq<Message>, o: nat, wanted: nat) {
    && o <= wanted <= |ms| && (0 < o < |ms| ==> !UnsafeStart(ms[o]))
    && forall k :: o < k <= wanted && k < |ms| ==> UnsafeStart(ms[k])
  }

  /** A grouped transcript does not begin with a tool result. */
  lemma FirstIsSafe(ms: seq<Message>)
    requires Grouped(ms) && |ms| > 0
    ensures !UnsafeStart(ms[0])
  {
    if UnsafeStart(ms[0]) {
      var b :| b in ms[0].content && b.Returned?;
      assert HoldsResult(ms[0].content, b.result.id);
    }
  }
}
