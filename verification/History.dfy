/** The CLI loop's retained history: the steps appended to it, and the three ways it
    shrinks. None of them parts a tool request from its results. */
module History {
  import opened Domain
  import opened TokenUtils
  import opened TrimTheorems

  /** The session's limits, and the text of a summary, which is not modelled: none when
      the turns hold neither an outcome nor a fact. */
  datatype Config = Config(
    json: Json,
    summarize: seq<Message> -> Option<string>,
    summaries: bool,
    maxMessages: int,
    contextWindow: nat,
    thresholdPercent: nat,
    targetPercent: nat)

  const Both := Preserve(true, true)

  function SystemMessage(text: string): Message {
    Message(System, Some(text), [], None, None)
  }

  function UserMessage(text: string): Message {
    Message(User, Some(text), [], None, None)
  }

  function RequestMessage(content: Option<string>, calls: seq<Call>): Message {
    Message(Assistant, content, calls, None, None)
  }

  function ResultMessage(call: Call, observation: string): Message {
    Message(ToolResult, Some(observation), [], Some(call.id), Some(call.name))
  }

  // -------------------------------------------------------------- one step

  /** The first `n` calls, as the CLI plans them: read-only calls while there is room. */
  function SplitCalls(tiers: map<string, RiskTier>, calls: seq<Call>, limit: nat, n: nat): (seq<Call>, seq<Call>)
    requires n <= |calls|
  {
    if n == 0 then ([], [])
    else
      var (selected, rejected) := SplitCalls(tiers, calls, limit, n - 1);
      var call := calls[n - 1];
      if call.name in tiers && tiers[call.name].ReadOnly? && |selected| < limit
      then (selected + [call], rejected) else (selected, rejected + [call])
  }

  /** A first call of an unknown tool counts as read-only. */
  function PlanCalls(tiers: map<string, RiskTier>, calls: seq<Call>, limit: nat): (seq<Call>, seq<Call>) {
    if calls == [] then ([], [])
    else if calls[0].name in tiers && !tiers[calls[0].name].ReadOnly? then ([calls[0]], calls[1..])
    else SplitCalls(tiers, calls, limit, |calls|)
  }

  method PlanToolCalls(tiers: map<string, RiskTier>, calls: seq<Call>, limit: nat)
    returns (selected: seq<Call>, rejected: seq<Call>)
    ensures (selected, rejected) == PlanCalls(tiers, calls, limit)
  {
    selected, rejected := [], [];
    if calls == [] {
      return;
    }
    var first := if calls[0].name in tiers then tiers[calls[0].name] else ReadOnly;
    if !first.ReadOnly? {
      return [calls[0]], calls[1..];
    }
    for i := 0 to |calls|
      invariant (selected, rejected) == SplitCalls(tiers, calls, limit, i)
    {
      var call := calls[i];
      if call.name !in tiers {
        rejected := rejected + [call];
      } else if !tiers[call.name].ReadOnly? {
        rejected := rejected + [call];
      } else if |selected| < limit {
        selected := selected + [call];
      } else {
        rejected := rejected + [call];
      }
    }
  }

  lemma IdsOfAppend(calls: seq<Call>, call: Call)
    ensures CallIds(calls + [call]) == CallIds(calls) + [Some(call.id)]
  {}

  lemma {:induction false} SplitKeepsIds(tiers: map<string, RiskTier>, calls: seq<Call>, limit: nat, n: nat)
    requires n <= |calls|
    ensures
      var (selected, rejected) := SplitCalls(tiers, calls, limit, n);
      && multiset(CallIds(selected)) + multiset(CallIds(rejected)) == multiset(CallIds(calls[..n]))
      && |selected| + |rejected| == n && |selected| <= limit
      && (forall i :: 0 <= i < |selected| ==> selected[i].name in tiers && tiers[selected[i].name].ReadOnly?)
  {
    if n > 0 {
      SplitKeepsIds(tiers, calls, limit, n - 1);
      var (selected, rejected) := SplitCalls(tiers, calls, limit, n - 1);
      IdsOfAppend(calls[..n - 1], calls[n - 1]);
      assert calls[..n] == calls[..n - 1] + [calls[n - 1]];
      IdsOfAppend(selected, calls[n - 1]);
      IdsOfAppend(rejected, calls[n - 1]);
    }
  }

  /** The plan runs or rejects each call once, and runs read-only calls up to the limit
      or exactly the first call. */
  lemma PlanIsAPartition(tiers: map<string, RiskTier>, calls: seq<Call>, limit: nat)
    ensures
      var (selected, rejected) := PlanCalls(tiers, calls, limit);
      && multiset(CallIds(selected)) + multiset(CallIds(rejected)) == multiset(CallIds(calls))
      && |selected| + |rejected| == |calls|
      && (|| (selected == calls[..|selected|] && |selected| <= 1)
          || (|selected| <= limit
              && forall i :: 0 <= i < |selected| ==> selected[i].name in tiers && tiers[selected[i].name].ReadOnly?))
  {
    SplitKeepsIds(tiers, calls, limit, |calls|);
    assert calls[..|calls|] == calls;
    if calls != [] {
      assert calls == [calls[0]] + calls[1..];
      assert CallIds(calls) == CallIds([calls[0]]) + CallIds(calls[1..]);
    }
  }

  predicate KnownRead(tiers: map<string, RiskTier>, call: Call) {
    call.name in tiers && tiers[call.name].ReadOnly?
  }

  /** How many of the first `n` calls are of known read-only tools. */
  function ReadsBelow(tiers: map<string, RiskTier>, calls: seq<Call>, n: nat): nat
    requires n <= |calls|
  {
    if n == 0 then 0 else ReadsBelow(tiers, calls, n - 1) + if KnownRead(tiers, calls[n - 1]) then 1 else 0
  }

  /** Call `i` is to run: alone, as a first call of a tool known not to be read-only, or with
      fewer than `limit` read-only calls before it. */
  predicate Runs(tiers: map<string, RiskTier>, calls: seq<Call>, limit: nat, i: nat)
    requires i < |calls|
  {
    if calls[0].name in tiers && !tiers[calls[0].name].ReadOnly? then i == 0
    else KnownRead(tiers, calls[i]) && ReadsBelow(tiers, calls, i) < limit
  }

  /** The calls below `n` that are to run, or those that are not, in their order. */
  function Picked(tiers: map<string, RiskTier>, calls: seq<Call>, limit: nat, runs: bool, n: nat): seq<Call>
    requires n <= |calls|
  {
    if n == 0 then []
    else
      var rest := Picked(tiers, calls, limit, runs, n - 1);
      if Runs(tiers, calls, limit, n - 1) == runs then rest + [calls[n - 1]] else rest
  }

  lemma {:induction false} SplitPicks(tiers: map<string, RiskTier>, calls: seq<Call>, limit: nat, n: nat)
    requires n <= |calls| && calls != [] && (calls[0].name in tiers ==> tiers[calls[0].name].ReadOnly?)
    ensures SplitCalls(tiers, calls, limit, n) == (Picked(tiers, calls, limit, true, n), Picked(tiers, calls, limit, false, n))
    ensures |SplitCalls(tiers, calls, limit, n).0|
         == if ReadsBelow(tiers, calls, n) < limit then ReadsBelow(tiers, calls, n) else limit
  {
    if n > 0 { SplitPicks(tiers, calls, limit, n - 1); }
  }

  lemma {:induction false} FirstAlonePicks(tiers: map<string, RiskTier>, calls: seq<Call>, limit: nat, n: nat)
    requires 0 < n <= |calls| && calls[0].name in tiers && !tiers[calls[0].name].ReadOnly?
    ensures Picked(tiers, calls, limit, true, n) == [calls[0]] && Picked(tiers, calls, limit, false, n) == calls[1..n]
  {
    if n > 1 {
      FirstAlonePicks(tiers, calls, limit, n - 1);
      assert calls[1..n] == calls[1..n - 1] + [calls[n - 1]];
    } else {
      assert Picked(tiers, calls, limit, true, 0) == [] && Picked(tiers, calls, limit, false, 0) == [];
    }
  }

  /** Exactly which calls run and which are rejected, both in the order of the response. */
  lemma PlanPicksExactly(tiers: map<string, RiskTier>, calls: seq<Call>, limit: nat)
    ensures PlanCalls(tiers, calls, limit)
         == (Picked(tiers, calls, limit, true, |calls|), Picked(tiers, calls, limit, false, |calls|))
  {
    if calls != [] {
      if calls[0].name in tiers && !tiers[calls[0].name].ReadOnly? {
        FirstAlonePicks(tiers, calls, limit, |calls|);
        assert calls[1..] == calls[1..|calls|];
      } else {
        SplitPicks(tiers, calls, limit, |calls|);
      }
    }
  }

  /** A whole step: the request, the rejected calls' results, the selected calls' results. */
  function StepMessages(
    content: Option<string>, calls: seq<Call>, rejected: seq<Call>, selected: seq<Call>,
    denied: seq<string>, observed: seq<string>): seq<Message>
    requires |denied| == |rejected| && |observed| == |selected|
  {
    [RequestMessage(content, calls)] + Paired(rejected, denied) + Paired(selected, observed)
  }

  function Paired(calls: seq<Call>, observations: seq<string>): seq<Message>
    requires |observations| == |calls|
  {
    seq(|calls|, i requires 0 <= i < |calls| => ResultMessage(calls[i], observations[i]))
  }

  lemma ResultIdsConcat(a: seq<Message>, b: seq<Message>)
    ensures ResultIds(a + b) == ResultIds(a) + ResultIds(b)
  {}

  lemma PairedIds(calls: seq<Call>, observations: seq<string>)
    requires |observations| == |calls|
    ensures AllResults(Paired(calls, observations)) && ResultIds(Paired(calls, observations)) == CallIds(calls)
  {}

  lemma StepResultsAnswer(
    calls: seq<Call>, rejected: seq<Call>, selected: seq<Call>, denied: seq<string>, observed: seq<string>)
    requires |denied| == |rejected| && |observed| == |selected| && |rejected| + |selected| == |calls|
    requires multiset(CallIds(selected)) + multiset(CallIds(rejected)) == multiset(CallIds(calls))
    ensures Answers(Paired(rejected, denied) + Paired(selected, observed), calls)
  {
    PairedIds(rejected, denied);
    PairedIds(selected, observed);
    ResultIdsConcat(Paired(rejected, denied), Paired(selected, observed));
  }

  lemma StepIsPaired(
    content: Option<string>, calls: seq<Call>, rejected: seq<Call>, selected: seq<Call>,
    denied: seq<string>, observed: seq<string>)
    requires |denied| == |rejected| && |observed| == |selected| && |rejected| + |selected| == |calls|
    requires multiset(CallIds(selected)) + multiset(CallIds(rejected)) == multiset(CallIds(calls))
    ensures WellPaired(StepMessages(content, calls, rejected, selected, denied, observed))
  {
    StepResultsAnswer(calls, rejected, selected, denied, observed);
    RequestWithResults(RequestMessage(content, calls), Paired(rejected, denied) + Paired(selected, observed));
    assert [RequestMessage(content, calls)] + (Paired(rejected, denied) + Paired(selected, observed))
        == StepMessages(content, calls, rejected, selected, denied, observed);
  }

  /** Appending a step keeps the history paired, whatever the plan rejected. */
  lemma StepKeepsPairing(
    tiers: map<string, RiskTier>, limit: nat, ms: seq<Message>,
    content: Option<string>, calls: seq<Call>, denied: seq<string>, observed: seq<string>)
    requires WellPaired(ms)
    requires |observed| == |PlanCalls(tiers, calls, limit).0| && |denied| == |PlanCalls(tiers, calls, limit).1|
    ensures
      var (selected, rejected) := PlanCalls(tiers, calls, limit);
      WellPaired(ms + StepMessages(content, calls, rejected, selected, denied, observed))
  {
    var (selected, rejected) := PlanCalls(tiers, calls, limit);
    PlanIsAPartition(tiers, calls, limit);
    StepIsPaired(content, calls, rejected, selected, denied, observed);
    PairedConcat(ms, StepMessages(content, calls, rejected, selected, denied, observed));
  }

  /** A history that goes on after a paired part is paired exactly if its rest is. */
  lemma {:induction false} PairedRest(a: seq<Message>, b: seq<Message>)
    requires WellPaired(a)
    ensures WellPaired(a + b) <==> WellPaired(b)
    decreases |a|
  {
    if a == [] {
      assert a + b == b;
    } else {
      HeadOfConcat(a, b);
      PairedRest(a[Extent(a[0])..], b);
    }
  }

  /** A request that lacks results, whatever is said next. */
  lemma LackingResults(request: Message, results: seq<Message>, more: seq<Message>)
    requires Requests(request) && |results| < |request.toolCalls|
    requires more == [] || !more[0].role.ToolResult?
    ensures !WellPaired([request] + results + more)
  {
    var ms := [request] + results + more;
    assert more != [] ==> ms[1 + |results|] == more[0];
    assert Extent(request) <= |ms| ==> ms[1..Extent(request)][|results|] == ms[1 + |results|];
  }

  /** A turn that is left after `j` messages of a step leaves the history paired exactly if
      it had none of them yet, or all; and what comes next does not repair it. */
  lemma InterruptedStepIsPairedExactlyWhen(
    tiers: map<string, RiskTier>, limit: nat, ms: seq<Message>,
    content: Option<string>, calls: seq<Call>, denied: seq<string>, observed: seq<string>, j: nat, more: seq<Message>)
    requires WellPaired(ms) && calls != [] && WellPaired(more)
    requires |observed| == |PlanCalls(tiers, calls, limit).0| && |denied| == |PlanCalls(tiers, calls, limit).1|
    requires j <= |calls| + 1
    ensures
      var (selected, rejected) := PlanCalls(tiers, calls, limit);
      var step := StepMessages(content, calls, rejected, selected, denied, observed);
      |step| == |calls| + 1 && (WellPaired(ms + step[..j] + more) <==> j == 0 || j == |step|)
  {
    var (selected, rejected) := PlanCalls(tiers, calls, limit);
    var step := StepMessages(content, calls, rejected, selected, denied, observed);
    PlanIsAPartition(tiers, calls, limit);
    assert ms + step[..j] + more == ms + (step[..j] + more);
    PairedRest(ms, step[..j] + more);
    if j == 0 {
      assert step[..j] + more == more;
    } else if j == |step| {
      assert step[..j] == step;
      StepIsPaired(content, calls, rejected, selected, denied, observed);
      PairedRest(step, more);
    } else {
      assert step[..j] == [step[0]] + step[1..j];
      LackingResults(step[0], step[1..j], more);
    }
  }

  /** Messages that neither request nor answer anything. */
  lemma PlainKeepsPairing(ms: seq<Message>, m: Message)
    requires WellPaired(ms) && !m.role.ToolResult? && !Requests(m)
    ensures WellPaired(ms + [m])
  {
    assert [m][1..] == [];
    PairedConcat(ms, [m]);
  }

  // -------------------------------------------------------------- summaries

  /** How many messages the leading system prompt takes. */
  function Prompt(ms: seq<Message>): (n: nat)
    ensures n <= |ms|
  {
    if ms != [] && ms[0].role.System? then 1 else 0
  }

  /** What replaces everything before the latest user message: the prompt and one
      message for the rest, if there is anything worth summarizing. */
  function Summary(c: Config, ms: seq<Message>): (head: Option<seq<Message>>)
    ensures head.Some? ==>
      && 1 < |head.value| + 1 < AfterLatestUser(ms)
      && Prompt(ms) <= |head.value| && head.value[..Prompt(ms)] == ms[..Prompt(ms)]
      && forall i :: 0 <= i < |head.value| ==> head.value[i].role.System?
  {
    var first, after := Prompt(ms), AfterLatestUser(ms);
    if after > 0 && after - 1 > first + 1 then
      match c.summarize(ms[first..after - 1])
      case Some(text) => Some(ms[..first] + [SystemMessage(text)])
      case None => None
    else None
  }

  function Condensed(c: Config, ms: seq<Message>): seq<Message> {
    var head := Summary(c, ms);
    if head.Some? then head.value + ms[AfterLatestUser(ms) - 1..] else ms
  }

  lemma {:induction false} SuffixIsPaired(ms: seq<Message>, k: nat)
    requires WellPaired(ms) && k < |ms| && !ms[k].role.ToolResult?
    ensures WellPaired(ms[k..])
    decreases |ms|
  {
    if k == 0 {
      assert ms[0..] == ms;
    } else {
      var n := Extent(ms[0]);
      assert forall i :: 1 <= i < n ==> ms[i] == ms[1..n][i - 1];
      assert ms[n..][k - n..] == ms[k..];
      SuffixIsPaired(ms[n..], k - n);
    }
  }

  /** Replacing everything before the latest user message. */
  lemma ReplaceHeadKeepsLatest(ms: seq<Message>, head: seq<Message>, k: nat)
    requires k < |ms| && k + 1 == AfterLatestUser(ms)
    ensures AfterLatestUser(head + ms[k..]) == |head| + 1
  {
    var n := AfterLatestUser(ms[k..]);
    assert ms[k..][0] == ms[k];
    assert n > 0 ==> ms[k..][n - 1] == ms[k + n - 1];
    AfterLatestUserConcat(head, ms[k..]);
  }

  lemma ReplaceHeadKeepsPairing(ms: seq<Message>, head: seq<Message>, k: nat)
    requires WellPaired(ms) && WellPaired(head) && k < |ms| && ms[k].role.User?
    ensures WellPaired(head + ms[k..])
  {
    SuffixIsPaired(ms, k);
    PairedConcat(head, ms[k..]);
  }

  /** A summary shortens the history and keeps the prompt and the whole current turn. */
  lemma CondensedKeepsTheTurn(c: Config, ms: seq<Message>)
    ensures
      var out, after := Condensed(c, ms), AfterLatestUser(ms);
      && |out| <= |ms| && (out != ms ==> |out| < |ms|)
      && Prompt(ms) <= |out| && out[..Prompt(ms)] == ms[..Prompt(ms)]
      && LatestUser(out) == LatestUser(ms)
      && (after > 0 ==> AfterLatestUser(out) > 0 && out[AfterLatestUser(out) - 1..] == ms[after - 1..])
  {
    var head := Summary(c, ms);
    if head.Some? {
      ReplaceHeadKeepsLatest(ms, head.value, AfterLatestUser(ms) - 1);
    }
  }

  lemma CondensedKeepsPairing(c: Config, ms: seq<Message>)
    requires WellPaired(ms)
    ensures WellPaired(Condensed(c, ms))
  {
    var head := Summary(c, ms);
    if head.Some? {
      PlainHead(head.value);
      ReplaceHeadKeepsPairing(ms, head.value, AfterLatestUser(ms) - 1);
    }
  }

  lemma {:induction false} PlainHead(head: seq<Message>)
    requires forall i :: 0 <= i < |head| ==> head[i].role.System?
    ensures WellPaired(head)
    decreases |head|
  {
    if head != [] { PlainHead(head[1..]); }
  }

  // ------------------------------------------------------------ trim_history

  function TokenBudget(c: Config): nat {
    var threshold := c.contextWindow * c.thresholdPercent / 100;
    if c.contextWindow < threshold then c.contextWindow else threshold
  }

  function TrimmedHistory(c: Config, ms: seq<Message>): seq<Message> {
    var a := if c.summaries && |ms| > c.maxMessages then Condensed(c, ms) else ms;
    var b := Trimmed(c.json, Both, Count, a, c.maxMessages);
    Trimmed(c.json, Both, Tokens(c.json), b, TokenBudget(c))
  }

  lemma TrimIsSound(c: Config, w: Measure, ms: seq<Message>, limit: int)
    ensures
      var out := Trimmed(c.json, Both, w, ms, limit);
      && (WellPaired(ms) ==> WellPaired(out))
      && LatestUser(out) == LatestUser(ms)
      && (Weigh(w, out) <= limit || OnlyProtected(Both, out))
  {
    TrimKeepsProtected(c.json, Both, w, ms, limit);
    TrimFitsOrOnlyProtected(c.json, Both, w, ms, limit);
    if WellPaired(ms) { TrimKeepsPairing(c.json, Both, w, ms, limit); }
  }

  /** Three shrinking passes later, requests and results are still paired, the latest
      user message is there, and the history fits or is down to protected messages. */
  lemma TrimmedHistoryIsSound(c: Config, ms: seq<Message>)
    ensures
      var out := TrimmedHistory(c, ms);
      && (WellPaired(ms) ==> WellPaired(out))
      && LatestUser(out) == LatestUser(ms)
      && (Weigh(Tokens(c.json), out) <= TokenBudget(c) || OnlyProtected(Both, out))
  {
    var a := if c.summaries && |ms| > c.maxMessages then Condensed(c, ms) else ms;
    assert (WellPaired(ms) ==> WellPaired(a)) && LatestUser(a) == LatestUser(ms) by {
      CondensedKeepsTheTurn(c, ms);
      if WellPaired(ms) { CondensedKeepsPairing(c, ms); }
    }
    TrimIsSound(c, Count, a, c.maxMessages);
    TrimIsSound(c, Tokens(c.json), Trimmed(c.json, Both, Count, a, c.maxMessages), TokenBudget(c));
  }

  /** The budget is the lesser of the window and its threshold share. */
  lemma BudgetIsTheLesser(c: Config)
    ensures TokenBudget(c) <= c.contextWindow && 100 * TokenBudget(c) <= c.contextWindow * c.thresholdPercent
    ensures TokenBudget(c) == c.contextWindow || c.contextWindow * c.thresholdPercent < 100 * (TokenBudget(c) + 1)
  {}

  lemma SummaryExactlyWhen(c: Config, ms: seq<Message>, first: nat, k: int)
    requires first == (if ms != [] && ms[0].role.System? then 1 else 0) && k == AfterLatestUser(ms) - 1
    ensures Summary(c, ms).Some? <==> first + 1 < k && c.summarize(ms[first..k]).Some?
    ensures Summary(c, ms).Some? ==>
      Summary(c, ms).value == ms[..first] + [Message(System, Some(c.summarize(ms[first..k]).value), [], None, None)]
  {}

  /** When turns are summarized, and what then stands for them: the prompt, one message with
      the summary, and the turn of the latest user message whole. */
  lemma CondensedExactlyWhen(c: Config, ms: seq<Message>)
    ensures
      var first := if ms != [] && ms[0].role.System? then 1 else 0;
      var k := AfterLatestUser(ms) - 1;
      if first + 1 < k && c.summarize(ms[first..k]).Some? then
        Condensed(c, ms)
        == ms[..first] + [Message(System, Some(c.summarize(ms[first..k]).value), [], None, None)] + ms[k..]
      else Condensed(c, ms) == ms
  {
    SummaryExactlyWhen(c, ms, if ms != [] && ms[0].role.System? then 1 else 0, AfterLatestUser(ms) - 1);
  }

  /** What the trims start from: more messages than the cap are first condensed. */
  function Due(c: Config, ms: seq<Message>, cap: int): seq<Message> {
    if c.summaries && |ms| > cap then Condensed(c, ms) else ms
  }

  /** Apart from that summary, nothing is added, reordered or rewritten; no system message is
      lost; and the messages are within the cap or down to protected ones. */
  lemma TrimmedHistoryIsOfTheDue(c: Config, ms: seq<Message>)
    ensures
      var due, out := Due(c, ms, c.maxMessages), TrimmedHistory(c, ms);
      && Subsequence(out, due) && Systems(out) == Systems(due)
      && (|out| <= c.maxMessages || OnlyProtected(Both, out))
  {
    var due := Due(c, ms, c.maxMessages);
    var b := Trimmed(c.json, Both, Count, due, c.maxMessages);
    TrimIsSubsequence(c.json, Both, Count, due, c.maxMessages);
    TrimKeepsProtected(c.json, Both, Count, due, c.maxMessages);
    TrimFitsOrOnlyProtected(c.json, Both, Count, due, c.maxMessages);
    WeighCount(b);
    var out := Trimmed(c.json, Both, Tokens(c.json), b, TokenBudget(c));
    TrimIsSubsequence(c.json, Both, Tokens(c.json), b, TokenBudget(c));
    TrimKeepsProtected(c.json, Both, Tokens(c.json), b, TokenBudget(c));
    SubsequenceOfSubsequence(out, b, due);
    SubsequenceIsNoLonger(out, b);
    if |b| > c.maxMessages { OnlyProtectedIsUntouched(c.json, Both, Tokens(c.json), b, TokenBudget(c)); }
  }

  // --------------------------------------------------------- compact_history

  function ContextTokens(c: Config, ms: seq<Message>): nat {
    Max(1, Weigh(Tokens(c.json), ms))
  }

  function Target(c: Config): nat {
    c.contextWindow * c.targetPercent / 100
  }

  /** What the compaction loop comes to: at most one effective trim. */
  function CompactedHistory(c: Config, ms: seq<Message>): seq<Message> {
    var a := if c.summaries && |ms| > 4 then Condensed(c, ms) else ms;
    if ContextTokens(c, a) > Target(c) && |a| > 4 then Trimmed(c.json, Both, Tokens(c.json), a, Target(c)) else a
  }

  /** The loop trims until the target is met or a trim stops helping. It always ends, and
      it never does more than its first pass. */
  method CompactHistory(c: Config, ms: seq<Message>) returns (out: seq<Message>)
    ensures out == CompactedHistory(c, ms)
  {
    out := ms;
    if c.summaries && |out| > 4 {
      out := Condensed(c, out);
    }
    ghost var a := out;
    ghost var passes := 0;
    var target := Target(c);
    while ContextTokens(c, out) > target && |out| > 4
      invariant passes == 0 ==> out == a
      invariant passes > 0 ==>
        ContextTokens(c, a) > target && |a| > 4 && out == Trimmed(c.json, Both, Tokens(c.json), a, target)
      decreases ContextTokens(c, out)
    {
      var previous := ContextTokens(c, out);
      TrimFitsOrOnlyProtected(c.json, Both, Tokens(c.json), a, target);
      out := TrimMessagesToBudget(c.json, Both, out, target);
      passes := passes + 1;
      if ContextTokens(c, out) >= previous {
        break;
      }
    }
  }

  /** The target is its share of the window. */
  lemma TargetIsTheShare(c: Config)
    ensures 100 * Target(c) <= c.contextWindow * c.targetPercent < 100 * (Target(c) + 1)
  {}

  /** Likewise compaction: a history of more than four messages is first condensed, and then
      trimmed only if it has still more than four and weighs more than the target. */
  lemma CompactedHistoryIsOfTheDue(c: Config, ms: seq<Message>)
    ensures
      var due, out := Due(c, ms, 4), CompactedHistory(c, ms);
      && Subsequence(out, due) && Systems(out) == Systems(due)
      && (Max(1, Weigh(Tokens(c.json), due)) <= Target(c) || |due| <= 4 ==> out == due)
  {
    var due := Due(c, ms, 4);
    SubsequenceOfItself(due);
    TrimIsSubsequence(c.json, Both, Tokens(c.json), due, Target(c));
    TrimKeepsProtected(c.json, Both, Tokens(c.json), due, Target(c));
  }

  lemma {:induction false} SubsequenceOfItself(ms: seq<Message>)
    ensures Subsequence(ms, ms)
    decreases |ms|
  {
    if ms != [] { SubsequenceOfItself(ms[1..]); }
  }

  lemma CompactingTrimIsSound(c: Config, ms: seq<Message>)
    ensures
      var trims := ContextTokens(c, ms) > Target(c) && |ms| > 4;
      var out := if trims then Trimmed(c.json, Both, Tokens(c.json), ms, Target(c)) else ms;
      && (WellPaired(ms) ==> WellPaired(out))
      && LatestUser(out) == LatestUser(ms)
      && (ContextTokens(c, out) <= Max(1, Target(c)) || OnlyProtected(Both, out) || |out| <= 4)
  {
    TrimIsSound(c, Tokens(c.json), ms, Target(c));
  }

  lemma CompactionIsSound(c: Config, ms: seq<Message>)
    ensures
      var out := CompactedHistory(c, ms);
      && (WellPaired(ms) ==> WellPaired(out))
      && LatestUser(out) == LatestUser(ms)
      && (ContextTokens(c, out) <= Max(1, Target(c)) || OnlyProtected(Both, out) || |out| <= 4)
  {
    var a := if c.summaries && |ms| > 4 then Condensed(c, ms) else ms;
    CondensedKeepsTheTurn(c, ms);
    if WellPaired(ms) { CondensedKeepsPairing(c, ms); }
    CompactingTrimIsSound(c, a);
  }
}
