/** Server compaction: older steps are folded into a summary, and the last ten stay.

    Steps are never deleted. A worker compacts from the steps it loaded, which may be
    older than the steps it writes into. */
module Compaction {
  import opened Domain
  import X = ToolExecutor
  import opened TokenUtils
  import opened Context

  const KEEP_RECENT_STEPS := 10
  const CHARS_PER_TOKEN_ESTIMATE := 4

  /** The loaded LLM calls past a step number. */
  function Uncovered(steps: Steps, nos: seq<int>, covered: int): (u: seq<int>)
    requires AllIn(nos, steps)
  {
    if nos == [] then []
    else
      var n := |nos| - 1;
      Uncovered(steps, nos[..n], covered)
      + if steps[nos[n]].LlmCall? && nos[n] > covered then [nos[n]] else []
  }

  predicate AllCalls(nos: seq<int>, steps: Steps) {
    forall i :: 0 <= i < |nos| ==> nos[i] in steps && steps[nos[i]].LlmCall?
  }

  lemma {:induction false} UncoveredAreCalls(steps: Steps, nos: seq<int>, covered: int)
    requires AllIn(nos, steps)
    ensures AllCalls(Uncovered(steps, nos, covered), steps)
  {
    if nos != [] { UncoveredAreCalls(steps, nos[..|nos| - 1], covered); }
  }

  function Summaries(steps: Steps, nos: seq<int>): nat
    requires AllIn(nos, steps)
  {
    if nos == [] then 0
    else Summaries(steps, nos[..|nos| - 1]) + if steps[nos[|nos| - 1]].Summary? then 1 else 0
  }

  function CallChars(calls: seq<Call>): nat {
    if calls == [] then 0
    else
      var last := calls[|calls| - 1];
      CallChars(calls[..|calls| - 1]) + |last.name| + |last.arguments|
  }

  function Chars(ms: seq<Message>): nat {
    if ms == [] then 0
    else Chars(ms[..|ms| - 1]) + |Text(ms[|ms| - 1].content)| + CallChars(ms[|ms| - 1].toolCalls)
  }

  /** Text adds up: of calls, and of messages. */
  lemma {:induction false} CallCharsConcat(a: seq<Call>, b: seq<Call>)
    ensures CallChars(a + b) == CallChars(a) + CallChars(b)
    decreases |b|
  {
    if b == [] {
      assert a + b == a;
    } else {
      CallCharsConcat(a, b[..|b| - 1]);
      assert (a + b)[..|a + b| - 1] == a + b[..|b| - 1];
    }
  }

  lemma {:induction false} CharsConcat(a: seq<Message>, b: seq<Message>)
    ensures Chars(a + b) == Chars(a) + Chars(b)
    decreases |b|
  {
    if b == [] {
      assert a + b == a;
    } else {
      CharsConcat(a, b[..|b| - 1]);
      assert (a + b)[..|a + b| - 1] == a + b[..|b| - 1];
    }
  }

  /** And one message's is its content, and the names and arguments of its calls. */
  lemma CharsOfOne(m: Message, call: Call)
    ensures Chars([m]) == (if m.content.Some? then |m.content.value| else 0) + CallChars(m.toolCalls)
    ensures CallChars([call]) == |call.name| + |call.arguments|
  {
    assert [m][..0] == [] && [call][..0] == [];
  }

  method EstimateTokens(ms: seq<Message>) returns (n: nat)
    ensures n == Chars(ms) / CHARS_PER_TOKEN_ESTIMATE
  {
    var total := 0;
    for i := 0 to |ms|
      invariant total == Chars(ms[..i])
    {
      assert ms[..i + 1][..i] == ms[..i];
      total := total + |Text(ms[i].content)|;
      var calls := ms[i].toolCalls;
      for j := 0 to |calls|
        invariant total == Chars(ms[..i]) + |Text(ms[i].content)| + CallChars(calls[..j])
      {
        assert calls[..j + 1][..j] == calls[..j];
        total := total + |calls[j].name| + |calls[j].arguments|;
      }
      assert calls[..|calls|] == calls;
    }
    assert ms[..|ms|] == ms;
    n := total / CHARS_PER_TOKEN_ESTIMATE;
  }

  /** The messages of some LLM calls. */
  function RenderAll(env: Env, rows: map<X.Key, X.Row>, steps: Steps, nos: seq<int>): seq<Message>
    requires Numbered(steps) && AllCalls(nos, steps)
  {
    if nos == [] then []
    else
      var n := |nos| - 1;
      RenderAll(env, rows, steps, nos[..n]) + Context.Rendered(env, rows, nos[n], steps[nos[n]])
  }

  /** Each of the steps is there, with its own records. */
  lemma {:induction false} RenderAllShows(env: Env, rows: map<X.Key, X.Row>, steps: Steps, nos: seq<int>, i: nat)
    requires Numbered(steps) && AllCalls(nos, steps) && i < |nos|
    ensures Appears(env, rows, nos[i], steps[nos[i]], RenderAll(env, rows, steps, nos))
    decreases |nos|
  {
    var n := |nos| - 1;
    var ms, before := RenderAll(env, rows, steps, nos), RenderAll(env, rows, steps, nos[..n]);
    if i < n {
      RenderAllShows(env, rows, steps, nos[..n], i);
      var a: nat, b: nat :| a <= b <= |before| && ShowsStep(env, rows, nos[i], steps[nos[i]], before[a..b]);
      assert ms[a..b] == before[a..b];
    } else {
      RenderedShowsStep(env, rows, nos[n], steps[nos[n]]);
      assert ms[|before|..|ms|] == Context.Rendered(env, rows, nos[n], steps[nos[n]]);
    }
  }

  ghost predicate AreShown(env: Env, rows: map<X.Key, X.Row>, steps: Steps, nos: seq<int>, ms: seq<Message>)
    requires Numbered(steps) && AllCalls(nos, steps)
  {
    forall i :: 0 <= i < |nos| ==> Appears(env, rows, nos[i], steps[nos[i]], ms)
  }

  lemma AllShown(env: Env, rows: map<X.Key, X.Row>, steps: Steps, nos: seq<int>)
    requires Numbered(steps) && AllCalls(nos, steps)
    ensures AreShown(env, rows, steps, nos, RenderAll(env, rows, steps, nos))
  {
    forall i | 0 <= i < |nos|
      ensures Appears(env, rows, nos[i], steps[nos[i]], RenderAll(env, rows, steps, nos))
    {
      RenderAllShows(env, rows, steps, nos, i);
    }
  }

  // ------------------------------------------------------------ compaction

  /** The summary row to insert: its number, and the last step it covers. */
  datatype Plan = Plan(no: int, coversUpTo: int)

  /** The estimate has reached the threshold share of the limit. */
  predicate Due(env: Env, rows: map<X.Key, X.Row>, steps: Steps, nos: seq<int>, limit: int, percent: nat)
    requires Numbered(steps) && AllCalls(nos, steps)
  {
    100 * (Chars(RenderAll(env, rows, steps, nos)) / CHARS_PER_TOKEN_ESTIMATE) >= limit * percent
  }

  /** What compaction decides from the loaded steps. `limit` is the context window, or
      the token budget; `percent` the threshold. */
  function PlanOf(env: Env, rows: map<X.Key, X.Row>, steps: Steps, nos: seq<int>, limit: int, percent: nat): Option<Plan>
    requires Numbered(steps) && AllIn(nos, steps)
  {
    var uncovered := Uncovered(steps, nos, Covered(steps, nos));
    UncoveredAreCalls(steps, nos, Covered(steps, nos));
    if |uncovered| <= KEEP_RECENT_STEPS then None
    else if !Due(env, rows, steps, uncovered, limit, percent) then None
    else Some(Plan(-(Summaries(steps, nos) + 1), uncovered[|uncovered| - KEEP_RECENT_STEPS - 1]))
  }

  /** Exactly the loaded LLM calls past the covered step, in their order. */
  lemma {:induction false} UncoveredHas(steps: Steps, nos: seq<int>, covered: int, no: int)
    requires AllIn(nos, steps)
    ensures no in Uncovered(steps, nos, covered) <==> no in nos && no in steps && steps[no].LlmCall? && no > covered
  {
    if nos != [] {
      var n := |nos| - 1;
      UncoveredHas(steps, nos[..n], covered, no);
      assert no in nos <==> no in nos[..n] || no == nos[n];
    }
  }

  ghost predicate Increasing(nos: seq<int>) {
    forall i, j :: 0 <= i < j < |nos| ==> nos[i] < nos[j]
  }

  lemma {:induction false} UncoveredKeepsOrder(steps: Steps, nos: seq<int>, covered: int)
    requires AllIn(nos, steps) && Increasing(nos)
    ensures Increasing(Uncovered(steps, nos, covered))
  {
    if nos != [] {
      var n := |nos| - 1;
      UncoveredKeepsOrder(steps, nos[..n], covered);
      forall i | 0 <= i < |Uncovered(steps, nos[..n], covered)|
        ensures Uncovered(steps, nos[..n], covered)[i] < nos[n]
      {
        UncoveredHas(steps, nos[..n], covered, Uncovered(steps, nos[..n], covered)[i]);
      }
    }
  }

  /** How much text the steps not covered by a summary hold. */
  function UncoveredText(env: Env, rows: map<X.Key, X.Row>, steps: Steps, nos: seq<int>): nat
    requires Numbered(steps) && AllIn(nos, steps)
  {
    UncoveredAreCalls(steps, nos, Covered(steps, nos));
    Chars(RenderAll(env, rows, steps, Uncovered(steps, nos, Covered(steps, nos))))
  }

  /** There are more than ten uncovered steps, and their text, four characters to a token, has
      reached the threshold share of the limit. */
  predicate IsDue(env: Env, rows: map<X.Key, X.Row>, steps: Steps, nos: seq<int>, limit: int, percent: nat)
    requires Numbered(steps) && AllIn(nos, steps)
  {
    && |Uncovered(steps, nos, Covered(steps, nos))| > 10
    && 100 * (UncoveredText(env, rows, steps, nos) / 4) >= limit * percent
  }

  /** The summary takes the number below all summaries so far, and covers the oldest uncovered
      steps: all but ten. */
  predicate TakesOldest(steps: Steps, nos: seq<int>, plan: Plan)
    requires AllIn(nos, steps)
  {
    var u := Uncovered(steps, nos, Covered(steps, nos));
    && plan.no == -1 - Summaries(steps, nos)
    && |u| > 10 && plan.coversUpTo == u[|u| - 11]
  }

  /** Exactly when and what is compacted. */
  lemma CompactsExactlyWhenDue(
    env: Env, rows: map<X.Key, X.Row>, steps: Steps, nos: seq<int>, limit: int, percent: nat)
    requires Numbered(steps) && AllIn(nos, steps)
    ensures
      var plan := PlanOf(env, rows, steps, nos, limit, percent);
      && (plan.Some? <==> IsDue(env, rows, steps, nos, limit, percent))
      && (plan.Some? ==> TakesOldest(steps, nos, plan.value))
  {}

  /** More text, a lower limit or a lower threshold never make a due compaction undue. */
  lemma DueStaysDue(
    env: Env, rows: map<X.Key, X.Row>, more: map<X.Key, X.Row>, steps: Steps, nos: seq<int>,
    limit: int, percent: nat, lower: int, lowerPercent: nat)
    requires Numbered(steps) && AllIn(nos, steps) && IsDue(env, rows, steps, nos, limit, percent)
    requires UncoveredText(env, rows, steps, nos) <= UncoveredText(env, more, steps, nos)
    requires lower * lowerPercent <= limit * percent
    ensures PlanOf(env, more, steps, nos, lower, lowerPercent).Some?
  {
    CompactsExactlyWhenDue(env, more, steps, nos, lower, lowerPercent);
    assert UncoveredText(env, rows, steps, nos) / 4 <= UncoveredText(env, more, steps, nos) / 4;
  }

  lemma RenderOneMore(env: Env, rows: map<X.Key, X.Row>, steps: Steps, u: seq<int>, no: int)
    requires Numbered(steps) && AllCalls(u, steps) && no in steps && steps[no].LlmCall?
    ensures Chars(RenderAll(env, rows, steps, u)) <= Chars(RenderAll(env, rows, steps, u + [no]))
  {
    var v := u + [no];
    assert v[..|v| - 1] == u;
    CharsConcat(RenderAll(env, rows, steps, u), Context.Rendered(env, rows, no, steps[no]));
  }

  lemma AnotherStepAddsText(env: Env, rows: map<X.Key, X.Row>, steps: Steps, nos: seq<int>, no: int)
    requires Numbered(steps) && AllIn(nos, steps) && no in steps && steps[no].LlmCall?
    ensures UncoveredText(env, rows, steps, nos) <= UncoveredText(env, rows, steps, nos + [no])
    ensures
      |Uncovered(steps, nos, Covered(steps, nos))| <= |Uncovered(steps, nos + [no], Covered(steps, nos + [no]))|
  {
    var all, covered := nos + [no], Covered(steps, nos);
    assert all[..|all| - 1] == nos && Covered(steps, all) == covered;
    var u := Uncovered(steps, nos, covered);
    UncoveredAreCalls(steps, nos, covered);
    RenderOneMore(env, rows, steps, u, no);
    assert Uncovered(steps, all, covered) == if no > covered then u + [no] else u;
  }

  /** Another uncovered step only adds text, so neither does it. */
  lemma AnotherStepStaysDue(
    env: Env, rows: map<X.Key, X.Row>, steps: Steps, nos: seq<int>, no: int, limit: int, percent: nat)
    requires Numbered(steps) && AllIn(nos, steps) && no in steps && steps[no].LlmCall?
    requires IsDue(env, rows, steps, nos, limit, percent)
    ensures IsDue(env, rows, steps, nos + [no], limit, percent)
  {
    AnotherStepAddsText(env, rows, steps, nos, no);
  }

  /** What is summarized: the messages of all uncovered steps but ten, each with its own
      records. */
  ghost predicate Summarizes(env: Env, rows: map<X.Key, X.Row>, steps: Steps, nos: seq<int>, ms: seq<Message>)
    requires Numbered(steps) && AllIn(nos, steps)
  {
    var u := Uncovered(steps, nos, Covered(steps, nos));
    && |u| > 10 && AllCalls(u, steps)
    && ms == RenderAll(env, rows, steps, u[..|u| - 10]) && AreShown(env, rows, steps, u[..|u| - 10], ms)
  }

  /** Plans and renders; the caller inserts the row with the LLM's summary. */
  method MaybeCompact(env: Env, rows: map<X.Key, X.Row>, steps: Steps, nos: seq<int>, limit: int, percent: nat)
    returns (plan: Option<Plan>, toSummarize: seq<Message>)
    requires Numbered(steps) && AllIn(nos, steps)
    ensures plan == PlanOf(env, rows, steps, nos, limit, percent)
    ensures plan.Some? <==> IsDue(env, rows, steps, nos, limit, percent)
    ensures plan.Some? ==> TakesOldest(steps, nos, plan.value) && Summarizes(env, rows, steps, nos, toSummarize)
  {
    var covered := LatestCoveredStepNo(steps, nos);
    var uncovered := Uncovered(steps, nos, covered);
    UncoveredAreCalls(steps, nos, covered);
    plan, toSummarize := CompactUncovered(env, rows, steps, nos, uncovered, limit, percent);
    CompactsExactlyWhenDue(env, rows, steps, nos, limit, percent);
  }

  method CompactUncovered(
    env: Env, rows: map<X.Key, X.Row>, steps: Steps, nos: seq<int>, uncovered: seq<int>, limit: int, percent: nat)
    returns (plan: Option<Plan>, toSummarize: seq<Message>)
    requires Numbered(steps) && AllIn(nos, steps) && AllCalls(uncovered, steps)
    requires uncovered == Uncovered(steps, nos, Covered(steps, nos))
    ensures plan == PlanOf(env, rows, steps, nos, limit, percent)
    ensures plan.Some? ==> Summarizes(env, rows, steps, nos, toSummarize)
  {
    if |uncovered| <= KEEP_RECENT_STEPS {
      return None, [];
    }
    var estimate := EstimateTokens(RenderAll(env, rows, steps, uncovered));
    if 100 * estimate < limit * percent {
      return None, [];
    }
    var oldest := uncovered[..|uncovered| - KEEP_RECENT_STEPS];
    plan := Some(Plan(-(Summaries(steps, nos) + 1), oldest[|oldest| - 1]));
    toSummarize := RenderAll(env, rows, steps, oldest);
    AllShown(env, rows, steps, oldest);
  }

  /** The insert: the unique step number refuses a second summary of the same number. */
  function Insert(steps: Steps, plan: Plan, text: string, now: int): Option<Steps> {
    if plan.no in steps then None else Some(steps[plan.no := Summary(text, plan.coversUpTo, now)])
  }
}
