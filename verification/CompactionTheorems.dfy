/** Compaction partitions the run's steps, over every sequence of LLM calls and
    compactions, by any number of workers, each from steps it loaded at any time. */
module CompactionTheorems {
  import opened Domain
  import X = ToolExecutor
  import opened Context
  import opened Compaction

  /** The rows with how many of them are LLM calls and summaries. */
  datatype Version = Version(steps: Steps, calls: nat, summaries: nat)

  /** All rows, ordered by step number. */
  function All(v: Version): seq<int> {
    Upto(v, v.calls)
  }

  /** What the `j`-th summary covers up to. */
  function Bound(v: Version, j: nat): int
    requires -(j as int) - 1 in v.steps && v.steps[-(j as int) - 1].Summary?
  {
    v.steps[-(j as int) - 1].coversUpTo
  }

  ghost predicate RowsOk(v: Version) {
    && (forall k :: k in v.steps <==> -(v.summaries as int) <= k < v.calls)
    && Numbered(v.steps)
  }

  /** Each summary covers more than the one before, and never one of the last ten steps. */
  ghost predicate BoundsOk(v: Version)
    requires RowsOk(v)
  {
    && (forall j: nat :: j < v.summaries ==> 0 <= Bound(v, j) && Bound(v, j) + KEEP_RECENT_STEPS < v.calls)
    && (forall i: nat, j: nat :: i < j < v.summaries ==> Bound(v, i) < Bound(v, j))
  }

  /** Calls are numbered from 0 up and summaries from -1 down. */
  ghost predicate Ok(v: Version) {
    RowsOk(v) && BoundsOk(v)
  }

  function LastBound(v: Version): int
    requires v.summaries > 0 ==> -(v.summaries as int) in v.steps && v.steps[-(v.summaries as int)].Summary?
  {
    if v.summaries == 0 then -1 else Bound(v, v.summaries - 1)
  }

  // --------------------------------------------------- what the loops compute

  function Upto(v: Version, hi: int): seq<int>
    requires -(v.summaries as int) <= hi
  {
    Loaded(v.steps, -(v.summaries as int), hi)
  }

  lemma OneMore(v: Version, hi: int)
    requires RowsOk(v) && -(v.summaries as int) < hi <= v.calls
    ensures Upto(v, hi) != [] && Upto(v, hi)[|Upto(v, hi)| - 1] == hi - 1
    ensures Upto(v, hi)[..|Upto(v, hi)| - 1] == Upto(v, hi - 1)
  {}

  lemma OneMoreCovered(v: Version, hi: int)
    requires RowsOk(v) && -(v.summaries as int) < hi <= v.calls
    ensures
      Covered(v.steps, Upto(v, hi))
      == if hi - 1 < 0 then Max(Covered(v.steps, Upto(v, hi - 1)), Bound(v, -hi)) else Covered(v.steps, Upto(v, hi - 1))
  {
    OneMore(v, hi);
  }

  lemma {:induction false} CoveredOfLoaded(v: Version, hi: int)
    requires Ok(v) && -(v.summaries as int) <= hi <= v.calls
    ensures Covered(v.steps, Upto(v, hi)) == if hi == -(v.summaries as int) then -1 else LastBound(v)
    decreases hi + v.summaries
  {
    if -(v.summaries as int) < hi {
      OneMoreCovered(v, hi);
      CoveredOfLoaded(v, hi - 1);
      if hi - 1 < 0 {
        var j: nat := -hi;
        assert 0 <= Bound(v, j);
        assert j < v.summaries - 1 ==> Bound(v, j) < Bound(v, v.summaries - 1);
      }
    }
  }

  function Numbers(lo: int, hi: int): (r: seq<int>)
    requires lo <= hi
    ensures |r| == hi - lo && forall i :: 0 <= i < |r| ==> r[i] == lo + i
    decreases hi - lo
  {
    if lo == hi then [] else Numbers(lo, hi - 1) + [hi - 1]
  }

  lemma OneMoreUncovered(v: Version, hi: int, c: int)
    requires RowsOk(v) && -(v.summaries as int) < hi <= v.calls
    ensures
      Uncovered(v.steps, Upto(v, hi), c)
      == Uncovered(v.steps, Upto(v, hi - 1), c) + if 0 <= hi - 1 && c < hi - 1 then [hi - 1] else []
  {
    OneMore(v, hi);
  }

  lemma {:induction false} UncoveredOfLoaded(v: Version, hi: int, c: int)
    requires RowsOk(v) && -(v.summaries as int) <= hi <= v.calls && c >= -1
    ensures Uncovered(v.steps, Upto(v, hi), c) == if hi <= c + 1 then [] else Numbers(c + 1, hi)
    decreases hi + v.summaries
  {
    if -(v.summaries as int) < hi {
      OneMoreUncovered(v, hi, c);
      UncoveredOfLoaded(v, hi - 1, c);
    }
  }

  lemma OneMoreSummary(v: Version, hi: int)
    requires RowsOk(v) && -(v.summaries as int) < hi <= v.calls
    ensures
      Summaries(v.steps, Upto(v, hi)) == Summaries(v.steps, Upto(v, hi - 1)) + if hi - 1 < 0 then 1 else 0
  {
    OneMore(v, hi);
  }

  lemma {:induction false} SummariesOfLoaded(v: Version, hi: int)
    requires RowsOk(v) && -(v.summaries as int) <= hi <= v.calls
    ensures Summaries(v.steps, Upto(v, hi)) == if hi <= 0 then hi + v.summaries else v.summaries
    decreases hi + v.summaries
  {
    if -(v.summaries as int) < hi {
      OneMoreSummary(v, hi);
      SummariesOfLoaded(v, hi - 1);
    }
  }

  lemma CoveredOfAll(v: Version)
    requires Ok(v)
    ensures Covered(v.steps, All(v)) == LastBound(v) && -1 <= LastBound(v)
    ensures LastBound(v) >= 0 ==> LastBound(v) + KEEP_RECENT_STEPS < v.calls
  {
    CoveredOfLoaded(v, v.calls);
    if v.summaries > 0 { assert Bound(v, v.summaries - 1) + KEEP_RECENT_STEPS < v.calls; }
  }

  lemma PlanTakesTheOldest(
    env: Env, rows: map<X.Key, X.Row>, steps: Steps, nos: seq<int>, limit: int, percent: nat, plan: Plan)
    requires Numbered(steps) && AllIn(nos, steps) && PlanOf(env, rows, steps, nos, limit, percent) == Some(plan)
    ensures
      var u := Uncovered(steps, nos, Covered(steps, nos));
      && |u| > KEEP_RECENT_STEPS
      && plan == Plan(-(Summaries(steps, nos) + 1), u[|u| - KEEP_RECENT_STEPS - 1])
  {}

  /** A plan takes the next summary number and leaves exactly the last ten steps. */
  lemma PlanLeavesTen(env: Env, rows: map<X.Key, X.Row>, v: Version, limit: int, percent: nat)
    requires Ok(v)
    ensures
      var plan := PlanOf(env, rows, v.steps, All(v), limit, percent);
      plan.Some? ==>
        && plan.value == Plan(-(v.summaries as int) - 1, v.calls - KEEP_RECENT_STEPS - 1)
        && LastBound(v) < plan.value.coversUpTo
  {
    var plan := PlanOf(env, rows, v.steps, All(v), limit, percent);
    if plan.Some? {
      PlanTakesTheOldest(env, rows, v.steps, All(v), limit, percent, plan.value);
      CoveredOfAll(v);
      UncoveredOfLoaded(v, v.calls, LastBound(v));
      SummariesOfLoaded(v, v.calls);
    }
  }

  // -------------------------------------------------------------- evolution

  datatype Event =
    | AddCall(content: Option<string>, calls: seq<Call>, now: int)
    | Compact(seen: nat, rows: map<X.Key, X.Row>, limit: int, percent: nat, text: string, now: int)

  /** The latest version last. A compaction starts from a version `seen` before. */
  type Past = seq<Version>

  ghost predicate Later(v: Version, w: Version) {
    && v.calls <= w.calls && v.summaries <= w.summaries
    && forall k :: k in v.steps ==> k in w.steps && w.steps[k] == v.steps[k]
  }

  ghost predicate Inv(past: Past) {
    && past != []
    && (forall i :: 0 <= i < |past| ==> Ok(past[i]))
    && (forall i, j :: 0 <= i < j < |past| ==> Later(past[i], past[j]))
  }

  function Last(past: Past): Version
    requires past != []
  {
    past[|past| - 1]
  }

  predicate Enabled(past: Past, e: Event) {
    e.Compact? ==> e.seen < |past|
  }

  /** The unique step number turns a second summary of the same number away. */
  ghost function Next(env: Env, past: Past, e: Event): Past
    requires Inv(past) && Enabled(past, e)
  {
    var v := past[|past| - 1];
    match e
    case AddCall(content, calls, now) =>
      past + [Version(v.steps[v.calls := LlmCall(content, calls, now)], v.calls + 1, v.summaries)]
    case Compact(seen, rows, limit, percent, text, now) =>
      match PlanOf(env, rows, past[seen].steps, All(past[seen]), limit, percent)
      case None => past
      case Some(plan) =>
        match Insert(v.steps, plan, text, now)
        case None => past
        case Some(steps) => past + [Version(steps, v.calls, v.summaries + 1)]
  }

  lemma InsertKeepsOk(v: Version, w: Version, text: string, now: int)
    requires Ok(v) && Ok(w) && Later(v, w) && w.summaries == v.summaries
    requires LastBound(v) < v.calls - KEEP_RECENT_STEPS - 1
    ensures
      var row := Summary(text, v.calls - KEEP_RECENT_STEPS - 1, now);
      var next := Version(w.steps[-(w.summaries as int) - 1 := row], w.calls, w.summaries + 1);
      Ok(next) && Later(w, next)
  {
    var row := Summary(text, v.calls - KEEP_RECENT_STEPS - 1, now);
    var next := Version(w.steps[-(w.summaries as int) - 1 := row], w.calls, w.summaries + 1);
    assert RowsOk(next);
    forall j: nat | j < next.summaries
      ensures 0 <= Bound(next, j) && Bound(next, j) + KEEP_RECENT_STEPS < next.calls
      ensures j < w.summaries ==> Bound(next, j) == Bound(v, j) && Bound(v, j) <= LastBound(v)
    {
      if j < w.summaries {
        assert Bound(w, j) == Bound(v, j);
        assert j < v.summaries - 1 ==> Bound(v, j) < Bound(v, v.summaries - 1);
      }
    }
    assert forall i: nat, j: nat :: i < j < w.summaries ==> Bound(v, i) < Bound(v, j);
  }

  /** A plan made from older steps goes in exactly when no summary was added since. */
  lemma StaleInsert(
    env: Env, rows: map<X.Key, X.Row>, v: Version, w: Version, limit: int, percent: nat, text: string, now: int)
    requires Ok(v) && Ok(w) && Later(v, w)
    requires PlanOf(env, rows, v.steps, All(v), limit, percent).Some?
    ensures
      var plan := PlanOf(env, rows, v.steps, All(v), limit, percent).value;
      && (Insert(w.steps, plan, text, now).Some? <==> w.summaries == v.summaries)
      && (Insert(w.steps, plan, text, now).Some? ==>
            var next := Version(Insert(w.steps, plan, text, now).value, w.calls, w.summaries + 1);
            Ok(next) && Later(w, next))
  {
    PlanLeavesTen(env, rows, v, limit, percent);
    if w.summaries == v.summaries { InsertKeepsOk(v, w, text, now); }
  }

  lemma AddCallKeepsOk(v: Version, content: Option<string>, calls: seq<Call>, now: int)
    requires Ok(v)
    ensures
      var next := Version(v.steps[v.calls := LlmCall(content, calls, now)], v.calls + 1, v.summaries);
      Ok(next) && Later(v, next)
  {
    var next := Version(v.steps[v.calls := LlmCall(content, calls, now)], v.calls + 1, v.summaries);
    assert RowsOk(next);
    assert forall j: nat :: j < v.summaries ==> Bound(next, j) == Bound(v, j);
  }

  lemma LaterIsTransitive(u: Version, v: Version, w: Version)
    requires Later(u, v) && Later(v, w)
    ensures Later(u, w)
  {}

  lemma AppendKeepsInv(past: Past, w: Version)
    requires Inv(past) && Ok(w) && Later(past[|past| - 1], w)
    ensures Inv(past + [w])
  {
    forall i | 0 <= i < |past|
      ensures Later(past[i], w)
    {
      if i < |past| - 1 { LaterIsTransitive(past[i], past[|past| - 1], w); }
    }
  }

  lemma NextKeepsInv(env: Env, past: Past, e: Event)
    requires Inv(past) && Enabled(past, e)
    ensures Inv(Next(env, past, e))
  {
    var v, next := past[|past| - 1], Next(env, past, e);
    match e {
      case AddCall(content, calls, now) => AddCallKeepsOk(v, content, calls, now);
      case Compact(seen, rows, limit, percent, text, now) =>
        if PlanOf(env, rows, past[seen].steps, All(past[seen]), limit, percent).Some? {
          assert seen == |past| - 1 ==> Later(past[seen], v);
          StaleInsert(env, rows, past[seen], v, limit, percent, text, now);
        }
    }
    if next != past { AppendKeepsInv(past, next[|past|]); }
  }

  /** The states reached by a sequence of calls and compactions, from no steps at all. */
  ghost predicate ValidTrace(env: Env, past: Past, trace: seq<Event>)
    requires Inv(past)
    decreases |trace|
  {
    if trace == [] then true
    else Enabled(past, trace[0]) && (NextKeepsInv(env, past, trace[0]); ValidTrace(env, Next(env, past, trace[0]), trace[1..]))
  }

  ghost function Run(env: Env, past: Past, trace: seq<Event>): (r: Past)
    requires Inv(past) && ValidTrace(env, past, trace)
    ensures Inv(r)
    decreases |trace|
  {
    if trace == [] then past
    else
      NextKeepsInv(env, past, trace[0]);
      Run(env, Next(env, past, trace[0]), trace[1..])
  }

  const Empty := [Version(map[], 0, 0)]

  lemma RunCons(env: Env, past: Past, e: Event, rest: seq<Event>)
    requires Inv(past) && Enabled(past, e) && Inv(Next(env, past, e)) && ValidTrace(env, Next(env, past, e), rest)
    ensures ValidTrace(env, past, [e] + rest)
    ensures Run(env, past, [e] + rest) == Run(env, Next(env, past, e), rest)
  {
    assert ([e] + rest)[1..] == rest;
  }

  // --------------------------------------------------------------- theorems

  /** Summary `j` covers the steps after the previous summary's bound, up to its own. */
  ghost predicate Covers(v: Version, j: nat, k: nat)
    requires RowsOk(v)
  {
    j < v.summaries && k <= Bound(v, j) && (j > 0 ==> Bound(v, j - 1) < k)
  }

  lemma {:induction false} SomeSummaryCovers(v: Version, m: nat, k: nat) returns (j: nat)
    requires Ok(v) && 0 < m <= v.summaries && k <= Bound(v, m - 1)
    ensures Covers(v, j, k)
    decreases m
  {
    if m > 1 && k <= Bound(v, m - 2) {
      j := SomeSummaryCovers(v, m - 1, k);
    } else {
      j := m - 1;
    }
  }

  lemma OneSummaryCovers(v: Version, i: nat, j: nat, k: nat)
    requires Ok(v) && Covers(v, i, k) && Covers(v, j, k)
    ensures i == j
  {
    assert forall a: nat, b: nat :: a < b < v.summaries ==> Bound(v, a) < Bound(v, b);
  }

  lemma CoveredIsUnderASummary(v: Version, k: nat)
    requires Ok(v)
    ensures k <= LastBound(v) <==> exists j: nat :: Covers(v, j, k)
  {
    if k <= LastBound(v) { var j := SomeSummaryCovers(v, v.summaries, k); }
    if j: nat :| Covers(v, j, k) {
      assert j < v.summaries - 1 ==> Bound(v, j) < Bound(v, v.summaries - 1);
    }
  }

  /** Step `k` is rendered verbatim or is under exactly one summary, and verbatim if it
      is one of the last ten. */
  ghost predicate ShownOnce(v: Version, k: nat)
    requires Ok(v) && k < v.calls
  {
    && (Visible(v.steps[k], k, Covered(v.steps, All(v))) <==> !exists j: nat :: Covers(v, j, k))
    && (forall i: nat, j: nat :: Covers(v, i, k) && Covers(v, j, k) ==> i == j)
    && (k + KEEP_RECENT_STEPS >= v.calls ==> Visible(v.steps[k], k, Covered(v.steps, All(v))))
  }

  lemma VersionIsPartitioned(v: Version, k: nat)
    requires Ok(v) && k < v.calls
    ensures ShownOnce(v, k)
  {
    CoveredOfAll(v);
    CoveredIsUnderASummary(v, k);
    forall i: nat, j: nat | Covers(v, i, k) && Covers(v, j, k)
      ensures i == j
    {
      OneSummaryCovers(v, i, j, k);
    }
  }

  /** Partition: so it is in every reachable state. */
  lemma StepsArePartitioned(env: Env, trace: seq<Event>, k: nat)
    requires ValidTrace(env, Empty, trace) && k < Last(Run(env, Empty, trace)).calls
    ensures ShownOnce(Last(Run(env, Empty, trace)), k)
  {
    VersionIsPartitioned(Last(Run(env, Empty, trace)), k);
  }

  /** Summaries advance: each compaction that takes effect covers strictly more than all
      before it, leaves exactly ten steps verbatim when nothing ran in between, and a
      second one right after it does nothing. */
  lemma SecondCompactionDoesNothing(env: Env, past: Past, e: Event, again: Event)
    requires Inv(past) && e.Compact? && e.seen == |past| - 1 && Next(env, past, e) != past
    requires again.Compact? && again.seen == |Next(env, past, e)| - 1 && Inv(Next(env, past, e))
    ensures
      var next := Next(env, past, e);
      && LastBound(past[|past| - 1]) < LastBound(next[|next| - 1]) == next[|next| - 1].calls - KEEP_RECENT_STEPS - 1
      && Next(env, next, again) == next
  {
    var v, next := past[|past| - 1], Next(env, past, e);
    var w := next[|next| - 1];
    PlanLeavesTen(env, e.rows, v, e.limit, e.percent);
    assert LastBound(w) == v.calls - KEEP_RECENT_STEPS - 1;
    CoveredOfAll(w);
    UncoveredOfLoaded(w, w.calls, LastBound(w));
  }
}
