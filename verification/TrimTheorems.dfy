/** What both trims of the CLI history guarantee, for every history and every limit. */
module TrimTheorems {
  import opened Domain
  import opened TokenUtils

  // ------------------------------------------------------- what is dropped

  /** What the groups from `g` on weigh without the dropped ones. */
  function KeptSum(weights: seq<nat>, dropped: set<nat>, g: nat): nat
    requires g <= |weights|
    decreases |weights| - g
  {
    if g == |weights| then 0
    else (if g in dropped then 0 else weights[g]) + KeptSum(weights, dropped, g + 1)
  }

  lemma {:induction false} KeptSumWithout(weights: seq<nat>, dropped: set<nat>, h: nat, g: nat)
    requires g <= |weights| && h < |weights| && h !in dropped
    ensures
      KeptSum(weights, dropped, g) == KeptSum(weights, dropped + {h}, g) + if g <= h then weights[h] else 0
    decreases |weights| - g
  {
    if g < |weights| { KeptSumWithout(weights, dropped, h, g + 1); }
  }

  lemma {:induction false} KeptSumShrinks(weights: seq<nat>, d: set<nat>, e: set<nat>, g: nat)
    requires g <= |weights| && forall h :: g <= h < |weights| && h in d ==> h in e
    ensures KeptSum(weights, e, g) <= KeptSum(weights, d, g)
    decreases |weights| - g
  {
    if g < |weights| { KeptSumShrinks(weights, d, e, g + 1); }
  }

  /** Unprotected groups, with every unprotected group that ranks before one of them. */
  ghost predicate RankedPrefix(keys: seq<nat>, safe: seq<bool>, d: set<nat>)
    requires |safe| == |keys|
  {
    && (forall g :: g in d ==> g < |keys| && !safe[g])
    && (forall g, h: nat :: g in d && g < |keys| && h < |keys| && !safe[h] && Before(keys, h, g) ==> h in d)
  }

  ghost predicate AllUnprotected(safe: seq<bool>, d: set<nat>) {
    forall g: nat :: g < |safe| ==> (g in d <==> !safe[g])
  }

  /** Where the loop stands: `gone` is dropped, `order` is what is left to look at. */
  ghost predicate Midway(limit: int, weights: seq<nat>, safe: seq<bool>, keys: seq<nat>, order: seq<nat>, gone: set<nat>) {
    && |weights| == |safe| == |keys| && Within(order, |keys|) && Ranked(keys, order)
    && (forall g :: g in gone ==> g < |keys| && g !in order && !safe[g])
    && (forall g: nat :: g < |keys| && !safe[g] && g !in gone ==> g in order)
    && (forall g: nat, h: nat :: g in gone && g < |keys| && h < |keys| && !safe[h] && Before(keys, h, g) ==> h in gone)
    && KeptSum(weights, gone, 0) > limit
  }

  lemma FirstRanksFirst(keys: seq<nat>, order: seq<nat>)
    requires Within(order, |keys|) && Ranked(keys, order) && order != []
    ensures forall h :: h in order[1..] ==> h in order && Before(keys, order[0], h)
    ensures forall h :: h in order && h != order[0] ==> h in order[1..]
  {
    forall h | h in order[1..]
      ensures h in order && Before(keys, order[0], h)
    {
      var i :| 0 <= i < |order| - 1 && order[1..][i] == h;
      assert order[i + 1] == h;
    }
    forall h | h in order && h != order[0]
      ensures h in order[1..]
    {
      var i :| 0 <= i < |order| && order[i] == h;
      assert order[1..][i - 1] == h;
    }
  }

  lemma MidwayGoesOn(
    limit: int, weights: seq<nat>, safe: seq<bool>, keys: seq<nat>, order: seq<nat>, gone: set<nat>, next: set<nat>)
    requires Midway(limit, weights, safe, keys, order, gone) && order != []
    requires next == (if safe[order[0]] then gone else gone + {order[0]}) && KeptSum(weights, next, 0) > limit
    ensures Midway(limit, weights, safe, keys, order[1..], next)
  {
    FirstRanksFirst(keys, order);
  }

  /** The loop's step on an unprotected group. */
  lemma DropsOne(limit: int, weights: seq<nat>, safe: seq<bool>, keys: seq<nat>, order: seq<nat>, gone: set<nat>)
    requires Midway(limit, weights, safe, keys, order, gone) && order != [] && !safe[order[0]]
    ensures
      var o, next := order[0], gone + {order[0]};
      var rest := KeptSum(weights, next, 0);
      gone + Dropped(limit, weights, safe, order, KeptSum(weights, gone, 0))
      == if rest <= limit then next else next + Dropped(limit, weights, safe, order[1..], rest)
  {
    KeptSumWithout(weights, gone, order[0], 0);
  }

  /** The set of dropped groups is a prefix of the ranking, and it fits, or leaves only
      protected groups. */
  lemma {:induction false} DroppedIsPrefix(
    limit: int, weights: seq<nat>, safe: seq<bool>, keys: seq<nat>, order: seq<nat>, gone: set<nat>)
    requires Midway(limit, weights, safe, keys, order, gone)
    ensures
      var d := gone + Dropped(limit, weights, safe, order, KeptSum(weights, gone, 0));
      RankedPrefix(keys, safe, d) && (KeptSum(weights, d, 0) <= limit || AllUnprotected(safe, d))
    decreases |order|
  {
    if order != [] {
      if safe[order[0]] {
        MidwayGoesOn(limit, weights, safe, keys, order, gone, gone);
        DroppedIsPrefix(limit, weights, safe, keys, order[1..], gone);
      } else {
        var next := gone + {order[0]};
        DropsOne(limit, weights, safe, keys, order, gone);
        if KeptSum(weights, next, 0) <= limit {
          FirstRanksFirst(keys, order);
        } else {
          MidwayGoesOn(limit, weights, safe, keys, order, gone, next);
          DroppedIsPrefix(limit, weights, safe, keys, order[1..], next);
        }
      }
    }
  }

  /** And it is contained in every prefix whose removal fits. */
  lemma {:induction false} DroppedIsLeast(
    limit: int, weights: seq<nat>, safe: seq<bool>, keys: seq<nat>, order: seq<nat>, gone: set<nat>, e: set<nat>)
    requires Midway(limit, weights, safe, keys, order, gone)
    requires RankedPrefix(keys, safe, e) && KeptSum(weights, e, 0) <= limit && gone <= e
    ensures gone + Dropped(limit, weights, safe, order, KeptSum(weights, gone, 0)) <= e
    decreases |order|
  {
    if order != [] {
      if safe[order[0]] {
        MidwayGoesOn(limit, weights, safe, keys, order, gone, gone);
        DroppedIsLeast(limit, weights, safe, keys, order[1..], gone, e);
      } else {
        var next := gone + {order[0]};
        DropsOne(limit, weights, safe, keys, order, gone);
        NextIsNeeded(limit, weights, safe, keys, order, gone, e);
        if KeptSum(weights, next, 0) > limit {
          MidwayGoesOn(limit, weights, safe, keys, order, gone, next);
          DroppedIsLeast(limit, weights, safe, keys, order[1..], next, e);
        }
      }
    }
  }

  /** A fitting prefix that holds what is gone also holds the next candidate. */
  lemma NextIsNeeded(
    limit: int, weights: seq<nat>, safe: seq<bool>, keys: seq<nat>, order: seq<nat>, gone: set<nat>, e: set<nat>)
    requires Midway(limit, weights, safe, keys, order, gone) && order != [] && !safe[order[0]]
    requires RankedPrefix(keys, safe, e) && KeptSum(weights, e, 0) <= limit
    ensures order[0] in e
  {
    FirstRanksFirst(keys, order);
    if forall g :: g in e ==> g in gone {
      KeptSumShrinks(weights, e, gone, 0);
    } else {
      var g :| g in e && g !in gone;
      assert g in order;
    }
  }

  // ------------------------------------------------------------ what is left

  lemma {:induction false} SumConcat(weight: Message -> nat, a: seq<Message>, b: seq<Message>)
    ensures Sum(weight, a + b) == Sum(weight, a) + Sum(weight, b)
    decreases |b|
  {
    if b == [] {
      assert a + b == a;
    } else {
      var n := |b| - 1;
      SumConcat(weight, a, b[..n]);
      assert (a + b)[..|a + b| - 1] == a + b[..n];
    }
  }

  lemma WeighConcat(w: Measure, a: seq<Message>, b: seq<Message>)
    ensures Weigh(w, a + b) == Weigh(w, a) + Weigh(w, b)
  {
    SumConcat(m => Weight(w, m), a, b);
  }

  lemma KeptStep(w: Measure, ms: seq<Message>, groups: seq<Span>, dropped: set<nat>, g: nat)
    requires Inside(groups, |ms|) && g < |groups|
    ensures
      Weigh(w, Kept(ms, groups, dropped, g))
      == (if g in dropped then 0 else Weigh(w, ms[groups[g].lo..groups[g].hi]))
         + Weigh(w, Kept(ms, groups, dropped, g + 1))
  {
    if g !in dropped {
      WeighConcat(w, ms[groups[g].lo..groups[g].hi], Kept(ms, groups, dropped, g + 1));
    }
  }

  lemma {:induction false} KeptSumsUp(
    w: Measure, ms: seq<Message>, groups: seq<Span>, weights: seq<nat>, dropped: set<nat>, g: nat)
    requires Inside(groups, |ms|) && g <= |groups| && weights == Weights(w, ms, groups)
    ensures Weigh(w, Kept(ms, groups, dropped, g)) == KeptSum(weights, dropped, g)
    decreases |groups| - g
  {
    if g < |groups| {
      KeptStep(w, ms, groups, dropped, g);
      KeptSumsUp(w, ms, groups, weights, dropped, g + 1);
    }
  }

  lemma KeptWeighs(w: Measure, ms: seq<Message>, groups: seq<Span>, dropped: set<nat>)
    requires Inside(groups, |ms|)
    ensures Weigh(w, Kept(ms, groups, dropped, 0)) == KeptSum(Weights(w, ms, groups), dropped, 0)
  {
    KeptSumsUp(w, ms, groups, Weights(w, ms, groups), dropped, 0);
  }

  /** What a trim drops, seen as a set of groups of the history it is given. */
  lemma DropsTheLeastPrefix(json: Json, keep: Preserve, w: Measure, ms: seq<Message>, limit: int, e: set<nat>)
    ensures
      var groups, d := Groups(ms, 0), DroppedGroups(json, keep, w, ms, limit);
      && Inside(groups, |ms|)
      && RankedPrefix(Keys(json, ms, groups), Safe(keep, ms, groups), d)
      && (Weigh(w, Trimmed(json, keep, w, ms, limit)) <= limit || AllUnprotected(Safe(keep, ms, groups), d))
      && (RankedPrefix(Keys(json, ms, groups), Safe(keep, ms, groups), e) && Weigh(w, Kept(ms, groups, e, 0)) <= limit ==>
            d <= e)
  {
    GroupsTile(ms, 0);
    var groups := Groups(ms, 0);
    var weights, safe, keys := Weights(w, ms, groups), Safe(keep, ms, groups), Keys(json, ms, groups);
    var order, none: set<nat> := Ranking(keys, |groups|), {};
    KeptWeighs(w, ms, groups, DroppedGroups(json, keep, w, ms, limit));
    if Weigh(w, ms) > limit {
      KeptOfNoneDropped(ms, groups, 0);
      KeptWeighs(w, ms, groups, none);
      RankingIsRanked(keys, |groups|);
      assert Midway(limit, weights, safe, keys, order, none);
      DroppedIsPrefix(limit, weights, safe, keys, order, none);
      assert none + DroppedGroups(json, keep, w, ms, limit) == DroppedGroups(json, keep, w, ms, limit);
      KeptWeighs(w, ms, groups, e);
      if RankedPrefix(keys, safe, e) && KeptSum(weights, e, 0) <= limit {
        DroppedIsLeast(limit, weights, safe, keys, order, none, e);
      }
    } else {
      FittingIsUntouched(json, keep, w, ms, limit);
    }
  }

  // --------------------------------------------------------------- pairing

  function CallIds(calls: seq<Call>): seq<Option<string>> {
    seq(|calls|, i requires 0 <= i < |calls| => Some(calls[i].id))
  }

  function ResultIds(results: seq<Message>): seq<Option<string>> {
    seq(|results|, i requires 0 <= i < |results| => results[i].toolCallId)
  }

  predicate AllResults(ms: seq<Message>) {
    forall i :: 0 <= i < |ms| ==> ms[i].role.ToolResult?
  }

  /** One result for each call, in any order. */
  predicate Answers(results: seq<Message>, calls: seq<Call>) {
    && |results| == |calls| && AllResults(results)
    && multiset(ResultIds(results)) == multiset(CallIds(calls))
  }

  /** How many messages a message takes with its results. */
  function Extent(m: Message): nat {
    if Requests(m) then |m.toolCalls| + 1 else 1
  }

  /** The first message is a request with exactly its results behind it, or is plain. */
  predicate HeadPaired(ms: seq<Message>)
    requires ms != []
  {
    if Requests(ms[0]) then Extent(ms[0]) <= |ms| && Answers(ms[1..Extent(ms[0])], ms[0].toolCalls)
    else !ms[0].role.ToolResult?
  }

  /** Each tool request is followed directly by exactly its results, and no result
      stands anywhere else. */
  predicate WellPaired(ms: seq<Message>)
    decreases |ms|
  {
    ms == [] || (HeadPaired(ms) && WellPaired(ms[Extent(ms[0])..]))
  }

  lemma HeadOfConcat(a: seq<Message>, b: seq<Message>)
    requires a != [] && HeadPaired(a)
    ensures HeadPaired(a + b) && (a + b)[Extent(a[0])..] == a[Extent(a[0])..] + b
  {
    assert (a + b)[1..Extent(a[0])] == a[1..Extent(a[0])];
  }

  lemma {:induction false} PairedConcat(a: seq<Message>, b: seq<Message>)
    requires WellPaired(a) && WellPaired(b)
    ensures WellPaired(a + b)
    decreases |a|
  {
    if a == [] {
      assert a + b == b;
    } else {
      HeadOfConcat(a, b);
      PairedConcat(a[Extent(a[0])..], b);
    }
  }

  lemma RequestWithResults(request: Message, results: seq<Message>)
    requires if Requests(request) then Answers(results, request.toolCalls)
             else !request.role.ToolResult? && results == []
    ensures WellPaired([request] + results)
  {
    var ms := [request] + results;
    assert ms[1..Extent(request)] == results;
    assert ms[Extent(request)..] == [];
  }

  /** The group of a request ends where its results do. */
  lemma ResultsEndTheGroup(ms: seq<Message>, i: nat)
    requires i < |ms| && WellPaired(ms[i..]) && Requests(ms[i])
    ensures GroupEnd(ms, i) == i + 1 + |ms[i].toolCalls|
  {
    var tail, n := ms[i..], |ms[i].toolCalls| + 1;
    assert forall k :: i + 1 <= k < i + n ==> ms[k] == tail[1..n][k - i - 1] && ms[k].role.ToolResult?;
    assert i + n < |ms| ==> tail[n..][0] == ms[i + n] && !ms[i + n].role.ToolResult?;
  }

  /** The first group of a well-paired history is a request with exactly its results. */
  lemma FirstGroupIsPaired(ms: seq<Message>, i: nat)
    requires i < |ms| && WellPaired(ms[i..])
    ensures WellPaired(ms[i..GroupEnd(ms, i)]) && WellPaired(ms[GroupEnd(ms, i)..])
  {
    var tail, n := ms[i..], GroupEnd(ms, i) - i;
    if Requests(ms[i]) { ResultsEndTheGroup(ms, i); }
    assert tail[n..] == ms[i + n..];
    assert tail[..n] == ms[i..i + n];
    PrefixIsPaired(tail, n);
  }

  lemma PrefixIsPaired(ms: seq<Message>, n: nat)
    requires ms != [] && WellPaired(ms)
    requires n == Extent(ms[0])
    ensures n <= |ms| && WellPaired(ms[..n]) && WellPaired(ms[n..])
  {
    assert ms[..n][1..n] == ms[1..n];
    assert ms[..n][n..] == [];
  }

  lemma {:induction false} KeptIsPaired(ms: seq<Message>, i: nat, dropped: set<nat>, g: nat)
    requires i <= |ms| && WellPaired(ms[i..])
    requires Inside(Groups(ms, 0), |ms|) && g <= |Groups(ms, 0)| && Groups(ms, 0)[g..] == Groups(ms, i)
    ensures WellPaired(Kept(ms, Groups(ms, 0), dropped, g))
    decreases |ms| - i
  {
    if i < |ms| {
      var groups, j := Groups(ms, 0), GroupEnd(ms, i);
      FirstGroupIsPaired(ms, i);
      assert groups[g] == groups[g..][0] == Span(i, j);
      assert groups[g + 1..] == groups[g..][1..] == Groups(ms, j);
      KeptIsPaired(ms, j, dropped, g + 1);
      PairedConcat(ms[i..j], Kept(ms, groups, dropped, g + 1));
    }
  }

  /** A trim never parts a tool request from its results. */
  lemma TrimKeepsPairing(json: Json, keep: Preserve, w: Measure, ms: seq<Message>, limit: int)
    requires WellPaired(ms)
    ensures WellPaired(Trimmed(json, keep, w, ms, limit))
  {
    GroupsTile(ms, 0);
    assert ms[0..] == ms;
    KeptIsPaired(ms, 0, DroppedGroups(json, keep, w, ms, limit), 0);
  }

  // ----------------------------------------------------------- subsequence

  /** `out` is `ms` with some messages left out: the rest keep their order. */
  ghost predicate Subsequence(out: seq<Message>, ms: seq<Message>)
    decreases |ms|
  {
    if ms == [] then out == []
    else Subsequence(out, ms[1..]) || (out != [] && out[0] == ms[0] && Subsequence(out[1..], ms[1..]))
  }

  lemma {:induction false} SelectIsSubsequence(ms: seq<Message>, indices: set<nat>, i: nat)
    requires i <= |ms|
    ensures Subsequence(Select(ms, indices, i), ms[i..])
    decreases |ms| - i
  {
    if i < |ms| {
      SelectIsSubsequence(ms, indices, i + 1);
      var out, rest := Select(ms, indices, i), Select(ms, indices, i + 1);
      assert ms[i..][1..] == ms[i + 1..];
      if i in indices { assert out[1..] == rest; }
    }
  }

  lemma TrimIsSubsequence(json: Json, keep: Preserve, w: Measure, ms: seq<Message>, limit: int)
    ensures Subsequence(Trimmed(json, keep, w, ms, limit), ms)
  {
    GroupsTile(ms, 0);
    var dropped := DroppedGroups(json, keep, w, ms, limit);
    KeptIsSelected(ms, Groups(ms, 0), dropped, 0);
    SelectIsSubsequence(ms, KeptIndices(Groups(ms, 0), |ms|, dropped), 0);
    assert ms[0..] == ms;
    if ms != [] { assert Groups(ms, 0)[0].lo == 0; }
  }

  lemma {:induction false} SubsequenceOfSubsequence(a: seq<Message>, b: seq<Message>, c: seq<Message>)
    requires Subsequence(a, b) && Subsequence(b, c)
    ensures Subsequence(a, c)
    decreases |c|
  {
    if c != [] {
      if Subsequence(b, c[1..]) {
        SubsequenceOfSubsequence(a, b, c[1..]);
      } else if Subsequence(a, b[1..]) {
        SubsequenceOfSubsequence(a, b[1..], c[1..]);
      } else {
        SubsequenceOfSubsequence(a[1..], b[1..], c[1..]);
      }
    }
  }

  lemma {:induction false} SubsequenceIsNoLonger(a: seq<Message>, b: seq<Message>)
    requires Subsequence(a, b)
    ensures |a| <= |b|
    decreases |b|
  {
    if b != [] {
      if Subsequence(a, b[1..]) { SubsequenceIsNoLonger(a, b[1..]); } else { SubsequenceIsNoLonger(a[1..], b[1..]); }
    }
  }

  // ------------------------------------------------------------- protection

  function Systems(ms: seq<Message>): seq<Message> {
    if ms == [] then []
    else Systems(ms[..|ms| - 1]) + if ms[|ms| - 1].role.System? then [ms[|ms| - 1]] else []
  }

  function LatestUser(ms: seq<Message>): Option<Message> {
    if AfterLatestUser(ms) > 0 then Some(ms[AfterLatestUser(ms) - 1]) else None
  }

  lemma {:induction false} SystemsConcat(a: seq<Message>, b: seq<Message>)
    ensures Systems(a + b) == Systems(a) + Systems(b)
    decreases |b|
  {
    if b == [] {
      assert a + b == a;
    } else {
      var n := |b| - 1;
      SystemsConcat(a, b[..n]);
      assert (a + b)[..|a + b| - 1] == a + b[..n];
    }
  }

  lemma {:induction false} NoSystems(ms: seq<Message>)
    requires forall i :: 0 <= i < |ms| ==> !ms[i].role.System?
    ensures Systems(ms) == []
  {
    if ms != [] { NoSystems(ms[..|ms| - 1]); }
  }

  lemma {:induction false} AfterLatestUserConcat(a: seq<Message>, b: seq<Message>)
    ensures
      AfterLatestUser(a + b)
      == if AfterLatestUser(b) > 0 then |a| + AfterLatestUser(b) else AfterLatestUser(a)
    decreases |b|
  {
    if b == [] {
      assert a + b == a;
    } else {
      var n := |b| - 1;
      AfterLatestUserConcat(a, b[..n]);
      assert (a + b)[..|a + b| - 1] == a + b[..n];
    }
  }

  /** Only unprotected groups are dropped. */
  ghost predicate SparesProtected(keep: Preserve, ms: seq<Message>, groups: seq<Span>, dropped: set<nat>)
    requires Inside(groups, |ms|)
  {
    forall g: nat :: g < |groups| && g in dropped ==> !ProtectsGroup(keep, ms, groups[g])
  }

  lemma Cut(ms: seq<Message>, lo: nat, hi: nat)
    requires lo <= hi <= |ms|
    ensures ms[lo..] == ms[lo..hi] + ms[hi..]
  {}

  lemma SystemsOfCut(ms: seq<Message>, lo: nat, hi: nat)
    requires lo <= hi <= |ms|
    ensures Systems(ms[lo..]) == Systems(ms[lo..hi]) + Systems(ms[hi..])
  {
    SystemsConcat(ms[lo..hi], ms[hi..]);
    Cut(ms, lo, hi);
  }

  /** An unprotected group has no system message. */
  lemma DroppedHoldsNoSystem(keep: Preserve, ms: seq<Message>, lo: nat, hi: nat)
    requires keep.system && lo < hi <= |ms| && !ProtectsGroup(keep, ms, Span(lo, hi))
    ensures Systems(ms[lo..hi]) == []
  {
    forall i | 0 <= i < hi - lo
      ensures !ms[lo..hi][i].role.System?
    {
      assert !Protects(keep, ms, lo + i);
    }
    NoSystems(ms[lo..hi]);
  }

  /** Each group starts where the one before ends. */
  ghost predicate Abuts(groups: seq<Span>, n: nat) {
    forall g :: 0 <= g < |groups| ==> MeetsNext(groups, n, g)
  }

  predicate MeetsNext(groups: seq<Span>, n: nat, g: nat)
    requires g < |groups|
  {
    groups[g].lo < groups[g].hi == Start(groups, n, g + 1) <= n
  }

  lemma TilesAbut(groups: seq<Span>, n: nat)
    requires Tiles(groups, 0, n)
    ensures Abuts(groups, n)
  {
    forall g | 0 <= g < |groups|
      ensures MeetsNext(groups, n, g)
    {
      NextStart(groups, n, g);
    }
  }

  lemma GroupSparesSystems(keep: Preserve, ms: seq<Message>, lo: nat, hi: nat, rest: seq<Message>, dropped: bool)
    requires keep.system && lo < hi <= |ms| && Systems(rest) == Systems(ms[hi..])
    requires dropped ==> !ProtectsGroup(keep, ms, Span(lo, hi))
    ensures Systems(if dropped then rest else ms[lo..hi] + rest) == Systems(ms[lo..])
  {
    SystemsOfCut(ms, lo, hi);
    if dropped { DroppedHoldsNoSystem(keep, ms, lo, hi); } else { SystemsConcat(ms[lo..hi], rest); }
  }

  lemma {:induction false} KeptSparesSystems(
    keep: Preserve, ms: seq<Message>, groups: seq<Span>, dropped: set<nat>, g: nat)
    requires Abuts(groups, |ms|) && Inside(groups, |ms|) && g <= |groups| && keep.system
    requires SparesProtected(keep, ms, groups, dropped)
    ensures Start(groups, |ms|, g) <= |ms|
    ensures Systems(Kept(ms, groups, dropped, g)) == Systems(ms[Start(groups, |ms|, g)..])
    decreases |groups| - g
  {
    if g < |groups| {
      assert MeetsNext(groups, |ms|, g);
      KeptSparesSystems(keep, ms, groups, dropped, g + 1);
      GroupSparesSystems(keep, ms, groups[g].lo, groups[g].hi, Kept(ms, groups, dropped, g + 1), g in dropped);
    }
  }

  lemma LatestOfSuffix(ms: seq<Message>, lo: nat)
    requires lo <= |ms| && AfterLatestUser(ms[lo..]) > 0
    ensures AfterLatestUser(ms) == lo + AfterLatestUser(ms[lo..])
  {
    AfterLatestUserConcat(ms[..lo], ms[lo..]);
    assert ms == ms[..lo] + ms[lo..];
  }

  lemma LatestOfMiddle(ms: seq<Message>, lo: nat, hi: nat)
    requires lo < hi <= |ms| && AfterLatestUser(ms[hi..]) == 0 && AfterLatestUser(ms[lo..hi]) > 0
    ensures AfterLatestUser(ms) == lo + AfterLatestUser(ms[lo..hi])
  {
    Cut(ms, lo, hi);
    AfterLatestUserConcat(ms[lo..hi], ms[hi..]);
    LatestOfSuffix(ms, lo);
  }

  /** An unprotected group with no user after it has no user in it. */
  lemma DroppedHoldsNoLatest(keep: Preserve, ms: seq<Message>, lo: nat, hi: nat)
    requires keep.latestUser && lo < hi <= |ms| && !ProtectsGroup(keep, ms, Span(lo, hi))
    requires AfterLatestUser(ms[hi..]) == 0
    ensures AfterLatestUser(ms[lo..hi]) == 0
  {
    if AfterLatestUser(ms[lo..hi]) > 0 {
      LatestOfMiddle(ms, lo, hi);
    }
    var n := AfterLatestUser(ms);
    assert lo < n <= hi ==> Protects(keep, ms, n - 1);
  }

  lemma LatestOfConcat(a: seq<Message>, b: seq<Message>)
    ensures LatestUser(a + b) == if LatestUser(b) == None then LatestUser(a) else LatestUser(b)
  {
    AfterLatestUserConcat(a, b);
  }

  lemma GroupSparesLatest(keep: Preserve, ms: seq<Message>, lo: nat, hi: nat, rest: seq<Message>, dropped: bool)
    requires keep.latestUser && lo < hi <= |ms| && LatestUser(rest) == LatestUser(ms[hi..])
    requires dropped ==> !ProtectsGroup(keep, ms, Span(lo, hi))
    ensures LatestUser(if dropped then rest else ms[lo..hi] + rest) == LatestUser(ms[lo..])
  {
    LatestOfCut(ms, lo, hi);
    LatestOfConcat(ms[lo..hi], rest);
    if dropped && LatestUser(ms[hi..]) == None { DroppedHoldsNoLatest(keep, ms, lo, hi); }
  }

  lemma LatestOfCut(ms: seq<Message>, lo: nat, hi: nat)
    requires lo <= hi <= |ms|
    ensures LatestUser(ms[lo..]) == if LatestUser(ms[hi..]) == None then LatestUser(ms[lo..hi]) else LatestUser(ms[hi..])
  {
    LatestOfConcat(ms[lo..hi], ms[hi..]);
    Cut(ms, lo, hi);
  }

  lemma {:induction false} KeptSparesLatest(
    keep: Preserve, ms: seq<Message>, groups: seq<Span>, dropped: set<nat>, g: nat)
    requires Abuts(groups, |ms|) && Inside(groups, |ms|) && g <= |groups| && keep.latestUser
    requires SparesProtected(keep, ms, groups, dropped)
    ensures Start(groups, |ms|, g) <= |ms|
    ensures LatestUser(Kept(ms, groups, dropped, g)) == LatestUser(ms[Start(groups, |ms|, g)..])
    decreases |groups| - g
  {
    if g < |groups| {
      assert MeetsNext(groups, |ms|, g);
      KeptSparesLatest(keep, ms, groups, dropped, g + 1);
      GroupSparesLatest(keep, ms, groups[g].lo, groups[g].hi, Kept(ms, groups, dropped, g + 1), g in dropped);
    }
  }

  lemma DroppedSparesProtected(json: Json, keep: Preserve, w: Measure, ms: seq<Message>, limit: int)
    ensures Inside(Groups(ms, 0), |ms|)
    ensures SparesProtected(keep, ms, Groups(ms, 0), DroppedGroups(json, keep, w, ms, limit))
  {
    GroupsTile(ms, 0);
  }

  /** Every system message is kept, in order, and so is the latest user message. */
  lemma TrimKeepsProtected(json: Json, keep: Preserve, w: Measure, ms: seq<Message>, limit: int)
    ensures
      var out := Trimmed(json, keep, w, ms, limit);
      && (keep.system ==> Systems(out) == Systems(ms))
      && (keep.latestUser ==> LatestUser(out) == LatestUser(ms))
  {
    var groups, dropped := Groups(ms, 0), DroppedGroups(json, keep, w, ms, limit);
    GroupsTile(ms, 0);
    DroppedSparesProtected(json, keep, w, ms, limit);
    TilesAbut(groups, |ms|);
    if keep.system { KeptSparesSystems(keep, ms, groups, dropped, 0); }
    if keep.latestUser { KeptSparesLatest(keep, ms, groups, dropped, 0); }
    assert ms[0..] == ms;
    if ms != [] { assert groups[0].lo == 0; }
  }

  // ------------------------------------------------------------- idempotence

  ghost predicate OnlyProtected(keep: Preserve, ms: seq<Message>) {
    forall i: nat :: i < |ms| ==> Protects(keep, ms, i)
  }

  /** A protected group is a single system or user message. */
  lemma ProtectedGroupIsSingle(keep: Preserve, ms: seq<Message>, lo: nat)
    requires lo < |ms| && ProtectsGroup(keep, ms, Span(lo, GroupEnd(ms, lo)))
    ensures GroupEnd(ms, lo) == lo + 1 && Protects(keep, ms, lo)
  {
    var i :| lo <= i < GroupEnd(ms, lo) && Protects(keep, ms, i);
    assert !ms[i].role.ToolResult?;
  }

  lemma AddProtected(keep: Preserve, ms: seq<Message>, i: nat, rest: seq<Message>)
    requires i < |ms| && Protects(keep, ms, i) && OnlyProtected(keep, rest)
    requires keep.latestUser ==> LatestUser(rest) == LatestUser(ms[i + 1..])
    ensures OnlyProtected(keep, [ms[i]] + rest)
  {
    var out := [ms[i]] + rest;
    AfterLatestUserConcat([ms[i]], rest);
    if keep.latestUser && i + 1 == AfterLatestUser(ms) {
      AfterLatestUserConcat(ms[..i + 1], ms[i + 1..]);
      assert ms == ms[..i + 1] + ms[i + 1..];
      assert AfterLatestUser(rest) == 0 && AfterLatestUser([ms[i]]) == 1;
    }
    forall k: nat | 0 < k < |out|
      ensures Protects(keep, out, k)
    {
      assert Protects(keep, rest, k - 1);
    }
  }

  lemma {:induction false} OnlyProtectedStay(keep: Preserve, ms: seq<Message>, groups: seq<Span>, dropped: set<nat>, g: nat)
    requires Abuts(groups, |ms|) && Inside(groups, |ms|) && g <= |groups|
    requires forall k :: 0 <= k < |groups| ==> groups[k].hi == GroupEnd(ms, groups[k].lo)
    requires AllUnprotected(Safe(keep, ms, groups), dropped)
    ensures OnlyProtected(keep, Kept(ms, groups, dropped, g))
    decreases |groups| - g
  {
    if g < |groups| {
      var lo, rest := groups[g].lo, Kept(ms, groups, dropped, g + 1);
      OnlyProtectedStay(keep, ms, groups, dropped, g + 1);
      if g !in dropped {
        assert Safe(keep, ms, groups)[g];
        ProtectedGroupIsSingle(keep, ms, lo);
        assert MeetsNext(groups, |ms|, g);
        assert ms[lo..lo + 1] == [ms[lo]];
        if keep.latestUser { KeptSparesLatest(keep, ms, groups, dropped, g + 1); }
        AddProtected(keep, ms, lo, rest);
      }
    }
  }

  lemma {:induction false} NothingToDrop(limit: int, weights: seq<nat>, safe: seq<bool>, order: seq<nat>, total: int)
    requires |safe| == |weights| && Within(order, |weights|) && forall g: nat :: g < |safe| ==> safe[g]
    ensures Dropped(limit, weights, safe, order, total) == {}
    decreases |order|
  {
    if order != [] { NothingToDrop(limit, weights, safe, order[1..], total); }
  }

  lemma OnlyProtectedIsUntouched(json: Json, keep: Preserve, w: Measure, ms: seq<Message>, limit: int)
    requires OnlyProtected(keep, ms)
    ensures Trimmed(json, keep, w, ms, limit) == ms
  {
    GroupsTile(ms, 0);
    var groups := Groups(ms, 0);
    forall g: nat | g < |groups|
      ensures Safe(keep, ms, groups)[g]
    {
      assert Protects(keep, ms, groups[g].lo);
    }
    NothingToDrop(limit, Weights(w, ms, groups), Safe(keep, ms, groups),
                  Ranking(Keys(json, ms, groups), |groups|), Weigh(w, ms));
    KeptOfNoneDropped(ms, groups, 0);
  }

  /** A trim fits the limit or leaves only protected messages; so trimming again does
      nothing. */
  lemma TrimFitsOrOnlyProtected(json: Json, keep: Preserve, w: Measure, ms: seq<Message>, limit: int)
    ensures
      var out := Trimmed(json, keep, w, ms, limit);
      && (Weigh(w, out) <= limit || OnlyProtected(keep, out))
      && Trimmed(json, keep, w, out, limit) == out
  {
    var out, groups := Trimmed(json, keep, w, ms, limit), Groups(ms, 0);
    var dropped := DroppedGroups(json, keep, w, ms, limit);
    DropsTheLeastPrefix(json, keep, w, ms, limit, {});
    if Weigh(w, out) <= limit {
      FittingIsUntouched(json, keep, w, out, limit);
    } else {
      GroupsTile(ms, 0);
      TilesAbut(groups, |ms|);
      OnlyProtectedStay(keep, ms, groups, dropped, 0);
      OnlyProtectedIsUntouched(json, keep, w, out, limit);
    }
  }
}
