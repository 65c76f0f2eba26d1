/** Message importance, atomic groups, and the two trims of the CLI loop's history.

    Both trims drop whole groups in order of (score, position) until the rest fits.
    They differ in what a message weighs: one, or its estimated tokens. */
module TokenUtils {
  import opened Domain

  datatype Role = System | User | Assistant | ToolResult

  datatype Message = Message(
    role: Role,
    content: Option<string>,
    toolCalls: seq<Call>,
    toolCallId: Option<string>,
    name: Option<string>)

  /** What parsing a tool result as JSON tells the ranking. */
  datatype Reading = Reading(failed: bool, verified: bool)

  /** The JSON library, as far as it is looked at: reading a result and rendering calls. */
  datatype Json = Json(read: string -> Reading, render: seq<Call> -> string)

  // ------------------------------------------------------------- estimates

  function Text(o: Option<string>): string {
    if o.Some? then o.value else ""
  }

  predicate CodeChar(c: char) {
    c in "{}[]()=;|&<>!+-*/%:\\'\""
  }

  function CodeChars(s: string): nat {
    if s == "" then 0 else CodeChars(s[1..]) + if CodeChar(s[0]) then 1 else 0
  }

  /** More than three in a hundred characters are code. */
  predicate MostlyCode(s: string) {
    s != "" && 100 * CodeChars(s) > 3 * |s|
  }

  function Rendered(json: Json, m: Message): string {
    Text(m.content)
    + (if m.toolCalls != [] then json.render(m.toolCalls) else "")
    + (if Text(m.name) != "" then "\n[" + Text(m.name) + "]" else "")
    + (if Text(m.toolCallId) != "" then "\n(id: " + Text(m.toolCallId) + ")" else "")
  }

  /** 3.5 characters to a token of code, 4 otherwise, and 4 tokens for the message. */
  function EstimateMessageTokens(json: Json, m: Message): (n: nat)
    ensures n >= 1
  {
    var s := Rendered(json, m);
    Max(1, 4 + if MostlyCode(s) then 2 * |s| / 7 else |s| / 4)
  }

  function Score(json: Json, m: Message): nat {
    var base := match m.role case System => 1000 case User => 500 case Assistant => 300 case ToolResult => 100;
    if m.role.ToolResult? && Text(m.content) != "" then
      var reading := json.read(Text(m.content));
      base + (if reading.failed then 150 else 0) + (if reading.verified then 100 else 0)
    else base
  }

  // ---------------------------------------------------------------- groups

  datatype Span = Span(lo: nat, hi: nat)

  predicate Requests(m: Message) {
    m.role.Assistant? && m.toolCalls != []
  }

  /** The end of the tool results that start at `i`. */
  function ToolsEnd(ms: seq<Message>, i: nat): (j: nat)
    requires i <= |ms|
    ensures i <= j <= |ms| && (forall k :: i <= k < j ==> ms[k].role.ToolResult?)
    ensures j < |ms| ==> !ms[j].role.ToolResult?
    decreases |ms| - i
  {
    if i < |ms| && ms[i].role.ToolResult? then ToolsEnd(ms, i + 1) else i
  }

  function GroupEnd(ms: seq<Message>, i: nat): (j: nat)
    requires i < |ms|
    ensures i < j <= |ms|
  {
    if Requests(ms[i]) then ToolsEnd(ms, i + 1) else i + 1
  }

  /** An assistant request with every tool result that follows it, else one message. */
  function Groups(ms: seq<Message>, i: nat): seq<Span>
    requires i <= |ms|
    decreases |ms| - i
  {
    if i == |ms| then [] else [Span(i, GroupEnd(ms, i))] + Groups(ms, GroupEnd(ms, i))
  }

  /** The spans lie end to end from `i` to the end of the messages. */
  predicate Tiles(groups: seq<Span>, i: nat, n: nat) {
    if groups == [] then i == n
    else groups[0].lo == i < groups[0].hi <= n && Tiles(groups[1..], groups[0].hi, n)
  }

  predicate Inside(groups: seq<Span>, n: nat) {
    forall k :: 0 <= k < |groups| ==> groups[k].lo < groups[k].hi <= n
  }

  lemma {:induction false} GroupsTile(ms: seq<Message>, i: nat)
    requires i <= |ms|
    ensures Tiles(Groups(ms, i), i, |ms|) && Inside(Groups(ms, i), |ms|)
    ensures forall g :: 0 <= g < |Groups(ms, i)| ==>
      var s := Groups(ms, i)[g];
      i <= s.lo < s.hi <= |ms| && s.hi == GroupEnd(ms, s.lo)
    decreases |ms| - i
  {
    if i < |ms| { GroupsTile(ms, GroupEnd(ms, i)); }
  }

  method AtomicMessageGroups(ms: seq<Message>) returns (groups: seq<Span>)
    ensures groups == Groups(ms, 0)
  {
    groups := [];
    var index := 0;
    while index < |ms|
      invariant 0 <= index <= |ms|
      invariant groups + Groups(ms, index) == Groups(ms, 0)
    {
      var start := index;
      if ms[index].role.Assistant? && ms[index].toolCalls != [] {
        var cursor := index + 1;
        while cursor < |ms| && ms[cursor].role.ToolResult?
          invariant index < cursor <= |ms|
          invariant ToolsEnd(ms, cursor) == ToolsEnd(ms, index + 1)
        {
          cursor := cursor + 1;
        }
        index := cursor;
      } else {
        index := index + 1;
      }
      assert index == GroupEnd(ms, start);
      Regroup(groups, [Span(start, index)], Groups(ms, index));
      groups := groups + [Span(start, index)];
    }
  }

  lemma Regroup<T>(a: seq<T>, b: seq<T>, c: seq<T>)
    ensures a + (b + c) == a + b + c
  {}

  // --------------------------------------------------------------- ranking

  /** The order of the candidates: by score, then by position. */
  predicate Before(keys: seq<nat>, g: nat, h: nat)
    requires g < |keys| && h < |keys|
  {
    keys[g] < keys[h] || (keys[g] == keys[h] && g < h)
  }

  predicate Within(order: seq<nat>, n: nat) {
    forall i :: 0 <= i < |order| ==> order[i] < n
  }

  function InsertRanked(keys: seq<nat>, order: seq<nat>, g: nat): (r: seq<nat>)
    requires g < |keys| && Within(order, |keys|)
    ensures Within(r, |keys|) && |r| == |order| + 1
    ensures forall h :: h in r <==> h == g || h in order
    decreases |order|
  {
    var n := |order|;
    if n == 0 then [g]
    else if Before(keys, order[n - 1], g) then order + [g]
    else
      assert order == order[..n - 1] + [order[n - 1]];
      InsertRanked(keys, order[..n - 1], g) + [order[n - 1]]
  }

  /** The first `n` groups in the order of their keys. */
  function Ranking(keys: seq<nat>, n: nat): (r: seq<nat>)
    requires n <= |keys|
    ensures Within(r, |keys|) && |r| == n
    ensures forall h: nat :: h in r <==> h < n
  {
    if n == 0 then [] else InsertRanked(keys, Ranking(keys, n - 1), n - 1)
  }

  predicate Ranked(keys: seq<nat>, order: seq<nat>)
    requires Within(order, |keys|)
  {
    forall i, j :: 0 <= i < j < |order| ==> Before(keys, order[i], order[j])
  }

  lemma {:induction false} InsertKeepsRanked(keys: seq<nat>, order: seq<nat>, g: nat)
    requires g < |keys| && Within(order, |keys|) && Ranked(keys, order) && g !in order
    ensures Ranked(keys, InsertRanked(keys, order, g))
    decreases |order|
  {
    var n := |order|;
    if n > 0 && !Before(keys, order[n - 1], g) {
      InsertKeepsRanked(keys, order[..n - 1], g);
      var r := InsertRanked(keys, order[..n - 1], g);
      forall i | 0 <= i < |r|
        ensures Before(keys, r[i], order[n - 1])
      {
        assert r[i] in r;
        assert order[n - 1] in order;
      }
    }
  }

  lemma {:induction false} RankingIsRanked(keys: seq<nat>, n: nat)
    requires n <= |keys|
    ensures Ranked(keys, Ranking(keys, n))
  {
    if n > 0 {
      RankingIsRanked(keys, n - 1);
      InsertKeepsRanked(keys, Ranking(keys, n - 1), n - 1);
    }
  }

  method RankMessageImportance(json: Json, ms: seq<Message>) returns (scores: seq<nat>)
    ensures scores == Scores(json, ms)
  {
    scores := [];
    for i := 0 to |ms|
      invariant |scores| == i && forall k :: 0 <= k < i ==> scores[k] == Score(json, ms[k])
    {
      scores := scores + [Score(json, ms[i])];
    }
  }

  function Scores(json: Json, ms: seq<Message>): seq<nat> {
    seq(|ms|, i requires 0 <= i < |ms| => Score(json, ms[i]))
  }

  /** A group is as important as its most important message. */
  function MaxScore(scores: seq<nat>, s: Span): nat
    requires s.lo < s.hi <= |scores|
    decreases s.hi - s.lo
  {
    if s.hi == s.lo + 1 then scores[s.lo]
    else Max(scores[s.lo], MaxScore(scores, Span(s.lo + 1, s.hi)))
  }

  lemma {:induction false} MaxScoreIsTheMost(scores: seq<nat>, s: Span)
    requires s.lo < s.hi <= |scores|
    ensures forall i :: s.lo <= i < s.hi ==> scores[i] <= MaxScore(scores, s)
    ensures exists i :: s.lo <= i < s.hi && scores[i] == MaxScore(scores, s)
    decreases s.hi - s.lo
  {
    if s.lo + 1 < s.hi {
      MaxScoreIsTheMost(scores, Span(s.lo + 1, s.hi));
      var i :| s.lo + 1 <= i < s.hi && scores[i] == MaxScore(scores, Span(s.lo + 1, s.hi));
      assert scores[s.lo] == MaxScore(scores, s) || scores[i] == MaxScore(scores, s);
    } else {
      assert scores[s.lo] == MaxScore(scores, s);
    }
  }

  /** The seven ranks of a message, least important first. A result is read only if it has
      content. */
  function Rank(json: Json, m: Message): nat {
    match m.role
    case System => 6
    case User => 5
    case Assistant => 3
    case ToolResult =>
      var reading := if Text(m.content) == "" then Reading(false, false) else json.read(Text(m.content));
      if reading.failed && reading.verified then 4
      else if reading.failed then 2
      else if reading.verified then 1
      else 0
  }

  /** Scores say no more than that: the prompt before the user before the model, and only a
      result that both failed and verified something comes before what the model said. */
  lemma ScoresAreRanks(json: Json, a: Message, b: Message)
    ensures Score(json, a) <= Score(json, b) <==> Rank(json, a) <= Rank(json, b)
  {}

  /** What is estimated: two sevenths of the characters of code, a quarter of other text, and
      four tokens for the message. */
  lemma EstimateIsOfTheText(json: Json, m: Message)
    ensures
      var n, s := EstimateMessageTokens(json, m), Rendered(json, m);
      && n >= 4
      && (100 * CodeChars(s) > 3 * |s| ==> 7 * (n - 4) <= 2 * |s| < 7 * (n - 3))
      && (100 * CodeChars(s) <= 3 * |s| ==> 4 * (n - 4) <= |s| < 4 * (n - 3))
    ensures
      |Rendered(json, m)| == |Text(m.content)| + (if m.toolCalls == [] then 0 else |json.render(m.toolCalls)|)
        + (if Text(m.name) == "" then 0 else |Text(m.name)| + 3) + (if Text(m.toolCallId) == "" then 0 else |Text(m.toolCallId)| + 7)
  {
    CodeIsNoMoreThanText(Rendered(json, m));
  }

  lemma {:induction false} CodeIsNoMoreThanText(s: string)
    ensures CodeChars(s) <= |s|
  {
    if s != "" { CodeIsNoMoreThanText(s[1..]); }
  }

  // ------------------------------------------------------------ protection

  /** The trims' options; the loop sets both. */
  datatype Preserve = Preserve(system: bool, latestUser: bool)

  /** One past the latest user message, or zero. */
  function AfterLatestUser(ms: seq<Message>): (n: nat)
    ensures n <= |ms| && (n > 0 ==> ms[n - 1].role.User?)
    ensures forall i :: n <= i < |ms| ==> !ms[i].role.User?
  {
    if ms == [] then 0
    else if ms[|ms| - 1].role.User? then |ms|
    else AfterLatestUser(ms[..|ms| - 1])
  }

  predicate Protects(keep: Preserve, ms: seq<Message>, i: nat)
    requires i < |ms|
  {
    (keep.system && ms[i].role.System?) || (keep.latestUser && i + 1 == AfterLatestUser(ms))
  }

  predicate ProtectsGroup(keep: Preserve, ms: seq<Message>, s: Span)
    requires s.hi <= |ms|
  {
    exists i :: s.lo <= i < s.hi && Protects(keep, ms, i)
  }

  method ProtectedIndices(keep: Preserve, ms: seq<Message>) returns (p: set<nat>)
    ensures forall i: nat :: i in p <==> i < |ms| && Protects(keep, ms, i)
  {
    p := {};
    if keep.system {
      for i := 0 to |ms|
        invariant forall k: nat :: k in p <==> k < i && ms[k].role.System?
      {
        if ms[i].role.System? { p := p + {i}; }
      }
    }
    if keep.latestUser {
      var index := |ms|;
      while index > 0
        invariant 0 <= index <= |ms|
        invariant forall k :: index <= k < |ms| ==> !ms[k].role.User?
      {
        index := index - 1;
        if ms[index].role.User? {
          p := p + {index};
          break;
        }
      }
    }
  }

  // -------------------------------------------------------------- dropping

  /** The groups the loop drops, given the total weight still kept. */
  function Dropped(limit: int, weights: seq<nat>, safe: seq<bool>, order: seq<nat>, total: int): (d: set<nat>)
    requires |safe| == |weights| && Within(order, |weights|)
    ensures forall g :: g in d ==> g in order && g < |safe| && !safe[g]
    decreases |order|
  {
    if order == [] then {}
    else if safe[order[0]] then Dropped(limit, weights, safe, order[1..], total)
    else if total - weights[order[0]] <= limit then {order[0]}
    else {order[0]} + Dropped(limit, weights, safe, order[1..], total - weights[order[0]])
  }

  /** The messages of the groups not dropped. */
  function Kept(ms: seq<Message>, groups: seq<Span>, dropped: set<nat>, g: nat): seq<Message>
    requires g <= |groups| && Inside(groups, |ms|)
    decreases |groups| - g
  {
    if g == |groups| then []
    else if g in dropped then Kept(ms, groups, dropped, g + 1)
    else ms[groups[g].lo..groups[g].hi] + Kept(ms, groups, dropped, g + 1)
  }

  /** What a message weighs in a trim: one, or its tokens. */
  datatype Measure = Count | Tokens(json: Json)

  function Weight(w: Measure, m: Message): nat {
    match w
    case Count => 1
    case Tokens(json) => EstimateMessageTokens(json, m)
  }

  function Sum(weight: Message -> nat, ms: seq<Message>): nat {
    if ms == [] then 0 else Sum(weight, ms[..|ms| - 1]) + weight(ms[|ms| - 1])
  }

  function Weigh(w: Measure, ms: seq<Message>): nat {
    Sum(m => Weight(w, m), ms)
  }

  function Weights(w: Measure, ms: seq<Message>, groups: seq<Span>): seq<nat>
    requires Inside(groups, |ms|)
  {
    seq(|groups|, g requires 0 <= g < |groups| => Weigh(w, ms[groups[g].lo..groups[g].hi]))
  }

  function Keys(json: Json, ms: seq<Message>, groups: seq<Span>): seq<nat>
    requires Inside(groups, |ms|)
  {
    seq(|groups|, g requires 0 <= g < |groups| => MaxScore(Scores(json, ms), groups[g]))
  }

  function Safe(keep: Preserve, ms: seq<Message>, groups: seq<Span>): seq<bool>
    requires Inside(groups, |ms|)
  {
    seq(|groups|, g requires 0 <= g < |groups| => ProtectsGroup(keep, ms, groups[g]))
  }

  function DroppedGroups(json: Json, keep: Preserve, w: Measure, ms: seq<Message>, limit: int): set<nat> {
    GroupsTile(ms, 0);
    var groups := Groups(ms, 0);
    if Weigh(w, ms) <= limit then {}
    else
      Dropped(limit, Weights(w, ms, groups), Safe(keep, ms, groups),
              Ranking(Keys(json, ms, groups), |groups|), Weigh(w, ms))
  }

  /** What a trim leaves of the messages. */
  function Trimmed(json: Json, keep: Preserve, w: Measure, ms: seq<Message>, limit: int): seq<Message> {
    GroupsTile(ms, 0);
    Kept(ms, Groups(ms, 0), DroppedGroups(json, keep, w, ms, limit), 0)
  }

  // ------------------------------------------------- selection by position

  function Select(ms: seq<Message>, indices: set<nat>, i: nat): seq<Message>
    requires i <= |ms|
    decreases |ms| - i
  {
    if i == |ms| then []
    else if i in indices then [ms[i]] + Select(ms, indices, i + 1)
    else Select(ms, indices, i + 1)
  }

  function KeptIndices(groups: seq<Span>, n: nat, dropped: set<nat>): set<nat> {
    set i: nat | i < n && KeptAt(groups, dropped, i)
  }

  predicate KeptAt(groups: seq<Span>, dropped: set<nat>, i: nat) {
    exists g: nat | g < |groups| :: g !in dropped && groups[g].lo <= i < groups[g].hi
  }

  lemma {:induction false} SelectSpan(ms: seq<Message>, indices: set<nat>, i: nat, j: nat)
    requires i <= j <= |ms|
    requires (forall k :: i <= k < j ==> k in indices) || (forall k :: i <= k < j ==> k !in indices)
    ensures
      Select(ms, indices, i) == (if i < j && i in indices then ms[i..j] else []) + Select(ms, indices, j)
    decreases j - i
  {
    if i < j {
      SelectSpan(ms, indices, i + 1, j);
      if i in indices { assert ms[i..j] == [ms[i]] + ms[i + 1..j]; }
    }
  }

  lemma {:induction false} TilesMeet(groups: seq<Span>, i: nat, n: nat, g: nat, h: nat)
    requires Tiles(groups, i, n) && g < h < |groups|
    ensures i <= groups[g].lo < groups[g].hi <= groups[h].lo < groups[h].hi <= n
    ensures h == g + 1 ==> groups[g].hi == groups[h].lo
    decreases groups
  {
    if g > 0 {
      TilesMeet(groups[1..], groups[0].hi, n, g - 1, h - 1);
    } else if h > 1 {
      TilesMeet(groups[1..], groups[0].hi, n, 0, h - 1);
    }
  }

  lemma {:induction false} TilesEnd(groups: seq<Span>, i: nat, n: nat)
    requires Tiles(groups, i, n) && groups != []
    ensures groups[|groups| - 1].hi == n
    decreases groups
  {
    if |groups| > 1 { TilesEnd(groups[1..], groups[0].hi, n); }
  }

  /** The message at `i`, in group `g`, is kept exactly when the group is. */
  lemma KeptWithItsGroup(groups: seq<Span>, n: nat, dropped: set<nat>, g: nat, i: nat)
    requires Tiles(groups, 0, n) && g < |groups| && groups[g].lo <= i < groups[g].hi <= n
    ensures i in KeptIndices(groups, n, dropped) <==> g !in dropped
  {
    forall h: nat | h < |groups| && groups[h].lo <= i < groups[h].hi
      ensures h == g
    {
      if h < g { TilesMeet(groups, 0, n, h, g); }
      if g < h { TilesMeet(groups, 0, n, g, h); }
    }
  }

  /** Where group `g` starts, or where the last one ends. */
  function Start(groups: seq<Span>, n: nat, g: nat): nat
    requires g <= |groups|
  {
    if g < |groups| then groups[g].lo else n
  }

  lemma NextStart(groups: seq<Span>, n: nat, g: nat)
    requires Tiles(groups, 0, n) && g < |groups|
    ensures groups[g].lo < groups[g].hi == Start(groups, n, g + 1) <= n
  {
    if g + 1 < |groups| { TilesMeet(groups, 0, n, g, g + 1); } else { TilesEnd(groups, 0, n); }
    if g > 0 { TilesMeet(groups, 0, n, 0, g); }
  }

  lemma GroupIsSelected(ms: seq<Message>, groups: seq<Span>, dropped: set<nat>, g: nat)
    requires Tiles(groups, 0, |ms|) && g < |groups| && groups[g].lo < groups[g].hi <= |ms|
    ensures
      var indices, s := KeptIndices(groups, |ms|, dropped), groups[g];
      Select(ms, indices, s.lo) == (if g in dropped then [] else ms[s.lo..s.hi]) + Select(ms, indices, s.hi)
  {
    forall i | groups[g].lo <= i < groups[g].hi
      ensures i in KeptIndices(groups, |ms|, dropped) <==> g !in dropped
    {
      KeptWithItsGroup(groups, |ms|, dropped, g, i);
    }
    SelectSpan(ms, KeptIndices(groups, |ms|, dropped), groups[g].lo, groups[g].hi);
  }

  lemma {:induction false} KeptIsSelected(ms: seq<Message>, groups: seq<Span>, dropped: set<nat>, g: nat)
    requires Tiles(groups, 0, |ms|) && g <= |groups| && Inside(groups, |ms|)
    ensures Start(groups, |ms|, g) <= |ms|
    ensures Kept(ms, groups, dropped, g) == Select(ms, KeptIndices(groups, |ms|, dropped), Start(groups, |ms|, g))
    decreases |groups| - g
  {
    if g < |groups| {
      KeptIsSelected(ms, groups, dropped, g + 1);
      NextStart(groups, |ms|, g);
      GroupIsSelected(ms, groups, dropped, g);
    }
  }

  // ----------------------------------------------------------- the two trims

  method SafeGroups(keep: Preserve, ms: seq<Message>, groups: seq<Span>) returns (safe: seq<bool>)
    requires Inside(groups, |ms|)
    ensures safe == Safe(keep, ms, groups)
  {
    var indices := ProtectedIndices(keep, ms);
    safe := [];
    for g := 0 to |groups|
      invariant |safe| == g && forall k :: 0 <= k < g ==> safe[k] == ProtectsGroup(keep, ms, groups[k])
    {
      safe := safe + [exists i | groups[g].lo <= i < groups[g].hi :: i in indices];
    }
  }

  lemma DroppedStep(limit: int, weights: seq<nat>, safe: seq<bool>, order: seq<nat>, k: nat, total: int)
    requires |safe| == |weights| && Within(order, |weights|) && k < |order|
    ensures
      var g := order[k];
      Dropped(limit, weights, safe, order[k..], total)
      == if safe[g] then Dropped(limit, weights, safe, order[k + 1..], total)
         else if total - weights[g] <= limit then {g}
         else {g} + Dropped(limit, weights, safe, order[k + 1..], total - weights[g])
  {
    assert order[k..][1..] == order[k + 1..];
  }

  /** The dropping loop of both trims. */
  method DropUntilFits(limit: int, weights: seq<nat>, safe: seq<bool>, candidates: seq<nat>, total: int)
    returns (dropped: set<nat>)
    requires |safe| == |weights| && Within(candidates, |weights|)
    ensures dropped == Dropped(limit, weights, safe, candidates, total)
  {
    dropped := {};
    var current := total;
    for k := 0 to |candidates|
      invariant Dropped(limit, weights, safe, candidates, total)
                == dropped + Dropped(limit, weights, safe, candidates[k..], current)
    {
      var g := candidates[k];
      DroppedStep(limit, weights, safe, candidates, k, current);
      if safe[g] {
        continue;
      }
      dropped := dropped + {g};
      current := current - weights[g];
      if current <= limit {
        return;
      }
    }
  }

  method DropGroups(json: Json, keep: Preserve, w: Measure, ms: seq<Message>, limit: int) returns (out: seq<Message>)
    requires Weigh(w, ms) > limit
    ensures out == Trimmed(json, keep, w, ms, limit)
  {
    var groups := AtomicMessageGroups(ms);
    GroupsTile(ms, 0);
    var safe := SafeGroups(keep, ms, groups);
    var scores := RankMessageImportance(json, ms);
    var keys := seq(|groups|, g requires 0 <= g < |groups| => MaxScore(scores, groups[g]));
    assert keys == Keys(json, ms, groups);
    var candidates := Ranking(keys, |groups|);
    var dropped := DropUntilFits(limit, Weights(w, ms, groups), safe, candidates, Weigh(w, ms));
    out := SelectKept(ms, groups, dropped);
  }

  method SelectKept(ms: seq<Message>, groups: seq<Span>, dropped: set<nat>) returns (out: seq<Message>)
    requires Tiles(groups, 0, |ms|)
    requires Inside(groups, |ms|)
    ensures out == Kept(ms, groups, dropped, 0)
  {
    var indices := KeptIndices(groups, |ms|, dropped);
    out := [];
    for i := 0 to |ms|
      invariant out + Select(ms, indices, i) == Select(ms, indices, 0)
    {
      if i in indices { out := out + [ms[i]]; }
    }
    KeptIsSelected(ms, groups, dropped, 0);
  }

  lemma {:induction false} SumOfOnes(weight: Message -> nat, ms: seq<Message>)
    requires forall m :: weight(m) == 1
    ensures Sum(weight, ms) == |ms|
  {
    if ms != [] { SumOfOnes(weight, ms[..|ms| - 1]); }
  }

  lemma WeighCount(ms: seq<Message>)
    ensures Weigh(Count, ms) == |ms|
  {
    SumOfOnes(m => Weight(Count, m), ms);
  }

  lemma {:induction false} KeptOfNoneDropped(ms: seq<Message>, groups: seq<Span>, g: nat)
    requires Tiles(groups, 0, |ms|) && g <= |groups|
    requires Inside(groups, |ms|)
    ensures Start(groups, |ms|, g) <= |ms| && Kept(ms, groups, {}, g) == ms[Start(groups, |ms|, g)..]
    decreases |groups| - g
  {
    if g < |groups| {
      KeptOfNoneDropped(ms, groups, g + 1);
      NextStart(groups, |ms|, g);
    }
  }

  lemma FittingIsUntouched(json: Json, keep: Preserve, w: Measure, ms: seq<Message>, limit: int)
    requires Weigh(w, ms) <= limit
    ensures Trimmed(json, keep, w, ms, limit) == ms
  {
    GroupsTile(ms, 0);
    KeptOfNoneDropped(ms, Groups(ms, 0), 0);
  }

  method TrimMessagesToCount(json: Json, keep: Preserve, ms: seq<Message>, maxMessages: int) returns (out: seq<Message>)
    ensures out == Trimmed(json, keep, Count, ms, maxMessages)
  {
    WeighCount(ms);
    if |ms| <= maxMessages {
      FittingIsUntouched(json, keep, Count, ms, maxMessages);
      return ms;
    }
    out := DropGroups(json, keep, Count, ms, maxMessages);
  }

  method TrimMessagesToBudget(json: Json, keep: Preserve, ms: seq<Message>, tokenBudget: int) returns (out: seq<Message>)
    ensures out == Trimmed(json, keep, Tokens(json), ms, tokenBudget)
  {
    if ms == [] {
      return [];
    }
    if Weigh(Tokens(json), ms) <= tokenBudget {
      FittingIsUntouched(json, keep, Tokens(json), ms, tokenBudget);
      return ms;
    }
    out := DropGroups(json, keep, Tokens(json), ms, tokenBudget);
  }
}
