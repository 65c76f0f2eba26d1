/** The context the engine sends to the LLM, built from the stored conversation, steps
    and tool records. A summary says up to which step it covers; rendering skips the
    steps it covers. */
module Context {
  import opened Domain
  import X = ToolExecutor
  import opened TokenUtils
  import opened TrimTheorems
  import H = History

  datatype Step =
    | LlmCall(content: Option<string>, calls: seq<Call>, created: int)
    | Summary(text: string, coversUpTo: int, created: int)

  /** The rows of agent_steps of one run, by their unique step number. */
  type Steps = map<int, Step>

  /** What a tool message shows of an execution record. */
  datatype Shown = MissingRecord | ShownResult(result: string) | ShownError(error: X.Text) | UnknownFailure

  datatype Env = Env(dump: Shown -> string)

  // --------------------------------------------------------------- loading

  /** The step numbers of the rows, in order, between two bounds. */
  function Loaded(steps: Steps, lo: int, hi: int): (nos: seq<int>)
    requires lo <= hi
    ensures AllIn(nos, steps)
    decreases hi - lo
  {
    if lo == hi then []
    else Loaded(steps, lo, hi - 1) + if hi - 1 in steps then [hi - 1] else []
  }

  predicate AllIn(nos: seq<int>, steps: Steps) {
    forall i :: 0 <= i < |nos| ==> nos[i] in steps
  }

  function Covered(steps: Steps, nos: seq<int>): (c: int)
    requires AllIn(nos, steps)
    ensures c >= -1
  {
    if nos == [] then -1
    else
      var rest, last := Covered(steps, nos[..|nos| - 1]), steps[nos[|nos| - 1]];
      if last.Summary? then Max(rest, last.coversUpTo) else rest
  }

  lemma {:induction false} CoveredIsTheGreatest(steps: Steps, nos: seq<int>)
    requires AllIn(nos, steps)
    ensures forall i :: 0 <= i < |nos| && steps[nos[i]].Summary? ==> steps[nos[i]].coversUpTo <= Covered(steps, nos)
    ensures Covered(steps, nos) == -1
         || exists i :: 0 <= i < |nos| && steps[nos[i]].Summary? && steps[nos[i]].coversUpTo == Covered(steps, nos)
  {
    if nos != [] {
      var n := |nos| - 1;
      CoveredIsTheGreatest(steps, nos[..n]);
      if Covered(steps, nos) == Covered(steps, nos[..n]) && Covered(steps, nos) != -1 {
        var i :| 0 <= i < n && steps[nos[..n][i]].Summary? && steps[nos[..n][i]].coversUpTo == Covered(steps, nos[..n]);
        assert nos[i] == nos[..n][i];
      } else if Covered(steps, nos) != -1 {
        assert steps[nos[n]].coversUpTo == Covered(steps, nos);
      }
    }
  }

  method LatestCoveredStepNo(steps: Steps, nos: seq<int>) returns (covered: int)
    requires AllIn(nos, steps)
    ensures covered == Covered(steps, nos)
    ensures forall i :: 0 <= i < |nos| && steps[nos[i]].Summary? ==> steps[nos[i]].coversUpTo <= covered
    ensures covered == -1 || exists i :: 0 <= i < |nos| && steps[nos[i]].Summary? && steps[nos[i]].coversUpTo == covered
  {
    CoveredIsTheGreatest(steps, nos);
    covered := -1;
    for i := 0 to |nos|
      invariant covered == Covered(steps, nos[..i])
    {
      assert nos[..i + 1][..i] == nos[..i];
      match steps[nos[i]] {
        case Summary(_, coversUpTo, _) => covered := Max(covered, coversUpTo);
        case LlmCall(_, _, _) =>
      }
    }
    assert nos[..|nos|] == nos;
  }

  // ------------------------------------------------------------- rendering

  function ContentOf(rows: map<X.Key, X.Row>, key: X.Key): Shown {
    if key !in rows then MissingRecord
    else if rows[key].status.Succeeded? then ShownResult(X.ResultOr(rows[key].result, "{}"))
    else if rows[key].error.Some? && rows[key].error.value != X.Text.Message("") then ShownError(rows[key].error.value)
    else UnknownFailure
  }

  /** The tool messages of the first `n` calls of a step. */
  function ResultsOf(env: Env, rows: map<X.Key, X.Row>, no: nat, calls: seq<Call>, n: nat): (ms: seq<Message>)
    requires n <= |calls|
    ensures |ms| == n && AllResults(ms) && forall i :: 0 <= i < n ==> ms[i].toolCallId == Some(calls[i].id)
  {
    if n == 0 then []
    else
      ResultsOf(env, rows, no, calls, n - 1)
      + [Message(ToolResult, Some(env.dump(ContentOf(rows, X.Key(no, n - 1)))), [], Some(calls[n - 1].id), None)]
  }

  function Rendered(env: Env, rows: map<X.Key, X.Row>, no: nat, step: Step): (ms: seq<Message>)
    requires step.LlmCall?
  {
    [H.RequestMessage(step.content, step.calls)] + ResultsOf(env, rows, no, step.calls, |step.calls|)
  }

  /** What is shown for a call is its own record: the stored result, or "{}" for none, if it
      succeeded; else the stored error, if there is one. */
  ghost predicate ShowsRecord(rows: map<X.Key, X.Row>, key: X.Key, shown: Shown) {
    && (shown.MissingRecord? <==> key !in rows)
    && (key in rows && rows[key].status.Succeeded? ==>
          && shown.ShownResult?
          && (rows[key].result == None || rows[key].result == Some("") ==> shown.result == "{}")
          && (rows[key].result != None && rows[key].result != Some("") ==> rows[key].result == Some(shown.result)))
    && (key in rows && !rows[key].status.Succeeded? ==>
          if rows[key].error == None || rows[key].error == Some(X.Text.Message("")) then shown.UnknownFailure?
          else shown.ShownError? && rows[key].error == Some(shown.error))
  }

  /** The message for call `i` of step `no`: it answers this call and shows its record. */
  ghost predicate AnswersCall(env: Env, rows: map<X.Key, X.Row>, no: nat, calls: seq<Call>, i: nat, m: Message)
    requires i < |calls|
  {
    exists shown: Shown ::
      ShowsRecord(rows, X.Key(no, i), shown)
      && m == Message(ToolResult, Some(env.dump(shown)), [], Some(calls[i].id), None)
  }

  /** The answer to call `i` stands behind the request and the answers before. */
  ghost predicate AnswerAt(env: Env, rows: map<X.Key, X.Row>, no: nat, calls: seq<Call>, i: nat, ms: seq<Message>)
    requires i < |calls| && |ms| == |calls| + 1
  {
    AnswersCall(env, rows, no, calls, i, ms[i + 1])
  }

  /** The messages of a stored step: its request, and for each call, in order, its answer. */
  ghost predicate ShowsStep(env: Env, rows: map<X.Key, X.Row>, no: nat, step: Step, ms: seq<Message>)
    requires step.LlmCall?
  {
    && |ms| == |step.calls| + 1
    && ms[0] == Message(Assistant, step.content, step.calls, None, None)
    && forall i: nat :: i < |step.calls| ==> AnswerAt(env, rows, no, step.calls, i, ms)
  }

  lemma {:induction false} ResultsShowTheirRecords(
    env: Env, rows: map<X.Key, X.Row>, no: nat, calls: seq<Call>, n: nat, i: nat)
    requires i < n <= |calls|
    ensures AnswersCall(env, rows, no, calls, i, ResultsOf(env, rows, no, calls, n)[i])
    decreases n
  {
    if i < n - 1 {
      ResultsShowTheirRecords(env, rows, no, calls, n - 1, i);
    } else {
      var shown := ContentOf(rows, X.Key(no, i));
      assert ShowsRecord(rows, X.Key(no, i), shown);
    }
  }

  /** Each call's message shows the call's own record, whatever the others hold. */
  lemma RenderedShowsStep(env: Env, rows: map<X.Key, X.Row>, no: nat, step: Step)
    requires step.LlmCall?
    ensures ShowsStep(env, rows, no, step, Rendered(env, rows, no, step))
  {
    var ms := Rendered(env, rows, no, step);
    forall i: nat | i < |step.calls|
      ensures AnswerAt(env, rows, no, step.calls, i, ms)
    {
      ResultsShowTheirRecords(env, rows, no, step.calls, |step.calls|, i);
    }
  }

  /** Two renderings that agree on one record agree on that call's message. */
  lemma OtherRecordsDoNotShow(
    env: Env, rows: map<X.Key, X.Row>, other: map<X.Key, X.Row>, no: nat, step: Step, i: nat, a: seq<Message>, b: seq<Message>)
    requires step.LlmCall? && i < |step.calls|
    requires ShowsStep(env, rows, no, step, a) && ShowsStep(env, other, no, step, b)
    requires X.Key(no, i) in rows <==> X.Key(no, i) in other
    requires X.Key(no, i) in rows && X.Key(no, i) in other ==> rows[X.Key(no, i)] == other[X.Key(no, i)]
    ensures a[i + 1] == b[i + 1]
  {
    var key := X.Key(no, i);
    assert AnswerAt(env, rows, no, step.calls, i, a) && AnswerAt(env, other, no, step.calls, i, b);
    var s: Shown :| ShowsRecord(rows, key, s) && a[i + 1] == Message(ToolResult, Some(env.dump(s)), [], Some(step.calls[i].id), None);
    var t: Shown :| ShowsRecord(other, key, t) && b[i + 1] == Message(ToolResult, Some(env.dump(t)), [], Some(step.calls[i].id), None);
    assert s == t;
  }

  /** One result for every call, whether or not its record is there. */
  method LlmCallStepToMessages(env: Env, rows: map<X.Key, X.Row>, no: nat, step: Step) returns (ms: seq<Message>)
    requires step.LlmCall?
    ensures ms == Rendered(env, rows, no, step)
    ensures ShowsStep(env, rows, no, step, ms)
  {
    RenderedShowsStep(env, rows, no, step);
    ms := [H.RequestMessage(step.content, step.calls)];
    for i := 0 to |step.calls|
      invariant ms == [H.RequestMessage(step.content, step.calls)] + ResultsOf(env, rows, no, step.calls, i)
    {
      var shown := ContentOf(rows, X.Key(no, i));
      ms := ms + [Message(ToolResult, Some(env.dump(shown)), [], Some(step.calls[i].id), None)];
    }
  }

  lemma RenderedIsPaired(env: Env, rows: map<X.Key, X.Row>, no: nat, step: Step)
    requires step.LlmCall?
    ensures WellPaired(Rendered(env, rows, no, step))
  {
    var results := ResultsOf(env, rows, no, step.calls, |step.calls|);
    assert ResultIds(results) == CallIds(step.calls);
    RequestWithResults(H.RequestMessage(step.content, step.calls), results);
  }

  // ---------------------------------------------------------- the timeline

  /** A chunk of messages and the time it is sorted by. */
  datatype Entry = Entry(created: int, chunk: seq<Message>)

  /** A stored conversation message. */
  datatype Said = Said(created: int, role: Role, content: string)

  function Spoken(said: seq<Said>): seq<Entry> {
    seq(|said|, i requires 0 <= i < |said| =>
      Entry(said[i].created, [Message(said[i].role, Some(said[i].content), [], None, None)]))
  }

  predicate Visible(step: Step, no: int, covered: int) {
    step.Summary? || no > covered
  }

  function SummaryMessage(text: string): Message {
    H.SystemMessage("[Earlier steps summarized]: " + text)
  }

  function EntryOf(env: Env, rows: map<X.Key, X.Row>, no: int, step: Step): Entry
    requires step.LlmCall? ==> no >= 0
  {
    match step
    case LlmCall(_, _, created) => Entry(created, Rendered(env, rows, no, step))
    case Summary(text, _, created) => Entry(created, [SummaryMessage(text)])
  }

  /** Every negative step number is a summary's, every other one an LLM call's. */
  predicate Numbered(steps: Steps) {
    forall k :: k in steps ==> (k < 0 <==> steps[k].Summary?)
  }

  /** The entries of the steps that are shown. */
  function Shows(env: Env, rows: map<X.Key, X.Row>, steps: Steps, nos: seq<int>, covered: int): seq<Entry>
    requires Numbered(steps) && AllIn(nos, steps)
  {
    if nos == [] then []
    else
      var n := |nos| - 1;
      Shows(env, rows, steps, nos[..n], covered)
      + if Visible(steps[nos[n]], nos[n], covered) then [EntryOf(env, rows, nos[n], steps[nos[n]])] else []
  }

  /** Python's sort is stable: an entry goes after those of the same time. */
  function InsertByTime(sorted: seq<Entry>, e: Entry): seq<Entry> {
    if sorted == [] || sorted[|sorted| - 1].created <= e.created then sorted + [e]
    else InsertByTime(sorted[..|sorted| - 1], e) + [sorted[|sorted| - 1]]
  }

  function SortByTime(es: seq<Entry>): seq<Entry> {
    if es == [] then [] else InsertByTime(SortByTime(es[..|es| - 1]), es[|es| - 1])
  }

  function Flatten(es: seq<Entry>): seq<Message> {
    if es == [] then [] else Flatten(es[..|es| - 1]) + es[|es| - 1].chunk
  }

  function Timeline(
    env: Env, rows: map<X.Key, X.Row>, said: seq<Said>, steps: Steps, nos: seq<int>): seq<Entry>
    requires Numbered(steps) && AllIn(nos, steps)
  {
    SortByTime(Spoken(said) + Shows(env, rows, steps, nos, Covered(steps, nos)))
  }

  method CollectTimeline(env: Env, rows: map<X.Key, X.Row>, said: seq<Said>, steps: Steps, nos: seq<int>)
    returns (timeline: seq<Entry>)
    requires Numbered(steps) && AllIn(nos, steps)
    ensures timeline == Spoken(said) + Shows(env, rows, steps, nos, Covered(steps, nos))
  {
    var covered := LatestCoveredStepNo(steps, nos);
    timeline := Spoken(said);
    for i := 0 to |nos|
      invariant timeline == Spoken(said) + Shows(env, rows, steps, nos[..i], covered)
    {
      assert nos[..i + 1][..i] == nos[..i];
      var no, step := nos[i], steps[nos[i]];
      match step {
        case LlmCall(_, _, created) =>
          if no > covered {
            var chunk := LlmCallStepToMessages(env, rows, no, step);
            timeline := timeline + [Entry(created, chunk)];
          }
        case Summary(text, _, created) => timeline := timeline + [Entry(created, [SummaryMessage(text)])];
      }
    }
    assert nos[..|nos|] == nos;
  }

  method BuildLlmMessages(
    env: Env, rows: map<X.Key, X.Row>, prompt: string, said: seq<Said>, steps: Steps, nos: seq<int>)
    returns (ms: seq<Message>)
    requires Numbered(steps) && AllIn(nos, steps)
    ensures ms == [H.SystemMessage(prompt)] + Flatten(Timeline(env, rows, said, steps, nos))
    ensures ms != [] && ms[0] == Message(System, Some(prompt), [], None, None)
    ensures forall i :: 0 <= i < |nos| && Visible(steps[nos[i]], nos[i], Covered(steps, nos)) ==>
      Appears(env, rows, nos[i], steps[nos[i]], ms)
    ensures forall i :: 0 <= i < |said| ==> Message(said[i].role, Some(said[i].content), [], None, None) in ms
  {
    ContextIsComplete(env, rows, prompt, said, steps, nos);
    var timeline := CollectTimeline(env, rows, said, steps, nos);
    timeline := SortByTime(timeline);
    ms := [H.SystemMessage(prompt)];
    for i := 0 to |timeline|
      invariant ms == [H.SystemMessage(prompt)] + Flatten(timeline[..i])
    {
      assert timeline[..i + 1][..i] == timeline[..i];
      ms := ms + timeline[i].chunk;
    }
    assert timeline[..|timeline|] == timeline;
  }

  // -------------------------------------------------------------- ordering

  predicate ByTime(es: seq<Entry>) {
    forall i, j :: 0 <= i < j < |es| ==> es[i].created <= es[j].created
  }

  /** The entries of one time, in their order. */
  function AtTime(es: seq<Entry>, time: int): seq<Entry> {
    if es == [] then []
    else AtTime(es[..|es| - 1], time) + if es[|es| - 1].created == time then [es[|es| - 1]] else []
  }

  lemma AtTimeOfAppend(es: seq<Entry>, e: Entry, time: int)
    ensures AtTime(es + [e], time) == AtTime(es, time) + if e.created == time then [e] else []
  {
    assert (es + [e])[..|es|] == es;
  }

  lemma {:induction false} InsertIsPermutation(sorted: seq<Entry>, e: Entry)
    ensures multiset(InsertByTime(sorted, e)) == multiset(sorted) + multiset{e}
    decreases |sorted|
  {
    var n := |sorted| - 1;
    if sorted != [] && sorted[n].created > e.created {
      InsertIsPermutation(sorted[..n], e);
      assert sorted == sorted[..n] + [sorted[n]];
    }
  }

  lemma {:induction false} InsertIsOrdered(sorted: seq<Entry>, e: Entry)
    requires ByTime(sorted)
    ensures ByTime(InsertByTime(sorted, e))
    decreases |sorted|
  {
    var n := |sorted| - 1;
    if sorted != [] && sorted[n].created > e.created {
      var r := InsertByTime(sorted[..n], e);
      InsertIsOrdered(sorted[..n], e);
      InsertIsPermutation(sorted[..n], e);
      forall i | 0 <= i < |r|
        ensures r[i].created <= sorted[n].created
      {
        assert r[i] in multiset(r);
      }
    }
  }

  lemma {:induction false} InsertIsStable(sorted: seq<Entry>, e: Entry, time: int)
    ensures AtTime(InsertByTime(sorted, e), time) == AtTime(sorted, time) + if e.created == time then [e] else []
    decreases |sorted|
  {
    if sorted == [] || sorted[|sorted| - 1].created <= e.created {
      AtTimeOfAppend(sorted, e, time);
    } else {
      var init, last := sorted[..|sorted| - 1], sorted[|sorted| - 1];
      InsertIsStable(init, e, time);
      AtTimeOfAppend(InsertByTime(init, e), last, time);
      assert AtTime(sorted, time) == AtTime(init, time) + if last.created == time then [last] else [];
    }
  }

  lemma {:induction false} SortIsOrdered(es: seq<Entry>)
    ensures ByTime(SortByTime(es))
    decreases |es|
  {
    if es != [] {
      SortIsOrdered(es[..|es| - 1]);
      InsertIsOrdered(SortByTime(es[..|es| - 1]), es[|es| - 1]);
    }
  }

  lemma {:induction false} SortIsPermutation(es: seq<Entry>)
    ensures multiset(SortByTime(es)) == multiset(es)
    decreases |es|
  {
    if es != [] {
      SortIsPermutation(es[..|es| - 1]);
      InsertIsPermutation(SortByTime(es[..|es| - 1]), es[|es| - 1]);
      assert es == es[..|es| - 1] + [es[|es| - 1]];
    }
  }

  lemma {:induction false} SortKeepsTies(es: seq<Entry>, time: int)
    ensures AtTime(SortByTime(es), time) == AtTime(es, time)
    decreases |es|
  {
    if es != [] {
      SortKeepsTies(es[..|es| - 1], time);
      InsertIsStable(SortByTime(es[..|es| - 1]), es[|es| - 1], time);
    }
  }

  /** The timeline is a stable permutation, ordered by creation time: a summary stands
      where its own time puts it, after steps created before it. */
  lemma SortIsStable(es: seq<Entry>, time: int)
    ensures ByTime(SortByTime(es))
    ensures multiset(SortByTime(es)) == multiset(es)
    ensures AtTime(SortByTime(es), time) == AtTime(es, time)
  {
    SortIsOrdered(es);
    SortIsPermutation(es);
    SortKeepsTies(es, time);
  }

  // ---------------------------------------------------------- completeness

  /** A step's messages stand in a row in the context, or the summary's text does. */
  ghost predicate Appears(env: Env, rows: map<X.Key, X.Row>, no: int, step: Step, ms: seq<Message>)
    requires step.LlmCall? ==> no >= 0
  {
    match step
    case LlmCall(_, _, _) => exists a: nat, b: nat :: a <= b <= |ms| && ShowsStep(env, rows, no, step, ms[a..b])
    case Summary(text, _, _) =>
      Message(System, Some("[Earlier steps summarized]: " + text), [], None, None) in ms
  }

  /** Every entry's messages stand in a row in the flattened timeline. */
  lemma {:induction false} ChunkStands(es: seq<Entry>, i: nat) returns (a: nat)
    requires i < |es|
    ensures a + |es[i].chunk| <= |Flatten(es)| && Flatten(es)[a..a + |es[i].chunk|] == es[i].chunk
    decreases |es|
  {
    var n := |es| - 1;
    if i < n {
      a := ChunkStands(es[..n], i);
      assert Flatten(es)[a..a + |es[i].chunk|] == Flatten(es[..n])[a..a + |es[i].chunk|];
    } else {
      a := |Flatten(es[..n])|;
    }
  }

  lemma {:induction false} VisibleIsShown(
    env: Env, rows: map<X.Key, X.Row>, steps: Steps, nos: seq<int>, covered: int, i: nat)
    requires Numbered(steps) && AllIn(nos, steps) && i < |nos| && Visible(steps[nos[i]], nos[i], covered)
    ensures EntryOf(env, rows, nos[i], steps[nos[i]]) in Shows(env, rows, steps, nos, covered)
    decreases |nos|
  {
    var n := |nos| - 1;
    if i < n {
      VisibleIsShown(env, rows, steps, nos[..n], covered, i);
    } else {
      assert Shows(env, rows, steps, nos, covered)[|Shows(env, rows, steps, nos[..n], covered)|]
          == EntryOf(env, rows, nos[i], steps[nos[i]]);
    }
  }

  lemma SortKeepsAll(es: seq<Entry>, e: Entry) returns (i: nat)
    requires e in es
    ensures i < |SortByTime(es)| && SortByTime(es)[i] == e
  {
    SortIsPermutation(es);
    assert e in multiset(SortByTime(es));
    i :| i < |SortByTime(es)| && SortByTime(es)[i] == e;
  }

  lemma BehindOne<T>(head: T, tail: seq<T>, a: nat, b: nat)
    requires a <= b <= |tail|
    ensures ([head] + tail)[a + 1..b + 1] == tail[a..b]
  {}

  /** What is in the timeline stands in the context behind the prompt. */
  lemma EntryStands(es: seq<Entry>, e: Entry, prompt: Message) returns (a: nat)
    requires e in es
    ensures
      var ms := [prompt] + Flatten(SortByTime(es));
      a + |e.chunk| <= |ms| && ms[a..a + |e.chunk|] == e.chunk
  {
    var i := SortKeepsAll(es, e);
    var b := ChunkStands(SortByTime(es), i);
    a := b + 1;
    BehindOne(prompt, Flatten(SortByTime(es)), b, b + |e.chunk|);
  }

  lemma StepAppears(
    env: Env, rows: map<X.Key, X.Row>, prompt: string, said: seq<Said>, steps: Steps, nos: seq<int>, i: nat)
    requires Numbered(steps) && AllIn(nos, steps) && i < |nos|
    requires Visible(steps[nos[i]], nos[i], Covered(steps, nos))
    ensures Appears(env, rows, nos[i], steps[nos[i]], [H.SystemMessage(prompt)] + Flatten(Timeline(env, rows, said, steps, nos)))
  {
    var shown, step := Shows(env, rows, steps, nos, Covered(steps, nos)), steps[nos[i]];
    var e := EntryOf(env, rows, nos[i], step);
    VisibleIsShown(env, rows, steps, nos, Covered(steps, nos), i);
    assert e in Spoken(said) + shown;
    var a := EntryStands(Spoken(said) + shown, e, H.SystemMessage(prompt));
    if step.LlmCall? {
      RenderedShowsStep(env, rows, nos[i], step);
    } else {
      assert e.chunk == [SummaryMessage(step.text)];
      assert ([H.SystemMessage(prompt)] + Flatten(Timeline(env, rows, said, steps, nos)))[a..a + 1][0] == e.chunk[0];
    }
  }

  /** Every visible step, every summary and everything said is in the context. */
  lemma ContextIsComplete(
    env: Env, rows: map<X.Key, X.Row>, prompt: string, said: seq<Said>, steps: Steps, nos: seq<int>)
    requires Numbered(steps) && AllIn(nos, steps)
    ensures
      var ms := [H.SystemMessage(prompt)] + Flatten(Timeline(env, rows, said, steps, nos));
      && (forall i :: 0 <= i < |nos| && Visible(steps[nos[i]], nos[i], Covered(steps, nos)) ==>
            Appears(env, rows, nos[i], steps[nos[i]], ms))
      && (forall i :: 0 <= i < |said| ==> Message(said[i].role, Some(said[i].content), [], None, None) in ms)
  {
    var ms := [H.SystemMessage(prompt)] + Flatten(Timeline(env, rows, said, steps, nos));
    var shown := Shows(env, rows, steps, nos, Covered(steps, nos));
    forall i | 0 <= i < |nos| && Visible(steps[nos[i]], nos[i], Covered(steps, nos))
      ensures Appears(env, rows, nos[i], steps[nos[i]], ms)
    {
      StepAppears(env, rows, prompt, said, steps, nos, i);
    }
    forall i | 0 <= i < |said|
      ensures Message(said[i].role, Some(said[i].content), [], None, None) in ms
    {
      var e := Spoken(said)[i];
      assert e in Spoken(said) + shown;
      var a := EntryStands(Spoken(said) + shown, e, H.SystemMessage(prompt));
      assert ms[a..a + 1][0] == e.chunk[0];
    }
  }

  predicate ChunksPaired(es: seq<Entry>) {
    forall i :: 0 <= i < |es| ==> WellPaired(es[i].chunk)
  }

  lemma {:induction false} ShowsArePaired(
    env: Env, rows: map<X.Key, X.Row>, steps: Steps, nos: seq<int>, covered: int)
    requires Numbered(steps) && AllIn(nos, steps)
    ensures ChunksPaired(Shows(env, rows, steps, nos, covered))
  {
    if nos != [] {
      var n := |nos| - 1;
      ShowsArePaired(env, rows, steps, nos[..n], covered);
      match steps[nos[n]] {
        case LlmCall(_, _, _) => RenderedIsPaired(env, rows, nos[n], steps[nos[n]]);
        case Summary(text, _, _) => assert [SummaryMessage(text)][1..] == [];
      }
    }
  }

  lemma {:induction false} FlattenIsPaired(es: seq<Entry>)
    requires ChunksPaired(es)
    ensures WellPaired(Flatten(es))
  {
    if es != [] {
      FlattenIsPaired(es[..|es| - 1]);
      PairedConcat(Flatten(es[..|es| - 1]), es[|es| - 1].chunk);
    }
  }

  lemma {:induction false} SortKeepsPaired(es: seq<Entry>)
    requires ChunksPaired(es)
    ensures ChunksPaired(SortByTime(es))
  {
    var sorted := SortByTime(es);
    SortIsStable(es, 0);
    forall i | 0 <= i < |sorted|
      ensures WellPaired(sorted[i].chunk)
    {
      assert sorted[i] in multiset(es);
      var j :| 0 <= j < |es| && es[j] == sorted[i];
    }
  }

  lemma OneIsPaired(m: Message)
    requires !m.role.ToolResult? && !Requests(m)
    ensures WellPaired([m])
  {
    assert [m][1..] == [];
  }

  /** Whatever the order of the timestamps, every request in the context is followed
      directly by exactly its results: chunks are moved whole. */
  lemma ContextIsPaired(
    env: Env, rows: map<X.Key, X.Row>, prompt: string, said: seq<Said>, steps: Steps, nos: seq<int>)
    requires Numbered(steps) && AllIn(nos, steps)
    requires forall i :: 0 <= i < |said| ==> !said[i].role.ToolResult?
    ensures WellPaired([H.SystemMessage(prompt)] + Flatten(Timeline(env, rows, said, steps, nos)))
  {
    var shown := Shows(env, rows, steps, nos, Covered(steps, nos));
    ShowsArePaired(env, rows, steps, nos, Covered(steps, nos));
    forall i | 0 <= i < |said|
      ensures WellPaired(Spoken(said)[i].chunk)
    {
      OneIsPaired(Spoken(said)[i].chunk[0]);
    }
    SortKeepsPaired(Spoken(said) + shown);
    FlattenIsPaired(SortByTime(Spoken(said) + shown));
    OneIsPaired(H.SystemMessage(prompt));
    PairedConcat([H.SystemMessage(prompt)], Flatten(SortByTime(Spoken(said) + shown)));
  }
}
