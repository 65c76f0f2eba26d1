/** The CLI loop: one session object whose turns append to a history, run tools through
    a cache, and decide when an answer may be final.

    What the model, the tools, the guardrails and the user do is the script of a turn;
    nothing is assumed of it. */
module MarcusLoop {
  import opened Domain
  import opened TokenUtils
  import opened TrimTheorems
  import opened History
  import opened ToolCalls
  import V = Verification
  import C = ResultCache

  /** What the repeat, no-progress and failure guards make of a step's results. */
  datatype Verdict = GoOn | Recover(text: string) | Halt

  /** What happens in one iteration: a guard before the call, an interrupt or a failure or
      a timeout while the model answers, or a response. `plan` is the plan text of a
      planning step, and `interrupted` says that the user interrupts the tools, if any
      run. */
  datatype Iteration =
    | Guarded
    | Aborts(hints: seq<string>)
    | Fails(hints: seq<string>)
    | TimesOut(hints: seq<string>)
    | Responds(
        hints: seq<string>, plan: Option<string>, content: Option<string>, calls: seq<Call>,
        interrupted: bool, verdict: Verdict)

  /** `Interrupted` is a turn left while tools ran, `Aborted` one left before. */
  datatype TurnEnd = Final | Guardrail | LlmError | Exhausted | Aborted | Interrupted

  /** One request to the model: the retained history and this call's hints. */
  datatype Request = Request(retained: seq<Message>, hints: seq<Message>)

  function Hints(texts: seq<string>): seq<Message> {
    seq(|texts|, i requires 0 <= i < |texts| => SystemMessage(texts[i]))
  }

  /** The retained history of a request is within the window and about the turn's own
      input; the hints go on top, so the whole may exceed the window, but by less than they
      weigh. */
  ghost predicate FitRequest(c: Config, input: string, r: Request) {
    && ContextTokens(c, r.retained) < c.contextWindow
    && ContextTokens(c, r.retained + r.hints) < c.contextWindow + Weigh(Tokens(c.json), r.hints)
    && LatestUser(r.retained) == Some(UserMessage(input))
  }

  /** And well paired, hints and all. */
  ghost predicate PairedRequest(r: Request) {
    WellPaired(r.retained + r.hints)
  }

  ghost predicate AreFit(c: Config, input: string, sent: seq<Request>) {
    forall r :: r in sent ==> FitRequest(c, input, r)
  }

  ghost predicate ArePaired(sent: seq<Request>) {
    forall r :: r in sent ==> PairedRequest(r)
  }

  lemma HintsKeepPairing(ms: seq<Message>, texts: seq<string>)
    requires WellPaired(ms)
    ensures WellPaired(ms + Hints(texts))
  {
    PlainHead(Hints(texts));
    PairedConcat(ms, Hints(texts));
  }

  lemma PlainKeepsLatest(ms: seq<Message>, more: seq<Message>)
    requires forall i :: 0 <= i < |more| ==> !more[i].role.User?
    ensures LatestUser(ms + more) == LatestUser(ms)
  {
    AfterLatestUserConcat(ms, more);
  }

  // ------------------------------------------------- what an iteration leaves

  /** The two things a turn writes. */
  datatype Point = Point(history: seq<Message>, log: seq<V.Event>)

  /** The policy's answer to each rejected call, by its identifier. */
  ghost predicate AreDenials<W>(env: Env<W>, calls: seq<Call>, ms: seq<Message>) {
    && |ms| == |calls|
    && forall i :: 0 <= i < |ms| ==>
         ms[i] == Message(ToolResult, Some(env.denial(calls[i])), [], Some(calls[i].id), Some(calls[i].name))
  }

  /** Each call's own observation, by its identifier. */
  ghost predicate AreResults(calls: seq<Call>, observations: seq<C.Observation>, ms: seq<Message>) {
    && |ms| == |calls| == |observations|
    && forall i :: 0 <= i < |ms| ==>
         ms[i] == Message(ToolResult, Some(observations[i].text), [], Some(calls[i].id), Some(calls[i].name))
  }

  /** What is logged of each call and its observation. */
  ghost predicate AreLogged<W>(env: Env<W>, calls: seq<Call>, observations: seq<C.Observation>, events: seq<V.Event>) {
    && |events| == |calls| == |observations|
    && forall i :: 0 <= i < |events| ==>
         && events[i].Observes?
         && (events[i].call.succeeded <==> !observations[i].error)
         && events[i].call.process == env.process(calls[i], observations[i])
         && (events[i].call.mutates <==> calls[i].name in env.toolbox.tools && env.toolbox.tools[calls[i].name].mutates)
         && (events[i].call.attempt <==> env.attempt(calls[i]))
         && (events[i].call.evidence <==> env.evidence(calls[i], observations[i]))
  }

  /** A step: the request, the denials, and, unless it broke off, every selected call's
      result and its entry in the log. */
  ghost predicate Stepped<W>(
    env: Env<W>, before: Point, content: Option<string>, calls: seq<Call>, broken: bool,
    observations: seq<C.Observation>, after: Point)
  {
    var (selected, rejected) := PlanCalls(Tiers(env.toolbox), calls, env.maxParallel);
    var shown := if broken then [] else selected;
    var n, m := |before.history| + 1, |before.history| + 1 + |rejected|;
    && |after.history| == m + |shown| && before.history <= after.history && before.log <= after.log
    && after.history[n - 1] == Message(Assistant, content, calls, None, None)
    && AreDenials(env, rejected, after.history[n..m])
    && AreResults(shown, observations, after.history[m..])
    && AreLogged(env, shown, observations, after.log[|before.log|..])
  }

  /** One iteration: the point it starts from, with the repairs and the timeout so far; where
      its step, if any, leads before the history is trimmed; and what it ends in. */
  datatype Frame = Frame(
    before: Point, repairs: nat, retried: bool, mid: Point, observations: seq<C.Observation>,
    after: Point, end: Option<TurnEnd>, repaired: nat, timedOut: bool, sent: seq<Request>)

  /** What a response does, exactly. */
  ghost predicate Responded<W>(env: Env<W>, policy: V.Policy, it: Iteration, from: Point, f: Frame)
    requires it.Responds?
  {
    if it.calls != [] then CallsAnswered(env, it, from, f) else TextTaken(env, policy, it, from, f)
  }

  function TextOf(it: Iteration): Option<string>
    requires it.Responds?
  {
    if it.plan.Some? then it.plan else it.content
  }

  /** The step is taken; unless it broke off, the history is trimmed and the guards decide. */
  ghost predicate CallsAnswered<W>(env: Env<W>, it: Iteration, from: Point, f: Frame)
    requires it.Responds?
  {
    && Stepped(env, from, TextOf(it), it.calls, BreaksOff(env, it), f.observations, f.mid)
    && f.repaired == f.repairs && f.after.log == f.mid.log
    && if BreaksOff(env, it) then f.after.history == f.mid.history && f.end == Some(Interrupted)
       else Settled(it.verdict, TrimmedHistory(env.config, f.mid.history), f.after.history, f.end)
  }

  /** The guards let the turn go on, with a warning or without, or stop it. */
  predicate Settled(verdict: Verdict, before: seq<Message>, after: seq<Message>, end: Option<TurnEnd>) {
    match verdict
    case GoOn => after == before && end == None
    case Recover(text) => after == before + [Message(System, Some(text), [], None, None)] && end == None
    case Halt => after == before && end == Some(Guardrail)
  }

  /** The text is the plan; or final, if the log lets it; or one more repair, if there is one. */
  ghost predicate TextTaken<W>(env: Env<W>, policy: V.Policy, it: Iteration, from: Point, f: Frame)
    requires it.Responds?
  {
    var said := from.history + [Message(Assistant, TextOf(it), [], None, None)];
    && f.after.log == from.log
    && if it.plan.Some? then f.after.history == said && f.end == None && f.repaired == f.repairs
       else if MayAnswer(policy, from.log) then
         f.after.history == TrimmedHistory(env.config, said) && f.end == Some(Final) && f.repaired == f.repairs
       else
         && f.after.history == said
         && (if f.repairs < env.maxRepairs then f.end == None && f.repaired == f.repairs + 1
             else f.end == Some(Guardrail) && f.repaired == f.repairs)
  }

  /** The history is trimmed, and compacted if it still reaches the threshold. */
  ghost predicate Shrunk(c: Config, before: seq<Message>, after: seq<Message>) {
    var trimmed := TrimmedHistory(c, before);
    if c.thresholdPercent <= 100 && 100 * ContextTokens(c, trimmed) >= c.thresholdPercent * Max(1, c.contextWindow)
    then after == CompactedHistory(c, trimmed) else after == trimmed
  }

  /** What an iteration does, exactly: apart from the trims, the history grows only by what
      the model said, by the results of its calls and by a warning. */
  ghost predicate Iterated<W>(env: Env<W>, policy: V.Policy, it: Iteration, f: Frame) {
    exists kept :: IteratedFrom(env, policy, it, kept, f)
  }

  ghost predicate IteratedFrom<W>(env: Env<W>, policy: V.Policy, it: Iteration, kept: seq<Message>, f: Frame) {
    var from := Point(kept, f.before.log);
    && Shrunk(env.config, f.before.history, kept)
    && if ContextTokens(env.config, kept) >= env.config.contextWindow || it.Guarded? then
         f.sent == [] && f.after == from && f.end == Some(Guardrail) && f.repaired == f.repairs && f.timedOut == f.retried
       else
         && |f.sent| == 1 && f.sent[0].retained == kept && |f.sent[0].hints| == |it.hints|
         && (forall i :: 0 <= i < |it.hints| ==> f.sent[0].hints[i] == Message(System, Some(it.hints[i]), [], None, None))
         && Exchanged(env, policy, it, from, f)
  }

  /** What comes of a request that was sent. */
  ghost predicate Exchanged<W>(env: Env<W>, policy: V.Policy, it: Iteration, from: Point, f: Frame) {
    && (if it.TimesOut? && !f.retried then f.timedOut else f.timedOut == f.retried)
    && match it
       case Guarded => true
       case Aborts(_) => f.after == from && f.end == Some(Aborted) && f.repaired == f.repairs
       case Fails(_) => f.after == from && f.end == Some(LlmError) && f.repaired == f.repairs
       case TimesOut(_) =>
         && f.repaired == f.repairs && f.after.log == from.log
         && (if f.retried then f.after == from && f.end == Some(Guardrail)
             else f.after.history == CompactedHistory(env.config, from.history) && f.end == None)
       case Responds(_, _, _, _, _, _) => Responded(env, policy, it, from, f)
  }

  /** A turn is its iterations, each from where the one before left off, until one ends it. */
  ghost predicate Played<W>(env: Env<W>, policy: V.Policy, script: seq<Iteration>, frames: seq<Frame>) {
    var n := |frames| - 1;
    || frames == []
    || (&& n < |script| && Played(env, policy, script, frames[..n]) && Iterated(env, policy, script[n], frames[n])
        && (n > 0 ==> Follows(frames[n - 1], frames[n])))
  }

  predicate Follows(f: Frame, g: Frame) {
    && f.end == None && g.before == f.after && g.repairs == f.repaired && g.retried == f.timedOut
  }

  function SentOf(frames: seq<Frame>): seq<Request> {
    if frames == [] then [] else SentOf(frames[..|frames| - 1]) + frames[|frames| - 1].sent
  }

  class MarcusLoop<W(!new)> {
    var history: seq<Message>
    var session: V.Session
    var tools: C.State<W>
    ghost var log: seq<V.Event>

    ghost predicate Valid()
      reads this
    {
      && session == V.Replay(V.Fresh, log)
      && session.revision == tools.revision
    }

    constructor (systemPrompt: string, world: W)
      ensures Valid() && log == [] && WellPaired(history)
      ensures history == if systemPrompt != "" then [SystemMessage(systemPrompt)] else []
    {
      history := if systemPrompt != "" then [SystemMessage(systemPrompt)] else [];
      session, tools, log := V.Fresh, C.Start(world), [];
    }

    // ------------------------------------------------------------- history

    method TrimHistory(c: Config)
      modifies this`history
      ensures history == TrimmedHistory(c, old(history))
      ensures WellPaired(old(history)) ==> WellPaired(history)
      ensures LatestUser(history) == LatestUser(old(history))
    {
      TrimmedHistoryIsSound(c, history);
      if history == [] {
        assert Groups(history, 0) == [];
        return;
      }
      if c.summaries && |history| > c.maxMessages {
        history := Condensed(c, history);
      }
      if |history| > c.maxMessages {
        history := TrimMessagesToCount(c.json, Both, history, c.maxMessages);
      } else {
        WeighCount(history);
        FittingIsUntouched(c.json, Both, Count, history, c.maxMessages);
      }
      history := TrimMessagesToBudget(c.json, Both, history, TokenBudget(c));
    }

    method Compact(c: Config)
      modifies this`history
      ensures history == CompactedHistory(c, old(history))
      ensures WellPaired(old(history)) ==> WellPaired(history)
      ensures LatestUser(history) == LatestUser(old(history))
    {
      CompactionIsSound(c, history);
      history := CompactHistory(c, history);
    }

    /** `/clear`: the first system message stays, and nothing is left to verify. */
    method ClearHistory()
      requires Valid()
      modifies this
      ensures Valid() && log == old(log) + [V.Clears] && WellPaired(history)
      ensures (forall m :: m in old(history) ==> !m.role.System?) ==> history == []
      ensures forall k: nat :: IsFirstSystem(old(history), k) ==> history == [old(history)[k]]
      ensures tools == old(tools).(cache := map[])
    {
      var systems := Systems(history);
      history := systems[..if systems == [] then 0 else 1];
      PlainSystems(old(history));
      FirstOfSystems(old(history));
      PlainHead(history);
      Record(V.Clears);
      tools := tools.(cache := map[]);
    }

    /** What the caller does when a turn typed at the prompt is over, however it ended. */
    method ReapProcesses()
      requires Valid()
      modifies this`session, this`log
      ensures Valid() && log == old(log) + [V.ProcessesReaped]
      ensures session == old(session).(processes := {})
    {
      Record(V.ProcessesReaped);
    }

    method Record(e: V.Event)
      requires session == V.Replay(V.Fresh, log)
      modifies this`session, this`log
      ensures log == old(log) + [e] && session == V.Replay(V.Fresh, log) == V.After(old(session), e)
      ensures session.revision == old(session).revision + if V.Mutation(e) then 1 else 0
    {
      V.ReplayOne(V.Fresh, log, e);
      session := V.After(session, e);
      log := log + [e];
    }

    // --------------------------------------------------------------- tools

    /** One call looks up or runs. */
    method Step(env: Env<W>, step: C.Step<W>) returns (o: C.Observation)
      requires step.Do? || step.Late?
      modifies this`tools
      ensures tools == C.Cached(env.toolbox, old(tools), step)
      ensures tools.seen == old(tools).seen + [o] && tools.revision == old(tools).revision
    {
      tools := C.Cached(env.toolbox, tools, step);
      o := tools.seen[|tools.seen| - 1];
    }

    /** Read-only calls run together. Each looks its result up or starts, and one that
        started ends later; in between any other may do either. An interrupt can come at
        any moment. */
    method GatherReads(env: Env<W>, calls: seq<Call>, refused: map<string, C.Observation>, interrupted: bool)
      returns (own: Option<seq<C.Observation>>, ghost steps: seq<C.Step<W>>, ghost at: map<nat, nat>)
      requires forall i :: 0 <= i < |calls| ==> IsRead(env, calls[i])
      modifies this`tools
      ensures CallsLead(env, old(tools), steps, tools) && StaysClean(env, old(tools), steps, tools)
      ensures own == None ==> interrupted && calls != []
      ensures own.Some? ==>
        Gathered(env, calls, refused, AllDone(own.value), steps, tools.seen[|old(tools).seen|..], at)
    {
      var tasks := seq(|calls|, _ => Waiting);
      steps, at := [], map[];
      while Left(tasks) != 0
        invariant Gathering(env, calls, refused, old(tools), tools, tasks, steps, at)
        decreases Left(tasks)
      {
        NothingLeft(tasks);
        if interrupted {
          if * { return None, steps, at; }
        }
        var i: nat :| i < |tasks| && !tasks[i].Done?;
        tasks, steps, at := GatherOnce(env, calls, refused, old(tools), tasks, steps, at, i);
      }
      NothingLeft(tasks);
      own := Some(seq(|tasks|, i requires 0 <= i < |tasks| => tasks[i].own));
      assert tasks == AllDone(own.value);
    }

    /** The next thing that call `i` does. */
    method GatherOnce(
      env: Env<W>, calls: seq<Call>, refused: map<string, C.Observation>, ghost begun: C.State<W>,
      tasks: seq<Task>, ghost steps: seq<C.Step<W>>, ghost at: map<nat, nat>, i: nat)
      returns (tasks': seq<Task>, ghost steps': seq<C.Step<W>>, ghost at': map<nat, nat>)
      requires Gathering(env, calls, refused, begun, tools, tasks, steps, at)
      requires i < |calls| && i < |tasks| && !tasks[i].Done? && IsRead(env, calls[i])
      modifies this`tools
      ensures Gathering(env, calls, refused, begun, tools, tasks', steps', at')
      ensures Left(tasks') < Left(tasks)
    {
      if tasks[i].Waiting? && (calls[i].id in refused || !C.Hits(env.toolbox, tools, Key(env, calls[i]))) {
        LeftOfUpdate(tasks, i, Started(refused, calls[i]));
        GatheringMore(env, calls, refused, begun, tools, tasks, steps, at, i);
        return tasks[i := Started(refused, calls[i])], steps, at;
      }
      var before := tools;
      var step := if tasks[i].Waiting? then C.Do(Key(env, calls[i])) else C.Late(Key(env, calls[i]));
      GatheringRuns(env, calls, refused, begun, before, tasks, steps, at, i, step);
      tools := C.Cached(env.toolbox, before, step);
      var task := Done(tools.seen[|before.seen|]);
      LeftOfUpdate(tasks, i, task);
      tasks', steps', at' := tasks[i := task], steps + [step], at[i := |steps|];
    }

    /** The others run one after the other. */
    method RunWrites(env: Env<W>, calls: seq<Call>, interrupted: bool)
      returns (own: seq<C.Observation>, ghost steps: seq<C.Step<W>>)
      requires forall i :: 0 <= i < |calls| ==> !IsRead(env, calls[i])
      modifies this`tools
      ensures |own| <= |calls| && (!interrupted ==> |own| == |calls|)
      ensures (tools, own) == Written(env, old(tools), calls[..|own|])
      ensures CallsLead(env, old(tools), steps, tools) && C.Clean(env.toolbox, old(tools), steps)
      ensures calls == [] ==> steps == []
    {
      own, steps := [], [];
      while |own| < |calls|
        invariant |own| <= |calls|
        invariant (tools, own) == Written(env, old(tools), calls[..|own|])
        invariant CallsLead(env, old(tools), steps, tools) && C.Clean(env.toolbox, old(tools), steps)
        invariant own == [] ==> steps == []
      {
        if interrupted {
          if * { return; }
        }
        var call := calls[|own|];
        assert calls[..|own| + 1][..|own|] == calls[..|own|];
        if env.invalid(call).Some? {
          own := own + [C.Observation(env.invalid(call).value, true)];
        } else {
          LeadOn(env, old(tools), steps, tools, C.Do(Key(env, call)));
          C.CleanOne(env.toolbox, old(tools), steps, C.Do(Key(env, call)));
          var o := Step(env, C.Do(Key(env, call)));
          own, steps := own + [o], steps + [C.Do(Key(env, call))];
        }
      }
    }

    /** Runs the selected calls: the read-only ones together, the others behind them. Each
        is answered with the result of the last call of its identifier. */
    method ExecuteSelectedCalls(env: Env<W>, selected: seq<Call>, interrupted: bool)
      returns (observations: Option<seq<C.Observation>>, ghost own: seq<C.Observation>, ghost steps: seq<C.Step<W>>)
      modifies this`tools
      ensures observations == None <==> interrupted && selected != []
      ensures observations.Some? ==>
        Ran(env, old(tools), selected, own, tools) && AreCollected(env, selected, own, observations.value)
      ensures CallsLead(env, old(tools), steps, tools)
      ensures ReadsDoNotMutate(env.toolbox) && !old(tools).dirty ==>
        C.Clean(env.toolbox, old(tools), steps) && (Writes(env, selected) == [] ==> !tools.dirty)
    {
      var together, others := SplitSelected(env, selected);
      var refused := Refuse(env, together);
      var looked, writes;
      ghost var at, more;
      own := [];
      looked, steps, at := GatherReads(env, together, refused, interrupted);
      if looked.None? {
        return None, own, steps;
      }
      ghost var gathered, mid := steps, tools;
      writes, more := RunWrites(env, others, interrupted);
      LeadFurther(env, old(tools), gathered, mid, more, tools);
      steps := gathered + more;
      if interrupted && selected != [] {
        return None, own, steps;
      }
      var all := looked.value + writes;
      own := all;
      assert others[..|writes|] == others && own[|together|..] == writes && own[..|together|] == looked.value;
      assert RanAs(env, old(tools), selected, own, tools, gathered, at);
      OrderedCount(env, selected);
      var answers := AnswerAll(env, selected, all);
      observations := Some(answers);
    }

    method SplitSelected(env: Env<W>, selected: seq<Call>) returns (together: seq<Call>, others: seq<Call>)
      ensures together == Reads(env, selected) && others == Writes(env, selected)
      ensures forall i :: 0 <= i < |together| ==> IsRead(env, together[i])
      ensures forall i :: 0 <= i < |others| ==> !IsRead(env, others[i])
    {
      together, others := [], [];
      for i := 0 to |selected|
        invariant together == Reads(env, selected[..i]) && others == Writes(env, selected[..i])
        invariant forall k :: 0 <= k < |together| ==> IsRead(env, together[k])
        invariant forall k :: 0 <= k < |others| ==> !IsRead(env, others[k])
      {
        assert selected[..i + 1][..i] == selected[..i];
        if IsRead(env, selected[i]) { together := together + [selected[i]]; } else { others := others + [selected[i]]; }
      }
      assert selected[..|selected|] == selected;
    }

    /** Arguments are checked before anything runs. */
    method Refuse(env: Env<W>, calls: seq<Call>) returns (refused: map<string, C.Observation>)
      ensures refused == Refused(env, calls)
    {
      refused := map[];
      for i := 0 to |calls|
        invariant refused == Refused(env, calls[..i])
      {
        assert calls[..i + 1][..i] == calls[..i];
        if env.invalid(calls[i]).Some? {
          refused := refused[calls[i].id := C.Observation(env.invalid(calls[i]).value, true)];
        }
      }
      assert calls[..|calls|] == calls;
    }

    method AnswerAll(env: Env<W>, selected: seq<Call>, own: seq<C.Observation>) returns (r: seq<C.Observation>)
      requires |own| == |selected|
      ensures AreCollected(env, selected, own, r)
    {
      OrderedCount(env, selected);
      OrderedIdsCollected(env, selected, own);
      var results := Collect(Ordered(env, selected), own);
      r := seq(|selected|, i requires 0 <= i < |selected| => results[selected[i].id]);
    }

    method Collect(calls: seq<Call>, own: seq<C.Observation>) returns (results: map<string, C.Observation>)
      requires |own| == |calls|
      ensures results == Collected(calls, own)
    {
      results := map[];
      for i := 0 to |calls|
        invariant results == Collected(calls[..i], own[..i])
      {
        assert calls[..i + 1][..i] == calls[..i] && own[..i + 1][..i] == own[..i];
        results := results[calls[i].id := own[i]];
      }
      assert calls[..|calls|] == calls && own[..|own|] == own;
    }

    /** The bookkeeping of the observations, and their messages: a successful mutation
        empties the cache. */
    method RecordObservations(env: Env<W>, selected: seq<Call>, observations: seq<C.Observation>)
      requires |observations| == |selected| && Valid()
      modifies this
      ensures Valid() && log == old(log) + Observations(env, selected, observations)
      ensures
        tools == C.RunCached(env.toolbox, old(tools), Clears(V.Mutations(Observations(env, selected, observations))))
      ensures history == old(history) + Paired(selected, Texts(observations))
    {
      ghost var begun := tools;
      ghost var events := Observations(env, selected, observations);
      ghost var results := Paired(selected, Texts(observations));
      for i := 0 to |selected|
        invariant Valid() && log == old(log) + events[..i]
        invariant tools == C.RunCached(env.toolbox, begun, Clears(V.Mutations(events[..i])))
        invariant history == old(history) + results[..i]
      {
        OneMoreEvent(env.toolbox, begun, events, i);
        TakeOneMore(results, i);
        RecordObservation(env, selected[i], observations[i]);
      }
      assert events[..|events|] == events && results[..|results|] == results;
    }

    method RecordObservation(env: Env<W>, call: Call, o: C.Observation)
      requires Valid()
      modifies this
      ensures Valid() && log == old(log) + [V.Observes(ObservedOf(env, call, o))]
      ensures tools ==
        if V.Mutation(V.Observes(ObservedOf(env, call, o))) then C.Cached(env.toolbox, old(tools), C.Clear) else old(tools)
      ensures history == old(history) + [ResultMessage(call, o.text)]
    {
      var observed := ObservedOf(env, call, o);
      Record(V.Observes(observed));
      if observed.succeeded && observed.mutates {
        tools := C.Cached(env.toolbox, tools, C.Clear);
      }
      history := history + [ResultMessage(call, o.text)];
    }

    // ----------------------------------------------------------- the turn

    /** Runs and records the planned calls, unless an interrupt leaves them. */
    method AnswerCalls(env: Env<W>, ghost calls: seq<Call>, selected: seq<Call>, interrupted: bool)
      returns (observed: Option<seq<C.Observation>>, ghost steps: seq<C.Step<W>>)
      requires Valid() && selected == PlanCalls(Tiers(env.toolbox), calls, env.maxParallel).0
      modifies this
      ensures Valid()
      ensures observed == None <==> interrupted && selected != []
      ensures observed == None ==> history == old(history) && log == old(log)
      ensures observed.Some? ==>
        && |observed.value| == |selected| && WasTold(env, old(tools), selected, observed.value, tools.seen)
        && history == old(history) + Paired(selected, Texts(observed.value))
        && log == old(log) + Observations(env, selected, observed.value)
      ensures OneSession(env, old(tools), steps, tools, observed.Some?)
    {
      ghost var own;
      observed, own, steps := ExecuteSelectedCalls(env, selected, interrupted);
      if observed.None? {
        return;
      }
      ghost var n := V.Mutations(Observations(env, selected, observed.value));
      PlannedAreTold(env, old(tools), calls, own, tools, observed.value);
      RecordedIsClean(env, old(tools), calls, own, steps, tools, observed.value);
      ClearsOnly(env.toolbox, tools, n);
      RecordObservations(env, selected, observed.value);
      steps := steps + Clears(n);
    }

    /** The request, the policy's answers to the rejected calls, and the results of the
        selected ones, each told its own. An interrupt while they run leaves the step without
        those: the history is then not paired, and the log knows nothing of what they did. */
    method AppendStep(env: Env<W>, content: Option<string>, calls: seq<Call>, interrupted: bool)
      returns (broken: bool, ghost steps: seq<C.Step<W>>, ghost observations: seq<C.Observation>)
      requires Valid() && calls != []
      modifies this
      ensures Valid()
      ensures (broken <==> CutShort(env, calls, interrupted)) && old(log) <= log
      ensures Stepped(env, old(Point(history, log)), content, calls, broken, observations, Point(history, log))
      ensures !broken ==>
        WasTold(env, old(tools), PlanCalls(Tiers(env.toolbox), calls, env.maxParallel).0, observations, tools.seen)
      ensures LatestUser(history) == LatestUser(old(history))
      ensures WellPaired(old(history)) ==> (WellPaired(history) <==> !broken)
      ensures OneSession(env, old(tools), steps, tools, !broken)
    {
      var selected, rejected := PlanToolCalls(Tiers(env.toolbox), calls, env.maxParallel);
      var denied := Denials(env, rejected);
      history := history + [RequestMessage(content, calls)];
      history := history + Paired(rejected, denied);
      var observed;
      observed, steps := AnswerCalls(env, calls, selected, interrupted);
      broken, observations := observed.None?, if observed.Some? then observed.value else [];
      if broken {
        BrokenStep(env, old(history), log, content, calls, rejected, selected);
      } else {
        StepGoesOn(env, old(history), old(log), content, calls, rejected, selected, observations);
      }
    }

    /** A step with tool calls, and then, unless it was interrupted, the history is
        trimmed. */
    method RunStep(env: Env<W>, content: Option<string>, calls: seq<Call>, interrupted: bool)
      returns (broken: bool, ghost steps: seq<C.Step<W>>, ghost observations: seq<C.Observation>, ghost mid: Point)
      requires Valid() && calls != []
      modifies this
      ensures Valid()
      ensures (broken <==> CutShort(env, calls, interrupted)) && old(log) <= log
      ensures Stepped(env, old(Point(history, log)), content, calls, broken, observations, mid) && log == mid.log
      ensures history == if broken then mid.history else TrimmedHistory(env.config, mid.history)
      ensures !broken ==>
        WasTold(env, old(tools), PlanCalls(Tiers(env.toolbox), calls, env.maxParallel).0, observations, tools.seen)
      ensures LatestUser(history) == LatestUser(old(history))
      ensures WellPaired(old(history)) ==> (WellPaired(history) <==> !broken)
      ensures OneSession(env, old(tools), steps, tools, !broken)
    {
      broken, steps, observations := AppendStep(env, content, calls, interrupted);
      mid := Point(history, log);
      if !broken {
        TrimHistory(env.config);
      }
    }

    /** A reply without tool calls: final if the policy lets it, else one more repair. */
    method TryFinish(env: Env<W>, policy: V.Policy, content: Option<string>) returns (final: bool)
      requires Valid()
      modifies this`history
      ensures Valid() && LatestUser(history) == LatestUser(old(history))
      ensures WellPaired(old(history)) ==> WellPaired(history)
      ensures final <==> MayAnswer(policy, log)
      ensures
        var said := old(history) + [Message(Assistant, content, [], None, None)];
        history == if final then TrimmedHistory(env.config, said) else said
    {
      Append(RequestMessage(content, []));
      V.FinalAnswers(policy, log);
      final := session.processes == {} && (V.Required(policy, session) ==> V.Current(session));
      if final {
        TrimHistory(env.config);
      }
    }

    /** The history as it goes into the next request, unless it is too large. */
    method Shrink(c: Config) returns (fits: bool)
      modifies this`history
      ensures LatestUser(history) == LatestUser(old(history))
      ensures WellPaired(old(history)) ==> WellPaired(history)
      ensures Shrunk(c, old(history), history) && (fits <==> ContextTokens(c, history) < c.contextWindow)
    {
      TrimHistory(c);
      if ReachesThreshold(c, history) {
        Compact(c);
      }
      fits := ContextTokens(c, history) < c.contextWindow;
    }

    method Append(m: Message)
      requires !m.role.ToolResult? && !Requests(m)
      modifies this`history
      ensures history == old(history) + [m]
      ensures WellPaired(old(history)) ==> WellPaired(history)
      ensures LatestUser(history) == if m.role.User? then Some(m) else LatestUser(old(history))
    {
      if WellPaired(history) { PlainKeepsPairing(history, m); }
      AfterLatestUserConcat(history, [m]);
      history := history + [m];
    }

    /** One iteration of the turn. It ends the turn, or leaves it to the next one. */
    method Iterate(env: Env<W>, input: string, policy: V.Policy, it: Iteration, repairs: nat, retried: bool)
      returns (
        end: Option<TurnEnd>, sent: seq<Request>, repaired: nat, timedOut: bool,
        ghost steps: seq<C.Step<W>>, ghost frame: Frame)
      requires Valid() && LatestUser(history) == Some(UserMessage(input))
      modifies this
      ensures Valid() && old(log) <= log && LatestUser(history) == Some(UserMessage(input))
      ensures frame.before == old(Point(history, log)) && frame.repairs == repairs && frame.retried == retried
      ensures frame.after == Point(history, log) && frame.end == end && frame.sent == sent
      ensures frame.repaired == repaired && frame.timedOut == timedOut && Iterated(env, policy, it, frame)
      ensures Tells(env, it, frame, old(tools), tools.seen)
      ensures |sent| <= 1 && AreFit(env.config, input, sent)
      ensures WellPaired(old(history)) ==> ArePaired(sent) && (WellPaired(history) <==> end != Some(Interrupted))
      ensures OneSession(env, old(tools), steps, tools, end != Some(Interrupted))
      ensures end == Some(Final) ==> MayAnswer(policy, log)
      ensures end == Some(Interrupted) <==> BreaksOff(env, it) && sent != []
    {
      end, sent, repaired, timedOut, steps := None, [], repairs, retried, [];
      frame := Frame(Point(history, log), repairs, retried, Point([], []), [], Point([], []), None, repairs, retried, []);
      var fits := Shrink(env.config);
      ghost var kept := history;
      if !fits || it.Guarded? {
        end := Some(Guardrail);
        frame := frame.(after := Point(history, log), end := end);
        StopIterates(env, policy, it, kept, frame);
        return;
      }
      sent := [Request(history, Hints(it.hints))];
      RequestIsFit(env.config, input, history, it.hints);
      frame := frame.(sent := sent);
      end, repaired, timedOut, steps, frame := Exchange(env, policy, it, repairs, retried, frame);
      ExchangeIterates(env, policy, it, kept, frame);
    }

    /** What comes of the request. */
    method Exchange(env: Env<W>, policy: V.Policy, it: Iteration, repairs: nat, retried: bool, ghost frame: Frame)
      returns (end: Option<TurnEnd>, repaired: nat, timedOut: bool, ghost steps: seq<C.Step<W>>, ghost frame': Frame)
      requires Valid() && !it.Guarded? && frame.repairs == repairs && frame.retried == retried
      modifies this
      ensures Valid() && old(log) <= log && LatestUser(history) == LatestUser(old(history))
      ensures frame' == frame.(
        mid := frame'.mid, observations := frame'.observations, after := Point(history, log), end := end,
        repaired := repaired, timedOut := timedOut)
      ensures Exchanged(env, policy, it, old(Point(history, log)), frame')
      ensures it.Responds? && it.calls != [] && !BreaksOff(env, it) ==>
        WasTold(
          env, old(tools), PlanCalls(Tiers(env.toolbox), it.calls, env.maxParallel).0, frame'.observations, tools.seen)
      ensures WellPaired(old(history)) ==> (WellPaired(history) <==> end != Some(Interrupted))
      ensures OneSession(env, old(tools), steps, tools, end != Some(Interrupted))
      ensures end == Some(Final) ==> MayAnswer(policy, log)
      ensures end == Some(Interrupted) <==> BreaksOff(env, it)
    {
      end, repaired, timedOut, steps, frame' := None, repairs, retried, [], frame;
      match it {
        case Aborts(_) => end := Some(Aborted);
        case Fails(_) => end := Some(LlmError);
        case TimesOut(_) =>
          if retried {
            end := Some(Guardrail);
          } else {
            timedOut := true;
            Compact(env.config);
          }
        case Responds(_, _, _, _, _, _) =>
          end, repaired, steps, frame' := TakeResponse(env, policy, it, repairs, frame);
      }
      frame' := frame'.(after := Point(history, log), end := end, repaired := repaired, timedOut := timedOut);
    }

    /** A response runs its calls, or is the plan, or tries to be the final answer. */
    method TakeResponse(env: Env<W>, policy: V.Policy, it: Iteration, repairs: nat, ghost frame: Frame)
      returns (end: Option<TurnEnd>, repaired: nat, ghost steps: seq<C.Step<W>>, ghost frame': Frame)
      requires Valid() && it.Responds? && frame.repairs == repairs
      modifies this
      ensures Valid() && old(log) <= log && LatestUser(history) == LatestUser(old(history))
      ensures frame' == frame.(
        mid := frame'.mid, observations := frame'.observations, after := Point(history, log), end := end, repaired := repaired)
      ensures Responded(env, policy, it, old(Point(history, log)), frame')
      ensures it.calls != [] && !BreaksOff(env, it) ==>
        WasTold(
          env, old(tools), PlanCalls(Tiers(env.toolbox), it.calls, env.maxParallel).0, frame'.observations, tools.seen)
      ensures WellPaired(old(history)) ==> (WellPaired(history) <==> end != Some(Interrupted))
      ensures OneSession(env, old(tools), steps, tools, end != Some(Interrupted))
      ensures end == Some(Final) ==> MayAnswer(policy, log)
      ensures end == Some(Interrupted) <==> BreaksOff(env, it)
    {
      if it.calls != [] {
        end, steps, frame' := TakeCalls(env, it, frame);
        repaired := repairs;
      } else {
        end, repaired, frame' := TakeText(env, policy, it, repairs, frame);
        steps := [];
      }
    }

    /** A response with calls. */
    method TakeCalls(env: Env<W>, it: Iteration, ghost frame: Frame)
      returns (end: Option<TurnEnd>, ghost steps: seq<C.Step<W>>, ghost frame': Frame)
      requires Valid() && it.Responds? && it.calls != []
      modifies this
      ensures Valid() && old(log) <= log && LatestUser(history) == LatestUser(old(history))
      ensures frame' == frame.(
        mid := frame'.mid, observations := frame'.observations, after := Point(history, log), end := end,
        repaired := frame.repairs)
      ensures CallsAnswered(env, it, old(Point(history, log)), frame')
      ensures !BreaksOff(env, it) ==>
        WasTold(
          env, old(tools), PlanCalls(Tiers(env.toolbox), it.calls, env.maxParallel).0, frame'.observations, tools.seen)
      ensures WellPaired(old(history)) ==> (WellPaired(history) <==> end != Some(Interrupted))
      ensures OneSession(env, old(tools), steps, tools, end != Some(Interrupted))
      ensures end != Some(Final) && (end == Some(Interrupted) <==> BreaksOff(env, it))
    {
      var broken;
      ghost var observations, mid;
      broken, steps, observations, mid :=
        RunStep(env, TextOf(it), it.calls, it.interrupted);
      end := if broken then Some(Interrupted) else None;
      if !broken {
        end := Settle(it.verdict);
      }
      frame' := frame.(
        mid := mid, observations := observations, after := Point(history, log), end := end, repaired := frame.repairs);
    }

    /** A response without calls: the plan, or a try at the final answer. */
    method TakeText(env: Env<W>, policy: V.Policy, it: Iteration, repairs: nat, ghost frame: Frame)
      returns (end: Option<TurnEnd>, repaired: nat, ghost frame': Frame)
      requires Valid() && it.Responds? && it.calls == [] && frame.repairs == repairs
      modifies this`history
      ensures Valid() && LatestUser(history) == LatestUser(old(history))
      ensures frame' == frame.(after := Point(history, log), end := end, repaired := repaired)
      ensures TextTaken(env, policy, it, old(Point(history, log)), frame')
      ensures WellPaired(old(history)) ==> WellPaired(history)
      ensures end != Some(Interrupted) && (end == Some(Final) ==> MayAnswer(policy, log))
    {
      end, repaired := None, repairs;
      if it.plan.Some? {
        Append(RequestMessage(it.plan, []));
      } else {
        var final := TryFinish(env, policy, it.content);
        if final {
          end := Some(Final);
        } else if repairs < env.maxRepairs {
          repaired := repairs + 1;
        } else {
          end := Some(Guardrail);
        }
      }
      frame' := frame.(after := Point(history, log), end := end, repaired := repaired);
    }

    /** What the guards make of the step: go on, go on with a warning, or stop. */
    method Settle(verdict: Verdict) returns (end: Option<TurnEnd>)
      modifies this`history
      ensures LatestUser(history) == LatestUser(old(history))
      ensures end != Some(Final) && end != Some(Interrupted) && Settled(verdict, old(history), history, end)
      ensures WellPaired(old(history)) ==> WellPaired(history)
    {
      end := None;
      match verdict {
        case GoOn =>
        case Recover(message) => Append(SystemMessage(message));
        case Halt => end := Some(Guardrail);
      }
    }

    /** The start of a turn: the cache is emptied, the input appended, and evidence of an
        earlier turn dropped unless the turn continues it. */
    method BeginTurn(env: Env<W>, input: string, continuing: bool, outside: W)
      requires Valid()
      modifies this
      ensures Valid() && log == old(log) + [V.TurnStarts(continuing)]
      ensures history == old(history) + [Message(User, Some(input), [], None, None)]
      ensures LatestUser(history) == Some(UserMessage(input))
      ensures WellPaired(old(history)) ==> WellPaired(history)
      ensures tools == C.RunCached(env.toolbox, old(tools), [C.Turn(outside)]) && !tools.dirty
    {
      EmptyCache(env, outside);
      Append(UserMessage(input));
      Record(V.TurnStarts(continuing));
    }

    method EmptyCache(env: Env<W>, outside: W)
      modifies this`tools
      ensures tools == C.RunCached(env.toolbox, old(tools), [C.Turn(outside)])
      ensures tools.revision == old(tools).revision && !tools.dirty
    {
      tools := C.Cached(env.toolbox, tools, C.Turn(outside));
      C.RunOne(env.toolbox, old(tools), C.Turn(outside));
    }

    /** One turn, whatever the model, the tools, the user and the guardrails do. It ends
        within its steps; every request it sends fits, is about this input, and is paired
        if the history was; the history is paired afterwards exactly if the tools were not
        interrupted; its tool calls are one session of the cache, emptied first and clean;
        and an answer is final only when the log allows it. */
    method RunTurn(
      env: Env<W>, input: string, continuing: bool, policy: V.Policy, outside: W, script: seq<Iteration>)
      returns (end: TurnEnd, sent: seq<Request>, ghost steps: seq<C.Step<W>>, ghost frames: seq<Frame>)
      requires Valid() && |script| >= env.maxSteps
      modifies this
      ensures Valid() && old(log) + [V.TurnStarts(continuing)] <= log
      ensures Played(env, policy, script, frames) && sent == SentOf(frames)
      ensures
        var start := Point(
          old(history) + [Message(User, Some(input), [], None, None)], old(log) + [V.TurnStarts(continuing)]);
        StartsAndEnds(env, start, frames, Point(history, log), end)
      ensures LatestUser(history) == Some(UserMessage(input))
      ensures |sent| <= env.maxSteps && AreFit(env.config, input, sent)
      ensures WellPaired(old(history)) ==> ArePaired(sent) && (WellPaired(history) <==> !end.Interrupted?)
      ensures tools == C.RunCached(env.toolbox, old(tools), [C.Turn(outside)] + steps) && NoTurn(steps)
      ensures ReadsDoNotMutate(env.toolbox) ==> C.Clean(env.toolbox, old(tools), [C.Turn(outside)] + steps)
      ensures end.Final? ==> MayAnswer(policy, log)
    {
      BeginTurn(env, input, continuing, outside);
      ghost var begun, start := tools, Point(history, log);
      var repairs, retried := 0, false;
      sent, steps, frames := [], [], [];
      for i := 0 to env.maxSteps
        invariant Valid() && old(log) + [V.TurnStarts(continuing)] <= log
        invariant LatestUser(history) == Some(UserMessage(input))
        invariant |frames| == i && Played(env, policy, script, frames) && sent == SentOf(frames)
        invariant Reaches(start, frames, Point(history, log), repairs, retried)
        invariant |sent| <= i && AreFit(env.config, input, sent)
        invariant WellPaired(old(history)) ==> WellPaired(history) && ArePaired(sent)
        invariant OneSession(env, begun, steps, tools, true)
      {
        var stop;
        stop, sent, repairs, retried, steps, frames :=
          NextIteration(env, input, policy, script[i], script, sent, repairs, retried, begun, start, steps, frames);
        if stop.Some? {
          JoinTurn(env.toolbox, old(tools), outside, steps);
          return stop.value, sent, steps, frames;
        }
      }
      end := Exhausted;
      JoinTurn(env.toolbox, old(tools), outside, steps);
    }

    /** The next iteration, and what the turn has come to with it. */
    method NextIteration(
      env: Env<W>, input: string, policy: V.Policy, it: Iteration, ghost script: seq<Iteration>, sent: seq<Request>, repairs: nat, retried: bool,
      ghost begun: C.State<W>, ghost start: Point, ghost steps: seq<C.Step<W>>, ghost frames: seq<Frame>)
      returns (
        end: Option<TurnEnd>, sent': seq<Request>, repaired: nat, timedOut: bool,
        ghost steps': seq<C.Step<W>>, ghost frames': seq<Frame>)
      requires Valid() && LatestUser(history) == Some(UserMessage(input)) && |frames| < |script| && it == script[|frames|]
      requires Played(env, policy, script, frames) && sent == SentOf(frames)
      requires Reaches(start, frames, Point(history, log), repairs, retried) && AreFit(env.config, input, sent)
      requires OneSession(env, begun, steps, tools, true) && !begun.dirty
      modifies this
      ensures Valid() && old(log) <= log && LatestUser(history) == Some(UserMessage(input))
      ensures |frames'| == |frames| + 1 && Played(env, policy, script, frames') && sent' == SentOf(frames')
      ensures end == None ==> Reaches(start, frames', Point(history, log), repaired, timedOut)
      ensures end.Some? ==> StartsAndEnds(env, start, frames', Point(history, log), end.value)
      ensures |sent'| <= |sent| + 1 && AreFit(env.config, input, sent')
      ensures WellPaired(old(history)) ==>
        (ArePaired(sent) ==> ArePaired(sent')) && (WellPaired(history) <==> end != Some(Interrupted))
      ensures OneSession(env, begun, steps', tools, end != Some(Interrupted))
      ensures end == Some(Final) ==> MayAnswer(policy, log)
    {
      var requests;
      ghost var more, frame;
      end, requests, repaired, timedOut, more, frame := Iterate(env, input, policy, it, repairs, retried);
      OneMoreFrame(env, policy, script, start, frames, frame);
      SessionGoesOn(env, begun, steps, old(tools), more, tools, end != Some(Interrupted));
      sent', steps', frames' := sent + requests, steps + more, frames + [frame];
    }

    /** A turn typed at the prompt: however it ends, the processes are closed behind it. */
    method PromptTurn(
      env: Env<W>, input: string, policy: V.Policy, outside: W, script: seq<Iteration>)
      returns (end: TurnEnd, sent: seq<Request>, ghost steps: seq<C.Step<W>>, ghost frames: seq<Frame>)
      requires Valid() && |script| >= env.maxSteps
      modifies this
      ensures Valid() && old(log) + [V.TurnStarts(false)] <= log && session.processes == {}
      ensures log != [] && log[|log| - 1] == V.ProcessesReaped
      ensures WellPaired(old(history)) ==> (WellPaired(history) <==> !end.Interrupted?)
      ensures Played(env, policy, script, frames) && sent == SentOf(frames)
      ensures
        var start := Point(old(history) + [Message(User, Some(input), [], None, None)], old(log) + [V.TurnStarts(false)]);
        StartsAndEnds(env, start, frames, Point(history, log[..|log| - 1]), end)
      ensures end.Final? ==> MayAnswer(policy, log[..|log| - 1])
    {
      end, sent, steps, frames := RunTurn(env, input, false, policy, outside, script);
      ghost var before := log;
      ReapProcesses();
      assert log[..|log| - 1] == before;
    }
  }

  /** The observations of a whole step are what its calls were told. */
  ghost predicate Tells<W(!new)>(env: Env<W>, it: Iteration, f: Frame, s: C.State<W>, seen: seq<C.Observation>) {
    it.Responds? && it.calls != [] && f.sent != [] && !BreaksOff(env, it) ==>
      WasTold(env, s, PlanCalls(Tiers(env.toolbox), it.calls, env.maxParallel).0, f.observations, seen)
  }

  /** Where the iterations lead from the start, none having ended the turn. */
  predicate Reaches(start: Point, frames: seq<Frame>, now: Point, repairs: nat, retried: bool) {
    if frames == [] then now == start && repairs == 0 && !retried
    else
      var last := frames[|frames| - 1];
      && frames[0].before == start && frames[0].repairs == 0 && !frames[0].retried
      && last.end == None && last.after == now && last.repaired == repairs && last.timedOut == retried
  }

  /** A turn ends as its last iteration does, or when its steps are used up. */
  predicate StartsAndEnds<W>(env: Env<W>, start: Point, frames: seq<Frame>, now: Point, end: TurnEnd) {
    if frames == [] then env.maxSteps == 0 && now == start && end == Exhausted
    else
      var last := frames[|frames| - 1];
      && frames[0].before == start && frames[0].repairs == 0 && !frames[0].retried && last.after == now
      && (last.end == Some(end) || (last.end == None && end == Exhausted && |frames| == env.maxSteps))
  }

  lemma StopIterates<W>(env: Env<W>, policy: V.Policy, it: Iteration, kept: seq<Message>, f: Frame)
    requires Shrunk(env.config, f.before.history, kept)
    requires ContextTokens(env.config, kept) >= env.config.contextWindow || it.Guarded?
    requires f.sent == [] && f.after == Point(kept, f.before.log) && f.end == Some(Guardrail)
    requires f.repaired == f.repairs && f.timedOut == f.retried
    ensures Iterated(env, policy, it, f)
  {
    assert IteratedFrom(env, policy, it, kept, f);
  }

  lemma ExchangeIterates<W>(env: Env<W>, policy: V.Policy, it: Iteration, kept: seq<Message>, f: Frame)
    requires Shrunk(env.config, f.before.history, kept) && !it.Guarded?
    requires ContextTokens(env.config, kept) < env.config.contextWindow && f.sent == [Request(kept, Hints(it.hints))]
    requires Exchanged(env, policy, it, Point(kept, f.before.log), f)
    ensures Iterated(env, policy, it, f)
  {
    assert IteratedFrom(env, policy, it, kept, f);
  }

  lemma OneMoreFrame<W>(env: Env<W>, policy: V.Policy, script: seq<Iteration>, start: Point, frames: seq<Frame>, f: Frame)
    requires Played(env, policy, script, frames) && |frames| < |script|
    requires Iterated(env, policy, script[|frames|], f) && Reaches(start, frames, f.before, f.repairs, f.retried)
    ensures Played(env, policy, script, frames + [f]) && SentOf(frames + [f]) == SentOf(frames) + f.sent
  {
    assert (frames + [f])[..|frames|] == frames;
  }

  /** A request that fits, with its hints. */
  lemma RequestIsFit(c: Config, input: string, kept: seq<Message>, hints: seq<string>)
    requires ContextTokens(c, kept) < c.contextWindow && LatestUser(kept) == Some(UserMessage(input))
    ensures FitRequest(c, input, Request(kept, Hints(hints)))
    ensures WellPaired(kept) ==> PairedRequest(Request(kept, Hints(hints)))
  {
    WeighConcat(Tokens(c.json), kept, Hints(hints));
    if WellPaired(kept) { HintsKeepPairing(kept, hints); }
  }

  /** The planned calls of a step are told their own. */
  lemma PlannedAreTold<W(!new)>(
    env: Env<W>, s: C.State<W>, calls: seq<Call>, own: seq<C.Observation>, t: C.State<W>, observations: seq<C.Observation>)
    requires
      var selected := PlanCalls(Tiers(env.toolbox), calls, env.maxParallel).0;
      Ran(env, s, selected, own, t) && AreCollected(env, selected, own, observations)
    ensures WasTold(env, s, PlanCalls(Tiers(env.toolbox), calls, env.maxParallel).0, observations, t.seen)
  {
    var selected := PlanCalls(Tiers(env.toolbox), calls, env.maxParallel).0;
    PlanIsAllReadsOrOneWrite(env, calls);
    if |selected| == 1 && !IsRead(env, selected[0]) {
      assert selected == [selected[0]];
      LastOfIdWins(Ordered(env, selected), own, 0);
      assert Ordered(env, selected)[0] == selected[0] by { OrderedHasAll(env, selected, 0); }
      assert observations == own;
      LoneWriteIsTold(env, s, selected[0], own, t, observations);
    } else {
      ReadsOfReads(env, selected);
      assert Ordered(env, selected) == selected;
      ReadsAreTold(env, s, selected, own, t, observations);
    }
  }

  function Denials<W>(env: Env<W>, rejected: seq<Call>): seq<string> {
    seq(|rejected|, i requires 0 <= i < |rejected| => env.denial(rejected[i]))
  }

  /** The calls are one session of the cache; it is clean, if it began so, and leaves no
      mutation waiting if it was `settled`. */
  ghost predicate OneSession<W>(env: Env<W>, s: C.State<W>, steps: seq<C.Step<W>>, t: C.State<W>, settled: bool) {
    && t == C.RunCached(env.toolbox, s, steps) && NoTurn(steps)
    && (ReadsDoNotMutate(env.toolbox) && !s.dirty ==> C.Clean(env.toolbox, s, steps) && (settled ==> !t.dirty))
  }

  lemma SessionGoesOn<W>(
    env: Env<W>, s: C.State<W>, steps: seq<C.Step<W>>, mid: C.State<W>, more: seq<C.Step<W>>, t: C.State<W>, settled: bool)
    requires OneSession(env, s, steps, mid, true) && OneSession(env, mid, more, t, settled) && !s.dirty
    ensures OneSession(env, s, steps + more, t, settled)
  {
    JoinSteps(env.toolbox, s, steps, more);
  }

  ghost predicate NoTurn<W>(steps: seq<C.Step<W>>) {
    forall i :: 0 <= i < |steps| ==> !steps[i].Turn?
  }

  /** The user interrupts the tools, and some call was to run. */
  ghost predicate CutShort<W>(env: Env<W>, calls: seq<Call>, interrupted: bool) {
    interrupted && PlanCalls(Tiers(env.toolbox), calls, env.maxParallel).0 != []
  }

  /** The iteration runs tools and is interrupted in them. */
  ghost predicate BreaksOff<W>(env: Env<W>, it: Iteration) {
    it.Responds? && it.calls != [] && CutShort(env, it.calls, it.interrupted)
  }

  /** Each call is answered with what was collected for its identifier. */
  ghost predicate AreCollected<W>(
    env: Env<W>, selected: seq<Call>, own: seq<C.Observation>, observations: seq<C.Observation>)
  {
    && |observations| == |selected| == |own| == |Ordered(env, selected)|
    && forall i :: 0 <= i < |selected| ==>
         && selected[i].id in Collected(Ordered(env, selected), own)
         && observations[i] == Collected(Ordered(env, selected), own)[selected[i].id]
  }

  lemma OrderedIdsCollected<W>(env: Env<W>, selected: seq<Call>, own: seq<C.Observation>)
    requires |own| == |selected| == |Ordered(env, selected)|
    ensures forall i :: 0 <= i < |selected| ==> selected[i].id in Collected(Ordered(env, selected), own)
  {
    forall i | 0 <= i < |selected|
      ensures selected[i].id in Collected(Ordered(env, selected), own)
    {
      OrderedHasAll(env, selected, i);
      CollectedHasAll(Ordered(env, selected), own, selected[i]);
    }
  }

  /** One more event is recorded, and empties the cache if it is a mutation. */
  lemma OneMoreEvent<W>(t: C.Toolbox<W>, s: C.State<W>, events: seq<V.Event>, i: nat)
    requires i < |events|
    ensures events[..i + 1] == events[..i] + [events[i]]
    ensures
      var before := C.RunCached(t, s, Clears(V.Mutations(events[..i])));
      C.RunCached(t, s, Clears(V.Mutations(events[..i + 1])))
      == if V.Mutation(events[i]) then C.Cached(t, before, C.Clear) else before
  {
    V.ReplayOne(V.Fresh, events[..i], events[i]);
    assert events[..i + 1] == events[..i] + [events[i]];
    ClearsOnly(t, s, V.Mutations(events[..i]));
    ClearsOnly(t, s, V.Mutations(events[..i + 1]));
  }

  lemma LeadFurther<W>(
    env: Env<W>, s: C.State<W>, steps: seq<C.Step<W>>, mid: C.State<W>, more: seq<C.Step<W>>, t: C.State<W>)
    requires CallsLead(env, s, steps, mid) && CallsLead(env, mid, more, t)
    ensures CallsLead(env, s, steps + more, t)
    ensures C.Clean(env.toolbox, s, steps + more) <==> C.Clean(env.toolbox, s, steps) && C.Clean(env.toolbox, mid, more)
  {
    JoinSteps(env.toolbox, s, steps, more);
  }

  lemma JoinSteps<W>(t: C.Toolbox<W>, s: C.State<W>, steps: seq<C.Step<W>>, more: seq<C.Step<W>>)
    ensures C.RunCached(t, s, steps + more) == C.RunCached(t, C.RunCached(t, s, steps), more)
    ensures C.Clean(t, s, steps + more) <==> C.Clean(t, s, steps) && C.Clean(t, C.RunCached(t, s, steps), more)
  {
    C.RunMore(t, s, steps, more);
    C.CleanMore(t, s, steps, more);
  }

  lemma JoinTurn<W>(t: C.Toolbox<W>, s: C.State<W>, outside: W, steps: seq<C.Step<W>>)
    ensures
      var begun := C.RunCached(t, s, [C.Turn(outside)]);
      && C.RunCached(t, s, [C.Turn(outside)] + steps) == C.RunCached(t, begun, steps)
      && (C.Clean(t, s, [C.Turn(outside)] + steps) <==> C.Clean(t, begun, steps))
  {
    JoinSteps(t, s, [C.Turn(outside)], steps);
    var none: seq<C.Step<W>> := [];
    C.CleanOne(t, s, none, C.Turn(outside));
    assert none + [C.Turn(outside)] == [C.Turn(outside)];
  }

  /** What the log must say before an answer is final. */
  ghost predicate MayAnswer(policy: V.Policy, log: seq<V.Event>) {
    && (forall pid :: !V.Running(log, pid))
    && (policy.Requested? ==> V.Stands(log))
    && (policy.AfterMutation? ==> !V.Open(log))
  }

  lemma StepHasNoUser(
    content: Option<string>, calls: seq<Call>, rejected: seq<Call>, selected: seq<Call>,
    denied: seq<string>, observed: seq<string>)
    requires |denied| == |rejected| && |observed| == |selected|
    ensures
      var step := StepMessages(content, calls, rejected, selected, denied, observed);
      forall i :: 0 <= i < |step| ==> !step[i].role.User?
  {}

  lemma Regroup<T>(a: seq<T>, b: seq<T>, c: seq<T>, d: seq<T>)
    ensures a + b + c + d == a + (b + c + d)
  {}

  /** A whole step leaves the history as it was: paired or not, and about the same input. */
  lemma StepKeepsHistory<W>(
    env: Env<W>, ms: seq<Message>, content: Option<string>, calls: seq<Call>,
    rejected: seq<Call>, selected: seq<Call>, denied: seq<string>, observed: seq<string>)
    requires |observed| == |selected| && |denied| == |rejected|
    requires (selected, rejected) == PlanCalls(Tiers(env.toolbox), calls, env.maxParallel)
    ensures
      var out := ms + [RequestMessage(content, calls)] + Paired(rejected, denied) + Paired(selected, observed);
      (WellPaired(ms) ==> WellPaired(out)) && LatestUser(out) == LatestUser(ms)
  {
    if WellPaired(ms) { StepKeepsPairing(Tiers(env.toolbox), env.maxParallel, ms, content, calls, denied, observed); }
    StepHasNoUser(content, calls, rejected, selected, denied, observed);
    PlainKeepsLatest(ms, StepMessages(content, calls, rejected, selected, denied, observed));
    Regroup(ms, [RequestMessage(content, calls)], Paired(rejected, denied), Paired(selected, observed));
  }

  lemma StepGoesOn<W>(
    env: Env<W>, ms: seq<Message>, log: seq<V.Event>, content: Option<string>, calls: seq<Call>,
    rejected: seq<Call>, selected: seq<Call>, observations: seq<C.Observation>)
    requires |observations| == |selected|
    requires (selected, rejected) == PlanCalls(Tiers(env.toolbox), calls, env.maxParallel)
    ensures
      var out := ms + [RequestMessage(content, calls)] + Paired(rejected, Denials(env, rejected)) + Paired(selected, Texts(observations));
      && (WellPaired(ms) ==> WellPaired(out)) && LatestUser(out) == LatestUser(ms)
      && Stepped(
           env, Point(ms, log), content, calls, false, observations,
           Point(out, log + Observations(env, selected, observations)))
  {
    var denied := Denials(env, rejected);
    StepKeepsHistory(env, ms, content, calls, rejected, selected, denied, Texts(observations));
    var out := ms + [RequestMessage(content, calls)] + Paired(rejected, denied) + Paired(selected, Texts(observations));
    var n, m := |ms| + 1, |ms| + 1 + |rejected|;
    assert out[n..m] == Paired(rejected, denied) && out[m..] == Paired(selected, Texts(observations));
    assert (log + Observations(env, selected, observations))[|log|..] == Observations(env, selected, observations);
  }

  lemma UnansweredStep<W>(
    env: Env<W>, ms: seq<Message>, content: Option<string>, calls: seq<Call>,
    rejected: seq<Call>, selected: seq<Call>, denied: seq<string>)
    requires |denied| == |rejected| && calls != [] && selected != []
    requires (selected, rejected) == PlanCalls(Tiers(env.toolbox), calls, env.maxParallel)
    ensures
      var out := ms + [RequestMessage(content, calls)] + Paired(rejected, denied);
      (WellPaired(ms) ==> !WellPaired(out)) && LatestUser(out) == LatestUser(ms)
  {
    var part := [RequestMessage(content, calls)] + Paired(rejected, denied);
    PlanIsAPartition(Tiers(env.toolbox), calls, env.maxParallel);
    assert ms + [RequestMessage(content, calls)] + Paired(rejected, denied) == ms + part;
    LackingResults(RequestMessage(content, calls), Paired(rejected, denied), []);
    assert part + [] == part;
    if WellPaired(ms) { PairedRest(ms, part); }
    PlainKeepsLatest(ms, part);
  }

  /** A step without the results of its selected calls leaves it unpaired. */
  lemma BrokenStep<W>(
    env: Env<W>, ms: seq<Message>, log: seq<V.Event>, content: Option<string>, calls: seq<Call>,
    rejected: seq<Call>, selected: seq<Call>)
    requires calls != [] && selected != []
    requires (selected, rejected) == PlanCalls(Tiers(env.toolbox), calls, env.maxParallel)
    ensures
      var out := ms + [RequestMessage(content, calls)] + Paired(rejected, Denials(env, rejected));
      && (WellPaired(ms) ==> !WellPaired(out)) && LatestUser(out) == LatestUser(ms)
      && Stepped(env, Point(ms, log), content, calls, true, [], Point(out, log))
  {
    UnansweredStep(env, ms, content, calls, rejected, selected, Denials(env, rejected));
    var out, n := ms + [RequestMessage(content, calls)] + Paired(rejected, Denials(env, rejected)), |ms| + 1;
    assert out[n..n + |rejected|] == Paired(rejected, Denials(env, rejected)) && out[n + |rejected|..] == [];
  }

  /** What a plan selects: one call that is not read-only, or only read-only ones. */
  lemma PlanIsAllReadsOrOneWrite<W>(env: Env<W>, calls: seq<Call>)
    ensures
      var selected := PlanCalls(Tiers(env.toolbox), calls, env.maxParallel).0;
      (|selected| == 1 && !IsRead(env, selected[0])) || forall i :: 0 <= i < |selected| ==> IsRead(env, selected[i])
  {
    if calls != [] && (calls[0].name !in env.toolbox.tools || env.toolbox.tools[calls[0].name].tier.ReadOnly?) {
      SplitKeepsIds(Tiers(env.toolbox), calls, env.maxParallel, |calls|);
    }
  }

  /** A call that runs alone leaves a mutation waiting only if it reports one. */
  lemma LoneWriteReports<W(!new)>(
    env: Env<W>, s: C.State<W>, call: Call, own: seq<C.Observation>, t: C.State<W>)
    requires !IsRead(env, call) && |own| == 1 && Ran(env, s, [call], own, t) && !s.dirty
    ensures t.dirty ==> C.Mutates(env.toolbox, Key(env, call)) && !own[0].error
  {
    assert [call][..0] == [];
    assert Reads(env, [call]) == [] && Writes(env, [call]) == [call];
    var steps, at :| RanAs(env, s, [call], own, t, steps, at);
    assert at == map[] && steps == [];
    assert own[0..] == own && Written(env, s, [call][..0]) == (s, []);
  }

  lemma ReportedIsRecorded<W(!new)>(
    env: Env<W>, s: C.State<W>, calls: seq<Call>, own: seq<C.Observation>, mid: C.State<W>,
    observations: seq<C.Observation>)
    requires !s.dirty
    requires
      var selected := PlanCalls(Tiers(env.toolbox), calls, env.maxParallel).0;
      && Ran(env, s, selected, own, mid) && AreCollected(env, selected, own, observations)
      && (Writes(env, selected) == [] ==> !mid.dirty)
    ensures
      var selected := PlanCalls(Tiers(env.toolbox), calls, env.maxParallel).0;
      V.Mutations(Observations(env, selected, observations)) == 0 ==> !mid.dirty
  {
    var selected := PlanCalls(Tiers(env.toolbox), calls, env.maxParallel).0;
    PlanIsAllReadsOrOneWrite(env, calls);
    if |selected| == 1 && !IsRead(env, selected[0]) {
      assert selected == [selected[0]];
      LoneWriteReports(env, s, selected[0], own, mid);
      LastOfIdWins(Ordered(env, selected), own, 0);
      assert Ordered(env, selected)[0] == selected[0] by { OrderedHasAll(env, selected, 0); }
      var events := Observations(env, selected, observations);
      V.ReplayOne(V.Fresh, [], events[0]);
      assert events == [] + [events[0]];
    } else {
      ReadsOfReads(env, selected);
    }
  }

  /** Once the observations of a planned step are recorded, no mutation waits. */
  lemma RecordedIsClean<W(!new)>(
    env: Env<W>, s: C.State<W>, calls: seq<Call>, own: seq<C.Observation>, steps: seq<C.Step<W>>, mid: C.State<W>,
    observations: seq<C.Observation>)
    requires
      var selected := PlanCalls(Tiers(env.toolbox), calls, env.maxParallel).0;
      && CallsLead(env, s, steps, mid)
      && Ran(env, s, selected, own, mid) && AreCollected(env, selected, own, observations)
      && (ReadsDoNotMutate(env.toolbox) && !s.dirty ==>
            C.Clean(env.toolbox, s, steps) && (Writes(env, selected) == [] ==> !mid.dirty))
    ensures
      var selected := PlanCalls(Tiers(env.toolbox), calls, env.maxParallel).0;
      var all := steps + Clears(V.Mutations(Observations(env, selected, observations)));
      var t := C.RunCached(env.toolbox, mid, Clears(V.Mutations(Observations(env, selected, observations))));
      && t == C.RunCached(env.toolbox, s, all) && NoTurn(all)
      && (ReadsDoNotMutate(env.toolbox) && !s.dirty ==> C.Clean(env.toolbox, s, all) && !t.dirty)
  {
    var selected := PlanCalls(Tiers(env.toolbox), calls, env.maxParallel).0;
    var n := V.Mutations(Observations(env, selected, observations));
    ClearsOnly(env.toolbox, mid, n);
    JoinSteps(env.toolbox, s, steps, Clears(n));
    if ReadsDoNotMutate(env.toolbox) && !s.dirty { ReportedIsRecorded(env, s, calls, own, mid, observations); }
  }

  /** The share of the window in use has reached the threshold; it is capped at 100. */
  predicate ReachesThreshold(c: Config, ms: seq<Message>) {
    c.thresholdPercent <= 100 && 100 * ContextTokens(c, ms) >= c.thresholdPercent * Max(1, c.contextWindow)
  }

  lemma TakeOneMore<T>(s: seq<T>, i: nat)
    requires i < |s|
    ensures s[..i + 1] == s[..i] + [s[i]]
  {}

  predicate IsFirstSystem(ms: seq<Message>, k: nat) {
    k < |ms| && ms[k].role.System? && forall j :: 0 <= j < k ==> !ms[j].role.System?
  }

  lemma {:induction false} FirstOfSystems(ms: seq<Message>)
    ensures (forall m :: m in ms ==> !m.role.System?) ==> Systems(ms) == []
    ensures forall k: nat :: IsFirstSystem(ms, k) ==> Systems(ms) != [] && Systems(ms)[0] == ms[k]
  {
    if ms != [] {
      var n := |ms| - 1;
      FirstOfSystems(ms[..n]);
      forall k: nat | IsFirstSystem(ms, k)
        ensures Systems(ms) != [] && Systems(ms)[0] == ms[k]
      {
        if k < n {
          assert IsFirstSystem(ms[..n], k);
        } else {
          assert forall m :: m in ms[..n] ==> !m.role.System?;
        }
      }
    }
  }

  lemma {:induction false} PlainSystems(ms: seq<Message>)
    ensures forall i :: 0 <= i < |Systems(ms)| ==> Systems(ms)[i].role.System?
  {
    if ms != [] { PlainSystems(ms[..|ms| - 1]); }
  }
}
