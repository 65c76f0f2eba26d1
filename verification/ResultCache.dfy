/** The CLI loop's cache of read-only tool results, against calling the tools afresh.

    A script is what a session does: calls, the emptying of the cache when a successful
    call of a tool marked `mutates_workspace` is recorded, and turns between which
    anything outside may have changed. Calls that run at the same time are one script for
    each interleaving of their lookups and their ends. */
module ResultCache {
  import opened Domain

  datatype ToolInfo = ToolInfo(tier: RiskTier, idempotent: bool, volatile: bool, mutates: bool)

  /** A call by what the cache key keeps of it: the name and the canonical arguments. */
  datatype Query = Query(name: string, arguments: string)

  datatype Observation = Observation(text: string, error: bool)

  /** The registry, and what running a call observes and does to the world. */
  datatype Toolbox<!W> = Toolbox(tools: map<string, ToolInfo>, run: (Query, W) -> (Observation, W))

  /** `Do` looks its result up first. `Late` is the end of a call that looked in vain
      before: it runs whatever the cache holds by now. */
  datatype Step<W> = Turn(outside: W) | Do(query: Query) | Late(query: Query) | Clear

  /** `revision` counts the recorded mutations, and `dirty` says that a tool changed the
      workspace and the call is not recorded yet. */
  datatype State<W> =
    State(world: W, cache: map<Query, Observation>, revision: nat, dirty: bool, seen: seq<Observation>)

  predicate Known<W>(t: Toolbox<W>, q: Query) {
    q.name in t.tools
  }

  predicate Cacheable<W>(t: Toolbox<W>, q: Query) {
    Known(t, q) && t.tools[q.name].tier.ReadOnly? && t.tools[q.name].idempotent && !t.tools[q.name].volatile
  }

  predicate Mutates<W>(t: Toolbox<W>, q: Query) {
    Known(t, q) && t.tools[q.name].mutates
  }

  predicate Hits<W>(t: Toolbox<W>, s: State<W>, q: Query) {
    Cacheable(t, q) && q in s.cache
  }

  /** A call runs. Its result is kept if it is cacheable and no error. */
  function Execute<W>(t: Toolbox<W>, s: State<W>, q: Query): State<W> {
    var (o, world) := t.run(q, s.world);
    State(
      world,
      if Cacheable(t, q) && !o.error then s.cache[q := o] else s.cache,
      s.revision,
      s.dirty || (Mutates(t, q) && !o.error),
      s.seen + [o])
  }

  function Cached<W>(t: Toolbox<W>, s: State<W>, step: Step<W>): State<W> {
    match step
    case Turn(outside) => State(outside, map[], s.revision, false, s.seen)
    case Do(q) => if Hits(t, s, q) then s.(seen := s.seen + [s.cache[q]]) else Execute(t, s, q)
    case Late(q) => Execute(t, s, q)
    case Clear => s.(cache := map[], revision := s.revision + 1, dirty := false)
  }

  function RunCached<W>(t: Toolbox<W>, s: State<W>, script: seq<Step<W>>): State<W> {
    if script == [] then s else Cached(t, RunCached(t, s, script[..|script| - 1]), script[|script| - 1])
  }

  lemma RunOne<W>(t: Toolbox<W>, s: State<W>, step: Step<W>)
    ensures RunCached(t, s, [step]) == Cached(t, s, step)
  {
    assert [step][..0] == [];
  }

  lemma {:induction false} RunMore<W>(t: Toolbox<W>, s: State<W>, script: seq<Step<W>>, more: seq<Step<W>>)
    ensures RunCached(t, s, script + more) == RunCached(t, RunCached(t, s, script), more)
    decreases |more|
  {
    if more == [] {
      assert script + more == script;
    } else {
      var n := |more| - 1;
      RunMore(t, s, script, more[..n]);
      assert (script + more)[..|script + more| - 1] == script + more[..n];
    }
  }

  /** No lookup finds a result while a mutation waits to be recorded. */
  ghost predicate Clean<W>(t: Toolbox<W>, s: State<W>, script: seq<Step<W>>) {
    script == []
    || (Clean(t, s, script[..|script| - 1])
        && CleanStep(t, RunCached(t, s, script[..|script| - 1]), script[|script| - 1]))
  }

  ghost predicate CleanStep<W>(t: Toolbox<W>, s: State<W>, step: Step<W>) {
    step.Do? && Hits(t, s, step.query) ==> !s.dirty
  }

  lemma CleanOne<W>(t: Toolbox<W>, s: State<W>, script: seq<Step<W>>, step: Step<W>)
    ensures RunCached(t, s, script + [step]) == Cached(t, RunCached(t, s, script), step)
    ensures Clean(t, s, script + [step]) <==> Clean(t, s, script) && CleanStep(t, RunCached(t, s, script), step)
  {
    assert (script + [step])[..|script|] == script;
  }

  lemma {:induction false} CleanMore<W>(t: Toolbox<W>, s: State<W>, script: seq<Step<W>>, more: seq<Step<W>>)
    ensures Clean(t, s, script + more) <==> Clean(t, s, script) && Clean(t, RunCached(t, s, script), more)
    decreases |more|
  {
    if more == [] {
      assert script + more == script;
    } else {
      var n := |more| - 1;
      CleanMore(t, s, script, more[..n]);
      RunMore(t, s, script, more[..n]);
      assert (script + more)[..|script + more| - 1] == script + more[..n];
    }
  }

  /** The same script without a cache. */
  function Plain<W>(t: Toolbox<W>, world: W, seen: seq<Observation>, step: Step<W>): (W, seq<Observation>) {
    match step
    case Turn(outside) => (outside, seen)
    case Do(q) => var (o, w) := t.run(q, world); (w, seen + [o])
    case Late(q) => var (o, w) := t.run(q, world); (w, seen + [o])
    case Clear => (world, seen)
  }

  function RunPlain<W>(t: Toolbox<W>, world: W, script: seq<Step<W>>): (W, seq<Observation>) {
    if script == [] then (world, [])
    else
      var (w, seen) := RunPlain(t, world, script[..|script| - 1]);
      Plain(t, w, seen, script[|script| - 1])
  }

  function Start<W>(world: W): State<W> {
    State(world, map[], 0, false, [])
  }

  // ------------------------------------------------------ where entries come from

  /** Step `i` of the script called `q` and observed `o`, in this turn and at the current
      revision. */
  ghost predicate ProducedAt<W>(t: Toolbox<W>, world: W, script: seq<Step<W>>, i: nat, q: Query, o: Observation) {
    && i < |script| && (script[i] == Do(q) || script[i] == Late(q))
    && t.run(q, RunCached(t, Start(world), script[..i]).world).0 == o && !o.error
    && RunCached(t, Start(world), script[..i]).revision == RunCached(t, Start(world), script).revision
    && forall j :: i < j < |script| ==> !script[j].Turn?
  }

  lemma ProducedBefore<W>(t: Toolbox<W>, world: W, script: seq<Step<W>>, step: Step<W>, i: nat, q: Query, o: Observation)
    requires ProducedAt(t, world, script, i, q, o) && !step.Turn? && !step.Clear?
    ensures ProducedAt(t, world, script + [step], i, q, o)
  {
    CleanOne(t, Start(world), script, step);
    assert (script + [step])[..i] == script[..i];
  }

  /** Every cached result was produced in this turn at the current workspace revision. */
  lemma {:induction false} EntriesAreCurrent<W>(t: Toolbox<W>, world: W, script: seq<Step<W>>, q: Query)
    ensures
      var s := RunCached(t, Start(world), script);
      q in s.cache ==> Cacheable(t, q) && exists i: nat :: ProducedAt(t, world, script, i, q, s.cache[q])
    decreases |script|
  {
    if script != [] {
      var n := |script| - 1;
      EntriesAreCurrent(t, world, script[..n], q);
      var before, s := RunCached(t, Start(world), script[..n]), RunCached(t, Start(world), script);
      if q in s.cache {
        if q in before.cache && s.cache[q] == before.cache[q] {
          var i: nat :| ProducedAt(t, world, script[..n], i, q, before.cache[q]);
          ProducedBefore(t, world, script[..n], script[n], i, q, before.cache[q]);
          assert script[..n] + [script[n]] == script;
        } else {
          assert ProducedAt(t, world, script, n, q, s.cache[q]);
        }
      }
    }
  }

  /** Which results are kept: those of read-only, idempotent, steady tools, unless they are
      errors; and only these are ever answered again without running the tool. */
  lemma KeptExactlyWhen<W>(t: Toolbox<W>, s: State<W>, q: Query)
    requires q !in s.cache
    ensures
      var o, u := t.run(q, s.world).0, Cached(t, s, Do(q));
      && u.seen == s.seen + [o] && u.world == t.run(q, s.world).1
      && (q in u.cache <==>
            && q.name in t.tools && t.tools[q.name].tier.ReadOnly?
            && t.tools[q.name].idempotent && !t.tools[q.name].volatile && !o.error)
      && (q in u.cache ==> u.cache[q] == o && Cached(t, u, Do(q)) == u.(seen := u.seen + [o]))
      && (u.dirty <==> s.dirty || (q.name in t.tools && t.tools[q.name].mutates && !o.error))
  {}

  // ------------------------------------------------------------ hits are fresh

  /** The call empties the cache, when made in this world, once it is recorded. */
  predicate Clears<W>(t: Toolbox<W>, q: Query, w: W) {
    Mutates(t, q) && !t.run(q, w).0.error
  }

  /** The hypothesis: a call that does not empty the cache leaves the successful results
      of cacheable calls as they were. */
  ghost predicate Preserves<W(!new)>(t: Toolbox<W>) {
    forall w, r, q :: Cacheable(t, r) && !Mutates(t, r) && !t.run(r, w).0.error && !Clears(t, q, w) ==>
      Again(t, w, q, r) == t.run(r, w).0
  }

  /** What `r` observes after `q`. */
  function Again<W>(t: Toolbox<W>, w: W, q: Query, r: Query): Observation {
    t.run(r, t.run(q, w).1).0
  }

  ghost predicate Coherent<W>(t: Toolbox<W>, s: State<W>) {
    forall q :: q in s.cache ==>
      Cacheable(t, q) && !Mutates(t, q) && t.run(q, s.world).0 == s.cache[q] && !s.cache[q].error
  }

  lemma ExecuteKeepsCoherent<W(!new)>(t: Toolbox<W>, s: State<W>, q: Query)
    requires Preserves(t) && Coherent(t, s) && !Clears(t, q, s.world)
    ensures Coherent(t, Execute(t, s, q))
  {
    var s' := Execute(t, s, q);
    forall r | r in s'.cache
      ensures Cacheable(t, r) && !Mutates(t, r) && t.run(r, s'.world).0 == s'.cache[r] && !s'.cache[r].error
    {
      assert r in s.cache || r == q;
      assert Cacheable(t, r) && !Mutates(t, r) && !t.run(r, s.world).0.error ==> Again(t, s.world, q, r) == t.run(r, s.world).0;
    }
  }

  lemma StepKeepsCoherent<W(!new)>(t: Toolbox<W>, s: State<W>, step: Step<W>)
    requires Preserves(t) && (s.dirty || Coherent(t, s)) && CleanStep(t, s, step)
    ensures Cached(t, s, step).dirty || Coherent(t, Cached(t, s, step))
  {
    if (step.Do? && !Hits(t, s, step.query)) || step.Late? {
      if !s.dirty && !Clears(t, step.query, s.world) { ExecuteKeepsCoherent(t, s, step.query); }
    }
  }

  /** If state changes that matter come only through successful `mutates_workspace` calls,
      then at any point of any clean session a cache hit equals a fresh call. */
  lemma {:induction false} HitsAreFresh<W(!new)>(t: Toolbox<W>, world: W, script: seq<Step<W>>, q: Query)
    requires Preserves(t) && Clean(t, Start(world), script)
    ensures
      var s := RunCached(t, Start(world), script);
      !s.dirty ==> Coherent(t, s) && (q in s.cache ==> s.cache[q] == t.run(q, s.world).0)
    decreases |script|
  {
    if script != [] {
      var n := |script| - 1;
      HitsAreFresh(t, world, script[..n], q);
      StepKeepsCoherent(t, RunCached(t, Start(world), script[..n]), script[n]);
    }
  }

  // -------------------------------------------------------------- refinement

  /** Cacheable tools only read. */
  ghost predicate ReadsArePure<W(!new)>(t: Toolbox<W>) {
    forall w, q :: Cacheable(t, q) ==> t.run(q, w).1 == w
  }

  ghost predicate Agrees<W>(t: Toolbox<W>, world: W, script: seq<Step<W>>) {
    var s, p := RunCached(t, Start(world), script), RunPlain(t, world, script);
    s.seen == p.1 && s.world == p.0
  }

  lemma {:induction false} CachedRunAgrees<W(!new)>(t: Toolbox<W>, world: W, script: seq<Step<W>>)
    requires Preserves(t) && ReadsArePure(t) && Clean(t, Start(world), script)
    ensures Agrees(t, world, script)
    decreases |script|
  {
    if script != [] {
      var n := |script| - 1;
      CachedRunAgrees(t, world, script[..n]);
      match script[n] {
        case Do(q) => HitsAreFresh(t, world, script[..n], q);
        case _ =>
      }
    }
  }

  lemma PlainOne<W>(t: Toolbox<W>, w: W, script: seq<Step<W>>, step: Step<W>)
    ensures
      var p := RunPlain(t, w, script);
      RunPlain(t, w, script + [step]) == Plain(t, p.0, p.1, step)
  {
    assert (script + [step])[..|script|] == script;
  }

  /** The script that tells: read, call, read again. */
  function ReadCallRead<W>(r: Query, q: Query): seq<Step<W>> {
    [Do(r), Do(q), Do(r)]
  }

  lemma ReadCallReadSteps<W>(t: Toolbox<W>, w: W, r: Query, q: Query)
    ensures
      var s1 := Cached(t, Start(w), Do(r));
      var s2 := Cached(t, s1, Do(q));
      && RunCached(t, Start(w), ReadCallRead(r, q)) == Cached(t, s2, Do(r))
      && (Clean(t, Start(w), ReadCallRead(r, q)) <==> CleanStep(t, s1, Do(q)) && CleanStep(t, s2, Do(r)))
    ensures
      var (o, w1) := t.run(r, w);
      var (_, w2) := t.run(q, w1);
      |RunPlain(t, w, ReadCallRead(r, q)).1| == 3 && RunPlain(t, w, ReadCallRead(r, q)).1[2] == t.run(r, w2).0
  {
    var none, one, two: seq<Step<W>> := [], [Do(r)], [Do(r), Do(q)];
    CleanOne(t, Start(w), none, Do(r));
    CleanOne(t, Start(w), one, Do(q));
    CleanOne(t, Start(w), two, Do(r));
    PlainOne(t, w, none, Do(r));
    PlainOne(t, w, one, Do(q));
    PlainOne(t, w, two, Do(r));
    assert none + [Do(r)] == one && one + [Do(q)] == two && two + [Do(r)] == ReadCallRead(r, q);
  }

  lemma AgreementPreserves<W(!new)>(t: Toolbox<W>, w: W, r: Query, q: Query)
    requires ReadsArePure(t) && Cacheable(t, r) && !Mutates(t, r) && !t.run(r, w).0.error && !Clears(t, q, w)
    requires Clean(t, Start(w), ReadCallRead(r, q)) ==> Agrees(t, w, ReadCallRead(r, q))
    ensures Again(t, w, q, r) == t.run(r, w).0
  {
    ReadCallReadSteps(t, w, r, q);
    var s1 := Cached(t, Start(w), Do(r));
    var s2 := Cached(t, s1, Do(q));
    assert t.run(r, w).1 == w;
    assert s1.world == w && !s1.dirty && r in s1.cache && s1.cache[r] == t.run(r, w).0;
    if !Cacheable(t, q) {
      assert !s2.dirty && r in s2.cache && s2.cache[r] == t.run(r, w).0;
      assert Cached(t, s2, Do(r)).seen[2] == t.run(r, w).0;
    }
  }

  /** Cached and plain loop agree on every clean session. */
  ghost predicate AlwaysAgrees<W(!new)>(t: Toolbox<W>) {
    forall world, script :: Clean(t, Start(world), script) ==> Agrees(t, world, script)
  }

  /** The cached loop is the plain loop, observation for observation and effect for
      effect, on every clean session: exactly when the hypothesis holds. */
  lemma CacheRefinesExactlyWhenPreserved<W(!new)>(t: Toolbox<W>)
    requires ReadsArePure(t)
    ensures AlwaysAgrees(t) <==> Preserves(t)
  {
    if Preserves(t) {
      forall world, script | Clean(t, Start(world), script)
        ensures Agrees(t, world, script)
      {
        CachedRunAgrees(t, world, script);
      }
    }
    if AlwaysAgrees(t) {
      forall w, r, q | Cacheable(t, r) && !Mutates(t, r) && !t.run(r, w).0.error && !Clears(t, q, w)
        ensures Again(t, w, q, r) == t.run(r, w).0
      {
        AgreementPreserves(t, w, r, q);
      }
    }
  }

  // ------------------------------------------------- tools that break it

  /** The project memory, with the flags its two tools are registered with: reading is
      cached, and writing is not marked as mutating. The world is the one stored value. */
  function MemoryTools(): Toolbox<string> {
    Toolbox(
      map["memory_read" := ToolInfo(ReadOnly, true, false, false),
          "memory_write" := ToolInfo(SensitiveWrite, false, false, false)],
      (q: Query, w: string) =>
        if q.name == "memory_read" then (Observation(w, false), w)
        else if q.name == "memory_write" then (Observation("", false), q.arguments)
        else (Observation("", true), w))
  }

  /** So a value read, written and read again comes back as it was before the write. */
  lemma MemoryGoesStale()
    ensures ReadsArePure(MemoryTools()) && !Preserves(MemoryTools())
    ensures exists world: string, script :: Clean(MemoryTools(), Start(world), script) && !Agrees(MemoryTools(), world, script)
  {
    var t := MemoryTools();
    var read, write := Query("memory_read", ""), Query("memory_write", "new");
    assert Again(t, "", write, read).text == "new" && t.run(read, "").0.text == "";
    CacheRefinesExactlyWhenPreserved(t);
  }
}
