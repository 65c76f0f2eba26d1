/** The memory of rejected reasoning options when calls of one client overlap.

    A call decides at its start whether to send reasoning and keeps to it in its retries;
    its answers write the memory whenever they come. */
module GatewaySharing {
  import opened Domain
  import opened Gateway

  /** A call in the air, and whether it sends reasoning. */
  datatype Flight = Flight(key: Key, reasoning: bool)

  datatype State = State(capable: map<Key, bool>, flights: map<nat, Flight>)

  /** `Begins` sends the first request, `Retries` the same again after a transient failure,
      and `Rejects` takes a rejection of the reasoning options and sends the request without.
      `Ends` is any other end of a call. */
  datatype Event =
    | Begins(a: nat, key: Key)
    | Retries(a: nat)
    | Rejects(a: nat)
    | Replies(a: nat)
    | Ends(a: nat)

  const Start := State(map[], map[])

  /** The key is remembered as rejected. */
  predicate Closed(s: State, k: Key) {
    k in s.capable && !s.capable[k]
  }

  predicate Enabled(s: State, e: Event) {
    match e
    case Begins(a, _) => a !in s.flights
    case Rejects(a) => a in s.flights && s.flights[a].reasoning
    case _ => e.a in s.flights
  }

  function Next(s: State, e: Event): State {
    if !Enabled(s, e) then s
    else
      match e
      case Begins(a, key) => s.(flights := s.flights[a := Flight(key, key.fields != {} && !Closed(s, key))])
      case Retries(_) => s
      case Rejects(a) =>
        var key := s.flights[a].key;
        State(s.capable[key := false], s.flights[a := Flight(key, false)])
      case Replies(a) =>
        var f := s.flights[a];
        State(if f.reasoning then s.capable[f.key := true] else s.capable, s.flights - {a})
      case Ends(a) => s.(flights := s.flights - {a})
  }

  /** The state before event `n` of any interleaving. */
  function At(trace: seq<Event>, n: nat): State
    requires n <= |trace|
  {
    if n == 0 then Start else Next(At(trace, n - 1), trace[n - 1])
  }

  // --------------------------------------------------------- what happens to a key

  predicate ReasoningFor(s: State, a: nat, k: Key) {
    a in s.flights && s.flights[a] == Flight(k, true)
  }

  /** The provider rejects the key's reasoning options. */
  predicate RejectedAt(trace: seq<Event>, i: nat, k: Key) {
    i < |trace| && trace[i].Rejects? && ReasoningFor(At(trace, i), trace[i].a, k)
  }

  /** It accepts them. */
  predicate AcceptedAt(trace: seq<Event>, i: nat, k: Key) {
    i < |trace| && trace[i].Replies? && ReasoningFor(At(trace, i), trace[i].a, k)
  }

  predicate RetriedAt(trace: seq<Event>, i: nat, k: Key) {
    i < |trace| && trace[i].Retries? && ReasoningFor(At(trace, i), trace[i].a, k)
  }

  predicate BegunAt(trace: seq<Event>, i: nat, k: Key) {
    i < |trace| && trace[i].Begins? && trace[i].a !in At(trace, i).flights && trace[i].key == k && k.fields != {}
  }

  /** Event `i` sends a request of the key with reasoning. */
  predicate SentAt(trace: seq<Event>, i: nat, k: Key) {
    || RetriedAt(trace, i, k)
    || (BegunAt(trace, i, k) && ReasoningFor(At(trace, i + 1), trace[i].a, k))
  }

  /** Before `n` it was rejected at `i`, and no answer after that accepted it. */
  ghost predicate StandsAt(trace: seq<Event>, n: nat, i: nat, k: Key) {
    i < n <= |trace| && RejectedAt(trace, i, k) && forall j: nat :: i < j < n ==> !AcceptedAt(trace, j, k)
  }

  ghost predicate Stands(trace: seq<Event>, n: nat, k: Key) {
    exists i: nat :: StandsAt(trace, n, i, k)
  }

  lemma StandsAfter(trace: seq<Event>, n: nat, k: Key)
    requires n < |trace|
    ensures Stands(trace, n + 1, k) <==> RejectedAt(trace, n, k) || (Stands(trace, n, k) && !AcceptedAt(trace, n, k))
  {
    if RejectedAt(trace, n, k) { assert StandsAt(trace, n + 1, n, k); }
    if Stands(trace, n, k) && !AcceptedAt(trace, n, k) {
      var i: nat :| StandsAt(trace, n, i, k);
      assert StandsAt(trace, n + 1, i, k);
    }
    if Stands(trace, n + 1, k) && !RejectedAt(trace, n, k) {
      var i: nat :| StandsAt(trace, n + 1, i, k);
      assert StandsAt(trace, n, i, k);
    }
  }

  /** The memory says what the answers said: the last one that told was a rejection. */
  lemma {:induction false} MemoryMatchesTheAnswers(trace: seq<Event>, n: nat, k: Key)
    requires n <= |trace|
    ensures Closed(At(trace, n), k) <==> Stands(trace, n, k)
  {
    if n > 0 {
      MemoryMatchesTheAnswers(trace, n - 1, k);
      StandsAfter(trace, n - 1, k);
    }
  }

  // ---------------------------------------------------------------- discipline

  /** Once rejected, the key never sends reasoning again. */
  ghost predicate NeverAgain(trace: seq<Event>, k: Key) {
    forall i: nat, j: nat :: i < j && RejectedAt(trace, i, k) ==> !SentAt(trace, j, k)
  }

  /** After a rejection no overlapping call retries with reasoning, and none begins while
      an overlapping call's late acceptance has the last word. */
  ghost predicate NoLateCall(trace: seq<Event>, k: Key) {
    forall i: nat, j: nat :: i < j && RejectedAt(trace, i, k) ==>
      !RetriedAt(trace, j, k) && (BegunAt(trace, j, k) ==> Stands(trace, j, k))
  }

  /** Whatever the interleaving, that is exactly when a rejected key stays rejected. */
  lemma NeverAgainExactlyWhenNoLateCall(trace: seq<Event>, k: Key)
    ensures NeverAgain(trace, k) <==> NoLateCall(trace, k)
  {
    forall i: nat, j: nat | i < j && RejectedAt(trace, i, k)
      ensures !SentAt(trace, j, k) <==> !RetriedAt(trace, j, k) && (BegunAt(trace, j, k) ==> Stands(trace, j, k))
    {
      if BegunAt(trace, j, k) { BeginsWithReasoningUnlessItStands(trace, j, k); }
    }
    if NoLateCall(trace, k) {
      forall i: nat, j: nat | i < j && RejectedAt(trace, i, k)
        ensures !SentAt(trace, j, k)
      {
        assert !RetriedAt(trace, j, k);
      }
    }
    if NeverAgain(trace, k) {
      forall i: nat, j: nat | i < j && RejectedAt(trace, i, k)
        ensures !RetriedAt(trace, j, k) && (BegunAt(trace, j, k) ==> Stands(trace, j, k))
      {
        assert !SentAt(trace, j, k);
      }
    }
  }

  lemma BeginsWithReasoningUnlessItStands(trace: seq<Event>, j: nat, k: Key)
    requires BegunAt(trace, j, k)
    ensures SentAt(trace, j, k) <==> !Stands(trace, j, k)
  {
    MemoryMatchesTheAnswers(trace, j, k);
    assert At(trace, j + 1) == Next(At(trace, j), trace[j]);
  }

  /** No other call of the key is in the air with reasoning when one is rejected. */
  ghost predicate RejectedAlone(trace: seq<Event>, k: Key) {
    forall i: nat, b: nat :: RejectedAt(trace, i, k) && ReasoningFor(At(trace, i), b, k) ==> b == trace[i].a
  }

  lemma RejectionCloses(s: State, a: nat, k: Key)
    requires ReasoningFor(s, a, k) && forall b: nat :: ReasoningFor(s, b, k) ==> b == a
    ensures Closed(Next(s, Rejects(a)), k) && forall b: nat :: !ReasoningFor(Next(s, Rejects(a)), b, k)
  {
    forall b: nat
      ensures !ReasoningFor(Next(s, Rejects(a)), b, k)
    {
      assert ReasoningFor(s, b, k) ==> b == a;
    }
  }

  lemma ClosedStays(s: State, e: Event, k: Key)
    requires Closed(s, k) && forall b: nat :: !ReasoningFor(s, b, k)
    ensures Closed(Next(s, e), k) && forall b: nat :: !ReasoningFor(Next(s, e), b, k)
  {
    assert !ReasoningFor(s, e.a, k);
    forall b: nat
      ensures !ReasoningFor(Next(s, e), b, k)
    {
      assert !ReasoningFor(s, b, k);
    }
  }

  lemma {:induction false} StaysClosed(trace: seq<Event>, i: nat, n: nat, k: Key)
    requires RejectedAlone(trace, k) && RejectedAt(trace, i, k) && i < n <= |trace|
    ensures Closed(At(trace, n), k) && forall b: nat :: !ReasoningFor(At(trace, n), b, k)
    decreases n - i
  {
    if i + 1 < n {
      StaysClosed(trace, i, n - 1, k);
      ClosedStays(At(trace, n - 1), trace[n - 1], k);
    } else {
      RejectionCloses(At(trace, i), trace[i].a, k);
    }
  }

  /** Calls that do not overlap, and any in which each rejection comes alone, never send
      reasoning again. */
  lemma AloneNeverAgain(trace: seq<Event>, k: Key)
    requires RejectedAlone(trace, k)
    ensures NeverAgain(trace, k)
  {
    forall i: nat, j: nat | i < j && RejectedAt(trace, i, k)
      ensures !SentAt(trace, j, k)
    {
      if j < |trace| {
        StaysClosed(trace, i, j, k);
        assert At(trace, j + 1) == Next(At(trace, j), trace[j]);
      }
    }
  }

  /** Two calls overlap; one is rejected, the other is answered late; the third sends
      reasoning again. */
  lemma LateReplyReopens(k: Key)
    requires k.fields != {}
    ensures exists trace: seq<Event> :: !NeverAgain(trace, k) && forall i :: 0 <= i < |trace| ==> !trace[i].Retries?
  {
    var trace := [Begins(1, k), Begins(2, k), Rejects(1), Replies(2), Begins(3, k)];
    var s1 := State(map[], map[1 := Flight(k, true)]);
    var s2 := State(map[], map[1 := Flight(k, true), 2 := Flight(k, true)]);
    var s3 := State(map[k := false], map[1 := Flight(k, false), 2 := Flight(k, true)]);
    var s4 := State(map[k := true], map[1 := Flight(k, false)]);
    assert At(trace, 0) == Start;
    assert At(trace, 1) == s1;
    assert At(trace, 2) == s2;
    assert At(trace, 3) == s3;
    assert At(trace, 4) == s4;
    assert At(trace, 5) == Next(s4, trace[4]);
    assert RejectedAt(trace, 2, k) && SentAt(trace, 4, k);
    assert !NeverAgain(trace, k);
  }
}
