/** The LLM client's retries and its memory of which requests the provider takes
    reasoning options for. Calls run one at a time. */
module Gateway {
  import opened Domain
  import opened Providers

  /** What the capability cache is keyed by. */
  datatype Key = Key(provider: Provider, model: string, fields: set<string>, effort: Option<string>)

  /** One exchange with the provider, and what its error text is taken to say. */
  datatype Exchange = Broken | Http(ok: bool, noTools: bool, noReasoning: bool, retryable: bool)

  /** A request that went out: with which fields, and how its answer was read. */
  datatype Sent = Sent(key: Key, fields: set<string>, rejected: bool)

  datatype Result = Replied | RejectsReasoning | RejectsTools | Transient | Fatal

  /** How a non-streaming exchange is read; `None` is worth a retry. */
  function ReadPost(x: Exchange, fields: set<string>, tools: bool): Option<Result> {
    match x
    case Broken => None
    case Http(ok, noTools, noReasoning, retryable) =>
      if ok then Some(Replied)
      else if tools && noTools then Some(RejectsTools)
      else if fields != {} && noReasoning then Some(RejectsReasoning)
      else if retryable then None
      else Some(Fatal)
  }

  function ReadStream(x: Exchange, fields: set<string>): Option<Result> {
    match x
    case Broken => None
    case Http(ok, _, noReasoning, retryable) =>
      if ok then Some(Replied)
      else if retryable then None
      else if fields != {} && noReasoning then Some(RejectsReasoning)
      else Some(Fatal)
  }

  /** A broken connection, or an error that is no complaint and whose status is worth a retry. */
  predicate WorthRetry(x: Exchange, complains: bool) {
    x.Broken? || (!x.ok && x.retryable && !complains)
  }

  predicate ComplainsOfTools(x: Exchange, tools: bool) {
    x.Http? && !x.ok && tools && x.noTools
  }

  predicate ComplainsOfReasoning(x: Exchange, fields: set<string>) {
    x.Http? && !x.ok && fields != {} && x.noReasoning
  }

  /** What a call comes to, from its last answer: for a post, a complaint about tools comes
      before one about reasoning, and both before a retry. */
  ghost predicate PostComesTo(x: Exchange, fields: set<string>, tools: bool, r: Result) {
    var complains := ComplainsOfTools(x, tools) || ComplainsOfReasoning(x, fields);
    && (r.Replied? <==> x.Http? && x.ok)
    && (r.RejectsTools? <==> ComplainsOfTools(x, tools))
    && (r.RejectsReasoning? <==> !ComplainsOfTools(x, tools) && ComplainsOfReasoning(x, fields))
    && (r.Transient? <==> WorthRetry(x, complains))
  }

  /** For a stream, a retry comes first, and tools are not looked at. */
  ghost predicate StreamComesTo(x: Exchange, fields: set<string>, r: Result) {
    && (r.Replied? <==> x.Http? && x.ok)
    && (r.Transient? <==> WorthRetry(x, false))
    && (r.RejectsReasoning? <==> !WorthRetry(x, false) && ComplainsOfReasoning(x, fields))
    && !r.RejectsTools?
  }

  function KeyOf(a: Adapted, model: string): Key {
    Key(a.provider, model, a.reasoningFields, a.effort)
  }

  /** Once a request was rejected for its reasoning options, its key never sends any again. */
  ghost predicate Disciplined(sent: seq<Sent>) {
    forall i, j :: 0 <= i < j < |sent| && sent[i].rejected && sent[j].key == sent[i].key ==> sent[j].fields == {}
  }

  predicate Rejected(sent: seq<Sent>, key: Key) {
    exists i :: 0 <= i < |sent| && sent[i].rejected && sent[i].key == key
  }

  /** The requests sent since, all for one key with the same fields. */
  ghost predicate Extends(was: seq<Sent>, now: seq<Sent>, key: Key, fields: set<string>) {
    && was <= now
    && forall i :: |was| <= i < |now| ==> now[i].key == key && now[i].fields == fields
  }

  lemma RejectionsStay(sent: seq<Sent>, s: Sent)
    ensures forall k :: Rejected(sent + [s], k) <==> Rejected(sent, k) || (s.rejected && s.key == k)
  {
    forall k
      ensures Rejected(sent + [s], k) <==> Rejected(sent, k) || (s.rejected && s.key == k)
    {
      var all := sent + [s];
      assert all[|sent|] == s;
      if Rejected(sent, k) {
        var i :| 0 <= i < |sent| && sent[i].rejected && sent[i].key == k;
        assert all[i].rejected;
      }
    }
  }

  class LLMGateway {
    var capable: map<Key, bool>
    var toolCapable: Option<bool>
    var sent: seq<Sent>

    ghost predicate Valid()
      reads this
    {
      && Disciplined(sent)
      && (forall i :: 0 <= i < |sent| && sent[i].rejected ==> sent[i].key in capable && !capable[sent[i].key])
      && (forall k :: k in capable && !capable[k] ==> Rejected(sent, k))
    }

    constructor ()
      ensures Valid() && sent == []
    {
      capable, toolCapable, sent := map[], None, [];
    }

    /** The reasoning fields to send: none once the key was rejected. */
    method SelectFields(key: Key) returns (fields: set<string>)
      requires Valid()
      ensures fields == if Rejected(sent, key) then {} else key.fields
    {
      fields := if key in capable && !capable[key] then {} else key.fields;
    }

    /** Posts until an answer is conclusive or the retries are used up. At most the last
        request can be a rejection. */
    method PostWithRetry(answer: nat -> Exchange, key: Key, fields: set<string>, tools: bool, maxRetries: int)
      returns (r: Result)
      requires Disciplined(sent) && (Rejected(sent, key) ==> fields == {})
      modifies this`sent, this`toolCapable
      ensures Extends(old(sent), sent, key, fields) && Disciplined(sent)
      ensures |old(sent)| < |sent| <= |old(sent)| + Max(0, maxRetries) + 1
      ensures forall i :: |old(sent)| <= i < |sent| - 1 ==> !sent[i].rejected
      ensures sent[|sent| - 1].rejected <==> r.RejectsReasoning?
      ensures fields == {} ==> !r.RejectsReasoning?
      ensures PostComesTo(answer(|sent| - 1), fields, tools, r)
      ensures forall i :: |old(sent)| <= i < |sent| - 1 ==> PostComesTo(answer(i), fields, tools, Transient)
      ensures r.Transient? ==> |sent| == |old(sent)| + Max(0, maxRetries) + 1
      ensures toolCapable == if r.RejectsTools? then Some(false) else old(toolCapable)
    {
      var attempt := 0;
      while true
        invariant 0 <= attempt <= Max(0, maxRetries) && |sent| == |old(sent)| + attempt
        invariant Extends(old(sent), sent, key, fields) && Disciplined(sent)
        invariant forall i :: |old(sent)| <= i < |sent| ==> !sent[i].rejected
        invariant forall i :: |old(sent)| <= i < |sent| ==> PostComesTo(answer(i), fields, tools, Transient)
        invariant toolCapable == old(toolCapable)
        decreases Max(0, maxRetries) - attempt
      {
        var read := ReadPost(answer(|sent|), fields, tools);
        sent := sent + [Sent(key, fields, read == Some(RejectsReasoning))];
        if read.Some? {
          if read.value.RejectsTools? { toolCapable := Some(false); }
          return read.value;
        }
        if attempt >= maxRetries {
          return Transient;
        }
        attempt := attempt + 1;
      }
    }

    /** A complete call: with reasoning if the key may still have it, once more without if
        the provider rejects it. */
    method Complete(answer: nat -> Exchange, key: Key, tools: bool, maxRetries: int) returns (r: Result)
      requires Valid()
      modifies this
      ensures Valid() && old(sent) <= sent
      ensures |sent| <= |old(sent)| + 2 * (Max(0, maxRetries) + 1)
      ensures !r.RejectsReasoning?
      ensures r != RejectsTools || |sent| > |old(sent)| ==>
        |sent| > 0 && PostComesTo(answer(|sent| - 1), sent[|sent| - 1].fields, tools, r)
      ensures |sent| > |old(sent)| ==>
        sent[|old(sent)|].key == key && sent[|old(sent)|].fields == if Rejected(old(sent), key) then {} else key.fields
      ensures tools && old(toolCapable) == Some(false) ==> r == RejectsTools && sent == old(sent)
    {
      if tools && toolCapable == Some(false) {
        return RejectsTools;
      }
      var fields := SelectFields(key);
      r := PostWithRetry(answer, key, fields, tools, maxRetries);
      if r.RejectsReasoning? {
        capable := capable[key := false];
        r := PostWithRetry(answer, key, {}, tools, maxRetries);
      } else if r.Replied? && fields != {} {
        capable := capable[key := true];
      }
      if tools && r.Replied? {
        toolCapable := Some(true);
      }
    }

    /** A request went out; a rejection is remembered. */
    method Note(key: Key, fields: set<string>, rejected: bool)
      requires Valid() && (Rejected(sent, key) ==> fields == {}) && (rejected ==> fields != {})
      modifies this`sent, this`capable
      ensures Valid() && sent == old(sent) + [Sent(key, fields, rejected)]
      ensures capable == if rejected then old(capable)[key := false] else old(capable)
    {
      sent := sent + [Sent(key, fields, rejected)];
      if rejected {
        capable := capable[key := false];
      }
      RejectionsStay(old(sent), sent[|sent| - 1]);
    }

    /** A streaming call: retries and the one fallback share a single loop. */
    method CompleteStream(answer: nat -> Exchange, key: Key, maxRetries: int) returns (r: Result)
      requires Valid()
      modifies this
      ensures Valid() && old(sent) <= sent
      ensures |sent| <= |old(sent)| + Max(0, maxRetries) + 2
      ensures !r.RejectsReasoning? && !r.RejectsTools?
      ensures |sent| > |old(sent)| && StreamComesTo(answer(|sent| - 1), sent[|sent| - 1].fields, r)
      ensures
        sent[|old(sent)|].key == key && sent[|old(sent)|].fields == if Rejected(old(sent), key) then {} else key.fields
    {
      var fields := SelectFields(key);
      var attempt, fellBack := 0, fields == {} && key.fields != {};
      while true
        invariant Valid() && old(sent) <= sent
        invariant 0 <= attempt <= Max(0, maxRetries)
        invariant fields == key.fields || fields == {}
        invariant fellBack ==> fields == {}
        invariant Rejected(sent, key) ==> fields == {}
        invariant |sent| == |old(sent)| ==> fields == if Rejected(old(sent), key) then {} else key.fields
        invariant |sent| > |old(sent)| ==>
          sent[|old(sent)|].key == key && sent[|old(sent)|].fields == if Rejected(old(sent), key) then {} else key.fields
        invariant |sent| <= |old(sent)| + attempt + if fields == {} then 1 else 0
        decreases Max(0, maxRetries) - attempt, |fields|
      {
        var read := ReadStream(answer(|sent|), fields);
        Note(key, fields, read == Some(RejectsReasoning));
        if read == Some(RejectsReasoning) {
          assert !fellBack;
          fields := {};
          fellBack := true;
        } else if read.Some? {
          if read.value.Replied? && fields != {} {
            capable := capable[key := true];
          }
          return read.value;
        } else {
          if attempt >= maxRetries {
            return Transient;
          }
          attempt := attempt + 1;
        }
      }
    }
  }
}
