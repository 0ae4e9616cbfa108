/** What a StageResponse.Builder holds, and what a chain of fluent calls on
    it does. Each setter returns the builder itself, so a chain
    `b.setStageTag(t).addState(k, v)...` is a sequence of calls on one
    builder; a call that throws ends the chain, but the calls before it
    have already changed the builder. */
module BuilderCalls {
  import opened JavaLang
  import opened Json

  /** ServiceUtils.EMPTY_TAG: a fixed tag whose value is not part of this model. */
  const EmptyTag: string

  /** The three fields of a builder, as values. */
  datatype Draft = Draft(stageTag: string, requirements: JsonValue, state: map<string, string>)

  /** A fresh builder: empty tag, empty requirements, empty state. */
  function Initial(): Draft { Draft(EmptyTag, EmptyJson, map[]) }

  /** One call on a builder; None stands for a null argument. */
  datatype Call =
    | SetStageTag(tag: Option<string>)
    | SetRequirements(requirements: Option<JsonValue>)
    | AddState(key: Option<string>, value: Option<string>)

  /** The calls that Reject.ifNull turns down. */
  predicate Rejected(c: Call)
  {
    match c
    case SetStageTag(t) => t.None?
    case SetRequirements(r) => r.None?
    case AddState(k, v) => k.None? || v.None?
  }

  /** One call: the new fields, or the exception it throws. */
  function Apply(d: Draft, c: Call): Result<Draft>
  {
    match c
    case SetStageTag(t) =>
      if t.None? then Failure(NullPointerException) else Success(d.(stageTag := t.value))
    case SetRequirements(r) =>
      if r.None? then Failure(NullPointerException) else Success(d.(requirements := r.value))
    case AddState(k, v) =>
      if k.None? || v.None? then Failure(NullPointerException)
      else Success(d.(state := d.state[k.value := v.value]))
  }

  /** What a chain leaves behind: the fields the builder holds afterwards,
      and the exception that ended the chain, if any. */
  datatype Outcome = Outcome(reached: Draft, thrown: Option<Exception>)

  function Run(d: Draft, calls: seq<Call>): Outcome
    decreases calls
  {
    if calls == [] then Outcome(d, None)
    else
      match Apply(d, calls[0])
      case Failure(e) => Outcome(d, Some(e))
      case Success(d') => Run(d', calls[1..])
  }

  predicate NoneRejected(calls: seq<Call>)
  {
    forall i :: 0 <= i < |calls| ==> !Rejected(calls[i])
  }

  /** Position i holds the last setStageTag call of the chain. */
  predicate LastTagCall(calls: seq<Call>, i: int)
  {
    0 <= i < |calls| && calls[i].SetStageTag? &&
    forall j :: i < j < |calls| ==> !calls[j].SetStageTag?
  }

  /** Position i holds the last setRequirements call of the chain. */
  predicate LastRequirementsCall(calls: seq<Call>, i: int)
  {
    0 <= i < |calls| && calls[i].SetRequirements? &&
    forall j :: i < j < |calls| ==> !calls[j].SetRequirements?
  }

  /** The call at position i writes key k. */
  predicate Writes(calls: seq<Call>, i: int, k: string)
  {
    0 <= i < |calls| && calls[i].AddState? && calls[i].key == Some(k)
  }

  /** Position i holds the last addState call for key k. */
  predicate LastWrite(calls: seq<Call>, k: string, i: int)
  {
    Writes(calls, i, k) && forall j :: i < j < |calls| ==> !Writes(calls, j, k)
  }

  /** Chaining two chains is one chain: the second runs on what the first
      left behind, unless the first threw. */
  lemma {:induction false} RunAppend(d: Draft, a: seq<Call>, b: seq<Call>)
    ensures Run(d, a + b) ==
      if Run(d, a).thrown.Some? then Run(d, a) else Run(Run(d, a).reached, b)
    decreases a
  {
    if a == [] {
      assert a + b == b;
    } else {
      assert (a + b)[0] == a[0];
      assert (a + b)[1..] == a[1..] + b;
      match Apply(d, a[0])
      case Failure(_) =>
      case Success(d') => RunAppend(d', a[1..], b);
    }
  }

  /** A single call run as a chain is that call. */
  lemma RunOne(d: Draft, c: Call)
    ensures Apply(d, c).Failure? ==> Run(d, [c]) == Outcome(d, Some(Apply(d, c).error))
    ensures Apply(d, c).Success? ==> Run(d, [c]) == Outcome(Apply(d, c).value, None)
  {
  }

  /** A chain throws exactly when one of its calls has a null argument; it
      then throws NullPointerException at the first such call, and the
      builder keeps the effects of every call before it. */
  lemma {:induction false} RunThrowsAtFirstRejected(d: Draft, calls: seq<Call>)
    ensures Run(d, calls).thrown.Some? <==> !NoneRejected(calls)
    ensures Run(d, calls).thrown.Some? ==> Run(d, calls).thrown == Some(NullPointerException)
    ensures forall i :: 0 <= i < |calls| && Rejected(calls[i]) && NoneRejected(calls[..i]) ==>
      Run(d, calls).reached == Run(d, calls[..i]).reached
    decreases calls
  {
    if calls != [] {
      match Apply(d, calls[0])
      case Failure(_) =>
        assert Rejected(calls[0]);
      case Success(d') =>
        var rest := calls[1..];
        RunThrowsAtFirstRejected(d', rest);
        assert !Rejected(calls[0]);
        if !NoneRejected(rest) {
          var j :| 0 <= j < |rest| && Rejected(rest[j]);
          assert Rejected(calls[j + 1]);
        }
        if !NoneRejected(calls) {
          var j :| 0 <= j < |calls| && Rejected(calls[j]);
          assert j > 0 && Rejected(rest[j - 1]);
        }
        forall i | 0 <= i < |calls| && Rejected(calls[i]) && NoneRejected(calls[..i])
          ensures Run(d, calls).reached == Run(d, calls[..i]).reached
        {
          assert i > 0;
          var p := calls[..i];
          assert p[0] == calls[0] && p[1..] == rest[..i - 1];
          assert Rejected(rest[i - 1]);
          forall j | 0 <= j < i - 1 ensures !Rejected(rest[j]) {
            assert rest[j] == p[j + 1];
          }
        }
    }
  }

  /** Appending one accepted call: the chain's fields are those call's
      update of the fields before it. */
  lemma RunSnoc(d: Draft, calls: seq<Call>, c: Call)
    requires NoneRejected(calls) && !Rejected(c)
    ensures Run(d, calls).thrown.None?
    ensures Apply(Run(d, calls).reached, c).Success?
    ensures Run(d, calls + [c]) == Outcome(Apply(Run(d, calls).reached, c).value, None)
  {
    RunThrowsAtFirstRejected(d, calls);
    RunAppend(d, calls, [c]);
    RunOne(Run(d, calls).reached, c);
  }

  /** After a chain with no null argument the tag is the one given to the
      last setStageTag call, and the tag it started with when there is none. */
  lemma {:induction false} RunStageTag(d: Draft, calls: seq<Call>)
    requires NoneRejected(calls)
    ensures (forall i :: 0 <= i < |calls| ==> !calls[i].SetStageTag?) ==>
      Run(d, calls).reached.stageTag == d.stageTag
    ensures forall i :: LastTagCall(calls, i) ==>
      Some(Run(d, calls).reached.stageTag) == calls[i].tag
  {
    if calls != [] {
      var init, c := calls[..|calls| - 1], calls[|calls| - 1];
      assert calls == init + [c];
      assert NoneRejected(init) by {
        forall i | 0 <= i < |init| ensures !Rejected(init[i]) { assert init[i] == calls[i]; }
      }
      RunStageTag(d, init);
      RunSnoc(d, init, c);
      forall i | LastTagCall(calls, i) && i < |init| ensures LastTagCall(init, i) {
        forall j | i < j < |init| ensures !init[j].SetStageTag? { assert init[j] == calls[j]; }
      }
    }
  }

  /** After a chain with no null argument the requirements are those given
      to the last setRequirements call, and the starting ones when there is none. */
  lemma {:induction false} RunRequirements(d: Draft, calls: seq<Call>)
    requires NoneRejected(calls)
    ensures (forall i :: 0 <= i < |calls| ==> !calls[i].SetRequirements?) ==>
      Run(d, calls).reached.requirements == d.requirements
    ensures forall i :: LastRequirementsCall(calls, i) ==>
      Some(Run(d, calls).reached.requirements) == calls[i].requirements
  {
    if calls != [] {
      var init, c := calls[..|calls| - 1], calls[|calls| - 1];
      assert calls == init + [c];
      assert NoneRejected(init) by {
        forall i | 0 <= i < |init| ensures !Rejected(init[i]) { assert init[i] == calls[i]; }
      }
      RunRequirements(d, init);
      RunSnoc(d, init, c);
      forall i | LastRequirementsCall(calls, i) && i < |init| ensures LastRequirementsCall(init, i) {
        forall j | i < j < |init| ensures !init[j].SetRequirements? { assert init[j] == calls[j]; }
      }
    }
  }

  /** After a chain with no null argument each key holds the value of its
      last addState call, later calls overwriting earlier ones; a key no call
      wrote keeps what it held (or stays absent). */
  lemma {:induction false} RunState(d: Draft, calls: seq<Call>)
    requires NoneRejected(calls)
    ensures forall k :: (forall i :: 0 <= i < |calls| ==> !Writes(calls, i, k)) ==>
      Get(Run(d, calls).reached.state, k) == Get(d.state, k)
    ensures forall k, i :: LastWrite(calls, k, i) ==>
      Get(Run(d, calls).reached.state, k) == calls[i].value
  {
    if calls != [] {
      var init, c := calls[..|calls| - 1], calls[|calls| - 1];
      assert calls == init + [c];
      assert NoneRejected(init) by {
        forall i | 0 <= i < |init| ensures !Rejected(init[i]) { assert init[i] == calls[i]; }
      }
      RunState(d, init);
      RunSnoc(d, init, c);
      forall k | forall i :: 0 <= i < |calls| ==> !Writes(calls, i, k)
        ensures Get(Run(d, calls).reached.state, k) == Get(d.state, k)
      {
        forall i | 0 <= i < |init| ensures !Writes(init, i, k) { assert !Writes(calls, i, k); }
        assert !Writes(calls, |init|, k);
      }
      forall k, i | LastWrite(calls, k, i)
        ensures Get(Run(d, calls).reached.state, k) == calls[i].value
      {
        if i < |init| {
          assert !Writes(calls, |init|, k);
          forall j | i < j < |init| ensures !Writes(init, j, k) { assert !Writes(calls, j, k); }
          assert LastWrite(init, k, i);
        }
      }
    }
  }

  /** A response built from a fresh builder after a chain with no null
      argument has requirements exactly when the last setRequirements call
      passed a non-empty value; with no such call it has none. */
  lemma FreshChainHasRequirements(calls: seq<Call>)
    requires NoneRejected(calls)
    ensures (forall i :: 0 <= i < |calls| ==> !calls[i].SetRequirements?) ==>
      Size(Run(Initial(), calls).reached.requirements) == 0
    ensures forall i :: LastRequirementsCall(calls, i) ==>
      (Size(Run(Initial(), calls).reached.requirements) > 0 <==> HasMembers(calls[i].requirements.value))
  {
    RunRequirements(Initial(), calls);
    forall i | LastRequirementsCall(calls, i)
      ensures Size(Run(Initial(), calls).reached.requirements) > 0 <==> HasMembers(calls[i].requirements.value)
    {
      SizePositiveIffMembers(calls[i].requirements.value);
    }
  }
}
