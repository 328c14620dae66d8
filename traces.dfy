/**
 * Sequences of property accesses on one proxied instance, run in order.
 * Each access is answered with what its trap returns: the value read, the
 * boolean of `has`, `true` for a write or a delete, or the exception thrown.
 */
module Traces {
  import opened Dispatch

  datatype Access =
    | Read(key: string)                 // instance.key
    | Write(key: string, value: Value)  // instance.key = value
    | Query(key: string)                // key in instance
    | Remove(key: string)               // delete instance.key

  /** Commits a state-changing trap: success installs the new slots, failure keeps the old ones. */
  function Commit(s: Slots, o: Outcome<Slots>): (Slots, Outcome<Value>) {
    match o
    case Ok(s') => (s', Ok(Bool(true)))
    case Fail(e) => (s, Fail(e))
  }

  /** One access: the state after it and its answer. */
  function Step(p: Prototype, s: Slots, a: Access): (r: (Slots, Outcome<Value>))
    ensures r.1.Fail? ==> r.0 == s
    ensures (a.Read? || a.Query?) ==> r.0 == s
    ensures a.Query? ==> r.1.Ok? && r.1.value.Bool?
    ensures a.Remove? && !HasSetter(p, s, a.key) ==> r.0 == s
  {
    match a
    case Read(k) => (s, Get(p, s, k))
    case Write(k, v) => Commit(s, Set(p, s, k, v))
    case Query(k) => (s, Ok(Bool(Has(p, s, k))))
    case Remove(k) => Commit(s, Delete(p, s, k))
  }

  /** What one access does to a state: the state after it and its answer. */
  type Stepper = (Slots, Access) -> (Slots, Outcome<Value>)

  /** The traps of an instance of `p`, one access at a time. */
  function Traps(p: Prototype): Stepper {
    (s: Slots, a: Access) => Step(p, s, a)
  }

  /** Runs the accesses from the first to the last, each with `step`. */
  function Replay(step: Stepper, s: Slots, trace: seq<Access>): (r: (Slots, seq<Outcome<Value>>))
    ensures |r.1| == |trace|
    decreases |trace|
  {
    if trace == [] then (s, [])
    else
      var (s1, reply) := step(s, trace[0]);
      var (s2, replies) := Replay(step, s1, trace[1..]);
      (s2, [reply] + replies)
  }

  /** Runs the accesses on an instance of `p`: one answer per access. */
  function Run(p: Prototype, s: Slots, trace: seq<Access>): (r: (Slots, seq<Outcome<Value>>))
    ensures |r.1| == |trace|
  {
    Replay(Traps(p), s, trace)
  }

  /** Replaying `a` and then `rest`: the first step, then the rest from its state. */
  lemma ReplayCons(step: Stepper, s: Slots, a: Access, rest: seq<Access>)
    ensures Replay(step, s, [a] + rest)
            == (Replay(step, step(s, a).0, rest).0, [step(s, a).1] + Replay(step, step(s, a).0, rest).1)
  {
    assert ([a] + rest)[0] == a && ([a] + rest)[1..] == rest;
  }

  /**
   * Replaying a trace is replaying a prefix of it and then the rest from
   * the state the prefix leaves: the answers are the prefix's followed by
   * the rest's.
   */
  lemma {:induction false} ReplaySplit(step: Stepper, s: Slots, trace: seq<Access>, i: nat)
    requires i <= |trace|
    ensures Replay(step, s, trace).0 == Replay(step, Replay(step, s, trace[..i]).0, trace[i..]).0
    ensures Replay(step, s, trace).1
            == Replay(step, s, trace[..i]).1 + Replay(step, Replay(step, s, trace[..i]).0, trace[i..]).1
    decreases i
  {
    if i == 0 {
      assert trace[..0] == [] && trace[0..] == trace;
    } else {
      var first := step(s, trace[0]);
      var prefix := trace[..i];
      assert prefix == [trace[0]] + prefix[1..] && trace == [trace[0]] + trace[1..];
      assert prefix[1..] == trace[1..][..i - 1];
      assert trace[1..][i - 1..] == trace[i..];
      ReplaySplit(step, first.0, trace[1..], i - 1);
      ReplayCons(step, s, trace[0], prefix[1..]);
      ReplayCons(step, s, trace[0], trace[1..]);
      var middle := Replay(step, first.0, prefix[1..]);
      var last := Replay(step, middle.0, trace[i..]);
      assert [first.1] + (middle.1 + last.1) == ([first.1] + middle.1) + last.1;
    }
  }

  /** Reads and `in` tests leave the state as it was. */
  ghost predicate Observes(step: Stepper) {
    forall t: Slots, a: Access :: (a.Read? || a.Query?) ==> step(t, a).0 == t
  }

  /**
   * With a step whose reads and `in` tests change nothing, a trace of them
   * alone keeps the state, and each answer is that access's answer on the
   * starting state.
   */
  lemma {:induction false} ReplayObserving(step: Stepper, s: Slots, trace: seq<Access>)
    requires Observes(step)
    requires forall k :: 0 <= k < |trace| ==> trace[k].Read? || trace[k].Query?
    ensures Replay(step, s, trace).0 == s
    ensures forall k :: 0 <= k < |trace| ==> Replay(step, s, trace).1[k] == step(s, trace[k]).1
  {
    if trace != [] {
      assert step(s, trace[0]).0 == s;
      ReplayObserving(step, s, trace[1..]);
      ReplayCons(step, s, trace[0], trace[1..]);
      assert [trace[0]] + trace[1..] == trace;
      forall k | 1 <= k < |trace|
        ensures Replay(step, s, trace).1[k] == step(s, trace[k]).1
      {
        assert trace[k] == trace[1..][k - 1];
      }
    }
  }

  /** The answers of a prefix are the first answers of the whole trace. */
  lemma ReplayPrefix(step: Stepper, s: Slots, trace: seq<Access>, n: nat, m: nat)
    requires m < n <= |trace|
    ensures Replay(step, s, trace).1[m] == Replay(step, s, trace[..n]).1[m]
  {
    ReplaySplit(step, s, trace, n);
  }

  /** From position `i` on, the answers are those of the rest replayed from the state the first `i` accesses leave. */
  lemma ReplaySuffix(step: Stepper, s: Slots, trace: seq<Access>, i: nat, m: nat)
    requires i <= m < |trace|
    ensures Replay(step, s, trace).1[m] == Replay(step, Replay(step, s, trace[..i]).0, trace[i..]).1[m - i]
  {
    ReplaySplit(step, s, trace, i);
  }

  /**
   * With such a step, two equal accesses answer the same when only reads
   * and `in` tests stand between them, wherever they are in the trace.
   */
  lemma ReplayRepeatsAgree(step: Stepper, s: Slots, trace: seq<Access>, i: nat, j: nat)
    requires Observes(step)
    requires i < j < |trace|
    requires trace[i].Read? && trace[j] == trace[i]
    requires forall k :: i <= k < j ==> trace[k].Read? || trace[k].Query?
    ensures Replay(step, s, trace).1[i] == Replay(step, s, trace).1[j]
  {
    var mid := Replay(step, s, trace[..i]).0;
    var rest := trace[i..];
    var between := rest[..j - i + 1];
    ReplaySuffix(step, s, trace, i, i);
    ReplaySuffix(step, s, trace, i, j);
    ReplayPrefix(step, mid, rest, j - i + 1, 0);
    ReplayPrefix(step, mid, rest, j - i + 1, j - i);
    forall k | 0 <= k < |between|
      ensures between[k].Read? || between[k].Query?
    {
      assert between[k] == trace[i + k];
    }
    ReplayObserving(step, mid, between);
    assert between[0] == between[j - i];
  }

  /** Running a non-empty trace on an instance: the first trap, then the rest from its state. */
  lemma RunCons(p: Prototype, s: Slots, trace: seq<Access>)
    requires trace != []
    ensures Run(p, s, trace)
            == (Run(p, Step(p, s, trace[0]).0, trace[1..]).0,
                [Step(p, s, trace[0]).1] + Run(p, Step(p, s, trace[0]).0, trace[1..]).1)
  {
    assert Traps(p)(s, trace[0]) == Step(p, s, trace[0]);
  }

  /** The traps' reads and `in` tests change nothing. */
  lemma TrapsObserve(p: Prototype)
    ensures Observes(Traps(p))
  {
  }

  /**
   * Reads and `in` tests change nothing, so every read in a trace made of
   * them alone answers what `get` answers on the starting state.
   */
  lemma ObservingChangesNothing(p: Prototype, s: Slots, trace: seq<Access>)
    requires forall i :: 0 <= i < |trace| ==> trace[i].Read? || trace[i].Query?
    ensures Run(p, s, trace).0 == s
    ensures forall i :: 0 <= i < |trace| && trace[i].Read? ==> Run(p, s, trace).1[i] == Get(p, s, trace[i].key)
    ensures forall i :: 0 <= i < |trace| && trace[i].Query? ==> Run(p, s, trace).1[i] == Ok(Bool(Has(p, s, trace[i].key)))
  {
    TrapsObserve(p);
    ReplayObserving(Traps(p), s, trace);
    forall i | 0 <= i < |trace|
      ensures Run(p, s, trace).1[i] == Step(p, s, trace[i]).1
    {
      assert Traps(p)(s, trace[i]) == Step(p, s, trace[i]);
    }
  }

  /**
   * Two reads of one key answer the same when only reads and `in` tests
   * come between them, wherever they stand in the trace and whatever it
   * does before the first of them.
   */
  lemma RepeatedReadsAgree(p: Prototype, s: Slots, trace: seq<Access>, i: nat, j: nat)
    requires i < j < |trace|
    requires trace[i].Read? && trace[j] == trace[i]
    requires forall k :: i <= k < j ==> trace[k].Read? || trace[k].Query?
    ensures Run(p, s, trace).1[i] == Run(p, s, trace).1[j]
  {
    TrapsObserve(p);
    ReplayRepeatsAgree(Traps(p), s, trace, i, j);
  }

  /**
   * A trace whose keys have no setter cannot change the instance: writes
   * and deletes either throw before anything happens or are no-ops.
   */
  lemma {:induction false} WithoutSettersNothingChanges(p: Prototype, s: Slots, trace: seq<Access>)
    requires forall i :: 0 <= i < |trace| ==> !HasSetter(p, s, trace[i].key)
    ensures Run(p, s, trace).0 == s
  {
    if trace != [] {
      assert Step(p, s, trace[0]).0 == s;
      RunCons(p, s, trace);
      WithoutSettersNothingChanges(p, s, trace[1..]);
    }
  }
}
