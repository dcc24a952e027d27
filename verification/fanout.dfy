/**
 The notification pass shared by the store and the mesh: a `forEach` over a
 JavaScript Set or Map that calls every member with one and the same argument
 (`listener(state)` in setState, `device.receive(message)` in broadcast).

 A call is recorded as a `Call(target, arg)`; what the callee does with it is
 outside the model. The host's iteration order is not modelled either: the
 contracts say that every member is called exactly once, never in which order.
 */
module Fanout {

  /** One invocation of `target` with argument `arg`. */
  datatype Call<T, A> = Call(target: T, arg: A)

  /** How many times `t` was called in `log`. */
  function CallsTo<T(==), A>(log: seq<Call<T, A>>, t: T): (n: nat)
    ensures n <= |log|
    ensures n == 0 <==> forall i :: 0 <= i < |log| ==> log[i].target != t
  {
    if log == [] then 0
    else CallsTo(log[..|log| - 1], t) + (if log[|log| - 1].target == t then 1 else 0)
  }

  /** `batch` calls each member of `targets` exactly once, nobody else, and always with `arg`. */
  ghost predicate EachOnce<T(!new), A>(batch: seq<Call<T, A>>, targets: set<T>, arg: A)
  {
    && (forall t :: CallsTo(batch, t) == if t in targets then 1 else 0)
    && (forall i :: 0 <= i < |batch| ==> batch[i].arg == arg)
  }

  /** A pass over `n` members makes exactly `n` calls. */
  lemma {:induction false} EachOnceSize<T(!new), A>(batch: seq<Call<T, A>>, targets: set<T>, arg: A)
    requires EachOnce(batch, targets, arg)
    ensures |batch| == |targets|
  {
    if batch == [] {
      assert forall t :: t !in targets by {
        forall t ensures t !in targets {
          assert CallsTo(batch, t) == 0;
        }
      }
      assert targets == {};
    } else {
      var init, last := batch[..|batch| - 1], batch[|batch| - 1].target;
      assert CallsTo(batch, last) == CallsTo(init, last) + 1;
      assert last in targets && CallsTo(init, last) == 0;
      forall t ensures CallsTo(init, t) == if t in targets - {last} then 1 else 0 {
        assert CallsTo(batch, t) == CallsTo(init, t) + (if last == t then 1 else 0);
      }
      EachOnceSize(init, targets - {last}, arg);
    }
  }

  /** The `forEach` loop: calls every member of `targets` with `arg`, in some order. */
  method Notify<T(==,!new), A>(targets: set<T>, arg: A) returns (batch: seq<Call<T, A>>)
    ensures EachOnce(batch, targets, arg)
    ensures |batch| == |targets|
  {
    var pending := targets;
    batch := [];
    while pending != {}
      invariant pending <= targets
      invariant forall t :: CallsTo(batch, t) == if t in targets - pending then 1 else 0
      invariant forall i :: 0 <= i < |batch| ==> batch[i].arg == arg
      decreases pending
    {
      var t :| t in pending;
      batch := batch + [Call(t, arg)];
      pending := pending - {t};
    }
    EachOnceSize(batch, targets, arg);
  }
}
