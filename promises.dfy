/**
 * The settle-once behaviour of a JavaScript promise created with
 * `new Promise((res, rej) => ...)`: the first call to its `resolve` or
 * `reject` decides the outcome, and every later call is ignored.
 */
module Promises {
  /** The state of a promise; a rejection carries the error's message. */
  datatype Settle<T> = Pending | Resolved(value: T) | Rejected(reason: string)

  /** One call to the promise's `resolve` or `reject` function. */
  datatype SettleCall<T> = CallResolve(value: T) | CallReject(reason: string)

  /** The outcome a single call would give a pending promise. */
  function Outcome<T>(c: SettleCall<T>): (r: Settle<T>)
    ensures !r.Pending?
  {
    match c
    case CallResolve(v) => Resolved(v)
    case CallReject(m) => Rejected(m)
  }

  /** `resolve(v)`: a pending promise is fulfilled with `v`; a settled one is unchanged. */
  function Resolve<T>(p: Settle<T>, v: T): (r: Settle<T>)
    ensures p.Pending? ==> r == Resolved(v)
    ensures !p.Pending? ==> r == p
  {
    if p.Pending? then Resolved(v) else p
  }

  /** `reject(new Error(m))`: a pending promise is rejected with `m`; a settled one is unchanged. */
  function Reject<T>(p: Settle<T>, m: string): (r: Settle<T>)
    ensures p.Pending? ==> r == Rejected(m)
    ensures !p.Pending? ==> r == p
  {
    if p.Pending? then Rejected(m) else p
  }

  /** One call on the promise: a pending promise takes the call's outcome, a settled one ignores it. */
  function Apply<T>(p: Settle<T>, c: SettleCall<T>): (r: Settle<T>)
    ensures p.Pending? ==> r == Outcome(c)
    ensures !p.Pending? ==> r == p
  {
    match c
    case CallResolve(v) => Resolve(p, v)
    case CallReject(m) => Reject(p, m)
  }

  /** The promise after the calls `cs`, in order. */
  function ApplyAll<T>(p: Settle<T>, cs: seq<SettleCall<T>>): (r: Settle<T>)
    ensures r.Pending? <==> p.Pending? && cs == []
    decreases |cs|
  {
    if cs == [] then p else ApplyAll(Apply(p, cs[0]), cs[1..])
  }

  /** Once settled, a promise ignores every further call. */
  lemma {:induction false} SettledIsFinal<T>(p: Settle<T>, cs: seq<SettleCall<T>>)
    requires !p.Pending?
    ensures ApplyAll(p, cs) == p
    decreases |cs|
  {
    if cs != [] {
      SettledIsFinal(Apply(p, cs[0]), cs[1..]);
    }
  }

  /** The first call decides a fresh promise; without calls it stays pending. */
  lemma {:induction false} FirstCallWins<T>(cs: seq<SettleCall<T>>)
    ensures cs == [] ==> ApplyAll(Pending, cs) == Pending
    ensures cs != [] ==> ApplyAll(Pending, cs) == Outcome(cs[0])
  {
    if cs != [] {
      SettledIsFinal(Apply(Pending, cs[0]), cs[1..]);
    }
  }
}
