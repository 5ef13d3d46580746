/**
 The specification the queues are measured against: a bounded FIFO whose operations take
 effect at one instant between call and return.

 `Atomic` is that object as an automaton.  A run of a queue is linearizable when its calls
 and returns are those of some legal run of the automaton (`Linearizable`).

 `Watched` is the same object with one liberty: a refusal may be noted without being
 decided, and is used only if the call later returns it.  The queues that confirm a refusal
 by a second load need it; `SettleLegal` removes the liberty again.
 */
module BoundedFifo {

  datatype Op<T> = Enq(v: T) | Deq

  datatype Res<T> = Ok | Got(v: T) | WouldBlock

  datatype Status<T> = Idle | Pending(op: Op<T>) | Done(res: Res<T>)

  datatype Atomic<T> = Atomic(cap: nat, queue: seq<T>, status: seq<Status<T>>)

  datatype Action<T> =
    | Tau
    | Call(t: nat, op: Op<T>)
    | Effect(t: nat)
    | Refuse(t: nat)
    | Return(t: nat, res: Res<T>)

  /** Calls and returns are what the environment of a queue can see. */
  predicate Visible<T>(a: Action<T>) {
    a.Call? || a.Return?
  }

  function Visibles<T>(acts: seq<Action<T>>): (r: seq<Action<T>>)
    ensures forall i :: 0 <= i < |r| ==> Visible(r[i])
  {
    if acts == [] then []
    else if Visible(acts[0]) then [acts[0]] + Visibles(acts[1..])
    else Visibles(acts[1..])
  }

  lemma Associates<T>(a: seq<T>, b: seq<T>, c: seq<T>)
    ensures a + (b + c) == a + b + c
  {
  }

  // The atomic object

  function New<T>(cap: nat, threads: nat): Atomic<T> {
    Atomic(cap, [], seq(threads, _ => Idle))
  }

  predicate CanEffect<T>(cap: nat, queue: seq<T>, op: Op<T>) {
    match op
    case Enq(_) => |queue| < cap
    case Deq => queue != []
  }

  predicate MustRefuse<T>(cap: nat, queue: seq<T>, op: Op<T>) {
    match op
    case Enq(_) => |queue| == cap
    case Deq => queue == []
  }

  predicate Enabled<T(==)>(o: Atomic<T>, a: Action<T>) {
    match a
    case Tau => true
    case Call(t, op) => t < |o.status| && o.status[t] == Idle
    case Effect(t) => t < |o.status| && o.status[t].Pending? && CanEffect(o.cap, o.queue, o.status[t].op)
    case Refuse(t) => t < |o.status| && o.status[t].Pending? && MustRefuse(o.cap, o.queue, o.status[t].op)
    case Return(t, res) => t < |o.status| && o.status[t] == Done(res)
  }

  function SetStatus<T>(o: Atomic<T>, t: nat, st: Status<T>): Atomic<T>
    requires t < |o.status|
  {
    o.(status := o.status[t := st])
  }

  /** The FIFO itself: enqueue at the back, dequeue at the front. */
  function TakeEffect<T>(o: Atomic<T>, t: nat): Atomic<T>
    requires t < |o.status| && o.status[t].Pending? && CanEffect(o.cap, o.queue, o.status[t].op)
  {
    match o.status[t].op
    case Enq(v) => SetStatus(o, t, Done(Ok)).(queue := o.queue + [v])
    case Deq => SetStatus(o, t, Done(Got(o.queue[0]))).(queue := o.queue[1..])
  }

  function Apply<T(==)>(o: Atomic<T>, a: Action<T>): Atomic<T>
    requires Enabled(o, a)
  {
    match a
    case Tau => o
    case Call(t, op) => SetStatus(o, t, Pending(op))
    case Effect(t) => TakeEffect(o, t)
    case Refuse(t) => SetStatus(o, t, Done(WouldBlock))
    case Return(t, _) => SetStatus(o, t, Idle)
  }

  predicate Legal<T(==)>(o: Atomic<T>, acts: seq<Action<T>>)
    decreases acts
  {
    acts == [] || (Enabled(o, acts[0]) && Legal(Apply(o, acts[0]), acts[1..]))
  }

  /** A trace of calls and returns that a bounded FIFO with atomic operations can show. */
  ghost predicate Linearizable<T(!new)>(cap: nat, threads: nat, trace: seq<Action<T>>) {
    exists acts :: Legal(New(cap, threads), acts) && Visibles(acts) == trace
  }

  // What the atomic object guarantees

  function After<T(==)>(o: Atomic<T>, acts: seq<Action<T>>): Atomic<T>
    requires Legal(o, acts)
    decreases acts
  {
    if acts == [] then o else After(Apply(o, acts[0]), acts[1..])
  }

  /** The values enqueued by a run, in order of effect. */
  function Accepted<T(==)>(o: Atomic<T>, acts: seq<Action<T>>): seq<T>
    requires Legal(o, acts)
    decreases acts
  {
    if acts == [] then []
    else
      (if acts[0].Effect? && o.status[acts[0].t].op.Enq? then [o.status[acts[0].t].op.v] else [])
      + Accepted(Apply(o, acts[0]), acts[1..])
  }

  /** The values dequeued by a run, in order of effect. */
  function Delivered<T(==)>(o: Atomic<T>, acts: seq<Action<T>>): seq<T>
    requires Legal(o, acts)
    decreases acts
  {
    if acts == [] then []
    else
      (if acts[0].Effect? && o.status[acts[0].t].op.Deq? then [o.queue[0]] else [])
      + Delivered(Apply(o, acts[0]), acts[1..])
  }

  /** Nothing is lost, invented, duplicated or reordered, and the bound holds. */
  lemma {:induction false} FirstInFirstOut<T>(o: Atomic<T>, acts: seq<Action<T>>)
    requires Legal(o, acts) && |o.queue| <= o.cap
    ensures o.queue + Accepted(o, acts) == Delivered(o, acts) + After(o, acts).queue
    ensures |After(o, acts).queue| <= After(o, acts).cap == o.cap
    decreases acts
  {
    if acts == [] {
    } else {
      var o', rest := Apply(o, acts[0]), acts[1..];
      FirstInFirstOut(o', rest);
      assert After(o, acts) == After(o', rest);
      if acts[0].Effect? {
        if o.status[acts[0].t].op.Enq? {
          assert o.queue + Accepted(o, acts) == o'.queue + Accepted(o', rest);
        } else {
          assert o.queue == [o.queue[0]] + o'.queue;
          assert o.queue + Accepted(o, acts) == [o.queue[0]] + (o'.queue + Accepted(o', rest));
          assert Delivered(o, acts) == [o.queue[0]] + Delivered(o', rest);
        }
      } else {
        assert Accepted(o, acts) == Accepted(o', rest) && Delivered(o, acts) == Delivered(o', rest);
      }
    }
  }

  // The watched object: a noted refusal stays revocable until it is returned

  datatype Watched<T> = Watched(obj: Atomic<T>, seen: set<nat>)

  predicate WEnabled<T(==)>(w: Watched<T>, a: Action<T>) {
    Enabled(w.obj, a)
    || (a.Return? && a.res == WouldBlock && a.t in w.seen && a.t < |w.obj.status| && w.obj.status[a.t].Pending?)
  }

  function WApply<T(==)>(w: Watched<T>, a: Action<T>): Watched<T>
    requires WEnabled(w, a)
  {
    match a
    case Tau => w
    case Call(t, op) => Watched(SetStatus(w.obj, t, Pending(op)), w.seen - {t})
    case Effect(t) => Watched(TakeEffect(w.obj, t), w.seen)
    case Refuse(t) => w.(seen := w.seen + {t})
    case Return(t, _) => Watched(SetStatus(w.obj, t, Idle), w.seen - {t})
  }

  predicate WLegal<T(==)>(w: Watched<T>, acts: seq<Action<T>>)
    decreases acts
  {
    acts == [] || (WEnabled(w, acts[0]) && WLegal(WApply(w, acts[0]), acts[1..]))
  }

  predicate Concerns<T>(a: Action<T>, t: nat) {
    !a.Tau? && a.t == t
  }

  /** The next action of thread `t`, or `Tau` when there is none. */
  function NextOf<T>(acts: seq<Action<T>>, t: nat): Action<T> {
    if acts == [] then Tau
    else if Concerns(acts[0], t) then acts[0]
    else NextOf(acts[1..], t)
  }

  /** Keep a noted refusal exactly when the call goes on to return it. */
  function Settle<T(==)>(acts: seq<Action<T>>): seq<Action<T>> {
    if acts == [] then []
    else
      var a := acts[0];
      [if a.Refuse? && NextOf(acts[1..], a.t) != Return(a.t, WouldBlock) then Tau else a] + Settle(acts[1..])
  }

  ghost predicate Settled<T>(w: Watched<T>, o: Atomic<T>, rest: seq<Action<T>>) {
    && o.cap == w.obj.cap && o.queue == w.obj.queue && |o.status| == |w.obj.status|
    && forall t :: 0 <= t < |o.status| ==>
         o.status[t] ==
           if w.obj.status[t].Pending? && t in w.seen && NextOf(rest, t) == Return(t, WouldBlock) then Done(WouldBlock)
           else w.obj.status[t]
  }

  /** Every legal run of the watched object settles to a legal run of the atomic one. */
  lemma {:induction false} SettleLegal<T>(w: Watched<T>, o: Atomic<T>, acts: seq<Action<T>>)
    requires WLegal(w, acts) && Settled(w, o, acts)
    ensures Legal(o, Settle(acts))
    ensures Visibles(Settle(acts)) == Visibles(acts)
    decreases acts
  {
    if acts == [] {
    } else {
      var a, rest := acts[0], acts[1..];
      var b := Settle(acts)[0];
      assert Settle(acts)[1..] == Settle(rest);
      if !a.Tau? {
        assert NextOf(acts, a.t) == a;
      }
      SettleLegal(WApply(w, a), Apply(o, b), rest);
    }
  }

  /** The form the queues use: a watched run from the start shows a linearizable trace. */
  lemma WatchedLinearizable<T(!new)>(cap: nat, threads: nat, acts: seq<Action<T>>)
    requires WLegal(Watched(New(cap, threads), {}), acts)
    ensures Linearizable(cap, threads, Visibles(acts))
  {
    var w := Watched(New<T>(cap, threads), {});
    SettleLegal(w, w.obj, acts);
    assert Legal(New(cap, threads), Settle(acts)) && Visibles(Settle(acts)) == Visibles(acts);
  }
}
