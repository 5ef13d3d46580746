/**
 What MPMC does when it is used one call at a time: indices, threshold and contents as a
 value, and the plain bounded FIFO it answers like.
 */
module MPMCModel {
  import Fifo = BoundedFifo

  datatype Call<T> = Enqueue(v: T) | Dequeue | Drain

  type Res<T> = Fifo.Res<T>

  datatype State<T> = State(n: nat, tail: nat, head: nat, threshold: int, draining: bool, items: seq<T>)

  datatype Outcome<T> = Outcome(s: State<T>, res: Res<T>)

  function New<T>(n: nat): State<T> {
    State(n, 0, 0, 3 * n - 1, false, [])
  }

  /** A queue that answers a Dequeue without touching anything. */
  predicate Tired<T>(s: State<T>) {
    !s.draining && s.threshold < 0
  }

  function Do<T>(s: State<T>, c: Call<T>): Outcome<T> {
    match c
    case Enqueue(v) =>
      if s.tail >= s.head + s.n then Outcome(s, Fifo.WouldBlock)
      else Outcome(s.(tail := s.tail + 1, threshold := 3 * s.n - 1, items := s.items + [v]), Fifo.Ok)
    case Dequeue =>
      if Tired(s) then Outcome(s, Fifo.WouldBlock)
      else if s.items == [] then
        Outcome(s.(head := s.head + 1, tail := s.head + 1, threshold := s.threshold - 1), Fifo.WouldBlock)
      else Outcome(s.(head := s.head + 1, items := s.items[1..]), Fifo.Got(s.items[0]))
    case Drain => Outcome(s.(draining := true), Fifo.Ok)
  }

  /** What every call keeps. */
  ghost predicate Good<T>(s: State<T>) {
    && s.n > 0
    && s.head + |s.items| == s.tail <= s.head + s.n
    && s.threshold <= 3 * s.n - 1
    && (s.items != [] ==> s.threshold == 3 * s.n - 1)
    && (!s.draining ==> s.threshold >= -1)
  }

  lemma Keeps<T>(s: State<T>, c: Call<T>)
    requires Good(s)
    ensures Good(Do(s, c).s) && Do(s, c).s.n == s.n
  {
  }

  function Answers<T>(s: State<T>, calls: seq<Call<T>>): seq<Res<T>>
    decreases calls
  {
    if calls == [] then [] else [Do(s, calls[0]).res] + Answers(Do(s, calls[0]).s, calls[1..])
  }

  function Final<T>(s: State<T>, calls: seq<Call<T>>): State<T>
    decreases calls
  {
    if calls == [] then s else Final(Do(s, calls[0]).s, calls[1..])
  }

  // The plain FIFO

  datatype Plain<T> = Plain(queue: seq<T>, res: Res<T>)

  /** Full iff `n` items, empty iff none; it has no indices and no threshold. */
  function PlainDo<T>(n: nat, queue: seq<T>, c: Call<T>): Plain<T> {
    match c
    case Enqueue(v) => if |queue| == n then Plain(queue, Fifo.WouldBlock) else Plain(queue + [v], Fifo.Ok)
    case Dequeue => if queue == [] then Plain(queue, Fifo.WouldBlock) else Plain(queue[1..], Fifo.Got(queue[0]))
    case Drain => Plain(queue, Fifo.Ok)
  }

  function PlainAnswers<T>(n: nat, queue: seq<T>, calls: seq<Call<T>>): seq<Res<T>>
    decreases calls
  {
    if calls == [] then []
    else [PlainDo(n, queue, calls[0]).res] + PlainAnswers(n, PlainDo(n, queue, calls[0]).queue, calls[1..])
  }

  lemma {:induction false} AnswersAlike<T>(s: State<T>, calls: seq<Call<T>>)
    requires Good(s)
    ensures Answers(s, calls) == PlainAnswers(s.n, s.items, calls)
    ensures Good(Final(s, calls)) && Final(s, calls).n == s.n
    decreases calls
  {
    if calls == [] {
    } else {
      var c := calls[0];
      Keeps(s, c);
      assert Do(s, c).res == PlainDo(s.n, s.items, c).res && Do(s, c).s.items == PlainDo(s.n, s.items, c).queue;
      AnswersAlike(Do(s, c).s, calls[1..]);
    }
  }

  /** Whatever sequence of calls is made, MPMC answers like the plain FIFO of capacity `n`. */
  lemma RefinesPlain<T>(n: nat, calls: seq<Call<T>>)
    requires n > 0
    ensures Answers(New<T>(n), calls) == PlainAnswers(n, [], calls)
  {
    AnswersAlike(New<T>(n), calls);
  }

  // Burned positions and the threshold

  predicate Burns<T>(s: State<T>, c: Call<T>) {
    c.Dequeue? && s.items == [] && !Tired(s)
  }

  function Burned<T>(s: State<T>, calls: seq<Call<T>>): nat
    decreases calls
  {
    if calls == [] then 0
    else (if Burns(s, calls[0]) then 1 else 0) + Burned(Do(s, calls[0]).s, calls[1..])
  }

  function Delivered<T>(s: State<T>, calls: seq<Call<T>>): nat
    decreases calls
  {
    if calls == [] then 0
    else (if Do(s, calls[0]).res.Got? then 1 else 0) + Delivered(Do(s, calls[0]).s, calls[1..])
  }

  /** Every head position was either delivered or burned. */
  lemma {:induction false} Conservation<T>(s: State<T>, calls: seq<Call<T>>)
    requires Good(s)
    ensures Final(s, calls).head == s.head + Delivered(s, calls) + Burned(s, calls)
    decreases calls
  {
    if calls == [] {
    } else {
      Keeps(s, calls[0]);
      Conservation(Do(s, calls[0]).s, calls[1..]);
    }
  }

  /** No Drain and no successful Enqueue. */
  predicate Starved<T>(s: State<T>, calls: seq<Call<T>>)
    decreases calls
  {
    calls == []
    || (&& !calls[0].Drain? && !(calls[0].Enqueue? && Do(s, calls[0]).res.Ok?)
        && Starved(Do(s, calls[0]).s, calls[1..]))
  }

  /** Between successful enqueues every burned position costs one unit of threshold: at most `3n` before Drain. */
  lemma {:induction false} BurnBudget<T>(s: State<T>, calls: seq<Call<T>>)
    requires Good(s) && Starved(s, calls)
    ensures Burned(s, calls) == s.threshold - Final(s, calls).threshold
    ensures !s.draining ==> Burned(s, calls) <= 3 * s.n
    ensures Good(Final(s, calls)) && Final(s, calls).draining == s.draining && Final(s, calls).n == s.n
    decreases calls
  {
    if calls == [] {
    } else {
      Keeps(s, calls[0]);
      BurnBudget(Do(s, calls[0]).s, calls[1..]);
    }
  }

  /** Once the budget is spent, a Dequeue changes nothing, and only then on an empty queue. */
  lemma SpentIffQuiet<T>(s: State<T>, calls: seq<Call<T>>)
    requires Good(s) && !s.draining && Starved(s, calls)
    ensures var f := Final(s, calls);
      Burned(s, calls) == s.threshold + 1 <==> Do(f, Dequeue).s == f
    ensures Final(s, calls).items != [] ==> Final(s, calls).threshold == 3 * s.n - 1
  {
    BurnBudget(s, calls);
  }

  function Dequeues<T>(k: nat): (r: seq<Call<T>>)
    ensures |r| == k
  {
    if k == 0 then [] else [Dequeue] + Dequeues(k - 1)
  }

  /** On an empty queue `k` dequeues burn as much as the budget allows; after Drain, one each. */
  lemma {:induction false} EmptyDequeues<T>(s: State<T>, k: nat)
    requires Good(s) && s.items == []
    ensures Burned(s, Dequeues<T>(k)) ==
      if s.draining || k <= s.threshold + 1 then k else s.threshold + 1
    ensures Final(s, Dequeues<T>(k)).head == s.head + Burned(s, Dequeues<T>(k))
    decreases k
  {
    if k == 0 {
    } else {
      var s' := Do(s, Dequeue).s;
      assert Dequeues<T>(k)[0] == Dequeue && Dequeues<T>(k)[1..] == Dequeues<T>(k - 1);
      EmptyDequeues(s', k - 1);
    }
  }

  /** The queue drains exactly from the first Drain on, whatever else is called. */
  lemma {:induction false} DrainingIff<T>(s: State<T>, calls: seq<Call<T>>)
    ensures Final(s, calls).draining <==> s.draining || exists i :: 0 <= i < |calls| && calls[i].Drain?
    decreases calls
  {
    if calls == [] {
    } else {
      DrainingIff(Do(s, calls[0]).s, calls[1..]);
      assert forall i :: 1 <= i < |calls| ==> calls[1..][i - 1] == calls[i];
    }
  }

  /** After Drain the threshold stops no Dequeue: every one on an empty queue burns a position. */
  lemma DrainBurns<T>(s: State<T>, k: nat)
    requires Good(s) && s.items == []
    ensures Burned(s, [Drain] + Dequeues<T>(k)) == k
    ensures Final(s, [Drain] + Dequeues<T>(k)).head == s.head + k
    ensures Final(s, [Drain] + Dequeues<T>(k)).threshold == s.threshold - k
  {
    var calls := [Drain] + Dequeues<T>(k);
    assert calls[0] == Drain && calls[1..] == Dequeues<T>(k);
    var d := Do(s, Drain).s;
    DrainingIff(s, [Drain]);
    assert Final(s, [Drain]) == Final(d, []);
    EmptyDequeues(d, k);
    EmptyStarved(d, k);
    BurnBudget(d, Dequeues<T>(k));
  }

  lemma {:induction false} EmptyStarved<T>(s: State<T>, k: nat)
    ensures Starved(s, Dequeues<T>(k))
    decreases k
  {
    if k == 0 {
    } else {
      assert Dequeues<T>(k)[0] == Dequeue && Dequeues<T>(k)[1..] == Dequeues<T>(k - 1);
      EmptyStarved(Do(s, Dequeue).s, k - 1);
    }
  }
}

/** MPMC: the generic queue of mpmc.go, one call at a time, with its slots in place. */
module MPMC {
  import opened Ring
  import opened TwoLap
  import Capacity
  import Bits
  import Model = MPMCModel
  import Fifo = BoundedFifo

  predicate Sized<T>(cycles: seq<nat>, data: seq<T>, n: nat, items: seq<T>) {
    n > 0 && |cycles| == |data| == 2 * n && |items| <= n
  }

  /** Position `p` holds an item and is tagged filled, or is free, cleared and tagged empty. */
  ghost predicate SlotOk<T>(cycles: seq<nat>, data: seq<T>, zero: T, n: nat, head: nat, items: seq<T>, p: nat)
    requires Sized(cycles, data, n, items) && head <= p
  {
    var j := Place(p, n);
    if p < head + |items| then cycles[j] == Cycle(p, n) + 1 && data[j] == items[p - head]
    else cycles[j] == Cycle(p, n) && data[j] == zero
  }

  ghost predicate LaidUpTo<T>(cycles: seq<nat>, data: seq<T>, zero: T, n: nat, head: nat, items: seq<T>, k: nat)
    requires Sized(cycles, data, n, items)
  {
    || k == 0
    || (&& SlotOk(cycles, data, zero, n, head, items, head + k - 1)
        && LaidUpTo(cycles, data, zero, n, head, items, k - 1))
  }

  /** The window `[head, head + 2n)` visits every slot once: first the items, then the free positions. */
  ghost predicate Laid<T>(cycles: seq<nat>, data: seq<T>, zero: T, n: nat, head: nat, items: seq<T>) {
    Sized(cycles, data, n, items) && LaidUpTo(cycles, data, zero, n, head, items, 2 * n)
  }

  lemma {:induction false} Each<T>(cycles: seq<nat>, data: seq<T>, zero: T, n: nat, head: nat, items: seq<T>, k: nat)
    requires Sized(cycles, data, n, items)
    ensures LaidUpTo(cycles, data, zero, n, head, items, k) <==>
      forall p :: head <= p < head + k ==> SlotOk(cycles, data, zero, n, head, items, p)
  {
    if k == 0 {
    } else {
      Each(cycles, data, zero, n, head, items, k - 1);
    }
  }

  lemma NewLaid<T>(cycles: seq<nat>, data: seq<T>, zero: T, n: nat)
    requires n > 0 && |cycles| == |data| == 2 * n
    requires forall p :: 0 <= p < 2 * n ==> cycles[p] == Cycle(p, n) && data[p] == zero
    ensures Laid(cycles, data, zero, n, 0, [])
  {
    Each(cycles, data, zero, n, 0, [], 2 * n);
  }

  /** What an operation finds at either end. */
  lemma Ends<T>(cycles: seq<nat>, data: seq<T>, zero: T, n: nat, head: nat, items: seq<T>)
    requires Laid(cycles, data, zero, n, head, items)
    ensures var p := head + |items|; cycles[Place(p, n)] == Cycle(p, n) && data[Place(p, n)] == zero
    ensures items != [] ==> cycles[Place(head, n)] == Cycle(head, n) + 1 && data[Place(head, n)] == items[0]
  {
    Each(cycles, data, zero, n, head, items, 2 * n);
    assert SlotOk(cycles, data, zero, n, head, items, head + |items|);
    assert SlotOk(cycles, data, zero, n, head, items, head);
  }

  lemma PutKeeps<T>(cycles: seq<nat>, data: seq<T>, zero: T, n: nat, head: nat, items: seq<T>, v: T)
    requires Laid(cycles, data, zero, n, head, items) && |items| < n
    ensures var p := head + |items|;
      Laid(cycles[Place(p, n) := Cycle(p, n) + 1], data[Place(p, n) := v], zero, n, head, items + [v])
  {
    var p := head + |items|;
    var cycles', data', items' := cycles[Place(p, n) := Cycle(p, n) + 1], data[Place(p, n) := v], items + [v];
    Each(cycles, data, zero, n, head, items, 2 * n);
    forall r | head <= r < head + 2 * n
      ensures SlotOk(cycles', data', zero, n, head, items', r)
    {
      if r != p {
        assert SlotOk(cycles, data, zero, n, head, items, r);
        Apart(r, p, 2 * n);
      }
    }
    Each(cycles', data', zero, n, head, items', 2 * n);
  }

  /** `head` moves on, over an item or over a free position; its slot is freed for the next lap. */
  lemma HeadKeeps<T>(cycles: seq<nat>, data: seq<T>, zero: T, n: nat, head: nat, items: seq<T>)
    requires Laid(cycles, data, zero, n, head, items)
    ensures Laid(
      cycles[Place(head, n) := Cycle(head + 2 * n, n)], data[Place(head, n) := zero], zero, n, head + 1,
      if items == [] then [] else items[1..])
  {
    var cycles', data' := cycles[Place(head, n) := Cycle(head + 2 * n, n)], data[Place(head, n) := zero];
    var items' := if items == [] then [] else items[1..];
    Each(cycles, data, zero, n, head, items, 2 * n);
    NextLap(head, n);
    var head' := head + 1;
    forall r | head' <= r < head' + 2 * n
      ensures SlotOk(cycles', data', zero, n, head', items', r)
    {
      if r < head + 2 * n {
        assert SlotOk(cycles, data, zero, n, head, items, r);
        Apart(r, head, 2 * n);
      }
    }
    Each(cycles', data', zero, n, head', items', 2 * n);
  }

  /** Without an item at `head` its slot is cleared already. */
  lemma BurnKeeps<T>(cycles: seq<nat>, data: seq<T>, zero: T, n: nat, head: nat)
    requires Laid(cycles, data, zero, n, head, [])
    ensures Laid(cycles[Place(head, n) := Cycle(head + 2 * n, n)], data, zero, n, head + 1, [])
  {
    HeadKeeps(cycles, data, zero, n, head, []);
    Ends(cycles, data, zero, n, head, []);
    assert data[Place(head, n) := zero] == data;
  }

  class MPMC<T> {
    const capacity: nat
    const zero: T
    var tail: nat
    var head: nat
    var threshold: int
    var draining: bool
    const cycles: array<nat>
    const data: array<T>
    ghost var items: seq<T>

    ghost function View(): Model.State<T>
      reads this
    {
      Model.State(capacity, tail, head, threshold, draining, items)
    }

    ghost predicate Valid()
      reads this, cycles, data
    {
      && cycles as object != data as object
      && Model.Good(View())
      && Laid(cycles[..], data[..], zero, capacity, head, items)
    }

    constructor (requested: int, zeroValue: T)
      requires 2 <= requested <= Bits.Pow2(62)
      ensures Valid() && fresh(cycles) && fresh(data)
      ensures Capacity.LeastPowerOfTwo(capacity, requested)
      ensures View() == Model.New(capacity)
    {
      var n, _, _ := Capacity.Geometry(requested);
      capacity := n;
      zero := zeroValue;
      tail, head, draining := 0, 0, false;
      threshold := 3 * n - 1;
      cycles := new nat[2 * n];
      data := new T[2 * n](_ => zeroValue);
      items := [];
      new;
      for i := 0 to 2 * n
        modifies cycles
        invariant forall p :: 0 <= p < i ==> cycles[p] == Cycle(p, n)
      {
        cycles[i] := Cycle(i, n);
      }
      NewLaid(cycles[..], data[..], zeroValue, n);
    }

    /** Write the data of a slot and then its cycle. */
    method Fill(slot: nat, v: T, cycle: nat)
      requires cycles as object != data as object && slot < cycles.Length && slot < data.Length
      modifies cycles, data
      ensures data[..] == old(data[..])[slot := v]
      ensures cycles[..] == old(cycles[..])[slot := cycle]
    {
      data[slot] := v;
      cycles[slot] := cycle;
    }

    /** One trip of Enqueue past the fullness test: claim the next position and look at its slot. */
    method TryPut(v: T) returns (done: bool, res: Fifo.Res<T>)
      requires capacity > 0 && cycles.Length == data.Length == 2 * capacity && cycles as object != data as object
      modifies this`tail, this`threshold, cycles, data
      ensures tail == old(tail) + 1
      ensures var p := old(tail);
        var found, expected := old(cycles[..])[Place(p, capacity)], Cycle(p, capacity);
        && cycles[..] ==
             (if found == expected then old(cycles[..])[Place(p, capacity) := expected + 1] else old(cycles[..]))
        && data[..] == (if found == expected then old(data[..])[Place(p, capacity) := v] else old(data[..]))
        && threshold == (if found == expected then 3 * capacity - 1 else old(threshold))
        && res == (if found == expected then Fifo.Ok else Fifo.WouldBlock)
        && (done <==> found <= expected)
    {
      done, res := false, Fifo.WouldBlock;
      var myTail := tail;
      tail := tail + 1;
      var slot := Place(myTail, capacity);
      var expected := Cycle(myTail, capacity);
      var found := cycles[slot];
      if found == expected {
        Fill(slot, v, expected + 1);
        threshold := 3 * capacity - 1;
        done, res := true, Fifo.Ok;
      } else if found < expected {
        done := true;
      }
    }

    method Enqueue(v: T) returns (res: Fifo.Res<T>)
      requires Valid()
      modifies this, cycles, data
      ensures Valid()
      ensures Model.Outcome(View(), res) == Model.Do(old(View()), Model.Enqueue(v))
    {
      ghost var s, c, d := View(), cycles[..], data[..];
      ghost var after := Model.Do(s, Model.Enqueue(v));
      Ends(c, d, zero, capacity, head, items);
      res := Fifo.WouldBlock;
      var done := false;
      while !done
        invariant !done ==> View() == s && cycles[..] == c && data[..] == d && res == Fifo.WouldBlock
        invariant done ==> View() == after.s && res == after.res
        invariant done ==> Laid(cycles[..], data[..], zero, capacity, head, items)
        decreases !done
      {
        if tail >= head + capacity {
          done := true;
        } else {
          PutKeeps(c, d, zero, capacity, head, items, v);
          done, res := TryPut(v);
          items := items + [v];
        }
      }
      Model.Keeps(s, Model.Enqueue(v));
    }

    method Drain()
      requires Valid()
      modifies this`draining
      ensures Valid()
      ensures draining && View() == Model.Do(old(View()), Model.Drain).s
    {
      draining := true;
    }

    /** Lift `tail` to `to` if it still is `from`; otherwise look again. */
    method Catchup(from: nat, to: nat)
      modifies this`tail
      ensures tail ==
        if from >= to then old(tail)
        else if old(tail) == from then to
        else if old(tail) < head then head
        else old(tail)
    {
      var t, h := from, to;
      while t < h
        invariant tail == old(tail)
        invariant (t == from && h == to) || (t == tail != from && h == head && from < to)
        decreases t != tail
      {
        if tail == t {
          tail := h;
          break;
        }
        t, h := tail, head;
      }
    }

    /**
     A Dequeue found no item at `myHead`: free the stale slot for the next lap, then give up if
     no Enqueue is ahead or the threshold is spent.
     */
    method Missed(myHead: nat, slot: nat, found: nat) returns (done: bool)
      requires capacity > 0 && slot < cycles.Length
      modifies this`tail, this`threshold, cycles
      ensures cycles[..] ==
        if old(cycles[slot]) == found then old(cycles[..])[slot := Cycle(myHead + 2 * capacity, capacity)]
        else old(cycles[..])
      ensures threshold == old(threshold) - 1
      ensures tail == if old(tail) <= myHead + 1 then myHead + 1 else old(tail)
      ensures done <==> old(tail) <= myHead + 1 || (threshold <= 0 && !draining)
    {
      if cycles[slot] == found {
        cycles[slot] := Cycle(myHead + 2 * capacity, capacity);
      }
      done := tail <= myHead + 1;
      if done {
        Catchup(tail, myHead + 1);
        threshold := threshold - 1;
      } else {
        threshold := threshold - 1;
        done := threshold <= 0 && !draining;
      }
    }

    /** One trip of Dequeue: take the next position and look at its slot. */
    method TryTake() returns (done: bool, res: Fifo.Res<T>)
      requires capacity > 0 && cycles.Length == data.Length == 2 * capacity && cycles as object != data as object
      modifies this`head, this`tail, this`threshold, cycles, data
      ensures head == old(head) + 1
      ensures var p := old(head);
        var found, expected := old(cycles[..])[Place(p, capacity)], Cycle(p, capacity) + 1;
        var next := Cycle(p + 2 * capacity, capacity);
        && cycles[..] == (if found <= expected then old(cycles[..])[Place(p, capacity) := next] else old(cycles[..]))
        && data[..] == (if found == expected then old(data[..])[Place(p, capacity) := zero] else old(data[..]))
        && res == (if found == expected then Fifo.Got(old(data[..])[Place(p, capacity)]) else Fifo.WouldBlock)
        && tail == (if found < expected && old(tail) <= p + 1 then p + 1 else old(tail))
        && threshold == (if found < expected then old(threshold) - 1 else old(threshold))
        && (done <==> found == expected || (found < expected && (old(tail) <= p + 1 || (threshold <= 0 && !draining))))
    {
      done, res := false, Fifo.WouldBlock;
      var myHead := head;
      head := head + 1;
      var slot := Place(myHead, capacity);
      var expected := Cycle(myHead, capacity) + 1;
      var found := cycles[slot];
      if found == expected {
        res := Fifo.Got(data[slot]);
        Fill(slot, zero, Cycle(myHead + 2 * capacity, capacity));
        done := true;
      } else if found < expected {
        done := Missed(myHead, slot, found);
      }
    }

    method Dequeue() returns (res: Fifo.Res<T>)
      requires Valid()
      modifies this, cycles, data
      ensures Valid()
      ensures Model.Outcome(View(), res) == Model.Do(old(View()), Model.Dequeue)
    {
      res := Fifo.WouldBlock;
      if !draining && threshold < 0 {
        return;
      }
      ghost var s, c, d := View(), cycles[..], data[..];
      ghost var after := Model.Do(s, Model.Dequeue);
      Ends(c, d, zero, capacity, head, items);
      HeadKeeps(c, d, zero, capacity, head, items);
      var done := false;
      while !done
        invariant !done ==> View() == s && cycles[..] == c && data[..] == d && res == Fifo.WouldBlock
        invariant done ==> View() == after.s && res == after.res
        invariant done ==> Laid(cycles[..], data[..], zero, capacity, head, items)
        decreases !done
      {
        if items == [] {
          BurnKeeps(c, d, zero, capacity, head);
        }
        done, res := TryTake();
        items := after.s.items;
      }
      Model.Keeps(s, Model.Dequeue);
    }
  }
}
