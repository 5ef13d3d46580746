/**
 The calls of MPMCIndirect: what is stored is the argument of the call, what is returned was
 taken by the call, and how many steps a call can make.
 */
module MPMCIndirectCalls {
  import opened Ring
  import opened TwoLap
  import opened MPMCIndirect
  import opened MPMCIndirectProof
  import Loss = MPMCIndirectLoss

  /**
   A run with, for the running call of each thread, its operation, the indices it started
   from, its extra claims, its failed catchups and its own steps; and, by position, the
   argument of the call that claimed it.
   */
  datatype Book = Book(
    m: Run, op: seq<Op>, tail: seq<nat>, head: seq<nat>, trips: seq<nat>, spins: seq<nat>, steps: seq<nat>,
    args: map<nat, nat>)

  ghost predicate WfBook(b: Book) {
    && WfLog(b.m)
    && |b.op| == |b.tail| == |b.head| == |b.trips| == |b.spins| == |b.steps| == |b.m.q.th|
  }

  function Begun(n: nat, threads: nat): Book
    requires n > 0
  {
    var none := seq(threads, _ => 0);
    Book(Start(n, threads), seq(threads, _ => Deq), none, none, none, none, none, map[])
  }

  predicate Enqueuing(l: Local) {
    l.EnqLoadTail? || l.EnqLoadHead? || l.EnqClaim? || l.EnqLoadSlot? || l.EnqFill? || l.EnqReset?
  }

  /** Back to the top of the loop of Enqueue or Dequeue. */
  predicate LoopsAgain(l: Local, l': Local) {
    || ((l.EnqLoadSlot? || l.EnqFill?) && l'.EnqLoadTail?)
    || ((l.DeqLoadSlot? || l.DeqTake? || l.DeqCount? || l.DeqRecheckDraining?) && l'.DeqClaim?)
  }

  predicate SpinsAgain(l: Local, l': Local) {
    l.CatchCas? && l'.CatchLoadTail?
  }

  ghost function NextBook(b: Book, e: Event): (r: Book)
    requires WfBook(b)
    ensures WfBook(r) && r.m == Next(b.m, e)
  {
    var m' := Next(b.m, e);
    if e.t >= |b.m.q.th| then b.(m := m')
    else
      var l, l' := b.m.q.th[e.t], m'.q.th[e.t];
      if l.Resting? then
        b.(m := m', op := b.op[e.t := e.op], tail := b.tail[e.t := b.m.q.tail], head := b.head[e.t := b.m.q.head],
           trips := b.trips[e.t := 0], spins := b.spins[e.t := 0], steps := b.steps[e.t := 1])
      else
        b.(m := m',
           trips := b.trips[e.t := b.trips[e.t] + if LoopsAgain(l, l') then 1 else 0],
           spins := b.spins[e.t := b.spins[e.t] + if SpinsAgain(l, l') then 1 else 0],
           steps := b.steps[e.t := if l'.Resting? then 0 else b.steps[e.t] + 1],
           args := if l.EnqClaim? && b.op[e.t].Enq? then b.args[b.m.q.tail := b.op[e.t].v] else b.args)
  }

  ghost function FinalBook(b: Book, sched: seq<Event>): (r: Book)
    requires WfBook(b)
    ensures WfBook(r) && r.m == Final(b.m, sched) && |r.m.q.th| == |b.m.q.th|
    decreases sched
  {
    if sched == [] then b else FinalBook(NextBook(b, sched[0]), sched[1..])
  }

  // Arguments and results

  /** The running call of thread `i` claimed position `p` for its argument. */
  ghost predicate Claimed(b: Book, i: nat, p: nat)
    requires WfBook(b) && i < |b.m.q.th|
  {
    && b.op[i].Enq? && b.tail[i] <= p && p in b.m.log.prod && b.m.log.prod[p] == i
    && p in b.args && b.args[p] == b.op[i].v
  }

  ghost predicate Stored(b: Book, i: nat, p: nat)
    requires WfBook(b) && i < |b.m.q.th|
  {
    Claimed(b, i, p) && p in b.m.log.filled && b.m.log.filled[p] == b.op[i].v
  }

  /** The running call of thread `i` claimed position `p` as a consumer and took `v` from it. */
  ghost predicate Took(b: Book, i: nat, p: nat, v: nat)
    requires WfBook(b) && i < |b.m.q.th|
  {
    && b.op[i].Deq? && b.head[i] <= p < |b.m.log.cons| && b.m.log.cons[p] == i
    && p in b.m.log.got && b.m.log.got[p] == v
  }

  ghost predicate CallOk(b: Book, i: nat)
    requires WfBook(b) && i < |b.m.q.th|
  {
    var l := b.m.q.th[i];
    && (Enqueuing(l) ==> b.op[i] == Enq(l.v) && b.tail[i] <= b.m.q.tail)
    && (l.EnqLoadSlot? || l.EnqFill? ==> Claimed(b, i, l.my))
    && (l.EnqReset? ==> Stored(b, i, l.my))
    && (l == Returning(Ok) ==> exists p :: Stored(b, i, p))
    && (l.DeqClaim? || l.DeqLoadDraining? || l.DeqLoadThreshold? || l.DeqCount? || l.DeqRecheckDraining? ==>
          b.op[i].Deq? && b.head[i] <= b.m.q.head)
    && (AtPosition(l) ==> b.op[i].Deq? && b.head[i] <= l.my < b.m.q.head)
    && (l.Returning? && l.res.Got? ==> exists p :: Took(b, i, p, l.res.v))
  }

  ghost predicate BookInv(b: Book) {
    && WfBook(b) && Inv(b.m)
    && (forall p :: p in b.args ==> p in b.m.log.prod)
    && (forall p :: p in b.m.log.filled ==> p in b.args && b.m.log.filled[p] == b.args[p])
    && forall i :: 0 <= i < |b.m.q.th| ==> CallOk(b, i)
  }

  /** History only grows, and what a step adds belongs to the thread that makes it. */
  ghost predicate Grows(b: Book, b': Book, t: nat)
    requires WfBook(b) && WfBook(b')
  {
    var log, log' := b.m.log, b'.m.log;
    && |b'.m.q.th| == |b.m.q.th| && b.m.q.tail <= b'.m.q.tail && b.m.q.head <= b'.m.q.head && log.cons <= log'.cons
    && (forall p :: p in log.prod ==> p in log'.prod && log'.prod[p] == log.prod[p])
    && (forall p :: p in log.filled ==> p in log'.filled && log'.filled[p] == log.filled[p])
    && (forall p :: p in log.got ==> p in log'.got && log'.got[p] == log.got[p])
    && (forall p :: p in b.args ==> p in b'.args && b'.args[p] == b.args[p])
    && (forall i :: 0 <= i < |b.m.q.th| && i != t ==>
          b'.m.q.th[i] == b.m.q.th[i] && b'.op[i] == b.op[i] && b'.tail[i] == b.tail[i] && b'.head[i] == b.head[i])
  }

  lemma HistoryGrows(m: Run, e: Event)
    requires Inv(m) && e.t < |m.q.th|
    ensures var log, log' := m.log, Next(m, e).log;
      && log.cons <= log'.cons
      && (forall p :: p in log.prod ==> p in log'.prod && log'.prod[p] == log.prod[p])
      && (forall p :: p in log.filled ==> p in log'.filled && log'.filled[p] == log.filled[p])
      && (forall p :: p in log.got ==> p in log'.got && log'.got[p] == log.got[p])
  {
    assert LocalOk(m.q, m.log, e.t);
  }

  lemma BookGrows(b: Book, e: Event)
    requires BookInv(b) && e.t < |b.m.q.th|
    ensures Grows(b, NextBook(b, e), e.t)
  {
    HistoryGrows(b.m, e);
    IndicesIncrease(b.m, e);
    Loss.OthersStay(b.m.q, e);
  }

  lemma OtherCall(b: Book, b': Book, t: nat, i: nat)
    requires BookInv(b) && WfBook(b') && Grows(b, b', t) && i < |b.m.q.th| && i != t
    ensures CallOk(b', i)
  {
    assert CallOk(b, i);
    var l := b.m.q.th[i];
    if l == Returning(Ok) {
      var p :| Stored(b, i, p);
      assert Stored(b', i, p);
    } else if l.Returning? && l.res.Got? {
      var p :| Took(b, i, p, l.res.v);
      assert Took(b', i, p, l.res.v);
    }
  }

  lemma EnqueueCall(b: Book, e: Event)
    requires BookInv(b) && e.t < |b.m.q.th| && Enqueuing(b.m.q.th[e.t])
    ensures CallOk(NextBook(b, e), e.t)
  {
    var b', l := NextBook(b, e), b.m.q.th[e.t];
    assert CallOk(b, e.t) && LocalOk(b.m.q, b.m.log, e.t);
    if l.EnqReset? {
      assert Stored(b', e.t, l.my);
    }
  }

  /** Between the claim of a position and the look at `tail`. */
  predicate AtPosition(l: Local) {
    l.DeqLoadSlot? || l.DeqTake? || l.DeqRepair? || l.DeqLoadTail?
  }

  lemma DequeueCall(b: Book, e: Event)
    requires BookInv(b) && e.t < |b.m.q.th| && (AtPosition(b.m.q.th[e.t]) || b.m.q.th[e.t].DeqClaim?)
    ensures CallOk(NextBook(b, e), e.t)
  {
    var b', l := NextBook(b, e), b.m.q.th[e.t];
    assert CallOk(b, e.t) && LocalOk(b.m.q, b.m.log, e.t);
    if l.DeqTake? && b'.m.q.th[e.t].Returning? {
      assert Took(b', e.t, l.my, l.val);
    }
  }

  lemma OtherwiseCall(b: Book, e: Event)
    requires BookInv(b) && e.t < |b.m.q.th|
    requires !Enqueuing(b.m.q.th[e.t]) && !AtPosition(b.m.q.th[e.t]) && !b.m.q.th[e.t].DeqClaim?
    ensures CallOk(NextBook(b, e), e.t)
  {
    assert CallOk(b, e.t);
  }

  lemma ArgsStep(b: Book, e: Event)
    requires BookInv(b) && e.t < |b.m.q.th|
    ensures var b' := NextBook(b, e);
      && (forall p :: p in b'.args ==> p in b'.m.log.prod)
      && (forall p :: p in b'.m.log.filled ==> p in b'.args && b'.m.log.filled[p] == b'.args[p])
  {
    assert CallOk(b, e.t) && LocalOk(b.m.q, b.m.log, e.t);
    BookGrows(b, e);
    EnqueueExact(b.m, e);
  }

  lemma BookStep(b: Book, e: Event)
    requires BookInv(b)
    ensures BookInv(NextBook(b, e))
  {
    StepInv(b.m, e);
    if e.t < |b.m.q.th| {
      ArgsStep(b, e);
      BookGrows(b, e);
      forall i | 0 <= i < |b.m.q.th|
        ensures CallOk(NextBook(b, e), i)
      {
        if i != e.t {
          OtherCall(b, NextBook(b, e), e.t, i);
        } else if Enqueuing(b.m.q.th[i]) {
          EnqueueCall(b, e);
        } else if AtPosition(b.m.q.th[i]) || b.m.q.th[i].DeqClaim? {
          DequeueCall(b, e);
        } else {
          OtherwiseCall(b, e);
        }
      }
    }
  }

  lemma {:induction false} BookRun(b: Book, sched: seq<Event>)
    requires BookInv(b)
    ensures BookInv(FinalBook(b, sched))
    decreases sched
  {
    if sched == [] {
    } else {
      BookStep(b, sched[0]);
      BookRun(NextBook(b, sched[0]), sched[1..]);
    }
  }

  /**
   Over every run: the value stored at a position is the argument of the call that claimed it; a
   returned Ok means that the call has claimed a position and stored its argument there; and a
   returned value was taken by the call from a position it claimed.
   */
  lemma ArgumentsKept(n: nat, threads: nat, sched: seq<Event>, t: nat)
    requires n > 0 && t < threads
    ensures var b := FinalBook(Begun(n, threads), sched);
      && b.m == Final(Start(n, threads), sched)
      && (forall p :: p in b.m.log.filled ==> p in b.args && b.m.log.filled[p] == b.args[p])
      && (b.m.q.th[t] == Returning(Ok) ==> exists p :: Stored(b, t, p))
      && (b.m.q.th[t].Returning? && b.m.q.th[t].res.Got? ==> exists p :: Took(b, t, p, b.m.q.th[t].res.v))
  {
    StartInv(n, threads);
    BookRun(Begun(n, threads), sched);
    var b := FinalBook(Begun(n, threads), sched);
    assert CallOk(b, t);
  }
}
