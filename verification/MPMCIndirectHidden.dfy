/**
 What the threshold of MPMCIndirect can do with `2n` threads or more: consumers that missed
 lower it only after an Enqueue has reset it.  The accepted item is then hidden from every
 Dequeue until a further Enqueue or Drain.
 */
module MPMCIndirectHidden {
  import opened Ring
  import opened TwoLap
  import opened MPMCIndirect
  import opened MPMCIndirectProof
  import opened MPMCIndirectRuns
  import Threshold = MPMCIndirectThreshold
  import Solo = MPMCIndirectSolo
  import Drain = MPMCIndirectDrain

  // Dequeues that do not look

  /** No thread is beyond the threshold test, and the test fails. */
  ghost predicate Blind(q: Queue) {
    && Wf(q) && !q.draining && q.threshold < 0
    && forall i :: 0 <= i < |q.th| ==>
         q.th[i].Resting? || q.th[i].DeqLoadDraining? || q.th[i].DeqLoadThreshold? || q.th[i] == Returning(WouldBlock)
  }

  lemma BlindStep(m: Run, e: Event)
    requires WfLog(m) && Blind(m.q) && e.op.Deq?
    ensures Blind(Next(m, e).q) && Next(m, e).log == m.log
    ensures Next(m, e).q == m.q.(th := Next(m, e).q.th)
  {
  }

  /** However many threads dequeue, and however often: every call refuses and nothing changes. */
  lemma {:induction false} BlindRun(m: Run, sched: seq<Event>)
    requires WfLog(m) && Blind(m.q) && forall i :: 0 <= i < |sched| ==> sched[i].op.Deq?
    ensures Blind(Final(m, sched).q) && Final(m, sched).log == m.log
    ensures Final(m, sched).q == m.q.(th := Final(m, sched).q.th)
    decreases sched
  {
    if sched == [] {
    } else {
      BlindStep(m, sched[0]);
      BlindRun(Next(m, sched[0]), sched[1..]);
    }
  }

  // The state to reach, thread by thread and slot by slot

  /** Threads that missed in the first lap and have yet to lower the threshold. */
  predicate Late(n: nat, i: nat) {
    n + 1 <= i < 2 * n
  }

  ghost predicate Scene(q: Queue, head: nat, tail: nat) {
    && Wf(q) && q.n >= 2 && |q.th| >= 2 * q.n && !q.draining && q.threshold >= 0
    && q.head == head && q.tail == tail
  }

  /** Slots from `lo` on hold an item of the first lap that its consumer has missed. */
  ghost predicate Stale(q: Queue, lo: nat)
    requires Wf(q)
  {
    forall j :: lo <= j < 2 * q.n ==> q.slots[j].cycle == Cycle(j, q.n) + 1
  }

  /** A stale slot is not free for the next lap, and shows its consumer nothing. */
  lemma StaleSlot(q: Queue, j: nat)
    requires Wf(q) && j < 2 * q.n && q.slots[j].cycle == Cycle(j, q.n) + 1
    ensures At(q, 2 * q.n + j) == q.slots[j] && At(q, 4 * q.n + j) == q.slots[j]
    ensures q.slots[j].cycle < Cycle(2 * q.n + j, q.n) && q.slots[j].cycle < Cycle(4 * q.n + j, q.n)
    ensures Place(2 * q.n + j, q.n) == j && Place(4 * q.n + j, q.n) == j
    ensures Cycle(4 * q.n + j, q.n) == Cycle(2 * q.n + j, q.n) + 2
  {
    NextLap(j, q.n);
    NextLap(2 * q.n + j, q.n);
  }

  // The first lap: every item is lost

  ghost predicate Lost(q: Queue, i: nat) {
    && Scene(q, i, i) && i <= 2 * q.n
    && (forall j :: 0 <= j < 2 * q.n ==> q.slots[j].cycle == Cycle(j, q.n) + if j < i then 1 else 0)
    && (forall k :: 0 <= k < |q.th| ==> q.th[k] == if Late(q.n, k) && k < i then DeqMiss else Resting)
  }

  /** A consumer loads the empty entry of position `i`, and stops. */
  lemma LoadsEarly(q0: Queue, q: Queue, i: nat, c: nat) returns (q': Queue)
    requires Wf(q0) && CanReach(q0, q) && Lost(q, i) && i < 2 * q.n && c < |q.th| && q.th[c].Resting?
    ensures q' == Goto(q.(head := i + 1), c, DeqRepair(i, Cycle(i, q.n), q.slots[i].val)) && CanReach(q0, q')
  {
    assert Place(i, q.n) == i;
    Turn(q0, q, c);
    Begins(q0, q, c);
    FindsNothing(q0, q, c);
    q' := Goto(q.(head := i + 1), c, DeqRepair(i, Cycle(i, q.n), q.slots[i].val));
  }

  /** Thread 0 stores at position `i`. */
  lemma StoresLate(q0: Queue, q: Queue, i: nat, v: nat) returns (q': Queue)
    requires Wf(q0) && CanReach(q0, q) && Scene(q, i + 1, i) && i < 2 * q.n && q.th[0].Resting?
    requires q.slots[i].cycle == Cycle(i, q.n)
    ensures q' == Accepted(q, v) && CanReach(q0, q')
  {
    assert Place(i, q.n) == i;
    Turn(q0, q, 0);
    Tests(q0, q, 0, v);
    Passes(q0, q, 0, v, i);
    Fills(q0, q, 0, v);
    q' := Accepted(q, v);
    assert Goto(q', 0, Resting) == q';
  }

  lemma LoseOne(q0: Queue, q: Queue, i: nat, v: nat) returns (q': Queue)
    requires Wf(q0) && CanReach(q0, q) && Lost(q, i) && i < 2 * q.n
    ensures CanReach(q0, q') && Lost(q', i + 1) && q'.n == q.n && |q'.th| == |q.th|
  {
    var c := if Late(q.n, i) then i else 1;
    var q1 := LoadsEarly(q0, q, i, c);
    var q2 := StoresLate(q0, q1, i, v);
    assert Place(i, q.n) == i;
    Turn(q0, q2, c);
    RepairFails(q0, q2, c, i, Cycle(i, q.n), q.slots[i].val);
    SeesLast(q0, q2, c, i);
    if Late(q.n, i) {
      q' := Goto(q2, c, DeqMiss);
    } else {
      MissReturns(q0, q2, c);
      q' := Goto(q2.(threshold := q2.threshold - 1), c, Resting);
    }
  }

  lemma {:induction false} LoseAll(n: nat, threads: nat, v: nat, i: nat) returns (q: Queue)
    requires n >= 2 && threads >= 2 * n && i <= 2 * n
    ensures CanReach(New(n, threads), q) && Lost(q, i) && q.n == n && |q.th| == threads
  {
    if i == 0 {
      q := New(n, threads);
      assert Exec(q, []) == q;
    } else {
      q := LoseAll(n, threads, v, i - 1);
      q := LoseOne(New(n, threads), q, i - 1, v);
    }
  }

  // The second lap: every slot is stale, so every position is abandoned

  /** Where thread `i` stands when the first `k` producers have claimed. */
  function Pc(n: nat, v: nat, k: nat, i: nat): Local {
    if Late(n, i) then DeqMiss
    else if i > n then Resting
    else if i >= k then EnqClaim(v)
    else if i == 0 then EnqLoadHead(v, 3 * n)
    else if i == 1 then EnqLoadHead(v, 3 * n + 1)
    else Resting
  }

  ghost predicate Abandoned(q: Queue, k: nat) {
    && Scene(q, 2 * q.n, 2 * q.n + k) && k < q.n && Stale(q, 0)
    && (forall i :: 0 <= i < |q.th| ==> q.th[i] == if Late(q.n, i) then DeqMiss else Resting)
  }

  /** The first `k` of the `n + 1` other threads have passed the test. */
  ghost predicate Tested(q: Queue, v: nat, k: nat) {
    && q.n >= 2 && Scene(q, 2 * q.n, 3 * q.n - 1) && k <= q.n + 1 && Stale(q, 0)
    && (forall i :: 0 <= i < |q.th| ==>
          q.th[i] == if Late(q.n, i) then DeqMiss else if i < k then EnqClaim(v) else Resting)
  }

  /** The first `k` of them have claimed and abandoned; the first two wait with a new `tail`. */
  ghost predicate Claimed(q: Queue, v: nat, k: nat) {
    && q.n >= 2 && Scene(q, 2 * q.n, 3 * q.n - 1 + k) && k <= q.n + 1 && Stale(q, 0)
    && (forall i :: 0 <= i < |q.th| ==> q.th[i] == Pc(q.n, v, k, i))
  }

  lemma {:induction false} AbandonMany(q0: Queue, q: Queue, v: nat, k: nat) returns (q': Queue)
    requires Wf(q0) && CanReach(q0, q) && Abandoned(q, 0) && k < q.n
    ensures CanReach(q0, q') && Abandoned(q', k) && q'.n == q.n && |q'.th| == |q.th|
  {
    if k == 0 {
      q' := q;
    } else {
      q' := AbandonMany(q0, q, v, k - 1);
      StaleSlot(q', k - 1);
      Turn(q0, q', 0);
      Tests(q0, q', 0, v);
      Passes(q0, q', 0, v, q'.tail);
      Abandons(q0, q', 0, v);
      q' := Goto(q'.(tail := q'.tail + 1), 0, Resting);
    }
  }

  lemma {:induction false} TestMany(q0: Queue, q: Queue, v: nat, k: nat) returns (q': Queue)
    requires Wf(q0) && CanReach(q0, q) && Abandoned(q, q.n - 1) && k <= q.n + 1
    ensures CanReach(q0, q') && Tested(q', v, k) && q'.n == q.n && |q'.th| == |q.th|
  {
    if k == 0 {
      q' := q;
    } else {
      q' := TestMany(q0, q, v, k - 1);
      Turn(q0, q', k - 1);
      Tests(q0, q', k - 1, v);
      Passes(q0, q', k - 1, v, q'.tail);
      q' := Goto(q', k - 1, EnqClaim(v));
    }
  }

  lemma ClaimOne(q0: Queue, q: Queue, v: nat, k: nat) returns (q': Queue)
    requires Wf(q0) && CanReach(q0, q) && Claimed(q, v, k) && k <= q.n
    ensures CanReach(q0, q') && Claimed(q', v, k + 1) && q'.n == q.n && |q'.th| == |q.th|
  {
    StaleSlot(q, q.n - 1 + k);
    Turn(q0, q, k);
    Abandons(q0, q, k, v);
    var r := q.(tail := q.tail + 1);
    if k <= 1 {
      Tests(q0, r, k, v);
    }
    q' := Goto(r, k, Pc(q.n, v, k + 1, k));
    ClaimedNext(q, q', v, k);
  }

  lemma ClaimedNext(q: Queue, q': Queue, v: nat, k: nat)
    requires Claimed(q, v, k) && k <= q.n && q' == Goto(q.(tail := q.tail + 1), k, Pc(q.n, v, k + 1, k))
    ensures Claimed(q', v, k + 1)
  {
  }

  lemma {:induction false} ClaimMany(q0: Queue, q: Queue, v: nat, k: nat) returns (q': Queue)
    requires Wf(q0) && CanReach(q0, q) && Tested(q, v, q.n + 1) && k <= q.n + 1
    ensures CanReach(q0, q') && Claimed(q', v, k) && q'.n == q.n && |q'.th| == |q.th|
  {
    if k == 0 {
      q' := q;
    } else {
      q' := ClaimMany(q0, q, v, k - 1);
      q' := ClaimOne(q0, q', v, k - 1);
    }
  }

  // The item

  /** The entry of slot 0 that thread 2 loaded for position `2n`. */
  function Loaded(q: Queue): Local
    requires Wf(q)
  {
    DeqRepair(2 * q.n, q.slots[0].cycle, q.slots[0].val)
  }

  /** Thread 2 claims position `2n` and stops before its repair. */
  lemma Stops(q0: Queue, q: Queue, v: nat) returns (q': Queue)
    requires Wf(q0) && CanReach(q0, q) && Claimed(q, v, q.n + 1)
    ensures q' == Goto(q.(head := 2 * q.n + 1), 2, Loaded(q)) && CanReach(q0, q')
  {
    StaleSlot(q, 0);
    Turn(q0, q, 2);
    Begins(q0, q, 2);
    FindsNothing(q0, q, 2);
    q' := Goto(q.(head := 2 * q.n + 1), 2, Loaded(q));
  }

  /** Thread 0 abandons position `4n`, then misses position `2n + 1` and frees its slot. */
  lemma Frees(q0: Queue, q: Queue, v: nat) returns (q': Queue)
    requires Wf(q0) && CanReach(q0, q) && Scene(q, 2 * q.n + 1, 4 * q.n) && Stale(q, 0)
    requires q.th[0] == EnqLoadHead(v, 3 * q.n)
    ensures q' == Goto(q.(head := 2 * q.n + 2, tail := 4 * q.n + 1,
      slots := q.slots[1 := Entry(Cycle(4 * q.n + 1, q.n), 0)]), 0, DeqCount)
    ensures CanReach(q0, q')
  {
    StaleSlot(q, 0);
    StaleSlot(q, 1);
    Turn(q0, q, 0);
    Passes(q0, q, 0, v, 3 * q.n);
    Abandons(q0, q, 0, v);
    var r := q.(tail := 4 * q.n + 1);
    Begins(q0, r, 0);
    Skips(q0, r, 0);
    q' := Goto(Skipped(r), 0, DeqCount);
  }

  /** Thread 1 stores at position `4n + 1`. */
  lemma StoresItem(q0: Queue, q: Queue, v: nat) returns (q': Queue)
    requires Wf(q0) && CanReach(q0, q) && Scene(q, 2 * q.n + 2, 4 * q.n + 1)
    requires q.slots[1].cycle == Cycle(4 * q.n + 1, q.n) && q.th[1] == EnqLoadHead(v, 3 * q.n + 1)
    ensures q' == Goto(q.(tail := 4 * q.n + 2, threshold := 3 * q.n - 1,
      slots := q.slots[1 := Entry(Cycle(4 * q.n + 1, q.n) + 1, v)]), 1, Resting)
    ensures CanReach(q0, q')
  {
    NextLap(1, q.n);
    NextLap(2 * q.n + 1, q.n);
    Turn(q0, q, 1);
    Passes(q0, q, 1, v, 3 * q.n + 1);
    Fills(q0, q, 1, v);
    q' := Goto(Accepted(q, v), 1, Resting);
  }

  // The misses are counted

  /** The item stands at `4n + 1`; thread 2 and, from `late` on, the late threads have yet to count. */
  ghost predicate Counting(q: Queue, v: nat, head: nat, late: nat, l: Local) {
    && Scene(q, head, 4 * q.n + 2) && q.slots[0].cycle == 1
    && q.slots[1] == Entry(Cycle(4 * q.n + 1, q.n) + 1, v)
    && (forall i :: 0 <= i < |q.th| ==>
          q.th[i] ==
            if i == 0 then l else if i == 2 then Loaded(q) else if Late(q.n, i) && i >= late then DeqMiss else Resting)
  }

  lemma ItemStored(q0: Queue, q: Queue, v: nat) returns (q': Queue)
    requires Wf(q0) && CanReach(q0, q) && Claimed(q, v, q.n + 1)
    ensures CanReach(q0, q') && q'.n == q.n && |q'.th| == |q.th|
    ensures Counting(q', v, 2 * q.n + 2, q.n + 1, DeqCount) && q'.threshold == 3 * q.n - 1 && Stale(q', 2)
  {
    var q1 := Stops(q0, q, v);
    var q2 := Frees(q0, q1, v);
    q' := StoresItem(q0, q2, v);
    ItemCounting(q, q', v);
  }

  lemma ItemCounting(q: Queue, q': Queue, v: nat)
    requires Claimed(q, v, q.n + 1)
    requires q'.n == q.n && q'.th == q.th[2 := Loaded(q)][0 := DeqCount][1 := Resting] && q'.draining == q.draining
    requires q'.head == 2 * q.n + 2 && q'.tail == 4 * q.n + 2 && q'.threshold == 3 * q.n - 1
    requires q'.slots == q.slots[1 := Entry(Cycle(4 * q.n + 1, q.n) + 1, v)]
    ensures Counting(q', v, 2 * q.n + 2, q.n + 1, DeqCount) && Stale(q', 2)
  {
    assert q.slots[0].cycle == Cycle(0, q.n) + 1;
  }

  lemma {:induction false} LateCount(q0: Queue, q: Queue, v: nat, k: nat) returns (q': Queue)
    requires Wf(q0) && CanReach(q0, q) && Counting(q, v, 2 * q.n + 2, q.n + 1, DeqCount) && Stale(q, 2)
    requires q.threshold == 3 * q.n - 1 && k < q.n
    ensures CanReach(q0, q') && q'.n == q.n && |q'.th| == |q.th| && q'.threshold == 3 * q.n - 1 - k
    ensures Counting(q', v, 2 * q.n + 2, q.n + 1 + k, DeqCount) && Stale(q', 2)
  {
    if k == 0 {
      q' := q;
    } else {
      q' := LateCount(q0, q, v, k - 1);
      q' := LateOne(q0, q', v, q.n + k);
    }
  }

  lemma LateOne(q0: Queue, q: Queue, v: nat, i: nat) returns (q': Queue)
    requires Wf(q0) && CanReach(q0, q) && Counting(q, v, 2 * q.n + 2, i, DeqCount) && Stale(q, 2) && Late(q.n, i)
    requires q.threshold > 0
    ensures CanReach(q0, q') && q'.n == q.n && |q'.th| == |q.th| && q'.threshold == q.threshold - 1
    ensures Counting(q', v, 2 * q.n + 2, i + 1, DeqCount) && Stale(q', 2)
  {
    Turn(q0, q, i);
    MissReturns(q0, q, i);
    q' := Goto(q.(threshold := q.threshold - 1), i, Resting);
  }

  /** Thread 0 misses one position after the other. */
  lemma MissOne(q0: Queue, q: Queue, v: nat, j: nat) returns (q': Queue)
    requires Wf(q0) && CanReach(q0, q) && 2 <= j < 2 * q.n
    requires Counting(q, v, 2 * q.n + j, 2 * q.n, DeqClaim) && Stale(q, j) && q.threshold > 1
    ensures CanReach(q0, q') && q'.n == q.n && |q'.th| == |q.th| && q'.threshold == q.threshold - 1
    ensures Counting(q', v, 2 * q.n + j + 1, 2 * q.n, DeqClaim) && Stale(q', j + 1)
  {
    StaleSlot(q, j);
    Turn(q0, q, 0);
    Skips(q0, q, 0);
    CountGoesOn(q0, Skipped(q), 0);
    q' := Goto(Skipped(q).(threshold := q.threshold - 1), 0, DeqClaim);
    SkippedCounting(q, q', v, j);
  }

  lemma SkippedCounting(q: Queue, q': Queue, v: nat, j: nat)
    requires 2 <= j < 2 * q.n && Counting(q, v, 2 * q.n + j, 2 * q.n, DeqClaim) && Stale(q, j) && q.threshold > 1
    requires q' == Goto(Skipped(q).(threshold := q.threshold - 1), 0, DeqClaim)
    ensures Counting(q', v, 2 * q.n + j + 1, 2 * q.n, DeqClaim) && Stale(q', j + 1)
  {
    StaleSlot(q, j);
    assert q'.slots[0] == q.slots[0] && q'.slots[1] == q.slots[1];
  }

  lemma {:induction false} MissMany(q0: Queue, q: Queue, v: nat, j: nat) returns (q': Queue)
    requires Wf(q0) && CanReach(q0, q) && Counting(q, v, 2 * q.n + 2, 2 * q.n, DeqClaim) && Stale(q, 2)
    requires q.threshold == 2 * q.n - 1 && 2 <= j <= 2 * q.n
    ensures CanReach(q0, q') && q'.n == q.n && |q'.th| == |q.th| && q'.threshold == 2 * q.n + 1 - j
    ensures Counting(q', v, 2 * q.n + j, 2 * q.n, DeqClaim) && Stale(q', j)
    decreases j
  {
    if j == 2 {
      q' := q;
    } else {
      q' := MissMany(q0, q, v, j - 1);
      q' := MissOne(q0, q', v, j - 1);
    }
  }

  /** Position `4n` is the last one before the item, and spends the threshold. */
  lemma MissLast(q0: Queue, q: Queue, v: nat) returns (q': Queue)
    requires Wf(q0) && CanReach(q0, q) && Counting(q, v, 4 * q.n, 2 * q.n, DeqClaim) && q.threshold == 1
    ensures CanReach(q0, q') && q' == Goto(q.(head := 4 * q.n + 1, threshold := 0,
      slots := q.slots[0 := Entry(Cycle(6 * q.n, q.n), 0)]), 0, Resting)
  {
    StaleSlot(q, 0);
    Turn(q0, q, 0);
    Skips(q0, q, 0);
    CountReturns(q0, Skipped(q), 0);
    q' := Goto(Skipped(q).(threshold := 0), 0, Resting);
  }

  /** Thread 2 finds its slot changed, and counts as well. */
  lemma StoppedCounts(q0: Queue, q: Queue, val: nat) returns (q': Queue)
    requires Wf(q0) && CanReach(q0, q) && Scene(q, 4 * q.n + 1, 4 * q.n + 2) && q.threshold == 0
    requires q.th[2] == DeqRepair(2 * q.n, 1, val) && q.slots[0].cycle == Cycle(6 * q.n, q.n)
    ensures q' == Goto(q.(threshold := -1), 2, Resting) && CanReach(q0, q')
  {
    NextLap(0, q.n);
    NextLap(2 * q.n, q.n);
    NextLap(4 * q.n, q.n);
    Turn(q0, q, 2);
    RepairFails(q0, q, 2, 2 * q.n, 1, val);
    SeesMore(q0, q, 2, 2 * q.n);
    CountReturns(q0, q, 2);
    q' := Goto(q.(threshold := -1), 2, Resting);
  }

  /** Every thread rests, the item at `head` is accepted and not delivered, and no Dequeue will look for it. */
  ghost predicate Hides(m: Run, v: nat) {
    && Inv(m) && (forall i :: 0 <= i < |m.q.th| ==> m.q.th[i].Resting?)
    && m.q.head in m.log.filled && m.log.filled[m.q.head] == v
    && Blind(m.q)
  }

  /** A filled tag names its position. */
  lemma TagTells(m: Run, p: nat, v: nat)
    requires Inv(m) && At(m.q, p) == Entry(Cycle(p, m.q.n) + 1, v)
    ensures p in m.log.filled && m.log.filled[p] == v
  {
    var j := Place(p, m.q.n);
    assert SlotOk(m.q, m.log, j);
    TagOrder(m.log.at[j], p, m.q.n);
  }

  /** Up to the stored item. */
  lemma StoringRun(n: nat, threads: nat, v: nat) returns (q: Queue)
    requires n >= 2 && threads >= 2 * n
    ensures CanReach(New(n, threads), q) && q.n == n && |q.th| == threads
    ensures Counting(q, v, 2 * n + 2, n + 1, DeqCount) && q.threshold == 3 * n - 1 && Stale(q, 2)
  {
    var q0 := New(n, threads);
    q := LoseAll(n, threads, v, 2 * n);
    q := AbandonMany(q0, q, v, n - 1);
    q := TestMany(q0, q, v, n + 1);
    q := ClaimMany(q0, q, v, n + 1);
    q := ItemStored(q0, q, v);
  }

  /** From there to the last position before it. */
  lemma CountingRun(q0: Queue, q: Queue, v: nat) returns (q': Queue)
    requires Wf(q0) && CanReach(q0, q) && Counting(q, v, 2 * q.n + 2, q.n + 1, DeqCount) && Stale(q, 2)
    requires q.threshold == 3 * q.n - 1
    ensures CanReach(q0, q') && q'.n == q.n && |q'.th| == |q.th|
    ensures Counting(q', v, 4 * q.n, 2 * q.n, DeqClaim) && q'.threshold == 1
  {
    q' := LateCount(q0, q, v, q.n - 1);
    q' := CountFirst(q0, q', v);
    q' := MissMany(q0, q', v, 2 * q.n);
  }

  /** Thread 0 counts position `2n + 1` and goes on. */
  lemma CountFirst(q0: Queue, q: Queue, v: nat) returns (q': Queue)
    requires Wf(q0) && CanReach(q0, q) && Counting(q, v, 2 * q.n + 2, 2 * q.n, DeqCount) && Stale(q, 2)
    requires q.threshold > 1
    ensures CanReach(q0, q') && q'.n == q.n && |q'.th| == |q.th| && q'.threshold == q.threshold - 1
    ensures Counting(q', v, 2 * q.n + 2, 2 * q.n, DeqClaim) && Stale(q', 2)
  {
    Turn(q0, q, 0);
    CountGoesOn(q0, q, 0);
    q' := Goto(q.(threshold := q.threshold - 1), 0, DeqClaim);
  }

  lemma HidingRun(n: nat, threads: nat, v: nat) returns (q: Queue)
    requires n >= 2 && threads >= 2 * n
    ensures CanReach(New(n, threads), q) && Blind(q) && q.n == n && |q.th| == threads
    ensures (forall i :: 0 <= i < threads ==> q.th[i].Resting?) && At(q, q.head) == Entry(Cycle(q.head, n) + 1, v)
  {
    var q0 := New(n, threads);
    q := StoringRun(n, threads, v);
    q := CountingRun(q0, q, v);
    var val := q.slots[0].val;
    q := MissLast(q0, q, v);
    q := StoppedCounts(q0, q, val);
    NextLap(1, n);
    NextLap(2 * n + 1, n);
  }

  /** For every capacity, with `2n` threads or more. */
  lemma ThresholdCanHide(n: nat, threads: nat, v: nat)
    requires n >= 2 && threads >= 2 * n
    ensures exists sched :: Hides(Final(Start(n, threads), sched), v)
  {
    var q := HidingRun(n, threads, v);
    var sched :| Exec(New(n, threads), sched) == q;
    StartInv(n, threads);
    RunInv(Start(n, threads), sched);
    var m := Final(Start(n, threads), sched);
    TagTells(m, m.q.head, v);
    assert Hides(m, v);
  }

  /** Hidden until something other than a Dequeue is called. */
  lemma HiddenFromDequeues(m: Run, v: nat, sched: seq<Event>)
    requires Hides(m, v) && forall i :: 0 <= i < |sched| ==> sched[i].op.Deq?
    ensures var m' := Final(m, sched);
      && m'.q == m.q.(th := m'.q.th) && m'.log == m.log && m.q.head !in m.log.got
      && forall i :: 0 <= i < |m'.q.th| && m'.q.th[i].Returning? ==> m'.q.th[i].res == WouldBlock
  {
    BlindRun(m, sched);
  }

  /**
   Exactly how many threads are safe: no run ends with an item hidden from all of them if and
   only if there are less than `2n`.
   */
  lemma NeverHidesIff(n: nat, threads: nat)
    requires n >= 2
    ensures (forall sched, v :: !Hides(Final(Start(n, threads), sched), v)) <==> threads <= 2 * n - 1
  {
    if threads <= 2 * n - 1 {
      forall sched, v
        ensures !Hides(Final(Start(n, threads), sched), v)
      {
        Threshold.ThresholdHonest(n, threads, sched, Final(Start(n, threads), sched).q.head);
      }
    } else {
      ThresholdCanHide(n, threads, 0);
    }
  }

  // The same for a Dequeue on its own

  /** In every quiet state a Dequeue running alone returns the next item, if there is one. */
  ghost predicate AlwaysDelivers(n: nat, threads: nat)
    requires n > 0
  {
    forall sched: seq<Event>, t: nat, p: nat ::
      var m := Final(Start(n, threads), sched);
      t < threads && Threshold.Quiet(m.q) && Solo.FirstItem(m, p) ==> Drain.Yields(m, t, [Got(m.log.filled[p])])
  }

  lemma {:induction false} BlindRefuses(m: Run, t: nat, k: nat)
    requires WfLog(m) && Blind(m.q) && t < |m.q.th|
    ensures forall i :: 0 <= i < |Drain.Results(m, t, k)| ==> Drain.Results(m, t, k)[i] == WouldBlock
    decreases k
  {
    if k == 0 {
    } else {
      BlindStep(m, Event(t, Deq));
      BlindRefuses(Next(m, Event(t, Deq)), t, k - 1);
    }
  }

  lemma HiddenNotYielded(m: Run, v: nat, t: nat)
    requires Hides(m, v) && t < |m.q.th|
    ensures Solo.FirstItem(m, m.q.head) && !Drain.Yields(m, t, [Got(v)])
  {
    forall k: nat
      ensures Drain.Results(m, t, k) != [Got(v)]
    {
      BlindRefuses(m, t, k);
      assert [Got(v)][0] != WouldBlock;
    }
  }

  lemma AlwaysDeliversIff(n: nat, threads: nat)
    requires n >= 2
    ensures AlwaysDelivers(n, threads) <==> threads <= 2 * n - 1
  {
    if threads <= 2 * n - 1 {
      forall sched: seq<Event>, t: nat, p: nat |
        var m := Final(Start(n, threads), sched);
        t < threads && Threshold.Quiet(m.q) && Solo.FirstItem(m, p)
        ensures var m := Final(Start(n, threads), sched); Drain.Yields(m, t, [Got(m.log.filled[p])])
      {
        Solo.LoneDequeueDelivers(n, threads, sched, t, p);
      }
    } else {
      ThresholdCanHide(n, threads, 0);
      var sched :| Hides(Final(Start(n, threads), sched), 0);
      HiddenNotYielded(Final(Start(n, threads), sched), 0, 0);
    }
  }
}
