/** The event base of event.c, updated in place, over the timer heap of min_heap.h. */
module EventLoop {
  import opened Basics
  import opened Timeval
  import opened EventBook
  import MinHeap

  function Dues(evs: seq<Ev>): (d: seq<Time>)
    ensures |d| == |evs| && forall e :: 0 <= e < |evs| ==> d[e] == evs[e].due
  {
    seq(|evs|, e requires 0 <= e < |evs| => evs[e].due)
  }

  lemma SameDues(evs: seq<Ev>, evs': seq<Ev>)
    requires |evs| == |evs'| && forall e :: 0 <= e < |evs| ==> evs[e].due == evs'[e].due
    ensures Dues(evs) == Dues(evs')
  {}

  class EventBase {
    var evs: seq<Ev>
    var queue: seq<nat>
    var active: seq<seq<nat>>
    const heap: MinHeap.Heap
    var count: int
    var activeCount: int

    ghost function Abs(): (b: Base)
      reads this, heap
    {
      Base(evs, queue, active, heap.idx.Keys, count, activeCount)
    }

    ghost predicate Valid()
      reads this, heap, heap.p
    {
      Books(Abs()) && heap.Valid(Dues(evs))
    }

    constructor (es: seq<Ev>, priorities: nat)
      requires forall e :: 0 <= e < |es| ==>
                 es[e].pri < priorities && !es[e].inserted && !es[e].active && !es[e].timed
      ensures Valid() && fresh(heap) && fresh(heap.p) && Idle(Abs()) && evs == es && |active| == priorities
    {
      evs, queue, active, count, activeCount := es, [], seq(priorities, i => []), 0, 0;
      heap := new MinHeap.Heap();
      new;
      IdleBooks(Abs());
    }

    /** event_queue_remove */
    method QueueRemove(e: nat, q: Which)
      requires heap.Valid(Dues(evs)) && Usable(Abs(), e) && On(evs[e], q)
      modifies this, heap, heap.p
      ensures Abs() == EventBook.QueueRemove(old(Abs()), e, q)
      ensures heap.Valid(Dues(evs)) && (heap.p == old(heap.p) || fresh(heap.p))
    {
      var ev := evs[e];
      if !ev.internal { count := count - 1; }
      evs := evs[e := Mark(ev, q, false)];
      SameDues(evs, old(evs));
      match q {
        case Inserted => queue := Without(queue, e);
        case Active =>
          activeCount := activeCount - 1;
          active := active[ev.pri := Without(active[ev.pri], e)];
        case Timeout =>
          var r := heap.Erase(e, Dues(evs));
      }
    }

    /** event_queue_insert */
    method QueueInsert(e: nat, q: Which)
      requires heap.Valid(Dues(evs)) && Usable(Abs(), e) && (On(evs[e], q) ==> q == Active)
      requires q == Timeout ==> e !in heap.idx
      modifies this, heap, heap.p
      ensures Abs() == EventBook.QueueInsert(old(Abs()), e, q)
      ensures heap.Valid(Dues(evs)) && (heap.p == old(heap.p) || fresh(heap.p))
    {
      var ev := evs[e];
      if On(ev, q) { return; }
      if !ev.internal { count := count + 1; }
      evs := evs[e := Mark(ev, q, true)];
      SameDues(evs, old(evs));
      match q {
        case Inserted => queue := queue + [e];
        case Active =>
          activeCount := activeCount + 1;
          active := active[ev.pri := active[ev.pri] + [e]];
        case Timeout => heap.Push(e, Dues(evs));
      }
    }

    /** event_del, when the backend's del gives `removed` */
    method EventDel(e: nat, removed: int) returns (res: int)
      requires Valid() && e < |evs|
      modifies this, heap, heap.p
      ensures Valid() && (heap.p == old(heap.p) || fresh(heap.p))
      ensures old(Usable(Abs(), e)) && Abs() == Del(old(Abs()), e)
      ensures res == if old(evs[e].inserted) then removed else 0
    {
      hide Books, EventBook.QueueRemove;
      UsableOk(Abs(), e);
      DelKeeps(Abs(), e);
      RemoveIfKeeps(Abs(), e, Timeout);
      if evs[e].timed { QueueRemove(e, Timeout); }
      RemoveIfKeeps(Abs(), e, Active);
      if evs[e].active { QueueRemove(e, Active); }
      RemoveIfKeeps(Abs(), e, Inserted);
      res := 0;
      if evs[e].inserted {
        QueueRemove(e, Inserted);
        res := removed;
      }
    }

    method EventActive(e: nat, res: set<Kind>)
      requires Valid() && e < |evs|
      modifies this, heap, heap.p
      ensures Valid() && (heap.p == old(heap.p) || fresh(heap.p))
      ensures old(Usable(Abs(), e)) && Abs() == Activate(old(Abs()), e, res)
    {
      hide Books, EventBook.QueueInsert;
      UsableOk(Abs(), e);
      ActivateKeeps(Abs(), e, res);
      var ev := evs[e];
      if ev.active {
        evs := evs[e := ev.(res := ev.res + res)];
        SameDues(evs, old(evs));
        return;
      }
      evs := evs[e := ev.(res := res)];
      SameDues(evs, old(evs));
      QueueInsert(e, Active);
    }

    /** The timeout part of event_add */
    method Schedule(e: nat, due: Time)
      requires Valid() && e < |evs|
      modifies this, heap, heap.p
      ensures Valid() && (heap.p == old(heap.p) || fresh(heap.p))
      ensures old(Usable(Abs(), e)) && Abs() == EventBook.Schedule(old(Abs()), e, due)
    {
      hide Books, EventBook.QueueInsert, EventBook.QueueRemove, MinHeap.Ordered, MinHeap.Places, MinHeap.Le;
      ScheduleKeeps(Abs(), e, due);
      RemoveIfKeeps(Abs(), e, Timeout);
      if evs[e].timed { QueueRemove(e, Timeout); }
      UsableOk(Abs(), e);
      NotInHeap(Abs(), e);
      if evs[e].active && KTimeout in evs[e].res {
        ActiveRemoved(Abs(), e);
        QueueRemove(e, Active);
      }
      ghost var before := Dues(evs);
      evs := evs[e := evs[e].(due := due)];
      DueElsewhere(heap, before, Dues(evs));
      QueueInsert(e, Timeout);
    }

    method EventAdd(e: nat, tv: Option<Time>, now: Time, accepted: bool) returns (res: int)
      requires Valid() && e < |evs|
      modifies this, heap, heap.p
      ensures Valid() && (heap.p == old(heap.p) || fresh(heap.p))
      ensures old(Usable(Abs(), e)) && (Abs(), res) == AddEvent(old(Abs()), e, tv, now, accepted)
    {
      hide Books, EventBook.QueueInsert, EventBook.Schedule;
      UsableOk(Abs(), e);
      AddKeeps(Abs(), e, tv, now, accepted);
      res := 0;
      if evs[e].io && !evs[e].inserted && !evs[e].active {
        if !accepted { return -1; }
        InsertKeeps(Abs(), e, Inserted);
        SizeKept(Abs(), e);
        QueueInsert(e, Inserted);
      }
      if tv.Some? { Schedule(e, Add(now, tv.value)); }
    }

    method PrioritySet(e: nat, pri: int) returns (r: int)
      requires Valid() && e < |evs|
      modifies this`evs
      ensures Valid() && old(Usable(Abs(), e)) && (Abs(), r) == SetPriority(old(Abs()), e, pri)
    {
      hide Books;
      UsableOk(Abs(), e);
      if evs[e].active { return -1; }
      if pri < 0 || pri >= |active| { return -1; }
      FieldsKeep(Abs(), e, evs[e].res, evs[e].due, pri);
      evs := evs[e := evs[e].(pri := pri)];
      SameDues(evs, old(evs));
      return 0;
    }

    /** The queue that event_process_active works on */
    method BusyQueue() returns (i: nat)
      requires Valid() && activeCount != 0
      ensures i == FirstBusy(active, 0) && i < |active| && active[i] != [] && forall j :: 0 <= j < i ==> active[j] == []
    {
      NoneBusy(active);
      FirstBusyIsBusy(active, 0);
      i := 0;
      while active[i] == []
        invariant 0 <= i < |active| && FirstBusy(active, i) == FirstBusy(active, 0) < |active|
        decreases |active| - i
      {
        i := i + 1;
      }
    }

    /** event_process_active up to the call of the event it takes */
    method TakeNext(i: nat) returns (e: nat)
      requires Valid() && i < |active| && active[i] != []
      modifies this, heap, heap.p
      ensures Valid() && (heap.p == old(heap.p) || fresh(heap.p)) && e == old(active[i][0])
      ensures old(Usable(Abs(), active[i][0]) && evs[active[i][0]].active) && Abs() == TakeFrom(old(Abs()), i)
    {
      hide Books, EventBook.QueueRemove, Del;
      TakeKeeps(Abs(), i);
      e := active[i][0];
      if evs[e].persist {
        QueueRemove(e, Active);
      } else {
        var _ := EventDel(e, 0);  // its result is not looked at
      }
    }

    /** timeout_next: how long the backend may wait. Without timers it waits for I/O, and not at all when an event is
        due. Otherwise it waits the microseconds that the first event of the heap asks for; the assertion on the
        seconds always holds, the one on the microseconds exactly when the event's are not too far below zero. */
    method TimeoutNext(now: Time) returns (wait: Option<Time>)
      requires Valid() && Normal(now)
      ensures wait.None? <==> Abs().heap == {}
      ensures (exists e :: IsDue(Abs(), now, e)) ==> wait == Some(Time(0, 0))
      ensures wait.Some? && !(exists e :: IsDue(Abs(), now, e)) ==>
                exists e :: && e in Abs().heap && e < |evs| && wait.value == Sub(evs[e].due, now)
                            && (forall f :: f in Abs().heap ==> f < |evs| && !Later(evs[e].due, evs[f].due))
                            && Waits(evs[e].due, now)
    {
      hide Books;
      var found, e := heap.Top(Dues(evs));
      if !found {
        forall x ensures !IsDue(Abs(), now, x) { HeapTimed(Abs(), x); }
        return None;
      }
      HeapTimed(Abs(), e);
      if !Later(evs[e].due, now) {
        assert IsDue(Abs(), now, e);
        return Some(Time(0, 0));
      }
      forall x ensures !IsDue(Abs(), now, x) { HeapTimed(Abs(), x); }
      wait := Some(Sub(evs[e].due, now));
      WaitIs(evs[e].due, now);
      forall f | f in Abs().heap ensures f < |evs| && !Later(evs[e].due, evs[f].due) {
        assert MinHeap.Le(Dues(evs), e, f);
      }
    }

    /** The loop of timeout_correct over the heap's array, when the clock went back from last to now. The heap is still
        one if every event in it and its parent are steady, as CorrectionKeepsHeapIff says. */
    method TimeoutCorrect(last: Time, now: Time)
      requires Valid() && Normal(last) && Normal(now) && Later(last, now)
      modifies this`evs
      ensures Books(Abs()) && Abs() == Corrected(old(Abs()), Sub(last, now))
      ensures old(MinHeap.SteadyEdges(Dues(evs), heap.p[..], heap.n)) ==> Valid()
    {
      hide Books;
      var d := Sub(last, now);
      ghost var b := Abs();
      CorrectionKeeps(b, last, now);
      var k := 0;
      while k < heap.n
        invariant 0 <= k <= heap.n && Shifted(b.evs, evs, heap.idx, k, d)
      {
        var e := heap.p[k];
        assert heap.p[..][k] == e;
        HeapTimed(b, e);
        ShiftedMore(b.evs, evs, heap.idx, k, d, e);
        evs := evs[e := evs[e].(due := Sub(evs[e].due, d))];
        k := k + 1;
      }
      AllShifted(b, d);
      if MinHeap.SteadyEdges(Dues(b.evs), heap.p[..], heap.n) { SteadyHeapKept(b.evs, evs, d); }
    }

    lemma AllShifted(b: Base, d: Time)
      requires Books(b) && b.heap == heap.idx.Keys && heap.Valid(Dues(b.evs))
      requires Shifted(b.evs, evs, heap.idx, heap.n, d)
      ensures evs == Corrected(b, d).evs
    {
      hide Books;
      forall e | 0 <= e < |evs| ensures evs[e] == Corrected(b, d).evs[e] {
        HeapTimed(b, e);
        if e in heap.idx { assert heap.p[..][heap.idx[e]] == e; }
      }
    }

    lemma SteadyHeapKept(was: seq<Ev>, now: seq<Ev>, d: Time)
      requires heap.Valid(Dues(was)) && |now| == |was| && Normal(d)
      requires MinHeap.SteadyEdges(Dues(was), heap.p[..], heap.n)
      requires forall e :: 0 <= e < |was| && e in heap.idx ==> now[e].due == Sub(was[e].due, d)
      ensures heap.Valid(Dues(now))
    {
      var a, due := heap.p[..], Dues(was);
      MinHeap.CorrectionKeepsHeapIff(due, a, heap.n);
      assert MinHeap.Ordered(MinHeap.Back(due, d), a, heap.n);
      forall k | 0 < k < heap.n ensures MinHeap.Edge(Dues(now), a, k) {
        assert MinHeap.Edge(due, a, k) && MinHeap.Edge(MinHeap.Back(due, d), a, k);
        assert a[k] in heap.idx && a[MinHeap.Parent(k)] in heap.idx;
      }
      MinHeap.OrderKept(heap, due, Dues(now));
    }

    /** One turn of timeout_process */
    method ExpireEvent(e: nat)
      requires Valid() && e in heap.idx && e < |evs|
      modifies this, heap, heap.p
      ensures Valid() && (heap.p == old(heap.p) || fresh(heap.p))
      ensures old(Usable(Abs(), e)) && Abs() == Expire(old(Abs()), e)
    {
      hide Books, Del, Activate;
      DelKeeps(Abs(), e);
      var _ := EventDel(e, 0);  // its result is not looked at
      UsableOk(Abs(), e);
      EventActive(e, {KTimeout});
    }

    /** timeout_process at the time now */
    method TimeoutProcess(now: Time) returns (ghost order: seq<nat>)
      requires Valid()
      modifies this, heap, heap.p
      ensures Valid() && (heap.p == old(heap.p) || fresh(heap.p))
      ensures DueOrder(old(Abs()), now, order) && Abs() == ExpireAll(old(Abs()), order)
    {
      hide Books, Expire, ExpireAll, MinHeap.Ordered, MinHeap.Places, MinHeap.Known;
      ghost var b := Abs();
      order := [];
      NothingExpired(b);
      var found, e := heap.Top(Dues(evs));
      while found && !Later(evs[e].due, now)
        invariant heap.p == old(heap.p) || fresh(heap.p)
        invariant Valid() && Abs() == ExpireAll(b, order)
        invariant Sofar(b, now, order) && Behind(b, order, Abs())
        invariant e >= 0 && (found <==> heap.idx != map[])
        invariant found ==> e in heap.idx && e < |evs| && forall x :: x in heap.idx ==> MinHeap.Le(Dues(evs), e, x)
        decreases |heap.idx.Keys|
      {
        OneMore(b, now, order, e, Abs());
        order := order + [e];
        ExpireEvent(e);
        found, e := heap.Top(Dues(evs));
      }
      AllExpired(b, now, order, Abs(), found, e);
    }
  }

  /** The events of the first k places of the heap are due earlier by d, and no others. */
  ghost predicate Shifted(was: seq<Ev>, now: seq<Ev>, idx: map<nat, nat>, k: nat, d: Time) {
    && |now| == |was|
    && forall e :: 0 <= e < |now| ==>
         now[e] == if e in idx && idx[e] < k then was[e].(due := Sub(was[e].due, d)) else was[e]
  }

  lemma ShiftedMore(was: seq<Ev>, now: seq<Ev>, idx: map<nat, nat>, k: nat, d: Time, e: nat)
    requires Shifted(was, now, idx, k, d) && e < |was| && e in idx && idx[e] == k
    requires forall x :: x in idx && idx[x] == k ==> x == e
    ensures Shifted(was, now[e := now[e].(due := Sub(now[e].due, d))], idx, k + 1, d)
  {}

  lemma DueElsewhere(h: MinHeap.Heap, due: seq<Time>, due': seq<Time>)
    requires h.Valid(due) && |due'| == |due| && forall x :: x in h.idx && x < |due| ==> due'[x] == due[x]
    ensures h.Valid(due')
  {
    forall k | 0 < k < h.n ensures MinHeap.Edge(due', h.p[..], k) {
      assert MinHeap.Edge(due, h.p[..], k);
      assert h.p[..][k] in h.idx && h.p[..][MinHeap.Parent(k)] in h.idx;
    }
    MinHeap.OrderKept(h, due, due');
  }

  lemma NotInHeap(b: Base, e: nat)
    requires Books(b) && e < |b.evs| && !b.evs[e].timed
    ensures e !in b.heap
  {
    assert EventOk(b, e);
  }

  lemma ActiveRemoved(b: Base, e: nat)
    requires Usable(b, e) && b.evs[e].active
    ensures var b' := EventBook.QueueRemove(b, e, Active);
            b'.heap == b.heap && b'.evs == b.evs[e := b.evs[e].(active := false)] && |b'.active| == |b.active|
  {}

  lemma NothingExpired(b: Base)
    ensures ExpireAll(b, []) == b
  {}

  /** The turns so far have taken events that are due, in the order of their deadlines. */
  ghost predicate Sofar(b: Base, now: Time, order: seq<nat>) {
    Distinct(order) && ByDeadline(b.evs, order) && forall e :: e in order ==> IsDue(b, now, e)
  }

  /** What is left in the heap is due no earlier than what was taken. */
  ghost predicate Behind(b: Base, order: seq<nat>, b': Base) {
    forall e, x :: e in order && x in b'.heap ==> MinHeap.Le(Dues(b.evs), e, x)
  }

  lemma SofarMore(b: Base, now: Time, order: seq<nat>, e: nat)
    requires Sofar(b, now, order) && IsDue(b, now, e) && e !in order
    requires forall o :: o in order ==> DueBy(b.evs, o, e)
    ensures Sofar(b, now, order + [e])
  {
    hide DueBy, ByDeadline;
    LastInOrder(b.evs, order, e);
    var order' := order + [e];
    forall i, j | 0 <= i < j < |order'| ensures order'[i] != order'[j] {
      assert order'[i] == order[i] && order[i] in order;
      if j < |order| { assert order'[j] == order[j]; }
    }
  }

  lemma OneMore(b: Base, now: Time, order: seq<nat>, e: nat, b1: Base)
    requires Books(b) && Sofar(b, now, order) && b1 == ExpireAll(b, order) && Behind(b, order, b1)
    requires e in b1.heap && e < |b1.evs| && !Later(b1.evs[e].due, now)
    requires forall x :: x in b1.heap ==> MinHeap.Le(Dues(b1.evs), e, x)
    ensures Sofar(b, now, order + [e])
    ensures Usable(b1, e) && Expire(b1, e) == ExpireAll(b, order + [e])
    ensures ExpireAll(b, order + [e]).heap == b1.heap - {e}
    ensures Behind(b, order + [e], ExpireAll(b, order + [e]))
  {
    hide Books, Del, Activate, ExpireAll;
    ExpireAllShape(b, order);
    SameDues(b.evs, b1.evs);
    HeapTimed(b, e);
    forall o | o in order ensures DueBy(b.evs, o, e) {
      assert MinHeap.Le(Dues(b.evs), o, e);
    }
    SofarMore(b, now, order, e);
    ExpireOneMore(b, order, e);
    ExpireShape(b1, e);
  }

  lemma AllExpired(b: Base, now: Time, order: seq<nat>, b1: Base, found: bool, e: nat)
    requires Books(b) && Sofar(b, now, order) && b1 == ExpireAll(b, order)
    requires found <==> b1.heap != {}
    requires found ==> e in b1.heap && e < |b1.evs| && forall x :: x in b1.heap ==> MinHeap.Le(Dues(b1.evs), e, x)
    requires found ==> Later(b1.evs[e].due, now)
    ensures DueOrder(b, now, order)
  {
    hide Books, ExpireAll;
    ExpireAllShape(b, order);
    forall x | IsDue(b, now, x) ensures x in order {
      HeapTimed(b, x);
      assert x !in order ==> x in b1.heap;
    }
  }

  // ---------- Waiting ----------

  /** What is waited for a deadline that has not come: its microseconds, with seconds that are not negative. On a
      normalised deadline the wait is normalised and ends exactly then. */
  ghost predicate Waits(due: Time, now: Time) {
    var w := Sub(due, now);
    && Micros(w) == Micros(due) - Micros(now) && w.sec >= 0
    && (w.usec >= 0 <==> due.usec + MICROS >= now.usec)
    && (Normal(due) ==> Normal(w) && Add(now, w) == due)
  }

  lemma WaitIs(due: Time, now: Time)
    requires Normal(now) && Later(due, now)
    ensures Waits(due, now)
  {
    SubIsMicros(due, now);
  }

  // ---------- A heap whose order is lost ----------

  const PLAIN := Ev(false, false, false, 0, false, false, false, {}, Time(0, 0))

  /** A base with two events that are on no queue */
  const PAIR := Base([PLAIN, PLAIN], [], [[]], {}, 0, 0)

  /** Two timeouts, the first not normalised. event_add carries one second over and no more. */
  const ADDS := [OpAdd(0, Some(Time(1, 3000000)), Time(0, 0), true),
                 OpAdd(1, Some(Time(3, 0)), Time(0, 0), true)]

  const FIRST := PLAIN.(timed := true, due := Time(2, 2000000))

  const SECOND := PLAIN.(timed := true, due := Time(3, 0))

  const ONE := Base([FIRST, PLAIN], [], [[]], {0}, 1, 0)

  const BOTH := Base([FIRST, SECOND], [], [[]], {0, 1}, 2, 0)

  /** event_add for an event that is on no queue and only waits for a time */
  lemma TimerAdded(b: Base, e: nat, tv: Time, now: Time)
    requires Usable(b, e)
    requires var ev := b.evs[e]; !ev.io && !ev.internal && !ev.active && !ev.timed
    ensures AddEvent(b, e, Some(tv), now, true)
         == (b.(evs := b.evs[e := b.evs[e].(timed := true, due := Add(now, tv))], heap := b.heap + {e},
                count := b.count + 1), 0)
  {
    var ev := b.evs[e];
    assert RemoveIf(b, e, Timeout) == b;
    var b2 := b.(evs := b.evs[e := ev.(due := Add(now, tv))]);
    assert b2.evs[e := Mark(b2.evs[e], Timeout, true)] == b.evs[e := ev.(timed := true, due := Add(now, tv))];
  }

  lemma FirstAdded()
    ensures Usable(PAIR, 0) && AddEvent(PAIR, 0, Some(Time(1, 3000000)), Time(0, 0), true) == (ONE, 0)
  {
    hide AddEvent;
    TimerAdded(PAIR, 0, Time(1, 3000000), Time(0, 0));
    assert PAIR.evs[0 := FIRST] == ONE.evs;
    assert PAIR.heap + {0} == ONE.heap;
  }

  lemma SecondAdded()
    ensures Usable(ONE, 1) && AddEvent(ONE, 1, Some(Time(3, 0)), Time(0, 0), true) == (BOTH, 0)
  {
    hide AddEvent;
    TimerAdded(ONE, 1, Time(3, 0), Time(0, 0));
    assert ONE.evs[1 := SECOND] == BOTH.evs;
    assert ONE.heap + {1} == BOTH.heap;
  }

  lemma AddsRun()
    ensures Idle(PAIR) && EventBook.Runs(PAIR, ADDS, BOTH)
  {
    hide AddEvent;
    FirstAdded();
    SecondAdded();
    assert CanDo(PAIR, ADDS[0]) && CanDo(ONE, ADDS[1]);
    assert Done(PAIR, ADDS[0], ONE) && Done(ONE, ADDS[1], BOTH);
    assert ADDS[1..] == [ADDS[1]] && ADDS[1..][1..] == [];
    assert EventBook.Runs(BOTH, [], BOTH);
    assert EventBook.Runs(ONE, ADDS[1..], BOTH);
  }

  predicate Either(k: nat, x: nat, y: nat) {
    k == x || k == y
  }

  lemma TwoPlaces(n: nat, x: nat, y: nat)
    requires x < n && y < n && x != y && forall k :: 0 <= k < n ==> Either(k, x, y)
    ensures n == 2
  {
    assert Either(0, x, y) && Either(1, x, y) && (n <= 2 || Either(2, x, y));
  }

  /** A heap of the two events has the first on top. */
  lemma FirstOnTop(h: MinHeap.Heap)
    requires h.Valid(Dues(BOTH.evs)) && h.idx.Keys == BOTH.heap
    ensures h.n == 2 <= h.p.Length && h.p[0] == 0 && h.p[1] == 1
  {
    var a := h.p[..];
    assert 0 in h.idx && 1 in h.idx;
    assert a[h.idx[0]] == 0 && a[h.idx[1]] == 1;
    forall k | 0 <= k < h.n ensures Either(k, h.idx[0], h.idx[1]) {
      assert a[k] in h.idx.Keys && h.idx[a[k]] == k;
    }
    TwoPlaces(h.n, h.idx[0], h.idx[1]);
    assert MinHeap.Edge(Dues(BOTH.evs), a, 1);
  }

  /** Every heap of the two events, once they are added, loses its order when the clock goes back by one microsecond:
      the second is then due before the first, which still is on top. */
  lemma HeapOrderIsLost(h: MinHeap.Heap)
    requires h.Valid(Dues(BOTH.evs)) && h.idx.Keys == BOTH.heap
    ensures Idle(PAIR) && EventBook.Runs(PAIR, ADDS, BOTH)
    ensures h.n == 2 <= h.p.Length && h.p[0] == 0 && !MinHeap.SteadyEdges(Dues(BOTH.evs), h.p[..], h.n)
    ensures var b := Corrected(BOTH, Time(0, 1));
            var now := Time(2, 999999);
            !h.Valid(Dues(b.evs)) && IsDue(b, now, 1) && Later(b.evs[0].due, now)
  {
    hide EventBook.Runs, Idle;
    AddsRun();
    FirstOnTop(h);
    assert !MinHeap.SteadyAt(Dues(BOTH.evs), h.p[..], 1);
    assert !MinHeap.Edge(Dues(Corrected(BOTH, Time(0, 1)).evs), h.p[..], 1);
  }

  method AddBoth() returns (base: EventBase)
    ensures fresh(base) && fresh(base.heap) && fresh(base.heap.p) && base.Valid() && base.Abs() == BOTH
  {
    hide AddEvent, Books, Usable, Dues, MinHeap.Ordered, MinHeap.Places, MinHeap.Known;
    base := new EventBase([PLAIN, PLAIN], 1);
    assert base.active == [[]];
    assert base.Abs() == PAIR;
    FirstAdded();
    var res := base.EventAdd(0, Some(Time(1, 3000000)), Time(0, 0), true);
    SecondAdded();
    res := base.EventAdd(1, Some(Time(3, 0)), Time(0, 0), true);
  }

  /** The same on an event base */
  method LoseOrder() returns (base: EventBase)
    ensures fresh(base) && fresh(base.heap) && fresh(base.heap.p) && base.Abs() == Corrected(BOTH, Time(0, 1))
    ensures !base.heap.Valid(Dues(base.evs)) && base.heap.n == 2 <= base.heap.p.Length && base.heap.p[0] == 0
  {
    hide Books, Corrected, Dues, EventBook.Runs, Idle, MinHeap.Ordered, MinHeap.Places, MinHeap.Known,
      MinHeap.SteadyEdges;
    base := AddBoth();
    HeapOrderIsLost(base.heap);
    base.TimeoutCorrect(Time(0, 1), Time(0, 0));
  }
}
