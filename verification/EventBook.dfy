/** The bookkeeping of event.c: an event can be on three queues at once, its flags say which, and two counters
    follow. Events are numbers. */
module EventBook {
  import opened Basics
  import opened Timeval

  datatype Kind = KTimeout | KRead | KWrite | KSignal

  /** struct event. `io` says that it waits for reading, writing or a signal. */
  datatype Ev = Ev(
    io: bool, persist: bool, internal: bool, pri: nat,
    inserted: bool, active: bool, timed: bool, res: set<Kind>, due: Time)

  /** struct event_base: the events known to it, eventqueue, activequeues, the members of the
      timer heap, event_count and event_count_active. */
  datatype Base = Base(
    evs: seq<Ev>, queue: seq<nat>, active: seq<seq<nat>>, heap: set<nat>, count: int, activeCount: int)

  datatype Which = Inserted | Active | Timeout

  predicate On(e: Ev, q: Which) {
    match q
    case Inserted => e.inserted
    case Active => e.active
    case Timeout => e.timed
  }

  function Mark(e: Ev, q: Which, on: bool): (e': Ev) {
    match q
    case Inserted => e.(inserted := on)
    case Active => e.(active := on)
    case Timeout => e.(timed := on)
  }

  /** TAILQ_REMOVE */
  function Without(s: seq<nat>, e: nat): (r: seq<nat>) {
    if s == [] then [] else if s[0] == e then s[1..] else [s[0]] + Without(s[1..], e)
  }

  predicate Usable(b: Base, e: nat) {
    e < |b.evs| && b.evs[e].pri < |b.active|
  }

  /** event_queue_remove; it ends the program for an event that is not on the queue. */
  function QueueRemove(b: Base, e: nat, q: Which): (b': Base)
    requires Usable(b, e) && On(b.evs[e], q)
  {
    var ev := b.evs[e];
    var b1 := b.(evs := b.evs[e := Mark(ev, q, false)], count := if ev.internal then b.count else b.count - 1);
    match q
    case Inserted => b1.(queue := Without(b.queue, e))
    case Active => b1.(activeCount := b.activeCount - 1, active := b.active[ev.pri := Without(b.active[ev.pri], e)])
    case Timeout => b1.(heap := b.heap - {e})
  }

  /** event_queue_insert; it ends the program for an event that is already on the queue, but for the active one. */
  function QueueInsert(b: Base, e: nat, q: Which): (b': Base)
    requires Usable(b, e) && (On(b.evs[e], q) ==> q == Active)
  {
    var ev := b.evs[e];
    if On(ev, q) then b
    else
      var b1 := b.(evs := b.evs[e := Mark(ev, q, true)], count := if ev.internal then b.count else b.count + 1);
      match q
      case Inserted => b1.(queue := b.queue + [e])
      case Active => b1.(activeCount := b.activeCount + 1, active := b.active[ev.pri := b.active[ev.pri] + [e]])
      case Timeout => b1.(heap := b.heap + {e})
  }

  function RemoveIf(b: Base, e: nat, q: Which): (b': Base)
    requires Usable(b, e)
  {
    if On(b.evs[e], q) then QueueRemove(b, e, q) else b
  }

  /** event_del */
  function Del(b: Base, e: nat): (b': Base)
    requires Usable(b, e)
  {
    RemoveIf(RemoveIf(RemoveIf(b, e, Timeout), e, Active), e, Inserted)
  }

  /** event_active */
  function Activate(b: Base, e: nat, res: set<Kind>): (b': Base)
    requires Usable(b, e)
  {
    var ev := b.evs[e];
    if ev.active then b.(evs := b.evs[e := ev.(res := ev.res + res)])
    else QueueInsert(b.(evs := b.evs[e := ev.(res := res)]), e, Active)
  }

  /** The timeout part of event_add */
  function Schedule(b: Base, e: nat, due: Time): (b': Base)
    requires Usable(b, e)
  {
    var b1 := RemoveIf(b, e, Timeout);
    var b2 := if b1.evs[e].active && KTimeout in b1.evs[e].res then QueueRemove(b1, e, Active) else b1;
    QueueInsert(b2.(evs := b2.evs[e := b2.evs[e].(due := due)]), e, Timeout)
  }

  /** event_add at the time now. The backend accepts the event or not. */
  function AddEvent(b: Base, e: nat, tv: Option<Time>, now: Time, accepted: bool): (r: (Base, int))
    requires Usable(b, e)
  {
    var ev := b.evs[e];
    var ask := ev.io && !ev.inserted && !ev.active;
    if ask && !accepted then (b, -1)
    else
      var b1 := if ask then QueueInsert(b, e, Inserted) else b;
      (if tv.Some? then Schedule(b1, e, Add(now, tv.value)) else b1, 0)
  }

  /** event_priority_set */
  function SetPriority(b: Base, e: nat, pri: int): (r: (Base, int))
    requires Usable(b, e)
  {
    if b.evs[e].active || pri < 0 || pri >= |b.active| then (b, -1)
    else (b.(evs := b.evs[e := b.evs[e].(pri := pri)]), 0)
  }

  /** The first active queue that is not empty */
  function FirstBusy(active: seq<seq<nat>>, from: nat): (i: nat)
    requires from <= |active|
    ensures from <= i <= |active|
    decreases |active| - from
  {
    if from == |active| || active[from] != [] then from else FirstBusy(active, from + 1)
  }

  /** event_process_active takes the next event of the active queue i, before it calls it. */
  function TakeFrom(b: Base, i: nat): (b': Base)
    requires i < |b.active| && b.active[i] != [] && Usable(b, b.active[i][0]) && b.evs[b.active[i][0]].active
  {
    var e := b.active[i][0];
    if b.evs[e].persist then QueueRemove(b, e, Active) else Del(b, e)
  }

  /** One turn of timeout_process */
  function Expire(b: Base, e: nat): (b': Base)
    requires Usable(b, e)
  {
    var b1 := Del(b, e);
    if Usable(b1, e) then Activate(b1, e, {KTimeout}) else b1
  }

  // ---------- The books ----------

  function Bit(x: bool): (n: nat) { if x then 1 else 0 }

  /** How often a non-internal event is on a queue */
  function Weight(e: Ev): (n: nat) {
    if e.internal then 0 else Bit(e.inserted) + Bit(e.active) + Bit(e.timed)
  }

  function Total(evs: seq<Ev>): (n: nat) {
    if evs == [] then 0 else Weight(evs[0]) + Total(evs[1..])
  }

  function Lengths(active: seq<seq<nat>>): (n: nat) {
    if active == [] then 0 else |active[0]| + Lengths(active[1..])
  }

  predicate EventOk(b: Base, e: nat)
    requires e < |b.evs|
  {
    var ev := b.evs[e];
    && ev.pri < |b.active|
    && multiset(b.queue)[e] == Bit(ev.inserted)
    && (forall i :: 0 <= i < |b.active| ==> multiset(b.active[i])[e] == Bit(ev.active && ev.pri == i))
    && (e in b.heap <==> ev.timed)
  }

  predicate Members(b: Base) {
    && (forall e :: e in b.queue ==> e < |b.evs|)
    && (forall i, e :: 0 <= i < |b.active| && e in b.active[i] ==> e < |b.evs|)
    && (forall e :: e in b.heap ==> e < |b.evs|)
  }

  /** Each flag is membership of its queue, exactly once, and the counters count memberships. */
  predicate Books(b: Base) {
    && Members(b)
    && (forall e :: 0 <= e < |b.evs| ==> EventOk(b, e))
    && b.count == Total(b.evs)
    && b.activeCount == Lengths(b.active)
  }

  lemma {:induction false} TotalUpdate(evs: seq<Ev>, e: nat, ev: Ev)
    requires e < |evs|
    ensures Total(evs[e := ev]) == Total(evs) - Weight(evs[e]) + Weight(ev)
  {
    if e == 0 {
      assert evs[e := ev][1..] == evs[1..];
    } else {
      assert evs[e := ev][1..] == evs[1..][e - 1 := ev];
      TotalUpdate(evs[1..], e - 1, ev);
    }
  }

  lemma {:induction false} LengthsUpdate(active: seq<seq<nat>>, i: nat, s: seq<nat>)
    requires i < |active|
    ensures Lengths(active[i := s]) == Lengths(active) - |active[i]| + |s|
  {
    if i == 0 {
      assert active[i := s][1..] == active[1..];
    } else {
      assert active[i := s][1..] == active[1..][i - 1 := s];
      LengthsUpdate(active[1..], i - 1, s);
    }
  }

  lemma {:induction false} WithoutCounts(s: seq<nat>, e: nat)
    requires e in s
    ensures multiset(Without(s, e)) == multiset(s) - multiset{e}
    ensures |Without(s, e)| == |s| - 1
  {
    assert s == [s[0]] + s[1..];
    if s[0] != e {
      WithoutCounts(s[1..], e);
    }
  }

  lemma RemoveActive(b: Base, e: nat, x: nat)
    requires Usable(b, e) && b.evs[e].active && x < |b.evs| && EventOk(b, e) && EventOk(b, x)
    ensures EventOk(QueueRemove(b, e, Active), x)
  {
    hide Without;
    var pri := b.evs[e].pri;
    assert e in multiset(b.active[pri]);
    WithoutCounts(b.active[pri], e);
  }

  lemma RemoveOther(b: Base, e: nat, q: Which, x: nat)
    requires Usable(b, e) && On(b.evs[e], q) && q != Active && x < |b.evs| && EventOk(b, e) && EventOk(b, x)
    ensures EventOk(QueueRemove(b, e, q), x)
  {
    hide Without;
    if q == Inserted {
      assert e in multiset(b.queue);
      WithoutCounts(b.queue, e);
    }
  }

  lemma RemoveEvent(b: Base, e: nat, q: Which, x: nat)
    requires Books(b) && Usable(b, e) && On(b.evs[e], q) && x < |b.evs|
    ensures EventOk(QueueRemove(b, e, q), x)
  {
    hide Members, Total, Lengths, EventOk, QueueRemove;
    if q == Active { RemoveActive(b, e, x); } else { RemoveOther(b, e, q, x); }
  }

  lemma RemoveCounts(b: Base, e: nat, q: Which)
    requires Books(b) && Usable(b, e) && On(b.evs[e], q)
    ensures QueueRemove(b, e, q).count == Total(QueueRemove(b, e, q).evs)
    ensures QueueRemove(b, e, q).activeCount == Lengths(QueueRemove(b, e, q).active)
  {
    hide Members, Total, Lengths, Without;
    TotalUpdate(b.evs, e, Mark(b.evs[e], q, false));
    if q == Active {
      var pri := b.evs[e].pri;
      assert EventOk(b, e);
      assert e in multiset(b.active[pri]);
      WithoutCounts(b.active[pri], e);
      LengthsUpdate(b.active, pri, Without(b.active[pri], e));
    }
  }

  lemma RemoveKeeps(b: Base, e: nat, q: Which)
    requires Books(b) && e < |b.evs| && On(b.evs[e], q)
    ensures Usable(b, e) && Books(QueueRemove(b, e, q))
  {
    hide Members, EventOk, Total, Lengths;
    UsableOk(b, e);
    RemoveCounts(b, e, q);
    RemoveMembers(b, e, q);
    var b' := QueueRemove(b, e, q);
    forall x | 0 <= x < |b'.evs| ensures EventOk(b', x) { RemoveEvent(b, e, q, x); }
  }

  lemma UsableOk(b: Base, e: nat)
    requires Books(b) && e < |b.evs|
    ensures Usable(b, e)
  {
    assert EventOk(b, e);
  }

  lemma RemoveMembers(b: Base, e: nat, q: Which)
    requires Members(b) && Usable(b, e) && On(b.evs[e], q)
    ensures Members(QueueRemove(b, e, q))
  {
    WithoutSubset(b.queue, e);
    WithoutSubset(b.active[b.evs[e].pri], e);
  }

  lemma {:induction false} WithoutSubset(s: seq<nat>, e: nat)
    ensures forall x :: x in Without(s, e) ==> x in s
  {
    if s != [] { WithoutSubset(s[1..], e); }
  }

  lemma InsertEvent(b: Base, e: nat, q: Which, x: nat)
    requires Books(b) && Usable(b, e) && !On(b.evs[e], q) && x < |b.evs|
    ensures EventOk(QueueInsert(b, e, q), x)
  {
    hide Members, Total, Lengths;
    assert EventOk(b, e);
    assert EventOk(b, x);
  }

  lemma InsertMembers(b: Base, e: nat, q: Which)
    requires Members(b) && Usable(b, e) && !On(b.evs[e], q)
    ensures Members(QueueInsert(b, e, q))
  {}

  lemma InsertKeeps(b: Base, e: nat, q: Which)
    requires Books(b) && e < |b.evs| && (On(b.evs[e], q) ==> q == Active)
    ensures Usable(b, e) && Books(QueueInsert(b, e, q))
  {
    hide Members, EventOk, Total, Lengths;
    UsableOk(b, e);
    if !On(b.evs[e], q) {
      TotalUpdate(b.evs, e, Mark(b.evs[e], q, true));
      InsertMembers(b, e, q);
      var b' := QueueInsert(b, e, q);
      if q == Active { LengthsUpdate(b.active, b.evs[e].pri, b.active[b.evs[e].pri] + [e]); }
      forall x | 0 <= x < |b'.evs| ensures EventOk(b', x) { InsertEvent(b, e, q, x); }
    }
  }

  /** The fields that the books do not speak of can be set freely. */
  lemma FieldsKeep(b: Base, e: nat, res: set<Kind>, due: Time, pri: nat)
    requires Books(b) && e < |b.evs| && pri < |b.active| && (b.evs[e].active ==> pri == b.evs[e].pri)
    ensures Books(b.(evs := b.evs[e := b.evs[e].(res := res, due := due, pri := pri)]))
  {
    hide Total, Lengths;
    var ev := b.evs[e].(res := res, due := due, pri := pri);
    var b' := b.(evs := b.evs[e := ev]);
    TotalUpdate(b.evs, e, ev);
    forall x | 0 <= x < |b'.evs| ensures EventOk(b', x) { assert EventOk(b, x); }
  }

  lemma RemoveIfKeeps(b: Base, e: nat, q: Which)
    requires Books(b) && e < |b.evs|
    ensures Usable(b, e) && Books(RemoveIf(b, e, q)) && !On(RemoveIf(b, e, q).evs[e], q)
    ensures RemoveIf(b, e, q).evs == b.evs[e := Mark(b.evs[e], q, false)]
    ensures |RemoveIf(b, e, q).active| == |b.active|
  {
    hide Books;
    UsableOk(b, e);
    if On(b.evs[e], q) {
      RemoveKeeps(b, e, q);
    }
  }

  lemma DelKeeps(b: Base, e: nat)
    requires Books(b) && e < |b.evs|
    ensures Usable(b, e) && Books(Del(b, e))
    ensures Del(b, e).evs == b.evs[e := b.evs[e].(inserted := false, active := false, timed := false)]
  {
    hide Books, RemoveIf;
    RemoveIfKeeps(b, e, Timeout);
    var b1 := RemoveIf(b, e, Timeout);
    RemoveIfKeeps(b1, e, Active);
    RemoveIfKeeps(RemoveIf(b1, e, Active), e, Inserted);
  }

  lemma ActivateKeeps(b: Base, e: nat, res: set<Kind>)
    requires Books(b) && e < |b.evs|
    ensures Usable(b, e) && Books(Activate(b, e, res))
  {
    hide Books;
    UsableOk(b, e);
    var ev := b.evs[e];
    var res' := if ev.active then ev.res + res else res;
    FieldsKeep(b, e, res', ev.due, ev.pri);
    if !ev.active { InsertKeeps(b.(evs := b.evs[e := ev.(res := res)]), e, Active); }
  }

  lemma ScheduleKeeps(b: Base, e: nat, due: Time)
    requires Books(b) && e < |b.evs|
    ensures Usable(b, e) && Books(Schedule(b, e, due))
  {
    hide Books, RemoveIf;
    RemoveIfKeeps(b, e, Timeout);
    var b1 := RemoveIf(b, e, Timeout);
    UsableOk(b1, e);
    var drop := b1.evs[e].active && KTimeout in b1.evs[e].res;
    if drop { RemoveKeeps(b1, e, Active); }
    var b2 := if drop then QueueRemove(b1, e, Active) else b1;
    FieldsKeep(b2, e, b2.evs[e].res, due, b2.evs[e].pri);
    InsertKeeps(b2.(evs := b2.evs[e := b2.evs[e].(due := due)]), e, Timeout);
  }

  lemma AddKeeps(b: Base, e: nat, tv: Option<Time>, now: Time, accepted: bool)
    requires Books(b) && e < |b.evs|
    ensures Usable(b, e) && Books(AddEvent(b, e, tv, now, accepted).0)
  {
    hide Books, Schedule, QueueInsert;
    UsableOk(b, e);
    var ask := b.evs[e].io && !b.evs[e].inserted && !b.evs[e].active;
    if ask {
      InsertKeeps(b, e, Inserted);
      SizeKept(b, e);
    }
    var b1 := if ask then QueueInsert(b, e, Inserted) else b;
    if tv.Some? { ScheduleKeeps(b1, e, Add(now, tv.value)); }
  }

  lemma SizeKept(b: Base, e: nat)
    requires Usable(b, e) && !b.evs[e].inserted
    ensures |QueueInsert(b, e, Inserted).evs| == |b.evs|
  {}

  lemma {:induction false} FirstBusyIsBusy(active: seq<seq<nat>>, from: nat)
    requires from <= |active|
    ensures var i := FirstBusy(active, from);
            && (i < |active| ==> active[i] != [])
            && forall j :: from <= j < i ==> active[j] == []
    decreases |active| - from
  {
    if from < |active| && active[from] == [] { FirstBusyIsBusy(active, from + 1); }
  }

  lemma {:induction false} NoneBusy(active: seq<seq<nat>>)
    ensures Lengths(active) == 0 <==> FirstBusy(active, 0) == |active|
  {
    FirstBusyIsBusy(active, 0);
    if FirstBusy(active, 0) < |active| {
      var i := FirstBusy(active, 0);
      LengthsAt(active, i);
    } else {
      AllEmpty(active);
    }
  }

  lemma {:induction false} LengthsAt(active: seq<seq<nat>>, i: nat)
    requires i < |active|
    ensures Lengths(active) >= |active[i]|
  {
    if i > 0 { LengthsAt(active[1..], i - 1); }
  }

  lemma {:induction false} AllEmpty(active: seq<seq<nat>>)
    requires forall j :: 0 <= j < |active| ==> active[j] == []
    ensures Lengths(active) == 0
  {
    if active != [] { AllEmpty(active[1..]); }
  }

  lemma TakeOk(b: Base, i: nat)
    requires Books(b) && i < |b.active| && b.active[i] != []
    ensures Usable(b, b.active[i][0]) && b.evs[b.active[i][0]].active
  {
    var e := b.active[i][0];
    assert e in b.active[i];
    assert EventOk(b, e);
    assert multiset(b.active[i])[e] > 0;
  }

  lemma TakeKeeps(b: Base, i: nat)
    requires Books(b) && i < |b.active| && b.active[i] != []
    ensures Usable(b, b.active[i][0]) && b.evs[b.active[i][0]].active && Books(TakeFrom(b, i))
  {
    hide Books;
    TakeOk(b, i);
    var e := b.active[i][0];
    RemoveKeeps(b, e, Active);
    DelKeeps(b, e);
  }

  // ---------- Timers ----------

  function Drop(s: seq<nat>, x: set<nat>): (r: seq<nat>) {
    if s == [] then [] else (if s[0] in x then [] else [s[0]]) + Drop(s[1..], x)
  }

  /** The events of a list that have the priority i */
  function OfPriority(evs: seq<Ev>, order: seq<nat>, i: nat): (r: seq<nat>) {
    if order == [] then []
    else (if order[0] < |evs| && evs[order[0]].pri == i then [order[0]] else []) + OfPriority(evs, order[1..], i)
  }

  predicate Distinct(s: seq<nat>) {
    forall i, j :: 0 <= i < j < |s| ==> s[i] != s[j]
  }

  function Elems(s: seq<nat>): (x: set<nat>) {
    set e | e in s
  }

  /** The turns of timeout_process for the events of `order` */
  function ExpireAll(b: Base, order: seq<nat>): (b': Base)
    decreases |order|
  {
    if order == [] || !Usable(b, order[0]) then b else ExpireAll(Expire(b, order[0]), order[1..])
  }

  function Expired(ev: Ev): (ev': Ev) {
    ev.(inserted := false, active := true, timed := false, res := {KTimeout})
  }

  lemma {:induction false} DropJoins(s: seq<nat>, t: seq<nat>, x: set<nat>)
    ensures Drop(s + t, x) == Drop(s, x) + Drop(t, x)
  {
    if s == [] {
      assert s + t == t;
    } else {
      assert (s + t)[1..] == s[1..] + t;
      DropJoins(s[1..], t, x);
    }
  }

  lemma {:induction false} DropTwice(s: seq<nat>, x: set<nat>, y: set<nat>)
    ensures Drop(Drop(s, x), y) == Drop(s, x + y)
  {
    if s != [] {
      DropTwice(s[1..], x, y);
      DropJoins(if s[0] in x then [] else [s[0]], Drop(s[1..], x), y);
      assert Drop([s[0]], y) == if s[0] in y then [] else [s[0]] by { assert [s[0]][1..] == []; }
    }
  }

  lemma {:induction false} DropNothing(s: seq<nat>, x: set<nat>)
    requires forall e :: e in s ==> e !in x
    ensures Drop(s, x) == s
  {
    if s != [] { DropNothing(s[1..], x); }
  }

  lemma {:induction false} WithoutIsDrop(s: seq<nat>, e: nat)
    requires multiset(s)[e] == 1
    ensures Without(s, e) == Drop(s, {e})
  {
    assert s != [] && s == [s[0]] + s[1..];
    assert multiset(s) == multiset{s[0]} + multiset(s[1..]);
    if s[0] == e {
      forall y | y in s[1..] ensures y !in {e} { assert y in multiset(s[1..]); }
      DropNothing(s[1..], {e});
    } else {
      WithoutIsDrop(s[1..], e);
    }
  }

  lemma AbsentIsDrop(s: seq<nat>, e: nat)
    requires multiset(s)[e] == 0
    ensures s == Drop(s, {e})
  {
    forall y | y in s ensures y !in {e} { assert y in multiset(s); }
    DropNothing(s, {e});
  }

  /** Taking an event off a queue leaves the queue without it, and the other two as they were. */
  lemma RemoveShape(b: Base, e: nat, q: Which)
    requires Books(b) && Usable(b, e)
    ensures var b' := RemoveIf(b, e, q);
            && b'.queue == (if q == Inserted then Drop(b.queue, {e}) else b.queue)
            && b'.heap == (if q == Timeout then b.heap - {e} else b.heap)
            && |b'.active| == |b.active|
            && forall i :: 0 <= i < |b.active| ==>
                 b'.active[i] == if q == Active then Drop(b.active[i], {e}) else b.active[i]
  {
    hide Members, Total, Lengths, Without, Drop;
    assert EventOk(b, e);
    var on := On(b.evs[e], q);
    match q {
      case Inserted => if on { WithoutIsDrop(b.queue, e); } else { AbsentIsDrop(b.queue, e); }
      case Active =>
        forall i | 0 <= i < |b.active| ensures RemoveIf(b, e, q).active[i] == Drop(b.active[i], {e}) {
          if on && i == b.evs[e].pri { WithoutIsDrop(b.active[i], e); } else { AbsentIsDrop(b.active[i], e); }
        }
      case Timeout =>
    }
  }

  lemma DelShape(b: Base, e: nat)
    requires Books(b) && Usable(b, e)
    ensures var b' := Del(b, e);
            && b'.queue == Drop(b.queue, {e}) && b'.heap == b.heap - {e} && |b'.active| == |b.active|
            && forall i :: 0 <= i < |b.active| ==> b'.active[i] == Drop(b.active[i], {e})
  {
    hide Books, RemoveIf;
    RemoveIfKeeps(b, e, Timeout);
    RemoveShape(b, e, Timeout);
    var b1 := RemoveIf(b, e, Timeout);
    RemoveIfKeeps(b1, e, Active);
    RemoveShape(b1, e, Active);
    RemoveShape(RemoveIf(b1, e, Active), e, Inserted);
  }

  lemma ExpireShape(b: Base, e: nat)
    requires Books(b) && e < |b.evs|
    ensures Usable(b, e)
    ensures var b' := Expire(b, e);
            && Books(b') && b'.evs == b.evs[e := Expired(b.evs[e])]
            && b'.queue == Drop(b.queue, {e}) && b'.heap == b.heap - {e} && |b'.active| == |b.active|
            && forall i :: 0 <= i < |b.active| ==>
                 b'.active[i] == Drop(b.active[i], {e}) + if b.evs[e].pri == i then [e] else []
  {
    hide Books, Del;
    DelKeeps(b, e);
    DelShape(b, e);
    ActivateKeeps(Del(b, e), e, {KTimeout});
  }

  lemma OfPrioritySame(evs: seq<Ev>, evs': seq<Ev>, order: seq<nat>, i: nat)
    requires |evs| == |evs'| && forall e :: 0 <= e < |evs| ==> evs[e].pri == evs'[e].pri
    ensures OfPriority(evs, order, i) == OfPriority(evs', order, i)
  {}

  /** What expiring a list of events comes to. */
  ghost predicate Shape(b: Base, order: seq<nat>, b': Base) {
    && |b'.evs| == |b.evs|
    && (forall e :: 0 <= e < |b.evs| ==> b'.evs[e] == if e in order then Expired(b.evs[e]) else b.evs[e])
    && b'.heap == b.heap - Elems(order)
    && b'.queue == Drop(b.queue, Elems(order))
    && |b'.active| == |b.active|
    && forall i :: 0 <= i < |b.active| ==>
         b'.active[i] == Drop(b.active[i], Elems(order)) + OfPriority(b.evs, order, i)
  }

  lemma {:induction false} ExpireAllShape(b: Base, order: seq<nat>)
    requires Books(b) && Distinct(order) && forall e :: e in order ==> e < |b.evs|
    ensures Books(ExpireAll(b, order)) && Shape(b, order, ExpireAll(b, order))
    decreases |order|
  {
    hide Books, Expire, Drop;
    if order == [] {
      assert Elems(order) == {};
      DropNothing(b.queue, {});
      forall i | 0 <= i < |b.active| ensures Drop(b.active[i], {}) == b.active[i] { DropNothing(b.active[i], {}); }
    } else {
      var e, rest := order[0], order[1..];
      assert e in order && forall x :: x in rest ==> x in order;
      ExpireShape(b, e);
      var b1 := Expire(b, e);
      ExpireAllShape(b1, rest);
      ShapeStep(b, e, rest, b1, ExpireAll(b1, rest));
      assert order == [e] + rest;
    }
  }

  lemma ShapeStep(b: Base, e: nat, rest: seq<nat>, b1: Base, b': Base)
    requires e < |b.evs| && e !in rest && b1.evs == b.evs[e := Expired(b.evs[e])]
    requires b1.queue == Drop(b.queue, {e}) && b1.heap == b.heap - {e} && |b1.active| == |b.active|
    requires forall i :: 0 <= i < |b.active| ==>
               b1.active[i] == Drop(b.active[i], {e}) + if b.evs[e].pri == i then [e] else []
    requires Shape(b1, rest, b')
    ensures Shape(b, [e] + rest, b')
  {
    hide Drop;
    var order := [e] + rest;
    assert Elems(order) == {e} + Elems(rest);
    DropTwice(b.queue, {e}, Elems(rest));
    forall i | 0 <= i < |b.active|
      ensures b'.active[i] == Drop(b.active[i], Elems(order)) + OfPriority(b.evs, order, i)
    {
      var added := if b.evs[e].pri == i then [e] else [];
      DropJoins(Drop(b.active[i], {e}), added, Elems(rest));
      DropTwice(b.active[i], {e}, Elems(rest));
      DropNothing(added, Elems(rest));
      OfPrioritySame(b1.evs, b.evs, rest, i);
      assert order[1..] == rest;
    }
  }

  // ---------- timeout_process ----------

  predicate IsDue(b: Base, now: Time, e: nat) {
    e < |b.evs| && b.evs[e].timed && !Later(b.evs[e].due, now)
  }

  predicate DueBy(evs: seq<Ev>, e: nat, f: nat) {
    e < |evs| && f < |evs| && !Later(evs[e].due, evs[f].due)
  }

  predicate ByDeadline(evs: seq<Ev>, order: seq<nat>) {
    forall i, j :: 0 <= i < j < |order| ==> DueBy(evs, order[i], order[j])
  }

  /** An order in which timeout_process may take the events that are due at the time now. */
  ghost predicate DueOrder(b: Base, now: Time, order: seq<nat>) {
    Distinct(order) && ByDeadline(b.evs, order) && forall e :: e in order <==> IsDue(b, now, e)
  }

  /** timeout_process is exact. Every deadline that is left is later than now. The events that were due are active
      because of their timeout only, on no other queue, and stand at the end of the active queue of
      their priority in the order of their deadlines. Nothing else has changed. */
  lemma TimersExact(b: Base, now: Time, order: seq<nat>)
    requires Books(b) && DueOrder(b, now, order)
    ensures var b' := ExpireAll(b, order);
            && Books(b') && |b'.evs| == |b.evs| && |b'.active| == |b.active|
            && (forall e :: e in b'.heap ==> e < |b.evs| && Later(b'.evs[e].due, now))
            && (forall e :: 0 <= e < |b.evs| ==> b'.evs[e] == if IsDue(b, now, e) then Expired(b.evs[e]) else b.evs[e])
            && (forall i :: 0 <= i < |b.active| ==>
                  && b'.active[i] == Drop(b.active[i], Elems(order)) + OfPriority(b.evs, order, i)
                  && ByDeadline(b.evs, OfPriority(b.evs, order, i)))
  {
    hide Books, ExpireAll, Drop;
    ExpireAllShape(b, order);
    var b' := ExpireAll(b, order);
    forall e | e in b'.heap ensures e < |b.evs| && Later(b'.evs[e].due, now) {
      HeapTimed(b', e);
    }
    forall i | 0 <= i < |b.active| ensures ByDeadline(b.evs, OfPriority(b.evs, order, i)) {
      OfPrioritySorted(b.evs, order, i);
    }
  }

  lemma {:induction false} OfPriorityIn(evs: seq<Ev>, order: seq<nat>, i: nat)
    ensures forall e :: e in OfPriority(evs, order, i) ==> e in order && e < |evs|
  {
    if order != [] { OfPriorityIn(evs, order[1..], i); }
  }

  lemma {:induction false} OfPrioritySorted(evs: seq<Ev>, order: seq<nat>, i: nat)
    requires ByDeadline(evs, order)
    ensures ByDeadline(evs, OfPriority(evs, order, i))
  {
    hide DueBy;
    if order != [] {
      var rest := order[1..];
      forall j, k | 0 <= j < k < |rest| ensures DueBy(evs, rest[j], rest[k]) {
        assert DueBy(evs, order[j + 1], order[k + 1]);
      }
      OfPrioritySorted(evs, rest, i);
      OfPriorityIn(evs, rest, i);
      var some := OfPriority(evs, rest, i);
      forall e | e in some ensures DueBy(evs, order[0], e) {
        var j :| 0 <= j < |rest| && rest[j] == e;
        assert DueBy(evs, order[0], order[j + 1]);
      }
      if order[0] < |evs| && evs[order[0]].pri == i {
        FirstInOrder(evs, order[0], some);
      }
    }
  }

  lemma FirstInOrder(evs: seq<Ev>, e: nat, order: seq<nat>)
    requires ByDeadline(evs, order) && forall f :: f in order ==> DueBy(evs, e, f)
    ensures ByDeadline(evs, [e] + order)
  {
    hide DueBy;
    var all := [e] + order;
    forall j, k | 0 <= j < k < |all| ensures DueBy(evs, all[j], all[k]) {
      assert all[k] == order[k - 1] && order[k - 1] in order;
      if j > 0 { assert DueBy(evs, order[j - 1], order[k - 1]); }
    }
  }

  lemma LastInOrder(evs: seq<Ev>, order: seq<nat>, e: nat)
    requires ByDeadline(evs, order) && forall f :: f in order ==> DueBy(evs, f, e)
    ensures ByDeadline(evs, order + [e])
  {
    hide DueBy;
    var all := order + [e];
    forall j, k | 0 <= j < k < |all| ensures DueBy(evs, all[j], all[k]) {
      assert all[j] == order[j] && order[j] in order;
      if k < |order| { assert DueBy(evs, order[j], order[k]); }
    }
  }

  // ---------- Corrections of the clock ----------

  /** timeout_correct when the clock went back by d: the deadlines in the heap go back with it. */
  function Corrected(b: Base, d: Time): (b': Base) {
    b.(evs := seq(|b.evs|, e requires 0 <= e < |b.evs| =>
                             if b.evs[e].timed then b.evs[e].(due := Sub(b.evs[e].due, d)) else b.evs[e]))
  }

  lemma {:induction false} SameWeights(evs: seq<Ev>, evs': seq<Ev>)
    requires |evs| == |evs'| && forall e :: 0 <= e < |evs| ==> Weight(evs[e]) == Weight(evs'[e])
    ensures Total(evs) == Total(evs')
  {
    if evs != [] { SameWeights(evs[1..], evs'[1..]); }
  }

  /** The correction changes no queue and leaves every timer as many microseconds as it had. Deadlines that are steady
      keep their order, and normalised ones stay normalised. */
  lemma CorrectionKeeps(b: Base, last: Time, now: Time)
    requires Books(b) && Normal(last) && Normal(now) && Later(last, now)
    ensures var b' := Corrected(b, Sub(last, now));
            && Books(b') && Normal(Sub(last, now))
            && (forall e :: e in b.heap ==>
                  && e < |b.evs|
                  && Micros(b'.evs[e].due) - Micros(now) == Micros(b.evs[e].due) - Micros(last)
                  && (Normal(b.evs[e].due) ==> Normal(b'.evs[e].due)))
            && (forall e, f ::
                  (&& e in b.heap && f in b.heap
                   && !Later(b.evs[e].due, b.evs[f].due) && Steady(b.evs[e].due, b.evs[f].due)) ==>
                    !Later(b'.evs[e].due, b'.evs[f].due))
  {
    hide Books, EventOk;
    ClockKeeps(b, Sub(last, now));
    forall e | e in b.heap ensures e < |b.evs| && b.evs[e].timed { HeapTimed(b, e); }
  }

  // ---------- Runs ----------

  datatype Op =
    | OpAdd(e: nat, tv: Option<Time>, now: Time, accepted: bool)
    | OpDel(e: nat)
    | OpActive(e: nat, res: set<Kind>)
    | OpPriority(e: nat, pri: int)
    | OpTake(i: nat)               // event_process_active takes from this queue
    | OpTimers(now: Time, order: seq<nat>)
    | OpClock(last: Time, now: Time)

  ghost predicate CanDo(b: Base, o: Op) {
    match o
    case OpTake(i) => i < |b.active| && b.active[i] != []
    case OpTimers(now, order) => DueOrder(b, now, order)
    case OpClock(_, _) => true
    case _ => o.e < |b.evs|
  }

  lemma DoKeeps(b: Base, o: Op) returns (b': Base)
    requires Books(b) && CanDo(b, o)
    ensures Books(b') && Done(b, o, b')
  {
    hide Books;
    match o {
      case OpAdd(e, tv, now, accepted) =>
        AddKeeps(b, e, tv, now, accepted);
        b' := AddEvent(b, e, tv, now, accepted).0;
      case OpDel(e) =>
        DelKeeps(b, e);
        b' := Del(b, e);
      case OpActive(e, res) =>
        ActivateKeeps(b, e, res);
        b' := Activate(b, e, res);
      case OpPriority(e, pri) =>
        UsableOk(b, e);
        b' := SetPriority(b, e, pri).0;
        if b' != b { FieldsKeep(b, e, b.evs[e].res, b.evs[e].due, pri); }
      case OpTake(i) =>
        TakeKeeps(b, i);
        b' := TakeFrom(b, i);
      case OpTimers(now, order) =>
        TimersExact(b, now, order);
        b' := ExpireAll(b, order);
      case OpClock(last, now) =>
        ClockKeeps(b, Sub(last, now));
        b' := if Later(last, now) then Corrected(b, Sub(last, now)) else b;
    }
  }

  lemma ClockKeeps(b: Base, d: Time)
    requires Books(b)
    ensures Books(Corrected(b, d))
  {
    hide Lengths;
    var b' := Corrected(b, d);
    SameWeights(b.evs, b'.evs);
    forall e | 0 <= e < |b'.evs| ensures EventOk(b', e) { assert EventOk(b, e); }
  }

  /** The operation o takes the base b to b', without ending the program. */
  ghost predicate Done(b: Base, o: Op, b': Base) {
    match o
    case OpAdd(e, tv, now, accepted) => Usable(b, e) && b' == AddEvent(b, e, tv, now, accepted).0
    case OpDel(e) => Usable(b, e) && b' == Del(b, e)
    case OpActive(e, res) => Usable(b, e) && b' == Activate(b, e, res)
    case OpPriority(e, pri) => Usable(b, e) && b' == SetPriority(b, e, pri).0
    case OpTake(i) =>
      && i < |b.active| && b.active[i] != [] && Usable(b, b.active[i][0]) && b.evs[b.active[i][0]].active
      && b' == TakeFrom(b, i)
    case OpTimers(now, order) => DueOrder(b, now, order) && b' == ExpireAll(b, order)
    case OpClock(last, now) => b' == if Later(last, now) then Corrected(b, Sub(last, now)) else b
  }

  ghost predicate Runs(b: Base, os: seq<Op>, b': Base)
    decreases |os|
  {
    if os == [] then b' == b
    else exists b1 :: CanDo(b, os[0]) && Done(b, os[0], b1) && Runs(b1, os[1..], b')
  }

  /** Events that have been set up and put on no queue */
  predicate Idle(b: Base) {
    && b.queue == [] && b.heap == {} && b.count == 0 && b.activeCount == 0
    && (forall i :: 0 <= i < |b.active| ==> b.active[i] == [])
    && forall e :: 0 <= e < |b.evs| ==>
         b.evs[e].pri < |b.active| && !b.evs[e].inserted && !b.evs[e].active && !b.evs[e].timed
  }

  lemma {:induction false} NoWeight(evs: seq<Ev>)
    requires forall e :: 0 <= e < |evs| ==> Weight(evs[e]) == 0
    ensures Total(evs) == 0
  {
    if evs != [] { NoWeight(evs[1..]); }
  }

  lemma IdleBooks(b: Base)
    requires Idle(b)
    ensures Books(b)
  {
    NoWeight(b.evs);
    AllEmpty(b.active);
  }

  lemma {:induction false} RunKeepsBooks(b: Base, os: seq<Op>, b': Base)
    requires Books(b) && Runs(b, os, b')
    ensures Books(b')
    decreases |os|
  {
    hide Books;
    if os != [] {
      var b1 :| CanDo(b, os[0]) && Done(b, os[0], b1) && Runs(b1, os[1..], b');
      var b2 := DoKeeps(b, os[0]);
      assert b2 == b1;
      RunKeepsBooks(b1, os[1..], b');
    }
  }

  /** In every run each flag is membership of its queue, exactly once, and the counters are exact; the loop
      ends just when no event is left, and looks for active events just when there are some. */
  lemma BooksBalance(b: Base, os: seq<Op>, b': Base)
    requires Idle(b) && Runs(b, os, b')
    ensures Books(b')
    ensures b'.activeCount != 0 <==> FirstBusy(b'.active, 0) < |b'.active|
    ensures b'.count > 0 <==> exists e :: 0 <= e < |b'.evs| && Weight(b'.evs[e]) > 0
  {
    IdleBooks(b);
    RunKeepsBooks(b, os, b');
    NoneBusy(b'.active);
    if forall e :: 0 <= e < |b'.evs| ==> Weight(b'.evs[e]) == 0 {
      NoWeight(b'.evs);
    } else {
      var e :| 0 <= e < |b'.evs| && Weight(b'.evs[e]) > 0;
      TotalAt(b'.evs, e);
    }
  }

  lemma {:induction false} TotalAt(evs: seq<Ev>, e: nat)
    requires e < |evs|
    ensures Total(evs) >= Weight(evs[e])
  {
    if e > 0 { TotalAt(evs[1..], e - 1); }
  }

  lemma HeapTimed(b: Base, e: nat)
    requires Books(b)
    ensures e in b.heap <==> e < |b.evs| && b.evs[e].timed
  {
    if e < |b.evs| { assert EventOk(b, e); }
  }

  lemma {:induction false} ExpireOneMore(b: Base, order: seq<nat>, e: nat)
    requires Books(b) && Distinct(order) && e < |b.evs| && forall x :: x in order ==> x < |b.evs|
    ensures |ExpireAll(b, order).evs| == |b.evs| && Usable(ExpireAll(b, order), e)
    ensures ExpireAll(b, order + [e]) == Expire(ExpireAll(b, order), e)
    decreases |order|
  {
    hide Books, Expire;
    UsableOk(b, e);
    if order == [] {
      assert order + [e] == [e] && [e][1..] == [];
    } else {
      assert order[0] in order && forall x :: x in order[1..] ==> x in order;
      ExpireShape(b, order[0]);
      assert (order + [e])[1..] == order[1..] + [e];
      ExpireOneMore(Expire(b, order[0]), order[1..], e);
    }
  }
}
