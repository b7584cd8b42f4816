/** What the operations of event.c do to an event, in terms of the queues it is on. */
module EventEffects {
  import opened Basics
  import opened Timeval
  import opened EventBook

  /** A queue after an event has been on it or not, and is now: it joins at the end, and the others keep their order. */
  function Queued(q: seq<nat>, e: nat, was: bool, on: bool): (r: seq<nat>) {
    if was == on then q else if on then q + [e] else Drop(q, {e})
  }

  /** Nothing but the event e has changed, and the queues follow its flags. */
  ghost predicate Follows(b: Base, e: nat, b': Base) {
    && e < |b.evs| == |b'.evs| && b'.evs == b.evs[e := b'.evs[e]] && b'.evs[e].pri == b.evs[e].pri
    && b'.queue == Queued(b.queue, e, b.evs[e].inserted, b'.evs[e].inserted)
    && |b'.active| == |b.active|
    && (forall i :: 0 <= i < |b.active| ==>
          b'.active[i] ==
          if i == b.evs[e].pri then Queued(b.active[i], e, b.evs[e].active, b'.evs[e].active) else b.active[i])
    && b'.heap == if b'.evs[e].timed then b.heap + {e} else b.heap - {e}
  }

  lemma FollowsTrans(b: Base, e: nat, b1: Base, b2: Base)
    requires Follows(b, e, b1) && Follows(b1, e, b2)
    requires b1.evs[e].inserted == b.evs[e].inserted || b1.evs[e].inserted == b2.evs[e].inserted
    requires b1.evs[e].active == b.evs[e].active || b1.evs[e].active == b2.evs[e].active
    ensures Follows(b, e, b2)
  {
    hide Drop;
  }

  lemma InsertFollows(b: Base, e: nat, q: Which)
    requires Books(b) && Usable(b, e) && !On(b.evs[e], q)
    ensures Follows(b, e, QueueInsert(b, e, q)) && QueueInsert(b, e, q).evs[e] == Mark(b.evs[e], q, true)
  {
    hide Total, Lengths, Members, Drop;
    assert EventOk(b, e);
  }

  lemma RemoveFollows(b: Base, e: nat, q: Which)
    requires Books(b) && Usable(b, e)
    ensures Follows(b, e, RemoveIf(b, e, q)) && RemoveIf(b, e, q).evs[e] == Mark(b.evs[e], q, false)
  {
    hide Total, Lengths, Members, Drop, Without;
    assert EventOk(b, e);
    RemoveShape(b, e, q);
  }

  /** Other fields than the flags and the priority have changed. */
  lemma FieldsFollow(b: Base, e: nat, res: set<Kind>, due: Time)
    requires Books(b) && Usable(b, e)
    ensures Follows(b, e, b.(evs := b.evs[e := b.evs[e].(res := res, due := due)]))
  {
    hide Total, Lengths, Members, Drop;
    assert EventOk(b, e);
  }

  /** event_del takes the event off all queues. */
  lemma DelIs(b: Base, e: nat)
    requires Books(b) && e < |b.evs|
    ensures Usable(b, e)
    ensures var b' := Del(b, e);
            Follows(b, e, b') && b'.evs[e] == b.evs[e].(inserted := false, active := false, timed := false)
  {
    hide Books, RemoveIf, Follows;
    DelKeeps(b, e);
    RemoveIfKeeps(b, e, Timeout);
    RemoveFollows(b, e, Timeout);
    var b1 := RemoveIf(b, e, Timeout);
    RemoveIfKeeps(b1, e, Active);
    RemoveFollows(b1, e, Active);
    var b2 := RemoveIf(b1, e, Active);
    RemoveFollows(b2, e, Inserted);
    FollowsTrans(b, e, b1, b2);
    FollowsTrans(b, e, b2, Del(b, e));
  }

  /** event_active makes the event active, at the end of the queue of its priority, with the results it already had. */
  lemma ActivateIs(b: Base, e: nat, res: set<Kind>)
    requires Books(b) && e < |b.evs|
    ensures Usable(b, e)
    ensures var ev := b.evs[e];
            var b' := Activate(b, e, res);
            Follows(b, e, b') && b'.evs[e] == ev.(active := true, res := if ev.active then ev.res + res else res)
  {
    hide Books, Follows, QueueInsert;
    UsableOk(b, e);
    var ev := b.evs[e];
    if ev.active {
      FieldsFollow(b, e, ev.res + res, ev.due);
    } else {
      FieldsFollow(b, e, res, ev.due);
      FieldsKeep(b, e, res, ev.due, ev.pri);
      var b1 := b.(evs := b.evs[e := ev.(res := res)]);
      InsertFollows(b1, e, Active);
      FollowsTrans(b, e, b1, QueueInsert(b1, e, Active));
    }
  }

  /** A timeout takes the place of an older one, and of what that one has made active. */
  lemma ScheduleIs(b: Base, e: nat, due: Time)
    requires Books(b) && e < |b.evs|
    ensures Usable(b, e)
    ensures var ev := b.evs[e];
            var b' := Schedule(b, e, due);
            && Follows(b, e, b')
            && b'.evs[e] == ev.(timed := true, due := due, active := ev.active && KTimeout !in ev.res)
  {
    hide Books, RemoveIf, Follows, QueueInsert;
    RemoveIfKeeps(b, e, Timeout);
    RemoveFollows(b, e, Timeout);
    var b1 := RemoveIf(b, e, Timeout);
    FollowsBound(b, e, b1);
    UsableOk(b1, e);
    var drop := b1.evs[e].active && KTimeout in b1.evs[e].res;
    var b2 := if drop then RemoveIf(b1, e, Active) else b1;
    if drop {
      RemoveIfKeeps(b1, e, Active);
      RemoveFollows(b1, e, Active);
      FollowsTrans(b, e, b1, b2);
      FollowsBound(b1, e, b2);
      DropIs(b1, e);
    }
    UsableOk(b2, e);
    FieldsKeep(b2, e, b2.evs[e].res, due, b2.evs[e].pri);
    FieldsFollow(b2, e, b2.evs[e].res, due);
    var b3 := b2.(evs := b2.evs[e := b2.evs[e].(due := due)]);
    InsertFollows(b3, e, Timeout);
    FollowsTrans(b, e, b2, b3);
    FollowsTrans(b, e, b3, QueueInsert(b3, e, Timeout));
  }

  lemma FollowsBound(b: Base, e: nat, b': Base)
    requires Follows(b, e, b')
    ensures e < |b'.evs|
  {}

  lemma DropIs(b: Base, e: nat)
    requires Usable(b, e) && b.evs[e].active
    ensures RemoveIf(b, e, Active) == QueueRemove(b, e, Active)
  {}

  /** event_add. An event that waits for I/O and is neither inserted nor active is offered to the backend. If that
      refuses it nothing changes; otherwise it joins the end of the queue. With a timeout it is due then, and no longer
      active because of an older one. */
  lemma AddIs(b: Base, e: nat, tv: Option<Time>, now: Time, accepted: bool)
    requires Books(b) && e < |b.evs|
    ensures Usable(b, e)
    ensures var ev, (b', res) := b.evs[e], AddEvent(b, e, tv, now, accepted);
            var asks := ev.io && !ev.inserted && !ev.active;
            if asks && !accepted then b' == b && res == -1
            else
              && res == 0 && Follows(b, e, b') && b'.evs[e].inserted == (ev.inserted || asks)
              && b'.evs[e] == match tv
                 case None => ev.(inserted := b'.evs[e].inserted)
                 case Some(t) => ev.(inserted := b'.evs[e].inserted, timed := true, due := Add(now, t),
                                     active := ev.active && KTimeout !in ev.res)
  {
    hide Books, Follows, QueueInsert, EventBook.Schedule;
    UsableOk(b, e);
    var ev := b.evs[e];
    var asks := ev.io && !ev.inserted && !ev.active;
    FieldsFollow(b, e, ev.res, ev.due);
    assert b.(evs := b.evs[e := ev.(res := ev.res, due := ev.due)]) == b;
    if !asks || accepted {
      if asks {
        InsertFollows(b, e, Inserted);
        InsertKeeps(b, e, Inserted);
      }
      var b1 := if asks then QueueInsert(b, e, Inserted) else b;
      FollowsBound(b, e, b1);
      if tv.Some? {
        ScheduleIs(b1, e, Add(now, tv.value));
        FollowsTrans(b, e, b1, EventBook.Schedule(b1, e, Add(now, tv.value)));
      }
    }
  }

  /** event_process_active takes the first event of a queue off it; an event that does not persist is deleted. */
  lemma TakeIs(b: Base, i: nat)
    requires Books(b) && i < |b.active| && b.active[i] != []
    ensures var e := b.active[i][0]; Usable(b, e) && b.evs[e].active && b.evs[e].pri == i
    ensures var e := b.active[i][0];
            var ev, b' := b.evs[e], TakeFrom(b, i);
            && Follows(b, e, b') && b'.active[i] == b.active[i][1..]
            && b'.evs[e] == if ev.persist then ev.(active := false)
                            else ev.(inserted := false, active := false, timed := false)
  {
    hide Books, Follows, Del, Drop;
    TakeKeeps(b, i);
    TakeOk(b, i);
    var e := b.active[i][0];
    PriorityOf(b, i);
    DelIs(b, e);
    RemoveFollows(b, e, Active);
    DropIs(b, e);
    FirstTaken(b, i, TakeFrom(b, i));
  }

  lemma PriorityOf(b: Base, i: nat)
    requires Books(b) && i < |b.active| && b.active[i] != [] && Usable(b, b.active[i][0])
    ensures b.evs[b.active[i][0]].pri == i && multiset(b.active[i])[b.active[i][0]] == 1
  {
    hide Total, Lengths, Members;
    var e := b.active[i][0];
    assert EventOk(b, e);
    assert e in multiset(b.active[i]);
  }

  lemma FirstTaken(b: Base, i: nat, b': Base)
    requires i < |b.active| && b.active[i] != [] && multiset(b.active[i])[b.active[i][0]] == 1
    requires Follows(b, b.active[i][0], b')
    requires var e := b.active[i][0]; b.evs[e].pri == i && b.evs[e].active && !b'.evs[e].active
    ensures b'.active[i] == b.active[i][1..]
  {
    hide Drop;
    var q, e := b.active[i], b.active[i][0];
    assert b'.active[i] == Queued(q, e, true, false);
    WithoutIsDrop(q, e);
  }

  /** event_priority_set gives the event its priority, unless it is active or there is no such queue. */
  lemma PriorityIs(b: Base, e: nat, pri: int)
    requires Books(b) && e < |b.evs|
    ensures Usable(b, e)
    ensures var (b', res) := SetPriority(b, e, pri);
            if !b.evs[e].active && 0 <= pri < |b.active|
            then res == 0 && b' == b.(evs := b.evs[e := b.evs[e].(pri := pri)])
            else res == -1 && b' == b
  {
    UsableOk(b, e);
  }
}
