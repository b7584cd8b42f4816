/** The order of the queues: requests go in flight in the order in which they wait, as many as the limit allows, and
    suspending puts them back. */
module DnsQueues {

  import opened Basics
  import opened DnsNames
  import opened DnsServers
  import opened DnsRequests
  import opened DnsLookups
  import opened DnsReplies

  /** What the requests of a queue ask, in order */
  function Asks(q: seq<Request>): (asks: seq<Item>)
    ensures |asks| == |q| && forall i :: 0 <= i < |q| ==> asks[i] == AskOf(q[i])
  {
    seq(|q|, i requires 0 <= i < |q| => AskOf(q[i]))
  }

  /** All that is asked: the requests in flight and behind them those that wait */
  function Line(s: State): (asks: seq<Item>) {
    Asks(s.inflight) + Asks(s.waiting)
  }

  lemma FrameAsks(s: State, s': State)
    requires Frame(s, s')
    ensures Asks(s'.inflight) == Asks(s.inflight)
  {
    forall i | 0 <= i < |s.inflight| ensures AskOf(s'.inflight[i]) == AskOf(s.inflight[i]) {
      assert SameKey(s.inflight[i], s'.inflight[i]);
    }
  }

  lemma PromoteOrder(s: State)
    requires s.waiting != []
    ensures Line(Promote(s)) == Line(s)
    ensures Promote(s).nInflight == s.nInflight + 1 && |Promote(s).inflight| == |s.inflight| + 1
  {
    hide Pick, TakeId, Transmit, TransmitAll, Asks;
    var r := s.waiting[0];
    var s1 := s.(waiting := s.waiting[1..], nWaiting := s.nWaiting - 1);
    var (s2, ns) := PickNs(s1);
    var (s3, id) := TakeId(s2);
    var s4 := Launch(s3, r.(ns := ns, transId := id));
    var s5 := Transmit(s4, |s3.inflight|);
    FrameAsks(s4, s5);
    FrameAsks(s5, TransmitAll(s5, 0));
    assert Asks(s4.inflight) == Asks(s.inflight) + [AskOf(r)];
    assert Asks(s.waiting) == [AskOf(r)] + Asks(s.waiting[1..]);
  }

  lemma {:induction false} PumpOrder(s: State)
    requires s.nInflight == |s.inflight|
    ensures Line(Pump(s)) == Line(s) && |s.inflight| <= |Pump(s).inflight|
    ensures |Pump(s).inflight| <= s.opts.limit || Pump(s) == s
    decreases |s.waiting|
  {
    hide Promote, Line;
    if s.nInflight < s.opts.limit && s.nWaiting != 0 && s.waiting != [] {
      PromoteOrder(s);
      PumpOrder(Promote(s));
    }
  }

  /** No request waits while the limit leaves room. */
  predicate Full(s: State) {
    s.waiting == [] || |s.inflight| >= s.opts.limit
  }

  lemma PumpedIsFull(s: State)
    requires Sound(s) && Pumped(s)
    ensures Full(s)
  {
    hide Sound;
    Counters(s);
  }

  /** Resuming sends the requests that wait, first come first served, until the limit is reached. */
  lemma ResumeIsFair(s: State, w: World)
    requires Sound(s) && Enabled(s, Resume)
    ensures var s' := Step(s, Resume, w);
            && Line(s') == Line(s) && Full(s') && |s.inflight| <= |s'.inflight|
            && (|s'.inflight| <= s.opts.limit || s'.inflight == s.inflight)
  {
    hide Sound, Ledger, Pump, Ids, Apart, Drift, Line;
    WorldKeeps(s, w);
    var s0 := s.(ids := w.ids, sends := w.sends, calls := w.calls);
    PumpKeeps(s0);
    PumpedIsFull(Pump(s0));
    Counters(s);
    LineOf(s, s0);
    PumpOrder(s0);
  }

  // ---------- A request that leaves ----------

  /** The place that a request leaves is given to one that waits: after an answer, whatever it says and whatever the
      world decides, none waits while the limit leaves room, unless the request that was answered stays in flight. */
  lemma RoomIsUsed(s: State, i: nat, from: nat, flags: nat, answered: bool, w: World)
    requires Sound(s) && i < |s.inflight| && from in Ids(s.ring.servers) && IsAnswer(flags)
    ensures var s' := Step(s, ReplyFrom(from, s.inflight[i].transId, flags, answered), w);
            Full(s') || (|s'.inflight| == |s.inflight| && SameKey(s.inflight[i], s'.inflight[i]))
  {
    hide Sound, Ledger, Heard, Step, Ids, IsError, ErrorOf, ReplyHandle, Full, SameKey;
    var s1 := Heard(s, from, w);
    HeardKeeps(s, from, w);
    ReplyReaches(s, i, from, flags, answered, w);
    HandleMakesRoom(s1, i, flags, answered);
  }

  lemma HandleMakesRoom(s: State, i: nat, flags: nat, answered: bool)
    requires Sound(s) && i < |s.inflight|
    ensures var s' := ReplyHandle(s, i, flags, answered);
            Full(s') || (|s'.inflight| == |s.inflight| && SameKey(s.inflight[i], s'.inflight[i]))
  {
    hide Sound, Ledger, Ids, IsError, ErrorOf, Full, Answer, Finished, NameserverUp, NameserverFailed, Fail, Settled,
         Concluded, NextAsk, FailsOver, Pumped, SameKey, Reissue, Frame;
    RequestAt(s, i);
    var a, err := s.inflight[i].ns.value, ErrorOf(flags);
    if !IsError(flags, answered) {
      AcceptKeeps(s, i);
      SettledSound(s, ReplyAccepted(s, i));
      PumpedIsFull(ReplyAccepted(s, i));
    } else if (err == NotImpl || err == Refused) && s.inflight[i].reissues < s.opts.maxReissues {
      FailedKeeps(s, a);
      var s1 := NameserverFailed(s, a);
      QuietSound(s, s1);
      FrameAt(s, s1, i);
      ReissueKeeps(s1, i);
      var (s2, moved) := Reissue(s1, i);
      QuietSound(s1, s2);
      FrameAt(s1, s2, i);
      KeyTrans(s.inflight[i], s1.inflight[i], s2.inflight[i]);
      if !moved { FailIsFull(s2, i, err); }
    } else if err == NotImpl || err == Refused || err == ServerFailed {
      FailIsFull(s, i, err);
    } else {
      UpKeeps(s, a);
      var s1 := NameserverUp(s, a);
      QuietSound(s, s1);
      FrameAt(s, s1, i);
      FailIsFull(s1, i, err);
    }
  }

  lemma FailIsFull(s: State, i: nat, err: Err)
    requires Sound(s) && i < |s.inflight|
    ensures Full(Fail(s, i, err))
  {
    hide Sound, Ledger, Fail, Settled, Concluded, NextAsk, FailsOver, Full, Pumped;
    FailKeeps(s, i, err);
    SettledSound(s, Fail(s, i, err));
    PumpedIsFull(Fail(s, i, err));
  }

  lemma SettledSound(s: State, s': State)
    requires Settled(s, s')
    ensures Sound(s')
  {}

  lemma FrameAt(s: State, s': State, i: nat)
    requires Frame(s, s') && i < |s.inflight|
    ensures |s'.inflight| == |s.inflight| && SameKey(s.inflight[i], s'.inflight[i])
  {}

  lemma KeyTrans(r: Request, r1: Request, r2: Request)
    requires SameKey(r, r1) && SameKey(r1, r2)
    ensures SameKey(r, r2)
  {}

  /** A good answer whose callback starts no lookup takes its request out of the line, and leaves the others in their
      order. */
  lemma AnsweredLeavesLine(s: State, i: nat, from: nat, flags: nat, w: World)
    requires Sound(s) && i < |s.inflight| && from in Ids(s.ring.servers) && IsAnswer(flags) && !Bad(flags, true)
    requires w.calls == []
    ensures Line(Step(s, ReplyFrom(from, s.inflight[i].transId, flags, true), w)) == Line(s)[..i] + Line(s)[i + 1..]
  {
    hide Sound, Ledger, Heard, Step, Ids, IsError, Bad, Finished, NameserverUp, Callback, Line;
    var s1 := Heard(s, from, w);
    HeardKeeps(s, from, w);
    QuietSound(s, s1);
    FailureIs(flags, true);
    ReplyReaches(s, i, from, flags, true, w);
    HeardSame(s, from, w);
    var s2 := Callback(s1, i, NoErr);
    CallbackNotes(s1, i, NoErr);
    NotedBound(s1, s2, i, NoErr);
    RequestAt(s2, i);
    var s3 := NameserverUp(s2, s2.inflight[i].ns.value);
    UpQueues(s2, s2.inflight[i].ns.value);
    Counters(s2);
    FinishedOrder(s3, i);
    LineOf(s, s3);
  }

  lemma HeardSame(s: State, from: nat, w: World)
    requires from in Ids(s.ring.servers)
    ensures var s1 := Heard(s, from, w); s1.calls == w.calls && s1.inflight == s.inflight && s1.waiting == s.waiting
  {
    hide SetServer, At, Ids;
  }

  lemma UpQueues(s: State, a: nat)
    ensures var s' := NameserverUp(s, a);
            s'.inflight == s.inflight && s'.waiting == s.waiting && s'.nInflight == s.nInflight
  {
    hide MarkUp, Ids;
  }

  lemma LineOf(s: State, s': State)
    requires s'.inflight == s.inflight && s'.waiting == s.waiting
    ensures Line(s') == Line(s)
  {}

  lemma FinishedOrder(s: State, i: nat)
    requires i < |s.inflight| && s.nInflight == |s.inflight|
    ensures |Line(s)| == |s.inflight| + |s.waiting| && Line(Finished(s, i)) == Line(s)[..i] + Line(s)[i + 1..]
  {
    hide Pump, Asks;
    var s1 := Remove(s, i);
    PumpOrder(s1);
    assert Asks(s1.inflight) == Asks(s.inflight)[..i] + Asks(s.inflight)[i + 1..];
  }

  // ---------- The lookups a callback starts ----------

  /** The lookup is taken on. */
  predicate Accepts(s: State, c: Call) {
    NameOk(FirstTry(s, c.name, c.noSearch || c.qtype == Ptr).0)
  }

  lemma AcceptsSame(s: State, s': State, c: Call)
    requires s'.searches == s.searches && s'.globalSearch == s.globalSearch
    ensures Accepts(s', c) == Accepts(s, c)
  {}

  lemma ResolveStarts(s: State, c: Call)
    ensures var s' := Resolve(s, c.qtype, c.name, c.noSearch);
            && s'.nextLookup == s.nextLookup + 1
            && s'.accepted == s.accepted + if Accepts(s, c) then {s.nextLookup} else {}
  {
    hide TakeId, Pick, Submit, FirstTry, NameOk;
  }

  lemma {:induction false} ResolveAllStarts(s: State, calls: seq<Call>)
    requires forall l :: l in s.accepted ==> l < s.nextLookup
    ensures var s' := ResolveAll(s, calls);
            && s'.nextLookup == s.nextLookup + |calls|
            && (forall l :: l < s.nextLookup ==> (l in s'.accepted <==> l in s.accepted))
            && (forall k :: 0 <= k < |calls| ==> (s.nextLookup + k in s'.accepted <==> Accepts(s, calls[k])))
    decreases |calls|
  {
    hide Resolve, Accepts;
    if calls != [] {
      var s1 := Resolve(s, calls[0].qtype, calls[0].name, calls[0].noSearch);
      ResolveStarts(s, calls[0]);
      ResolveAllStarts(s1, calls[1..]);
      var s' := ResolveAll(s, calls);
      forall k | 0 <= k < |calls| ensures s.nextLookup + k in s'.accepted <==> Accepts(s, calls[k]) {
        AcceptsSame(s, s1, calls[k]);
        if k > 0 {
          assert calls[k] == calls[1..][k - 1];
          assert s.nextLookup + k == s1.nextLookup + (k - 1);
        }
      }
    }
  }

  /** What the callback of a lookup starts is taken on before the answer has been dealt with: every lookup gets the next
      number, and is accepted if and only if its first name is. */
  lemma CallbackStarts(s: State, i: nat, l: nat, from: nat, flags: nat, w: World)
    requires Sound(s) && i < |s.inflight| && s.inflight[i].owner == User(l)
    requires from in Ids(s.ring.servers) && IsAnswer(flags) && !Bad(flags, true)
    ensures var s' := Step(s, ReplyFrom(from, s.inflight[i].transId, flags, true), w);
            var calls := if w.calls == [] then [] else w.calls[0];
            && s'.nextLookup == s.nextLookup + |calls|
            && forall k :: 0 <= k < |calls| ==> (s.nextLookup + k in s'.accepted <==> Accepts(s, calls[k]))
  {
    hide Sound, Ledger, Step, Ids, IsError, Bad, Finished, NameserverUp, ResolveAll, Accepts, SetServer, At;
    var s1 := Heard(s, from, w);
    HeardKeeps(s, from, w);
    QuietSound(s, s1);
    FailureIs(flags, true);
    ReplyReaches(s, i, from, flags, true, w);
    var s2 := Callback(s1, i, NoErr);
    var s3 := Answer(s1, i, NoErr);
    AnswerKeeps(s1, i, NoErr);
    NotedBound(s1, s3, i, NoErr);
    RequestAt(s3, i);
    AcceptedBelow(s1);
    if w.calls != [] {
      ResolveAllStarts(s2.(calls := s2.calls[1..]), w.calls[0]);
      forall c ensures Accepts(s2.(calls := s2.calls[1..]), c) == Accepts(s, c) {
        AcceptsSame(s, s2.(calls := s2.calls[1..]), c);
      }
    }
    UpQueues(s3, s3.inflight[i].ns.value);
  }

  lemma AcceptedBelow(s: State)
    requires Sound(s)
    ensures forall l :: l in s.accepted ==> l < s.nextLookup
  {}

  // ---------- Suspending ----------

  /** As a request is before it is first sent */
  function Unsent(r: Request): (r': Request) {
    Request(r.owner, r.qtype, r.name, 0, 0, None, 0, false, false, r.search)
  }

  lemma {:induction false} ReversedAt(q: seq<Request>, k: nat)
    requires k < |q|
    ensures |Reversed(q)| == |q| && Reversed(q)[k] == Unsent(q[|q| - 1 - k])
  {
    if |q| > 1 { ReversedAt(q[1..], if k < |q| - 1 then k else 0); }
  }

  /** Suspending loses no request: those in flight wait again as if they had never been sent, the last one first, and
      before all that waited. */
  lemma SuspendedWait(s: State, w: World)
    requires Sound(s) && s.ring.servers != []
    ensures var s' := Step(s, SuspendAll, w);
            var n := |s.inflight|;
            && s'.inflight == [] && s'.ring.servers == [] && |s'.waiting| == n + |s.waiting|
            && (forall k :: 0 <= k < n ==> s'.waiting[k] == Unsent(s.inflight[n - 1 - k]))
            && s'.waiting[n..] == s.waiting
  {
    hide Sound, Suspend, Reversed, Unsent, Ledger;
    WorldKeeps(s, w);
    var s0 := s.(ids := w.ids, sends := w.sends, calls := w.calls);
    SuspendKeeps(s0);
    ReversedLength(s.inflight);
    forall k | 0 <= k < |s.inflight| ensures Reversed(s.inflight)[k] == Unsent(s.inflight[|s.inflight| - 1 - k]) {
      ReversedAt(s.inflight, k);
    }
    assert (Reversed(s.inflight) + s.waiting)[|s.inflight|..] == s.waiting;
  }

  lemma ReversedLength(q: seq<Request>)
    ensures |Reversed(q)| == |q|
  {
    if q != [] { ReversedAt(q, 0); }
  }
}
