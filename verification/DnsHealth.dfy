/** Which servers are down after an event: sending and searching do not change that, unless sendto fails, so that it is
    what the answer or the timeout itself says. */
module DnsHealth {

  import opened Basics
  import DnsNames
  import opened DnsServers
  import opened DnsRequests
  import opened DnsLookups

  // ---------- The ring ----------

  /** Where servers are apart, the one at a place is not among the others. */
  lemma ApartAt(q: seq<Server>, i: nat)
    requires |Ids(q)| == |q| && i < |q|
    ensures q[i].id !in Ids(q[..i]) && q[i].id !in Ids(q[i + 1..])
  {
    var a, b, x := Ids(q[..i]), Ids(q[i + 1..]), q[i].id;
    SplitAt(q, i);
    IdsBound(q[..i]);
    IdsBound(q[i + 1..]);
    assert |a + b| <= |a| + |b|;
    assert |(a + b) + {x}| <= |a + b| + (if x in a + b then 0 else 1);
    assert a + {x} + b == (a + b) + {x};
  }

  /** Where servers are apart, a server is found wherever it stands. */
  lemma FoundAt(r: Ring, k: nat)
    requires Apart(r) && k < |r.servers|
    ensures r.servers[k].id in Ids(r.servers) && At(r, r.servers[k].id) == r.servers[k]
  {
    hide Ids;
    var q, a := r.servers, r.servers[k].id;
    IdIn(q, k);
    if IndexOf(q, a) != k { OthersDiffer(q, k, IndexOf(q, a)); }
  }

  lemma OthersDiffer(q: seq<Server>, k: nat, j: nat)
    requires |Ids(q)| == |q| && k < |q| && j < |q| && j != k
    ensures q[j].id != q[k].id
  {
    hide Ids;
    ApartAt(q, k);
    if j < k {
      IdIn(q[..k], j);
    } else {
      IdIn(q[k + 1..], j - k - 1);
    }
  }

  lemma AtRotate(r: Ring, n: nat, good: int, a: nat)
    requires Apart(r) && n <= |r.servers| && a in Ids(r.servers)
    ensures var r' := Ring(Rotate(r.servers, n), good);
            Apart(r') && Ids(r'.servers) == Ids(r.servers) && At(r', a) == At(r, a)
  {
    hide Ids, UpCount, IndexOf;
    var q, r' := r.servers, Ring(Rotate(r.servers, n), good);
    RotateKeeps(q, n);
    var i := IndexOf(q, a);
    var k := if i < n then i + |q| - n else i - n;
    assert r'.servers[k] == q[i];
    FoundAt(r', k);
  }

  lemma AtPick(r: Ring, a: nat)
    requires Apart(r) && a in Ids(r.servers)
    ensures var r' := Pick(r).0; Apart(r') && Ids(r'.servers) == Ids(r.servers) && At(r', a) == At(r, a)
  {
    hide Ids, Rotate, At, Apart;
    var q := r.servers;
    if q != [] {
      AtRotate(r, 1, r.good, a);
      if FirstUp(q, 0) < |q| { AtRotate(r, FirstUp(q, 0) + 1, r.good, a); }
    }
  }

  lemma AtSet(r: Ring, s: Server, good: int, a: nat)
    requires Apart(r) && s.id in Ids(r.servers) && a in Ids(r.servers)
    ensures var r' := SetServer(r, s).(good := good);
            Apart(r') && Ids(r'.servers) == Ids(r.servers) && At(r', a) == if a == s.id then s else At(r, a)
  {
    hide Ids, UpCount, IndexOf;
    var r' := SetServer(r, s).(good := good);
    SetServerKeeps(r, s);
    var i, k := IndexOf(r.servers, a), IndexOf(r.servers, s.id);
    FoundAt(r', i);
    FoundAt(r', k);
  }

  // ---------- Steps that leave the servers alone ----------

  /** No send fails, and no server occurs twice. */
  ghost predicate Calm(s: State) {
    Apart(s.ring) && forall k :: 0 <= k < |s.sends| ==> s.sends[k] != SendFailed
  }

  /** The servers are as they were, but for what is said about their sockets, and no send fails later on either. */
  ghost predicate Steady(s: State, s': State) {
    Calm(s) ==>
      && Calm(s') && Ids(s'.ring.servers) == Ids(s.ring.servers)
      && forall a :: a in Ids(s.ring.servers) ==> Alike(At(s.ring, a), At(s'.ring, a))
  }

  /** The same, but for whether its socket is choked */
  predicate Alike(x: Server, y: Server) {
    y == x.(choked := y.choked)
  }

  lemma SteadyTrans(s: State, s1: State, s2: State)
    requires Steady(s, s1) && Steady(s1, s2)
    ensures Steady(s, s2)
  {
    hide Calm, Ids, At;
  }

  lemma SameSteady(s: State, s': State)
    requires s'.ring == s.ring && s'.sends == s.sends
    ensures Steady(s, s')
  {}

  lemma PickSteady(s: State)
    ensures Steady(s, PickNs(s).0)
  {
    hide Pick, Ids, At, Drift;
    PickKeepsRing(s.ring);
    if Calm(s) {
      forall a | a in Ids(s.ring.servers)
        ensures a in Ids(Pick(s.ring).0.servers) && At(Pick(s.ring).0, a) == At(s.ring, a)
      {
        AtPick(s.ring, a);
      }
    }
  }

  lemma SetSteady(s: State, server: Server)
    requires server.id in Ids(s.ring.servers) && Alike(At(s.ring, server.id), server)
    ensures Steady(s, s.(ring := SetServer(s.ring, server)))
  {
    hide IndexOf, At, Ids, Apart;
    if Calm(s) {
      AtSet(s.ring, server, s.ring.good, server.id);
      forall a | a in Ids(s.ring.servers)
        ensures a in Ids(SetServer(s.ring, server).servers) && Alike(At(s.ring, a), At(SetServer(s.ring, server), a))
      {
        AtSet(s.ring, server, SetServer(s.ring, server).good, a);
      }
    }
  }

  lemma TransmitSteady(s: State, i: nat)
    ensures Steady(s, Transmit(s, i))
  {
    hide NameserverFailed, SetServer, At, DownSet, Ids, Steady;
    SameSteady(s, s);
    if Assigned(s, i) {
      var s1 := SetReq(s, i, s.inflight[i].(transmitMe := true));
      var server := At(s.ring, s.inflight[i].ns.value);
      SameSteady(s, s1);
      if !server.choked && s.sends != [] {
        PopSteady(s, s1);
        var s2 := s1.(sends := s.sends[1..]);
        if s.sends[0] == Again {
          SetSteady(s2, server.(choked := true));
          SteadyTrans(s, s2, Transmit(s, i));
        } else if s.sends[0] == Sent {
          SameSteady(s2, Transmit(s, i));
          SteadyTrans(s, s2, Transmit(s, i));
        } else {
          StormSteady(s, Transmit(s, i));
        }
      } else if !server.choked {
        SameSteady(s, Transmit(s, i));
      }
    }
  }

  lemma PopSteady(s: State, s1: State)
    requires s.sends != [] && s1.ring == s.ring
    ensures Steady(s, s1.(sends := s.sends[1..]))
  {}

  lemma StormSteady(s: State, s': State)
    requires s.sends != [] && s.sends[0] == SendFailed
    ensures Steady(s, s')
  {}

  lemma {:induction false} TransmitAllSteady(s: State, i: nat)
    ensures Steady(s, TransmitAll(s, i))
    decreases |s.inflight| - i
  {
    hide Transmit, Steady;
    SameSteady(s, s);
    if i < |s.inflight| {
      var s1 := TransmitWaiting(s, i);
      if s.inflight[i].transmitMe { TransmitSteady(s, i); }
      TransmitAllSteady(s1, i + 1);
      SteadyTrans(s, s1, TransmitAll(s, i));
    }
  }

  lemma SubmitSteady(s: State, r: Request)
    ensures Steady(s, Submit(s, r))
  {
    hide Transmit, Steady;
    SameSteady(s, Enqueue(s, r));
    SameSteady(s, Launch(s, r));
    TransmitSteady(Launch(s, r), |s.inflight|);
    SteadyTrans(s, Launch(s, r), Transmit(Launch(s, r), |s.inflight|));
  }

  lemma PromoteSteady(s: State)
    requires s.waiting != []
    ensures Steady(s, Promote(s))
  {
    hide Transmit, TransmitAll, TakeId, Pick, Steady;
    var r := s.waiting[0];
    var s1 := s.(waiting := s.waiting[1..], nWaiting := s.nWaiting - 1);
    var (s2, ns) := PickNs(s1);
    var (s3, id) := TakeId(s2);
    var s4 := Launch(s3, r.(ns := ns, transId := id));
    var s5 := Transmit(s4, |s3.inflight|);
    SameSteady(s, s1);
    PickSteady(s1);
    SameSteady(s2, s4);
    TransmitSteady(s4, |s3.inflight|);
    TransmitAllSteady(s5, 0);
    SteadyTrans(s, s1, s2);
    SteadyTrans(s, s2, s4);
    SteadyTrans(s, s4, s5);
    SteadyTrans(s, s5, Promote(s));
  }

  lemma {:induction false} PumpSteady(s: State)
    ensures Steady(s, Pump(s))
    decreases |s.waiting|
  {
    hide Promote, Steady;
    SameSteady(s, s);
    if s.nInflight < s.opts.limit && s.nWaiting != 0 && s.waiting != [] {
      PromoteSteady(s);
      PumpSteady(Promote(s));
      SteadyTrans(s, Promote(s), Pump(s));
    }
  }

  lemma FinishedSteady(s: State, i: nat)
    requires i < |s.inflight|
    ensures Steady(s, Finished(s, i))
  {
    hide Pump, Steady;
    SameSteady(s, Remove(s, i));
    PumpSteady(Remove(s, i));
    SteadyTrans(s, Remove(s, i), Finished(s, i));
  }

  lemma RequestNewSteady(s: State, owner: Owner, qtype: QType, name: DnsNames.Text)
    ensures Steady(s, RequestNew(s, owner, qtype, name).0)
  {
    hide TakeId, Pick, Steady, NameOk;
    var s1 := TakeId(s).0;
    SameSteady(s, s);
    SameSteady(s, s1);
    PickSteady(s1);
    SteadyTrans(s, s1, PickNs(s1).0);
  }

  lemma ResolveSteady(s: State, qtype: QType, name: DnsNames.Text, noSearch: bool)
    ensures Steady(s, Resolve(s, qtype, name, noSearch))
  {
    hide RequestNew, Submit, Steady, FirstTry;
    var l, s0 := s.nextLookup, s.(nextLookup := s.nextLookup + 1);
    var (first, search) := FirstTry(s, name, noSearch || qtype == Ptr);
    var (s1, r) := RequestNew(s0, User(l), qtype, first);
    SameSteady(s, s0);
    RequestNewSteady(s0, User(l), qtype, first);
    SteadyTrans(s, s0, s1);
    if r.Some? {
      var s2 := Log(s1.(accepted := s1.accepted + {l}), User(l), first);
      SameSteady(s1, s2);
      SubmitSteady(s2, r.value.(search := search));
      SteadyTrans(s, s1, s2);
      SteadyTrans(s, s2, Resolve(s, qtype, name, noSearch));
    }
  }

  lemma {:induction false} ResolveAllSteady(s: State, calls: seq<Call>)
    ensures Steady(s, ResolveAll(s, calls))
    decreases |calls|
  {
    hide Resolve, Steady;
    SameSteady(s, s);
    if calls != [] {
      ResolveSteady(s, calls[0].qtype, calls[0].name, calls[0].noSearch);
      var s1 := Resolve(s, calls[0].qtype, calls[0].name, calls[0].noSearch);
      ResolveAllSteady(s1, calls[1..]);
      SteadyTrans(s, s1, ResolveAll(s, calls));
    }
  }

  /** The callback of a lookup, with whatever lookups it starts */
  lemma AnswerSteady(s: State, i: nat, err: Err)
    requires i < |s.inflight| && s.inflight[i].owner.User?
    ensures Steady(s, Answer(s, i, err))
  {
    hide ResolveAll, Steady;
    var s1 := Callback(s, i, err);
    SameSteady(s, s1);
    if s.calls != [] {
      var s2 := s1.(calls := s1.calls[1..]);
      SameSteady(s1, s2);
      ResolveAllSteady(s2, s.calls[0]);
      SteadyTrans(s, s1, s2);
      SteadyTrans(s, s2, Answer(s, i, err));
    }
  }

  lemma ConcludeSteady(s: State, i: nat, err: Err)
    requires i < |s.inflight| && s.inflight[i].owner.User?
    ensures Steady(s, Conclude(s, i, err))
  {
    hide Answer, Finished, Steady;
    AnswerSteady(s, i, err);
    FinishedSteady(Answer(s, i, err), i);
    SteadyTrans(s, Answer(s, i, err), Conclude(s, i, err));
  }

  lemma FailSteady(s: State, i: nat, err: Err)
    requires i < |s.inflight| && s.inflight[i].owner.User?
    ensures Steady(s, Fail(s, i, err))
  {
    hide RequestNew, NextTry, Conclude, Submit, Finished, Steady;
    var r := s.inflight[i];
    var next := if r.qtype == Ptr then None else NextTry(s, r.search);
    SameSteady(s, s);
    if next.Some? { RequestNewSteady(s, r.owner, r.qtype, next.value.0); }
    var (s1, r1) := SearchOn(s, i);
    if r1.None? {
      ConcludeSteady(s1, i, err);
      SteadyTrans(s, s1, Fail(s, i, err));
    } else {
      var s2 := Log(s1, r1.value.owner, r1.value.name);
      SameSteady(s1, s2);
      SubmitSteady(s2, r1.value);
      var s3 := Submit(s2, r1.value);
      FinishedSteady(s3, i);
      SteadyTrans(s, s1, s2);
      SteadyTrans(s, s2, s3);
      SteadyTrans(s, s3, Fail(s, i, err));
    }
  }

  // ---------- Steps that do not ----------

  /** What is known of the server a has become x, and the other servers are as they were. */
  ghost predicate Rated(s: State, s': State, a: nat, x: Server)
    requires a in Ids(s.ring.servers)
  {
    && Ids(s'.ring.servers) == Ids(s.ring.servers)
    && forall b :: b in Ids(s.ring.servers) ==> Alike(if b == a then x else At(s.ring, b), At(s'.ring, b))
  }

  lemma RatedSteady(s: State, s1: State, s2: State, a: nat, x: Server)
    requires a in Ids(s.ring.servers) && Rated(s, s1, a, x) && Calm(s1) && Steady(s1, s2)
    ensures Rated(s, s2, a, x) && Calm(s2)
  {
    hide Calm, Ids, At;
  }

  lemma SteadyRated(s: State, s': State, a: nat)
    requires a in Ids(s.ring.servers) && Calm(s) && Steady(s, s')
    ensures Rated(s, s', a, At(s.ring, a)) && Calm(s')
  {
    hide Calm, Ids, At;
  }

  lemma SetRated(s: State, x: Server, good: int)
    requires Calm(s) && x.id in Ids(s.ring.servers)
    ensures var s' := s.(ring := SetServer(s.ring, x).(good := good)); Calm(s') && Rated(s, s', x.id, x)
  {
    hide SetServer, At, Ids, Apart;
    var r' := SetServer(s.ring, x).(good := good);
    AtSet(s.ring, x, good, x.id);
    forall b | b in Ids(s.ring.servers)
      ensures b in Ids(r'.servers) && At(r', b) == if b == x.id then x else At(s.ring, b)
    {
      AtSet(s.ring, x, good, b);
    }
  }

  /** nameserver_up and nameserver_failed, as far as the server itself goes */
  function Revived(x: Server): (y: Server) {
    if x.up then x else x.(up := true, failedTimes := 0, timedout := 0)
  }

  function Fallen(x: Server): (y: Server) {
    if x.up then x.(up := false, failedTimes := 1) else x
  }

  lemma UpRates(s: State, a: nat)
    requires Calm(s) && a in Ids(s.ring.servers)
    ensures Calm(NameserverUp(s, a)) && Rated(s, NameserverUp(s, a), a, Revived(At(s.ring, a)))
  {
    hide SetServer, At, Ids, Apart;
    SameSteady(s, s);
    SteadyRated(s, s, a);
    SetRated(s, Revived(At(s.ring, a)), s.ring.good + 1);
  }

  lemma MoveSteady(s: State, a: nat, i: nat)
    requires i < |s.inflight|
    ensures Steady(s, MoveOn(s, a, i))
  {
    hide Pick, Steady;
    SameSteady(s, s);
    if s.inflight[i].sent == 0 && s.inflight[i].ns == Some(a) {
      PickSteady(s);
      SameSteady(PickNs(s).0, MoveOn(s, a, i));
      SteadyTrans(s, PickNs(s).0, MoveOn(s, a, i));
    }
  }

  lemma {:induction false} ReassignSteady(s: State, a: nat, i: nat)
    ensures Steady(s, Reassign(s, a, i))
    decreases |s.inflight| - i
  {
    hide MoveOn, Steady;
    SameSteady(s, s);
    if i < |s.inflight| {
      var s1 := MoveOn(s, a, i);
      MoveSteady(s, a, i);
      ReassignSteady(s1, a, i + 1);
      SteadyTrans(s, s1, Reassign(s, a, i));
    }
  }

  lemma FailedRates(s: State, a: nat)
    requires Calm(s) && a in Ids(s.ring.servers)
    ensures Calm(NameserverFailed(s, a)) && Rated(s, NameserverFailed(s, a), a, Fallen(At(s.ring, a)))
  {
    hide SetServer, At, Ids, Apart, Reassign, Steady, Calm;
    SameSteady(s, s);
    SteadyRated(s, s, a);
    if At(s.ring, a).up {
      SetRated(s, Fallen(At(s.ring, a)), s.ring.good - 1);
      var s1 := s.(ring := MarkDown(s.ring, a));
      ReassignSteady(s1, a, 0);
      RatedSteady(s, s1, Reassign(s1, a, 0), a, Fallen(At(s.ring, a)));
    }
  }

  lemma ReissueSteady(s: State, i: nat)
    requires i < |s.inflight|
    ensures Steady(s, Reissue(s, i).0)
  {
    hide Pick, Steady;
    PickSteady(s);
    SameSteady(PickNs(s).0, Reissue(s, i).0);
    SteadyTrans(s, PickNs(s).0, Reissue(s, i).0);
  }
}
