/** No request is forgotten, and the limit on requests in flight is kept: in every run each request in flight has its
    timer running or is marked for sending, and only probes go beyond the limit. */
module DnsAttention {

  import opened Basics
  import opened DnsNames
  import opened DnsServers
  import opened DnsRequests
  import opened DnsLookups
  import opened DnsReplies

  predicate Attended(r: Request) {
    r.armed || r.transmitMe
  }

  /** All requests in flight but the x-th */
  predicate AllAttended(s: State, x: int) {
    forall i :: 0 <= i < |s.inflight| && i != x ==> Attended(s.inflight[i])
  }

  function Max(a: int, b: int): (m: int) {
    if a < b then b else a
  }

  /** No request has been forgotten, there are servers or there are none as before, and the limit is kept. */
  ghost predicate Minds(s: State, s': State, x: int) {
    && (AllAttended(s, x) ==> AllAttended(s', x))
    && Ids(s'.ring.servers) == Ids(s.ring.servers) && s'.opts == s.opts
    && s'.nInflight <= Max(s.nInflight, s.opts.limit)
  }

  lemma MindsTrans(s: State, s1: State, s2: State, x: int)
    requires Minds(s, s1, x) && Minds(s1, s2, x)
    ensures Minds(s, s2, x)
  {
    hide AllAttended, Ids;
  }

  lemma SameMinds(s: State, s': State, x: int)
    requires s'.ring == s.ring && s'.inflight == s.inflight && s'.nInflight == s.nInflight && s'.opts == s.opts
    ensures Minds(s, s', x)
  {}

  lemma PickMinds(s: State, x: int)
    ensures Minds(s, PickNs(s).0, x)
    ensures PickNs(s).1.Some? ==> PickNs(s).1.value in Ids(s.ring.servers)
    ensures Ids(s.ring.servers) != {} ==> PickNs(s).1.Some?
  {
    hide Pick, Drift, Apart;
    PickKeepsRing(s.ring);
  }

  lemma FailedMinds(s: State, a: nat, x: int)
    ensures Minds(s, NameserverFailed(s, a), x)
  {
    hide Reassign, MarkDown, At, Ids;
    if a in Ids(s.ring.servers) {
      MarkIds(s.ring, a);
      ReassignIds(s.(ring := MarkDown(s.ring, a)), a, 0);
    }
    var s' := NameserverFailed(s, a);
    forall i | 0 <= i < |s'.inflight| && i != x && AllAttended(s, x) ensures Attended(s'.inflight[i]) {
      FailedOnlyServer(s, a, i);
    }
  }

  lemma MarkIds(r: Ring, a: nat)
    requires a in Ids(r.servers)
    ensures Ids(MarkDown(r, a).servers) == Ids(r.servers) && Ids(MarkUp(r, a).servers) == Ids(r.servers)
  {
    hide Ids, Drift, Apart, UpCount;
    MarkKeeps(r, a);
  }

  lemma {:induction false} ReassignIds(s: State, a: nat, i: nat)
    ensures Ids(Reassign(s, a, i).ring.servers) == Ids(s.ring.servers)
    decreases |s.inflight| - i
  {
    hide Pick, Ids, Drift, Apart;
    if i < |s.inflight| {
      PickKeepsRing(s.ring);
      ReassignIds(MoveOn(s, a, i), a, i + 1);
    }
  }

  /** Sending marks the request or starts its timer, and leaves the other requests their marks and timers. */
  lemma TransmitMinds(s: State, i: nat, x: int)
    requires i < |s.inflight| && (Assigned(s, i) || i == x || Attended(s.inflight[i]))
    requires forall k :: 0 <= k < |s.inflight| && k != i && k != x ==> Attended(s.inflight[k])
    ensures var s' := Transmit(s, i);
            && AllAttended(s', x) && Ids(s'.ring.servers) == Ids(s.ring.servers)
            && s'.opts == s.opts && s'.nInflight == s.nInflight
  {
    hide NameserverFailed, SetServer, At, Ids;
    if Assigned(s, i) {
      var s1 := SetReq(s, i, s.inflight[i].(transmitMe := true));
      var server := At(s.ring, s.inflight[i].ns.value);
      SetServerKeeps(s.ring, server.(choked := true));
      if s.sends != [] {
        var s2 := s1.(sends := s.sends[1..]);
        FailedMinds(s2, server.id, x);
      }
    }
  }

  lemma {:induction false} TransmitAllMinds(s: State, i: nat, x: int)
    requires AllAttended(s, x)
    ensures var s' := TransmitAll(s, i);
            && AllAttended(s', x) && Ids(s'.ring.servers) == Ids(s.ring.servers)
            && s'.opts == s.opts && s'.nInflight == s.nInflight
    decreases |s.inflight| - i
  {
    hide Transmit, Ids;
    if i < |s.inflight| {
      TransmitMinds(s, i, x);
      TransmitAllMinds(TransmitWaiting(s, i), i + 1, x);
    }
  }

  lemma LaunchMinds(s: State, r: Request, x: int)
    requires AllAttended(s, x) && r.ns.Some? && r.ns.value in Ids(s.ring.servers)
    ensures var s' := Transmit(Launch(s, r), |s.inflight|);
            && AllAttended(s', x) && Ids(s'.ring.servers) == Ids(s.ring.servers) && s'.opts == s.opts
            && s'.nInflight == s.nInflight + 1
  {
    hide Transmit, Ids;
    TransmitMinds(Launch(s, r), |s.inflight|, x);
  }

  /** A request that is submitted is in flight and attended to, or waits. */
  lemma SubmitMinds(s: State, r: Request, x: int)
    requires r.ns.Some? ==> r.ns.value in Ids(s.ring.servers)
    ensures AllAttended(s, x) ==>
              var s' := Submit(s, r);
              && AllAttended(s', x) && Ids(s'.ring.servers) == Ids(s.ring.servers) && s'.opts == s.opts
              && s'.nInflight == s.nInflight + if r.ns.Some? then 1 else 0
  {
    hide Transmit, Ids;
    if AllAttended(s, x) && r.ns.Some? { LaunchMinds(s, r, x); }
  }

  lemma PromoteMinds(s: State)
    requires s.waiting != [] && AllAttended(s, -1) && Ids(s.ring.servers) != {} && s.nInflight < s.opts.limit
    ensures Minds(s, Promote(s), -1)
  {
    hide Transmit, TransmitAll, TakeId, Pick, Ids;
    var r := s.waiting[0];
    var s1 := s.(waiting := s.waiting[1..], nWaiting := s.nWaiting - 1);
    PickMinds(s1, -1);
    var (s2, ns) := PickNs(s1);
    var (s3, id) := TakeId(s2);
    LaunchMinds(s3, r.(ns := ns, transId := id), -1);
    TransmitAllMinds(Transmit(Launch(s3, r.(ns := ns, transId := id)), |s3.inflight|), 0, -1);
  }

  lemma {:induction false} PumpMinds(s: State)
    requires AllAttended(s, -1) && (s.waiting == [] || Ids(s.ring.servers) != {})
    ensures Minds(s, Pump(s), -1)
    decreases |s.waiting|
  {
    hide Promote, Ids, AllAttended;
    SameMinds(s, s, -1);
    if s.nInflight < s.opts.limit && s.nWaiting != 0 && s.waiting != [] {
      PromoteMinds(s);
      PumpMinds(Promote(s));
      MindsTrans(s, Promote(s), Pump(s), -1);
    }
  }

  /** All requests in flight are attended to. */
  ghost predicate Done(s: State, s': State) {
    && AllAttended(s', -1)
    && Ids(s'.ring.servers) == Ids(s.ring.servers) && s'.opts == s.opts
    && s'.nInflight <= Max(s.nInflight, s.opts.limit)
  }

  lemma MindsDone(s: State, s1: State, s2: State, x: int)
    requires Minds(s, s1, x) && Done(s1, s2)
    ensures Done(s, s2)
  {
    hide AllAttended, Ids;
  }

  /** The request that goes need not be attended to. */
  lemma FinishedMinds(s: State, i: nat)
    requires i < |s.inflight| && AllAttended(s, i) && Ids(s.ring.servers) != {}
    ensures Done(s, Finished(s, i))
  {
    hide Pump, Ids;
    var s1 := Remove(s, i);
    forall k | 0 <= k < |s1.inflight| ensures Attended(s1.inflight[k]) {
      assert s1.inflight[k] == if k < i then s.inflight[k] else s.inflight[k + 1];
    }
    PumpMinds(s1);
  }

  lemma RequestNewMinds(s: State, owner: Owner, qtype: QType, name: Text, x: int)
    ensures var (s1, r) := RequestNew(s, owner, qtype, name);
            && Minds(s, s1, x) && s1.nInflight == s.nInflight && (AllAttended(s1, x) <==> AllAttended(s, x))
            && (r.Some? && r.value.ns.Some? ==> s.nInflight < s.opts.limit && r.value.ns.value in Ids(s1.ring.servers))
  {
    hide TakeId, Pick, NameOk, Ids;
    var s1 := if s.nInflight < s.opts.limit then TakeId(s).0 else s;
    SameMinds(s, s1, x);
    PickMinds(s1, x);
  }

  lemma ResolveMinds(s: State, qtype: QType, name: Text, noSearch: bool, x: int)
    requires AllAttended(s, x)
    ensures Minds(s, Resolve(s, qtype, name, noSearch), x)
  {
    hide RequestNew, Submit, FirstTry, Ids;
    var l, s0 := s.nextLookup, s.(nextLookup := s.nextLookup + 1);
    var (first, search) := FirstTry(s, name, noSearch || qtype == Ptr);
    var (s1, r) := RequestNew(s0, User(l), qtype, first);
    RequestNewMinds(s0, User(l), qtype, first, x);
    if r.Some? {
      SubmitMinds(Log(s1.(accepted := s1.accepted + {l}), User(l), first), r.value.(search := search), x);
    }
  }

  lemma {:induction false} ResolveAllMinds(s: State, calls: seq<Call>, x: int)
    requires AllAttended(s, x)
    ensures Minds(s, ResolveAll(s, calls), x)
    decreases |calls|
  {
    hide Resolve, Ids, AllAttended;
    SameMinds(s, s, x);
    if calls != [] {
      var s1 := Resolve(s, calls[0].qtype, calls[0].name, calls[0].noSearch);
      ResolveMinds(s, calls[0].qtype, calls[0].name, calls[0].noSearch, x);
      ResolveAllMinds(s1, calls[1..], x);
      MindsTrans(s, s1, ResolveAll(s, calls), x);
    }
  }

  lemma UpMinds(s: State, a: nat, x: int)
    ensures Minds(s, NameserverUp(s, a), x)
  {
    hide MarkUp, Ids;
    if a in Ids(s.ring.servers) { MarkIds(s.ring, a); }
  }

  lemma TouchMinds(s: State, server: Server, x: int)
    requires server.id in Ids(s.ring.servers)
    ensures Minds(s, s.(ring := SetServer(s.ring, server)), x)
  {
    hide SetServer, Ids;
    SetServerKeeps(s.ring, server);
  }

  lemma CallbackMinds(s: State, i: nat, err: Err, x: int)
    requires i < |s.inflight|
    ensures Minds(s, Callback(s, i, err), x)
  {
    hide NameserverUp, SetServer, At, Ids;
    SameMinds(s, s, x);
    if s.inflight[i].owner.Probe? {
      var a := s.inflight[i].owner.server;
      UpMinds(s, a, x);
      if a in Ids(s.ring.servers) { TouchMinds(s, At(s.ring, a).(failedTimes := At(s.ring, a).failedTimes + 1), x); }
    }
  }

  lemma AnswerMinds(s: State, i: nat, err: Err, x: int)
    requires i < |s.inflight| && AllAttended(s, x)
    ensures Minds(s, Answer(s, i, err), x)
  {
    hide Callback, ResolveAll, Ids;
    CallbackMinds(s, i, err, x);
    var s1 := Callback(s, i, err);
    if !s.inflight[i].owner.Probe? && s.calls != [] {
      var s2 := s1.(calls := s1.calls[1..]);
      SameMinds(s1, s2, x);
      ResolveAllMinds(s2, s.calls[0], x);
      MindsTrans(s, s1, s2, x);
      MindsTrans(s, s2, Answer(s, i, err), x);
    }
  }

  lemma ConcludeMinds(s: State, i: nat, err: Err)
    requires i < |s.inflight| && AllAttended(s, i) && Ids(s.ring.servers) != {}
    ensures Done(s, Conclude(s, i, err))
  {
    hide Answer, Finished, Ids;
    AnswerMinds(s, i, err, i);
    FinishedMinds(Answer(s, i, err), i);
    MindsDone(s, Answer(s, i, err), Conclude(s, i, err), i);
  }

  lemma FailMinds(s: State, i: nat, err: Err)
    requires i < |s.inflight| && AllAttended(s, i) && Ids(s.ring.servers) != {}
    ensures Done(s, Fail(s, i, err))
  {
    hide RequestNew, NextTry, Conclude, Submit, Finished, Ids;
    var r := s.inflight[i];
    var next := if r.qtype == Ptr then None else NextTry(s, r.search);
    SameMinds(s, s, i);
    if next.Some? { RequestNewMinds(s, r.owner, r.qtype, next.value.0, i); }
    var (s1, r1) := SearchOn(s, i);
    if r1.None? {
      ConcludeMinds(s1, i, err);
      MindsDone(s, s1, Fail(s, i, err), i);
    } else {
      var s2 := Log(s1, r1.value.owner, r1.value.name);
      SubmitMinds(s2, r1.value, i);
      var s3 := Submit(s2, r1.value);
      FinishedMinds(s3, i);
      MindsDone(s, s3, Fail(s, i, err), i);
    }
  }

  lemma ReissueMinds(s: State, i: nat, x: int)
    requires i < |s.inflight|
    ensures Minds(s, Reissue(s, i).0, x)
  {
    hide Pick, Ids;
    PickMinds(s, x);
  }

  // ---------- Events ----------

  lemma Exempt(s: State, i: nat)
    requires AllAttended(s, -1)
    ensures AllAttended(s, i)
  {}

  lemma MindsIs(s: State, s': State)
    requires AllAttended(s, -1) && Minds(s, s', -1)
    ensures Done(s, s')
  {}

  lemma HandleBadMinds(s: State, i: nat, flags: nat, answered: bool)
    requires Assigned(s, i) && AllAttended(s, -1) && IsError(flags, answered)
    ensures Done(s, ReplyHandle(s, i, flags, answered))
  {
    hide NameserverUp, NameserverFailed, Fail, Reissue, IsError, ErrorOf, Ids, AllAttended, Done, Minds;
    var a, err := s.inflight[i].ns.value, ErrorOf(flags);
    Exempt(s, i);
    HasIds(s, i);
    FailMinds(s, i, err);
    UpMinds(s, a, -1);
    var u := NameserverUp(s, a);
    DoneAt(s, u, i);
    FailMinds(u, i, err);
    MindsDone(s, u, Fail(u, i, err), -1);
    var s1 := NameserverFailed(s, a);
    FailedMinds(s, a, -1);
    ReissueMinds(s1, i, -1);
    var s2 := Reissue(s1, i).0;
    MindsTrans(s, s1, s2, -1);
    MindsIs(s, s2);
    DoneAt(s, s2, i);
    FailMinds(s2, i, err);
    MindsDone(s, s2, Fail(s2, i, err), -1);
  }

  lemma HasIds(s: State, i: nat)
    requires Assigned(s, i)
    ensures Ids(s.ring.servers) != {}
  {}

  lemma DoneAt(s: State, s': State, i: nat)
    requires AllAttended(s, -1) && Minds(s, s', -1) && Ids(s.ring.servers) != {}
    ensures AllAttended(s', -1) && AllAttended(s', i) && Ids(s'.ring.servers) != {}
  {}

  lemma HandleGoodMinds(s: State, i: nat, flags: nat, answered: bool)
    requires i < |s.inflight| && AllAttended(s, -1) && Ids(s.ring.servers) != {} && !IsError(flags, answered)
    ensures Done(s, ReplyHandle(s, i, flags, answered))
  {
    hide Answer, Finished, NameserverUp, IsError, Ids, AllAttended, Done, Minds;
    var s1 := Answer(s, i, NoErr);
    AnswerMinds(s, i, NoErr, -1);
    MindsIs(s, s1);
    if Assigned(s1, i) {
      var s2 := NameserverUp(s1, s1.inflight[i].ns.value);
      UpMinds(s1, s1.inflight[i].ns.value, -1);
      MindsTrans(s, s1, s2, -1);
      DoneAt(s, s2, i);
      FinishedMinds(s2, i);
      MindsDone(s, s2, Finished(s2, i), -1);
    }
  }

  lemma ReplyMinds(s: State, from: nat, id: TransId, flags: nat, answered: bool)
    requires from in Ids(s.ring.servers) && AllAttended(s, -1)
    ensures Done(s, Reply(s, from, id, flags, answered))
  {
    hide ReplyHandle, SetServer, At, Ids, FindId, AllAttended, IsError, Minds, Done;
    var server := At(s.ring, from).(timedout := 0);
    var s1 := s.(ring := SetServer(s.ring, server));
    TouchMinds(s, server, -1);
    MindsIs(s, s1);
    var i := FindId(s1.inflight, id, 0);
    if i < |s1.inflight| {
      DoneAt(s, s1, i);
      if !IsError(flags, answered) {
        HandleGoodMinds(s1, i, flags, answered);
      } else if Assigned(s1, i) {
        HandleBadMinds(s1, i, flags, answered);
      } else {
        NoServer(s1, i, flags, answered);
      }
      MindsDone(s, s1, ReplyHandle(s1, i, flags, answered), -1);
    }
  }

  lemma NoServer(s: State, i: nat, flags: nat, answered: bool)
    requires i < |s.inflight| && !Assigned(s, i) && IsError(flags, answered) && AllAttended(s, -1)
    ensures Done(s, ReplyHandle(s, i, flags, answered))
  {
    hide IsError, Ids, AllAttended;
  }

  lemma CountMinds(s: State, a: nat, x: int)
    requires a in Ids(s.ring.servers)
    ensures Minds(s, CountTimeout(s, a), x)
  {
    hide SetServer, At, NameserverFailed, Ids, AllAttended, Minds;
    var server := At(s.ring, a);
    var over := server.timedout + 1 > s.opts.maxTimeouts;
    var s1 := s.(ring := SetServer(s.ring, server.(timedout := if over then 0 else server.timedout + 1)));
    TouchMinds(s, server.(timedout := if over then 0 else server.timedout + 1), x);
    FailedMinds(s1, a, x);
    MindsTrans(s, s1, NameserverFailed(s1, a), x);
  }

  lemma TimeoutMinds(s: State, i: nat)
    requires Sound(s) && i < |s.inflight| && AllAttended(s, -1)
    ensures Done(s, Timeout(s, i))
  {
    hide Sound, CountTimeout, Transmit, Conclude, Ids, Quiet;
    RequestAt(s, i);
    var a := s.inflight[i].ns.value;
    var s2 := CountTimeout(s, a);
    CountMinds(s, a, -1);
    CountKeeps(s, a);
    QuietSound(s, s2);
    RequestAt(s2, i);
    var s3 := SetReq(s2, i, s2.inflight[i].(armed := false));
    HasIds(s2, i);
    if s3.inflight[i].sent >= s.opts.maxRetransmits {
      ConcludeMinds(s3, i, TimedOut);
    } else {
      TransmitMinds(s3, i, -1);
    }
  }

  lemma ProbeMinds(s: State, a: nat)
    requires a in Ids(s.ring.servers) && AllAttended(s, -1)
    ensures var s' := SendProbe(s, a);
            && AllAttended(s', -1) && s'.opts == s.opts && Ids(s'.ring.servers) == Ids(s.ring.servers)
            && s'.nInflight <= s.nInflight + 1
  {
    hide RequestNew, TakeId, Submit, Ids;
    RequestNewMinds(s, Probe(a), A, PROBE_NAME, -1);
    var (s1, r) := RequestNew(s, Probe(a), A, PROBE_NAME);
    if r.Some? {
      var (s2, id) := TakeId(s1);
      SubmitMinds(s2, r.value.(transId := id, ns := Some(a)), -1);
    }
  }

  /** Every event leaves all requests in flight attended to, and does not take them beyond the limit, or further beyond
      it, but for a probe. */
  lemma StepMinds(s: State, e: Event, w: World)
    requires Sound(s) && Enabled(s, e) && AllAttended(s, -1)
    ensures var s' := Step(s, e, w);
            && AllAttended(s', -1)
            && s'.nInflight <= Max(s.nInflight, s'.opts.limit) + if e.ProbeTimer? then 1 else 0
  {
    hide Sound, Ids, Reply, Timeout, SendProbe, Resolve, Pump, TransmitAll, NameserverFailed, Suspended, SetServer, At,
         AddServer, SetGlobal, WithGlobal, LooseProbe, DownSet;
    var s0 := s.(ids := w.ids, sends := w.sends, calls := w.calls);
    WorldKeeps(s, w);
    match e {
      case ResolveName(t, name, noSearch) => ResolveMinds(s0, t, name, noSearch, -1);
      case ReplyFrom(from, id, flags, answered) => ReplyMinds(s0, from, id, flags, answered);
      case RequestTimer(i) => TimeoutMinds(s0, i);
      case ProbeTimer(a) => ProbeMinds(s0, a);
      case Writable(a) =>
        TouchMinds(s0, At(s.ring, a).(choked := false), -1);
        TransmitAllMinds(s0.(ring := SetServer(s0.ring, At(s.ring, a).(choked := false))), 0, -1);
      case ReadError(a) => FailedMinds(s0, a, -1);
      case Resume =>
        if s.ring.servers != [] { IdIn(s.ring.servers, 0); }
        PumpMinds(s0);
      case SearchAdd(d) =>
        var g := Global(WithGlobal(s0));
        GlobalMinds(s0, g.(domains := [StripDots(d)] + g.domains));
      case SearchNdots(n) => GlobalMinds(s0, Global(WithGlobal(s0)).(ndots := n));
      case _ => Counters(s0);
    }
  }

  lemma GlobalMinds(s: State, st: SearchState)
    ensures var s' := SetGlobal(WithGlobal(s), st);
            s'.inflight == s.inflight && s'.nInflight == s.nInflight && s'.opts == s.opts
  {}

  // ---------- Runs ----------

  lemma {:induction false} RunMinds(s: State, moves: seq<Move>, s': State)
    requires Inv(s) && AllAttended(s, -1) && Runs(s, moves, s')
    ensures AllAttended(s', -1)
    decreases |moves|
  {
    hide Inv, Step, Enabled, AllAttended;
    if moves != [] {
      InvIsSound(s);
      StepMinds(s, moves[0].event, moves[0].world);
      StepKeeps(s, moves[0].event, moves[0].world);
      RunMinds(Step(s, moves[0].event, moves[0].world), moves[1..], s');
    }
  }

  lemma InvIsSound(s: State)
    requires Inv(s)
    ensures Sound(s)
  {}

  /** In every run each request in flight has its timer running, or is marked to be sent. */
  lemma NoneForgotten(moves: seq<Move>, s: State)
    requires Runs(Initial(), moves, s)
    ensures forall i :: 0 <= i < |s.inflight| ==> s.inflight[i].armed || s.inflight[i].transmitMe
  {
    hide Inv, Runs;
    Starts();
    RunMinds(Initial(), moves, s);
  }

  /** Runs without probes that leave the options alone */
  ghost predicate Plain(moves: seq<Move>) {
    forall i :: 0 <= i < |moves| ==> !moves[i].event.ProbeTimer? && !moves[i].event.SetOptions?
  }

  lemma {:induction false} RunLimited(s: State, moves: seq<Move>, s': State)
    requires Inv(s) && AllAttended(s, -1) && s.nInflight <= s.opts.limit && Plain(moves) && Runs(s, moves, s')
    ensures s'.nInflight <= s'.opts.limit && s'.opts == s.opts
    decreases |moves|
  {
    hide Inv, Step, Enabled, AllAttended;
    if moves != [] {
      var e := moves[0].event;
      InvIsSound(s);
      StepMinds(s, e, moves[0].world);
      StepKeeps(s, e, moves[0].world);
      StepOptions(s, e, moves[0].world);
      assert Plain(moves[1..]);
      RunLimited(Step(s, e, moves[0].world), moves[1..], s');
    }
  }

  lemma StepOptions(s: State, e: Event, w: World)
    requires Enabled(s, e)
    ensures Step(s, e, w).opts == if e.SetOptions? then Clipped(e.opts) else s.opts
  {
    hide Reply, Timeout, SendProbe, Resolve, Pump, TransmitAll, NameserverFailed, Suspended, SetServer, At, AddServer,
         LooseProbe, DownSet, Ids;
  }

  /** In every run in which no probe is sent and no option is set there are at most as many requests in flight as the
      limit allows. */
  lemma LimitIsKept(moves: seq<Move>, s: State)
    requires Runs(Initial(), moves, s) && Plain(moves)
    ensures |s.inflight| <= DEFAULTS.limit
  {
    hide Inv, Runs;
    Starts();
    RunKeeps(Initial(), moves, s);
    QueuesOf(s);
    RunLimited(Initial(), moves, s);
  }
}
