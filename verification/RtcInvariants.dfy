/** What every step of a session keeps, and what the connection learns from each. */
module RtcInvariants {
  import opened RtcSession

  function TRank(t: TState): (n: nat) {
    match t
    case TInitial => 0
    case TStarted => 0
    case TGathered => 1
    case TReady => 2
    case TFailed => 3
    case TFinished => 4
  }

  function CRank(c: CState): (n: nat) {
    match c
    case CInitial => 0
    case CStarted => 1
    case CGathered => 2
    case CReady => 3
    case CFailed => 4
    case CFinished => 5
  }

  predicate RisingIce(trail: seq<IceState>) {
    forall a, b :: 0 <= a < b < |trail| ==> IceRank(trail[a]) < IceRank(trail[b])
  }

  /** READY was entered with every component ready; FAILED with every component failed, and after the last candidate or
      after READY. */
  predicate Earned(i: Ice) {
    && (IceReady in i.trail ==> AllComps(i.atReady, i.components, IceReady))
    && (IceFailed in i.trail ==>
          AllComps(i.atFailed, i.components, IceFailed) && (i.lastAtFailed || IceReady in i.trail))
  }

  predicate IceOk(i: Ice) {
    && RisingIce(i.trail)
    && IceInitial !in i.trail
    && (if i.trail == [] then i.state == IceInitial else i.state == i.trail[|i.trail| - 1])
    && i.components == 1
    && Earned(i)
  }

  predicate Untouched(t: Transport) {
    t.state == TInitial && !t.rtpDone && !t.rtcpDone && !t.started && !t.timer
  }

  predicate TransportOk(cfg: Config, t: Transport) {
    && IceOk(t.ice)
    && t.hasRtcp == !cfg.rtcpMux
    && t.server == cfg.server
    && t.state != TStarted
    && !t.rtcpDone
    && (t.ice.trail == [] && t.running ==> Untouched(t))
    && (t.rtpDone || t.started || t.timer ==> IceReady in t.ice.trail)
    && (t.readyRtp ==> t.rtpDone && t.srtp == Channel(true))
    && (t.readyRtcp ==> t.rtpDone && !t.hasRtcp)
    && (t.readyRtp && t.readyRtcp ==> TRank(t.state) >= 2)
    && (t.state == TReady ==> t.readyRtp && t.readyRtcp)
    && (t.state == TFailed && t.running ==> t.rtpDone && !t.readyRtp)
    && (t.state == TFinished ==> !t.running && !t.timer)
  }

  predicate TransportsOk(s: Sys) {
    s.ts.Keys == s.cfg.present && forall m :: m in s.ts ==> TransportOk(s.cfg, s.ts[m])
  }

  predicate First(q: seq<Task>, k: nat)
    requires k < |q|
  {
    forall j :: 0 <= j < k ==> q[j].medium != q[k].medium
  }

  /** A waiting task was caused by what its transport's ICE connection went through. A waiting report of
      gathered candidates is the first task of its transport, which nothing has touched yet. */
  predicate TaskOk(s: Sys, k: nat)
    requires k < |s.queue|
  {
    && s.queue[k].medium in s.ts
    && var t := s.ts[s.queue[k].medium];
       match s.queue[k]
       case IceUpdate(_, i) =>
         && i in t.ice.trail
         && (i == CandidatesReceived ==> First(s.queue, k) && (t.running ==> Untouched(t)))
       case Received(_, comp, _, _) => IceReady in t.ice.trail && comp == 1
  }

  predicate QueueOk(s: Sys) {
    forall k :: 0 <= k < |s.queue| ==> TaskOk(s, k)
  }

  predicate ConnOk(s: Sys) {
    && s.conn.state != CStarted
    && (s.conn.state == CReady ==> s.cfg.rtcpMux)
    && (s.conn.state == CFailed ==> !s.conn.sending)
    && (s.conn.state == CFinished ==>
          !s.conn.sending && !s.conn.listener && forall m :: m in s.ts ==> s.ts[m].state == TFinished)
    && (s.conn.state != CFinished ==> s.conn.listener && forall m :: m in s.ts ==> s.ts[m].state != TFinished)
  }

  ghost predicate Inv(s: Sys) {
    TransportsOk(s) && QueueOk(s) && ConnOk(s)
  }

  /** No report of gathered candidates waits for a transport that still runs. */
  predicate Calm(s: Sys, m: Medium)
    requires m in s.ts
  {
    s.ts[m].running ==> forall k :: 0 <= k < |s.queue| ==> s.queue[k] != IceUpdate(m, CandidatesReceived)
  }

  /** Nothing but the transport m has moved, and that one not backwards. */
  predicate Advances(s: Sys, m: Medium, s': Sys)
    requires m in s.ts
  {
    && s'.cfg == s.cfg && s'.queue == s.queue
    && m in s'.ts && s'.ts == s.ts[m := s'.ts[m]]
    && TRank(s.ts[m].state) <= TRank(s'.ts[m].state)
    && s'.ts[m].ice == s.ts[m].ice
  }

  lemma PutKeepsQueue(s: Sys, m: Medium, t: Transport)
    requires QueueOk(s) && m in s.ts
    requires s.ts[m].ice.trail <= t.ice.trail && (t.running ==> s.ts[m].running)
    requires Calm(s, m)
    ensures QueueOk(Put(s, m, t))
  {
    var s' := Put(s, m, t);
    forall k | 0 <= k < |s'.queue| ensures TaskOk(s', k) {
      assert TaskOk(s, k);
    }
  }

  lemma PutKeepsTransports(s: Sys, m: Medium, t: Transport)
    requires TransportsOk(s) && m in s.ts && TransportOk(s.cfg, t)
    ensures TransportsOk(Put(s, m, t))
  {
    hide TransportOk;
  }

  lemma QueueSame(s: Sys, s': Sys)
    requires QueueOk(s) && s'.ts == s.ts && s'.queue == s.queue
    ensures QueueOk(s')
  {
    forall k | 0 <= k < |s'.queue| ensures TaskOk(s', k) { assert TaskOk(s, k); }
  }

  lemma UpdateKeepsConn(s: Sys, m: Medium, t: Transport, st: TState)
    requires ConnOk(s) && m in s.ts
    requires s.ts[m].state != TFinished && st == t.state && st in {TGathered, TReady, TFailed}
    requires st == TReady ==> s.cfg.rtcpMux
    ensures ConnOk(Put(s, m, t).(conn := UpdateState(Put(s, m, t), st)))
  {
  }

  lemma ReadyMeansMux(cfg: Config, t: Transport)
    requires TransportOk(cfg, t) && t.state == TReady
    ensures cfg.rtcpMux
  {}

  lemma PutKeeps(s: Sys, m: Medium, t: Transport)
    requires Inv(s) && m in s.ts && Calm(s, m)
    requires s.ts[m].ice == t.ice && (t.running ==> s.ts[m].running)
    requires TransportOk(s.cfg, t) && t.state == s.ts[m].state
    ensures Inv(Put(s, m, t)) && Advances(s, m, Put(s, m, t))
  {
    hide TransportOk, QueueOk, TransportsOk;
    PutKeepsTransports(s, m, t);
    PutKeepsQueue(s, m, t);
  }

  /** The transport m takes the fields of t and then the state st. */
  lemma SetKeeps(s: Sys, m: Medium, t: Transport, st: TState)
    requires Inv(s) && m in s.ts && Calm(s, m)
    requires s.ts[m].ice == t.ice && (t.running ==> s.ts[m].running) && t.state == s.ts[m].state
    requires t.state != TFinished && st in {TGathered, TReady, TFailed} && TRank(t.state) <= TRank(st)
    requires TransportOk(s.cfg, t.(state := st))
    ensures Inv(SetTransport(Put(s, m, t), m, st))
    ensures Advances(s, m, SetTransport(Put(s, m, t), m, st))
    ensures SetTransport(Put(s, m, t), m, st).ts[m] == t.(state := st)
  {
    hide TransportOk, QueueOk, TransportsOk, ConnOk, UpdateState;
    var t' := t.(state := st);
    var s1 := Put(s, m, t');
    PutKeepsTransports(s, m, t');
    PutKeepsQueue(s, m, t');
    assert Put(s, m, t).ts[m := t'] == s1.ts;
    if t.state == st {
      assert t == t';
      PutKeeps(s, m, t);
    } else {
      if st == TReady { ReadyMeansMux(s.cfg, t'); }
      UpdateKeepsConn(s, m, t', st);
      var s' := SetTransport(Put(s, m, t), m, st);
      assert s' == s1.(conn := UpdateState(s1, st));
      QueueSame(s1, s');
      TransportsSame(s1, s');
    }
  }

  lemma TransportsSame(s: Sys, s': Sys)
    requires TransportsOk(s) && s'.ts == s.ts && s'.cfg == s.cfg
    ensures TransportsOk(s')
  {
    hide TransportOk;
  }

  lemma IceUpdateKeeps(s: Sys, m: Medium, i: IceState)
    requires Inv(s) && m in s.ts && i != IceInitial && i in s.ts[m].ice.trail
    requires if i == CandidatesReceived then
               && (s.ts[m].running ==> Untouched(s.ts[m]))
               && forall k :: 0 <= k < |s.queue| ==> s.queue[k] != IceUpdate(m, i)
             else Calm(s, m)
    ensures Inv(OnIceUpdate(s, m, i)) && Advances(s, m, OnIceUpdate(s, m, i))
  {
    hide IceOk, QueueOk, ConnOk, SetTransport, Put;
    PutSame(s, m);
    var t := s.ts[m];
    if !t.running {
    } else if i == CandidatesReceived {
      SetKeeps(s, m, t, TGathered);
    } else if i == IceFailed {
      SetKeeps(s, m, t.(running := false), TFailed);
    } else if i == IceReady && !t.server && !t.started {
      PutKeeps(s, m, t.(started := true, timer := t.state != TReady));
    }
  }

  /** What onHandshakeCompleted leaves of a transport that was still waiting for its keys. */
  function Keyed(t: Transport, keysOk: bool): (t': Transport) {
    var t1 := t.(timer := false, rtpDone := true, srtp := Channel(keysOk), readyRtp := keysOk);
    if t.hasRtcp then t1 else t1.(readyRtcp := true)
  }

  lemma KeyedOk(cfg: Config, t: Transport, keysOk: bool)
    requires TransportOk(cfg, t) && t.running && !t.rtpDone && IceReady in t.ice.trail
    ensures t.state in {TInitial, TGathered}
    ensures keysOk && t.hasRtcp ==> TransportOk(cfg, Keyed(t, keysOk))
    ensures keysOk && !t.hasRtcp ==> TransportOk(cfg, Keyed(t, keysOk).(state := TReady))
    ensures !keysOk ==> TransportOk(cfg, Keyed(t, keysOk).(state := TFailed))
    ensures !keysOk ==> TransportOk(cfg, Keyed(t, keysOk).(state := TFailed, readyRtcp := t.readyRtcp))
    ensures !t.readyRtcp
  {
    hide IceOk;
  }

  lemma InvAt(s: Sys, m: Medium)
    requires Inv(s) && m in s.ts
    ensures TransportOk(s.cfg, s.ts[m])
  {}

  lemma CompletedKeeps(s: Sys, m: Medium, keysOk: bool)
    requires Inv(s) && m in s.ts && Calm(s, m) && s.ts[m].running && IceReady in s.ts[m].ice.trail
    ensures Inv(OnCompleted(s, m, 1, keysOk)) && Advances(s, m, OnCompleted(s, m, 1, keysOk))
  {
    hide Inv, TransportOk, SetTransport;
    InvAt(s, m);
    var t := s.ts[m];
    if t.rtpDone { return; }
    KeyedOk(s.cfg, t, keysOk);
    var t' := Keyed(t, keysOk);
    var t1 := t.(timer := false, rtpDone := true, srtp := Channel(keysOk), readyRtp := keysOk);
    if !keysOk {
      assert t1 == Keyed(t, keysOk).(readyRtcp := t.readyRtcp);
      SetKeeps(s, m, t1, TFailed);
      if !t.hasRtcp {
        PutKeeps(SetTransport(Put(s, m, t1), m, TFailed), m, t'.(state := TFailed));
      }
    } else if t.hasRtcp {
      PutKeeps(s, m, t');
    } else {
      SetKeeps(s, m, t', TReady);
      assert Put(Put(s, m, t1), m, t') == Put(s, m, t');
    }
  }

  /** A transport that has not been closed can stop, and can fail. */
  lemma StopOk(s: Sys, m: Medium)
    requires Inv(s) && m in s.ts
    ensures var t := s.ts[m].(running := false); TransportOk(s.cfg, t)
    ensures var t := s.ts[m].(running := false, state := TFailed); TransportOk(s.cfg, t)
    ensures s.ts[m].state == TFinished ==> !s.ts[m].running && !s.ts[m].timer
  {
    hide IceOk, QueueOk, ConnOk;
  }

  lemma FailKeeps(s: Sys, m: Medium)
    requires Inv(s) && m in s.ts && Calm(s, m) && s.ts[m].state != TFinished
    ensures Inv(OnHandshakeFailed(s, m)) && Advances(s, m, OnHandshakeFailed(s, m))
  {
    hide Inv, TransportOk, SetTransport, Advances;
    StopOk(s, m);
    SetKeeps(s, m, s.ts[m].(running := false), TFailed);
  }

  lemma HaltKeeps(s: Sys, m: Medium)
    requires Inv(s) && m in s.ts && Calm(s, m)
    ensures Inv(Put(s, m, s.ts[m].(running := false))) && Advances(s, m, Put(s, m, s.ts[m].(running := false)))
  {
    hide Inv, TransportOk, Advances;
    StopOk(s, m);
    PutKeeps(s, m, s.ts[m].(running := false));
  }

  lemma TickOk(s: Sys, m: Medium, checks: nat)
    requires Inv(s) && m in s.ts && s.ts[m].timer
    ensures Calm(s, m)
    ensures TransportOk(s.cfg, s.ts[m].(timer := false))
    ensures TransportOk(s.cfg, s.ts[m].(checks := checks))
    ensures s.ts[m].state != TFinished
  {
    hide IceOk, ConnOk;
    forall k | 0 <= k < |s.queue| && s.ts[m].running ensures s.queue[k] != IceUpdate(m, CandidatesReceived) {
      assert TaskOk(s, k);
    }
  }

  lemma TickKeeps(s: Sys, m: Medium, checks: nat)
    requires Inv(s) && m in s.ts && s.ts[m].timer
    ensures var s' := Put(s, m, s.ts[m].(timer := false)); Inv(s') && Advances(s, m, s') && Calm(s', m)
    ensures var s' := Put(s, m, s.ts[m].(checks := checks)); Inv(s') && Advances(s, m, s')
    ensures s.ts[m].state != TFinished
  {
    hide Inv, Advances, TransportOk;
    TickOk(s, m, checks);
    PutKeeps(s, m, s.ts[m].(timer := false));
    PutKeeps(s, m, s.ts[m].(checks := checks));
  }

  lemma ReceivedKeeps(s: Sys, m: Medium, length: int, p: Packet)
    requires Inv(s) && m in s.ts && Calm(s, m) && IceReady in s.ts[m].ice.trail
    ensures Inv(OnReceived(s, m, 1, length, p)) && Advances(s, m, OnReceived(s, m, 1, length, p))
  {
    hide Inv, SetTransport, OnCompleted, OnHandshakeFailed;
    StopOk(s, m);
    var t := s.ts[m];
    if length > 0 {
      if t.running && p.Dtls? {
        match p.outcome {
          case NoOutcome =>
          case Completed(ok) => CompletedKeeps(s, m, ok);
          case HandshakeFailed => FailKeeps(s, m);
        }
      }
    } else if length == -1 {
      HaltKeeps(s, m);
    }
  }

  lemma TimerKeeps(s: Sys, m: Medium)
    requires Inv(s) && m in s.ts && s.ts[m].timer
    ensures Inv(OnTimer(s, m)) && Advances(s, m, OnTimer(s, m))
  {
    hide Inv, OnHandshakeFailed;
    var t := s.ts[m];
    TickKeeps(s, m, if t.checks > 0 then t.checks - 1 else 0);
    if t.state != TReady && t.checks == 0 { FailKeeps(Put(s, m, t.(timer := false)), m); }
  }

  lemma PopKeeps(s: Sys)
    requires Inv(s) && s.queue != []
    ensures Inv(s.(queue := s.queue[1..]))
    ensures s.queue[0].medium in s.ts
    ensures forall k :: 1 <= k < |s.queue| ==> s.queue[k] != IceUpdate(s.queue[0].medium, CandidatesReceived)
  {
    var s' := s.(queue := s.queue[1..]);
    assert TaskOk(s, 0);
    forall k | 0 <= k < |s'.queue| ensures TaskOk(s', k) {
      assert TaskOk(s, k + 1);
    }
    forall k | 1 <= k < |s.queue| ensures s.queue[k] != IceUpdate(s.queue[0].medium, CandidatesReceived) {
      assert TaskOk(s, k);
    }
  }

  lemma FrontOk(s: Sys)
    requires Inv(s) && s.queue != []
    ensures var t := s.queue[0];
            && t.medium in s.ts
            && (t.Received? ==> t.comp == 1 && IceReady in s.ts[t.medium].ice.trail)
            && (t.IceUpdate? ==> t.state != IceInitial && t.state in s.ts[t.medium].ice.trail)
            && (t.IceUpdate? && t.state == CandidatesReceived && s.ts[t.medium].running ==> Untouched(s.ts[t.medium]))
  {
    assert TaskOk(s, 0);
    InvAt(s, s.queue[0].medium);
  }

  lemma PerformKeeps(s: Sys, t: Task)
    requires Inv(s) && t.medium in s.ts
    requires forall k :: 0 <= k < |s.queue| ==> s.queue[k] != IceUpdate(t.medium, CandidatesReceived)
    requires t.IceUpdate? ==> t.state != IceInitial && t.state in s.ts[t.medium].ice.trail
    requires t.IceUpdate? && t.state == CandidatesReceived && s.ts[t.medium].running ==> Untouched(s.ts[t.medium])
    requires t.Received? ==> t.comp == 1 && IceReady in s.ts[t.medium].ice.trail
    ensures Inv(Perform(s, t)) && Advances(s, t.medium, Perform(s, t))
  {
    hide Inv, OnIceUpdate, OnReceived, Advances;
    match t {
      case IceUpdate(m, i) => IceUpdateKeeps(s, m, i);
      case Received(m, comp, length, p) => ReceivedKeeps(s, m, length, p);
    }
  }

  lemma RunTaskKeeps(s: Sys)
    requires Inv(s) && s.queue != []
    ensures s.queue[0].medium in s.ts && Inv(Step(s, RunTask))
    ensures Advances(s.(queue := s.queue[1..]), s.queue[0].medium, Step(s, RunTask))
  {
    hide Inv, Perform, Advances;
    PopKeeps(s);
    FrontOk(s);
    PerformKeeps(s.(queue := s.queue[1..]), s.queue[0]);
  }

  // ---------- ICE ----------

  predicate IceGrows(i: Ice, p: (Ice, bool)) {
    && IceOk(p.0)
    && i.trail <= p.0.trail
    && p.0.components == i.components
    && (p.1 ==> p.0.trail == i.trail + [p.0.state])
  }

  /** The components allow the state to be entered. */
  predicate Deserves(i: Ice, s: IceState) {
    && (s == IceReady ==> AllComps(i.comps, i.components, IceReady))
    && (s == IceFailed ==> AllComps(i.comps, i.components, IceFailed) && (i.receivedLast || i.state == IceReady))
  }

  lemma UpdateGrows(i: Ice, s: IceState)
    requires IceOk(i) && Deserves(i, s)
    ensures IceGrows(i, UpdateIceState(i, s))
  {
    hide Earned, RisingIce, Deserves, Entered;
    if IceRank(s) > IceRank(i.state) {
      RisesOn(i.trail, i.state, s);
      EnteredEarned(i, s);
      EnteredIs(i, s);
    }
  }

  lemma EnteredIs(i: Ice, s: IceState)
    ensures var i' := Entered(i, s); i'.state == s && i'.trail == i.trail + [s] && i'.components == i.components
  {
  }

  lemma RisesOn(trail: seq<IceState>, state: IceState, s: IceState)
    requires RisingIce(trail) && IceInitial !in trail && IceRank(s) > IceRank(state)
    requires if trail == [] then state == IceInitial else state == trail[|trail| - 1]
    ensures RisingIce(trail + [s]) && IceInitial !in trail + [s]
  {
  }

  lemma EnteredEarned(i: Ice, s: IceState)
    requires Earned(i) && Deserves(i, s)
    requires if i.trail == [] then i.state == IceInitial else i.state == i.trail[|i.trail| - 1]
    requires IceRank(s) > IceRank(i.state)
    ensures Earned(Entered(i, s))
  {
    hide AllComps;
    assert forall x :: x in i.trail + [s] <==> x in i.trail || x == s;
  }

  lemma ComponentGrows(i: Ice, comp: nat, s: IceState)
    requires IceOk(i) && (s == IceReady || s == IceFailed)
    ensures IceGrows(i, UpdateComponent(i, comp, s))
  {
    hide RisingIce, UpdateIceState, AllComps;
    var i1 := i.(comps := i.comps[comp := s]);
    if Deserves(i1, s) { UpdateGrows(i1, s); }
  }

  lemma GrownOk(cfg: Config, t: Transport, i: Ice)
    requires TransportOk(cfg, t) && IceOk(i) && t.ice.trail <= i.trail
    ensures TransportOk(cfg, t.(ice := i))
  {
    hide IceOk;
  }

  lemma GatheredFirst(trail: seq<IceState>)
    requires RisingIce(trail) && IceInitial !in trail && trail != [] && trail[|trail| - 1] == CandidatesReceived
    ensures |trail| == 1
  {
    assert trail[0] in trail;
  }

  lemma FirstTask(s: Sys, m: Medium, p: (Ice, bool))
    requires Inv(s) && m in s.ts && IceGrows(s.ts[m].ice, p) && p.1 && p.0.state == CandidatesReceived
    ensures s.ts[m].ice.trail == []
    ensures s.ts[m].running ==> Untouched(s.ts[m])
    ensures forall j :: 0 <= j < |s.queue| ==> s.queue[j].medium != m
  {
    var i := s.ts[m].ice;
    GatheredFirst(p.0.trail);
    forall j | 0 <= j < |s.queue| ensures s.queue[j].medium != m { assert TaskOk(s, j); }
  }

  lemma OldTaskOk(s: Sys, m: Medium, p: (Ice, bool), k: nat)
    requires m in s.ts && s.ts[m].ice.trail <= p.0.trail && k < |s.queue| && TaskOk(s, k)
    ensures k < |WithIce(s, m, p).queue| && TaskOk(WithIce(s, m, p), k)
  {}

  lemma NewTaskOk(s: Sys, m: Medium, p: (Ice, bool))
    requires m in s.ts && p.1 && p.0.state in p.0.trail
    requires p.0.state == CandidatesReceived ==>
               (s.ts[m].running ==> Untouched(s.ts[m])) && forall j :: 0 <= j < |s.queue| ==> s.queue[j].medium != m
    ensures |s.queue| < |WithIce(s, m, p).queue| && TaskOk(WithIce(s, m, p), |s.queue|)
  {}

  lemma WithIceConn(s: Sys, m: Medium, p: (Ice, bool))
    requires ConnOk(s) && m in s.ts
    ensures ConnOk(WithIce(s, m, p))
  {}

  lemma WithIceKeeps(s: Sys, m: Medium, p: (Ice, bool))
    requires Inv(s) && m in s.ts && IceGrows(s.ts[m].ice, p)
    ensures Inv(WithIce(s, m, p))
  {
    hide TransportOk, RisingIce, TaskOk, ConnOk;
    var t := s.ts[m].(ice := p.0);
    var s' := WithIce(s, m, p);
    GrownOk(s.cfg, s.ts[m], p.0);
    PutKeepsTransports(s, m, t);
    TransportsSame(Put(s, m, t), s');
    WithIceConn(s, m, p);
    if p.1 && p.0.state == CandidatesReceived { FirstTask(s, m, p); }
    if p.1 { NewTaskOk(s, m, p); }
    forall k | 0 <= k < |s'.queue| ensures TaskOk(s', k) {
      if k < |s.queue| { OldTaskOk(s, m, p, k); }
    }
  }

  lemma ClosedOk(cfg: Config, t: Transport)
    requires TransportOk(cfg, t)
    ensures TransportOk(cfg, CloseTransport(t)) && t.ice.trail <= CloseTransport(t).ice.trail
  {
    hide IceOk, UpdateIceState;
    UpdateGrows(t.ice, IceFinished);
    ClosedIce(t.ice);
  }

  lemma ClosedIce(i: Ice)
    requires IceOk(i) && IceGrows(i, UpdateIceState(i, IceFinished))
    ensures IceOk(CloseIce(i)) && i.trail <= CloseIce(i).trail
  {
    hide RisingIce, UpdateIceState;
  }

  lemma CloseKeeps(s: Sys)
    requires Inv(s)
    ensures Inv(Close(s))
  {
    hide TransportOk, QueueOk, CloseTransport, ConnOk;
    forall m | m in s.ts ensures TransportOk(s.cfg, CloseTransport(s.ts[m])) {
      ClosedOk(s.cfg, s.ts[m]);
    }
    CloseKeepsQueue(s);
    CloseKeepsConn(s);
  }

  lemma CloseKeepsQueue(s: Sys)
    requires TransportsOk(s) && QueueOk(s)
    ensures QueueOk(Close(s))
  {
    hide TransportOk, CloseIce;
    var s' := Close(s);
    forall k | 0 <= k < |s'.queue| ensures TaskOk(s', k) {
      assert TaskOk(s, k);
      ClosedOk(s.cfg, s.ts[s.queue[k].medium]);
    }
  }

  lemma CloseKeepsConn(s: Sys)
    ensures ConnOk(Close(s))
  {
    hide CloseIce;
  }

  lemma IceCalls(i: Ice)
    requires IceOk(i)
    ensures IceGrows(i, (StartIce(i), false)) && IceGrows(i, (CloseIce(i), false))
    ensures IceGrows(i, (i.(receivedLast := true), false)) && IceGrows(i, (i.(receivedLast := false), false))
  {
    hide RisingIce, AllComps, UpdateIceState;
    UpdateGrows(i, IceFinished);
  }

  lemma DataKeeps(s: Sys, m: Medium, comp: nat, length: int, p: Packet)
    requires Inv(s) && Enabled(s, Data(m, comp, length, p))
    ensures Inv(Step(s, Data(m, comp, length, p)))
  {
    var s' := Step(s, Data(m, comp, length, p));
    TransportsSame(s, s');
    forall k | 0 <= k < |s'.queue| ensures TaskOk(s', k) {
      if k < |s.queue| { assert TaskOk(s, k); }
    }
  }

  lemma StepKeeps(s: Sys, e: Event)
    requires Inv(s) && Enabled(s, e)
    ensures Inv(Step(s, e))
  {
    hide Inv, UpdateComponent, UpdateIceState, StartIce, CloseIce, Perform, OnTimer, Close;
    match e {
      case Start(m) =>
        InvAt(s, m);
        IceCalls(s.ts[m].ice);
        WithIceKeeps(s, m, (StartIce(s.ts[m].ice), false));
      case ComponentState(m, comp, ready) =>
        InvAt(s, m);
        var st := if ready then IceReady else IceFailed;
        ComponentGrows(s.ts[m].ice, comp, st);
        WithIceKeeps(s, m, UpdateComponent(s.ts[m].ice, comp, st));
      case GatheringDone(m) =>
        InvAt(s, m);
        UpdateGrows(s.ts[m].ice, CandidatesReceived);
        WithIceKeeps(s, m, UpdateIceState(s.ts[m].ice, CandidatesReceived));
      case Data(m, comp, length, p) => DataKeeps(s, m, comp, length, p);
      case LastCandidate(m, b) =>
        InvAt(s, m);
        IceCalls(s.ts[m].ice);
        WithIceKeeps(s, m, (s.ts[m].ice.(receivedLast := b), false));
      case RemoteCandidates(m) =>
        InvAt(s, m);
        IceCalls(s.ts[m].ice);
        if !s.ts[m].ice.agent { WithIceKeeps(s, m, (CloseIce(s.ts[m].ice), false)); }
      case RunTask => RunTaskKeeps(s);
      case TimerFires(m) => TimerKeeps(s, m);
      case CloseAll => CloseKeeps(s);
    }
  }

  lemma InitOk(cfg: Config)
    ensures Inv(Init(cfg))
  {}

  // ---------- What the connection is told ----------

  /** The connection has heard of the new state of the transport m, if it is a new one, and of nothing else. */
  predicate Told(s: Sys, m: Medium, s': Sys)
    requires m in s.ts && m in s'.ts
  {
    s'.conn == if s'.ts[m].state == s.ts[m].state then s.conn
               else UpdateState(s'.(conn := s.conn), s'.ts[m].state)
  }

  lemma PutPut(s: Sys, m: Medium, t: Transport, t': Transport)
    ensures Put(Put(s, m, t), m, t') == Put(s, m, t')
  {}

  lemma SetTold(s: Sys, m: Medium, t: Transport, st: TState)
    requires m in s.ts && t.state == s.ts[m].state
    ensures m in Put(s, m, t).ts && m in SetTransport(Put(s, m, t), m, st).ts
    ensures Told(s, m, SetTransport(Put(s, m, t), m, st))
  {
    hide UpdateState;
    var s1 := Put(s, m, t);
    if t.state != st {
      var s' := SetTransport(s1, m, st);
      assert s'.(conn := s.conn) == s1.(ts := s1.ts[m := t.(state := st)]);
    }
  }

  lemma IceUpdateTold(s: Sys, m: Medium, i: IceState)
    requires m in s.ts
    ensures m in OnIceUpdate(s, m, i).ts && Told(s, m, OnIceUpdate(s, m, i))
  {
    hide UpdateState, SetTransport;
    assert Put(s, m, s.ts[m]) == s;
    SetTold(s, m, s.ts[m], TStarted);
    SetTold(s, m, s.ts[m], TGathered);
    SetTold(s, m, s.ts[m].(running := false), TFailed);
  }

  lemma CompletedTold(s: Sys, m: Medium, keysOk: bool)
    requires m in s.ts
    ensures m in OnCompleted(s, m, 1, keysOk).ts && Told(s, m, OnCompleted(s, m, 1, keysOk))
  {
    hide Put, SetTransport, UpdateState, Told;
    var s' := OnCompleted(s, m, 1, keysOk);
    if s.ts[m].rtpDone {
      PutSame(s, m);
      PutTold(s, m, s.ts[m]);
    } else if keysOk {
      KeysTold(s, m);
    } else {
      NoKeysTold(s, m);
    }
  }

  lemma KeysTold(s: Sys, m: Medium)
    requires m in s.ts && !s.ts[m].rtpDone
    ensures m in OnCompleted(s, m, 1, true).ts && Told(s, m, OnCompleted(s, m, 1, true))
  {
    hide Put, SetTransport, UpdateState, Told;
    var t1 := s.ts[m].(timer := false, rtpDone := true, srtp := Channel(true), readyRtp := true);
    PutTold(s, m, t1);
    if t1.hasRtcp {
      SetTold(s, m, t1, TReady);
    } else {
      var t2 := t1.(readyRtcp := true);
      PutPut(s, m, t1, t2);
      PutTold(s, m, t2);
      SetTold(s, m, t2, TReady);
      assert OnCompleted(s, m, 1, true) == SetTransport(Put(s, m, t2), m, TReady);
    }
  }

  lemma NoKeysTold(s: Sys, m: Medium)
    requires m in s.ts && !s.ts[m].rtpDone
    ensures m in OnCompleted(s, m, 1, false).ts && Told(s, m, OnCompleted(s, m, 1, false))
  {
    hide Put, SetTransport, UpdateState, Told;
    var t1 := s.ts[m].(timer := false, rtpDone := true, srtp := Channel(false), readyRtp := false);
    SetTold(s, m, t1, TFailed);
    SetFailed(s, m, t1);
    var s1 := SetTransport(Put(s, m, t1), m, TFailed);
    assert OnCompleted(s, m, 1, false) == if t1.hasRtcp then s1 else Put(s1, m, s1.ts[m].(readyRtcp := true));
  }

  lemma PutSame(s: Sys, m: Medium)
    requires m in s.ts
    ensures Put(s, m, s.ts[m]) == s
  {}

  lemma PutTold(s: Sys, m: Medium, t: Transport)
    requires m in s.ts && t.state == s.ts[m].state
    ensures m in Put(s, m, t).ts && Put(s, m, t).ts[m] == t && Told(s, m, Put(s, m, t))
  {}

  lemma SameStates(a: Sys, b: Sys, st: TState)
    requires a.conn == b.conn && a.cfg == b.cfg && a.ts.Keys == b.ts.Keys
    requires forall x :: x in a.ts ==> a.ts[x].state == b.ts[x].state
    ensures UpdateState(a, st) == UpdateState(b, st)
  {
    forall x, y ensures Holds(a, x, y) <==> Holds(b, x, y) { assert x in a.ts.Keys <==> x in b.ts.Keys; }
  }

  lemma ToldElse(s: Sys, m: Medium, s1: Sys, t: Transport)
    requires m in s.ts && m in s1.ts && Told(s, m, s1) && t.state == s1.ts[m].state
    ensures m in Put(s1, m, t).ts && Told(s, m, Put(s1, m, t))
  {
    SameStates(s1.(conn := s.conn), Put(s1, m, t).(conn := s.conn), t.state);
  }

  lemma SetFailed(s: Sys, m: Medium, t: Transport)
    requires m in s.ts && t.state == s.ts[m].state
    ensures var s1 := SetTransport(Put(s, m, t), m, TFailed);
            && m in s1.ts && s1.ts[m] == t.(state := TFailed)
            && m in Put(s1, m, s1.ts[m].(readyRtcp := true)).ts
            && Put(s1, m, s1.ts[m].(readyRtcp := true)).ts[m] == t.(state := TFailed, readyRtcp := true)
            && Told(s, m, Put(s1, m, s1.ts[m].(readyRtcp := true)))
  {
    hide UpdateState, Told;
    var s1 := SetTransport(Put(s, m, t), m, TFailed);
    SetTold(s, m, t, TFailed);
    ToldElse(s, m, s1, s1.ts[m].(readyRtcp := true));
  }

  lemma ReceivedTold(s: Sys, m: Medium, length: int, p: Packet)
    requires m in s.ts
    ensures m in OnReceived(s, m, 1, length, p).ts && Told(s, m, OnReceived(s, m, 1, length, p))
  {
    hide UpdateState, SetTransport, OnCompleted;
    SetTold(s, m, s.ts[m].(running := false), TFailed);
    if p.Dtls? && p.outcome.Completed? { CompletedTold(s, m, p.outcome.keysOk); }
  }

  lemma TimerTold(s: Sys, m: Medium)
    requires m in s.ts
    ensures m in OnTimer(s, m).ts && Told(s, m, OnTimer(s, m))
  {
    hide Put, Told, OnHandshakeFailed, SetTransport, UpdateState;
    var t := s.ts[m];
    if t.state == TReady {
      PutTold(s, m, t.(timer := false));
      assert OnTimer(s, m) == Put(s, m, t.(timer := false));
    } else if t.checks > 0 {
      PutTold(s, m, t.(checks := t.checks - 1));
      assert OnTimer(s, m) == Put(s, m, t.(checks := t.checks - 1));
    } else {
      FailTold(s, m, t.(timer := false));
      assert OnTimer(s, m) == OnHandshakeFailed(Put(s, m, t.(timer := false)), m);
    }
  }

  lemma FailTold(s: Sys, m: Medium, t: Transport)
    requires m in s.ts && t.state == s.ts[m].state
    ensures m in Put(s, m, t).ts && m in OnHandshakeFailed(Put(s, m, t), m).ts
    ensures Told(s, m, OnHandshakeFailed(Put(s, m, t), m))
  {
    hide Put, Told, SetTransport, UpdateState;
    PutTold(s, m, t);
    PutPut(s, m, t, t.(running := false));
    SetTold(s, m, t.(running := false), TFailed);
  }

  lemma RunTaskTold(s: Sys)
    requires Inv(s) && s.queue != []
    ensures s.queue[0].medium in s.ts && s.queue[0].medium in Step(s, RunTask).ts
    ensures Told(s, s.queue[0].medium, Step(s, RunTask))
  {
    hide Inv, UpdateState, OnReceived, OnIceUpdate, Told, Advances;
    RunTaskKeeps(s);
    FrontOk(s);
    var s1 := s.(queue := s.queue[1..]);
    PerformTold(s1, s.queue[0]);
    PopTold(s, s.queue[0].medium, Step(s, RunTask));
  }

  lemma PopTold(s: Sys, m: Medium, s': Sys)
    requires s.queue != [] && m in s.ts && m in s'.ts && Told(s.(queue := s.queue[1..]), m, s')
    ensures Told(s, m, s')
  {
    hide UpdateState;
  }

  lemma PerformTold(s: Sys, t: Task)
    requires t.medium in s.ts && (t.Received? ==> t.comp == 1)
    ensures t.medium in Perform(s, t).ts && Told(s, t.medium, Perform(s, t))
  {
    hide UpdateState, OnReceived, OnIceUpdate, Told;
    match t {
      case IceUpdate(m, i) => IceUpdateTold(s, m, i);
      case Received(m, comp, length, p) => ReceivedTold(s, m, length, p);
    }
  }
}
