/** What brings a transport into a state and a connection to a verdict, both exactly, and which connections can gather
    and can fail. */
module RtcOutcomes {
  import opened RtcSession
  import opened RtcInvariants
  import opened RtcRuns

  // ---------- Transports ----------

  /** The task reports to a running transport m that it has gathered candidates, has been secured, or has failed. */
  predicate Reports(t: Transport, task: Task, st: TState) {
    && t.running
    && match task
       case IceUpdate(_, i) => (i == CandidatesReceived && st == TGathered) || (i == IceFailed && st == TFailed)
       case Received(_, _, length, p) =>
         && length > 0 && p.Dtls?
         && match p.outcome
            case NoOutcome => false
            case HandshakeFailed => st == TFailed
            case Completed(keysOk) => !t.rtpDone && if keysOk then !t.hasRtcp && st == TReady else st == TFailed
  }

  /** Why an event brings the transport m into the state st */
  predicate Causes(s: Sys, e: Event, m: Medium, st: TState)
    requires m in s.ts && Enabled(s, e)
  {
    match e
    case RunTask => s.queue[0].medium == m && Reports(s.ts[m], s.queue[0], st)
    case TimerFires(x) => x == m && s.ts[m].state != TReady && s.ts[m].checks == 0 && st == TFailed
    case CloseAll => st == TFinished
    case _ => false
  }

  lemma SetIs(s: Sys, m: Medium, t: Transport, st: TState)
    requires m in s.ts
    ensures m in Put(s, m, t).ts && m in SetTransport(Put(s, m, t), m, st).ts
    ensures SetTransport(Put(s, m, t), m, st).ts[m] == t.(state := st)
  {
    hide UpdateState;
  }

  /** A transport completes at most once, and is ready or failed then. */
  lemma CompletedIs(s: Sys, m: Medium, keysOk: bool)
    requires m in s.ts && TransportOk(s.cfg, s.ts[m])
    ensures m in OnCompleted(s, m, 1, keysOk).ts
    ensures var t := s.ts[m];
            OnCompleted(s, m, 1, keysOk).ts[m].state ==
            if t.rtpDone then t.state else if !keysOk then TFailed else if t.hasRtcp then t.state else TReady
  {
    hide SetTransport, IceOk;
    var t := s.ts[m];
    var t1 := t.(timer := false, rtpDone := true, srtp := Channel(keysOk), readyRtp := keysOk);
    SetIs(s, m, t1, TFailed);
    SetIs(s, m, t1.(readyRtcp := true), TReady);
    assert Put(Put(s, m, t1), m, t1.(readyRtcp := true)) == Put(s, m, t1.(readyRtcp := true));
  }

  lemma PutIs(s: Sys, m: Medium, t: Transport)
    ensures m in Put(s, m, t).ts && Put(s, m, t).ts[m] == t
  {}

  /** The state of a transport after a report of its ICE connection, and after a packet */
  function AfterReport(t: Transport, i: IceState): (st: TState) {
    if !t.running then t.state else if i == CandidatesReceived then TGathered else if i == IceFailed then TFailed
    else t.state
  }

  function AfterPacket(t: Transport, length: int, p: Packet): (st: TState) {
    if length <= 0 || !t.running || p.Media? then t.state
    else match p.outcome
      case NoOutcome => t.state
      case HandshakeFailed => TFailed
      case Completed(keysOk) =>
        if t.rtpDone then t.state else if !keysOk then TFailed else if t.hasRtcp then t.state else TReady
  }

  lemma ReportIs(s: Sys, m: Medium, i: IceState)
    requires m in s.ts && i != IceInitial
    ensures m in OnIceUpdate(s, m, i).ts && OnIceUpdate(s, m, i).ts[m].state == AfterReport(s.ts[m], i)
  {
    hide SetTransport, Put;
    var t := s.ts[m];
    PutSame(s, m);
    SetIs(s, m, t, TGathered);
    SetIs(s, m, t.(running := false), TFailed);
    PutIs(s, m, t.(started := true, timer := t.state != TReady));
  }

  lemma PacketIs(s: Sys, m: Medium, length: int, p: Packet)
    requires m in s.ts && TransportOk(s.cfg, s.ts[m])
    ensures m in OnReceived(s, m, 1, length, p).ts
    ensures OnReceived(s, m, 1, length, p).ts[m].state == AfterPacket(s.ts[m], length, p)
  {
    hide Put, OnCompleted, OnHandshakeFailed, TransportOk;
    if p.Dtls? && p.outcome.Completed? { CompletedIs(s, m, p.outcome.keysOk); }
    FailedIs(s, m);
    PutIs(s, m, s.ts[m].(running := false));
  }

  lemma FailedIs(s: Sys, m: Medium)
    requires m in s.ts
    ensures m in OnHandshakeFailed(s, m).ts
    ensures OnHandshakeFailed(s, m).ts[m] == s.ts[m].(running := false, state := TFailed)
  {
    hide SetTransport, Put;
    SetIs(s, m, s.ts[m].(running := false), TFailed);
  }

  lemma TaskIs(s: Sys, m: Medium, st: TState)
    requires Inv(s) && s.queue != [] && m in s.ts && s.queue[0].medium == m && st != s.ts[m].state
    ensures m in Step(s, RunTask).ts
    ensures Step(s, RunTask).ts[m].state == st <==> Reports(s.ts[m], s.queue[0], st)
  {
    hide OnIceUpdate, OnReceived, IceOk, ConnOk;
    var s0 := s.(queue := s.queue[1..]);
    assert TaskOk(s, 0);
    InvAt(s, m);
    match s.queue[0] {
      case IceUpdate(_, i) =>
        IceTrailHas(s.ts[m].ice);
        ReportIs(s0, m, i);
      case Received(_, comp, length, p) => PacketIs(s0, m, length, p);
    }
  }

  lemma IceTrailHas(i: Ice)
    requires IceOk(i)
    ensures IceInitial !in i.trail
  {}

  lemma TimerIs(s: Sys, m: Medium)
    requires m in s.ts
    ensures m in OnTimer(s, m).ts
    ensures var t := s.ts[m];
            OnTimer(s, m).ts[m].state == if t.state != TReady && t.checks == 0 then TFailed else t.state
  {
    hide OnHandshakeFailed, Put;
    var t := s.ts[m];
    PutIs(s, m, t.(timer := false));
    if t.checks > 0 { PutIs(s, m, t.(checks := t.checks - 1)); }
    FailedIs(Put(s, m, t.(timer := false)), m);
  }

  lemma OtherEvents(s: Sys, e: Event, m: Medium)
    requires Enabled(s, e) && m in s.ts && !e.RunTask? && !e.TimerFires? && !e.CloseAll?
    ensures m in Step(s, e).ts && Step(s, e).ts[m].state == s.ts[m].state
  {
    hide UpdateComponent, UpdateIceState, CloseIce, StartIce;
  }

  lemma ClosedAll(s: Sys, m: Medium)
    requires m in s.ts
    ensures m in Step(s, CloseAll).ts && Step(s, CloseAll).ts[m].state == TFinished
  {}

  /** An event brings a transport into another state if and only if it causes that. */
  lemma EntersIff(s: Sys, e: Event, m: Medium, st: TState)
    requires Inv(s) && Enabled(s, e) && m in s.ts && st != s.ts[m].state
    ensures m in Step(s, e).ts && (Step(s, e).ts[m].state == st <==> Causes(s, e, m, st))
  {
    hide Inv, Step, OnTimer, Reports;
    if e == RunTask {
      if s.queue[0].medium == m {
        TaskIs(s, m, st);
      } else {
        RunTaskKeeps(s);
        OtherStays(s, m);
      }
    } else if e.TimerFires? {
      TimerStep(s, e.medium);
      if e.medium == m { TimerIs(s, m); } else { TimerKeeps(s, e.medium); }
    } else if e.CloseAll? {
      ClosedAll(s, m);
    } else {
      OtherEvents(s, e, m);
    }
  }

  lemma TimerStep(s: Sys, m: Medium)
    requires Enabled(s, TimerFires(m))
    ensures Step(s, TimerFires(m)) == OnTimer(s, m)
  {}

  lemma OtherStays(s: Sys, m: Medium)
    requires s.queue != [] && m in s.ts && s.queue[0].medium != m && s.queue[0].medium in s.ts
    requires Advances(s.(queue := s.queue[1..]), s.queue[0].medium, Step(s, RunTask))
    ensures m in Step(s, RunTask).ts && Step(s, RunTask).ts[m].state == s.ts[m].state
  {
    hide Perform;
  }

  // ---------- ICE connections ----------

  /** Why an event brings the ICE connection of m into the state i */
  predicate IceCause(s: Sys, e: Event, m: Medium, i: IceState)
    requires m in s.ts
  {
    var ice := s.ts[m].ice;
    match e
    case ComponentState(x, comp, ready) =>
      && x == m && i == (if ready then IceReady else IceFailed)
      && AllComps(ice.comps[comp := i], ice.components, i)
      && (!ready ==> ice.receivedLast || ice.state == IceReady)
    case GatheringDone(x) => x == m && i == CandidatesReceived
    case RemoteCandidates(x) => x == m && !ice.agent && i == IceFinished
    case CloseAll => i == IceFinished
    case _ => false
  }

  lemma UpdateIs(i: Ice, st: IceState)
    ensures var (i', told) := UpdateIceState(i, st);
            && i'.state == (if IceRank(st) > IceRank(i.state) then st else i.state)
            && (told <==> IceRank(st) > IceRank(i.state) && st != IceFinished && i.listening)
  {}

  lemma ComponentIs(i: Ice, comp: nat, ready: bool)
    ensures var st := if ready then IceReady else IceFailed;
            var (i', told) := UpdateComponent(i, comp, st);
            var enters := AllComps(i.comps[comp := st], i.components, st)
                && (ready || i.receivedLast || i.state == IceReady)
                          && IceRank(st) > IceRank(i.state);
            i'.state == (if enters then st else i.state) && (told <==> enters && i.listening)
  {
    hide AllComps, UpdateIceState;
    var st := if ready then IceReady else IceFailed;
    UpdateIs(i.(comps := i.comps[comp := st]), st);
  }

  lemma CloseIceIs(i: Ice)
    ensures CloseIce(i).state == if IceRank(IceFinished) > IceRank(i.state) then IceFinished else i.state
  {
    hide UpdateIceState;
    UpdateIs(i, IceFinished);
  }

  /** An event brings an ICE connection into another state if and only if it causes that and the state comes later. Its
      listener is told just then, unless it is closed. */
  lemma IceFollows(s: Sys, e: Event, m: Medium, i: IceState)
    requires Inv(s) && Enabled(s, e) && m in s.ts && i != s.ts[m].ice.state
    ensures m in Step(s, e).ts
    ensures var s' := Step(s, e);
            var enters := IceCause(s, e, m, i) && IceRank(i) > IceRank(s.ts[m].ice.state);
            && (s'.ts[m].ice.state == i <==> enters)
            && (enters && i != IceFinished ==>
                  s'.queue == s.queue + if s.ts[m].ice.listening then [IceUpdate(m, i)] else [])
  {
    hide Inv, Step, IceCause;
    if e.RunTask? || e.TimerFires? {
      WorkerIce(s, e, m);
    } else if e.CloseAll? || e.RemoteCandidates? {
      CloserIce(s, e, m, i);
    } else {
      AgentIce(s, e, m, i);
    }
  }

  lemma AdvancesIce(s: Sys, x: Medium, s': Sys, m: Medium)
    requires x in s.ts && m in s.ts && Advances(s, x, s')
    ensures m in s'.ts && s'.ts[m].ice == s.ts[m].ice
  {}

  /** Tasks and timers leave ICE connections alone. */
  lemma WorkerIce(s: Sys, e: Event, m: Medium)
    requires Inv(s) && Enabled(s, e) && m in s.ts && (e.RunTask? || e.TimerFires?)
    ensures m in Step(s, e).ts && Step(s, e).ts[m].ice == s.ts[m].ice && forall i :: !IceCause(s, e, m, i)
  {
    hide Inv, Perform, OnTimer, Advances;
    if e == RunTask {
      RunTaskKeeps(s);
      AdvancesIce(s.(queue := s.queue[1..]), s.queue[0].medium, Step(s, e), m);
    } else {
      TimerKeeps(s, e.medium);
      AdvancesIce(s, e.medium, Step(s, e), m);
    }
  }

  lemma CloserIce(s: Sys, e: Event, m: Medium, i: IceState)
    requires Enabled(s, e) && m in s.ts && (e.CloseAll? || e.RemoteCandidates?) && i != s.ts[m].ice.state
    ensures m in Step(s, e).ts && (IceCause(s, e, m, i) ==> i == IceFinished)
    ensures Step(s, e).ts[m].ice.state == i <==> IceCause(s, e, m, i) && IceRank(i) > IceRank(s.ts[m].ice.state)
  {
    hide CloseIce, Step, IceRank;
    CloseIceIs(s.ts[m].ice);
    if e.CloseAll? { ClosedIces(s, m); } else { RemoteIs(s, e.medium, m); }
  }

  lemma ClosedIces(s: Sys, m: Medium)
    requires m in s.ts
    ensures m in Step(s, CloseAll).ts && Step(s, CloseAll).ts[m].ice == CloseIce(s.ts[m].ice)
  {
    hide CloseIce;
  }

  lemma RemoteIs(s: Sys, x: Medium, m: Medium)
    requires x in s.ts && m in s.ts
    ensures m in Step(s, RemoteCandidates(x)).ts
    ensures Step(s, RemoteCandidates(x)).ts[m].ice
         == if x == m && !s.ts[m].ice.agent then CloseIce(s.ts[m].ice) else s.ts[m].ice
  {
    hide CloseIce;
  }

  lemma WithIceIs(s: Sys, x: Medium, p: (Ice, bool), m: Medium)
    requires x in s.ts && m in s.ts
    ensures var s' := WithIce(s, x, p);
            && m in s'.ts && s'.ts[m].ice == (if x == m then p.0 else s.ts[m].ice)
            && s'.queue == s.queue + if p.1 then [IceUpdate(x, p.0.state)] else []
  {}

  lemma AgentIce(s: Sys, e: Event, m: Medium, i: IceState)
    requires Enabled(s, e) && m in s.ts && i != s.ts[m].ice.state
    requires !e.RunTask? && !e.TimerFires? && !e.CloseAll? && !e.RemoteCandidates?
    ensures m in Step(s, e).ts
    ensures var s' := Step(s, e);
            var enters := IceCause(s, e, m, i) && IceRank(i) > IceRank(s.ts[m].ice.state);
            && (s'.ts[m].ice.state == i <==> enters)
            && (enters ==> s'.queue == s.queue + if s.ts[m].ice.listening then [IceUpdate(m, i)] else [])
  {
    hide UpdateComponent, UpdateIceState, AllComps, IceRank, WithIce;
    match e {
      case ComponentState(x, comp, ready) =>
        ComponentIs(s.ts[x].ice, comp, ready);
        WithIceIs(s, x, UpdateComponent(s.ts[x].ice, comp, if ready then IceReady else IceFailed), m);
      case GatheringDone(x) =>
        UpdateIs(s.ts[x].ice, CandidatesReceived);
        WithIceIs(s, x, UpdateIceState(s.ts[x].ice, CandidatesReceived), m);
      case _ =>
    }
  }

  // ---------- The handshake ----------

  /** A client starts its handshake when its ICE connection is ready, and has it checked until it is secured. */
  lemma HandshakeStarts(s: Sys, m: Medium)
    requires Enabled(s, RunTask) && m in s.ts && s.queue[0] == IceUpdate(m, IceReady)
    ensures var t := s.ts[m];
            m in Step(s, RunTask).ts
            && Step(s, RunTask).ts[m]
            == if t.running && !t.server && !t.started then t.(started := true, timer := t.state != TReady) else t
  {}

  function Fires(m: Medium, n: nat): (es: seq<Event>) {
    seq(n, i => TimerFires(m))
  }

  predicate Checked(s: Sys, m: Medium, st: TState, checks: nat) {
    m in s.ts && s.ts[m].timer && s.ts[m].state == st && s.ts[m].checks == checks
  }

  /** A check of a handshake that is not done counts down, and fails it at the end. */
  lemma CheckStep(s: Sys, m: Medium, st: TState, checks: nat)
    requires Checked(s, m, st, checks) && st != TReady
    ensures Enabled(s, TimerFires(m))
    ensures var s' := Step(s, TimerFires(m));
            if checks > 0 then Checked(s', m, st, checks - 1)
            else m in s'.ts && s'.ts[m].state == TFailed && !s'.ts[m].running
  {
    hide UpdateState;
  }

  /** The check of a handshake that is done is the last one. */
  lemma CheckEnds(s: Sys, m: Medium, checks: nat)
    requires Checked(s, m, TReady, checks)
    ensures Enabled(s, TimerFires(m)) && Step(s, TimerFires(m)) == s.(ts := s.ts[m := s.ts[m].(timer := false)])
  {}

  /** A handshake that makes no progress fails with the check after the last one that it is allowed, and not before. */
  lemma {:induction false} ChecksRunOut(s: Sys, m: Medium, st: TState, checks: nat, n: nat)
    requires Checked(s, m, st, checks) && st != TReady && n <= checks + 1
    ensures Legal(s, Fires(m, n))
    ensures var s' := Exec(s, Fires(m, n));
            if n <= checks then Checked(s', m, st, checks - n)
            else m in s'.ts && s'.ts[m].state == TFailed && !s'.ts[m].running
    decreases n
  {
    hide Step, Enabled;
    if n > 0 {
      CheckStep(s, m, st, checks);
      var es := Fires(m, n);
      assert es[0] == TimerFires(m) && es[1..] == Fires(m, n - 1);
      if checks > 0 {
        ChecksRunOut(Step(s, TimerFires(m)), m, st, checks - 1, n - 1);
      } else {
        assert es[1..] == [];
      }
    }
  }

  // ---------- What stops a transport ----------

  /** Why an event stops the transport m for good: its ICE connection or its handshake has failed, its data have ended,
      or it is closed. */
  predicate Stops(s: Sys, e: Event, m: Medium)
    requires m in s.ts && Enabled(s, e)
  {
    match e
    case RunTask =>
      && s.queue[0].medium == m
      && (match s.queue[0]
          case IceUpdate(_, i) => i == IceFailed
          case Received(_, _, length, p) => length == -1 || (length > 0 && p.Dtls? && p.outcome.HandshakeFailed?))
    case TimerFires(x) => x == m && s.ts[m].state != TReady && s.ts[m].checks == 0
    case CloseAll => true
    case _ => false
  }

  lemma CompletedRuns(s: Sys, m: Medium, comp: nat, keysOk: bool)
    requires m in s.ts
    ensures m in OnCompleted(s, m, comp, keysOk).ts && OnCompleted(s, m, comp, keysOk).ts[m].running == s.ts[m].running
  {
    hide SetTransport, InstallRtp, InstallRtcp;
    var s1 := if comp == 1 then InstallRtp(s, m, keysOk) else InstallRtcp(s, m, keysOk);
    InstalledRuns(s, m, keysOk);
    SetRuns(s1, m, TReady);
  }

  lemma SetRuns(s: Sys, m: Medium, st: TState)
    requires m in s.ts
    ensures m in SetTransport(s, m, st).ts && SetTransport(s, m, st).ts[m] == s.ts[m].(state := st)
  {
    hide UpdateState;
  }

  lemma InstalledRuns(s: Sys, m: Medium, keysOk: bool)
    requires m in s.ts
    ensures InstallRtp(s, m, keysOk).ts[m].running == InstallRtcp(s, m, keysOk).ts[m].running == s.ts[m].running
  {
    hide SetTransport;
    var t := s.ts[m].(timer := false, rtpDone := true, srtp := Channel(keysOk), readyRtp := keysOk);
    var u := s.ts[m].(timer := false, rtcpDone := true, srtcp := Channel(keysOk), readyRtcp := keysOk);
    SetRuns(Put(s, m, t), m, TFailed);
    SetRuns(Put(s, m, u), m, TFailed);
  }

  lemma ReportRuns(s: Sys, m: Medium, i: IceState)
    requires m in s.ts
    ensures m in OnIceUpdate(s, m, i).ts
    ensures OnIceUpdate(s, m, i).ts[m].running == (s.ts[m].running && i != IceFailed)
  {
    hide UpdateState;
  }

  lemma PacketRuns(s: Sys, m: Medium, comp: nat, length: int, p: Packet)
    requires m in s.ts
    ensures m in OnReceived(s, m, comp, length, p).ts
    ensures var stops := length == -1 || (length > 0 && p.Dtls? && p.outcome.HandshakeFailed?);
            OnReceived(s, m, comp, length, p).ts[m].running == (s.ts[m].running && !stops)
  {
    hide UpdateState, OnCompleted;
    if p.Dtls? && p.outcome.Completed? { CompletedRuns(s, m, comp, p.outcome.keysOk); }
  }

  lemma TimerRuns(s: Sys, m: Medium)
    requires m in s.ts
    ensures m in OnTimer(s, m).ts
    ensures OnTimer(s, m).ts[m].running == (s.ts[m].running && !(s.ts[m].state != TReady && s.ts[m].checks == 0))
  {
    hide OnHandshakeFailed, Put;
    var t := s.ts[m];
    PutIs(s, m, t.(timer := false));
    if t.checks > 0 { PutIs(s, m, t.(checks := t.checks - 1)); }
    FailedIs(Put(s, m, t.(timer := false)), m);
  }

  lemma OthersRun(s: Sys, e: Event, m: Medium)
    requires Enabled(s, e) && m in s.ts && !e.RunTask? && !e.TimerFires? && !e.CloseAll?
    ensures m in Step(s, e).ts && Step(s, e).ts[m].running == s.ts[m].running
  {
    hide UpdateComponent, UpdateIceState, CloseIce, StartIce;
  }

  lemma AdvancesOther(s: Sys, x: Medium, s': Sys, m: Medium)
    requires x in s.ts && m in s.ts && m != x && Advances(s, x, s')
    ensures m in s'.ts && s'.ts[m] == s.ts[m]
  {}

  /** A transport runs after an event if and only if it ran before and the event does not stop it. */
  lemma StopsIff(s: Sys, e: Event, m: Medium)
    requires Inv(s) && Enabled(s, e) && m in s.ts
    ensures m in Step(s, e).ts && (Step(s, e).ts[m].running <==> s.ts[m].running && !Stops(s, e, m))
  {
    hide Inv, OnTimer, OnIceUpdate, OnReceived, Advances;
    if e == RunTask {
      var s0 := s.(queue := s.queue[1..]);
      if s.queue[0].medium == m {
        match s.queue[0] {
          case IceUpdate(_, i) => ReportRuns(s0, m, i);
          case Received(_, comp, length, p) => PacketRuns(s0, m, comp, length, p);
        }
      } else {
        RunTaskKeeps(s);
        AdvancesOther(s0, s.queue[0].medium, Step(s, e), m);
      }
    } else if e.TimerFires? {
      TimerKeeps(s, e.medium);
      if e.medium == m { TimerRuns(s, m); } else { AdvancesOther(s, e.medium, Step(s, e), m); }
    } else if !e.CloseAll? {
      OthersRun(s, e, m);
    }
  }

  /** Nothing is left that could call the transport back. */
  predicate Silent(t: Transport) {
    !t.running && !t.timer && !t.ice.agent && t.ice.state != IceInitial
  }

  predicate AllSilent(s: Sys) {
    forall m :: m in s.ts ==> Silent(s.ts[m])
  }

  predicate Suffix(q: seq<Task>, of: seq<Task>) {
    |q| <= |of| && q == of[|of| - |q|..]
  }

  lemma SuffixTrans(q: seq<Task>, q1: seq<Task>, q2: seq<Task>)
    requires Suffix(q, q1) && Suffix(q1, q2)
    ensures Suffix(q, q2)
  {
    assert q == q2[|q2| - |q1|..][|q1| - |q|..];
  }

  /** A closed ICE connection has no agent. */
  predicate Unplugged(i: Ice) {
    i.state == IceFinished ==> !i.agent
  }

  predicate AllUnplugged(s: Sys) {
    forall m :: m in s.ts ==> Unplugged(s.ts[m].ice)
  }

  lemma IceUnplugged(i: Ice, comp: nat, ready: bool)
    requires Unplugged(i)
    ensures Unplugged(UpdateComponent(i, comp, if ready then IceReady else IceFailed).0)
    ensures Unplugged(UpdateIceState(i, CandidatesReceived).0)
    ensures Unplugged(CloseIce(i)) && Unplugged(StartIce(i))
  {
    hide AllComps;
  }

  lemma StepUnplugged(s: Sys, e: Event)
    requires Inv(s) && Enabled(s, e) && AllUnplugged(s)
    ensures AllUnplugged(Step(s, e))
  {
    hide Inv, UpdateComponent, UpdateIceState, CloseIce, StartIce, Perform, OnTimer;
    StepKeys(s, e);
    forall m | m in s.ts ensures m in Step(s, e).ts && Unplugged(Step(s, e).ts[m].ice) {
      if e.RunTask? || e.TimerFires? {
        WorkerIce(s, e, m);
      } else {
        var (comp, ready) := if e.ComponentState? then (e.comp, e.ready) else (0, false);
        IceUnplugged(s.ts[m].ice, comp, ready);
      }
    }
  }

  lemma StepKeys(s: Sys, e: Event)
    requires Inv(s) && Enabled(s, e)
    ensures Step(s, e).ts.Keys == s.ts.Keys
  {
    hide Step, Enabled, TransportOk, QueueOk, ConnOk;
    StepKeeps(s, e);
    StepOnward(s, e);
  }

  lemma {:induction false} RunUnplugged(s: Sys, es: seq<Event>)
    requires Inv(s) && Legal(s, es) && AllUnplugged(s)
    ensures AllUnplugged(Exec(s, es))
    decreases |es|
  {
    hide Inv, Step, Enabled, AllUnplugged;
    if es != [] {
      StepUnplugged(s, es[0]);
      StepKeeps(s, es[0]);
      RunUnplugged(Step(s, es[0]), es[1..]);
    }
  }

  lemma ClosedSilent(t: Transport)
    requires Unplugged(t.ice)
    ensures Silent(CloseTransport(t)) && (t.ice.state != IceFinished ==> !CloseTransport(t).ice.listening)
  {}

  lemma SilentStep(s: Sys, e: Event)
    requires AllSilent(s) && Enabled(s, e)
    ensures AllSilent(Step(s, e)) && Suffix(Step(s, e).queue, s.queue)
  {
    hide UpdateComponent, UpdateIceState, SetTransport, OnCompleted, WithIce, Put, CloseIce, StartIce, CloseTransport,
         AllSilent;
    SelfSuffix(s.queue);
    if e == CloseAll {
      SilentUnplugged(s);
      CloseSilences(s);
    } else if e == RunTask {
      QueueSilent(s, s.queue[1..]);
      SilentTask(s.(queue := s.queue[1..]), s.queue[0]);
    } else {
      SilentAt(s, e.medium);
      match e {
        case Start(m) =>
          SilentIce(s.ts[m].ice);
          PutSilent(s, m, s.ts[m].(ice := StartIce(s.ts[m].ice)));
        case LastCandidate(m, b) => PutSilent(s, m, s.ts[m].(ice := s.ts[m].ice.(receivedLast := b)));
        case RemoteCandidates(m) =>
          SilentIce(s.ts[m].ice);
          PutSilent(s, m, s.ts[m].(ice := CloseIce(s.ts[m].ice)));
        case _ =>
      }
    }
  }

  lemma CloseSilences(s: Sys)
    requires AllUnplugged(s)
    ensures AllSilent(Step(s, CloseAll)) && Step(s, CloseAll).queue == s.queue
    ensures forall m :: m in s.ts && s.ts[m].ice.state != IceFinished ==> !Step(s, CloseAll).ts[m].ice.listening
  {
    hide CloseTransport;
    forall m | m in s.ts
      ensures Silent(CloseTransport(s.ts[m]))
           && (s.ts[m].ice.state != IceFinished ==> !CloseTransport(s.ts[m]).ice.listening)
    {
      ClosedSilent(s.ts[m]);
    }
  }

  lemma SilentUnplugged(s: Sys)
    requires AllSilent(s)
    ensures AllUnplugged(s)
  {}

  lemma SilentAt(s: Sys, m: Medium)
    requires AllSilent(s) && m in s.ts
    ensures Silent(s.ts[m])
  {}

  lemma QueueSilent(s: Sys, q: seq<Task>)
    requires AllSilent(s)
    ensures AllSilent(s.(queue := q))
  {}

  lemma PutSilent(s: Sys, m: Medium, t: Transport)
    requires AllSilent(s) && Silent(t)
    ensures AllSilent(Put(s, m, t)) && Put(s, m, t).queue == s.queue
  {}

  lemma SilentIce(i: Ice)
    requires !i.agent && i.state != IceInitial
    ensures !StartIce(i).agent && StartIce(i).state != IceInitial
    ensures !CloseIce(i).agent && CloseIce(i).state != IceInitial
  {}

  lemma SilentTask(s: Sys, t: Task)
    requires AllSilent(s)
    ensures AllSilent(Perform(s, t)) && Perform(s, t).queue == s.queue
  {
    hide SetTransport, OnCompleted, OnHandshakeFailed, AllSilent, Put;
    if t.medium in s.ts {
      SilentAt(s, t.medium);
      PutSilent(s, t.medium, s.ts[t.medium].(running := false));
    }
  }

  lemma {:induction false} SilentRuns(s: Sys, es: seq<Event>)
    requires AllSilent(s) && Legal(s, es)
    ensures AllSilent(Exec(s, es)) && Suffix(Exec(s, es).queue, s.queue)
    decreases |es|
  {
    hide Step, Enabled, AllSilent, Suffix;
    if es == [] {
      assert Suffix(s.queue, s.queue) by { SelfSuffix(s.queue); }
    } else {
      SilentStep(s, es[0]);
      SilentRuns(Step(s, es[0]), es[1..]);
      SuffixTrans(Exec(s, es).queue, Step(s, es[0]).queue, s.queue);
    }
  }

  lemma SelfSuffix(q: seq<Task>)
    ensures Suffix(q, q)
  {}

  /** After a connection is closed nothing is posted to its worker any more, in any run: only the tasks that are there
      are left, no timer runs, no agent calls back and no transport runs. */
  lemma ClosedIsSilent(cfg: Config, es: seq<Event>, more: seq<Event>)
    requires Legal(Init(cfg), es) && Legal(Step(Exec(Init(cfg), es), CloseAll), more)
    ensures var s := Exec(Init(cfg), es);
            var s1 := Step(s, CloseAll);
            && (forall m :: m in s.ts && s.ts[m].ice.state != IceFinished ==> m in s1.ts && !s1.ts[m].ice.listening)
            && AllSilent(Exec(s1, more)) && Suffix(Exec(s1, more).queue, s.queue)
  {
    hide Exec, Legal, Suffix, Inv, AllUnplugged, AllSilent, CloseTransport;
    InitOk(cfg);
    assert AllUnplugged(Init(cfg)) by { NewUnplugged(cfg); }
    RunUnplugged(Init(cfg), es);
    CloseSilences(Exec(Init(cfg), es));
    SilentRuns(Step(Exec(Init(cfg), es), CloseAll), more);
  }

  lemma NewUnplugged(cfg: Config)
    ensures AllUnplugged(Init(cfg))
  {}

  // ---------- The connection ----------

  /** Some transport enters the state. */
  predicate Enters(s: Sys, s': Sys, st: TState) {
    exists m :: m in s.ts && m in s'.ts && s.ts[m].state != st && s'.ts[m].state == st
  }

  /** What the new states of its transports mean to a connection that is neither failed nor closed */
  predicate Verdict(s: Sys, s': Sys, c: CState) {
    if Enters(s, s', TFailed) then c == CFailed
    else if Enters(s, s', TReady) && (s.cfg.bundle || AllAre(s', s.cfg.remote, TReady)) then c == CReady
    else if Enters(s, s', TGathered) && !s.cfg.trickle && (s.cfg.bundle || AllAre(s', s.cfg.local, TGathered)) then
      c == CGathered
    else c == s.conn.state
  }

  predicate Open(c: Conn) {
    c.state != CFailed && c.state != CFinished
  }

  lemma MovedEnters(s: Sys, m: Medium, s': Sys, st: TState)
    requires Moved(s, m, s')
    ensures Enters(s, s', st) <==> s.ts[m].state != st && s'.ts[m].state == st
  {}

  lemma SameAll(s: Sys, c: Conn, ms: set<Medium>, st: TState)
    ensures AllAre(s.(conn := c), ms, st) <==> AllAre(s, ms, st)
  {}

  lemma VerdictIs(s: Sys, m: Medium, s': Sys)
    requires Inv(s) && Inv(s') && Moved(s, m, s') && Told(s, m, s') && Open(s.conn)
    ensures Verdict(s, s', s'.conn.state)
    ensures s'.conn.notes == s.conn.notes + if s'.conn.state == s.conn.state then [] else [s'.conn.state]
    ensures s'.conn.sending == (s.conn.sending && !Enters(s, s', TFailed))
  {
    hide QueueOk, TransportOk, Enters, AllAre;
    ReadyTransport(s', m);
    MovedEnters(s, m, s', TFailed);
    MovedEnters(s, m, s', TReady);
    MovedEnters(s, m, s', TGathered);
    SameAll(s', s.conn, s.cfg.remote, TReady);
    SameAll(s', s.conn, s.cfg.local, TGathered);
  }

  /** In every run, an event that is not the closing one brings the connection to the verdict that the new states of its
      transports mean, and to no other; a change is reported, and a transport that fails stops the sending. */
  lemma ConnectionFollows(cfg: Config, es: seq<Event>, e: Event)
    requires Legal(Init(cfg), es) && Enabled(Exec(Init(cfg), es), e) && e != CloseAll
    ensures var s := Exec(Init(cfg), es);
            var s' := Step(s, e);
            if Open(s.conn) then
              && Verdict(s, s', s'.conn.state)
              && s'.conn.notes == s.conn.notes + (if s'.conn.state == s.conn.state then [] else [s'.conn.state])
              && s'.conn.sending == (s.conn.sending && !Enters(s, s', TFailed))
            else s'.conn.state == s.conn.state && s'.conn.notes == s.conn.notes && !s'.conn.sending
  {
    hide Inv, Exec, Legal, Step, Enabled, Verdict, Enters, Told, Moved;
    InitOk(cfg);
    RunKeeps(Init(cfg), es);
    var s := Exec(Init(cfg), es);
    StepKeeps(s, e);
    FailedStep(s, e);
    if Open(s.conn) {
      var m := StepTold(s, e);
      VerdictIs(s, m, Step(s, e));
    } else {
      SilentConn(s);
    }
  }

  lemma SilentConn(s: Sys)
    requires Inv(s) && !Open(s.conn)
    ensures !s.conn.sending
  {}

  /** A transport that fails makes an open connection fail, and that is reported; nothing else makes it fail. */
  lemma FailureIsReported(cfg: Config, es: seq<Event>, e: Event)
    requires Legal(Init(cfg), es) && Enabled(Exec(Init(cfg), es), e) && Open(Exec(Init(cfg), es).conn)
    ensures var s := Exec(Init(cfg), es);
            var s' := Step(s, e);
            && (e != CloseAll ==> (s'.conn.state == CFailed <==> Enters(s, s', TFailed)))
            && (s'.conn.state == CFailed ==>
                  !s'.conn.sending && s'.conn.notes != [] && s'.conn.notes[|s'.conn.notes| - 1] == CFailed)
  {
    hide Exec, Legal, Enabled, Enters, AllAre, Perform, OnTimer, WithIce, StartIce, CloseIce;
    if e != CloseAll { ConnectionFollows(cfg, es, e); }
  }

  // ---------- Which connections can fail, and which can report that they have gathered ----------

  lemma FailStep(s: Sys, m: Medium)
    requires Fresh(s, m)
    ensures var s1 := Step(s, Start(m));
            && Enabled(s, Start(m)) && m in s1.ts && Enabled(s1, LastCandidate(m, true))
            && var s2 := Step(s1, LastCandidate(m, true));
               && m in s2.ts && s2.queue == [] && s2.conn == s.conn
               && s2.ts[m].running && s2.ts[m].state == TInitial
               && s2.ts[m].ice == StartIce(NewIce(1)).(receivedLast := true)
  {}

  lemma FailedIce(s: Sys, m: Medium)
    requires m in s.ts && s.queue == [] && s.ts[m].running && s.ts[m].state == TInitial
    requires s.ts[m].ice == StartIce(NewIce(1)).(receivedLast := true)
    ensures var e := ComponentState(m, 1, false);
            && Enabled(s, e)
            && var s1 := Step(s, e);
               && s1.queue == [IceUpdate(m, IceFailed)] && s1.conn == s.conn
               && m in s1.ts && s1.ts[m].running && s1.ts[m].state == TInitial
  {
    var i := s.ts[m].ice;
    assert CompState(i.comps[1 := IceFailed], 1) == IceFailed;
  }

  lemma FailedTransport(s: Sys, m: Medium)
    requires m in s.ts && s.queue == [IceUpdate(m, IceFailed)] && s.ts[m].running && s.ts[m].state == TInitial
    ensures Enabled(s, RunTask) && m in Step(s, RunTask).ts && Step(s, RunTask).ts[m].state == TFailed
  {
    SetIs(s.(queue := []), m, s.ts[m].(running := false), TFailed);
    assert s.queue[1..] == [];
  }

  lemma ReachesFailed(cfg: Config) returns (es: seq<Event>)
    requires cfg.present != {}
    ensures Legal(Init(cfg), es)
    ensures var c := Exec(Init(cfg), es).conn; c.state == CFailed && c.notes == [CFailed]
  {
    hide Step, Enabled, Legal, Exec, Verdict, Inv;
    var m :| m in cfg.present;
    var s := Init(cfg);
    FailStep(s, m);
    var s2 := Step(Step(s, Start(m)), LastCandidate(m, true));
    FailedIce(s2, m);
    var s3 := Step(s2, ComponentState(m, 1, false));
    FailedTransport(s3, m);
    var es3 := [Start(m), LastCandidate(m, true), ComponentState(m, 1, false)];
    Exec3(s, Start(m), LastCandidate(m, true), ComponentState(m, 1, false));
    OneMore(s, es3, RunTask);
    es := es3 + [RunTask];
    assert Enters(s3, Step(s3, RunTask), TFailed);
    FailureIsReported(cfg, es3, RunTask);
    ConnectionFollows(cfg, es3, RunTask);
  }

  lemma OneMore(s: Sys, es: seq<Event>, e: Event)
    requires Legal(s, es) && Enabled(Exec(s, es), e)
    ensures Legal(s, es + [e]) && Exec(s, es + [e]) == Step(Exec(s, es), e)
  {
    hide Step, Enabled;
    var s1 := Exec(s, es);
    assert Legal(Step(s1, e), []);
    ExecMore(s1, e, []);
    assert [e] + [] == [e];
    ExecJoins(s, es, [e]);
  }

  lemma {:induction false} NeverFails(s: Sys, es: seq<Event>)
    requires Inv(s) && Legal(s, es) && s.cfg.present == {} && s.conn.state != CFailed
    ensures Exec(s, es).conn.state != CFailed
    decreases |es|
  {
    hide Step, Enabled, QueueOk;
    if es != [] {
      StepKeeps(s, es[0]);
      StepOnward(s, es[0]);
      NoTransport(s, es[0]);
      NeverFails(Step(s, es[0]), es[1..]);
    }
  }

  lemma NoTransport(s: Sys, e: Event)
    requires Inv(s) && Enabled(s, e) && s.cfg.present == {} && s.conn.state != CFailed
    ensures Step(s, e).conn.state != CFailed
  {
    hide TransportOk, ConnOk;
    if s.queue != [] { HeadKnown(s); }
  }

  lemma HeadKnown(s: Sys)
    requires QueueOk(s) && s.queue != []
    ensures s.queue[0].medium in s.ts
  {
    assert TaskOk(s, 0);
  }

  /** Some run makes the connection fail, and report it, if and only if it has a transport. */
  lemma FailedIffPossible(cfg: Config)
    ensures (exists es :: Legal(Init(cfg), es) && Exec(Init(cfg), es).conn.state == CFailed) <==> cfg.present != {}
    ensures cfg.present != {} ==> exists es :: Legal(Init(cfg), es) && CFailed in Exec(Init(cfg), es).conn.notes
  {
    hide Legal, Exec, Init;
    InitOk(cfg);
    InitCfg(cfg);
    InitOpen(cfg);
    if cfg.present != {} {
      var es := ReachesFailed(cfg);
    } else if es :| Legal(Init(cfg), es) && Exec(Init(cfg), es).conn.state == CFailed {
      NeverFails(Init(cfg), es);
    }
  }

  lemma InitOpen(cfg: Config)
    ensures Init(cfg).conn == Conn(CInitial, true, true, [])
  {}

  predicate CanGather(cfg: Config) {
    !cfg.trickle && cfg.present != {} && (cfg.bundle || cfg.local <= cfg.present)
  }

  /** A fresh transport gathers; the connection hears of it. */
  lemma Gathers(s: Sys, m: Medium) returns (es: seq<Event>, s': Sys)
    requires Fresh(s, m) && Alive(s.conn) && !s.cfg.trickle
    ensures Legal(s, es) && s' == Exec(s, es)
    ensures s'.cfg == s.cfg && s'.ts.Keys == s.ts.Keys && s'.ts[m].state == TGathered && s'.queue == []
    ensures forall x :: x in s.ts && x != m ==> s'.ts[x] == s.ts[x]
    ensures Alive(s'.conn)
    ensures s'.conn.state == if s.cfg.bundle || AllAre(s', s.cfg.local, TGathered) then CGathered else s.conn.state
  {
    hide Legal, Exec, AllAre;
    es, s' := GatheringRun(s, m);
    SameAll(s', s.conn, s.cfg.local, TGathered);
  }

  lemma ReachesGathered(cfg: Config) returns (es: seq<Event>)
    requires CanGather(cfg)
    ensures Legal(Init(cfg), es) && Exec(Init(cfg), es).conn.state == CGathered
  {
    hide Legal, Exec;
    var x :| x in cfg.present && (cfg.bundle || x in cfg.local || cfg.local == {});
    var y := OtherThan(x);
    var es1, s1 := Gathers(Init(cfg), x);
    es := es1;
    if !cfg.bundle && y in cfg.local {
      var es2, s2 := Gathers(s1, y);
      ExecJoins(Init(cfg), es1, es2);
      assert x == Video || x == Audio;
      assert AllAre(s2, cfg.local, TGathered);
      es := es1 + es2;
    } else if !cfg.bundle {
      assert x == Video || x == Audio;
      assert AllAre(s1, cfg.local, TGathered);
    }
  }

  lemma GatheredOnlyIf(s: Sys, e: Event)
    requires Inv(s) && Enabled(s, e) && s.conn.state != CGathered && Step(s, e).conn.state == CGathered
    ensures CanGather(s.cfg)
  {
    hide TransportOk, QueueOk, Step, Told, ConnOk;
    CloseIsNotReady(s);
    StepKeeps(s, e);
    FailedStep(s, e);
    var s' := Step(s, e);
    var m := StepTold(s, e);
    VerdictIs(s, m, s');
    if !s.cfg.bundle {
      forall x | x in s.cfg.local ensures x in s.cfg.present {
        assert x == Video || x == Audio;
        assert Holds(s', x, TGathered);
      }
    }
  }

  lemma {:induction false} GathersOnlyIf(s: Sys, es: seq<Event>)
    requires Inv(s) && Legal(s, es) && (s.conn.state == CGathered ==> CanGather(s.cfg))
    ensures Exec(s, es).conn.state == CGathered ==> CanGather(s.cfg)
    decreases |es|
  {
    hide Inv, Step, Enabled, CanGather;
    if es != [] {
      StepKeeps(s, es[0]);
      StepOnward(s, es[0]);
      if s.conn.state != CGathered && Step(s, es[0]).conn.state == CGathered { GatheredOnlyIf(s, es[0]); }
      GathersOnlyIf(Step(s, es[0]), es[1..]);
    }
  }

  /** Some run makes the connection report that it has gathered if and only if candidates are not trickled, it has a
      transport, and so has every local medium, unless the media are bundled. */
  lemma GatheredIffPossible(cfg: Config)
    ensures (exists es :: Legal(Init(cfg), es) && Exec(Init(cfg), es).conn.state == CGathered) <==> CanGather(cfg)
  {
    hide Legal, Exec, CanGather, Init;
    InitOk(cfg);
    InitCfg(cfg);
    InitOpen(cfg);
    if es :| Legal(Init(cfg), es) && Exec(Init(cfg), es).conn.state == CGathered {
      GathersOnlyIf(Init(cfg), es);
    }
    if CanGather(cfg) {
      var es := ReachesGathered(cfg);
    }
  }
}
