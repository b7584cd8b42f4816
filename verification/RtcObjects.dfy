/** The objects of a session, updated in place as the source does: a connection with its transports, each with its ICE
    connection. Every event keeps the invariant of RtcInvariants and is the step of RtcSession. */
module RtcObjects {
  import opened RtcSession
  import opened RtcInvariants

  /** IceConnection with the parts of LibNiceConnection that decide its state. */
  class IceConnection {
    var state: IceState
    var comps: map<nat, IceState>
    const components: nat
    var receivedLast: bool
    var agent: bool
    var listening: bool
    ghost var trail: seq<IceState>
    ghost var atReady: map<nat, IceState>
    ghost var atFailed: map<nat, IceState>
    ghost var lastAtFailed: bool

    ghost function Abs(): (i: Ice)
      reads this
    {
      Ice(state, comps, components, receivedLast, agent, listening, trail, atReady, atFailed, lastAtFailed)
    }

    constructor (n: nat)
      ensures Abs() == NewIce(n)
    {
      state, components, receivedLast, agent, listening, trail := IceInitial, n, false, false, false, [];
      comps, atReady, atFailed, lastAtFailed := map[], map[], map[], false;
      new;
      var i := 1;
      while i <= n
        invariant 1 <= i <= n + 1 && comps == Filled(i - 1, IceInitial)
        invariant Abs() == NewIce(n).(comps := comps)
      {
        comps := comps[i := IceInitial];
        i := i + 1;
      }
    }

    /** updateIceState. The result says whether the listener is called. */
    method UpdateIceState(s: IceState) returns (told: bool)
      requires IceOk(Abs()) && Deserves(Abs(), s)
      modifies this
      ensures IceGrows(old(Abs()), (Abs(), told)) && (Abs(), told) == RtcSession.UpdateIceState(old(Abs()), s)
    {
      hide IceOk, Deserves;
      UpdateGrows(Abs(), s);
      if IceRank(s) <= IceRank(state) { return false; }
      if s == IceReady { atReady := comps; }
      if s == IceFailed { atFailed, lastAtFailed := comps, receivedLast; }
      state, trail := s, trail + [s];
      if s == IceFinished { return false; }
      told := listening;
    }

    /** The loop over comp_state_list_ */
    method AllInState(s: IceState) returns (all: bool)
      ensures all == AllComps(comps, components, s)
    {
      var i := 1;
      while i <= components
        invariant 1 <= i <= components + 1
        invariant forall k :: 1 <= k < i ==> CompState(comps, k) == s
      {
        if (if i in comps then comps[i] else IceInitial) != s {
          assert CompState(comps, i) != s;
          return false;
        }
        i := i + 1;
      }
      return true;
    }

    /** updateComponentState: the connection becomes ready with its last component, and fails with its last one. */
    method UpdateComponentState(comp: nat, s: IceState) returns (told: bool)
      requires IceOk(Abs()) && (s == IceReady || s == IceFailed)
      modifies this
      ensures IceGrows(old(Abs()), (Abs(), told)) && (Abs(), told) == UpdateComponent(old(Abs()), comp, s)
    {
      hide RisingIce, AllComps, RtcSession.UpdateIceState, Entered;
      ComponentGrows(Abs(), comp, s);
      comps := comps[comp := s];
      if s == IceReady {
        var all := AllInState(IceReady);
        if !all { return false; }
      } else {
        if !receivedLast && state != IceReady { return false; }
        var all := AllInState(IceFailed);
        if !all { return false; }
      }
      told := UpdateIceState(s);
    }

    /** LibNiceConnection::close */
    method Close()
      requires IceOk(Abs())
      modifies this
      ensures IceGrows(old(Abs()), (Abs(), false)) && Abs() == CloseIce(old(Abs()))
    {
      hide IceOk, RtcSession.UpdateIceState;
      IceCalls(Abs());
      if state == IceFinished { return; }
      var told := UpdateIceState(IceFinished);
      listening, agent := false, false;
    }

    /** setIceListener and start */
    method Start()
      requires IceOk(Abs())
      modifies this
      ensures IceGrows(old(Abs()), (Abs(), false)) && Abs() == StartIce(old(Abs()))
    {
      hide IceOk;
      IceCalls(Abs());
      listening := true;
      if state != IceInitial { return; }
      agent := true;
    }
  }

  /** DtlsTransport with its ICE connection. */
  class DtlsTransport {
    const ice: IceConnection
    const hasRtcp: bool
    const server: bool
    var state: TState
    var running: bool
    var readyRtp: bool
    var readyRtcp: bool
    var rtpDone: bool
    var rtcpDone: bool
    var srtp: Channel
    var srtcp: Channel
    var started: bool
    var timer: bool
    var checks: nat

    ghost function Abs(): (t: Transport)
      reads this, ice
    {
      Transport(ice.Abs(), state, running, hasRtcp, server, readyRtp, readyRtcp, rtpDone, rtcpDone, srtp, srtcp,
                started, timer, checks)
    }

    constructor (rtcpMux: bool, asServer: bool)
      ensures fresh(ice) && Abs() == NewTransport(rtcpMux, asServer)
    {
      ice := new IceConnection(1);
      hasRtcp, server, state, running := !rtcpMux, asServer, TInitial, true;
      readyRtp, readyRtcp, rtpDone, rtcpDone, srtp, srtcp := false, false, false, false, NoChannel, NoChannel;
      started, timer, checks := false, false, 15;
    }

    /** DtlsTransport::close */
    method Close()
      requires IceOk(ice.Abs())
      modifies this, ice
      ensures Abs() == CloseTransport(old(Abs()))
    {
      hide CloseIce, IceOk;
      running, timer := false, false;
      ice.Close();
      state := TFinished;
    }
  }

  /** A WebRtcConnection with its transports and the worker's queue. */
  class Session {
    const cfg: Config
    const video: DtlsTransport?
    const audio: DtlsTransport?
    var queue: seq<Task>
    var conn: Conn

    function Other(m: Medium): (o: Medium) {
      if m == Video then Audio else Video
    }

    function Of(m: Medium): (t: DtlsTransport?) {
      if m == Video then video else audio
    }

    ghost function Objects(): (os: set<object>)
      ensures this !in os
    {
      (if video == null then {} else {video, video.ice}) + (if audio == null then {} else {audio, audio.ice})
    }

    /** The transports share nothing. */
    ghost predicate Separate() {
      video != null && audio != null ==> video != audio && video.ice != audio.ice
    }

    ghost function Ts(): (ts: map<Medium, Transport>)
      reads Objects()
    {
      map m: Medium | Of(m) != null :: Of(m).Abs()
    }

    ghost function Abs(): (s: Sys)
      reads this, Objects()
    {
      Sys(cfg, Ts(), queue, conn)
    }

    lemma TsAt(m: Medium)
      ensures m in Ts() <==> Of(m) != null
      ensures m in Ts() ==> Ts()[m] == Of(m).Abs()
    {
    }

    /** No transport has changed. */
    twostate lemma NoneChanged()
      requires video != null ==> video.Abs() == old(video.Abs())
      requires audio != null ==> audio.Abs() == old(audio.Abs())
      ensures Ts() == old(Ts())
    {
      forall x: Medium ensures x in Ts() <==> x in old(Ts()) {
        assert x == Video || x == Audio;
      }
    }

    twostate lemma BothClosed()
      requires video != null ==> video.Abs() == CloseTransport(old(video.Abs()))
      requires audio != null ==> audio.Abs() == CloseTransport(old(audio.Abs()))
      ensures Ts() == RtcSession.Close(old(Abs())).ts
    {
      hide CloseTransport;
      forall x: Medium ensures x in Ts() <==> x in old(Ts()) {
        assert x == Video || x == Audio;
      }
    }

    /** Only the transport of m has changed. */
    twostate lemma OnlyOne(m: Medium)
      requires Separate() && Of(m) != null
      requires Of(Other(m)) != null ==> Of(Other(m)).Abs() == old(Of(Other(m)).Abs())
      ensures Ts() == old(Ts())[m := Of(m).Abs()]
    {
      forall x: Medium ensures x in Ts() <==> x in old(Ts())[m := Of(m).Abs()] {
        assert x == m || x == Other(m);
      }
    }

    ghost predicate Valid()
      reads this, Objects()
    {
      Separate() && Inv(Abs())
    }

    constructor (c: Config)
      ensures Valid() && Abs() == Init(c) && fresh(Objects())
    {
      hide Inv, NewTransport, Ts;
      cfg := c;
      video, audio := null, null;
      if Video in c.present { video := new DtlsTransport(c.rtcpMux, c.server); }
      if Audio in c.present { audio := new DtlsTransport(c.rtcpMux, c.server); }
      queue, conn := [], Conn(CInitial, true, true, []);
      new;
      InitOk(c);
      FreshTs();
    }

    lemma FreshTs()
      requires forall m :: m in cfg.present <==> Of(m) != null
      requires forall m :: Of(m) != null ==> Of(m).Abs() == NewTransport(cfg.rtcpMux, cfg.server)
      ensures Ts() == Init(cfg).ts
    {
      hide NewTransport;
      forall m: Medium ensures m in Ts() <==> m in Init(cfg).ts { TsAt(m); }
    }

    // ---------- The connection ----------

    predicate AllHold(ms: set<Medium>, t: TState)
      reads Objects()
      ensures AllHold(ms, t) == AllAre(Abs(), ms, t)
    {
      && (Video in ms ==> video != null && video.state == t)
      && (Audio in ms ==> audio != null && audio.state == t)
    }

    /** WebRtcConnection::updateState */
    method UpdateState(t: TState)
      modifies this`conn
      ensures conn == RtcSession.UpdateState(old(Abs()), t)
    {
      hide AllAre, Ts;
      if conn.state == CFailed { return; }
      var temp := conn.state;
      match t {
        case TStarted => if cfg.bundle || AllHold(cfg.remote, TStarted) { temp := CStarted; }
        case TGathered =>
          if !cfg.trickle {
            if cfg.bundle || AllHold(cfg.local, TGathered) { temp := CGathered; }
          }
        case TReady => if cfg.bundle || AllHold(cfg.remote, TReady) { temp := CReady; }
        case TFailed =>
          temp := CFailed;
          conn := conn.(sending := false);
        case _ =>
      }
      if temp == conn.state { return; }
      conn := conn.(state := temp);
      if conn.listener { conn := conn.(notes := conn.notes + [temp]); }
    }

    // ---------- Transports ----------

    method SetState(m: Medium, t: TState)
      requires Separate() && Of(m) != null
      modifies Of(m)`state
      ensures m in old(Abs()).ts && Abs() == Put(old(Abs()), m, old(Abs()).ts[m].(state := t))
    {
      hide Ts;
      TsAt(m);
      Of(m).state := t;
      OnlyOne(m);
    }

    /** updateTransportState */
    method UpdateTransportState(m: Medium, t: TState)
      requires Separate() && Of(m) != null
      modifies this`conn, Of(m)`state
      ensures Abs() == SetTransport(old(Abs()), m, t)
    {
      hide RtcSession.UpdateState, Ts, Objects;
      TsAt(m);
      if Of(m).state == t { return; }
      SetState(m, t);
      label before:
      UpdateState(t);
      NoneChanged@before();
    }

    /** updateIceStateSync */
    method UpdateIceStateSync(m: Medium, i: IceState)
      requires Separate() && Of(m) != null
      modifies this`conn, Of(m)
      ensures Abs() == OnIceUpdate(old(Abs()), m, i)
    {
      hide SetTransport, Ts;
      TsAt(m);
      var tr := Of(m);
      if !tr.running { return; }
      if i == IceInitial && tr.state != TStarted {
        UpdateTransportState(m, TStarted);
      } else if i == CandidatesReceived && tr.state != TGathered {
        UpdateTransportState(m, TGathered);
      } else if i == IceFailed {
        OnHandshakeFailed(m);
      } else if i == IceReady && !tr.server && !tr.started {
        tr.started, tr.timer := true, tr.state != TReady;
        OnlyOne(m);
      }
    }

    /** onHandshakeFailed: the transport stops and fails. */
    method OnHandshakeFailed(m: Medium)
      requires Separate() && Of(m) != null
      modifies this`conn, Of(m)
      ensures Abs() == RtcSession.OnHandshakeFailed(old(Abs()), m)
    {
      hide SetTransport, Ts;
      TsAt(m);
      Of(m).running := false;
      OnlyOne(m);
      UpdateTransportState(m, TFailed);
    }

    /** The keys of the RTP context, which also serve RTCP when there is no context for that */
    method InstallRtp(m: Medium, keysOk: bool)
      requires Separate() && Of(m) != null
      modifies this`conn, Of(m)
      ensures Abs() == RtcSession.InstallRtp(old(Abs()), m, keysOk)
    {
      hide SetTransport, Ts;
      TsAt(m);
      SetRtp(m, keysOk);
      if !keysOk { UpdateTransportState(m, TFailed); }
      if !Of(m).hasRtcp { ShareKeys(m); }
    }

    method SetRtp(m: Medium, keysOk: bool)
      requires Separate() && Of(m) != null
      modifies Of(m)
      ensures m in old(Abs()).ts
      ensures Abs() == Put(old(Abs()), m, old(Abs()).ts[m].(
                timer := false, rtpDone := true, srtp := Channel(keysOk), readyRtp := keysOk))
    {
      hide Ts;
      TsAt(m);
      var tr := Of(m);
      tr.timer, tr.rtpDone, tr.srtp, tr.readyRtp := false, true, Channel(keysOk), keysOk;
      OnlyOne(m);
    }

    method ShareKeys(m: Medium)
      requires Separate() && Of(m) != null
      modifies Of(m)`readyRtcp
      ensures m in old(Abs()).ts && Abs() == Put(old(Abs()), m, old(Abs()).ts[m].(readyRtcp := true))
    {
      hide Ts;
      TsAt(m);
      Of(m).readyRtcp := true;
      OnlyOne(m);
    }

    method InstallRtcp(m: Medium, keysOk: bool)
      requires Separate() && Of(m) != null
      modifies this`conn, Of(m)
      ensures Abs() == RtcSession.InstallRtcp(old(Abs()), m, keysOk)
    {
      hide SetTransport, Ts;
      TsAt(m);
      var tr := Of(m);
      tr.timer, tr.rtcpDone, tr.srtcp, tr.readyRtcp := false, true, Channel(keysOk), keysOk;
      OnlyOne(m);
      if !keysOk { UpdateTransportState(m, TFailed); }
    }

    /** onHandshakeCompleted. The context of a component reports once; that of component 2 exists only without
        rtcp-mux. */
    method OnHandshakeCompleted(m: Medium, comp: nat, keysOk: bool)
      requires Separate() && Of(m) != null
      modifies this`conn, Of(m)
      ensures Abs() == OnCompleted(old(Abs()), m, comp, keysOk)
    {
      hide SetTransport, RtcSession.InstallRtp, RtcSession.InstallRtcp, Ts;
      TsAt(m);
      var tr := Of(m);
      if comp == 1 {
        if tr.rtpDone { return; }
        InstallRtp(m, keysOk);
      } else {
        if !tr.hasRtcp || tr.rtcpDone { return; }
        InstallRtcp(m, keysOk);
      }
      TsAt(m);
      if tr.readyRtp && tr.readyRtcp { UpdateTransportState(m, TReady); }
    }

    /** What onPacketReceived posts to the worker, with onIceData in it */
    method OnPacket(m: Medium, comp: nat, length: int, p: Packet)
      requires Separate() && Of(m) != null
      modifies this`conn, Of(m)
      ensures Abs() == OnReceived(old(Abs()), m, comp, length, p)
    {
      hide SetTransport, OnCompleted, RtcSession.OnHandshakeFailed, Ts;
      TsAt(m);
      if length > 0 {
        if !Of(m).running || p.Media? { return; }
        match p.outcome {
          case NoOutcome =>
          case Completed(ok) => OnHandshakeCompleted(m, comp, ok);
          case HandshakeFailed => OnHandshakeFailed(m);
        }
      } else if length == -1 {
        Of(m).running := false;
        OnlyOne(m);
      }
    }

    // ---------- Events ----------

    /** A transport is started: its ICE connection gets its listener and, if it has not begun, an agent. */
    method StartTransport(m: Medium)
      requires Valid() && Of(m) != null
      modifies Of(m).ice
      ensures Valid() && Abs() == Step(old(Abs()), Event.Start(m))
    {
      hide Inv, StartIce, IceOk, Ts;
      TsAt(m);
      IceOf(m);
      Of(m).ice.Start();
      OnlyOne(m);
      StepKeeps(old(Abs()), Event.Start(m));
    }

    lemma IceOf(m: Medium)
      requires Valid() && Of(m) != null
      ensures m in Abs().ts && IceOk(Of(m).ice.Abs())
    {
      hide Inv, Ts;
      TsAt(m);
      InvAt(Abs(), m);
    }

    /** libnice reports a component: the ICE connection decides, and its listener posts the new state to the worker. */
    method ComponentChanged(m: Medium, comp: nat, ready: bool)
      requires Valid() && Enabled(Abs(), ComponentState(m, comp, ready))
      modifies this`queue, Of(m).ice
      ensures Valid() && Abs() == Step(old(Abs()), ComponentState(m, comp, ready))
    {
      hide Inv, UpdateComponent, IceOk, IceGrows, Ts;
      TsAt(m);
      IceOf(m);
      var told := Of(m).ice.UpdateComponentState(comp, if ready then IceReady else IceFailed);
      if told { queue := queue + [IceUpdate(m, Of(m).ice.state)]; }
      OnlyOne(m);
      StepKeeps(old(Abs()), ComponentState(m, comp, ready));
    }

    /** libnice has gathered all candidates. */
    method CandidatesGathered(m: Medium)
      requires Valid() && Enabled(Abs(), GatheringDone(m))
      modifies this`queue, Of(m).ice
      ensures Valid() && Abs() == Step(old(Abs()), GatheringDone(m))
    {
      hide Inv, RtcSession.UpdateIceState, IceOk, IceGrows, Ts;
      TsAt(m);
      IceOf(m);
      var told := Of(m).ice.UpdateIceState(CandidatesReceived);
      if told { queue := queue + [IceUpdate(m, Of(m).ice.state)]; }
      OnlyOne(m);
      StepKeeps(old(Abs()), GatheringDone(m));
    }

    /** A packet arrives at the ICE connection. */
    method DataArrived(m: Medium, comp: nat, length: int, p: Packet)
      requires Valid() && Enabled(Abs(), Data(m, comp, length, p))
      modifies this`queue
      ensures Valid() && Abs() == Step(old(Abs()), Data(m, comp, length, p))
    {
      hide Inv, Ts;
      TsAt(m);
      var ice := Of(m).ice;
      if ice.state == IceReady && ice.listening { queue := queue + [Received(m, comp, length, p)]; }
      NoneChanged();
      StepKeeps(old(Abs()), Data(m, comp, length, p));
    }

    method SetLastCandidate(m: Medium, received: bool)
      requires Valid() && Of(m) != null
      modifies Of(m).ice
      ensures Valid() && Enabled(old(Abs()), LastCandidate(m, received))
      ensures Abs() == Step(old(Abs()), LastCandidate(m, received))
    {
      hide Inv, Ts;
      TsAt(m);
      Of(m).ice.receivedLast := received;
      OnlyOne(m);
      StepKeeps(old(Abs()), LastCandidate(m, received));
    }

    /** setRemoteCandidates closes an ICE connection that has no agent. */
    method SetRemoteCandidates(m: Medium)
      requires Valid() && Of(m) != null
      modifies Of(m).ice
      ensures Valid() && Abs() == Step(old(Abs()), RemoteCandidates(m))
    {
      hide Inv, CloseIce, IceOk, IceGrows, Ts;
      TsAt(m);
      IceOf(m);
      if !Of(m).ice.agent {
        Of(m).ice.Close();
        OnlyOne(m);
      }
      StepKeeps(old(Abs()), RemoteCandidates(m));
    }

    /** The worker takes its oldest task. */
    method RunNext()
      requires Valid() && queue != []
      modifies this`queue, this`conn, Objects()
      ensures Valid() && Abs() == Step(old(Abs()), RunTask)
    {
      hide Inv, OnReceived, OnIceUpdate, Ts;
      var t := queue[0];
      TsAt(t.medium);
      queue := queue[1..];
      if Of(t.medium) != null {
        match t {
          case IceUpdate(m, i) => UpdateIceStateSync(m, i);
          case Received(m, comp, length, p) => OnPacket(m, comp, length, p);
        }
      }
      StepKeeps(old(Abs()), RunTask);
    }

    /** The check scheduled by TimeoutChecker */
    method TimerFired(m: Medium)
      requires Valid() && Enabled(Abs(), TimerFires(m))
      modifies this`conn, Of(m)
      ensures Valid() && Abs() == Step(old(Abs()), TimerFires(m))
    {
      hide Inv, RtcSession.OnHandshakeFailed, Ts;
      TsAt(m);
      var tr := Of(m);
      if tr.state != TReady && tr.checks > 0 {
        tr.checks := tr.checks - 1;
        OnlyOne(m);
      } else {
        tr.timer := false;
        OnlyOne(m);
        if tr.state != TReady { OnHandshakeFailed(m); }
      }
      StepKeeps(old(Abs()), TimerFires(m));
    }

    /** WebRtcConnection::close */
    method Close()
      requires Valid()
      modifies this`conn, Objects()
      ensures Valid() && Abs() == Step(old(Abs()), CloseAll)
    {
      hide Inv, CloseTransport, IceOk, Ts;
      if video != null { IceOf(Video); }
      if audio != null { IceOf(Audio); }
      conn := conn.(sending := false);
      if video != null { video.Close(); }
      if audio != null { audio.Close(); }
      conn := conn.(state := CFinished, listener := false);
      BothClosed();
      StepKeeps(old(Abs()), CloseAll);
    }
  }
}
