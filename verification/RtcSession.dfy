/** The path of a WebRTC connection to its end: libnice callbacks drive the ICE state and post tasks to a
    FIFO worker, the tasks drive the DTLS transports, and the transports drive the connection.

    Every callback, every task and every call from outside is one atomic step. What libnice, OpenSSL
    and libsrtp decide is part of the step. */
module RtcSession {

  datatype Medium = Video | Audio

  /** enum IceState, in its order */
  datatype IceState = IceInitial | CandidatesReceived | IceReady | IceFinished | IceFailed

  function IceRank(s: IceState): (n: nat) {
    match s
    case IceInitial => 0
    case CandidatesReceived => 1
    case IceReady => 2
    case IceFinished => 3
    case IceFailed => 4
  }

  /** IceConnection and LibNiceConnection. `trail` lists the states entered so far. atReady and atFailed are what the
      components were in when READY and FAILED were entered, lastAtFailed whether the last candidate had come then. */
  datatype Ice = Ice(
    state: IceState, comps: map<nat, IceState>, components: nat, receivedLast: bool,
    agent: bool, listening: bool, trail: seq<IceState>,
    atReady: map<nat, IceState>, atFailed: map<nat, IceState>, lastAtFailed: bool)

  datatype TState = TInitial | TStarted | TGathered | TReady | TFinished | TFailed

  /** An SrtpChannel, active once setRtpParams has succeeded. */
  datatype Channel = NoChannel | Channel(active: bool)

  /** DtlsTransport. rtpDone and rtcpDone record that the handshake of that context has completed. */
  datatype Transport = Transport(
    ice: Ice, state: TState, running: bool, hasRtcp: bool, server: bool,
    readyRtp: bool, readyRtcp: bool, rtpDone: bool, rtcpDone: bool, srtp: Channel, srtcp: Channel,
    started: bool, timer: bool, checks: nat)

  datatype CState = CInitial | CStarted | CGathered | CReady | CFinished | CFailed

  /** WebRtcConnection. `notes` are the states its listener was told. */
  datatype Conn = Conn(state: CState, listener: bool, sending: bool, notes: seq<CState>)

  /** What is fixed for the life of a connection: its flags, the media of the remote and the local
      description, and the media that have a transport. */
  datatype Config = Config(
    bundle: bool, trickle: bool, rtcpMux: bool, server: bool,
    remote: set<Medium>, local: set<Medium>, present: set<Medium>)

  datatype Handshake = NoOutcome | Completed(keysOk: bool) | HandshakeFailed

  datatype Packet = Dtls(outcome: Handshake) | Media

  datatype Task =
    | IceUpdate(medium: Medium, state: IceState)
    | Received(medium: Medium, comp: nat, length: int, packet: Packet)

  datatype Sys = Sys(cfg: Config, ts: map<Medium, Transport>, queue: seq<Task>, conn: Conn)

  // ---------- ICE ----------

  function Filled(components: nat, s: IceState): (comps: map<nat, IceState>) {
    if components == 0 then map[] else Filled(components - 1, s)[components := s]
  }

  /** The constructor: every component starts in the initial state. */
  function NewIce(components: nat): (i: Ice) {
    Ice(IceInitial, Filled(components, IceInitial), components, false, false, false, [], map[], map[], false)
  }

  /** A state is entered, and what the components are in is recorded. */
  function Entered(i: Ice, s: IceState): (i': Ice) {
    var i1 := i.(state := s, trail := i.trail + [s]);
    if s == IceReady then i1.(atReady := i.comps)
    else if s == IceFailed then i1.(atFailed := i.comps, lastAtFailed := i.receivedLast)
    else i1
  }

  /** updateIceState: only forward in the order of the enumeration. The flag says the listener is told. */
  function UpdateIceState(i: Ice, s: IceState): (p: (Ice, bool)) {
    if IceRank(s) <= IceRank(i.state) then (i, false)
    else (Entered(i, s), s != IceFinished && i.listening)
  }

  function CompState(comps: map<nat, IceState>, k: nat): (s: IceState) {
    if k in comps then comps[k] else IceInitial
  }

  predicate AllComps(comps: map<nat, IceState>, components: nat, s: IceState) {
    forall k :: 1 <= k <= components ==> CompState(comps, k) == s
  }

  /** updateComponentState, called with READY or FAILED */
  function UpdateComponent(i: Ice, comp: nat, s: IceState): (p: (Ice, bool))
  {
    var i1 := i.(comps := i.comps[comp := s]);
    if s == IceReady then
      if AllComps(i1.comps, i1.components, IceReady) then UpdateIceState(i1, s) else (i1, false)
    else if s == IceFailed then
      if (i1.receivedLast || i1.state == IceReady) && AllComps(i1.comps, i1.components, IceFailed)
      then UpdateIceState(i1, s) else (i1, false)
    else UpdateIceState(i1, s)
  }

  /** LibNiceConnection::close */
  function CloseIce(i: Ice): (i': Ice) {
    if i.state == IceFinished then i else UpdateIceState(i, IceFinished).0.(listening := false, agent := false)
  }

  /** setIceListener and start */
  function StartIce(i: Ice): (i': Ice) {
    var i1 := i.(listening := true);
    if i1.state == IceInitial then i1.(agent := true) else i1
  }

  // ---------- The connection ----------

  predicate Holds(s: Sys, m: Medium, t: TState) {
    m in s.ts && s.ts[m].state == t
  }

  predicate AllAre(s: Sys, ms: set<Medium>, t: TState) {
    (Video in ms ==> Holds(s, Video, t)) && (Audio in ms ==> Holds(s, Audio, t))
  }

  /** The state updateState computes for an update of some transport to t. */
  function Computed(s: Sys, t: TState): (c: CState)
  {
    match t
    case TStarted => if s.cfg.bundle || AllAre(s, s.cfg.remote, TStarted) then CStarted else s.conn.state
    case TGathered =>
      if !s.cfg.trickle && (s.cfg.bundle || AllAre(s, s.cfg.local, TGathered)) then CGathered else s.conn.state
    case TReady => if s.cfg.bundle || AllAre(s, s.cfg.remote, TReady) then CReady else s.conn.state
    case TFailed => CFailed
    case _ => s.conn.state
  }

  /** WebRtcConnection::updateState */
  function UpdateState(s: Sys, t: TState): (c: Conn)
  {
    if s.conn.state == CFailed then s.conn
    else
      var temp := Computed(s, t);
      var c := s.conn.(sending := s.conn.sending && t != TFailed);
      if temp == c.state then c
      else c.(state := temp, notes := if c.listener then c.notes + [temp] else c.notes)
  }

  /** updateTransportState */
  function SetTransport(s: Sys, m: Medium, t: TState): (s': Sys)
    requires m in s.ts
  {
    if s.ts[m].state == t then s
    else
      var s1 := s.(ts := s.ts[m := s.ts[m].(state := t)]);
      s1.(conn := UpdateState(s1, t))
  }

  // ---------- The transport ----------

  function Put(s: Sys, m: Medium, t: Transport): (s': Sys) {
    s.(ts := s.ts[m := t])
  }

  /** The constructor. The component count stays one whether or not RTCP is multiplexed. */
  function NewTransport(rtcpMux: bool, server: bool): (t: Transport) {
    Transport(NewIce(1), TInitial, true, !rtcpMux, server, false, false, false, false,
              NoChannel, NoChannel, false, false, 15)
  }

  /** updateIceStateSync */
  function OnIceUpdate(s: Sys, m: Medium, i: IceState): (s': Sys)
    requires m in s.ts
  {
    var t := s.ts[m];
    if !t.running then s
    else if i == IceInitial && t.state != TStarted then SetTransport(s, m, TStarted)
    else if i == CandidatesReceived && t.state != TGathered then SetTransport(s, m, TGathered)
    else if i == IceFailed then SetTransport(Put(s, m, t.(running := false)), m, TFailed)
    else if i == IceReady && !t.server && !t.started then
      Put(s, m, t.(started := true, timer := t.state != TReady))
    else s
  }

  /** The keys of the RTP context, which also serve RTCP when there is no context for that. */
  function InstallRtp(s: Sys, m: Medium, keysOk: bool): (s': Sys)
    requires m in s.ts
    ensures m in s'.ts
  {
    var t1 := s.ts[m].(timer := false, rtpDone := true, srtp := Channel(keysOk), readyRtp := keysOk);
    var s1 := if keysOk then Put(s, m, t1) else SetTransport(Put(s, m, t1), m, TFailed);
    if t1.hasRtcp then s1 else Put(s1, m, s1.ts[m].(readyRtcp := true))
  }

  function InstallRtcp(s: Sys, m: Medium, keysOk: bool): (s': Sys)
    requires m in s.ts
    ensures m in s'.ts
  {
    var t1 := s.ts[m].(timer := false, rtcpDone := true, srtcp := Channel(keysOk), readyRtcp := keysOk);
    if keysOk then Put(s, m, t1) else SetTransport(Put(s, m, t1), m, TFailed)
  }

  /** onHandshakeCompleted for the context of a component; a context completes at most once. */
  function OnCompleted(s: Sys, m: Medium, comp: nat, keysOk: bool): (s': Sys)
    requires m in s.ts
  {
    var t := s.ts[m];
    if (if comp == 1 then t.rtpDone else !t.hasRtcp || t.rtcpDone) then s
    else
      var s1 := if comp == 1 then InstallRtp(s, m, keysOk) else InstallRtcp(s, m, keysOk);
      if s1.ts[m].readyRtp && s1.ts[m].readyRtcp then SetTransport(s1, m, TReady) else s1
  }

  /** onHandshakeFailed */
  function OnHandshakeFailed(s: Sys, m: Medium): (s': Sys)
    requires m in s.ts
  {
    SetTransport(Put(s, m, s.ts[m].(running := false)), m, TFailed)
  }

  /** What onPacketReceived posts to the worker, with onIceData in it */
  function OnReceived(s: Sys, m: Medium, comp: nat, length: int, p: Packet): (s': Sys)
    requires m in s.ts
  {
    if length > 0 then
      if !s.ts[m].running || p.Media? then s
      else match p.outcome
        case NoOutcome => s
        case Completed(ok) => OnCompleted(s, m, comp, ok)
        case HandshakeFailed => OnHandshakeFailed(s, m)
    else if length == -1 then Put(s, m, s.ts[m].(running := false))
    else s
  }

  /** DtlsTransport::close */
  function CloseTransport(t: Transport): (t': Transport) {
    t.(running := false, timer := false, ice := CloseIce(t.ice), state := TFinished)
  }

  /** The scheduled check of TimeoutChecker */
  function OnTimer(s: Sys, m: Medium): (s': Sys)
    requires m in s.ts
  {
    var t := s.ts[m];
    if t.state == TReady then Put(s, m, t.(timer := false))
    else if t.checks > 0 then Put(s, m, t.(checks := t.checks - 1))
    else OnHandshakeFailed(Put(s, m, t.(timer := false)), m)
  }

  // ---------- Steps ----------

  datatype Event =
    | Start(medium: Medium)
    | ComponentState(medium: Medium, comp: nat, ready: bool)   // READY or FAILED, or a new selected pair
    | GatheringDone(medium: Medium)
    | Data(medium: Medium, comp: nat, length: int, packet: Packet)
    | LastCandidate(medium: Medium, received: bool)
    | RemoteCandidates(medium: Medium)
    | RunTask
    | TimerFires(medium: Medium)
    | CloseAll

  /** libnice calls back while there is an agent and names a component of its stream; a timer fires only
      while it is scheduled. */
  predicate Enabled(s: Sys, e: Event) {
    match e
    case RunTask => s.queue != []
    case CloseAll => true
    case GatheringDone(m) => m in s.ts && s.ts[m].ice.agent
    case ComponentState(m, comp, _) => m in s.ts && s.ts[m].ice.agent && 1 <= comp <= s.ts[m].ice.components
    case Data(m, comp, _, _) => m in s.ts && s.ts[m].ice.agent && 1 <= comp <= s.ts[m].ice.components
    case TimerFires(m) => m in s.ts && s.ts[m].timer
    case _ => e.medium in s.ts
  }

  /** The new ICE connection, and what its listener posts when it is told. */
  function WithIce(s: Sys, m: Medium, p: (Ice, bool)): (s': Sys)
    requires m in s.ts
  {
    var s1 := Put(s, m, s.ts[m].(ice := p.0));
    if p.1 then s1.(queue := s1.queue + [IceUpdate(m, p.0.state)]) else s1
  }

  function Step(s: Sys, e: Event): (s': Sys)
    requires Enabled(s, e)
  {
    match e
    case Start(m) => Put(s, m, s.ts[m].(ice := StartIce(s.ts[m].ice)))
    case ComponentState(m, comp, ready) =>
      WithIce(s, m, UpdateComponent(s.ts[m].ice, comp, if ready then IceReady else IceFailed))
    case GatheringDone(m) => WithIce(s, m, UpdateIceState(s.ts[m].ice, CandidatesReceived))
    case Data(m, comp, length, p) =>
      if s.ts[m].ice.state == IceReady && s.ts[m].ice.listening
      then s.(queue := s.queue + [Received(m, comp, length, p)]) else s
    case LastCandidate(m, b) => Put(s, m, s.ts[m].(ice := s.ts[m].ice.(receivedLast := b)))
    case RemoteCandidates(m) =>
      if s.ts[m].ice.agent then s else Put(s, m, s.ts[m].(ice := CloseIce(s.ts[m].ice)))
    case RunTask => Perform(s.(queue := s.queue[1..]), s.queue[0])
    case TimerFires(m) => OnTimer(s, m)
    case CloseAll => Close(s)
  }

  function Perform(s: Sys, t: Task): (s': Sys) {
    if t.medium !in s.ts then s
    else match t
      case IceUpdate(m, i) => OnIceUpdate(s, m, i)
      case Received(m, comp, length, p) => OnReceived(s, m, comp, length, p)
  }

  /** WebRtcConnection::close */
  function Close(s: Sys): (s': Sys) {
    s.(ts := map m | m in s.ts :: CloseTransport(s.ts[m]),
       conn := s.conn.(sending := false, state := CFinished, listener := false))
  }

  function Init(cfg: Config): (s: Sys) {
    Sys(cfg, map m | m in cfg.present :: NewTransport(cfg.rtcpMux, cfg.server), [], Conn(CInitial, true, true, []))
  }
}
