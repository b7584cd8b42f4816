/** Runs of a session from its start: what holds in all of them, and which outcomes some run has. */
module RtcRuns {
  import opened RtcSession
  import opened RtcInvariants

  ghost predicate Legal(s: Sys, es: seq<Event>)
    decreases |es|
  {
    es == [] || (Enabled(s, es[0]) && Legal(Step(s, es[0]), es[1..]))
  }

  ghost function Exec(s: Sys, es: seq<Event>): (s': Sys)
    requires Legal(s, es)
    decreases |es|
  {
    if es == [] then s else Exec(Step(s, es[0]), es[1..])
  }

  /** No transport and no ICE connection has gone back. */
  ghost predicate Onward(s: Sys, s': Sys) {
    && s'.cfg == s.cfg && s'.ts.Keys == s.ts.Keys
    && forall m :: m in s.ts ==>
         && TRank(s.ts[m].state) <= TRank(s'.ts[m].state)
         && s.ts[m].ice.trail <= s'.ts[m].ice.trail
  }

  lemma AdvancesOnward(s: Sys, m: Medium, s': Sys)
    requires m in s.ts && Advances(s, m, s')
    ensures Onward(s, s')
  {}

  lemma IceOnward(s: Sys, m: Medium, p: (Ice, bool))
    requires m in s.ts && s.ts[m].ice.trail <= p.0.trail
    ensures Onward(s, WithIce(s, m, p))
  {}

  lemma CloseOnward(s: Sys)
    requires TransportsOk(s)
    ensures Onward(s, Close(s))
  {
    hide TransportOk, CloseIce;
    forall m | m in s.ts ensures s.ts[m].ice.trail <= CloseIce(s.ts[m].ice).trail {
      ClosedOk(s.cfg, s.ts[m]);
    }
  }

  lemma StepOnward(s: Sys, e: Event)
    requires Inv(s) && Enabled(s, e)
    ensures Onward(s, Step(s, e))
  {
    hide TransportOk, ConnOk, QueueOk, Perform, OnTimer, UpdateComponent, CloseIce, UpdateIceState, StartIce, Advances,
         Onward, Close;
    match e {
      case RunTask =>
        RunTaskKeeps(s);
        AdvancesOnward(s.(queue := s.queue[1..]), s.queue[0].medium, Step(s, e));
        PopOnward(s, Step(s, e));
      case TimerFires(m) =>
        TimerKeeps(s, m);
        AdvancesOnward(s, m, Step(s, e));
      case CloseAll => CloseOnward(s);
      case Data(_, _, _, _) => SameOnward(s, Step(s, e));
      case ComponentState(m, comp, ready) =>
        var st := if ready then IceReady else IceFailed;
        IceTrails(s.ts[m], comp, st);
        IceOnward(s, m, UpdateComponent(s.ts[m].ice, comp, st));
      case GatheringDone(m) =>
        IceTrails(s.ts[m], 0, CandidatesReceived);
        IceOnward(s, m, UpdateIceState(s.ts[m].ice, CandidatesReceived));
      case Start(m) =>
        IceTrails(s.ts[m], 0, CandidatesReceived);
        IceOnward(s, m, (StartIce(s.ts[m].ice), false));
      case LastCandidate(m, b) => IceOnward(s, m, (s.ts[m].ice.(receivedLast := b), false));
      case RemoteCandidates(m) =>
        IceTrails(s.ts[m], 0, CandidatesReceived);
        SameOnward(s, s);
        IceOnward(s, m, (CloseIce(s.ts[m].ice), false));
    }
  }

  lemma SameOnward(s: Sys, s': Sys)
    requires s'.cfg == s.cfg && s'.ts == s.ts
    ensures Onward(s, s')
  {}

  lemma PopOnward(s: Sys, s': Sys)
    requires s.queue != [] && Onward(s.(queue := s.queue[1..]), s')
    ensures Onward(s, s')
  {}

  lemma IceTrails(t: Transport, comp: nat, st: IceState)
    ensures t.ice.trail <= UpdateComponent(t.ice, comp, st).0.trail
    ensures t.ice.trail <= UpdateIceState(t.ice, st).0.trail
    ensures t.ice.trail <= StartIce(t.ice).trail
    ensures t.ice.trail <= CloseIce(t.ice).trail
  {
    hide AllComps, UpdateIceState;
    TrailGrows(t.ice.(comps := t.ice.comps[comp := st]), st);
    TrailGrows(t.ice, st);
    TrailGrows(t.ice, IceFinished);
  }

  lemma TrailGrows(i: Ice, st: IceState)
    ensures i.trail <= UpdateIceState(i, st).0.trail
  {
  }

  lemma {:induction false} RunKeeps(s: Sys, es: seq<Event>)
    requires Inv(s) && Legal(s, es)
    ensures Inv(Exec(s, es)) && Onward(s, Exec(s, es))
    decreases |es|
  {
    hide Inv, Step, Enabled;
    if es != [] {
      StepKeeps(s, es[0]);
      StepOnward(s, es[0]);
      RunKeeps(Step(s, es[0]), es[1..]);
    }
  }

  /** In every run the states of an ICE connection are entered in the order of the enumeration, and a
      transport never goes back in the order initial, gathered, ready, failed, finished. It never is
      TRANSPORT_STARTED. */
  lemma TransportsNeverGoBack(cfg: Config, es: seq<Event>, more: seq<Event>, m: Medium)
    requires m in cfg.present && Legal(Init(cfg), es) && Legal(Exec(Init(cfg), es), more)
    ensures var s := Exec(Init(cfg), es);
            var s' := Exec(s, more);
            && m in s.ts && m in s'.ts
            && RisingIce(s'.ts[m].ice.trail) && s.ts[m].ice.trail <= s'.ts[m].ice.trail
            && TRank(s.ts[m].state) <= TRank(s'.ts[m].state) && s'.ts[m].state != TStarted
  {
    InitOk(cfg);
    RunKeeps(Init(cfg), es);
    RunKeeps(Exec(Init(cfg), es), more);
  }

  /** In every run an ICE connection has become ready only with all its components ready, and has failed only with all
      of them failed, when no more candidates were to come or it had been ready. */
  lemma ComponentsDecide(cfg: Config, es: seq<Event>, m: Medium)
    requires m in cfg.present && Legal(Init(cfg), es)
    ensures var s := Exec(Init(cfg), es);
            && m in s.ts
            && var i := s.ts[m].ice;
               && (IceReady in i.trail ==> AllComps(i.atReady, i.components, IceReady))
               && (IceFailed in i.trail ==>
                     AllComps(i.atFailed, i.components, IceFailed) && (i.lastAtFailed || IceReady in i.trail))
  {
    hide Inv, AllComps, Exec, Legal;
    InitOk(cfg);
    InitCfg(cfg);
    RunKeeps(Init(cfg), es);
    var s := Exec(Init(cfg), es);
    assert m in s.ts;
    InvAt(s, m);
  }

  // ---------- The connection ----------

  predicate Rising(notes: seq<CState>) {
    forall a, b :: 0 <= a < b < |notes| ==> CRank(notes[a]) < CRank(notes[b])
  }

  /** Configurations whose connection never goes back: candidates are not reported by the connection, or RTCP
      is not multiplexed, or there is at most one transport, or each medium that is ready on its own
      is one that gathering waits for. */
  predicate Orderly(cfg: Config) {
    || cfg.trickle
    || !cfg.rtcpMux
    || Video !in cfg.present
    || Audio !in cfg.present
    || (!cfg.bundle && forall x :: cfg.remote <= {x} ==> x in cfg.local)
  }

  predicate SomeLocalReady(s: Sys) {
    exists x :: x in s.ts && x in s.cfg.local && TRank(s.ts[x].state) >= 2
  }

  /** Once the connection is ready no transport can bring it back to gathered. */
  predicate Settled(s: Sys) {
    s.conn.state == CReady ==>
      || s.cfg.trickle
      || (forall m :: m in s.ts ==> TRank(s.ts[m].state) >= 2)
      || (!s.cfg.bundle && SomeLocalReady(s))
  }

  predicate NotesOk(c: Conn) {
    Rising(c.notes) && forall k :: 0 <= k < |c.notes| ==> CRank(c.notes[k]) <= CRank(c.state)
  }

  lemma NoteKeeps(c: Conn, c': Conn)
    requires NotesOk(c) && CRank(c.state) < CRank(c'.state) && c'.notes == c.notes + [c'.state]
    ensures NotesOk(c')
  {}

  lemma NotesSame(c: Conn, c': Conn)
    requires NotesOk(c) && CRank(c.state) <= CRank(c'.state) && c'.notes == c.notes
    ensures NotesOk(c')
  {}

  /** Only the transport m may have moved, and not backwards. */
  predicate Moved(s: Sys, m: Medium, s': Sys) {
    && s'.cfg == s.cfg && s'.ts.Keys == s.ts.Keys && m in s.ts
    && TRank(s.ts[m].state) <= TRank(s'.ts[m].state)
    && forall x :: x in s.ts && x != m ==> s'.ts[x].state == s.ts[x].state
  }

  lemma NotBackToGathered(s: Sys, m: Medium, s': Sys)
    requires Moved(s, m, s') && Settled(s) && s'.ts[m].state == TGathered
    requires !s.cfg.trickle && (s.cfg.bundle || AllAre(s', s.cfg.local, TGathered))
    ensures s.conn.state != CReady
  {
    forall x | x in s.ts && x in s.cfg.local && !s.cfg.bundle ensures TRank(s.ts[x].state) < 2 {
      if x != m { assert Holds(s', x, TGathered) by { assert x == Video || x == Audio; } }
    }
  }

  lemma SettlesWhenReady(s: Sys, m: Medium)
    requires Orderly(s.cfg) && s.cfg.rtcpMux && m in s.ts && s.ts.Keys == s.cfg.present
    requires s.ts[m].state == TReady && (s.cfg.bundle || AllAre(s, s.cfg.remote, TReady))
    ensures Settled(s)
  {
    var other := if m == Video then Audio else Video;
    if !s.cfg.trickle && other in s.ts && TRank(s.ts[other].state) < 2 {
      assert m == Video || m == Audio;
      assert other !in s.cfg.remote;
      assert s.cfg.remote <= {m} by {
        forall x | x in s.cfg.remote ensures x == m { assert x == Video || x == Audio; }
      }
    } else {
      forall x | x in s.ts && !s.cfg.trickle ensures TRank(s.ts[x].state) >= 2 { assert x == Video || x == Audio; }
    }
  }

  lemma SettledStays(s: Sys, m: Medium, s': Sys)
    requires Moved(s, m, s') && Settled(s) && s'.conn.state == s.conn.state
    ensures Settled(s')
  {
    if s.conn.state == CReady && !s.cfg.bundle && SomeLocalReady(s) {
      var x :| x in s.ts && x in s.cfg.local && TRank(s.ts[x].state) >= 2;
      assert TRank(s'.ts[x].state) >= 2;
    }
  }

  lemma ToldCases(s: Sys, m: Medium, s': Sys)
    requires ConnOk(s) && Moved(s, m, s') && s'.ts[m].state != TStarted && Told(s, m, s')
    ensures s'.conn.state == s.conn.state ==> s'.conn.notes == s.conn.notes
    ensures s'.conn.state != s.conn.state ==>
      && s'.conn.notes == s.conn.notes + [s'.conn.state]
      && s.conn.state != CFailed && s.conn.state != CFinished
      && match s'.conn.state
         case CGathered =>
           s'.ts[m].state == TGathered && !s.cfg.trickle && (s.cfg.bundle || AllAre(s', s.cfg.local, TGathered))
         case CReady => s'.ts[m].state == TReady && (s.cfg.bundle || AllAre(s', s.cfg.remote, TReady))
         case CFailed => s'.ts[m].state == TFailed
         case _ => false
  {}

  /** The connection moves forward when it hears of the transport m. */
  lemma ToldForward(s: Sys, m: Medium, s': Sys)
    requires Inv(s) && Inv(s') && Moved(s, m, s') && Told(s, m, s')
    requires Orderly(s.cfg) && Settled(s) && NotesOk(s.conn)
    ensures CRank(s.conn.state) <= CRank(s'.conn.state) && Settled(s') && NotesOk(s'.conn)
  {
    hide TransportOk, QueueOk, AllAre, Settled, NotesOk, Told;
    ReadyTransport(s', m);
    ToldCases(s, m, s');
    if s'.conn.state == s.conn.state {
      SettledStays(s, m, s');
      NotesSame(s.conn, s'.conn);
    } else {
      if s'.conn.state == CGathered {
        NotBackToGathered(s, m, s');
        SettledOther(s');
      } else if s'.conn.state == CReady {
        SettlesWhenReady(s', m);
      } else {
        SettledOther(s');
      }
      NoteKeeps(s.conn, s'.conn);
    }
  }

  lemma SettledOther(s: Sys)
    requires s.conn.state != CReady
    ensures Settled(s)
  {}

  lemma ReadyTransport(s: Sys, m: Medium)
    requires Inv(s) && m in s.ts
    ensures s.ts[m].state != TStarted && s.ts.Keys == s.cfg.present
    ensures s.ts[m].state == TReady ==> s.cfg.rtcpMux
  {
    InvAt(s, m);
  }

  /** Every step but the closing one moves at most one transport and tells the connection no more than that. */
  lemma StepTold(s: Sys, e: Event) returns (m: Medium)
    requires Inv(s) && Enabled(s, e) && e != CloseAll
    ensures Moved(s, m, Step(s, e)) && Told(s, m, Step(s, e))
  {
    hide Inv, Perform, OnTimer, UpdateComponent, CloseIce, UpdateIceState, StartIce, Told;
    if e == RunTask {
      m := s.queue[0].medium;
      RunTaskTold(s);
      RunTaskKeeps(s);
    } else {
      m := e.medium;
      if e.TimerFires? {
        TimerTold(s, m);
        TimerKeeps(s, m);
      } else {
        QuietTold(s, m, Step(s, e));
      }
    }
  }

  lemma QuietTold(s: Sys, m: Medium, s': Sys)
    requires m in s.ts && m in s'.ts && s'.ts[m].state == s.ts[m].state && s'.conn == s.conn
    ensures Told(s, m, s')
  {}

  lemma StepForward(s: Sys, e: Event)
    requires Inv(s) && Enabled(s, e) && Orderly(s.cfg) && Settled(s) && NotesOk(s.conn)
    ensures var s' := Step(s, e); CRank(s.conn.state) <= CRank(s'.conn.state) && Settled(s') && NotesOk(s'.conn)
  {
    hide Inv, Settled, NotesOk, Perform, OnTimer, WithIce, Told, Moved, CloseIce, StartIce;
    StepKeeps(s, e);
    if e == CloseAll {
      assert CRank(s.conn.state) <= 5;
      NotesSame(s.conn, Step(s, e).conn);
      SettledOther(Step(s, e));
    } else {
      var m := StepTold(s, e);
      ToldForward(s, m, Step(s, e));
    }
  }

  lemma {:induction false} RunForward(s: Sys, es: seq<Event>)
    requires Inv(s) && Legal(s, es) && Orderly(s.cfg) && Settled(s) && NotesOk(s.conn)
    ensures CRank(s.conn.state) <= CRank(Exec(s, es).conn.state) && NotesOk(Exec(s, es).conn)
    decreases |es|
  {
    hide Inv, Step, Enabled, Settled, Orderly, NotesOk;
    if es != [] {
      StepKeeps(s, es[0]);
      StepOnward(s, es[0]);
      StepForward(s, es[0]);
      RunForward(Step(s, es[0]), es[1..]);
    }
  }

  /** What stands behind a transport that is ready: its ICE connection became ready when all its components were, the
      DTLS handshake has completed and its SRTP channel is active. */
  predicate Secured(t: Transport) {
    && t.state == TReady && IceReady in t.ice.trail && AllComps(t.ice.atReady, t.ice.components, IceReady)
    && t.rtpDone && t.srtp == Channel(true)
  }

  /** A connection becomes ready only when every transport the remote description asks for is secured. */
  lemma ReadyIsEarned(cfg: Config, es: seq<Event>, e: Event)
    requires Legal(Init(cfg), es) && Enabled(Exec(Init(cfg), es), e)
    ensures var s := Exec(Init(cfg), es);
            var s' := Step(s, e);
            s.conn.state != CReady && s'.conn.state == CReady ==>
              if cfg.bundle then exists m :: m in s'.ts && Secured(s'.ts[m])
              else forall m :: m in cfg.remote ==> m in s'.ts && Secured(s'.ts[m])
  {
    hide Inv, Step, Init, Exec, Legal;
    InitOk(cfg);
    RunKeeps(Init(cfg), es);
    InitCfg(cfg);
    var s := Exec(Init(cfg), es);
    CloseIsNotReady(s);
    if s.conn.state != CReady && Step(s, e).conn.state == CReady { EarnedStep(s, e); }
  }

  lemma InitCfg(cfg: Config)
    ensures Init(cfg).cfg == cfg && Init(cfg).ts.Keys == cfg.present
  {}

  lemma CloseIsNotReady(s: Sys)
    ensures Step(s, CloseAll).conn.state == CFinished
  {}

  lemma SecuredAt(s: Sys, m: Medium)
    requires Inv(s) && m in s.ts && s.ts[m].state == TReady
    ensures Secured(s.ts[m])
  {
    InvAt(s, m);
  }

  lemma EarnedStep(s: Sys, e: Event)
    requires Inv(s) && Enabled(s, e) && e != CloseAll
    requires s.conn.state != CReady && Step(s, e).conn.state == CReady
    ensures var s' := Step(s, e);
            && s'.cfg == s.cfg && s'.ts.Keys == s.ts.Keys && s.ts.Keys == s.cfg.present && s.cfg.present != {}
            && if s.cfg.bundle then exists m :: m in s'.ts && Secured(s'.ts[m])
               else forall m :: m in s.cfg.remote ==> m in s'.ts && Secured(s'.ts[m])
  {
    hide TransportOk, QueueOk, Step, Told;
    StepKeeps(s, e);
    var s' := Step(s, e);
    var m := StepTold(s, e);
    ReadyTransport(s', m);
    ToldCases(s, m, s');
    SecuredAt(s', m);
    if !s.cfg.bundle {
      forall x | x in s.cfg.remote ensures x in s'.ts && Secured(s'.ts[x]) {
        assert x == Video || x == Audio;
        assert Holds(s', x, TReady);
        SecuredAt(s', x);
      }
    }
  }

  /** A failed connection stays failed until it is closed, and no longer sends. */
  lemma FailureIsFinal(cfg: Config, es: seq<Event>, e: Event)
    requires Legal(Init(cfg), es) && Enabled(Exec(Init(cfg), es), e)
    ensures var s := Exec(Init(cfg), es);
            var c := Step(s, e).conn;
            s.conn.state == CFailed ==>
              !c.sending && c.notes == s.conn.notes && c.state == if e == CloseAll then CFinished else CFailed
  {
    InitOk(cfg);
    RunKeeps(Init(cfg), es);
    var s := Exec(Init(cfg), es);
    FailedStep(s, e);
  }

  lemma FailedStep(s: Sys, e: Event)
    requires Inv(s) && Enabled(s, e)
    ensures var c := Step(s, e).conn;
            s.conn.state == CFailed ==>
              !c.sending && c.notes == s.conn.notes && c.state == if e == CloseAll then CFinished else CFailed
    ensures var c := Step(s, e).conn;
            s.conn.state == CFinished ==> c == s.conn
  {
    hide TransportOk, QueueOk, TransportsOk, Perform, OnTimer, WithIce, StartIce, CloseIce;
    if e != CloseAll {
      var m := StepTold(s, e);
      if s.conn.state == CFinished {
        StepOnward(s, e);
        StepKeeps(s, e);
      }
    }
  }

  lemma {:induction false} ClosedStays(s: Sys, es: seq<Event>)
    requires Inv(s) && Legal(s, es) && s.conn.state == CFinished
    ensures Exec(s, es).conn == s.conn
    ensures forall m :: m in Exec(s, es).ts ==> Exec(s, es).ts[m].state == TFinished && !Exec(s, es).ts[m].running
    decreases |es|
  {
    hide Step, Enabled, QueueOk;
    if es != [] {
      StepKeeps(s, es[0]);
      FailedStep(s, es[0]);
      ClosedStays(Step(s, es[0]), es[1..]);
    }
  }

  /** A closed connection never changes and never reports again, and its transports stay finished. */
  lemma ClosedIsFinal(cfg: Config, es: seq<Event>, more: seq<Event>)
    requires Legal(Init(cfg), es) && Legal(Step(Exec(Init(cfg), es), CloseAll), more)
    ensures var s := Exec(Init(cfg), es);
            var s' := Exec(Step(s, CloseAll), more);
            && s'.conn == s.conn.(sending := false, state := CFinished, listener := false)
            && s'.ts.Keys == cfg.present
            && forall m :: m in s'.ts ==> s'.ts[m].state == TFinished && !s'.ts[m].running
  {
    hide Inv, Exec, Legal, Init, CloseTransport;
    InitOk(cfg);
    InitCfg(cfg);
    RunKeeps(Init(cfg), es);
    var s := Exec(Init(cfg), es);
    StepKeeps(s, CloseAll);
    StepOnward(s, CloseAll);
    ClosedStays(Step(s, CloseAll), more);
    RunKeeps(Step(s, CloseAll), more);
  }

  // ---------- Runs that reach a state ----------

  lemma {:induction false} ExecJoins(s: Sys, es: seq<Event>, fs: seq<Event>)
    requires Legal(s, es) && Legal(Exec(s, es), fs)
    ensures Legal(s, es + fs) && Exec(s, es + fs) == Exec(Exec(s, es), fs)
    decreases |es|
  {
    hide Step, Enabled;
    if es == [] {
      assert es + fs == fs;
    } else {
      assert (es + fs)[1..] == es[1..] + fs;
      ExecJoins(Step(s, es[0]), es[1..], fs);
    }
  }

  lemma ExecMore(s: Sys, a: Event, es: seq<Event>)
    requires Enabled(s, a) && Legal(Step(s, a), es)
    ensures Legal(s, [a] + es) && Exec(s, [a] + es) == Exec(Step(s, a), es)
  {
    hide Step, Enabled;
    assert ([a] + es)[1..] == es;
  }

  lemma Exec3(s: Sys, a: Event, b: Event, c: Event)
    requires Enabled(s, a) && Enabled(Step(s, a), b) && Enabled(Step(Step(s, a), b), c)
    ensures Legal(s, [a, b, c]) && Exec(s, [a, b, c]) == Step(Step(Step(s, a), b), c)
  {
    hide Step, Enabled;
    var s1 := Step(s, a);
    var s2 := Step(s1, b);
    assert Legal(Step(s2, c), []) && Exec(Step(s2, c), []) == Step(s2, c);
    ExecMore(s2, c, []);
    ExecMore(s1, b, [c]);
    ExecMore(s, a, [b, c]);
    assert [c] + [] == [c] && [b] + [c] == [b, c] && [a] + [b, c] == [a, b, c];
  }

  /** A transport that has only been created. */
  predicate Fresh(s: Sys, m: Medium) {
    m in s.ts && s.queue == [] && s.ts[m] == NewTransport(s.cfg.rtcpMux, s.cfg.server)
  }

  /** A transport whose ICE connection is in the state i and that waits for its handshake. */
  predicate Waiting(s: Sys, m: Medium, i: IceState, t: TState) {
    && m in s.ts && s.ts[m].running && s.ts[m].hasRtcp == !s.cfg.rtcpMux && s.ts[m].state == t
    && !s.ts[m].rtpDone && s.ts[m].ice.state == i && s.ts[m].ice.components == 1
    && s.ts[m].ice.listening && s.ts[m].ice.agent
  }

  /** From s to s' nothing but the transport m has changed, and the connection has heard of its new state. */
  predicate Only(s: Sys, m: Medium, s': Sys) {
    && s'.cfg == s.cfg && s'.ts.Keys == s.ts.Keys && m in s.ts
    && (forall x :: x in s.ts && x != m ==> s'.ts[x] == s.ts[x])
    && Told(s, m, s')
  }

  lemma OnlyJoins(s: Sys, m: Medium, s1: Sys, s2: Sys)
    requires Only(s, m, s1) && Only(s1, m, s2) && s1.ts[m].state == s.ts[m].state
    ensures Only(s, m, s2)
  {
    hide UpdateState;
  }

  lemma OnlyCfg(s: Sys, m: Medium, s': Sys)
    requires Only(s, m, s')
    ensures s'.cfg == s.cfg
  {}

  lemma StartRun(s: Sys, m: Medium)
    requires Fresh(s, m)
    ensures Enabled(s, Start(m))
    ensures var s1 := Step(s, Start(m));
            && Waiting(s1, m, IceInitial, TInitial) && Only(s, m, s1) && s1.queue == []
            && s1.ts[m].ice.trail == []
  {
    hide UpdateState;
  }

  lemma GatheredRun(s: Sys, m: Medium)
    requires Waiting(s, m, IceInitial, TInitial) && s.queue == []
    ensures Enabled(s, GatheringDone(m))
    ensures var s1 := Step(s, GatheringDone(m));
            && Waiting(s1, m, CandidatesReceived, TInitial) && Only(s, m, s1)
            && s1.queue == [IceUpdate(m, CandidatesReceived)]
  {
    hide UpdateState;
  }

  lemma ReportRun(s: Sys, m: Medium)
    requires Waiting(s, m, CandidatesReceived, TInitial) && s.queue == [IceUpdate(m, CandidatesReceived)]
    ensures Enabled(s, RunTask)
    ensures var s1 := Step(s, RunTask);
            Waiting(s1, m, CandidatesReceived, TGathered) && Only(s, m, s1) && s1.queue == []
  {
    hide UpdateState, Told;
    var s0 := s.(queue := s.queue[1..]);
    IceUpdateTold(s0, m, CandidatesReceived);
    PopTold(s, m, Step(s, RunTask));
  }

  lemma ConnectRun(s: Sys, m: Medium)
    requires Waiting(s, m, CandidatesReceived, TGathered) && s.queue == []
    ensures Enabled(s, ComponentState(m, 1, true))
    ensures var s1 := Step(s, ComponentState(m, 1, true));
            && Waiting(s1, m, IceReady, TGathered) && Only(s, m, s1)
            && s1.queue == [IceUpdate(m, IceReady)]
  {
    hide UpdateState;
  }

  lemma ConnectedRun(s: Sys, m: Medium)
    requires Waiting(s, m, IceReady, TGathered) && s.queue == [IceUpdate(m, IceReady)]
    ensures Enabled(s, RunTask)
    ensures var s1 := Step(s, RunTask);
            Waiting(s1, m, IceReady, TGathered) && Only(s, m, s1) && s1.queue == []
  {
    hide UpdateState, Told;
    var s0 := s.(queue := s.queue[1..]);
    IceUpdateTold(s0, m, IceReady);
    PopTold(s, m, Step(s, RunTask));
  }

  function Finish(m: Medium): (e: Event) {
    Data(m, 1, 1, Dtls(Completed(true)))
  }

  lemma DataRun(s: Sys, m: Medium)
    requires Waiting(s, m, IceReady, TGathered) && s.queue == []
    ensures Enabled(s, Finish(m))
    ensures var s1 := Step(s, Finish(m));
            && Waiting(s1, m, IceReady, TGathered) && Only(s, m, s1)
            && s1.queue == [Received(m, 1, 1, Dtls(Completed(true)))]
  {
    hide UpdateState;
  }

  lemma SecureRun(s: Sys, m: Medium)
    requires Waiting(s, m, IceReady, TGathered) && s.queue == [Received(m, 1, 1, Dtls(Completed(true)))]
    requires s.cfg.rtcpMux
    ensures Enabled(s, RunTask)
    ensures var s1 := Step(s, RunTask); m in s1.ts && s1.ts[m].state == TReady && Only(s, m, s1) && s1.queue == []
  {
    hide UpdateState, Told;
    var s0 := s.(queue := s.queue[1..]);
    CompletedTold(s0, m, true);
    PopTold(s, m, Step(s, RunTask));
  }

  lemma Exec4(s: Sys, a: Event, b: Event, c: Event, d: Event)
    requires Enabled(s, a) && Enabled(Step(s, a), b) && Enabled(Step(Step(s, a), b), c)
    requires Enabled(Step(Step(Step(s, a), b), c), d)
    ensures Legal(s, [a, b, c, d]) && Exec(s, [a, b, c, d]) == Step(Step(Step(Step(s, a), b), c), d)
  {
    hide Step, Enabled;
    Exec3(Step(s, a), b, c, d);
    assert [a, b, c, d][1..] == [b, c, d];
  }

  lemma GatheringRun(s: Sys, m: Medium) returns (es: seq<Event>, s': Sys)
    requires Fresh(s, m)
    ensures Legal(s, es) && s' == Exec(s, es)
    ensures Waiting(s', m, CandidatesReceived, TGathered) && Only(s, m, s') && s'.queue == []
  {
    hide Step, Enabled, Only;
    StartRun(s, m);
    var s1 := Step(s, Start(m));
    GatheredRun(s1, m);
    var s2 := Step(s1, GatheringDone(m));
    ReportRun(s2, m);
    s' := Step(s2, RunTask);
    es := [Start(m), GatheringDone(m), RunTask];
    Exec3(s, Start(m), GatheringDone(m), RunTask);
    OnlyJoins(s, m, s1, s2);
    OnlyJoins(s, m, s2, s');
  }

  lemma ReadyRun(s: Sys, m: Medium) returns (es: seq<Event>, s': Sys)
    requires Waiting(s, m, CandidatesReceived, TGathered) && s.queue == [] && s.cfg.rtcpMux
    ensures Legal(s, es) && s' == Exec(s, es)
    ensures m in s'.ts && s'.ts[m].state == TReady && Only(s, m, s') && s'.queue == []
  {
    hide Step, Enabled, Only;
    ConnectRun(s, m);
    var s1 := Step(s, ComponentState(m, 1, true));
    ConnectedRun(s1, m);
    var s2 := Step(s1, RunTask);
    DataRun(s2, m);
    var s3 := Step(s2, Finish(m));
    OnlyCfg(s, m, s1);
    OnlyCfg(s1, m, s2);
    OnlyCfg(s2, m, s3);
    SecureRun(s3, m);
    s' := Step(s3, RunTask);
    es := [ComponentState(m, 1, true), RunTask, Finish(m), RunTask];
    Exec4(s, ComponentState(m, 1, true), RunTask, Finish(m), RunTask);
    OnlyJoins(s, m, s1, s2);
    OnlyJoins(s, m, s2, s3);
    OnlyJoins(s, m, s3, s');
  }

  predicate Alive(c: Conn) {
    c.listener && c.state != CFailed && c.state != CFinished
  }

  /** Brings a fresh transport to ready. */
  lemma BringUp(s: Sys, m: Medium) returns (es: seq<Event>, s': Sys)
    requires Fresh(s, m) && Alive(s.conn) && s.cfg.rtcpMux
    ensures Legal(s, es) && s' == Exec(s, es)
    ensures s'.cfg == s.cfg && s'.ts.Keys == s.ts.Keys && s'.ts[m].state == TReady && s'.queue == []
    ensures forall x :: x in s.ts && x != m ==> s'.ts[x] == s.ts[x]
    ensures Alive(s'.conn)
    ensures s.cfg.bundle || AllAre(s', s.cfg.remote, TReady) ==> s'.conn.state == CReady
    ensures s.conn.state == CInitial && (s.cfg.bundle || AllAre(s', s.cfg.remote, TReady)) ==>
              s'.conn.notes != [] && s'.conn.notes[|s'.conn.notes| - 1] == CReady
  {
    hide Legal, Exec;
    var es1, s1 := GatheringRun(s, m);
    var es2, s2 := ReadyRun(s1, m);
    ExecJoins(s, es1, es2);
    es, s' := es1 + es2, s2;
  }

  function OtherThan(m: Medium): (x: Medium)
    ensures x != m
  {
    if m == Video then Audio else Video
  }

  /** A configuration that is not orderly has a run in which the connection goes from ready back to
      gathered and says so. */
  lemma GoesBack(cfg: Config) returns (es: seq<Event>)
    requires !Orderly(cfg)
    ensures Legal(Init(cfg), es)
    ensures var notes := Exec(Init(cfg), es).conn.notes;
            |notes| >= 2 && notes[|notes| - 2] == CReady && notes[|notes| - 1] == CGathered
  {
    hide Legal, Exec;
    var x := if cfg.bundle then Video else (var x :| cfg.remote <= {x} && x !in cfg.local; x);
    var y := OtherThan(x);
    var s := Init(cfg);
    assert x == Video || x == Audio;
    var es1, s1 := BringUp(s, x);
    assert cfg.bundle || AllAre(s1, cfg.remote, TReady);
    var es2, s2 := GatheringRun(s1, y);
    assert cfg.bundle || AllAre(s2, cfg.local, TGathered);
    ExecJoins(s, es1, es2);
    es := es1 + es2;
  }

  /** In all runs the connection's reports follow the order gathered, ready, failed, each at most once,
      if and only if the configuration is orderly. */
  lemma ReportsInOrder(cfg: Config)
    ensures (forall es :: Legal(Init(cfg), es) ==> Rising(Exec(Init(cfg), es).conn.notes)) <==> Orderly(cfg)
  {
    hide Legal, Exec, Init, Orderly;
    if Orderly(cfg) {
      InitOk(cfg);
      InitCfg(cfg);
      InitSettled(cfg);
      forall es | Legal(Init(cfg), es) ensures Rising(Exec(Init(cfg), es).conn.notes) {
        RunForward(Init(cfg), es);
      }
    } else {
      var es := GoesBack(cfg);
      var notes := Exec(Init(cfg), es).conn.notes;
      assert CRank(notes[|notes| - 2]) > CRank(notes[|notes| - 1]);
    }
  }

  lemma InitSettled(cfg: Config)
    ensures Settled(Init(cfg)) && NotesOk(Init(cfg).conn)
  {}

  // ---------- Which connections can become ready ----------

  predicate CanBeReady(cfg: Config) {
    cfg.rtcpMux && cfg.present != {} && (cfg.bundle || cfg.remote <= cfg.present)
  }

  lemma {:induction false} ReadyOnlyIf(s: Sys, es: seq<Event>)
    requires Inv(s) && Legal(s, es) && (s.conn.state == CReady ==> CanBeReady(s.cfg))
    ensures Exec(s, es).conn.state == CReady ==> CanBeReady(s.cfg)
    decreases |es|
  {
    hide Inv, Step, Enabled, Secured;
    if es != [] {
      var e := es[0];
      StepKeeps(s, e);
      StepOnward(s, e);
      CloseIsNotReady(s);
      if s.conn.state != CReady && Step(s, e).conn.state == CReady {
        EarnedStep(s, e);
        ReadyConn(Step(s, e));
      }
      ReadyOnlyIf(Step(s, e), es[1..]);
    }
  }

  lemma ReadyConn(s: Sys)
    requires Inv(s) && s.conn.state == CReady
    ensures s.cfg.rtcpMux
  {}

  lemma ReachesReady(cfg: Config) returns (es: seq<Event>)
    requires CanBeReady(cfg)
    ensures Legal(Init(cfg), es) && Exec(Init(cfg), es).conn.state == CReady
  {
    hide Legal, Exec;
    var x :| x in cfg.present;
    var y := OtherThan(x);
    var es1, s1 := BringUp(Init(cfg), x);
    es := es1;
    if !cfg.bundle && y in cfg.present {
      var es2, s2 := BringUp(s1, y);
      ExecJoins(Init(cfg), es1, es2);
      assert x == Video || x == Audio;
      assert AllAre(s2, cfg.remote, TReady);
      es := es1 + es2;
    } else if !cfg.bundle {
      assert x == Video || x == Audio;
      assert AllAre(s1, cfg.remote, TReady);
    }
  }

  /** Some run makes the connection ready if and only if RTCP is multiplexed and every medium the remote
      description asks for has a transport. Without multiplexing the second component is never set up. */
  lemma ReadyIffPossible(cfg: Config)
    ensures (exists es :: Legal(Init(cfg), es) && Exec(Init(cfg), es).conn.state == CReady) <==> CanBeReady(cfg)
  {
    hide Legal, Exec, CanBeReady;
    InitOk(cfg);
    if es :| Legal(Init(cfg), es) && Exec(Init(cfg), es).conn.state == CReady {
      ReadyOnlyIf(Init(cfg), es);
    }
    if CanBeReady(cfg) {
      var es := ReachesReady(cfg);
    }
  }
}
