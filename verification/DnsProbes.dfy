/** When the counter of good servers is exact. Clearing the servers keeps queued probes; the answer to one whose server
    was down when it was freed raises the counter for a server that is gone. */
module DnsProbes {

  import opened Basics
  import DnsCompression
  import opened DnsServers
  import opened DnsRequests
  import opened DnsLookups
  import opened DnsReplies

  ghost predicate Exact(s: State) {
    s.ring.good == UpCount(s.ring.servers)
  }

  /** Clearing the servers now frees one that is down and has a probe queued. */
  predicate Loosens(s: State) {
    s.ring.servers != [] && LooseProbe(s)
  }

  /** A run in which servers are never cleared that way. */
  ghost predicate CleanRun(s: State, moves: seq<Move>, s': State)
    decreases |moves|
  {
    if moves == [] then s' == s
    else
      && Enabled(s, moves[0].event) && (moves[0].event.SuspendAll? ==> !Loosens(s))
      && CleanRun(Step(s, moves[0].event, moves[0].world), moves[1..], s')
  }

  ghost predicate NeverClears(moves: seq<Move>) {
    forall i :: 0 <= i < |moves| ==> !moves[i].event.SuspendAll?
  }

  const NOTHING := World([], [], [])

  // ---------- Clean runs ----------

  lemma StepTaint(s: State, e: Event, w: World)
    requires Enabled(s, e)
    ensures Step(s, e, w).tainted == (s.tainted || (e.SuspendAll? && Loosens(s)))
  {
    hide Resolve, Reply, Timeout, SendProbe, TransmitAll, NameserverFailed, AddServer, Pump, SetServer, LooseProbe,
         Suspended;
    assert LooseProbe(s.(ids := w.ids, sends := w.sends, calls := w.calls)) == LooseProbe(s) by { LooseSame(s, w); }
  }

  lemma LooseSame(s: State, w: World)
    ensures LooseProbe(s.(ids := w.ids, sends := w.sends, calls := w.calls)) == LooseProbe(s)
  {
  }

  lemma {:induction false} CleanRunKeeps(s: State, moves: seq<Move>, s': State)
    requires Inv(s) && !s.tainted && CleanRun(s, moves, s')
    ensures Inv(s') && !s'.tainted
    decreases |moves|
  {
    hide Inv, Step, Enabled;
    if moves != [] {
      StepKeeps(s, moves[0].event, moves[0].world);
      StepTaint(s, moves[0].event, moves[0].world);
      CleanRunKeeps(Step(s, moves[0].event, moves[0].world), moves[1..], s');
    }
  }

  /** As long as servers are never cleared under the probe of one that is down, the counter is the number of servers
      that are up. */
  lemma CleanRunsStayExact(moves: seq<Move>, s: State)
    requires CleanRun(Initial(), moves, s)
    ensures Exact(s)
  {
    hide Inv, CleanRun;
    Starts();
    CleanRunKeeps(Initial(), moves, s);
    QueuesOf(s);
  }

  lemma {:induction false} NeverClearsIsClean(s: State, moves: seq<Move>, s': State)
    requires NeverClears(moves) && Runs(s, moves, s')
    ensures CleanRun(s, moves, s')
    decreases |moves|
  {
    hide Step, Enabled;
    if moves != [] {
      assert NeverClears(moves[1..]);
      NeverClearsIsClean(Step(s, moves[0].event, moves[0].world), moves[1..], s');
    }
  }

  // ---------- The answer to a probe of a freed server ----------

  /** A queue holds the probe of a server that was freed while it was down. */
  ghost predicate Lost(s: State, a: nat, ask: Item) {
    a in s.orphans && ask.Ask? && ask.owner == Probe(a) && ask in Ledger(s)
  }

  ghost predicate IsLost(s: State, r: Request) {
    r.owner.Probe? && r.owner.server in s.orphans
  }

  /** An answer without an error, with the bit set that says it is one. */
  predicate IsGood(flags: nat) {
    IsAnswer(flags) && !Bad(flags, true)
  }

  /** A good answer to a request in flight, from any server that is configured, whatever ids are drawn, whatever sendto
      answers and whatever lookups the callback starts: the counter is wrong by one more exactly if the request was the
      probe of a server freed while it was down. When the callback starts nothing, the request is gone and no other. */
  lemma GoodReply(s: State, i: nat, from: nat, flags: nat, w: World)
    requires Sound(s) && i < |s.inflight| && from in Ids(s.ring.servers) && IsGood(flags)
    ensures var s' := Step(s, ReplyFrom(from, s.inflight[i].transId, flags, true), w);
            var r := s.inflight[i];
            && Sound(s') && Pumped(s')
            && Drift(s'.ring) == Drift(s.ring) + (if IsLost(s, r) then 1 else 0)
            && s'.orphans == (if IsLost(s, r) then s.orphans - {r.owner.server} else s.orphans)
            && (w.calls == [] ==> Gone(s, s', r))
  {
    hide Sound, Ledger, Step, ReplyHandle, Apart, Ids, Drift, Pumped, Gone, SetServer, At;
    var s0 := s.(ids := w.ids, sends := w.sends, calls := w.calls);
    WorldKeeps(s, w);
    TouchKeeps(s0, At(s.ring, from).(timedout := 0));
    var s1 := Heard(s, from, w);
    AnswerDrift(s1, i, flags);
    ReplyReaches(s, i, from, flags, true, w);
    GoneSame(s, s1, ReplyHandle(s1, i, flags, true), s.inflight[i]);
  }

  /** One request less, the one that was answered. */
  ghost predicate Gone(s: State, s': State, r: Request) {
    && s'.nInflight + s'.nWaiting == s.nInflight + s.nWaiting - 1
    && Ledger(s') + One(r) == Ledger(s) + OfOwner(r.owner)
  }

  lemma GoneSame(s: State, s1: State, s': State, r: Request)
    requires s1.nInflight == s.nInflight && s1.nWaiting == s.nWaiting && Ledger(s1) == Ledger(s)
    ensures Gone(s1, s', r) <==> Gone(s, s', r)
  {
    hide Ledger;
  }

  /** The part of GoodReply that follows once the request has been found */
  lemma AnswerDrift(s: State, i: nat, flags: nat)
    requires Sound(s) && i < |s.inflight| && IsGood(flags)
    ensures var s' := ReplyHandle(s, i, flags, true);
            var r := s.inflight[i];
            && Sound(s') && Pumped(s')
            && Drift(s'.ring) == Drift(s.ring) + (if IsLost(s, r) then 1 else 0)
            && s'.orphans == (if IsLost(s, r) then s.orphans - {r.owner.server} else s.orphans)
            && (s.calls == [] ==> Gone(s, s', r))
  {
    hide Sound, Ledger, Answer, Finished, NameserverUp, Callback, Apart, Ids, Drift, Pumped, One, OfOwner, Noted,
         IsError, Bad;
    var r, s1 := s.inflight[i], Answer(s, i, NoErr);
    FailureIs(flags, true);
    AnswerKeeps(s, i, NoErr);
    NotedBound(s, s1, i, NoErr);
    AnswerRing(s, i);
    RequestAt(s1, i);
    var a := s1.inflight[i].ns.value;
    UpKeeps(s1, a);
    var s2 := NameserverUp(s1, a);
    FinishedKeeps(s2, i);
    SameOne(r, s2.inflight[i]) by { assert SameKey(s1.inflight[i], s2.inflight[i]); }
    CallbackKeeps(s, i, NoErr);
    if s.calls == [] { AnswerAlone(s, i); }
  }

  /** The lookups a callback starts do not change how wrong the counter is. */
  lemma AnswerRing(s: State, i: nat)
    requires Sound(s) && i < |s.inflight|
    ensures var s' := Answer(s, i, NoErr);
            && Drift(s'.ring) == Drift(s.ring) + (if IsLost(s, s.inflight[i]) then 1 else 0)
            && s'.orphans == (if IsLost(s, s.inflight[i]) then s.orphans - {s.inflight[i].owner.server} else s.orphans)
  {
    hide Sound, Callback, ResolveAll, Taken, Drift, Apart, Ids;
    CallbackDrift(s, i);
    CallbackKeeps(s, i, NoErr);
    var s1 := Callback(s, i, NoErr);
    if s.inflight[i].owner.User? && s.calls != [] {
      var s2 := s1.(calls := s1.calls[1..]);
      CallsKeep(s1, s1.calls[1..]);
      TakenRing(s1, s2);
      ResolveAllKeeps(s2, s.calls[0]);
      TakenRing(s2, ResolveAll(s2, s.calls[0]));
    }
  }

  lemma TakenRing(s: State, s': State)
    requires Taken(s, s')
    ensures Sound(s') && Drift(s'.ring) == Drift(s.ring) && s'.orphans == s.orphans
  {
    hide Sound, Ledger, Drift, Ids, Apart;
  }

  lemma AnswerAlone(s: State, i: nat)
    requires i < |s.inflight| && s.calls == []
    ensures Answer(s, i, NoErr) == Callback(s, i, NoErr)
  {
    hide Callback;
  }

  lemma SameOne(r: Request, r': Request)
    requires SameKey(r, r')
    ensures One(r) == One(r')
  {
  }

  lemma CallbackDrift(s: State, i: nat)
    requires Sound(s) && i < |s.inflight|
    ensures var s' := Callback(s, i, NoErr);
            && Drift(s'.ring) == Drift(s.ring) + (if IsLost(s, s.inflight[i]) then 1 else 0)
            && s'.orphans == (if IsLost(s, s.inflight[i]) then s.orphans - {s.inflight[i].owner.server} else s.orphans)
  {
    hide Sound, NameserverUp, Ids, Apart;
    if s.inflight[i].owner.Probe? { UpKeeps(s, s.inflight[i].owner.server); }
  }

  // ---------- The run that makes the counter wrong ----------

  lemma RunsNone(s: State)
    ensures Runs(s, [], s)
  {
  }

  lemma RunsMore(s: State, m: Move, rest: seq<Move>, s': State)
    requires Enabled(s, m.event) && Runs(Step(s, m.event, m.world), rest, s')
    ensures Runs(s, [m] + rest, s')
  {
    hide Step, Enabled;
    assert ([m] + rest)[1..] == rest;
  }

  /** A good answer from the server the request was sent to */
  lemma AnswerTo(s: State, i: nat) returns (m: Move)
    requires Sound(s) && i < |s.inflight|
    ensures Enabled(s, m.event) && m.event.ReplyFrom?
    ensures var s' := Step(s, m.event, m.world);
            var r := s.inflight[i];
            && Sound(s') && Pumped(s') && Gone(s, s', r)
            && Drift(s'.ring) == Drift(s.ring) + (if IsLost(s, r) then 1 else 0)
            && (!IsLost(s, r) ==> s'.orphans == s.orphans)
  {
    hide Sound, Step, Drift, Gone, Pumped, IsLost, Ids;
    RequestAt(s, i);
    assert IsGood(0x8000);
    var from := s.inflight[i].ns.value;
    m := Move(ReplyFrom(from, s.inflight[i].transId, 0x8000, true), NOTHING);
    GoodReply(s, i, from, 0x8000, NOTHING);
  }

  /** Once the probe of a freed server waits, a run of good answers reaches it. */
  lemma {:induction false} LostIsReached(s: State, a: nat, ask: Item) returns (moves: seq<Move>, s': State)
    requires Sound(s) && Pumped(s) && Lost(s, a, ask) && Drift(s.ring) == 0
    ensures NeverClears(moves) && Runs(s, moves, s') && !Exact(s')
    decreases s.nInflight + s.nWaiting, 1
  {
    hide Sound, Ledger, Step, Enabled, Pumped, Runs, Lost, One, OfOwner, UpCount;
    Counters(s);
    if i :| 0 <= i < |s.inflight| && IsLost(s, s.inflight[i]) {
      var m := AnswerTo(s, i);
      moves, s' := [m] + [], Step(s, m.event, m.world);
      RunsMore(s, m, [], s') by { RunsNone(s'); }
    } else {
      LostWaits(s, a, ask);
      moves, s' := NextReply(s, a, ask);
    }
  }

  lemma {:induction false} NextReply(s: State, a: nat, ask: Item) returns (moves: seq<Move>, s': State)
    requires Sound(s) && Lost(s, a, ask) && Drift(s.ring) == 0 && s.inflight != []
    requires !IsLost(s, s.inflight[0])
    ensures NeverClears(moves) && Runs(s, moves, s') && !Exact(s')
    decreases s.nInflight + s.nWaiting, 0
  {
    hide Sound, Ledger, Step, Enabled, Drift, Exact, Pumped, Runs;
    Counters(s);
    var m := AnswerTo(s, 0);
    var s1 := Step(s, m.event, m.world);
    Counters(s1);
    var r := s.inflight[0];
    assert ask in Ledger(s1) by {
      assert (Ledger(s1) + One(r))[ask] == (Ledger(s) + OfOwner(r.owner))[ask];
      assert One(r)[ask] == 0;
    }
    var rest;
    rest, s' := LostIsReached(s1, a, ask);
    moves := [m] + rest;
    RunsMore(s, m, rest, s');
  }

  lemma LostWaits(s: State, a: nat, ask: Item)
    requires Sound(s) && Pumped(s) && Lost(s, a, ask)
    requires forall i :: 0 <= i < |s.inflight| ==> !IsLost(s, s.inflight[i])
    ensures s.inflight != []
  {
    Counters(s);
    if s.waiting == [] {
      NotCarried(s, s.inflight, a, ask);
      NotAnswered(s.fired, ask);
      assert false;
    }
  }

  lemma {:induction false} NotCarried(s: State, q: seq<Request>, a: nat, ask: Item)
    requires a in s.orphans && ask.Ask? && ask.owner == Probe(a)
    requires forall i :: 0 <= i < |q| ==> !IsLost(s, q[i])
    ensures Carried(q)[ask] == 0
  {
    if q != [] {
      assert !IsLost(s, q[0]);
      assert One(q[0])[ask] == 0;
      NotCarried(s, q[1..], a, ask);
    }
  }

  lemma LostFrom(s: State) returns (a: nat, ask: Item)
    requires Loosens(s)
    ensures a in DownSet(s.ring.servers) && ask.Ask? && ask.owner == Probe(a) && ask in Ledger(s)
  {
    hide DownSet;
    var down := DownSet(s.ring.servers);
    if Probing(s.inflight, down) {
      var i :| 0 <= i < |s.inflight| && s.inflight[i].owner.Probe? && s.inflight[i].owner.server in down;
      a, ask := s.inflight[i].owner.server, AskOf(s.inflight[i]);
      AskIn(s.inflight, i);
    } else {
      var i :| 0 <= i < |s.waiting| && s.waiting[i].owner.Probe? && s.waiting[i].owner.server in down;
      a, ask := s.waiting[i].owner.server, AskOf(s.waiting[i]);
      AskIn(s.waiting, i);
    }
  }

  /** After a clear with servers and a good one added, everything that waits is sent. */
  lemma Restarted(s: State, w: World) returns (moves: seq<Move>, s': State)
    requires Sound(s) && s.ring.servers != []
    ensures NeverClears(moves) && Runs(Step(s, SuspendAll, w), moves, s')
    ensures Sound(s') && Pumped(s') && Drift(s'.ring) == 0 && Ledger(s') == Ledger(s)
    ensures s'.orphans == s.orphans + DownSet(s.ring.servers)
  {
    hide Sound, Ledger, Pumped, Apart, Drift, Ids, Pump, Suspended, LooseProbe, AddServer, DownSet, UpCount, Runs;
    var s0 := s.(ids := w.ids, sends := w.sends, calls := w.calls);
    WorldKeeps(s, w);
    SuspendKeeps(s0);
    var s1 := Step(s, SuspendAll, w);
    var n1 := s1.(ids := [], sends := [], calls := []);
    WorldKeeps(s1, NOTHING);
    AddNameserverKeeps(n1, 0);
    FirstServer(s1.nextServer);
    var add, resume := Move(AddNameserver(0), NOTHING), Move(Resume, NOTHING);
    var s2 := Step(s1, add.event, NOTHING);
    assert s2.ring == AddServer(Ring([], 0), s1.nextServer, 0);
    PumpKeeps(s2.(ids := [], sends := [], calls := []));
    s' := Step(s2, resume.event, NOTHING);
    moves := [add] + ([resume] + []);
    RunsNone(s');
    RunsMore(s2, resume, [], s');
    RunsMore(s1, add, [resume] + [], s');
  }

  lemma FirstServer(id: nat)
    ensures var r := AddServer(Ring([], 0), id, 0); r.servers != [] && Drift(r) == 0
  {
    AddServerKeeps(Ring([], 0), id, 0);
  }

  /** The exact condition: clearing the servers leaves the counter exact, whatever happens until they are cleared
      again, if and only if no probe of a server that is down is queued. */
  lemma ClearIsSafeIff(before: seq<Move>, s: State, w: World)
    requires CleanRun(Initial(), before, s)
    ensures Loosens(s) <==>
            exists moves, s' :: NeverClears(moves) && Runs(Step(s, SuspendAll, w), moves, s') && !Exact(s')
  {
    hide Inv, CleanRun, Step, Loosens, Runs, NeverClears, Exact;
    Starts();
    CleanRunKeeps(Initial(), before, s);
    if Loosens(s) {
      var moves, s' := ClearGoesWrong(s, w);
    } else {
      forall moves, s' | NeverClears(moves) && Runs(Step(s, SuspendAll, w), moves, s') ensures Exact(s') {
        ClearGoesWell(s, w, moves, s');
      }
    }
  }

  lemma ClearGoesWell(s: State, w: World, moves: seq<Move>, s': State)
    requires Inv(s) && !s.tainted && !Loosens(s) && NeverClears(moves) && Runs(Step(s, SuspendAll, w), moves, s')
    ensures Exact(s')
  {
    hide Inv, Step, Loosens, Runs, NeverClears;
    var s1 := Step(s, SuspendAll, w);
    StepKeeps(s, SuspendAll, w);
    StepTaint(s, SuspendAll, w);
    NeverClearsIsClean(s1, moves, s');
    CleanRunKeeps(s1, moves, s');
    QueuesOf(s');
  }

  lemma ClearGoesWrong(s: State, w: World) returns (moves: seq<Move>, s': State)
    requires Inv(s) && Loosens(s)
    ensures NeverClears(moves) && Runs(Step(s, SuspendAll, w), moves, s') && !Exact(s')
  {
    hide Sound, Balanced, Ledger, Step, Runs, Exact, Pumped, LooseProbe, DownSet, Drift;
    var a, ask := LostFrom(s);
    var first, s1 := Restarted(s, w);
    var rest;
    rest, s' := LostIsReached(s1, a, ask);
    moves := first + rest;
    RunsJoin(Step(s, SuspendAll, w), first, s1, rest, s');
  }

  lemma {:induction false} RunsJoin(s: State, first: seq<Move>, s1: State, rest: seq<Move>, s2: State)
    requires Runs(s, first, s1) && Runs(s1, rest, s2)
    ensures Runs(s, first + rest, s2)
    decreases |first|
  {
    hide Step, Enabled;
    if first == [] {
      assert first + rest == rest;
    } else {
      var next := Step(s, first[0].event, first[0].world);
      RunsJoin(next, first[1..], s1, rest, s2);
      assert (first + rest)[1..] == first[1..] + rest;
    }
  }

  // ---------- A run that makes the counter wrong ----------

  const FIRST := Server(0, 1, true, 0, 0, false)
  const SECOND := Server(1, 2, true, 0, 0, false)
  const DOWN := Server(0, 1, false, 1, 0, false)

  /** The probe of the first server, as it is when it was sent to a server. */
  function ProbeSent(ns: nat): (r: Request) {
    Request(Probe(0), A, PROBE_NAME, 0, 1, Some(ns), 0, false, true, NoSearch)
  }

  const PROBED := Initial().(ring := Ring([DOWN], 0), nextServer := 1, inflight := [ProbeSent(0)], nInflight := 1)

  const CLEARED := Initial().(nextServer := 1, orphans := {0}, tainted := true, waiting := [Reset(ProbeSent(0))],
                              nWaiting := 1)

  const RESTARTED := CLEARED.(ring := Ring([SECOND], 1), nextServer := 2, inflight := [ProbeSent(1)], nInflight := 1,
                              waiting := [], nWaiting := 0)

  lemma RingOfOne(x: Server)
    ensures Ids([x]) == {x.id} && UpCount([x]) == (if x.up then 1 else 0)
    ensures DownSet([x]) == if x.up then {} else {x.id}
    ensures IndexOf([x], x.id) == 0 && FirstUp([x], 0) == (if x.up then 0 else 1)
    ensures Rotate([x], 1) == [x]
  {
    assert [x][1..] == [];
  }

  lemma NoIdInUse()
    ensures FreeFrom([], 0) == 0
  {
  }

  lemma ProbeIsSent()
    ensures var s := Initial().(ring := Ring([DOWN], 0), nextServer := 1); SendProbe(s, 0) == PROBED
  {
    hide FreeFrom, InUse, DnsCompression.LabelsShort, Ids, IndexOf, UpCount, DownSet;
    RingOfOne(DOWN);
    NoIdInUse();
    assert NameOk(PROBE_NAME) by { DnsCompression.ShortName(PROBE_NAME); }
  }

  lemma ProbeIsCleared()
    ensures Suspend(PROBED) == CLEARED
  {
    hide Ids;
    RingOfOne(DOWN);
    assert PROBED.inflight[0].owner == Probe(0);
    assert Probing(PROBED.inflight, {0});
    assert [ProbeSent(0)][1..] == [];
  }

  lemma ProbeIsResent()
    ensures Pump(CLEARED.(ring := Ring([SECOND], 1), nextServer := 2)) == RESTARTED
  {
    hide FreeFrom, InUse, Ids, IndexOf, UpCount, DownSet, TransmitAll;
    RingOfOne(SECOND);
    NoIdInUse();
    var s := CLEARED.(ring := Ring([SECOND], 1), nextServer := 2);
    var r := s.waiting[0];
    var s1 := s.(waiting := s.waiting[1..], nWaiting := s.nWaiting - 1);
    assert s.waiting[1..] == [];
    assert PickNs(s1) == (s1, Some(1));
    var launched := Launch(s1, r.(ns := Some(1), transId := 0));
    assert launched.inflight == [r.(ns := Some(1), transId := 0)];
    assert Transmit(launched, 0) == RESTARTED;
    AllSent(RESTARTED);
  }

  lemma AllSent(s: State)
    requires |s.inflight| == 1 && !s.inflight[0].transmitMe
    ensures TransmitAll(s, 0) == s
  {
    assert TransmitAll(s, 1) == s;
  }

  lemma ProbeIsAnswered()
    ensures Reply(RESTARTED, 1, 0, 0x8000, true)
            == RESTARTED.(ring := Ring([SECOND], 2), orphans := {}, inflight := [], nInflight := 0)
  {
    RingOfOne(SECOND);
    assert !IsError(0x8000, true);
    assert RESTARTED.orphans - {0} == {};
    assert [ProbeSent(1)][..0] + [ProbeSent(1)][1..] == [];
  }

  /** A server is added and goes down, its probe is sent, the servers are cleared, another is added, the probe is sent
      to that one and answered. */
  const RUN := [AddNameserver(1), ReadError(0), ProbeTimer(0), SuspendAll, AddNameserver(2), Resume,
                ReplyFrom(1, 0, 0x8000, true)]

  function Moves(events: seq<Event>): (moves: seq<Move>) {
    seq(|events|, i requires 0 <= i < |events| => Move(events[i], NOTHING))
  }

  lemma RunsAt(s: State, k: nat, s': State)
    requires k < |RUN| && Enabled(s, RUN[k]) && Runs(Step(s, RUN[k], NOTHING), Moves(RUN[k + 1..]), s')
    ensures Runs(s, Moves(RUN[k..]), s')
  {
    hide Step, Enabled;
    assert Moves(RUN[k..])[1..] == Moves(RUN[k + 1..]);
  }

  lemma FirstServerFails()
    ensures var s := Step(Initial(), AddNameserver(1), NOTHING);
            && s == Initial().(ring := Ring([FIRST], 1), nextServer := 1)
            && Step(s, ReadError(0), NOTHING) == s.(ring := Ring([DOWN], 0))
  {
    RingOfOne(FIRST);
  }

  /** The run is possible, and at its end the counter says that two servers are up, and there is one. */
  lemma ProbeOutlivesServer() returns (s: State)
    ensures Runs(Initial(), Moves(RUN), s) && s.ring.good == 2 && UpCount(s.ring.servers) == 1
  {
    hide Runs, SendProbe, Suspend, Pump, Reply, Moves, NameserverFailed;
    s := RESTARTED.(ring := Ring([SECOND], 2), orphans := {}, inflight := [], nInflight := 0);
    RingOfOne(FIRST);
    RingOfOne(DOWN);
    RingOfOne(SECOND);
    RunEnds(s);
    ProbeIsAnswered();
    RunsAt(RESTARTED, 6, s);
    var s5 := CLEARED.(ring := Ring([SECOND], 1), nextServer := 2);
    ProbeIsResent();
    RunsAt(s5, 5, s);
    RunsAt(CLEARED, 4, s);
    ProbeIsCleared();
    RunsAt(PROBED, 3, s);
    FirstServerFails();
    var s1 := Initial().(ring := Ring([FIRST], 1), nextServer := 1);
    var s2 := s1.(ring := Ring([DOWN], 0));
    ProbeIsSent();
    RunsAt(s2, 2, s);
    RunsAt(s1, 1, s);
    RunsAt(Initial(), 0, s);
    assert RUN[0..] == RUN;
  }

  lemma RunEnds(s: State)
    ensures Runs(s, Moves(RUN[7..]), s)
  {
    assert Moves(RUN[7..]) == [];
  }
}
