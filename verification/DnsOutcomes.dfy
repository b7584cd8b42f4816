/** How lookups can end: every one that is pending can be made to fail, and has then been asked under every name up to
    the first one that is refused. */
module DnsOutcomes {

  import opened Basics
  import opened DnsNames
  import opened DnsServers
  import opened DnsRequests
  import opened DnsLookups
  import opened DnsReplies
  import opened DnsProbes
  import opened DnsSearch

  /** The name does not exist. */
  const NXDOMAIN := 0x8183

  lemma NameErrorIs(answered: bool)
    ensures IsAnswer(NXDOMAIN) && Bad(NXDOMAIN, answered) && Failure(NXDOMAIN) == NotExist
  {}

  /** A question of the lookup l is queued. */
  ghost predicate Pending(s: State, l: nat, ask: Item) {
    Inv(s) && Pumped(s) && l < s.nextLookup && IsAsk(s, l, ask)
  }

  // ---------- One request at a time ----------

  lemma {:induction false} CarrierAt(q: seq<Request>, i: nat, l: nat)
    requires i < |q| && q[i].owner == User(l)
    ensures Carriers(q, l) >= 1
  {
    if i > 0 { CarrierAt(q[1..], i - 1, l); }
  }

  lemma OneCompletion(s: State, l: nat)
    requires Inv(s)
    ensures Calls(s.fired, l) + Carriers(s.inflight, l) + Carriers(s.waiting, l) <= 1
  {
    hide Inv, Carried, Answered, Calls, Carriers;
    CallsCounted(s.fired, l);
    CarriersCounted(s.inflight, l);
    CarriersCounted(s.waiting, l);
    BalanceOf(s, l);
    var x := Lookup(l);
    assert Ledger(s)[x] == Carried(s.inflight)[x] + Carried(s.waiting)[x] + Answered(s.fired)[x];
  }

  lemma {:induction false} AskFound(q: seq<Request>, ask: Item) returns (i: nat)
    requires Carried(q)[ask] > 0 && ask.Ask?
    ensures i < |q| && AskOf(q[i]) == ask
  {
    if One(q[0])[ask] > 0 {
      i := 0;
    } else {
      var j := AskFound(q[1..], ask);
      i := j + 1;
    }
  }

  lemma {:induction false} NoCallNoErr(fired: seq<Fired>, l: nat)
    ensures |Errs(fired, l)| == Calls(fired, l)
  {
    if fired != [] {
      var init, last := fired[..|fired| - 1], fired[|fired| - 1];
      assert fired == init + [last];
      NoCallNoErr(init, l);
      CallsLast(init, last, l);
    }
  }

  lemma {:induction false} CallsLast(f: seq<Fired>, x: Fired, l: nat)
    ensures Calls(f + [x], l) == Calls(f, l) + if x.lookup == l then 1 else 0
  {
    if f == [] {
      assert f + [x] == [x] && [x][1..] == [];
    } else {
      assert (f + [x])[1..] == f[1..] + [x];
      CallsLast(f[1..], x, l);
    }
  }

  /** A pending lookup has had no callback, and only one request carries it. */
  lemma Untold(s: State, l: nat, ask: Item)
    requires Inv(s) && IsAsk(s, l, ask)
    ensures Errs(s.fired, l) == []
    ensures forall i, j :: 0 <= i < |s.inflight| && 0 <= j < |s.waiting| ==>
              !(s.inflight[i].owner == User(l) && s.waiting[j].owner == User(l))
  {
    hide Inv, Carried, Calls, Carriers, Errs;
    OneCompletion(s, l);
    NoCallNoErr(s.fired, l);
    NotAnswered(s.fired, ask);
    assert Ledger(s)[ask] == Carried(s.inflight)[ask] + Carried(s.waiting)[ask] + Answered(s.fired)[ask];
    if Carried(s.inflight)[ask] > 0 {
      var i := AskFound(s.inflight, ask);
      CarrierAt(s.inflight, i, l);
    } else {
      var j := AskFound(s.waiting, ask);
      CarrierAt(s.waiting, j, l);
    }
    forall i, j | 0 <= i < |s.inflight| && 0 <= j < |s.waiting| && s.inflight[i].owner == User(l)
      ensures s.waiting[j].owner != User(l)
    {
      CarrierAt(s.inflight, i, l);
      if s.waiting[j].owner == User(l) { CarrierAt(s.waiting, j, l); }
    }
  }

  // ---------- The answers that make a lookup fail ----------

  /** The server a request was sent to says that the name does not exist. */
  lemma Nxdomain(s: State, i: nat, l: nat) returns (m: Move)
    requires Inv(s) && i < |s.inflight| && s.inflight[i].owner == User(l)
    ensures m.event.ReplyFrom? && Enabled(s, m.event)
    ensures var s' := Step(s, m.event, m.world);
            && Inv(s') && Pumped(s') && s'.searches == s.searches && s.nextLookup <= s'.nextLookup
            && FailsOver(s, s', l, AskOf(s.inflight[i]), NotExist)
  {
    hide Sound, Balanced, Step, FailsOver, Pumped, Bad, Failure, Ids, AskOf;
    RequestAt(s, i);
    NameErrorIs(false);
    var from := s.inflight[i].ns.value;
    m := Move(ReplyFrom(from, s.inflight[i].transId, NXDOMAIN, false), NOTHING);
    StepKeeps(s, m.event, m.world);
    BadAnswer(s, i, l, from, NXDOMAIN, false, NOTHING);
    ReplyReaches(s, i, from, NXDOMAIN, false, NOTHING);
    HeardKeeps(s, from, NOTHING);
    NxdomainPumps(Heard(s, from, NOTHING), i);
  }

  lemma NxdomainPumps(s: State, i: nat)
    requires Sound(s) && i < |s.inflight|
    ensures Pumped(ReplyHandle(s, i, NXDOMAIN, false)) && ReplyHandle(s, i, NXDOMAIN, false).searches == s.searches
  {
    hide Sound, Fail, NameserverUp, NameserverFailed, Reissue, IsError, ErrorOf, Bad, Failure, Ids, Pumped;
    RequestAt(s, i);
    NameErrorIs(false);
    FailureIs(NXDOMAIN, false);
    var s1 := NameserverUp(s, s.inflight[i].ns.value);
    UpKeeps(s, s.inflight[i].ns.value);
    FailKeeps(s1, i, NotExist);
  }

  lemma NextIsLess(s: State, ask: Item)
    requires ask.Ask? && NextAsk(s, ask).Some?
    ensures NextAsk(s, ask).value.Ask? && Left(s, NextAsk(s, ask).value.search) < Left(s, ask.search)
  {
    hide NameOk;
  }

  lemma LeftSame(s: State, s': State, search: Search)
    requires s'.searches == s.searches
    ensures Left(s', search) == Left(s, search)
  {}

  /** What is left of a lookup after its question has failed */
  lemma FailedOrNext(s: State, s': State, l: nat, ask: Item)
    requires Pending(s, l, ask) && FailsOver(s, s', l, ask, NotExist) && Errs(s.fired, l) == []
    ensures var next := NextAsk(s, ask);
            if next.Some? then next.value.Ask? && next.value.owner == User(l) && next.value in Ledger(s')
            else Failed(s', l)
  {
    hide Inv, Ledger, Names, Errs, Pumped, NameOk, NextTry;
    var next := NextAsk(s, ask);
    if next.Some? { assert OfLookup(next.value, l); }
  }

  lemma {:induction false} FailRun(s: State, l: nat, ask: Item) returns (moves: seq<Move>, s': State)
    requires Pending(s, l, ask)
    ensures SearchesFixed(moves) && Runs(s, moves, s') && Failed(s', l)
    decreases Left(s, ask.search), s.nInflight + s.nWaiting
  {
    hide Inv, Ledger, Step, Enabled, Pumped, Runs, Failed, Errs, FailsOver, NextAsk, Left, One, OfOwner, Turn, Drift,
         IsLost;
    Untold(s, l, ask);
    InvSound(s);
    Counters(s);
    var m, s1;
    if i :| 0 <= i < |s.inflight| && AskOf(s.inflight[i]) == ask {
      m := Nxdomain(s, i, l);
      s1 := Step(s, m.event, m.world);
      FailedOrNext(s, s1, l, ask);
      var next := NextAsk(s, ask);
      if next.None? {
        moves, s' := [m] + [], s1;
        RunsNone(s1);
        RunsMore(s, m, [], s1);
        return;
      }
      NextIsLess(s, ask);
      LeftSame(s, s1, next.value.search);
      var rest;
      rest, s' := FailRun(s1, l, next.value);
      moves := [m] + rest;
      RunsMore(s, m, rest, s');
    } else {
      var j := InQueue(s, ask);
      var first := s.inflight[0];
      assert s.waiting[j].owner == User(l);
      m := AnswerTo(s, 0);
      s1 := Step(s, m.event, m.world);
      ReplySetup(s, m);
      StepKeeps(s, m.event, m.world);
      StillAsked(s, s1, first, ask);
      InvSound(s1);
      Counters(s1);
      LeftSame(s, s1, ask.search);
      var rest;
      rest, s' := FailRun(s1, l, ask);
      moves := [m] + rest;
      RunsMore(s, m, rest, s');
    }
  }

  lemma ReplySetup(s: State, m: Move)
    requires Enabled(s, m.event) && m.event.ReplyFrom?
    ensures Step(s, m.event, m.world).searches == s.searches
  {
    hide Reply;
  }

  lemma InQueue(s: State, ask: Item) returns (j: nat)
    requires Sound(s) && Pumped(s) && ask.Ask? && ask in Ledger(s)
    requires forall i :: 0 <= i < |s.inflight| ==> AskOf(s.inflight[i]) != ask
    ensures j < |s.waiting| && AskOf(s.waiting[j]) == ask && s.inflight != []
  {
    hide Carried;
    Counters(s);
    NotAnswered(s.fired, ask);
    if Carried(s.inflight)[ask] > 0 {
      var i := AskFound(s.inflight, ask);
    }
    assert Ledger(s)[ask] == Carried(s.inflight)[ask] + Carried(s.waiting)[ask] + Answered(s.fired)[ask];
    j := AskFound(s.waiting, ask);
  }

  lemma StillAsked(s: State, s1: State, r: Request, ask: Item)
    requires Gone(s, s1, r) && ask.Ask? && ask in Ledger(s) && AskOf(r) != ask
    ensures ask in Ledger(s1)
  {
    hide Ledger;
    assert (Ledger(s1) + One(r))[ask] == (Ledger(s) + OfOwner(r.owner))[ask];
    assert One(r)[ask] == 0;
  }

  // ---------- Every pending lookup can fail ----------

  /** The question a pending lookup waits for */
  lemma QuestionOf(s: State, l: nat) returns (ask: Item)
    requires Inv(s) && l in s.accepted && Errs(s.fired, l) == []
    ensures IsAsk(s, l, ask)
  {
    hide Inv, Carried, Calls, Carriers, Errs, Answered;
    BalanceOf(s, l);
    NoCallNoErr(s.fired, l);
    CallsCounted(s.fired, l);
    var x := Lookup(l);
    assert Ledger(s)[x] == Carried(s.inflight)[x] + Carried(s.waiting)[x] + Answered(s.fired)[x];
    if Carried(s.inflight)[x] > 0 {
      ask := AskOfLookup(s.inflight, l);
    } else {
      ask := AskOfLookup(s.waiting, l);
    }
    assert Ledger(s)[ask] >= Carried(s.inflight)[ask] && Ledger(s)[ask] >= Carried(s.waiting)[ask];
  }

  lemma {:induction false} AskOfLookup(q: seq<Request>, l: nat) returns (ask: Item)
    requires Carried(q)[Lookup(l)] > 0
    ensures ask.Ask? && ask.owner == User(l) && Carried(q)[ask] > 0
  {
    if q[0].owner == User(l) {
      ask := AskOf(q[0]);
    } else {
      ask := AskOfLookup(q[1..], l);
    }
  }

  lemma AcceptedBelow(s: State, l: nat)
    requires Inv(s) && l in s.accepted
    ensures l < s.nextLookup
  {}

  /** From every state that can be reached and has a server, every lookup that has been taken on and not yet answered
      can be made to fail, by answers alone. */
  lemma CanFail(before: seq<Move>, s: State, l: nat) returns (moves: seq<Move>, s': State)
    requires Runs(Initial(), before, s) && s.ring.servers != [] && l in s.accepted && Errs(s.fired, l) == []
    ensures SearchesFixed(moves) && Runs(s, moves, s') && Failed(s', l)
  {
    hide Inv, Ledger, Step, Enabled, Pumped, Runs, Failed, Errs;
    Starts();
    RunKeeps(Initial(), before, s);
    var resume := Move(Resume, NOTHING);
    ResumeIs(s);
    var s1 := Step(s, Resume, NOTHING);
    StepKeeps(s, Resume, NOTHING);
    AcceptedBelow(s, l);
    var ask := QuestionOf(s1, l);
    AcceptedBelow(s1, l);
    var rest;
    rest, s' := FailRun(s1, l, ask);
    moves := [resume] + rest;
    RunsMore(s, resume, rest, s');
  }

  lemma ResumeIs(s: State)
    requires Inv(s) && s.ring.servers != []
    ensures Enabled(s, Resume)
    ensures var s1 := Step(s, Resume, NOTHING); Pumped(s1) && s1.accepted == s.accepted && s1.fired == s.fired
  {
    hide Sound, Balanced, Pump, Pumped;
    var s0 := s.(ids := [], sends := [], calls := []);
    WorldKeeps(s, NOTHING);
    PumpKeeps(s0);
  }

  /** So every lookup whose first name is accepted has a run in which it is asked under all names of its order before
      the first one that is refused, and fails. */
  lemma WholeOrderIsAsked(before: seq<Move>, s: State, qtype: QType, name: Text, noSearch: bool, w: World)
    returns (moves: seq<Move>, s': State)
    requires Runs(Initial(), before, s) && s.ring.servers != [] && LeadingOk(Order(s, qtype, name, noSearch)) > 0
    ensures Runs(Step(s, ResolveName(qtype, name, noSearch), w), moves, s') && SearchesFixed(moves)
    ensures var order := Order(s, qtype, name, noSearch);
            Failed(s', s.nextLookup) && Names(s'.asked, s.nextLookup) == order[..LeadingOk(order)]
  {
    hide Inv, Step, Runs, Names, Errs, Order, Enabled, Failed, LeadingOk;
    var e, l := ResolveName(qtype, name, noSearch), s.nextLookup;
    ResolveEnabled(s, qtype, name, noSearch);
    var s1 := Step(s, e, w);
    RunsNone(s1);
    RunsThen(Initial(), before, s, Move(e, w));
    NamesAskedInOrder(before, s, qtype, name, noSearch, w, [], s1);
    Starts();
    RunKeeps(Initial(), before, s);
    ResolveServers(s, qtype, name, noSearch, w);
    FreshLookup(s, qtype, name, noSearch, w);
    moves, s' := CanFail(before + [Move(e, w)], s1, l);
    NamesAskedInOrder(before, s, qtype, name, noSearch, w, moves, s');
  }

  lemma {:induction false} RunsThen(s: State, moves: seq<Move>, s': State, m: Move)
    requires Runs(s, moves, s') && Enabled(s', m.event)
    ensures Runs(s, moves + [m], Step(s', m.event, m.world))
    decreases |moves|
  {
    hide Step, Enabled;
    if moves == [] {
      assert moves + [m] == [m] && [m][1..] == [];
    } else {
      assert (moves + [m])[1..] == moves[1..] + [m];
      RunsThen(Step(s, moves[0].event, moves[0].world), moves[1..], s', m);
    }
  }

  lemma ResolveServers(s: State, qtype: QType, name: Text, noSearch: bool, w: World)
    requires Inv(s) && s.ring.servers != []
    ensures Step(s, ResolveName(qtype, name, noSearch), w).ring.servers != []
  {
    hide Sound, Balanced, Resolve, Ledger, Drift, Apart;
    var s0 := s.(ids := w.ids, sends := w.sends, calls := w.calls);
    WorldKeeps(s, w);
    ResolveKeeps(s0, qtype, name, noSearch);
    IdIn(s.ring.servers, 0);
  }

  /** A lookup that has just been started has had no callback. */
  lemma FreshLookup(s: State, qtype: QType, name: Text, noSearch: bool, w: World)
    requires Inv(s)
    ensures Errs(Step(s, ResolveName(qtype, name, noSearch), w).fired, s.nextLookup) == []
  {
    hide Inv, RequestNew, Submit, FirstTry, Errs;
    Unborn(s, s.nextLookup);
  }
}
