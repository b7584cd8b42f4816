/** What every run of the resolver keeps: queues that match their counters, distinct ids in flight,
    servers assigned, and every lookup either answered once or carried by exactly one request. */
module DnsLookups {

  import opened Basics
  import opened DnsNames
  import opened DnsServers
  import opened DnsRequests

  // ---------- The ledger ----------

  /** What the ledger counts: a lookup that is carried or answered, and a question in a queue. */
  datatype Item = Lookup(lookup: nat) | Ask(owner: Owner, qtype: QType, name: Text, search: Search)

  function OfOwner(o: Owner): (m: multiset<Item>) {
    match o case User(l) => multiset{Lookup(l)} case Probe(_) => multiset{}
  }

  function AskOf(r: Request): (i: Item) {
    Ask(r.owner, r.qtype, r.name, r.search)
  }

  function One(r: Request): (m: multiset<Item>) {
    OfOwner(r.owner) + multiset{AskOf(r)}
  }

  /** The lookups carried and the questions asked by the requests of a queue. */
  function Carried(q: seq<Request>): (m: multiset<Item>) {
    if q == [] then multiset{} else One(q[0]) + Carried(q[1..])
  }

  function Answered(f: seq<Fired>): (m: multiset<Item>) {
    if f == [] then multiset{} else multiset{Lookup(f[0].lookup)} + Answered(f[1..])
  }

  function Ledger(s: State): (m: multiset<Item>) {
    Carried(s.inflight) + Carried(s.waiting) + Answered(s.fired)
  }

  lemma {:induction false} CarriedConcat(a: seq<Request>, b: seq<Request>)
    ensures Carried(a + b) == Carried(a) + Carried(b)
  {
    if a == [] {
      assert a + b == b;
    } else {
      assert (a + b)[1..] == a[1..] + b;
      CarriedConcat(a[1..], b);
    }
  }

  lemma {:induction false} AnsweredConcat(a: seq<Fired>, b: seq<Fired>)
    ensures Answered(a + b) == Answered(a) + Answered(b)
  {
    if a == [] {
      assert a + b == b;
    } else {
      assert (a + b)[1..] == a[1..] + b;
      AnsweredConcat(a[1..], b);
    }
  }

  lemma CarriedOne(r: Request)
    ensures Carried([r]) == One(r)
  {
    assert [r][1..] == [];
  }

  lemma {:induction false} CarriedSame(q: seq<Request>, q': seq<Request>)
    requires |q| == |q'| && forall i :: 0 <= i < |q| ==> One(q[i]) == One(q'[i])
    ensures Carried(q) == Carried(q')
  {
    if q != [] { CarriedSame(q[1..], q'[1..]); }
  }

  lemma CarriedRemove(q: seq<Request>, i: nat)
    requires i < |q|
    ensures Carried(q) == Carried(q[..i] + q[i + 1..]) + One(q[i])
  {
    hide One;
    CarriedSplit(q, i);
    CarriedConcat(q[..i], q[i + 1..]);
  }

  lemma CarriedSplit(q: seq<Request>, i: nat)
    requires i < |q|
    ensures Carried(q) == Carried(q[..i]) + (One(q[i]) + Carried(q[i + 1..]))
  {
    hide One;
    assert q == q[..i] + q[i..] && q[i..][1..] == q[i + 1..];
    CarriedConcat(q[..i], q[i..]);
  }

  lemma AskIn(q: seq<Request>, i: nat)
    requires i < |q|
    ensures Carried(q)[AskOf(q[i])] >= 1
  {
    CarriedRemove(q, i);
    assert One(q[i])[AskOf(q[i])] >= 1;
  }

  lemma {:induction false} NotAnswered(f: seq<Fired>, ask: Item)
    requires ask.Ask?
    ensures Answered(f)[ask] == 0
  {
    if f != [] { NotAnswered(f[1..], ask); }
  }

  // ---------- What concerns one lookup ----------

  /** The names asked for a lookup, in order. */
  function Names(asked: seq<Asked>, l: nat): (ns: seq<Text>) {
    if asked == [] then []
    else
      var last := asked[|asked| - 1];
      Names(asked[..|asked| - 1], l) + if last.lookup == l then [last.name] else []
  }

  /** The results its callback was given, in order. */
  function Errs(fired: seq<Fired>, l: nat): (es: seq<Err>) {
    if fired == [] then []
    else
      var last := fired[|fired| - 1];
      Errs(fired[..|fired| - 1], l) + if last.lookup == l then [last.err] else []
  }

  predicate OfLookup(x: Item, l: nat) {
    x == Lookup(l) || (x.Ask? && x.owner == User(l))
  }

  /** The ledger gains `plus` for `minus` as far as the lookup goes, and its logs gain the names and results. */
  ghost predicate Shift(s: State, s': State, l: nat, minus: multiset<Item>, plus: multiset<Item>,
                        names: seq<Text>, errs: seq<Err>) {
    && (forall x :: OfLookup(x, l) ==> Ledger(s')[x] + minus[x] == Ledger(s)[x] + plus[x])
    && Names(s'.asked, l) == Names(s.asked, l) + names
    && Errs(s'.fired, l) == Errs(s.fired, l) + errs
  }

  ghost predicate Untouched(s: State, s': State, l: nat) {
    Shift(s, s', l, multiset{}, multiset{}, [], [])
  }

  /** The question search_try_next puts after this one, if the search has another name and it is accepted. */
  function NextAsk(s: State, ask: Item): (next: Option<Item>)
    requires ask.Ask?
  {
    if ask.qtype == Ptr then None
    else match NextTry(s, ask.search)
      case None => None
      case Some((name, search)) => if NameOk(name) then Some(Ask(ask.owner, ask.qtype, name, search)) else None
  }

  ghost predicate IsAsk(s: State, l: nat, ask: Item) {
    ask.Ask? && ask.owner == User(l) && ask in Ledger(s)
  }

  /** A question of the lookup gives way to the next one of its search. */
  ghost predicate Continues(s: State, s': State, l: nat, ask: Item, next: Item) {
    && IsAsk(s, l, ask) && NextAsk(s, ask) == Some(next)
    && Shift(s, s', l, multiset{ask}, multiset{next}, [next.name], [])
  }

  /** A question of the lookup is gone and its callback has been made; a failure other than a timeout is passed up
      only when no question follows. */
  ghost predicate Ends(s: State, s': State, l: nat, ask: Item, err: Err) {
    && IsAsk(s, l, ask) && Shift(s, s', l, multiset{ask}, multiset{}, [], [err])
    && (err == NoErr || err == TimedOut || NextAsk(s, ask).None?)
  }

  /** What a failure of its question does to a lookup: the next question of its search takes its place, and if there is
      none the failure is passed up. */
  ghost predicate FailsOver(s: State, s': State, l: nat, ask: Item, err: Err)
    requires ask.Ask?
  {
    var next := NextAsk(s, ask);
    if next.Some? then Continues(s, s', l, ask, next.value) else Ends(s, s', l, ask, err)
  }

  /** What one event may do to a lookup. */
  ghost predicate Turn(s: State, s': State, l: nat) {
    || Untouched(s, s', l)
    || (exists ask, next :: Continues(s, s', l, ask, next))
    || (exists ask, err :: Ends(s, s', l, ask, err))
  }

  // ---------- The structural invariant ----------

  ghost predicate IdsDistinct(q: seq<Request>) {
    && (forall i, j :: 0 <= i < j < |q| ==> q[i].transId != q[j].transId)
    && (forall i :: 0 <= i < |q| ==> q[i].transId != NO_ID)
  }

  ghost predicate AllBelow(a: set<nat>, n: nat) {
    forall x :: x in a ==> x < n
  }

  /** The ring is sound: servers are numbered below nextServer, a freed one is not in the ring, and the counter is exact
      as long as no probe of a freed server can change it. */
  ghost predicate RingSound(ring: Ring, nextServer: nat, orphans: set<nat>, tainted: bool) {
    && Apart(ring) && (tainted || Drift(ring) == 0)
    && AllBelow(Ids(ring.servers), nextServer) && AllBelow(orphans, nextServer) && Ids(ring.servers) !! orphans
  }

  ghost predicate AllAssigned(q: seq<Request>, servers: set<nat>) {
    forall i :: 0 <= i < |q| ==> q[i].ns.Some? && q[i].ns.value in servers
  }

  /** The ring is sound and every request in flight has a server of the ring. */
  ghost predicate Served(s: State) {
    && RingSound(s.ring, s.nextServer, s.orphans, s.tainted)
    && AllAssigned(s.inflight, Ids(s.ring.servers))
  }

  ghost predicate Idle(r: Request) {
    r.ns.None? && !r.armed
  }

  /** What a request may refer to: lookups, search states and servers that exist, but no server of `loose`. */
  datatype Scope = Scope(lookups: nat, searches: nat, servers: nat, loose: set<nat>)

  ghost function ScopeOf(s: State): (sc: Scope) {
    Scope(s.nextLookup, |s.searches|, s.nextServer, if s.tainted then {} else s.orphans)
  }

  ghost predicate OwnerOk(o: Owner, sc: Scope) {
    match o
    case User(l) => l < sc.lookups
    case Probe(a) => a < sc.servers && a !in sc.loose
  }

  ghost predicate RequestOk(r: Request, sc: Scope) {
    && OwnerOk(r.owner, sc)
    && (r.search.Search? ==> r.owner.User? && r.qtype != Ptr && r.search.state < sc.searches)
  }

  ghost predicate AllOk(q: seq<Request>, sc: Scope) {
    forall i :: 0 <= i < |q| ==> RequestOk(q[i], sc)
  }

  ghost predicate AllIdle(q: seq<Request>) {
    forall i :: 0 <= i < |q| ==> Idle(q[i])
  }

  ghost predicate AskedBelow(asked: seq<Asked>, n: nat) {
    forall i :: 0 <= i < |asked| ==> asked[i].lookup < n
  }

  ghost predicate Sound(s: State) {
    && Served(s)
    && s.nInflight == |s.inflight| && s.nWaiting == |s.waiting|
    && 1 <= s.opts.limit <= MAX_LIMIT
    && IdsDistinct(s.inflight)
    && AllIdle(s.waiting)
    && (s.globalSearch.Some? ==> s.globalSearch.value < |s.searches|)
    && AllOk(s.inflight, ScopeOf(s)) && AllOk(s.waiting, ScopeOf(s))
    && AllBelow(s.accepted, s.nextLookup) && AskedBelow(s.asked, s.nextLookup)
  }

  /** How many more times a lookup is carried or answered than it should be. */
  function Owed(s: State, l: nat): (n: int) {
    Ledger(s)[Lookup(l)] as int - if l in s.accepted then 1 else 0
  }

  /** The conservation law: the lookups in flight, waiting and answered are together the lookups taken
      on, each exactly once. */
  ghost predicate Balanced(s: State) {
    forall l: nat :: Owed(s, l) == 0
  }

  /** The invariant of the resolver. */
  ghost predicate Inv(s: State) {
    Sound(s) && Balanced(s)
  }

  // ---------- Steps that only change bookkeeping ----------

  lemma FrameKeeps(s: State, s': State)
    requires Sound(s) && Frame(s, s') && Served(s')
    ensures Sound(s') && Ledger(s') == Ledger(s)
  {
    hide Served, Answered, Carried, AllOk, AllIdle, AllBelow, AskedBelow, One;
    FrameRefs(s.inflight, s'.inflight, ScopeOf(s));
    assert ScopeOf(s') == ScopeOf(s);
    assert IdsDistinct(s'.inflight);
  }

  lemma FrameRefs(q: seq<Request>, q': seq<Request>, sc: Scope)
    requires |q'| == |q| && forall i :: 0 <= i < |q| ==> SameKey(q[i], q'[i])
    ensures Carried(q') == Carried(q)
    ensures AllOk(q, sc) ==> AllOk(q', sc)
  {
    forall i | 0 <= i < |q| ensures One(q[i]) == One(q'[i]) { assert SameKey(q[i], q'[i]); }
    CarriedSame(q, q');
    if AllOk(q, sc) {
      forall i | 0 <= i < |q| ensures RequestOk(q'[i], sc) { assert SameKey(q[i], q'[i]) && RequestOk(q[i], sc); }
    }
  }

  lemma RingServes(s: State, ring: Ring)
    requires Served(s) && SameRing(s.ring, ring)
    ensures Served(s.(ring := ring)) && Frame(s, s.(ring := ring))
  {
    hide AllAssigned, AllBelow, AskedBelow, Ids, UpCount;
  }

  lemma SetReqServes(s: State, i: nat, r: Request)
    requires Served(s) && i < |s.inflight| && SameKey(s.inflight[i], r)
    requires r.ns.Some? && r.ns.value in Ids(s.ring.servers)
    ensures Served(SetReq(s, i, r)) && Frame(s, SetReq(s, i, r))
  {
    hide RingSound, Ids;
  }

  lemma {:induction false} ReassignServes(s: State, a: nat, i: nat)
    requires Served(s)
    ensures Served(Reassign(s, a, i)) && SameRing(s.ring, Reassign(s, a, i).ring)
    decreases |s.inflight| - i
  {
    if i < |s.inflight| {
      AssignedAt(s, i);
      hide Served, Pick, Frame;
      if s.inflight[i].sent == 0 && s.inflight[i].ns == Some(a) {
        PickKeepsRing(s.ring);
        NonEmpty(s, i);
        var (s1, ns) := PickNs(s);
        RingServes(s, s1.ring);
        SetReqServes(s1, i, s1.inflight[i].(ns := ns));
        ReassignServes(SetReq(s1, i, s1.inflight[i].(ns := ns)), a, i + 1);
      } else {
        ReassignServes(s, a, i + 1);
      }
    }
  }

  lemma AssignedAt(s: State, i: nat)
    requires Served(s) && i < |s.inflight|
    ensures Assigned(s, i)
  {
    hide RingSound;
  }

  lemma NonEmpty(s: State, i: nat)
    requires Assigned(s, i)
    ensures s.ring.servers != []
  {
  }

  lemma FailedServes(s: State, a: nat)
    requires Served(s)
    ensures Served(NameserverFailed(s, a))
    ensures SameRing(s.ring, NameserverFailed(s, a).ring)
  {
    hide Served, MarkDown, Reassign, Frame;
    if a in Ids(s.ring.servers) {
      MarkKeeps(s.ring, a);
      RingServes(s, MarkDown(s.ring, a));
      ReassignServes(s.(ring := MarkDown(s.ring, a)), a, 0);
    }
  }

  lemma UpServes(s: State, a: nat)
    requires Served(s)
    ensures Served(NameserverUp(s, a))
    ensures SameRing(s.ring, NameserverUp(s, a).ring)
  {
    hide Served, MarkUp, Frame;
    if a in Ids(s.ring.servers) {
      MarkKeeps(s.ring, a);
      RingServes(s, MarkUp(s.ring, a));
    }
  }

  /** Overwriting a server without changing its health */
  lemma TouchServes(s: State, server: Server)
    requires Served(s) && server.id in Ids(s.ring.servers) && server.up == At(s.ring, server.id).up
    ensures Served(s.(ring := SetServer(s.ring, server)))
    ensures SameRing(s.ring, SetServer(s.ring, server))
    ensures Frame(s, s.(ring := SetServer(s.ring, server)))
  {
    hide Served, SetServer, Ids, UpCount, Frame;
    SetServerKeeps(s.ring, server);
    RingServes(s, SetServer(s.ring, server));
  }

  lemma TransmitServes(s: State, i: nat)
    requires Served(s)
    ensures Served(Transmit(s, i)) && SameRing(s.ring, Transmit(s, i).ring)
  {
    hide Served, Ids, NameserverFailed, SetServer, At;
    if Assigned(s, i) {
      var r, sent := s.inflight[i], if s.sends == [] then s.sends else s.sends[1..];
      var s1 := SetReq(s, i, r.(transmitMe := true));
      var s2 := s1.(sends := sent);
      SetReqServes(s, i, r.(transmitMe := true));
      SendsServe(s1, sent);
      var server := At(s.ring, r.ns.value);
      TouchServes(s2, server.(choked := true));
      FailedServes(s2, server.id);
      var result := if s.sends == [] then Sent else s.sends[0];
      var s3 := if result == SendFailed then NameserverFailed(s2, server.id) else s2;
      SentServes(s2, s3, i);
    }
  }

  lemma SendsServe(s: State, sends: seq<Send>)
    requires Served(s)
    ensures Served(s.(sends := sends))
  {
  }

  lemma SentServes(s2: State, s3: State, i: nat)
    requires Served(s3) && |s3.inflight| == |s2.inflight| && i < |s2.inflight|
    ensures Served(CountSent(s3, i))
  {
    AssignedAt(s3, i);
    SetReqServes(s3, i, s3.inflight[i].(armed := true, sent := s3.inflight[i].sent + 1, transmitMe := false));
  }

  lemma {:induction false} TransmitAllServes(s: State, i: nat)
    requires Served(s)
    ensures Served(TransmitAll(s, i)) && SameRing(s.ring, TransmitAll(s, i).ring)
    decreases |s.inflight| - i
  {
    hide Served, Transmit, Frame, SameRing;
    if i < |s.inflight| {
      TransmitServes(s, i);
      var s1 := TransmitWaiting(s, i);
      SameRingSelf(s.ring);
      TransmitAllServes(s1, i + 1);
      SameRingTrans(s.ring, s1.ring, TransmitAll(s1, i + 1).ring);
    } else {
      SameRingSelf(s.ring);
    }
  }


  lemma SameRingSelf(r: Ring)
    ensures SameRing(r, r)
  {
  }

  lemma SameRingTrans(r: Ring, r1: Ring, r2: Ring)
    requires SameRing(r, r1) && SameRing(r1, r2)
    ensures SameRing(r, r2)
  {
  }

  // ---------- Steps that move requests ----------

  /** A request that may be submitted now. */
  ghost predicate Ready(s: State, r: Request) {
    && RequestOk(r, ScopeOf(s)) && !r.armed
    && (r.ns.Some? ==> r.ns.value in Ids(s.ring.servers) && r.transId != NO_ID && !InUse(s.inflight, r.transId))
  }

  lemma LaunchKeeps(s: State, r: Request)
    requires Sound(s) && Ready(s, r) && r.ns.Some?
    ensures Sound(Launch(s, r)) && Ledger(Launch(s, r)) == Ledger(s) + One(r)
  {
    hide RingSound, AllIdle, AllBelow, AskedBelow, Ids, RequestOk, Carried, Answered, One;
    var s' := Launch(s, r);
    CarriedConcat(s.inflight, [r]);
    CarriedOne(r);
    assert AllOk(s'.inflight, ScopeOf(s')) && AllAssigned(s'.inflight, Ids(s'.ring.servers));
    forall i, j | 0 <= i < j < |s'.inflight| ensures s'.inflight[i].transId != s'.inflight[j].transId {
      if j == |s.inflight| { assert s.inflight[i].transId != r.transId; }
    }
  }

  lemma EnqueueKeeps(s: State, r: Request)
    requires Sound(s) && Idle(r) && RequestOk(r, ScopeOf(s))
    ensures Sound(Enqueue(s, r)) && Ledger(Enqueue(s, r)) == Ledger(s) + One(r)
  {
    hide RingSound, AllAssigned, AllBelow, AskedBelow, IdsDistinct, Ids, RequestOk, Carried, Answered, One;
    CarriedConcat(s.waiting, [r]);
    CarriedOne(r);
    var s' := Enqueue(s, r);
    assert AllOk(s'.waiting, ScopeOf(s')) && AllIdle(s'.waiting);
  }

  lemma TransmitKeeps(s: State, i: nat)
    requires Sound(s)
    ensures Quiet(s, Transmit(s, i)) && SameRing(s.ring, Transmit(s, i).ring)
  {
    hide Transmit;
    TransmitServes(s, i);
    FrameKeeps(s, Transmit(s, i));
  }

  lemma TransmitAllKeeps(s: State)
    requires Sound(s)
    ensures Quiet(s, TransmitAll(s, 0)) && SameRing(s.ring, TransmitAll(s, 0).ring)
  {
    hide TransmitAll;
    TransmitAllServes(s, 0);
    FrameKeeps(s, TransmitAll(s, 0));
  }

  lemma SubmitKeeps(s: State, r: Request)
    requires Sound(s) && Ready(s, r)
    ensures Sound(Submit(s, r)) && Ledger(Submit(s, r)) == Ledger(s) + One(r) && SameRing(s.ring, Submit(s, r).ring)
    ensures forall k :: 0 <= k < |s.inflight| ==> SameKey(s.inflight[k], Submit(s, r).inflight[k])
  {
    hide Sound, Ledger, Transmit, Apart, Drift, Ids;
    if r.ns.Some? {
      LaunchKeeps(s, r);
      var s1 := Launch(s, r);
      TransmitKeeps(s1, |s.inflight|);
      forall k | 0 <= k < |s.inflight| ensures SameKey(s.inflight[k], Submit(s, r).inflight[k]) {
        assert SameKey(s1.inflight[k], Submit(s, r).inflight[k]);
      }
    } else {
      EnqueueKeeps(s, r);
    }
  }

  lemma DequeueKeeps(s: State)
    requires Sound(s) && s.waiting != []
    ensures var s' := s.(waiting := s.waiting[1..], nWaiting := s.nWaiting - 1);
            Sound(s') && Ledger(s) == Ledger(s') + One(s.waiting[0])
  {
    hide RingSound, AllAssigned, AllBelow, AskedBelow, IdsDistinct, Ids, RequestOk, Answered, One;
    var s' := s.(waiting := s.waiting[1..], nWaiting := s.nWaiting - 1);
    assert AllOk(s'.waiting, ScopeOf(s')) && AllIdle(s'.waiting);
  }

  lemma PickKeeps(s: State)
    requires Sound(s)
    ensures Quiet(s, PickNs(s).0) && SameRing(s.ring, PickNs(s).0.ring)
    ensures PickNs(s).1.Some? <==> s.ring.servers != []
    ensures PickNs(s).1.Some? ==> PickNs(s).1.value in Ids(s.ring.servers)
  {
    hide Pick;
    PickKeepsRing(s.ring);
    RingServes(s, PickNs(s).0.ring);
    FrameKeeps(s, PickNs(s).0);
  }

  lemma TakeIdKeeps(s: State)
    requires Sound(s)
    ensures Quiet(s, TakeId(s).0)
    ensures |s.inflight| < 0xffff ==> TakeId(s).1 != NO_ID
  {
    hide RingSound, AllAssigned, AllOk, AllIdle, AllBelow, AskedBelow, IdsDistinct, Ids, TakeId, FreeFrom, InUse;
    FreeIdExists(s.inflight);
  }

  function IdSet(q: seq<Request>): (a: set<TransId>) {
    if q == [] then {} else {q[0].transId} + IdSet(q[1..])
  }

  lemma {:induction false} IdSetHas(q: seq<Request>, id: TransId)
    ensures id in IdSet(q) <==> InUse(q, id)
  {
    if q != [] {
      IdSetHas(q[1..], id);
      if InUse(q[1..], id) {
        var i :| 0 <= i < |q[1..]| && q[1..][i].transId == id;
        assert q[i + 1].transId == id;
      }
      if InUse(q, id) {
        var i :| 0 <= i < |q| && q[i].transId == id;
        if i > 0 { assert q[1..][i - 1].transId == id; }
      }
    }
  }

  lemma {:induction false} IdSetSize(q: seq<Request>)
    requires IdsDistinct(q)
    ensures |IdSet(q)| == |q|
  {
    if q != [] {
      IdSetSize(q[1..]);
      IdSetHas(q[1..], q[0].transId);
      forall i | 0 <= i < |q[1..]| ensures q[1..][i].transId != q[0].transId {
        assert q[1..][i] == q[i + 1] && q[0].transId != q[i + 1].transId;
      }
    }
  }

  function IdsBelow(n: TransId): (a: set<TransId>)
  {
    if n == 0 then {} else IdsBelow(n - 1) + {n - 1}
  }

  lemma {:induction false} IdsBelowAre(n: TransId)
    ensures |IdsBelow(n)| == n
    ensures forall id: TransId :: id in IdsBelow(n) <==> id < n
  {
    if n > 0 { IdsBelowAre(n - 1); }
  }

  lemma SubsetSize<T>(a: set<T>, b: set<T>)
    requires a <= b
    ensures |a| <= |b| && (|a| == |b| ==> a == b)
  {
    assert b == a + (b - a);
  }

  /** Of the 65535 ids that may be drawn one is free if and only if fewer are in flight. */
  lemma FreeIdExists(q: seq<Request>)
    requires IdsDistinct(q)
    ensures FreeFrom(q, 0) != NO_ID <==> |q| < 0xffff
  {
    hide IdsBelow, IdSet, FreeFrom, InUse, IdsDistinct;
    IdSetSize(q);
    IdsBelowAre(NO_ID);
    NoIdUnused(q);
    var all, used, free := IdsBelow(NO_ID), IdSet(q), FreeFrom(q, 0);
    forall id: TransId ensures id in used <==> InUse(q, id) { IdSetHas(q, id); }
    assert used <= all;
    SubsetSize(used, all);
    if free == NO_ID { assert all <= used; assert all == used; } else { assert free in all && free !in used; }
  }

  lemma NoIdUnused(q: seq<Request>)
    requires IdsDistinct(q)
    ensures !InUse(q, NO_ID)
  {
  }

  lemma PromoteKeeps(s: State)
    requires Sound(s) && s.waiting != [] && s.ring.servers != [] && |s.inflight| < s.opts.limit
    ensures Quiet(s, Promote(s)) && SameRing(s.ring, Promote(s).ring) && Promote(s).ring.servers != []
    ensures Promote(s).waiting == s.waiting[1..] && |Promote(s).inflight| == |s.inflight| + 1
  {
    hide Sound, Ledger, Transmit, TransmitAll, TakeId, Pick, RequestOk, Ids;
    var r := s.waiting[0];
    WaitingAt(s, 0);
    Counters(s);
    var s1 := s.(waiting := s.waiting[1..], nWaiting := s.nWaiting - 1);
    DequeueKeeps(s);
    PickKeeps(s1);
    var (s2, ns) := PickNs(s1);
    TakeIdKeeps(s2);
    var (s3, id) := TakeId(s2);
    SameRefs(r, r.(ns := ns, transId := id), ScopeOf(s));
    LaunchKeeps(s3, r.(ns := ns, transId := id));
    var s4 := Launch(s3, r.(ns := ns, transId := id));
    TransmitKeeps(s4, |s3.inflight|);
    TransmitAllKeeps(Transmit(s4, |s3.inflight|));
    IdsEmpty(s.ring.servers, Promote(s).ring.servers);
  }

  lemma SameRefs(r: Request, r': Request, sc: Scope)
    requires RequestOk(r, sc) && r'.owner == r.owner && r'.qtype == r.qtype && r'.search == r.search
    ensures RequestOk(r', sc)
  {
  }

  lemma IdsEmpty(q: seq<Server>, q': seq<Server>)
    requires q != [] && Ids(q') == Ids(q)
    ensures q' != []
  {
    assert q[0].id in Ids(q);
  }

  /** Pumping keeps the invariant, loses and duplicates nothing, and goes on until nothing waits or the
      limit on requests in flight is reached. */
  lemma {:induction false} PumpKeeps(s: State)
    requires Sound(s) && (s.waiting == [] || s.ring.servers != [])
    ensures Quiet(s, Pump(s)) && Pumped(Pump(s))
    ensures SameRing(s.ring, Pump(s).ring)
    ensures Pump(s).nInflight + Pump(s).nWaiting == s.nInflight + s.nWaiting
    decreases |s.waiting|
  {
    hide Sound, Ledger, Promote, Ids, Apart, Drift;
    Counters(s);
    if s.nInflight < s.opts.limit && s.nWaiting != 0 {
      PromoteKeeps(s);
      Counters(Promote(s));
      PumpKeeps(Promote(s));
    }
  }

  lemma Counters(s: State)
    requires Sound(s)
    ensures s.nInflight == |s.inflight| && s.nWaiting == |s.waiting| && 1 <= s.opts.limit <= MAX_LIMIT
  {
  }

  lemma WaitingAt(s: State, i: nat)
    requires Sound(s) && i < |s.waiting|
    ensures Idle(s.waiting[i]) && RequestOk(s.waiting[i], ScopeOf(s))
  {
  }

  lemma RemoveKeeps(s: State, i: nat)
    requires Sound(s) && i < |s.inflight|
    ensures Sound(Remove(s, i)) && Ledger(s) == Ledger(Remove(s, i)) + One(s.inflight[i])
    ensures s.ring.servers != []
  {
    hide Sound, Carried, Answered, One;
    CarriedRemove(s.inflight, i);
    RequestAt(s, i);
    NonEmpty(s, i);
    RemoveServes(s, i);
  }

  lemma RemoveServes(s: State, i: nat)
    requires Sound(s) && i < |s.inflight|
    ensures Sound(Remove(s, i))
  {
    hide RingSound, AllIdle, AllBelow, AskedBelow, Ids, RequestOk;
    var q, s' := s.inflight, Remove(s, i);
    assert forall k :: 0 <= k < |s'.inflight| ==> s'.inflight[k] == q[if k < i then k else k + 1];
    assert AllOk(s'.inflight, ScopeOf(s')) && AllAssigned(s'.inflight, Ids(s'.ring.servers));
  }

  /** After a request is finished the queue has been pumped. */
  ghost predicate Pumped(s: State) {
    s.waiting == [] || s.nInflight >= s.opts.limit
  }

  lemma FinishedKeeps(s: State, i: nat)
    requires Sound(s) && i < |s.inflight|
    ensures Sound(Finished(s, i)) && Ledger(s) == Ledger(Finished(s, i)) + One(s.inflight[i])
    ensures Pumped(Finished(s, i)) && SameRing(s.ring, Finished(s, i).ring)
    ensures Finished(s, i).nInflight + Finished(s, i).nWaiting == s.nInflight + s.nWaiting - 1
  {
    hide Sound, Ledger, Pump;
    RemoveKeeps(s, i);
    PumpKeeps(Remove(s, i));
  }

  lemma RequestNewReady(s: State, owner: Owner, qtype: QType, name: Text)
    requires Sound(s) && OwnerOk(owner, ScopeOf(s))
    ensures var (s', r) := RequestNew(s, owner, qtype, name);
            && Quiet(s, s') && SameRing(s.ring, s'.ring)
            && (r.Some? ==> AskOf(r.value) == Ask(owner, qtype, name, NoSearch) && Ready(s', r.value))
            && (r.Some? <==> NameOk(name))
  {
    hide Sound, Ledger, TakeId, Pick, NameOk, Apart, Drift, Ids, SameKey;
    Counters(s);
    SameRingSelf(s.ring);
    TakeIdKeeps(s);
    var s1 := if s.nInflight < s.opts.limit then TakeId(s).0 else s;
    PickKeeps(s1);
  }

  // ---------- Callbacks ----------

  lemma CallbackKeeps(s: State, i: nat, err: Err)
    requires Sound(s) && i < |s.inflight|
    ensures var s' := Callback(s, i, err);
            Sound(s') && Ledger(s') == Ledger(s) + OfOwner(s.inflight[i].owner)
  {
    hide Sound, Ledger, NameserverUp, SetServer, At, Ids, SameRing;
    match s.inflight[i].owner
    case User(l) =>
      RecordKeeps(s, Fired(l, err));
    case Probe(a) =>
      UpKeeps(s, a);
      if a in s.orphans { OrphanKeeps(s, i, a); }
      if a in Ids(s.ring.servers) {
        TouchKeeps(s, At(s.ring, a).(failedTimes := At(s.ring, a).failedTimes + 1));
      }
  }

  /** Only after servers were freed under a queued probe can a probe of a freed server be answered. */
  lemma OrphanKeeps(s: State, i: nat, a: nat)
    requires Sound(s) && i < |s.inflight| && s.inflight[i].owner == Probe(a) && a in s.orphans
    ensures s.tainted
    ensures var s' := s.(ring := s.ring.(good := s.ring.good + 1), orphans := s.orphans - {a});
            Sound(s') && Ledger(s') == Ledger(s)
  {
    hide AllAssigned, AllOk, AllIdle, IdsDistinct, Ids, Drift, Carried, Answered;
    RequestAt(s, i);
    var s' := s.(ring := s.ring.(good := s.ring.good + 1), orphans := s.orphans - {a});
    assert ScopeOf(s') == ScopeOf(s);
  }

  lemma RecordKeeps(s: State, f: Fired)
    requires Sound(s)
    ensures var s' := s.(fired := s.fired + [f]); Sound(s') && Ledger(s') == Ledger(s) + multiset{Lookup(f.lookup)}
  {
    hide RingSound, AllAssigned, AllOk, AllIdle, AllBelow, AskedBelow, IdsDistinct, Ids, Carried;
    AnsweredConcat(s.fired, [f]);
    assert [f][1..] == [];
  }

  lemma NamesMore(asked: seq<Asked>, a: Asked, l: nat)
    ensures Names(asked + [a], l) == Names(asked, l) + if a.lookup == l then [a.name] else []
  {
    assert (asked + [a])[..|asked|] == asked;
  }

  lemma ErrsMore(fired: seq<Fired>, f: Fired, l: nat)
    ensures Errs(fired + [f], l) == Errs(fired, l) + if f.lookup == l then [f.err] else []
  {
    assert (fired + [f])[..|fired|] == fired;
  }

  /** Lookups are only ever added. */
  ghost predicate Grown(s: State, s': State) {
    s.accepted <= s'.accepted && s.nextLookup <= s'.nextLookup
  }

  /** Nothing was moved: even the questions in the queues are the same. */
  ghost predicate Quiet(s: State, s': State) {
    && Sound(s') && Ledger(s') == Ledger(s)
    && s'.accepted == s.accepted && s'.nextLookup == s.nextLookup && s'.asked == s.asked && s'.fired == s.fired
  }

  /** A handled request leaves the lookups balanced: what it carried was answered or passed on. */
  ghost predicate Settled(s: State, s': State) {
    && Sound(s') && Grown(s, s')
    && (forall l: nat :: Owed(s', l) == Owed(s, l))
    && (forall l: nat :: l < s.nextLookup ==> Turn(s, s', l))
  }

  lemma QuietSettles(s: State, s': State)
    requires Quiet(s, s')
    ensures Settled(s, s')
  {
    hide Sound, Ledger, Names, Errs;
    forall l: nat | l < s.nextLookup ensures Turn(s, s', l) { assert Untouched(s, s', l); }
  }

  /** A new lookup is carried by one request, asked under one name, and no other lookup is touched. */
  ghost predicate Taken(s: State, s': State) {
    && Sound(s') && Grown(s, s')
    && (forall l: nat :: Owed(s', l) == Owed(s, l))
    && (forall l: nat :: l < s.nextLookup ==> Untouched(s, s', l))
    && |s.inflight| <= |s'.inflight|
    && (forall k :: 0 <= k < |s.inflight| ==> SameKey(s.inflight[k], s'.inflight[k]))
    && SameRing(s.ring, s'.ring) && s'.orphans == s.orphans
  }

  /** What a resolver that takes the lookup l on does to it: it is asked under a first name. */
  ghost predicate Enters(s: State, s': State, l: nat, ask: Item) {
    && ask.Ask? && l in s'.accepted
    && Shift(s, s', l, multiset{}, multiset{Lookup(l), ask}, [ask.name], [])
  }

  /** A lookup whose first name is accepted is carried by one request and asked under that name; another is not taken
      on. No lookup that is there is touched. */
  lemma ResolveKeeps(s: State, qtype: QType, name: Text, noSearch: bool)
    requires Sound(s)
    ensures Taken(s, Resolve(s, qtype, name, noSearch))
    ensures var s' := Resolve(s, qtype, name, noSearch);
            var l := s.nextLookup;
            var (first, search) := FirstTry(s, name, noSearch || qtype == Ptr);
            if NameOk(first) then Enters(s, s', l, Ask(User(l), qtype, first, search))
            else l !in s'.accepted && Untouched(s, s', l)
  {
    hide Sound, Ledger, RequestNew, Submit, FirstTry, Shift, NameOk, RequestOk, SameRing, Ids, Apart, Drift, Taken;
    FreshLookup(s);
    FirstTryOk(s, name, noSearch || qtype == Ptr);
    var l := s.nextLookup;
    var (first, search) := FirstTry(s, name, noSearch || qtype == Ptr);
    var s0 := s.(nextLookup := l + 1);
    RelabelKeeps(s, l + 1, s.accepted, s.asked);
    RequestNewReady(s0, User(l), qtype, first);
    var (s1, r) := RequestNew(s0, User(l), qtype, first);
    if r.None? {
      RefusedTaken(s, s1);
    } else {
      var s2 := Log(s1.(accepted := s1.accepted + {l}), User(l), first);
      RelabelKeeps(s1, l + 1, s2.accepted, s2.asked);
      var r2 := r.value.(search := search);
      assert RequestOk(r2, ScopeOf(s2)) by { SearchRefs(r.value, search, ScopeOf(s2)); }
      SubmitKeeps(s2, r2);
      SameRingTrans(s.ring, s1.ring, Submit(s2, r2).ring);
      EnteredTaken(s, Submit(s2, r2), r2);
    }
  }

  lemma RefusedTaken(s: State, s': State)
    requires Sound(s) && Sound(s') && Ledger(s') == Ledger(s) && SameRing(s.ring, s'.ring)
    requires s' == s.(nextLookup := s.nextLookup + 1, ring := s'.ring, ids := s'.ids)
    ensures Taken(s, s') && Untouched(s, s', s.nextLookup)
  {
    hide Sound, Ledger, Names, Errs, SameRing;
    assert forall k :: 0 <= k < |s.inflight| ==> SameKey(s.inflight[k], s'.inflight[k]);
  }

  lemma EnteredTaken(s: State, s': State, r: Request)
    requires var l := s.nextLookup;
             && Sound(s') && Ledger(s') == Ledger(s) + One(r) && r.owner == User(l)
             && s'.nextLookup == l + 1 && s'.accepted == s.accepted + {l} && l !in s.accepted
             && s'.asked == s.asked + [Asked(l, r.name)] && s'.fired == s.fired
             && SameRing(s.ring, s'.ring) && s'.orphans == s.orphans
             && |s.inflight| <= |s'.inflight|
             && forall k :: 0 <= k < |s.inflight| ==> SameKey(s.inflight[k], s'.inflight[k])
    ensures Taken(s, s') && Enters(s, s', s.nextLookup, AskOf(r))
  {
    hide Sound, Ledger, Names, Errs, SameKey, SameRing;
    var l, m := s.nextLookup, multiset{Lookup(s.nextLookup), AskOf(r)};
    assert One(r) == m;
    forall x: Item ensures Ledger(s')[x] == Ledger(s)[x] + m[x] { assert Ledger(s')[x] == (Ledger(s) + m)[x]; }
    forall l': nat ensures Owed(s', l') == Owed(s, l') { assert m[Lookup(l')] == if l' == l then 1 else 0; }
    forall l': nat | l' < l ensures Untouched(s, s', l') {
      NamesMore(s.asked, Asked(l, r.name), l');
      forall x | OfLookup(x, l') ensures m[x] == 0 { }
    }
    NamesMore(s.asked, Asked(l, r.name), l);
  }

  lemma SearchRefs(r: Request, search: Search, sc: Scope)
    requires RequestOk(r, sc) && r.owner.User? && (search.Search? ==> search.state < sc.searches && r.qtype != Ptr)
    ensures RequestOk(r.(search := search), sc)
  {
  }

  lemma FreshLookup(s: State)
    requires Sound(s)
    ensures AllBelow(s.accepted, s.nextLookup) && s.nextLookup !in s.accepted && AskedBelow(s.asked, s.nextLookup)
  {
  }

  lemma FirstTryOk(s: State, name: Text, noSearch: bool)
    requires Sound(s)
    ensures var f := FirstTry(s, name, noSearch); f.1.Search? ==> !noSearch && f.1.state < |s.searches|
  {
  }

  /** Which lookups exist does not touch the queues. */
  lemma RelabelKeeps(s: State, nextLookup: nat, accepted: set<nat>, asked: seq<Asked>)
    requires Sound(s) && s.nextLookup <= nextLookup
    requires AllBelow(accepted, nextLookup) && AskedBelow(asked, nextLookup)
    ensures var s' := s.(nextLookup := nextLookup, accepted := accepted, asked := asked);
            Sound(s') && Ledger(s') == Ledger(s)
  {
    hide RingSound, AllAssigned, AllOk, AllIdle, AllBelow, AskedBelow, IdsDistinct, Ids, Carried, Answered;
    var s' := s.(nextLookup := nextLookup, accepted := accepted, asked := asked);
    AllOkMore(s.inflight, ScopeOf(s), ScopeOf(s'));
    AllOkMore(s.waiting, ScopeOf(s), ScopeOf(s'));
  }

  lemma {:induction false} ResolveAllKeeps(s: State, calls: seq<Call>)
    requires Sound(s)
    ensures Taken(s, ResolveAll(s, calls))
    decreases |calls|
  {
    hide Sound, Ledger, Resolve, Names, Errs;
    if calls != [] {
      var s1 := Resolve(s, calls[0].qtype, calls[0].name, calls[0].noSearch);
      ResolveKeeps(s, calls[0].qtype, calls[0].name, calls[0].noSearch);
      ResolveAllKeeps(s1, calls[1..]);
      TakenTrans(s, s1, ResolveAll(s1, calls[1..]));
    }
  }

  lemma TakenSound(s: State, s': State)
    requires Taken(s, s')
    ensures Sound(s')
  {
  }

  lemma TakenTrans(s: State, s1: State, s2: State)
    requires Taken(s, s1) && Taken(s1, s2)
    ensures Taken(s, s2)
  {
    hide Sound, Ledger, Names, Errs, SameRing;
    SameRingTrans(s.ring, s1.ring, s2.ring);
    forall l: nat | l < s.nextLookup ensures Untouched(s, s2, l) {
      assert Untouched(s, s1, l) && Untouched(s1, s2, l);
    }
    forall k | 0 <= k < |s.inflight| ensures SameKey(s.inflight[k], s2.inflight[k]) {
      assert SameKey(s.inflight[k], s1.inflight[k]) && SameKey(s1.inflight[k], s2.inflight[k]);
    }
  }

  /** The callback of a request has been made and has started what lookups it wanted; the request is still there. */
  ghost predicate Noted(s: State, s': State, i: nat, err: Err)
    requires i < |s.inflight|
  {
    var o := s.inflight[i].owner;
    && Sound(s') && Grown(s, s')
    && (forall l: nat :: Owed(s', l) == Owed(s, l) + if o == User(l) then 1 else 0)
    && (forall l: nat :: l < s.nextLookup ==>
          Shift(s, s', l, multiset{}, OfOwner(o), [], if o == User(l) then [err] else []))
    && i < |s'.inflight| && SameKey(s.inflight[i], s'.inflight[i])
  }

  lemma CallbackNotes(s: State, i: nat, err: Err)
    requires Sound(s) && i < |s.inflight|
    ensures Noted(s, Callback(s, i, err), i, err)
  {
    hide Sound, Ledger, Names, Errs, Callback;
    CallbackKeeps(s, i, err);
    var s', o := Callback(s, i, err), s.inflight[i].owner;
    CallbackLogs(s, i, err);
    forall x: Item ensures Ledger(s')[x] + multiset{}[x] == Ledger(s)[x] + OfOwner(o)[x] {
      assert Ledger(s')[x] == (Ledger(s) + OfOwner(o))[x];
    }
    forall l: nat | l < s.nextLookup
      ensures Shift(s, s', l, multiset{}, OfOwner(o), [], if o == User(l) then [err] else [])
    {
      if o.User? { ErrsMore(s.fired, Fired(o.lookup, err), l); } else { assert s'.fired == s.fired; }
    }
  }

  lemma CallbackLogs(s: State, i: nat, err: Err)
    requires i < |s.inflight|
    ensures var o := s.inflight[i].owner;
            Callback(s, i, err).fired == s.fired + if o.User? then [Fired(o.lookup, err)] else []
  {
  }

  lemma AnswerKeeps(s: State, i: nat, err: Err)
    requires Sound(s) && i < |s.inflight|
    ensures Noted(s, Answer(s, i, err), i, err)
  {
    hide Sound, Noted, Taken, Callback, ResolveAll;
    CallbackNotes(s, i, err);
    var s1 := Callback(s, i, err);
    if s.inflight[i].owner.User? && s.calls != [] {
      var s2 := s1.(calls := s1.calls[1..]);
      NotedBound(s, s1, i, err);
      CallsKeep(s1, s1.calls[1..]);
      TakenSound(s1, s2);
      ResolveAllKeeps(s2, s.calls[0]);
      TakenTrans(s1, s2, ResolveAll(s2, s.calls[0]));
      NotedThenTaken(s, s1, ResolveAll(s2, s.calls[0]), i, err);
    }
  }

  lemma CallsKeep(s: State, calls: seq<seq<Call>>)
    requires Sound(s)
    ensures Taken(s, s.(calls := calls))
  {
    hide RingSound, AllAssigned, AllOk, AllIdle, AllBelow, AskedBelow, IdsDistinct, Ids, Carried, Answered, Names, Errs;
    var s' := s.(calls := calls);
    assert Sound(s') && Ledger(s') == Ledger(s);
    hide Sound, Ledger;
    assert forall k :: 0 <= k < |s.inflight| ==> SameKey(s.inflight[k], s'.inflight[k]);
  }

  lemma NotedThenTaken(s: State, s1: State, s2: State, i: nat, err: Err)
    requires i < |s.inflight| && Noted(s, s1, i, err) && Taken(s1, s2)
    ensures Noted(s, s2, i, err)
  {
    hide Sound, Ledger, Names, Errs;
    var o := s.inflight[i].owner;
    forall l: nat | l < s.nextLookup
      ensures Shift(s, s2, l, multiset{}, OfOwner(o), [], if o == User(l) then [err] else [])
    {
      assert Untouched(s1, s2, l);
    }
    assert SameKey(s1.inflight[i], s2.inflight[i]);
  }

  /** The callback has been made and the question is gone. */
  ghost predicate Concluded(s: State, s': State, r: Request, err: Err) {
    && Sound(s') && Grown(s, s')
    && (forall l: nat :: Owed(s', l) == Owed(s, l))
    && (forall l: nat :: l < s.nextLookup ==>
          if r.owner == User(l) then Shift(s, s', l, multiset{AskOf(r)}, multiset{}, [], [err])
          else Untouched(s, s', l))
  }

  lemma NotedThenFinished(s: State, s1: State, i: nat, err: Err)
    requires i < |s.inflight| && Noted(s, s1, i, err)
    ensures Concluded(s, Finished(s1, i), s.inflight[i], err) && Pumped(Finished(s1, i))
  {
    hide Sound, Ledger, Names, Errs, Finished;
    FinishedKeeps(s1, i);
    var r, s2 := s.inflight[i], Finished(s1, i);
    assert One(s1.inflight[i]) == One(r);
    forall l: nat ensures Owed(s2, l) == Owed(s, l) {
      assert One(r)[Lookup(l)] == if r.owner == User(l) then 1 else 0;
      assert Ledger(s1)[Lookup(l)] == (Ledger(s2) + One(r))[Lookup(l)];
    }
    forall l: nat | l < s.nextLookup
      ensures if r.owner == User(l) then Shift(s, s2, l, multiset{AskOf(r)}, multiset{}, [], [err])
              else Untouched(s, s2, l)
    {
      FinishShift(s, s1, s2, r, l, err);
    }
  }

  lemma FinishShift(s: State, s1: State, s2: State, r: Request, l: nat, err: Err)
    requires Shift(s, s1, l, multiset{}, OfOwner(r.owner), [], if r.owner == User(l) then [err] else [])
    requires Ledger(s1) == Ledger(s2) + One(r) && s2.asked == s1.asked && s2.fired == s1.fired
    ensures if r.owner == User(l) then Shift(s, s2, l, multiset{AskOf(r)}, multiset{}, [], [err])
            else Untouched(s, s2, l)
  {
    hide Ledger, Names, Errs;
    forall x | OfLookup(x, l)
      ensures Ledger(s2)[x] + (if r.owner == User(l) then multiset{AskOf(r)}[x] else 0) == Ledger(s)[x]
    {
      assert Ledger(s1)[x] == (Ledger(s2) + One(r))[x];
      assert Ledger(s1)[x] + multiset{}[x] == Ledger(s)[x] + OfOwner(r.owner)[x];
    }
  }

  lemma ConcludeKeeps(s: State, i: nat, err: Err)
    requires Sound(s) && i < |s.inflight|
    ensures Concluded(s, Conclude(s, i, err), s.inflight[i], err) && Pumped(Conclude(s, i, err))
  {
    hide Sound, Ledger, Answer, Finished, Noted, Concluded;
    AnswerKeeps(s, i, err);
    NotedBound(s, Answer(s, i, err), i, err);
    NotedThenFinished(s, Answer(s, i, err), i, err);
  }

  lemma NotedBound(s: State, s': State, i: nat, err: Err)
    requires i < |s.inflight| && Noted(s, s', i, err)
    ensures i < |s'.inflight| && Sound(s') && SameKey(s.inflight[i], s'.inflight[i])
  {
  }

  lemma AskCarried(s: State, i: nat)
    requires i < |s.inflight|
    ensures AskOf(s.inflight[i]) in Ledger(s)
  {
    hide Carried;
    AskIn(s.inflight, i);
  }

  /** A request that was concluded settles its lookup, if it failed for good or succeeded or timed out. */
  lemma ConcludedSettles(s: State, s': State, i: nat, err: Err)
    requires i < |s.inflight| && Concluded(s, s', s.inflight[i], err)
    requires err == NoErr || err == TimedOut || NextAsk(s, AskOf(s.inflight[i])).None?
    ensures Settled(s, s')
  {
    hide Sound, Ledger, Names, Errs, NextAsk, Shift;
    var r := s.inflight[i];
    AskCarried(s, i);
    forall l: nat | l < s.nextLookup ensures Turn(s, s', l) {
      if r.owner == User(l) { assert Ends(s, s', l, AskOf(r), err); }
    }
  }

  lemma ConcludedFails(s: State, s': State, i: nat, err: Err)
    requires Sound(s) && i < |s.inflight| && Concluded(s, s', s.inflight[i], err)
    requires NextAsk(s, AskOf(s.inflight[i])).None?
    ensures forall l: nat :: s.inflight[i].owner == User(l) ==> FailsOver(s, s', l, AskOf(s.inflight[i]), err)
  {
    hide Sound, Ledger, Names, Errs, NextAsk, Shift, Owed;
    AskCarried(s, i);
    RequestAt(s, i);
  }

  /** A failed question is replaced by the next one of its search; when there is none, or its name is
      refused, the failure is passed up. */
  lemma FailKeeps(s: State, i: nat, err: Err)
    requires Sound(s) && i < |s.inflight|
    ensures Settled(s, Fail(s, i, err)) && Pumped(Fail(s, i, err))
    ensures NextAsk(s, AskOf(s.inflight[i])).None? ==> Concluded(s, Fail(s, i, err), s.inflight[i], err)
    ensures forall l: nat :: s.inflight[i].owner == User(l) ==>
              FailsOver(s, Fail(s, i, err), l, AskOf(s.inflight[i]), err)
  {
    hide Sound, Ledger, RequestNew, Submit, Finished, Conclude, NameOk, Concluded, Settled, NextTry,
         RequestOk, Apart, Drift, Ids, SameKey, FailsOver;
    RequestAt(s, i);
    var r := s.inflight[i];
    var next := if r.qtype == Ptr then None else NextTry(s, r.search);
    if next.None? {
      ConcludeKeeps(s, i, err);
      ConcludedSettles(s, Fail(s, i, err), i, err);
      ConcludedFails(s, Fail(s, i, err), i, err);
    } else {
      RequestNewReady(s, r.owner, r.qtype, next.value.0);
      var (s1, r1) := RequestNew(s, r.owner, r.qtype, next.value.0);
      if r1.None? {
        ConcludeKeeps(s1, i, err);
        QuietThenConcluded(s, s1, Fail(s, i, err), r, err);
        ConcludedSettles(s, Fail(s, i, err), i, err);
        ConcludedFails(s, Fail(s, i, err), i, err);
      } else {
        SearchGoesOn(s, i, err);
      }
    }
  }

  lemma QuietThenConcluded(s: State, s1: State, s2: State, r: Request, err: Err)
    requires Quiet(s, s1) && Concluded(s1, s2, r, err)
    ensures Concluded(s, s2, r, err)
  {
    hide Sound, Ledger, Names, Errs;
  }

  lemma QuietThenSettled(s: State, s1: State, s2: State)
    requires Quiet(s, s1) && s1.searches == s.searches && Settled(s1, s2)
    ensures Settled(s, s2)
  {
    hide Sound, Ledger, Names, Errs, Turn;
    forall l: nat | l < s.nextLookup ensures Turn(s, s2, l) { QuietThenTurn(s, s1, s2, l); }
  }

  lemma QuietThenTurn(s: State, s1: State, s2: State, l: nat)
    requires Quiet(s, s1) && s1.searches == s.searches && Turn(s1, s2, l)
    ensures Turn(s, s2, l)
  {
    hide Sound, Ledger, Names, Errs, NameOk;
    if Untouched(s1, s2, l) {
      assert Untouched(s, s2, l);
    } else if ask, next :| Continues(s1, s2, l, ask, next) {
      assert Continues(s, s2, l, ask, next);
    } else {
      var ask, err :| Ends(s1, s2, l, ask, err);
      assert Ends(s, s2, l, ask, err);
    }
  }

  /** The case of FailKeeps in which search_try_next makes a request */
  lemma SearchGoesOn(s: State, i: nat, err: Err)
    requires Sound(s) && i < |s.inflight| && SearchOn(s, i).1.Some?
    ensures Settled(s, Fail(s, i, err)) && Pumped(Fail(s, i, err))
    ensures NextAsk(s, AskOf(s.inflight[i])).Some?
    ensures forall l: nat :: s.inflight[i].owner == User(l) ==>
              FailsOver(s, Fail(s, i, err), l, AskOf(s.inflight[i]), err)
  {
    hide Sound, Ledger, RequestNew, Submit, Finished, Names, Errs, NameOk, Settled, RequestOk, Apart, Drift, Ids,
         Continues;
    RequestAt(s, i);
    var r := s.inflight[i];
    var (name, search) := NextTry(s, r.search).value;
    RequestNewReady(s, r.owner, r.qtype, name);
    var (s1, r1) := RequestNew(s, r.owner, r.qtype, name);
    var r2 := r1.value.(search := search);
    var s2 := Log(s1, r2.owner, name);
    LoggedBelow(s, i, name);
    RelabelSame(s1, s2);
    assert RequestOk(r2, ScopeOf(s2)) by { NextRefs(s, i, r1.value, ScopeOf(s2)); }
    SubmitKeeps(s2, r2);
    var s3 := Submit(s2, r2);
    FinishedKeeps(s3, i);
    assert One(s3.inflight[i]) == One(r);
    Traded(s, s2, Finished(s3, i), i, r2);
  }

  lemma LoggedBelow(s: State, i: nat, name: Text)
    requires Sound(s) && i < |s.inflight|
    ensures AskedBelow(Log(s, s.inflight[i].owner, name).asked, s.nextLookup)
  {
    RequestAt(s, i);
  }

  lemma RelabelSame(s: State, s': State)
    requires Sound(s) && s' == s.(asked := s'.asked) && AskedBelow(s'.asked, s.nextLookup)
    ensures Sound(s') && Ledger(s') == Ledger(s)
  {
    hide AllBelow, AskedBelow, RingSound, AllAssigned, AllOk, AllIdle, IdsDistinct, Ids, Ledger;
    RelabelKeeps(s, s.nextLookup, s.accepted, s'.asked);
  }

  lemma NextRefs(s: State, i: nat, r1: Request, sc: Scope)
    requires i < |s.inflight| && RequestOk(s.inflight[i], sc) && RequestOk(r1, sc) && r1.owner == s.inflight[i].owner
    requires NextTry(s, s.inflight[i].search).Some? && r1.qtype == s.inflight[i].qtype
    ensures RequestOk(r1.(search := NextTry(s, s.inflight[i].search).value.1), sc)
  {
  }

  /** The i-th question in flight has made way for the one that follows it in its search. */
  ghost predicate Trade(s: State, s1: State, s2: State, i: nat, r2: Request) {
    && i < |s.inflight|
    && var r := s.inflight[i];
       && s2.accepted == s.accepted && s2.nextLookup == s.nextLookup
       && s1 == Log(s1.(asked := s.asked), r.owner, r2.name) && s1.fired == s.fired
       && s2.asked == s1.asked && s2.fired == s1.fired
       && Ledger(s) + One(r2) == Ledger(s2) + One(r)
       && r2.owner == r.owner && NextAsk(s, AskOf(r)) == Some(AskOf(r2))
  }

  lemma TradedAt(s: State, s1: State, s2: State, i: nat, r2: Request, x: Item)
    requires Trade(s, s1, s2, i, r2)
    ensures Ledger(s2)[x] + multiset{AskOf(s.inflight[i])}[x] == Ledger(s)[x] + multiset{AskOf(r2)}[x]
  {
    hide Ledger, NextAsk;
    assert (Ledger(s) + One(r2))[x] == (Ledger(s2) + One(s.inflight[i]))[x];
  }

  lemma TradedOwed(s: State, s1: State, s2: State, i: nat, r2: Request, l: nat)
    requires Trade(s, s1, s2, i, r2)
    ensures Owed(s2, l) == Owed(s, l)
  {
    hide Ledger, NextAsk;
    TradedAt(s, s1, s2, i, r2, Lookup(l));
  }

  lemma TradedTurn(s: State, s1: State, s2: State, i: nat, r2: Request, l: nat)
    requires Trade(s, s1, s2, i, r2)
    ensures Turn(s, s2, l)
    ensures s.inflight[i].owner == User(l) ==> Continues(s, s2, l, AskOf(s.inflight[i]), AskOf(r2))
  {
    hide Ledger, Names, Errs, NextAsk, Apart, Drift, Ids, SameKey;
    AskCarried(s, i);
    var r := s.inflight[i];
    forall x: Item ensures Ledger(s2)[x] + multiset{AskOf(r)}[x] == Ledger(s)[x] + multiset{AskOf(r2)}[x] {
      TradedAt(s, s1, s2, i, r2, x);
    }
    if r.owner.User? { NamesMore(s.asked, Asked(r.owner.lookup, r2.name), l); }
    if r.owner == User(l) {
      assert Continues(s, s2, l, AskOf(r), AskOf(r2));
    } else {
      assert Untouched(s, s2, l);
    }
  }

  lemma Traded(s: State, s1: State, s2: State, i: nat, r2: Request)
    requires Sound(s2) && Trade(s, s1, s2, i, r2)
    ensures Settled(s, s2)
    ensures NextAsk(s, AskOf(s.inflight[i])) == Some(AskOf(r2))
    ensures forall l: nat :: s.inflight[i].owner == User(l) ==> Continues(s, s2, l, AskOf(s.inflight[i]), AskOf(r2))
  {
    hide Sound, Ledger, Owed, Turn, NextAsk, Continues;
    forall l: nat ensures Owed(s2, l) == Owed(s, l) { TradedOwed(s, s1, s2, i, r2, l); }
    forall l: nat | l < s.nextLookup ensures Turn(s, s2, l) { TradedTurn(s, s1, s2, i, r2, l); }
    if s.inflight[i].owner.User? { TradedTurn(s, s1, s2, i, r2, s.inflight[i].owner.lookup); }
  }

  lemma RequestAt(s: State, i: nat)
    requires Sound(s) && i < |s.inflight|
    ensures RequestOk(s.inflight[i], ScopeOf(s)) && OwnerOk(s.inflight[i].owner, ScopeOf(s)) && Assigned(s, i)
  {
  }

  lemma SoundServes(s: State)
    requires Sound(s)
    ensures Served(s)
  {
  }

  lemma ReissueKeeps(s: State, i: nat)
    requires Sound(s) && i < |s.inflight|
    ensures Quiet(s, Reissue(s, i).0)
  {
    hide Sound, Served, Ledger, Pick, Ids, Frame;
    RequestAt(s, i);
    NonEmpty(s, i);
    PickKeeps(s);
    var (s1, ns) := PickNs(s);
    var r := s1.inflight[i].(ns := ns);
    SoundServes(s1);
    SetReqServes(s1, i, r);
    SetReqServes(s1, i, r.(reissues := r.reissues + 1, sent := 0, transmitMe := true));
    FrameKeeps(s, Reissue(s, i).0);
  }

  lemma FailedKeeps(s: State, a: nat)
    requires Sound(s)
    ensures Quiet(s, NameserverFailed(s, a)) && SameRing(s.ring, NameserverFailed(s, a).ring)
  {
    hide NameserverFailed;
    FailedServes(s, a);
    FrameKeeps(s, NameserverFailed(s, a));
  }

  lemma UpKeeps(s: State, a: nat)
    requires Sound(s)
    ensures Quiet(s, NameserverUp(s, a)) && SameRing(s.ring, NameserverUp(s, a).ring)
  {
    hide NameserverUp;
    UpServes(s, a);
    FrameKeeps(s, NameserverUp(s, a));
  }

  lemma TouchKeeps(s: State, server: Server)
    requires Sound(s) && server.id in Ids(s.ring.servers) && server.up == At(s.ring, server.id).up
    ensures Quiet(s, s.(ring := SetServer(s.ring, server)))
    ensures SameRing(s.ring, SetServer(s.ring, server))
  {
    hide SetServer;
    TouchServes(s, server);
    FrameKeeps(s, s.(ring := SetServer(s.ring, server)));
  }

  lemma AcceptKeeps(s: State, i: nat)
    requires Sound(s) && i < |s.inflight|
    ensures Settled(s, ReplyAccepted(s, i)) && Concluded(s, ReplyAccepted(s, i), s.inflight[i], NoErr)
    ensures Pumped(ReplyAccepted(s, i))
  {
    hide Sound, Ledger, Answer, NameserverUp, Finished, Noted, Concluded, Settled, Apart, Drift, Ids, SameKey;
    AnswerKeeps(s, i, NoErr);
    var s1 := Answer(s, i, NoErr);
    NotedBound(s, s1, i, NoErr);
    RequestAt(s1, i);
    var a := s1.inflight[i].ns.value;
    UpKeeps(s1, a);
    var s2 := NameserverUp(s1, a);
    NotedThenQuiet(s, s1, s2, i);
    NotedThenFinished(s, s2, i, NoErr);
    ConcludedSettles(s, Finished(s2, i), i, NoErr);
  }

  function ReplyAccepted(s: State, i: nat): (s': State)
    requires i < |s.inflight|
  {
    var s1 := Answer(s, i, NoErr);
    if !Assigned(s1, i) then s1 else Finished(NameserverUp(s1, s1.inflight[i].ns.value), i)
  }

  lemma NotedThenQuiet(s: State, s1: State, s2: State, i: nat)
    requires i < |s.inflight| && Noted(s, s1, i, NoErr) && Quiet(s1, s2) && Frame(s1, s2)
    ensures Noted(s, s2, i, NoErr)
  {
    hide Sound, Ledger, Names, Errs;
    assert SameKey(s1.inflight[i], s2.inflight[i]);
  }

  lemma ReplyHandleKeeps(s: State, i: nat, flags: nat, answered: bool)
    requires Sound(s) && i < |s.inflight|
    ensures Settled(s, ReplyHandle(s, i, flags, answered))
  {
    hide Sound, Ledger, Answer, NameserverFailed, NameserverUp, Finished, Fail, Reissue, IsError, ErrorOf, RequestOk,
         Settled, Quiet, Apart, Drift, Ids, SameKey;
    RequestAt(s, i);
    var a := s.inflight[i].ns.value;
    if !IsError(flags, answered) {
      AcceptKeeps(s, i);
    } else {
      var err := ErrorOf(flags);
      FailKeeps(s, i, err);
      QuietThenFail(s, NameserverUp(s, a), i, err) by { UpKeeps(s, a); }
      FailedKeeps(s, a);
      var s1 := NameserverFailed(s, a);
      QuietSound(s, s1);
      ReissueKeeps(s1, i);
      var s2 := Reissue(s1, i).0;
      QuietTrans(s, s1, s2);
      QuietSettles(s, s2);
      QuietThenFail(s, s2, i, err);
    }
  }

  lemma QuietSound(s: State, s': State)
    requires Quiet(s, s')
    ensures Sound(s') && s'.nextLookup == s.nextLookup
  {
  }

  lemma QuietTrans(s: State, s1: State, s2: State)
    requires Quiet(s, s1) && Quiet(s1, s2)
    ensures Quiet(s, s2)
  {
  }

  lemma QuietThenFail(s: State, s1: State, i: nat, err: Err)
    requires Quiet(s, s1) && i < |s1.inflight| && s1.searches == s.searches
    ensures Settled(s, Fail(s1, i, err))
  {
    hide Ledger, Fail, Settled;
    FailKeeps(s1, i, err);
    QuietThenSettled(s, s1, Fail(s1, i, err));
  }

  lemma TimeoutKeeps(s: State, i: nat)
    requires Sound(s) && i < |s.inflight|
    ensures Settled(s, Timeout(s, i))
  {
    hide Sound, Ledger, NameserverFailed, Conclude, Transmit, SetServer, At, Quiet, Settled, Concluded,
         RequestOk, Apart, Drift, Ids;
    RequestAt(s, i);
    var a := s.inflight[i].ns.value;
    var server := At(s.ring, a);
    var n := server.timedout + 1;
    var over := n > s.opts.maxTimeouts;
    var s1 := s.(ring := SetServer(s.ring, server.(timedout := if over then 0 else n)));
    TouchKeeps(s, server.(timedout := if over then 0 else n));
    QuietSound(s, s1);
    FailedKeeps(s1, a);
    var s2 := if over then NameserverFailed(s1, a) else s1;
    if over { QuietTrans(s, s1, s2); }
    QuietSound(s, s2);
    DisarmKeeps(s2, i);
    var s3 := SetReq(s2, i, s2.inflight[i].(armed := false));
    QuietTrans(s, s2, s3);
    QuietSound(s, s3);
    if s3.inflight[i].sent >= s.opts.maxRetransmits {
      ConcludeKeeps(s3, i, TimedOut);
      ConcludedSettles(s3, Conclude(s3, i, TimedOut), i, TimedOut);
      QuietThenSettled(s, s3, Conclude(s3, i, TimedOut));
    } else {
      TransmitKeeps(s3, i);
      QuietTrans(s, s3, Transmit(s3, i));
      QuietSettles(s, Transmit(s3, i));
    }
  }

  lemma DisarmKeeps(s: State, i: nat)
    requires Sound(s) && i < |s.inflight|
    ensures Quiet(s, SetReq(s, i, s.inflight[i].(armed := false)))
  {
    hide RingSound, AllAssigned, AllOk, AllIdle, AllBelow, AskedBelow, IdsDistinct, Ids, Ledger;
    AssignedAt(s, i);
    SetReqServes(s, i, s.inflight[i].(armed := false));
    FrameKeeps(s, SetReq(s, i, s.inflight[i].(armed := false)));
  }

  // ---------- Suspension ----------

  function Reversed(q: seq<Request>): (r: seq<Request>) {
    if q == [] then [] else Reversed(q[1..]) + [Reset(q[0])]
  }

  /** Suspended requests stand before those that were waiting, the last one sent first. */
  lemma {:induction false} SuspendedOrder(q: seq<Request>, waiting: seq<Request>)
    ensures Suspended(q, waiting) == Reversed(q) + waiting
  {
    if q == [] {
      assert Reversed(q) + waiting == waiting;
    } else {
      SuspendedOrder(q[1..], [Reset(q[0])] + waiting);
      assert Reversed(q[1..]) + ([Reset(q[0])] + waiting) == Reversed(q[1..]) + [Reset(q[0])] + waiting;
    }
  }

  lemma {:induction false} SuspendedKeeps(q: seq<Request>, waiting: seq<Request>, sc: Scope)
    requires forall i :: 0 <= i < |q| ==> RequestOk(q[i], sc)
    requires forall i :: 0 <= i < |waiting| ==> RequestOk(waiting[i], sc) && Idle(waiting[i])
    ensures |Suspended(q, waiting)| == |q| + |waiting|
    ensures Carried(Suspended(q, waiting)) == Carried(q) + Carried(waiting)
    ensures forall i :: 0 <= i < |Suspended(q, waiting)| ==>
              RequestOk(Suspended(q, waiting)[i], sc) && Idle(Suspended(q, waiting)[i])
  {
    if q != [] {
      assert RequestOk(q[0], sc);
      SameRefs(q[0], Reset(q[0]), sc);
      hide RequestOk;
      SuspendedKeeps(q[1..], [Reset(q[0])] + waiting, sc);
      CarriedConcat([Reset(q[0])], waiting);
      CarriedOne(Reset(q[0]));
    }
  }

  lemma CarriedNone()
    ensures Carried([]) == multiset{}
  {
  }

  /** Nothing is left in flight or with a server, and every request waits: none is lost, those that were in flight
      first. */
  lemma SuspendKeeps(s: State)
    requires Sound(s)
    ensures Quiet(s, Suspend(s))
    ensures s.ring.servers != [] ==> Suspend(s).inflight == [] && Suspend(s).waiting == Reversed(s.inflight) + s.waiting
    ensures Suspend(s).ring.servers == []
  {
    hide Sound, Suspended, Carried, Answered, LooseProbe, Reversed, DownSet;
    if s.ring.servers == [] {
      FlightNeedsServers(s);
    } else {
      var s' := Suspend(s);
      SuspendedOrder(s.inflight, s.waiting);
      SuspendSound(s);
    }
  }

  lemma SuspendSound(s: State)
    requires Sound(s) && s.ring.servers != []
    ensures Sound(Suspend(s)) && Ledger(Suspend(s)) == Ledger(s)
  {
    hide Suspended, Carried, Answered, LooseProbe, RequestOk, AllBelow, RingSound, Ids, DownSet;
    var s' := Suspend(s);
    SuspendScope(s);
    EmptyRingSound(s);
    SuspendedKeeps(s.inflight, s.waiting, ScopeOf(s'));
    CarriedNone();
    assert s'.waiting == Suspended(s.inflight, s.waiting);
  }

  lemma FlightNeedsServers(s: State)
    requires Sound(s)
    ensures s.inflight != [] ==> s.ring.servers != []
  {
    if s.inflight != [] {
      RequestAt(s, 0);
      NonEmpty(s, 0);
    }
  }

  lemma EmptyRingSound(s: State)
    requires Sound(s)
    ensures RingSound(Ring([], 0), s.nextServer, s.orphans + DownSet(s.ring.servers), s.tainted || LooseProbe(s))
  {
    hide AllAssigned, AllOk, AllIdle, IdsDistinct, LooseProbe, DownSet;
    DownIn(s.ring.servers);
  }

  /** Without a probe of a server that is down, no queued probe is of a freed server that was. */
  lemma SuspendScope(s: State)
    requires Sound(s) && s.ring.servers != []
    ensures forall i :: 0 <= i < |s.inflight| ==> RequestOk(s.inflight[i], ScopeOf(Suspend(s)))
    ensures forall i :: 0 <= i < |s.waiting| ==> RequestOk(s.waiting[i], ScopeOf(Suspend(s)))
  {
    hide Suspended;
    var down := DownSet(s.ring.servers);
    forall i | 0 <= i < |s.inflight| ensures RequestOk(s.inflight[i], ScopeOf(Suspend(s))) {
      assert RequestOk(s.inflight[i], ScopeOf(s));
    }
    forall i | 0 <= i < |s.waiting| ensures RequestOk(s.waiting[i], ScopeOf(Suspend(s))) {
      assert RequestOk(s.waiting[i], ScopeOf(s));
    }
  }

  // ---------- Whole runs ----------

  lemma TakenSettles(s: State, s': State)
    requires Taken(s, s')
    ensures Settled(s, s')
  {
    hide Sound, Ledger, Names, Errs, Shift;
    forall l: nat | l < s.nextLookup ensures Turn(s, s', l) { assert Untouched(s, s', l); }
  }

  lemma ProbeInScope(s: State, a: nat)
    requires Sound(s) && a in Ids(s.ring.servers)
    ensures OwnerOk(Probe(a), ScopeOf(s))
  {
    hide AllOk, AllIdle, IdsDistinct, AllAssigned, Ids, Apart, Drift;
  }

  /** A probe is carried for nobody. */
  lemma SendProbeKeeps(s: State, a: nat)
    requires Sound(s) && a in Ids(s.ring.servers) && |s.inflight| < 0xffff
    ensures Settled(s, SendProbe(s, a))
  {
    hide Sound, Ledger, RequestNew, TakeId, Submit, Names, Errs, RequestOk, NameOk, Apart, Drift, Ids, SameKey;
    ProbeInScope(s, a);
    RequestNewReady(s, Probe(a), A, PROBE_NAME);
    var (s1, r) := RequestNew(s, Probe(a), A, PROBE_NAME);
    if r.Some? {
      TakeIdKeeps(s1);
      var (s2, id) := TakeId(s1);
      var r2 := r.value.(transId := id, ns := Some(a));
      assert RequestOk(r2, ScopeOf(s2)) by { SameRefs(r.value, r2, ScopeOf(s2)); }
      SubmitKeeps(s2, r2);
      assert One(r2) == multiset{AskOf(r2)};
    }
    var s' := SendProbe(s, a);
    forall l: nat | l < s.nextLookup ensures Turn(s, s', l) { assert Untouched(s, s', l); }
  }

  lemma SearchesGrow(s: State, searches: seq<SearchState>, g: Option<nat>)
    requires Sound(s) && |s.searches| <= |searches| && (g.Some? ==> g.value < |searches|)
    ensures Quiet(s, s.(searches := searches, globalSearch := g))
  {
    hide RingSound, AllAssigned, AllOk, AllIdle, AllBelow, AskedBelow, IdsDistinct, Ids, Carried, Answered;
    var s' := s.(searches := searches, globalSearch := g);
    AllOkMore(s.inflight, ScopeOf(s), ScopeOf(s'));
    AllOkMore(s.waiting, ScopeOf(s), ScopeOf(s'));
  }

  lemma ReplyKeeps(s: State, from: nat, id: TransId, flags: nat, answered: bool)
    requires Sound(s) && from in Ids(s.ring.servers)
    ensures Settled(s, Reply(s, from, id, flags, answered))
  {
    hide Sound, Ledger, ReplyHandle, SetServer, Quiet, Settled, Apart, Drift, Ids, SameKey;
    TouchKeeps(s, At(s.ring, from).(timedout := 0));
    var s1 := s.(ring := SetServer(s.ring, At(s.ring, from).(timedout := 0)));
    QuietSettles(s, s1);
    QuietSound(s, s1);
    var i := FindId(s1.inflight, id, 0);
    if i < |s1.inflight| {
      ReplyHandleKeeps(s1, i, flags, answered);
      QuietThenSettled(s, s1, ReplyHandle(s1, i, flags, answered));
    }
  }

  lemma OptionsKeep(s: State, o: Options)
    requires Sound(s)
    ensures Quiet(s, s.(opts := Clipped(o)))
  {
    hide RingSound, AllAssigned, AllOk, AllIdle, AllBelow, AskedBelow, IdsDistinct, Ids;
  }

  lemma AddNameserverKeeps(s: State, address: nat)
    requires Sound(s)
    ensures Quiet(s, s.(ring := AddServer(s.ring, s.nextServer, address), nextServer := s.nextServer + 1))
  {
    hide AddServer, RingSound, AllIdle, IdsDistinct, Ids, Carried, Answered;
    var ring' := AddServer(s.ring, s.nextServer, address);
    AddedSound(s.ring, s.nextServer, s.orphans, s.tainted, address);
    var s' := s.(ring := ring', nextServer := s.nextServer + 1);
    AllOkMore(s.inflight, ScopeOf(s), ScopeOf(s'));
    AllOkMore(s.waiting, ScopeOf(s), ScopeOf(s'));
  }

  lemma AddedSound(ring: Ring, nextServer: nat, orphans: set<nat>, tainted: bool, address: nat)
    requires RingSound(ring, nextServer, orphans, tainted)
    ensures RingSound(AddServer(ring, nextServer, address), nextServer + 1, orphans, tainted)
    ensures Ids(ring.servers) <= Ids(AddServer(ring, nextServer, address).servers)
  {
    hide AddServer, Ids, Apart, Drift;
    AddServerKeeps(ring, nextServer, address);
  }

  lemma AllOkMore(q: seq<Request>, sc: Scope, sc': Scope)
    requires AllOk(q, sc) && sc'.loose == sc.loose
    requires sc.lookups <= sc'.lookups && sc.searches <= sc'.searches && sc.servers <= sc'.servers
    ensures AllOk(q, sc')
  {
    forall i | 0 <= i < |q| ensures RequestOk(q[i], sc') { assert RequestOk(q[i], sc); }
  }

  lemma SearchEventKeeps(s: State, st: SearchState)
    requires Sound(s)
    ensures Quiet(s, SetGlobal(WithGlobal(s), st))
  {
    var s1 := WithGlobal(s);
    SearchesGrow(s, s1.searches, s1.globalSearch);
    SearchesGrow(s1, SetGlobal(s1, st).searches, s1.globalSearch);
  }

  /** The events that answer or start no lookup */
  predicate IsQuiet(e: Event) {
    !e.ResolveName? && !e.ReplyFrom? && !e.RequestTimer? && !e.ProbeTimer?
  }

  lemma QuietStep(s: State, e: Event, w: World)
    requires Sound(s) && Enabled(s, e) && IsQuiet(e) && w == World(s.ids, s.sends, s.calls)
    ensures Quiet(s, Step(s, e, w))
  {
    hide Sound, Ledger, TransmitAll, NameserverFailed, AddServer, Suspend, Pump, SetServer, SetGlobal, WithGlobal,
         Quiet, Apart, Drift, Ids, SameKey;
    match e
    case Writable(a) =>
      var s1 := s.(ring := SetServer(s.ring, At(s.ring, a).(choked := false)));
      TouchKeeps(s, At(s.ring, a).(choked := false));
      QuietSound(s, s1);
      TransmitAllKeeps(s1);
      QuietTrans(s, s1, TransmitAll(s1, 0));
    case ReadError(a) => FailedKeeps(s, a);
    case AddNameserver(a) => AddNameserverKeeps(s, a);
    case SuspendAll => SuspendKeeps(s);
    case Resume => PumpKeeps(s);
    case SearchAdd(d) =>
      var g := Global(WithGlobal(s));
      SearchEventKeeps(s, g.(domains := [StripDots(d)] + g.domains));
    case SearchNdots(n) =>
      SearchEventKeeps(s, Global(WithGlobal(s)).(ndots := n));
    case SearchClear => SearchesGrow(s, s.searches + [SearchState([], 1)], Some(|s.searches|));
    case SetOptions(o) => OptionsKeep(s, o);
  }

  lemma StepSettles(s: State, e: Event, w: World)
    requires Sound(s) && Enabled(s, e) && w == World(s.ids, s.sends, s.calls)
    ensures Settled(s, Step(s, e, w))
  {
    if IsQuiet(e) {
      hide Sound, Ledger, Step, Settled, Enabled;
      QuietStep(s, e, w);
      QuietSettles(s, Step(s, e, w));
    } else {
      hide Sound, Ledger, Reply, Timeout, SendProbe, Resolve, Settled;
      match e
      case ResolveName(t, name, noSearch) =>
        ResolveKeeps(s, t, name, noSearch);
        TakenSettles(s, Resolve(s, t, name, noSearch));
      case ReplyFrom(from, id, flags, answered) => ReplyKeeps(s, from, id, flags, answered);
      case RequestTimer(i) => TimeoutKeeps(s, i);
      case ProbeTimer(a) => SendProbeKeeps(s, a);
    }
  }

  /** Every event, whatever ids are drawn, whatever sendto answers and whatever lookups callbacks start, keeps the
      invariant, and does no more to a lookup than Turn says. */
  lemma StepKeeps(s: State, e: Event, w: World)
    requires Inv(s) && Enabled(s, e)
    ensures Inv(Step(s, e, w)) && Grown(s, Step(s, e, w))
    ensures forall l: nat :: l < s.nextLookup ==> Turn(s, Step(s, e, w), l)
  {
    hide Sound, Ledger, Step, Enabled, Turn;
    var s0 := s.(ids := w.ids, sends := w.sends, calls := w.calls);
    WorldKeeps(s, w);
    StepIgnoresPast(s, s0, e, w);
    StepSettles(s0, e, w);
    QuietThenSettled(s, s0, Step(s, e, w));
  }

  lemma WorldKeeps(s: State, w: World)
    requires Sound(s)
    ensures Quiet(s, s.(ids := w.ids, sends := w.sends, calls := w.calls))
  {
    hide RingSound, AllAssigned, AllOk, AllIdle, AllBelow, AskedBelow, IdsDistinct, Ids;
    var s0 := s.(ids := w.ids, sends := w.sends, calls := w.calls);
  }

  lemma StepIgnoresPast(s: State, s0: State, e: Event, w: World)
    requires Enabled(s, e) && s0 == s.(ids := w.ids, sends := w.sends, calls := w.calls)
    ensures Enabled(s0, e) && Step(s, e, w) == Step(s0, e, w)
  {
    hide Resolve, Reply, Timeout, SendProbe, TransmitAll, NameserverFailed, AddServer, Suspend, Pump,
         SetServer, SetGlobal, WithGlobal;
  }

  datatype Move = Move(event: Event, world: World)

  /** The state after a run from s, each event enabled when it happens. */
  ghost predicate Runs(s: State, moves: seq<Move>, s': State)
    decreases |moves|
  {
    if moves == [] then s' == s
    else
      && Enabled(s, moves[0].event)
      && Runs(Step(s, moves[0].event, moves[0].world), moves[1..], s')
  }

  const DEFAULTS := Options(64, 1, 3, 3)

  function Initial(): (s: State) {
    State(Ring([], 0), 0, {}, false, [], [], 0, 0, DEFAULTS, [], None, 0, {}, [], [], [], [], [])
  }

  lemma {:induction false} RunKeeps(s: State, moves: seq<Move>, s': State)
    requires Inv(s) && Runs(s, moves, s')
    ensures Inv(s') && Grown(s, s')
    decreases |moves|
  {
    hide Inv, Step, Enabled;
    if moves != [] {
      StepKeeps(s, moves[0].event, moves[0].world);
      RunKeeps(Step(s, moves[0].event, moves[0].world), moves[1..], s');
    }
  }

  lemma Starts()
    ensures Inv(Initial())
  {
    hide RingSound;
    NoRingSound();
  }

  lemma NoRingSound()
    ensures RingSound(Ring([], 0), 0, {}, false)
  {
  }

  /** Queue invariant: in every reachable state the counters are the lengths of the queues, ids in flight
      are distinct and never 0xffff, each request in flight has a configured server, none waiting has; and the
      counter of good servers is exact unless servers were ever freed under a queued probe of one that was down. */
  lemma QueuesStaySound(moves: seq<Move>, s: State)
    requires Runs(Initial(), moves, s)
    ensures s.nInflight == |s.inflight| && s.nWaiting == |s.waiting|
    ensures forall i, j :: 0 <= i < j < |s.inflight| ==> s.inflight[i].transId != s.inflight[j].transId
    ensures forall i :: 0 <= i < |s.inflight| ==> s.inflight[i].transId != NO_ID && Assigned(s, i)
    ensures forall i :: 0 <= i < |s.waiting| ==> s.waiting[i].ns == None && !s.waiting[i].armed
    ensures !s.tainted ==> s.ring.good == UpCount(s.ring.servers)
  {
    hide Inv, Runs;
    Starts();
    RunKeeps(Initial(), moves, s);
    QueuesOf(s);
  }

  lemma QueuesOf(s: State)
    requires Inv(s)
    ensures s.nInflight == |s.inflight| && s.nWaiting == |s.waiting|
    ensures forall i, j :: 0 <= i < j < |s.inflight| ==> s.inflight[i].transId != s.inflight[j].transId
    ensures forall i :: 0 <= i < |s.inflight| ==> s.inflight[i].transId != NO_ID && Assigned(s, i)
    ensures forall i :: 0 <= i < |s.waiting| ==> s.waiting[i].ns == None && !s.waiting[i].armed
    ensures !s.tainted ==> s.ring.good == UpCount(s.ring.servers)
  {
    hide Balanced, AllOk;
    forall i | 0 <= i < |s.waiting| ensures s.waiting[i].ns == None && !s.waiting[i].armed {
      assert Idle(s.waiting[i]);
    }
  }

  /** Exactly one completion: in every reachable state a lookup that was taken on has either had its
      callback made, once, and is carried by no request, or has had none and is carried by exactly one
      request of one of the two queues; and no callback is made for anything else. */
  lemma ExactlyOneCompletion(moves: seq<Move>, s: State, l: nat)
    requires Runs(Initial(), moves, s)
    ensures Calls(s.fired, l) + Carriers(s.inflight, l) + Carriers(s.waiting, l) == if l in s.accepted then 1 else 0
  {
    hide Inv, Runs, Carried, Answered, Calls, Carriers;
    Starts();
    RunKeeps(Initial(), moves, s);
    CallsCounted(s.fired, l);
    CarriersCounted(s.inflight, l);
    CarriersCounted(s.waiting, l);
    BalanceOf(s, l);
    var x := Lookup(l);
    assert Ledger(s)[x] == Carried(s.inflight)[x] + Carried(s.waiting)[x] + Answered(s.fired)[x];
  }

  lemma BalanceOf(s: State, l: nat)
    requires Inv(s)
    ensures Ledger(s)[Lookup(l)] == if l in s.accepted then 1 else 0
  {
    hide Ledger, Sound;
    assert Owed(s, l) == 0;
  }

  /** How often the callback of a lookup was made. */
  function Calls(f: seq<Fired>, l: nat): (n: nat) {
    if f == [] then 0 else (if f[0].lookup == l then 1 else 0) + Calls(f[1..], l)
  }

  /** How many requests of a queue carry a lookup. */
  function Carriers(q: seq<Request>, l: nat): (n: nat) {
    if q == [] then 0 else (if q[0].owner == User(l) then 1 else 0) + Carriers(q[1..], l)
  }

  lemma {:induction false} CallsCounted(f: seq<Fired>, l: nat)
    ensures Answered(f)[Lookup(l)] == Calls(f, l)
  {
    if f != [] { CallsCounted(f[1..], l); }
  }

  lemma {:induction false} CarriersCounted(q: seq<Request>, l: nat)
    ensures Carried(q)[Lookup(l)] == Carriers(q, l)
  {
    if q != [] {
      CarriersCounted(q[1..], l);
      assert One(q[0])[Lookup(l)] == if q[0].owner == User(l) then 1 else 0;
    }
  }
}
