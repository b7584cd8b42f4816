/** The globals of evdns.c with the two request rings, and the functions that run over them, proved against the state
    machine of DnsRequests. Every event keeps the rings well formed, the counters equal to their lengths, and the
    invariant of DnsLookups. */
module DnsResolver {

  import opened Basics
  import opened DnsNames
  import opened DnsServers
  import opened DnsRequests
  import opened DnsLookups
  import opened RequestRing

  class Resolver {
    const queues: Queues
    var servers: seq<Server>             // from server_head on
    var goodNameservers: int
    var nextServer: nat
    var orphans: set<nat>                // freed server records that say down
    ghost var tainted: bool
    var opts: Options
    var searches: seq<SearchState>
    var globalSearch: Option<nat>
    var nextLookup: nat
    ghost var accepted: set<nat>
    ghost var fired: seq<Fired>
    ghost var asked: seq<Asked>
    var ids: seq<TransId>                // what the id function will draw
    var sends: seq<Send>                 // what sendto will answer
    var calls: seq<seq<Call>>            // what the callbacks will start

    /** The state the rings and the other globals stand for. */
    ghost function Abs(): (s: State)
      reads this, queues
      requires queues.Valid()
    {
      State(Ring(servers, goodNameservers), nextServer, orphans, tainted, queues.Flying(), queues.Waiting(),
            queues.requestsInflight, queues.requestsWaiting, opts, searches, globalSearch, nextLookup, accepted, fired,
            asked, ids, sends, calls)
    }

    /** Both lists are well-formed rings of all requests there are, and their counters are their lengths. */
    ghost predicate Linked()
      reads this, queues
    {
      queues.Valid() && queues.loose == None
    }

    /** The rings are well formed and what they stand for keeps the invariant of the resolver. */
    ghost predicate Valid()
      reads this, queues
    {
      Linked() && Inv(Abs())
    }

    constructor ()
      ensures Valid() && fresh(queues) && Abs() == Initial()
    {
      hide Inv;
      queues := new Queues();
      servers, goodNameservers, nextServer, orphans, tainted := [], 0, 0, {}, false;
      opts, searches, globalSearch, nextLookup := DEFAULTS, [], None, 0;
      accepted, fired, asked, ids, sends, calls := {}, [], [], [], [], [];
      new;
      Starts();
    }

    // ---------- Servers ----------

    /** nameserver_pick: the head moves along the ring to the first server that is up. */
    method NameserverPick() returns (ns: Option<nat>)
      requires queues.Valid()
      modifies this`servers
      ensures Abs() == PickNs(old(Abs())).0 && ns == PickNs(old(Abs())).1
    {
      if servers == [] {
        return None;
      }
      if goodNameservers == 0 {
        servers := servers[1..] + [servers[0]];
        return Some(servers[0].id);
      }
      ns := NextGood();
    }

    /** The search along the ring when some server is good */
    method NextGood() returns (ns: Option<nat>)
      requires servers != [] && goodNameservers != 0
      modifies this`servers
      ensures servers == Pick(Ring(old(servers), goodNameservers)).0.servers
      ensures ns == Pick(Ring(old(servers), goodNameservers)).1
    {
      hide Rotate;
      ghost var q := servers;
      ghost var n := FirstUp(q, 0);
      var steps := 0;
      RotateNone(q);
      while !servers[0].up
        invariant 0 <= steps < |q| && servers == Rotate(q, steps)
        invariant servers[0] == q[steps] && steps <= n
        decreases |q| - steps
      {
        DownSoFar(q, steps);
        RotateStep(q, steps);
        servers := servers[1..] + [servers[0]];
        steps := steps + 1;
        if steps == |servers| {
          RotateAll(q);
          RotateNone(q);
          RotateStep(q, 0);
          ns := Some(servers[0].id);
          servers := servers[1..] + [servers[0]];
          return;
        }
      }
      RotateStep(q, steps);
      ns := Some(servers[0].id);
      servers := servers[1..] + [servers[0]];
    }

    method SetServerRecord(server: Server)
      requires queues.Valid() && server.id in Ids(servers)
      modifies this`servers
      ensures Abs() == old(Abs()).(ring := SetServer(old(Abs()).ring, server))
    {
      servers := SetServer(Ring(servers, goodNameservers), server).servers;
    }

    /** nameserver_up */
    method Up(a: nat)
      requires queues.Valid()
      modifies this`servers, this`goodNameservers
      ensures Abs() == NameserverUp(old(Abs()), a)
    {
      if a in Ids(servers) {
        var ring := MarkUp(Ring(servers, goodNameservers), a);
        servers, goodNameservers := ring.servers, ring.good;
      }
    }

    /** nameserver_failed: the server is marked, and while another is good the requests not yet sent to it
        are given to others, along the ring. */
    method Failed(a: nat)
      requires queues.Valid()
      modifies this`servers, this`goodNameservers, queues`reqs
      ensures queues.Valid() && Abs() == NameserverFailed(old(Abs()), a)
    {
      if a !in Ids(servers) || !At(Ring(servers, goodNameservers), a).up {
        return;
      }
      var ring := MarkDown(Ring(servers, goodNameservers), a);
      servers, goodNameservers := ring.servers, ring.good;
      if goodNameservers == 0 {
        return;
      }
      ReassignRequests(a);
    }

    method MoveOn(req: nat, a: nat, ghost i: nat)
      requires queues.Valid() && i < |queues.inflight| && queues.inflight[i] == req
      modifies this`servers, queues`reqs
      ensures queues.Valid() && Abs() == DnsRequests.MoveOn(old(Abs()), a, i)
    {
      hide Queues.Valid, Pick;
      queues.RecordIs(i);
      var r := queues.reqs[req];
      if r.sent == 0 && r.ns == Some(a) {
        var ns := NameserverPick();
        queues.SetFlying(req, r.(ns := ns), i);
      }
    }

    /** The loop of nameserver_failed */
    method ReassignRequests(a: nat)
      requires queues.Valid()
      modifies this`servers, queues`reqs
      ensures queues.Valid() && Abs() == Reassign(old(Abs()), a, 0)
    {
      hide Queues.Valid, DnsRequests.MoveOn;
      queues.HeadIs();
      if queues.reqHead.None? {
        return;
      }
      var req := queues.reqHead.value;
      ghost var i := 0;
      while true
        invariant queues.Valid() && 0 <= i < |queues.inflight| && req == queues.inflight[i]
        invariant Reassign(Abs(), a, i) == Reassign(old(Abs()), a, 0)
        decreases |queues.inflight| - i
      {
        MoveOn(req, a, i);
        queues.NextIs(i);
        req := queues.links.next[req];
        if Some(req) == queues.reqHead {
          break;
        }
        i := i + 1;
      }
    }

    // ---------- Requests ----------

    /** request_find_from_trans_id, along the ring */
    method FindFromTransId(id: TransId) returns (req: Option<nat>, ghost i: nat)
      requires queues.Valid()
      ensures var k := FindId(queues.Flying(), id, 0);
              req == if k < |queues.inflight| then Some(queues.inflight[k]) else None
      ensures i == FindId(queues.Flying(), id, 0)
    {
      hide Queues.Valid;
      queues.HeadIs();
      i := 0;
      if queues.reqHead.None? {
        return None, 0;
      }
      var at := queues.reqHead.value;
      while true
        invariant 0 <= i < |queues.inflight| && at == queues.inflight[i]
        invariant FindId(queues.Flying(), id, 0) == FindId(queues.Flying(), id, i)
        decreases |queues.inflight| - i
      {
        queues.RecordIs(i);
        if queues.reqs[at].transId == id {
          return Some(at), i;
        }
        queues.NextIs(i);
        at := queues.links.next[at];
        i := i + 1;
        if Some(at) == queues.reqHead {
          return None, i;
        }
      }
    }

    /** transaction_id_pick: the ids drawn are tried in turn, and after them those the generator has left. */
    method TransactionIdPick() returns (id: TransId)
      requires queues.Valid()
      modifies this`ids
      ensures Abs() == TakeId(old(Abs())).0 && id == TakeId(old(Abs())).1
    {
      hide Queues.Valid, InUse, FreeFrom;
      while ids != []
        invariant Abs() == old(Abs()).(ids := ids)
        invariant TakeId(Abs()) == TakeId(old(Abs()))
        decreases |ids|
      {
        id := ids[0];
        ids := ids[1..];
        var used, i := FindFromTransId(id);
        FindIsUse(queues.Flying(), id);
        if id != NO_ID && used.None? {
          return;
        }
      }
      id := FirstFree();
    }

    method FirstFree() returns (id: TransId)
      requires queues.Valid()
      ensures id == FreeFrom(queues.Flying(), 0)
    {
      hide Queues.Valid, InUse;
      id := 0;
      while id != NO_ID
        invariant FreeFrom(queues.Flying(), id) == FreeFrom(queues.Flying(), 0)
        decreases NO_ID - id
      {
        var used, i := FindFromTransId(id);
        FindIsUse(queues.Flying(), id);
        if used.None? {
          return;
        }
        id := id + 1;
      }
    }

    /** Whether a request in flight points at a server of the ring */
    method HasServer(req: nat, ghost i: nat) returns (b: bool)
      requires queues.Valid() && i < |queues.inflight| && queues.inflight[i] == req
      ensures b == Assigned(Abs(), i)
      ensures req in queues.reqs && queues.reqs[req] == Abs().inflight[i]
    {
      hide Queues.Valid;
      queues.RecordIs(i);
      var r := queues.reqs[req];
      return r.ns.Some? && r.ns.value in Ids(servers);
    }

    /** evdns_request_transmit */
    method RequestTransmit(req: nat, ghost i: nat)
      requires queues.Valid() && i < |queues.inflight| && queues.inflight[i] == req
      modifies this`servers, this`goodNameservers, this`sends, queues`reqs
      ensures queues.Valid() && Abs() == Transmit(old(Abs()), i)
    {
      hide Queues.Valid, NameserverFailed, DnsRequests.CountSent, SetServer, Ids, At;
      var served := HasServer(req, i);
      if !served {
        return;
      }
      var server := At(Ring(servers, goodNameservers), queues.reqs[req].ns.value);
      queues.SetFlying(req, queues.reqs[req].(transmitMe := true), i);
      if server.choked {
        return;
      }
      var result := Sent;
      if sends != [] {
        result, sends := sends[0], sends[1..];
      }
      if result == Again {
        SetServerRecord(server.(choked := true));
        return;
      }
      if result == SendFailed {
        Failed(server.id);
      }
      CountSent(req, i);
    }

    method CountSent(req: nat, ghost i: nat)
      requires queues.Valid() && i < |queues.inflight| && queues.inflight[i] == req
      modifies queues`reqs
      ensures queues.Valid() && Abs() == DnsRequests.CountSent(old(Abs()), i)
    {
      hide Queues.Valid;
      queues.RecordIs(i);
      var r := queues.reqs[req];
      queues.SetFlying(req, r.(armed := true, sent := r.sent + 1, transmitMe := false), i);
    }

    method TransmitWaiting(req: nat, ghost i: nat)
      requires queues.Valid() && i < |queues.inflight| && queues.inflight[i] == req
      modifies this`servers, this`goodNameservers, this`sends, queues`reqs
      ensures queues.Valid() && Abs() == DnsRequests.TransmitWaiting(old(Abs()), i)
    {
      hide Queues.Valid, Transmit;
      queues.RecordIs(i);
      if queues.reqs[req].transmitMe {
        RequestTransmit(req, i);
      }
    }

    /** evdns_transmit, along the ring */
    method TransmitEach()
      requires queues.Valid()
      modifies this`servers, this`goodNameservers, this`sends, queues`reqs
      ensures queues.Valid() && Abs() == TransmitAll(old(Abs()), 0)
    {
      hide Queues.Valid, DnsRequests.TransmitWaiting;
      queues.HeadIs();
      if queues.reqHead.None? {
        return;
      }
      var req := queues.reqHead.value;
      ghost var i := 0;
      while true
        invariant queues.Valid() && 0 <= i < |queues.inflight| && req == queues.inflight[i]
        invariant TransmitAll(Abs(), i) == TransmitAll(old(Abs()), 0)
        decreases |queues.inflight| - i
      {
        TransmitWaiting(req, i);
        queues.NextIs(i);
        req := queues.links.next[req];
        if Some(req) == queues.reqHead {
          break;
        }
        i := i + 1;
      }
    }

    /** evdns_requests_pump_waiting_queue */
    method PumpWaiting()
      requires Linked()
      modifies this`servers, this`goodNameservers, this`ids, this`sends, queues
      ensures Linked() && Abs() == Pump(old(Abs()))
    {
      hide Queues.Valid, Promote;
      queues.Counters();
      while queues.requestsInflight < opts.limit && queues.requestsWaiting != 0
        invariant Linked() && Pump(Abs()) == Pump(old(Abs())) && OnlyQueues(old(Abs()), Abs())
        invariant queues.requestsWaiting == |queues.waiting|
        decreases |queues.waiting|
      {
        PromoteFirst();
        queues.Counters();
      }
    }

    /** The body of the pump's loop: the head of the waiting ring goes to the tail of the ring in flight. */
    method PromoteFirst()
      requires Linked() && queues.waiting != []
      modifies this`servers, this`goodNameservers, this`ids, this`sends, queues
      ensures Linked() && Abs() == Promote(old(Abs())) && |queues.waiting| == old(|queues.waiting|) - 1
    {
      hide Queues.Valid, Transmit, TransmitAll, TakeId, PickNs, Pick;
      queues.Counters();
      var req := queues.TakeFirst();
      queues.Counters();
      var ns := NameserverPick();
      var id := TransactionIdPick();
      queues.SetLoose(req, queues.reqs[req].(ns := ns, transId := id));
      LaunchRequest(req);
      TransmitEach();
    }

    /** A request goes in flight and is sent. */
    method LaunchRequest(req: nat)
      requires queues.Valid() && queues.loose == Some(req) && req in queues.reqs
      modifies this`servers, this`goodNameservers, this`sends, queues
      ensures Linked() && Abs() == Transmit(Launch(old(Abs()), old(queues.reqs[req])), |old(queues.inflight)|)
      ensures queues.inflight == old(queues.inflight) + [req] && queues.waiting == old(queues.waiting)
    {
      hide Queues.Valid, Transmit;
      ghost var i := |queues.inflight|;
      queues.Counters();
      queues.InsertInflight(req);
      queues.Counters();
      RequestTransmit(req, i);
    }

    /** request_submit */
    method RequestSubmit(req: nat)
      requires queues.Valid() && queues.loose == Some(req) && req in queues.reqs
      modifies this`servers, this`goodNameservers, this`sends, queues
      ensures Linked() && Abs() == Submit(old(Abs()), old(queues.reqs[req]))
      ensures old(queues.inflight) <= queues.inflight
    {
      hide Queues.Valid, Transmit;
      if queues.reqs[req].ns.Some? {
        LaunchRequest(req);
      } else {
        queues.Counters();
        queues.InsertWaiting(req);
        queues.Counters();
      }
    }

    /** request_finished: the request leaves its ring and is freed, and the waiting ring is pumped. */
    method RequestFinished(req: nat, ghost i: nat)
      requires Linked() && i < |queues.inflight| && queues.inflight[i] == req
      modifies this`servers, this`goodNameservers, this`ids, this`sends, queues
      ensures Linked() && Abs() == Finished(old(Abs()), i)
    {
      hide Queues.Valid, Pump;
      queues.Counters();
      queues.Unlink(req, i);
      queues.Counters();
      PumpWaiting();
    }

    /** request_new: a request is allocated, without a server while the limit is reached; the name decides. */
    method NewRequest(owner: Owner, qtype: QType, name: Text) returns (req: Option<nat>)
      requires Linked()
      modifies this`servers, this`ids, queues
      ensures queues.Valid() && queues.loose == req && Abs() == RequestNew(old(Abs()), owner, qtype, name).0
      ensures req.Some? <==> RequestNew(old(Abs()), owner, qtype, name).1.Some?
      ensures req.Some? ==> req.value in queues.reqs
                            && queues.reqs[req.value] == RequestNew(old(Abs()), owner, qtype, name).1.value
      ensures queues.inflight == old(queues.inflight)
    {
      hide Queues.Valid, TakeId, PickNs, NameOk;
      queues.Counters();
      var issuing := queues.requestsInflight < opts.limit;
      var id := NO_ID;
      if issuing { id := TransactionIdPick(); }
      if !NameOk(name) { return None; }
      var ns := None;
      if issuing { ns := NameserverPick(); }
      var n := queues.Allocate(Request(owner, qtype, name, 0, 0, ns, id, false, false, NoSearch));
      queues.Counters();
      req := Some(n);
    }

    /** search_request_new: the name to ask first and where it stands in the search */
    method FirstName(name: Text, noSearch: bool) returns (first: Text, search: Search)
      requires queues.Valid()
      ensures (first, search) == FirstTry(Abs(), name, noSearch)
    {
      hide Queues.Valid;
      first, search := name, NoSearch;
      if !noSearch && globalSearch.Some? && globalSearch.value < |searches| {
        var st := searches[globalSearch.value];
        if st.domains != [] {
          if NumDots(name) >= st.ndots {
            search := Search(globalSearch.value, -1, name);
          } else {
            first, search := WithSuffix(name, st.domains[0]), Search(globalSearch.value, 0, name);
          }
        }
      }
    }

    /** evdns_resolve_ipv4, evdns_resolve_ipv6 and evdns_resolve_reverse */
    method StartLookup(qtype: QType, name: Text, noSearch: bool)
      requires Linked()
      modifies this, queues
      ensures Linked() && Abs() == Resolve(old(Abs()), qtype, name, noSearch)
      ensures old(queues.inflight) <= queues.inflight
    {
      hide Queues.Valid, RequestNew, Submit, FirstTry;
      var l := nextLookup;
      var first, search := FirstName(name, noSearch || qtype == Ptr);
      nextLookup := l + 1;
      var req := NewRequest(User(l), qtype, first);
      if req.Some? { AcceptLookup(l, req.value, first, search); }
    }

    /** The request of a lookup that is taken on is given its place in the search and submitted. */
    method AcceptLookup(l: nat, req: nat, first: Text, search: Search)
      requires queues.Valid() && queues.loose == Some(req) && req in queues.reqs
      modifies this, queues
      ensures Linked() && old(queues.inflight) <= queues.inflight
      ensures var s := old(Abs());
              Abs() == Submit(Log(s.(accepted := s.accepted + {l}), User(l), first),
                              old(queues.reqs[req]).(search := search))
    {
      hide Queues.Valid, Submit;
      accepted, asked := accepted + {l}, asked + [Asked(l, first)];
      queues.SetLoose(req, queues.reqs[req].(search := search));
      RequestSubmit(req);
    }

    /** The lookups a callback starts before it returns */
    method StartLookups(list: seq<Call>)
      requires Linked()
      modifies this, queues
      ensures Linked() && Abs() == ResolveAll(old(Abs()), list)
      ensures old(queues.inflight) <= queues.inflight
    {
      hide Queues.Valid, Resolve;
      var n := 0;
      while n < |list|
        invariant 0 <= n <= |list| && Linked() && old(queues.inflight) <= queues.inflight
        invariant ResolveAll(Abs(), list[n..]) == ResolveAll(old(Abs()), list)
      {
        assert list[n..][0] == list[n] && list[n..][1..] == list[n + 1..];
        StartLookup(list[n].qtype, list[n].name, list[n].noSearch);
        n := n + 1;
      }
      assert list[n..] == [];
    }

    /** reply_callback, which may start lookups, and nameserver_probe_callback when the request is a probe */
    method ReplyCallback(req: nat, ghost i: nat, err: Err)
      requires Linked() && i < |queues.inflight| && queues.inflight[i] == req
      modifies this, queues
      ensures Linked() && Abs() == Answer(old(Abs()), i, err)
      ensures old(queues.inflight) <= queues.inflight
    {
      hide Queues.Valid, ResolveAll, Callback;
      queues.RecordIs(i);
      var owner := queues.reqs[req].owner;
      if owner.Probe? {
        ProbeCallback(owner.server, i, err);
      } else {
        fired := fired + [Fired(owner.lookup, err)];
        RecordedIs(old(Abs()), i, err);
        if calls != [] {
          var list := calls[0];
          calls := calls[1..];
          StartLookups(list);
        }
      }
    }

    /** nameserver_probe_callback, through its pointer to the server even when that has been freed */
    method ProbeCallback(a: nat, ghost i: nat, err: Err)
      requires Linked() && i < |queues.inflight| && Abs().inflight[i].owner == Probe(a)
      modifies this`servers, this`goodNameservers, this`orphans
      ensures Abs() == Callback(old(Abs()), i, err)
    {
      hide Queues.Valid, SetServer, At, Ids, NameserverUp;
      if err == NoErr || err == NotExist {
        if a in orphans {
          goodNameservers, orphans := goodNameservers + 1, orphans - {a};
        } else {
          Up(a);
        }
      } else if a in Ids(servers) && !At(Ring(servers, goodNameservers), a).up {
        var server := At(Ring(servers, goodNameservers), a);
        SetServerRecord(server.(failedTimes := server.failedTimes + 1));
      }
    }

    /** search_try_next: the request that carries the lookup on, if there is one */
    method SearchTryNext(req: nat, ghost i: nat) returns (next: Option<nat>)
      requires Linked() && i < |queues.inflight| && queues.inflight[i] == req
      modifies this`servers, this`ids, queues
      ensures queues.Valid() && queues.loose == next && Abs() == SearchOn(old(Abs()), i).0
      ensures next.Some? <==> SearchOn(old(Abs()), i).1.Some?
      ensures next.Some? ==> next.value in queues.reqs && queues.reqs[next.value] == SearchOn(old(Abs()), i).1.value
      ensures queues.inflight == old(queues.inflight)
    {
      hide Queues.Valid, RequestNew;
      queues.RecordIs(i);
      var r := queues.reqs[req];
      if r.qtype == Ptr || r.search.NoSearch? || r.search.state >= |searches| { return None; }
      var st := searches[r.search.state];
      var n := r.search.index + 1;
      var name, search;
      if n >= |st.domains| {
        if NumDots(r.search.orig) >= st.ndots { return None; }
        name, search := r.search.orig, NoSearch;
      } else {
        name, search := WithSuffix(r.search.orig, st.domains[n]), r.search.(index := n);
      }
      next := NewRequest(r.owner, r.qtype, name);
      if next.Some? { queues.SetLoose(next.value, queues.reqs[next.value].(search := search)); }
    }

    /** The failure path of reply_handle: search on, or pass the failure up. */
    method PassUp(req: nat, ghost i: nat, err: Err)
      requires Linked() && i < |queues.inflight| && queues.inflight[i] == req
      modifies this, queues
      ensures Linked() && Abs() == Fail(old(Abs()), i, err)
    {
      hide Queues.Valid, SearchOn, Submit, Finished, Answer;
      var next := SearchTryNext(req, i);
      if next.Some? {
        var r := queues.reqs[next.value];
        if r.owner.User? { asked := asked + [Asked(r.owner.lookup, r.name)]; }
        RequestSubmit(next.value);
      } else {
        ReplyCallback(req, i, err);
      }
      RequestFinished(req, i);
    }

    /** request_reissue; the result says that another server was found. */
    method RequestReissue(req: nat, ghost i: nat) returns (moved: bool)
      requires queues.Valid() && i < |queues.inflight| && queues.inflight[i] == req
      modifies this`servers, queues`reqs
      ensures queues.Valid() && (Abs(), moved) == Reissue(old(Abs()), i)
    {
      hide Queues.Valid, Pick;
      queues.RecordIs(i);
      var last := queues.reqs[req].ns;
      var ns := NameserverPick();
      var r := queues.reqs[req].(ns := ns);
      if ns == last {
        queues.SetFlying(req, r, i);
        return false;
      }
      queues.SetFlying(req, r.(reissues := r.reissues + 1, sent := 0, transmitMe := true), i);
      return true;
    }

    /** reply_handle */
    method HandleReply(req: nat, ghost i: nat, flags: nat, answered: bool)
      requires Linked() && i < |queues.inflight| && queues.inflight[i] == req
      modifies this, queues
      ensures Linked() && Abs() == ReplyHandle(old(Abs()), i, flags, answered)
    {
      hide Queues.Valid, Fail, Finished, Answer, NameserverFailed, NameserverUp, Reissue, ErrorOf, IsError, Ids;
      if !IsError(flags, answered) {
        ReplyCallback(req, i, NoErr);
        var served := HasServer(req, i);
        if !served { return; }
        Up(queues.reqs[req].ns.value);
        RequestFinished(req, i);
        return;
      }
      var err := ErrorOf(flags);
      var served := HasServer(req, i);
      if !served { return; }
      var a := queues.reqs[req].ns.value;
      if err == NotImpl || err == Refused {
        if queues.reqs[req].reissues < opts.maxReissues {
          Failed(a);
          var moved := RequestReissue(req, i);
          if moved { return; }
        }
      } else if err != ServerFailed {
        Up(a);
      }
      PassUp(req, i, err);
    }

    // ---------- Events ----------

    method Begin(w: World)
      requires Linked()
      modifies this`ids, this`sends, this`calls
      ensures Linked() && Abs() == old(Abs()).(ids := w.ids, sends := w.sends, calls := w.calls)
    {
      ids, sends, calls := w.ids, w.sends, w.calls;
    }

    /** A lookup is started. */
    method ResolveName(qtype: QType, name: Text, noSearch: bool, w: World)
      requires Valid()
      modifies this, queues
      ensures Valid() && Abs() == Step(old(Abs()), Event.ResolveName(qtype, name, noSearch), w)
    {
      hide Queues.Valid, Inv, Resolve;
      Begin(w);
      StartLookup(qtype, name, noSearch);
      StepKeeps(old(Abs()), Event.ResolveName(qtype, name, noSearch), w);
    }

    /** nameserver_read of a well-formed answer */
    method ReadReply(from: nat, id: TransId, flags: nat, answered: bool, w: World)
      requires Valid() && from in Ids(servers)
      modifies this, queues
      ensures Valid() && Abs() == Step(old(Abs()), ReplyFrom(from, id, flags, answered), w)
    {
      hide Queues.Valid, Inv, ReplyHandle, SetServer, At, Ids, FindId;
      Begin(w);
      SetServerRecord(At(Ring(servers, goodNameservers), from).(timedout := 0));
      var req, i := FindFromTransId(id);
      if req.Some? && flags / 0x8000 % 2 == 1 { HandleReply(req.value, i, flags, answered); }
      StepKeeps(old(Abs()), ReplyFrom(from, id, flags, answered), w);
    }

    /** evdns_request_timeout_callback */
    method RequestTimedOut(req: nat, ghost i: nat, w: World)
      requires Valid() && i < |queues.inflight| && queues.inflight[i] == req && Abs().inflight[i].armed
      modifies this, queues
      ensures Valid() && Abs() == Step(old(Abs()), RequestTimer(i), w)
    {
      hide Queues.Valid, Inv, Timeout;
      Begin(w);
      HandleTimeout(req, i);
      StepKeeps(old(Abs()), RequestTimer(i), w);
    }

    method CountTimeout(a: nat)
      requires queues.Valid() && a in Ids(servers)
      modifies this`servers, this`goodNameservers, queues`reqs
      ensures queues.Valid() && Abs() == DnsRequests.CountTimeout(old(Abs()), a)
    {
      hide Queues.Valid, NameserverFailed, SetServer, At, Ids;
      var server := At(Ring(servers, goodNameservers), a);
      var n := server.timedout + 1;
      var over := n > opts.maxTimeouts;
      SetServerRecord(server.(timedout := if over then 0 else n));
      if over { Failed(a); }
    }

    method HandleTimeout(req: nat, ghost i: nat)
      requires Linked() && i < |queues.inflight| && queues.inflight[i] == req
      modifies this, queues
      ensures Linked() && Abs() == Timeout(old(Abs()), i)
    {
      hide Queues.Valid, Finished, Answer, DnsRequests.CountTimeout, Transmit, Ids;
      var served := HasServer(req, i);
      if !served { return; }
      CountTimeout(queues.reqs[req].ns.value);
      queues.RecordIs(i);
      queues.SetFlying(req, queues.reqs[req].(armed := false), i);
      if queues.reqs[req].sent >= opts.maxRetransmits {
        ReplyCallback(req, i, TimedOut);
        RequestFinished(req, i);
      } else {
        RequestTransmit(req, i);
      }
    }

    /** nameserver_send_probe */
    method ProbeServer(a: nat, w: World)
      requires Valid() && Enabled(Abs(), ProbeTimer(a))
      modifies this, queues
      ensures Valid() && Abs() == Step(old(Abs()), ProbeTimer(a), w)
    {
      hide Queues.Valid, Inv, RequestNew, TakeId, Submit, Ids;
      Begin(w);
      var req := NewRequest(Probe(a), A, PROBE_NAME);
      if req.Some? {
        var id := TransactionIdPick();
        queues.SetLoose(req.value, queues.reqs[req.value].(transId := id, ns := Some(a)));
        RequestSubmit(req.value);
      }
      StepKeeps(old(Abs()), ProbeTimer(a), w);
    }

    /** nameserver_ready_callback for writing */
    method ServerWritable(a: nat, w: World)
      requires Valid() && a in Ids(servers)
      modifies this, queues
      ensures Valid() && Abs() == Step(old(Abs()), Writable(a), w)
    {
      hide Queues.Valid, Inv, TransmitAll, SetServer, At, Ids;
      Begin(w);
      SetServerRecord(At(Ring(servers, goodNameservers), a).(choked := false));
      TransmitEach();
      StepKeeps(old(Abs()), Writable(a), w);
    }

    /** The error path of nameserver_read */
    method ServerUnreachable(a: nat, w: World)
      requires Valid() && a in Ids(servers)
      modifies this, queues
      ensures Valid() && Abs() == Step(old(Abs()), ReadError(a), w)
    {
      hide Queues.Valid, Inv, NameserverFailed;
      Begin(w);
      Failed(a);
      StepKeeps(old(Abs()), ReadError(a), w);
    }

    /** evdns_nameserver_add */
    method NameserverAdd(address: nat, w: World)
      requires Valid()
      modifies this
      ensures Valid() && Abs() == Step(old(Abs()), AddNameserver(address), w)
    {
      hide Queues.Valid, Inv;
      Begin(w);
      var ring := AddServer(Ring(servers, goodNameservers), nextServer, address);
      servers, goodNameservers, nextServer := ring.servers, ring.good, nextServer + 1;
      StepKeeps(old(Abs()), AddNameserver(address), w);
    }

    /** evdns_clear_nameservers_and_suspend */
    method ClearAndSuspend(w: World)
      requires Valid()
      modifies this, queues
      ensures Valid() && Abs() == Step(old(Abs()), SuspendAll, w)
    {
      hide Queues.Valid, Inv, Suspend;
      Begin(w);
      if servers != [] { FreeAndRequeue(); } else { SuspendNothing(Abs()); }
      StepKeeps(old(Abs()), SuspendAll, w);
    }

    method FreeAndRequeue()
      requires Linked() && servers != []
      modifies this`servers, this`goodNameservers, this`orphans, this`tainted, queues
      ensures Linked() && Abs() == Suspend(old(Abs()))
    {
      hide Queues.Valid, LooseProbe, DownSet, Suspended;
      orphans, tainted := orphans + DownSet(servers), tainted || LooseProbe(Abs());
      servers, goodNameservers := [], 0;
      queues.Counters();
      queues.Suspend();
      queues.Counters();
      assert queues.Flying() == [];
    }

    /** evdns_resume */
    method ResumeSending(w: World)
      requires Valid() && (queues.waiting == [] || servers != [])
      modifies this, queues
      ensures Valid() && Abs() == Step(old(Abs()), Resume, w)
    {
      hide Queues.Valid, Inv, Pump;
      Begin(w);
      PumpWaiting();
      StepKeeps(old(Abs()), Resume, w);
    }

    /** The global search, created when missing, is overwritten. */
    method EditSearch(add: Option<Text>, ndots: int)
      requires Linked()
      modifies this`searches, this`globalSearch
      ensures Linked()
      ensures var g := Global(WithGlobal(old(Abs())));
              Abs() == SetGlobal(WithGlobal(old(Abs())),
                                 if add.Some? then g.(domains := [StripDots(add.value)] + g.domains)
                                 else g.(ndots := ndots))
    {
      hide Queues.Valid;
      if globalSearch.None? {
        searches, globalSearch := searches + [SearchState([], 1)], Some(|searches|);
      }
      var g := globalSearch.value;
      if g < |searches| {
        var st := searches[g];
        searches := searches[g := if add.Some? then st.(domains := [StripDots(add.value)] + st.domains)
                                  else st.(ndots := ndots)];
      }
    }

    /** evdns_search_add */
    method SearchAddDomain(domain: Text, w: World)
      requires Valid()
      modifies this
      ensures Valid() && Abs() == Step(old(Abs()), SearchAdd(domain), w)
    {
      hide Queues.Valid, Inv, SetGlobal, WithGlobal, Global;
      Begin(w);
      EditSearch(Some(domain), 0);
      StepKeeps(old(Abs()), SearchAdd(domain), w);
    }

    /** evdns_search_ndots_set */
    method SearchSetNdots(ndots: int, w: World)
      requires Valid()
      modifies this
      ensures Valid() && Abs() == Step(old(Abs()), SearchNdots(ndots), w)
    {
      hide Queues.Valid, Inv, SetGlobal, WithGlobal, Global;
      Begin(w);
      EditSearch(None, ndots);
      StepKeeps(old(Abs()), SearchNdots(ndots), w);
    }

    /** evdns_search_clear: requests in flight keep the old search. */
    method SearchStartOver(w: World)
      requires Valid()
      modifies this
      ensures Valid() && Abs() == Step(old(Abs()), SearchClear, w)
    {
      hide Queues.Valid, Inv;
      Begin(w);
      searches, globalSearch := searches + [SearchState([], 1)], Some(|searches|);
      StepKeeps(old(Abs()), SearchClear, w);
    }

    /** evdns_set_option */
    method SetOption(o: Options, w: World)
      requires Valid()
      modifies this
      ensures Valid() && Abs() == Step(old(Abs()), SetOptions(o), w)
    {
      hide Queues.Valid, Inv;
      Begin(w);
      opts := Clipped(o);
      StepKeeps(old(Abs()), SetOptions(o), w);
    }
  }

  lemma SuspendNothing(s: State)
    requires s.ring.servers == []
    ensures Suspend(s) == s
  {
  }

  lemma RecordedIs(s: State, i: nat, err: Err)
    requires i < |s.inflight| && s.inflight[i].owner.User?
    ensures Callback(s, i, err) == s.(fired := s.fired + [Fired(s.inflight[i].owner.lookup, err)])
  {
  }

  lemma RotateNone(q: seq<Server>)
    ensures Rotate(q, 0) == q
  {
  }

  lemma RotateAll(q: seq<Server>)
    ensures Rotate(q, |q|) == q
  {
  }

  /** Moving the head on by one more */
  lemma RotateStep(q: seq<Server>, n: nat)
    requires n < |q|
    ensures Rotate(q, n)[0] == q[n]
    ensures Rotate(q, n)[1..] + [Rotate(q, n)[0]] == Rotate(q, n + 1)
    ensures n + 1 < |q| ==> Rotate(q, n + 1)[0] == q[n + 1]
  {
  }

  lemma DownSoFar(q: seq<Server>, steps: nat)
    requires steps < |q| && steps <= FirstUp(q, 0) && !q[steps].up
    ensures steps < FirstUp(q, 0)
  {
  }

  lemma FindIsUse(q: seq<Request>, id: TransId)
    ensures FindId(q, id, 0) < |q| <==> InUse(q, id)
  {
    FindFromIsUse(q, id, 0);
  }

  lemma {:induction false} FindFromIsUse(q: seq<Request>, id: TransId, from: nat)
    requires from <= |q|
    ensures FindId(q, id, from) < |q| <==> exists i :: from <= i < |q| && q[i].transId == id
    decreases |q| - from
  {
    if from < |q| && q[from].transId != id { FindFromIsUse(q, id, from + 1); }
  }
}
