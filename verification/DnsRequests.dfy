/** The request queues of evdns.c as a state machine: submitting, transmitting, timing out, reissuing,
    searching, suspending and resuming lookups.

    A queue is the sequence of its circular list from the head on. What the outside world decides in
    the course of one event, the ids the id function draws, the results of sendto and the lookups that
    callbacks start before they return, stands in the state as lists consumed from the front. */
module DnsRequests {

  import opened Basics
  import opened DnsNames
  import opened DnsCompression
  import opened DnsServers

  datatype QType = A | Ptr | Aaaa

  /** Whose callback a request carries: a caller's lookup or the probe of a server. */
  datatype Owner = User(lookup: nat) | Probe(server: nat)

  type TransId = x: int | 0 <= x < 0x10000

  type SearchIndex = i: int | -1 <= i witness -1

  /** Where a request stands in a search: search_state, search_index and search_origname. */
  datatype Search = NoSearch | Search(state: nat, index: SearchIndex, orig: Text)

  datatype Request = Request(
    owner: Owner, qtype: QType, name: Text, reissues: nat, sent: nat, ns: Option<nat>,
    transId: TransId, transmitMe: bool, armed: bool, search: Search)

  datatype SearchState = SearchState(domains: seq<Text>, ndots: int)

  datatype Options = Options(limit: int, maxReissues: int, maxRetransmits: int, maxTimeouts: int)

  const MAX_LIMIT := 65000

  /** The limit on requests in flight as evdns_set_option clips it */
  function Clipped(o: Options): (o': Options) {
    o.(limit := if o.limit < 1 then 1 else if o.limit > MAX_LIMIT then MAX_LIMIT else o.limit)
  }

  datatype Send = Sent | Again | SendFailed

  datatype Err = NoErr | Format | ServerFailed | NotExist | NotImpl | Refused | Truncated | UnknownErr | TimedOut

  /** A callback made for a lookup. */
  datatype Fired = Fired(lookup: nat, err: Err)

  /** A name asked for a lookup. */
  datatype Asked = Asked(lookup: nat, name: Text)

  /** A lookup that a callback starts. */
  datatype Call = Call(qtype: QType, name: Text, noSearch: bool)

  /** What the outside world decides in the course of one event. */
  datatype World = World(ids: seq<TransId>, sends: seq<Send>, calls: seq<seq<Call>>)

  const NO_ID: TransId := 0xffff

  datatype State = State(
    ring: Ring,
    nextServer: nat,
    orphans: set<nat>,        // servers that were freed while they were down
    tainted: bool,            // servers were freed while a probe of one that was down was queued
    inflight: seq<Request>, waiting: seq<Request>,
    nInflight: int, nWaiting: int,
    opts: Options,
    searches: seq<SearchState>, globalSearch: Option<nat>,
    nextLookup: nat,
    accepted: set<nat>,       // lookups the resolver has taken on
    fired: seq<Fired>,        // callbacks made, in order
    asked: seq<Asked>,        // names asked for lookups, in order
    ids: seq<TransId>, sends: seq<Send>, calls: seq<seq<Call>>)

  // ---------- Bookkeeping ----------

  predicate SameKey(r: Request, r': Request) {
    r' == r.(ns := r'.ns, sent := r'.sent, reissues := r'.reissues, transmitMe := r'.transmitMe, armed := r'.armed)
  }

  /** Everything but the servers, the world's answers and the sending state of requests is as it was. */
  predicate Frame(s: State, s': State) {
    && s' == s.(ring := s'.ring, inflight := s'.inflight, ids := s'.ids, sends := s'.sends)
    && |s'.inflight| == |s.inflight|
    && forall i :: 0 <= i < |s.inflight| ==> SameKey(s.inflight[i], s'.inflight[i])
  }

  /** Only the servers, the queues and what the world answers have changed. */
  predicate OnlyQueues(s: State, s': State) {
    s' == s.(ring := s'.ring, inflight := s'.inflight, waiting := s'.waiting, nInflight := s'.nInflight,
             nWaiting := s'.nWaiting, ids := s'.ids, sends := s'.sends)
  }

  /** The options, the searches and the numbering of servers are as they were. */
  predicate SameSetup(s: State, s': State) {
    && s'.opts == s.opts && s'.searches == s.searches && s'.globalSearch == s.globalSearch
    && s'.nextServer == s.nextServer && s'.tainted == s.tainted
  }

  // ---------- Ids ----------

  predicate InUse(q: seq<Request>, id: TransId) {
    exists i :: 0 <= i < |q| && q[i].transId == id
  }

  /** The least id from k on that is free, or 0xffff */
  function FreeFrom(q: seq<Request>, k: TransId): (id: TransId)
    ensures id != NO_ID ==> !InUse(q, id)
    ensures forall j: TransId :: k <= j < id ==> InUse(q, j)
    ensures k <= id
    decreases NO_ID - k
  {
    if k == NO_ID || !InUse(q, k) then k else FreeFrom(q, k + 1)
  }

  /** transaction_id_pick: draws until an id is neither 0xffff nor in flight. After the ids listed the
      next draw is one that is free, if there is one. */
  function TakeId(s: State): (p: (State, TransId))
    ensures p.0 == s.(ids := p.0.ids)
    ensures p.1 != NO_ID ==> !InUse(s.inflight, p.1)
    ensures FreeFrom(s.inflight, 0) != NO_ID ==> p.1 != NO_ID
    decreases |s.ids|
  {
    if s.ids == [] then (s, FreeFrom(s.inflight, 0))
    else
      var s1 := s.(ids := s.ids[1..]);
      if s.ids[0] == NO_ID || InUse(s.inflight, s.ids[0]) then TakeId(s1) else (s1, s.ids[0])
  }

  // ---------- Sending ----------

  function PickNs(s: State): (p: (State, Option<nat>)) {
    var (ring, ns) := Pick(s.ring);
    (s.(ring := ring), ns)
  }

  /** A request still to be sent to the server goes to another. */
  function MoveOn(s: State, a: nat, i: nat): (s': State)
    requires i < |s.inflight|
    ensures Frame(s, s') && |s'.inflight| == |s.inflight|
  {
    if s.inflight[i].sent == 0 && s.inflight[i].ns == Some(a) then
      var (s1, ns) := PickNs(s);
      s1.(inflight := s1.inflight[i := s1.inflight[i].(ns := ns)])
    else s
  }

  /** The loop of nameserver_failed */
  function Reassign(s: State, a: nat, i: nat): (s': State)
    ensures Frame(s, s')
    decreases |s.inflight| - i
  {
    if i >= |s.inflight| then s else Reassign(MoveOn(s, a, i), a, i + 1)
  }

  /** nameserver_failed */
  function NameserverFailed(s: State, a: nat): (s': State)
    ensures Frame(s, s')
  {
    if a !in Ids(s.ring.servers) || !At(s.ring, a).up then s
    else
      var s1 := s.(ring := MarkDown(s.ring, a));
      if s1.ring.good == 0 then s1 else Reassign(s1, a, 0)
  }

  function NameserverUp(s: State, a: nat): (s': State)
    ensures Frame(s, s')
  {
    if a in Ids(s.ring.servers) then s.(ring := MarkUp(s.ring, a)) else s
  }

  predicate Assigned(s: State, i: nat) {
    i < |s.inflight| && s.inflight[i].ns.Some? && s.inflight[i].ns.value in Ids(s.ring.servers)
  }

  function SetReq(s: State, i: nat, r: Request): (s': State)
    requires i < |s.inflight|
  {
    s.(inflight := s.inflight[i := r])
  }

  /** evdns_request_transmit for the i-th request in flight */
  function Transmit(s: State, i: nat): (s': State)
    ensures Frame(s, s')
  {
    if !Assigned(s, i) then s
    else
      var s1 := SetReq(s, i, s.inflight[i].(transmitMe := true));
      var server := At(s.ring, s.inflight[i].ns.value);
      if server.choked then s1
      else
        var result := if s.sends == [] then Sent else s.sends[0];
        var s2 := if s.sends == [] then s1 else s1.(sends := s.sends[1..]);
        if result == Again then s2.(ring := SetServer(s2.ring, server.(choked := true)))
        else CountSent(if result == SendFailed then NameserverFailed(s2, server.id) else s2, i)
  }

  /** A request has been sent, or could not be: it is tried again when its timer fires. */
  function CountSent(s: State, i: nat): (s': State)
    requires i < |s.inflight|
  {
    SetReq(s, i, s.inflight[i].(armed := true, sent := s.inflight[i].sent + 1, transmitMe := false))
  }

  /** The request is sent if it waits for that. */
  function TransmitWaiting(s: State, i: nat): (s': State)
    requires i < |s.inflight|
    ensures Frame(s, s') && |s'.inflight| == |s.inflight|
  {
    if s.inflight[i].transmitMe then Transmit(s, i) else s
  }

  /** evdns_transmit, from the i-th request on */
  function TransmitAll(s: State, i: nat): (s': State)
    ensures Frame(s, s')
    decreases |s.inflight| - i
  {
    if i >= |s.inflight| then s
    else TransmitAll(TransmitWaiting(s, i), i + 1)
  }

  // ---------- Queues ----------

  function Enqueue(s: State, r: Request): (s': State) {
    s.(waiting := s.waiting + [r], nWaiting := s.nWaiting + 1)
  }

  function Launch(s: State, r: Request): (s': State) {
    s.(inflight := s.inflight + [r], nInflight := s.nInflight + 1)
  }

  /** request_submit: a request with a server goes in flight, another waits. */
  function Submit(s: State, r: Request): (s': State)
    ensures OnlyQueues(s, s') && |s'.inflight| >= |s.inflight|
  {
    if r.ns.Some? then Transmit(Launch(s, r), |s.inflight|) else Enqueue(s, r)
  }

  /** One turn of evdns_requests_pump_waiting_queue */
  function Promote(s: State): (s': State)
    requires s.waiting != []
    ensures OnlyQueues(s, s') && |s'.waiting| < |s.waiting|
  {
    var r := s.waiting[0];
    var s1 := s.(waiting := s.waiting[1..], nWaiting := s.nWaiting - 1);
    var (s2, ns) := PickNs(s1);
    var (s3, id) := TakeId(s2);
    TransmitAll(Transmit(Launch(s3, r.(ns := ns, transId := id)), |s3.inflight|), 0)
  }

  /** evdns_requests_pump_waiting_queue */
  function Pump(s: State): (s': State)
    ensures OnlyQueues(s, s')
    decreases |s.waiting|
  {
    if s.nInflight < s.opts.limit && s.nWaiting != 0 && s.waiting != [] then Pump(Promote(s)) else s
  }

  function Remove(s: State, i: nat): (s': State)
    requires i < |s.inflight|
  {
    s.(inflight := s.inflight[..i] + s.inflight[i + 1..], nInflight := s.nInflight - 1)
  }

  /** request_finished for the i-th request in flight */
  function Finished(s: State, i: nat): (s': State)
    requires i < |s.inflight|
    ensures OnlyQueues(s, s')
  {
    Pump(Remove(s, i))
  }

  // ---------- Creating requests ----------

  /** evdns_request_data_build accepts the name, as RequestReadsBack says. */
  predicate NameOk(name: Text) {
    |name| <= MAX_NAME && LabelsShort(name)
  }

  /** request_new */
  function RequestNew(s: State, owner: Owner, qtype: QType, name: Text): (p: (State, Option<Request>))
    ensures p.0 == s.(ring := p.0.ring, ids := p.0.ids)
  {
    var issuing := s.nInflight < s.opts.limit;
    var (s1, id) := if issuing then TakeId(s) else (s, NO_ID);
    if !NameOk(name) then (s1, None)
    else
      var (s2, ns) := if issuing then PickNs(s1) else (s1, None);
      (s2, Some(Request(owner, qtype, name, 0, 0, ns, id, false, false, NoSearch)))
  }

  /** nameserver_send_probe: in flight whatever the limit says */
  function SendProbe(s: State, a: nat): (s': State)
    ensures OnlyQueues(s, s')
  {
    var (s1, r) := RequestNew(s, Probe(a), A, PROBE_NAME);
    if r.None? then s1
    else
      var (s2, id) := TakeId(s1);
      Submit(s2, r.value.(transId := id, ns := Some(a)))
  }

  /** "www.google.com" */
  const PROBE_NAME: Text := [119, 119, 119, 46, 103, 111, 111, 103, 108, 101, 46, 99, 111, 109]

  function NumDots(name: Text): (n: nat) {
    if name == [] then 0 else (if name[0] == DOT then 1 else 0) + NumDots(name[1..])
  }

  /** search_make_new */
  function WithSuffix(name: Text, domain: Text): (t: Text) {
    name + (if name != [] && name[|name| - 1] == DOT then [] else [DOT]) + domain
  }

  /** The name a lookup is first asked under and its place in the search. */
  function FirstTry(s: State, name: Text, noSearch: bool): (p: (Text, Search))
  {
    if noSearch || s.globalSearch.None? || s.globalSearch.value >= |s.searches| then (name, NoSearch)
    else
      var st := s.searches[s.globalSearch.value];
      if st.domains == [] then (name, NoSearch)
      else if NumDots(name) >= st.ndots then (name, Search(s.globalSearch.value, -1, name))
      else (WithSuffix(name, st.domains[0]), Search(s.globalSearch.value, 0, name))
  }

  function Log(s: State, owner: Owner, name: Text): (s': State) {
    if owner.User? then s.(asked := s.asked + [Asked(owner.lookup, name)]) else s
  }

  /** evdns_resolve_ipv4, evdns_resolve_ipv6, evdns_resolve_reverse */
  function Resolve(s: State, qtype: QType, name: Text, noSearch: bool): (s': State)
    ensures SameSetup(s, s') && |s'.inflight| >= |s.inflight|
  {
    var l := s.nextLookup;
    var (first, search) := FirstTry(s, name, noSearch || qtype == Ptr);
    var (s1, r) := RequestNew(s.(nextLookup := l + 1), User(l), qtype, first);
    if r.None? then s1
    else Submit(Log(s1.(accepted := s1.accepted + {l}), User(l), first), r.value.(search := search))
  }

  /** The lookups a callback starts before it returns */
  function ResolveAll(s: State, calls: seq<Call>): (s': State)
    ensures SameSetup(s, s') && |s'.inflight| >= |s.inflight|
    decreases |calls|
  {
    if calls == [] then s
    else ResolveAll(Resolve(s, calls[0].qtype, calls[0].name, calls[0].noSearch), calls[1..])
  }

  // ---------- Replies and timeouts ----------

  /** The callback of the i-th request in flight: a lookup's is recorded, a probe's judges its server. A probe keeps
      its pointer to a server that has been freed, and a good answer then raises the counter for it. */
  function Callback(s: State, i: nat, err: Err): (s': State)
    requires i < |s.inflight|
    ensures s' == s.(ring := s'.ring, fired := s'.fired, orphans := s'.orphans)
  {
    match s.inflight[i].owner
    case User(l) => s.(fired := s.fired + [Fired(l, err)])
    case Probe(a) =>
      if err == NoErr || err == NotExist then
        if a in s.orphans then s.(ring := s.ring.(good := s.ring.good + 1), orphans := s.orphans - {a})
        else NameserverUp(s, a)
      else if a in Ids(s.ring.servers) && !At(s.ring, a).up then
        s.(ring := SetServer(s.ring, At(s.ring, a).(failedTimes := At(s.ring, a).failedTimes + 1)))
      else s
  }

  /** The callback with what it does before it returns: a lookup's may start others. */
  function Answer(s: State, i: nat, err: Err): (s': State)
    requires i < |s.inflight|
    ensures SameSetup(s, s') && |s'.inflight| >= |s.inflight|
  {
    var s1 := Callback(s, i, err);
    if s.inflight[i].owner.Probe? || s.calls == [] then s1
    else ResolveAll(s1.(calls := s1.calls[1..]), s.calls[0])
  }

  function Conclude(s: State, i: nat, err: Err): (s': State)
    requires i < |s.inflight|
    ensures SameSetup(s, s')
  {
    Finished(Answer(s, i, err), i)
  }

  /** The name search_try_next asks for next, with its place in the search; none when the search is over. */
  function NextTry(s: State, search: Search): (p: Option<(Text, Search)>)
  {
    if search.NoSearch? || search.state >= |s.searches| then None
    else
      var st := s.searches[search.state];
      var n := search.index + 1;
      if n >= |st.domains| then
        if NumDots(search.orig) < st.ndots then Some((search.orig, NoSearch)) else None
      else Some((WithSuffix(search.orig, st.domains[n]), search.(index := n)))
  }

  /** search_try_next: the request that carries the lookup on, if there is one. */
  function SearchOn(s: State, i: nat): (p: (State, Option<Request>))
    requires i < |s.inflight|
    ensures p.0 == s.(ring := p.0.ring, ids := p.0.ids)
  {
    var r := s.inflight[i];
    var next := if r.qtype == Ptr then None else NextTry(s, r.search);
    if next.None? then (s, None)
    else
      var (s1, r1) := RequestNew(s, r.owner, r.qtype, next.value.0);
      if r1.None? then (s1, None) else (s1, Some(r1.value.(search := next.value.1)))
  }

  /** The failure path of reply_handle: search on, or pass the failure up. */
  function Fail(s: State, i: nat, err: Err): (s': State)
    requires i < |s.inflight|
    ensures SameSetup(s, s')
  {
    var (s1, next) := SearchOn(s, i);
    if next.None? then Conclude(s1, i, err)
    else Finished(Submit(Log(s1, next.value.owner, next.value.name), next.value), i)
  }

  /** request_reissue, where the last server is the request's; the flag says the request was moved. */
  function Reissue(s: State, i: nat): (p: (State, bool))
    requires i < |s.inflight|
    ensures Frame(s, p.0)
  {
    var last := s.inflight[i].ns;
    var (s1, ns) := PickNs(s);
    var r := s1.inflight[i].(ns := ns);
    if ns == last then (SetReq(s1, i, r), false)
    else (SetReq(s1, i, r.(reissues := r.reissues + 1, sent := 0, transmitMe := true)), true)
  }

  function ErrorOf(flags: nat): (e: Err) {
    if flags / 0x200 % 2 == 1 then Truncated
    else match flags % 16
      case 1 => Format
      case 2 => ServerFailed
      case 3 => NotExist
      case 4 => NotImpl
      case 5 => Refused
      case _ => UnknownErr
  }

  predicate IsError(flags: nat, answered: bool) {
    flags / 0x200 % 2 == 1 || flags % 16 != 0 || !answered
  }

  /** reply_handle for the i-th request in flight */
  function ReplyHandle(s: State, i: nat, flags: nat, answered: bool): (s': State)
    requires i < |s.inflight|
    ensures SameSetup(s, s')
  {
    if !IsError(flags, answered) then
      var s1 := Answer(s, i, NoErr);
      if !Assigned(s1, i) then s1 else Finished(NameserverUp(s1, s1.inflight[i].ns.value), i)
    else
      var err := ErrorOf(flags);
      if !Assigned(s, i) then s
      else if err == NotImpl || err == Refused then
        if s.inflight[i].reissues < s.opts.maxReissues then
          var (s1, moved) := Reissue(NameserverFailed(s, s.inflight[i].ns.value), i);
          if moved then s1 else Fail(s1, i, err)
        else Fail(s, i, err)
      else if err == ServerFailed then Fail(s, i, err)
      else Fail(NameserverUp(s, s.inflight[i].ns.value), i, err)
  }

  /** request_find_from_trans_id: the index of the request, or the length. */
  function FindId(q: seq<Request>, id: TransId, from: nat): (i: nat)
    requires from <= |q|
    ensures from <= i <= |q|
    ensures i < |q| ==> q[i].transId == id
    decreases |q| - from
  {
    if from == |q| || q[from].transId == id then from else FindId(q, id, from + 1)
  }

  /** nameserver_read of a well-formed answer: the server is heard of, and a request that is in flight
      under its id is handled. */
  function Reply(s: State, from: nat, id: TransId, flags: nat, answered: bool): (s': State)
    requires from in Ids(s.ring.servers)
    ensures SameSetup(s, s')
  {
    var s1 := s.(ring := SetServer(s.ring, At(s.ring, from).(timedout := 0)));
    var i := FindId(s1.inflight, id, 0);
    if i < |s1.inflight| && flags / 0x8000 % 2 == 1 then ReplyHandle(s1, i, flags, answered) else s1
  }

  /** Another timeout of a server, which is taken for down when there are too many. */
  function CountTimeout(s: State, a: nat): (s': State)
    requires a in Ids(s.ring.servers)
    ensures SameSetup(s, s') && |s'.inflight| == |s.inflight|
  {
    var server := At(s.ring, a);
    var n := server.timedout + 1;
    var over := n > s.opts.maxTimeouts;
    var s1 := s.(ring := SetServer(s.ring, server.(timedout := if over then 0 else n)));
    if over then NameserverFailed(s1, a) else s1
  }

  /** evdns_request_timeout_callback for the i-th request in flight */
  function Timeout(s: State, i: nat): (s': State)
    requires i < |s.inflight|
    ensures SameSetup(s, s')
  {
    if !Assigned(s, i) then s
    else
      var s2 := CountTimeout(s, s.inflight[i].ns.value);
      var s3 := SetReq(s2, i, s2.inflight[i].(armed := false));
      if s3.inflight[i].sent >= s.opts.maxRetransmits then Conclude(s3, i, TimedOut) else Transmit(s3, i)
  }

  // ---------- Suspending ----------

  function Reset(r: Request): (r': Request) {
    r.(sent := 0, reissues := 0, ns := None, armed := false, transId := 0, transmitMe := false)
  }

  /** The requests in flight, each put at the front of the waiting queue in turn. */
  function Suspended(q: seq<Request>, waiting: seq<Request>): (w: seq<Request>)
  {
    if q == [] then waiting else Suspended(q[1..], [Reset(q[0])] + waiting)
  }

  /** Some request of the queue is the probe of one of these servers. */
  predicate Probing(q: seq<Request>, servers: set<nat>) {
    exists i :: 0 <= i < |q| && q[i].owner.Probe? && q[i].owner.server in servers
  }

  /** A probe of a server that is down is queued. */
  predicate LooseProbe(s: State) {
    Probing(s.inflight, DownSet(s.ring.servers)) || Probing(s.waiting, DownSet(s.ring.servers))
  }

  /** evdns_clear_nameservers_and_suspend frees the servers and keeps the probes. */
  function Suspend(s: State): (s': State)
  {
    if s.ring.servers == [] then s
    else s.(ring := Ring([], 0), orphans := s.orphans + DownSet(s.ring.servers), tainted := s.tainted || LooseProbe(s),
            waiting := Suspended(s.inflight, s.waiting),
            nWaiting := s.nWaiting + |s.inflight|, inflight := [], nInflight := 0)
  }

  // ---------- Events ----------

  datatype Event =
    | ResolveName(qtype: QType, name: Text, noSearch: bool)
    | ReplyFrom(from: nat, id: TransId, flags: nat, answered: bool)
    | RequestTimer(index: nat)
    | ProbeTimer(server: nat)
    | Writable(server: nat)
    | ReadError(server: nat)
    | AddNameserver(address: nat)
    | SuspendAll
    | Resume
    | SearchAdd(domain: Text)
    | SearchNdots(ndots: int)
    | SearchClear
    | SetOptions(opts: Options)

  /** A request's timer runs only while it is in flight. Only the socket of a server that is configured can be read or
      written, and the timer of a server runs only while it is configured and down. Resuming with requests waiting
      needs a server to send them to; and an id can be drawn for a probe only while one is free. */
  predicate Enabled(s: State, e: Event) {
    match e
    case RequestTimer(i) => i < |s.inflight| && s.inflight[i].armed
    case ReplyFrom(from, _, _, _) => from in Ids(s.ring.servers)
    case ProbeTimer(a) => a in Ids(s.ring.servers) && !At(s.ring, a).up && |s.inflight| < 0xffff
    case Writable(a) => a in Ids(s.ring.servers)
    case ReadError(a) => a in Ids(s.ring.servers)
    case Resume => s.waiting == [] || s.ring.servers != []
    case _ => true
  }

  /** The global search state, created when missing. */
  function WithGlobal(s: State): (s': State)
    ensures s'.globalSearch.Some?
  {
    if s.globalSearch.Some? then s
    else s.(searches := s.searches + [SearchState([], 1)], globalSearch := Some(|s.searches|))
  }

  function SetGlobal(s: State, st: SearchState): (s': State) {
    if s.globalSearch.Some? && s.globalSearch.value < |s.searches| then
      s.(searches := s.searches[s.globalSearch.value := st])
    else s
  }

  function Global(s: State): (st: SearchState) {
    if s.globalSearch.Some? && s.globalSearch.value < |s.searches| then s.searches[s.globalSearch.value]
    else SearchState([], 1)
  }

  function StripDots(d: Text): (t: Text) {
    if d != [] && d[0] == DOT then StripDots(d[1..]) else d
  }

  function Step(s0: State, e: Event, w: World): (s': State)
    requires Enabled(s0, e)
  {
    var s := s0.(ids := w.ids, sends := w.sends, calls := w.calls);
    match e
    case ResolveName(t, name, noSearch) => Resolve(s, t, name, noSearch)
    case ReplyFrom(from, id, flags, answered) => Reply(s, from, id, flags, answered)
    case RequestTimer(i) => Timeout(s, i)
    case ProbeTimer(a) => SendProbe(s, a)
    case Writable(a) => TransmitAll(s.(ring := SetServer(s.ring, At(s.ring, a).(choked := false))), 0)
    case ReadError(a) => NameserverFailed(s, a)
    case AddNameserver(a) => s.(ring := AddServer(s.ring, s.nextServer, a), nextServer := s.nextServer + 1)
    case SuspendAll => Suspend(s)
    case Resume => Pump(s)
    case SearchAdd(d) =>
      var s1 := WithGlobal(s);
      SetGlobal(s1, Global(s1).(domains := [StripDots(d)] + Global(s1).domains))
    case SearchNdots(n) => var s1 := WithGlobal(s); SetGlobal(s1, Global(s1).(ndots := n))
    case SearchClear => s.(searches := s.searches + [SearchState([], 1)], globalSearch := Some(|s.searches|))
    case SetOptions(o) => s.(opts := Clipped(o))
  }
}
