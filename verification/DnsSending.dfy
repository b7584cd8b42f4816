/** What is sent when: a socket that can be written gets everything that has waited for it, and a probe goes to the
    server it is for. */
module DnsSending {

  import opened Basics
  import DnsCompression
  import DnsNames
  import opened DnsServers
  import opened DnsRequests
  import opened DnsLookups
  import opened DnsHealth
  import opened DnsReplies

  function Sent1(r: Request): (r': Request) {
    r.(armed := true, sent := r.sent + 1, transmitMe := false)
  }

  /** Where sendto always succeeds, a request is sent unless the socket of its server is choked. */
  lemma TransmitOpen(s: State, i: nat)
    requires Assigned(s, i) && s.sends == []
    ensures var r := s.inflight[i];
            Transmit(s, i) == SetReq(s, i, if At(s.ring, r.ns.value).choked then r.(transmitMe := true) else Sent1(r))
  {
    hide Ids, At;
    var r := s.inflight[i];
    assert s.inflight[i := r.(transmitMe := true)][i := Sent1(r)] == s.inflight[i := Sent1(r)];
  }

  /** A socket that would block is choked from then on. */
  lemma AgainChokes(s: State, i: nat)
    requires Assigned(s, i) && Apart(s.ring) && s.sends != [] && s.sends[0] == Again
    ensures var a := s.inflight[i].ns.value;
            a in Ids(Transmit(s, i).ring.servers) && At(Transmit(s, i).ring, a).choked
  {
    hide Ids, At, SetServer;
    var server := At(s.ring, s.inflight[i].ns.value);
    AtSet(s.ring, server.(choked := true), s.ring.good, server.id);
    GoodSame(s.ring, server.(choked := true));
  }

  /** What evdns_transmit makes of a request when sendto always succeeds */
  function Flushed(ring: Ring, r: Request): (r': Request) {
    if r.transmitMe && r.ns.Some? && r.ns.value in Ids(ring.servers) && !At(ring, r.ns.value).choked then Sent1(r)
    else r
  }

  lemma FlushOne(s: State, k: nat)
    requires s.sends == [] && AllAssigned(s.inflight, Ids(s.ring.servers)) && k < |s.inflight|
    ensures var s1 := TransmitWaiting(s, k);
            && s1 == s.(inflight := s.inflight[k := Flushed(s.ring, s.inflight[k])])
            && AllAssigned(s1.inflight, Ids(s1.ring.servers))
  {
    hide Ids, At, Transmit;
    assert Assigned(s, k);
    TransmitOpen(s, k);
    var s1 := TransmitWaiting(s, k);
    var r := s.inflight[k];
    assert r.transmitMe ==> r.(transmitMe := true) == r;
    assert s.inflight[k := r] == s.inflight;
  }

  lemma {:induction false} FlushAll(s: State, k: nat)
    requires s.sends == [] && AllAssigned(s.inflight, Ids(s.ring.servers))
    ensures var s' := TransmitAll(s, k);
            && s' == s.(inflight := s'.inflight) && |s'.inflight| == |s.inflight|
            && forall i :: 0 <= i < |s.inflight| ==>
                 s'.inflight[i] == if i < k then s.inflight[i] else Flushed(s.ring, s.inflight[i])
    decreases |s.inflight| - k
  {
    hide Flushed, TransmitWaiting, AllAssigned;
    if k < |s.inflight| {
      FlushOne(s, k);
      FlushAll(TransmitWaiting(s, k), k + 1);
    }
  }

  /** The state in which the socket of a is known to be open */
  function Opened(s: State, a: nat, w: World): (s': State)
    requires a in Ids(s.ring.servers)
  {
    s.(ids := w.ids, sends := w.sends, calls := w.calls, ring := SetServer(s.ring, At(s.ring, a).(choked := false)))
  }

  lemma OpenedIs(s: State, a: nat, w: World)
    requires Sound(s) && a in Ids(s.ring.servers)
    ensures var s1 := Opened(s, a, w);
            && Ids(s1.ring.servers) == Ids(s.ring.servers) && AllAssigned(s.inflight, Ids(s.ring.servers))
            && forall b :: b in Ids(s.ring.servers) ==>
                 At(s1.ring, b) == if b == a then At(s.ring, a).(choked := false) else At(s.ring, b)
  {
    hide Sound, Ids, At, SetServer;
    var x := At(s.ring, a).(choked := false);
    var s1 := Opened(s, a, w);
    ExactRing(s);
    GoodSame(s.ring, x);
    AtSet(s.ring, x, s.ring.good, a);
    forall b | b in Ids(s.ring.servers)
      ensures b in Ids(s1.ring.servers) && At(s1.ring, b) == if b == a then x else At(s.ring, b)
    {
      AtSet(s.ring, x, s.ring.good, b);
    }
    SoundServes(s);
  }

  /** What becomes of a request in flight when the socket of a can be written */
  predicate SentIfOpen(s: State, a: nat, i: nat, r': Request)
    requires Assigned(s, i)
  {
    var r := s.inflight[i];
    r' == if r.transmitMe && (r.ns == Some(a) || !At(s.ring, r.ns.value).choked) then Sent1(r) else r
  }

  /** When the socket of a server can be written, and sendto succeeds, all that has waited for an open socket is sent,
      and nothing else changes. */
  lemma WritableSends(s: State, a: nat, w: World)
    requires Sound(s) && a in Ids(s.ring.servers) && w.sends == []
    ensures var s' := Step(s, Writable(a), w);
            && s' == s.(ids := w.ids, sends := w.sends, calls := w.calls, ring := s'.ring, inflight := s'.inflight)
            && Rated(s, s', a, At(s.ring, a)) && !At(s'.ring, a).choked && |s'.inflight| == |s.inflight|
            && forall i :: 0 <= i < |s.inflight| ==> Assigned(s, i) && SentIfOpen(s, a, i, s'.inflight[i])
  {
    hide Sound, Ids, At, SetServer, TransmitAll;
    var s1 := Opened(s, a, w);
    OpenedIs(s, a, w);
    FlushAll(s1, 0);
    assert Step(s, Writable(a), w) == TransmitAll(s1, 0);
    forall i | 0 <= i < |s.inflight| ensures Assigned(s, i) && SentIfOpen(s, a, i, Flushed(s1.ring, s.inflight[i])) {
      assert Assigned(s, i) && Assigned(s1, i);
    }
  }

  // ---------- The pump ----------

  /** Whatever waits to be sent waits for a socket that is choked. */
  predicate AllSent(s: State) {
    forall i :: 0 <= i < |s.inflight| && s.inflight[i].transmitMe ==>
      Assigned(s, i) && At(s.ring, s.inflight[i].ns.value).choked
  }

  lemma PromoteFlushes(s: State)
    requires Sound(s) && s.sends == [] && s.waiting != [] && s.ring.servers != []
    ensures AllSent(Promote(s)) && Promote(s).sends == []
  {
    hide Sound, Pick, TakeId, Transmit, TransmitAll, Ids, At, Apart, Drift;
    var r := s.waiting[0];
    var s1 := s.(waiting := s.waiting[1..], nWaiting := s.nWaiting - 1);
    PickKeepsRing(s.ring);
    var (s2, ns) := PickNs(s1);
    var (s3, id) := TakeId(s2);
    var s4 := Launch(s3, r.(ns := ns, transId := id));
    SoundServes(s);
    TransmitOpen(s4, |s3.inflight|);
    var s5 := Transmit(s4, |s3.inflight|);
    FlushAll(s5, 0);
  }

  lemma {:induction false} PumpFlushes(s: State)
    requires Sound(s) && s.sends == [] && s.waiting != [] && s.ring.servers != [] && |s.inflight| < s.opts.limit
    ensures AllSent(Pump(s))
    decreases |s.waiting|
  {
    hide Sound, Ledger, Promote, AllSent, Ids, Apart, Drift;
    Counters(s);
    PromoteFlushes(s);
    PromoteKeeps(s);
    var s1 := Promote(s);
    QuietSound(s, s1);
    Counters(s1);
    if |s1.inflight| < s1.opts.limit && s1.waiting != [] { PumpFlushes(s1); }
  }

  /** Resuming, where requests wait and sendto succeeds, leaves nothing to be sent but what a choked socket holds
      back. */
  lemma ResumeSendsAll(s: State, w: World)
    requires Sound(s) && Enabled(s, Resume) && w.sends == [] && s.waiting != [] && |s.inflight| < s.opts.limit
    ensures AllSent(Step(s, Resume, w))
  {
    hide Sound, Ledger, Pump, AllSent, Ids;
    WorldKeeps(s, w);
    PumpFlushes(s.(ids := w.ids, sends := w.sends, calls := w.calls));
  }

  /** The timer of a server that is down puts a probe of it in flight, to that server and with an id that is free. */
  lemma ProbeIsSent(s: State, a: nat, w: World)
    requires Sound(s) && Enabled(s, ProbeTimer(a)) && w.sends == []
    ensures var s' := Step(s, ProbeTimer(a), w);
            && |s'.inflight| == |s.inflight| + 1 && s'.inflight[..|s.inflight|] == s.inflight && s'.waiting == s.waiting
            && var r := s'.inflight[|s.inflight|];
               && r.owner == Probe(a) && r.qtype == A && r.name == PROBE_NAME && r.ns == Some(a)
               && (forall i :: 0 <= i < |s.inflight| ==> s.inflight[i].transId != r.transId)
               && if At(s.ring, a).choked then r.transmitMe && r.sent == 0 else r.armed && r.sent == 1
  {
    hide Sound, Ids, At, RequestNew, TakeId, Transmit, InUse;
    var s0 := s.(ids := w.ids, sends := w.sends, calls := w.calls);
    WorldKeeps(s, w);
    ExactRing(s);
    NewProbe(s0, a);
    var (s1, r) := RequestNew(s0, Probe(a), A, PROBE_NAME);
    var (s2, id) := TakeId(s1);
    Distinct(s);
    FreeIdExists(s1.inflight);
    NotInUse(s.inflight, id);
    var s3 := Launch(s2, r.value.(transId := id, ns := Some(a)));
    TransmitOpen(s3, |s.inflight|);
    assert s3.inflight[..|s.inflight|] == s.inflight;
  }

  lemma NotInUse(q: seq<Request>, id: TransId)
    requires !InUse(q, id)
    ensures forall i :: 0 <= i < |q| ==> q[i].transId != id
  {}

  lemma NewProbe(s: State, a: nat)
    requires Apart(s.ring) && a in Ids(s.ring.servers)
    ensures var (s1, r) := RequestNew(s, Probe(a), A, PROBE_NAME);
            && s1 == s.(ring := s1.ring, ids := s1.ids)
            && r.Some?
            && r.value == Request(Probe(a), A, PROBE_NAME, 0, 0, r.value.ns, r.value.transId, false, false, NoSearch)
            && a in Ids(s1.ring.servers) && At(s1.ring, a) == At(s.ring, a)
  {
    hide Ids, At, TakeId, Pick, NameOk, Apart;
    assert NameOk(PROBE_NAME) by { ProbeNameOk(); }
    AtPick(s.ring, a);
  }

  lemma ProbeNameOk()
    ensures NameOk(PROBE_NAME)
  {
    DnsCompression.ShortName(PROBE_NAME);
  }

  // ---------- A new lookup ----------

  /** What sendto answers to the first packet */
  function FirstSend(w: World): (r: Send) {
    if w.sends == [] then Sent else w.sends[0]
  }

  /** The last request in flight is new, for the server b, and as sendto has answered. */
  ghost predicate IsSent(s: State, s': State, b: nat, w: World)
    requires b in Ids(s.ring.servers)
  {
    && |s'.inflight| == |s.inflight| + 1 && b in Ids(s'.ring.servers)
    && var r := s'.inflight[|s.inflight|];
       if At(s.ring, b).choked then r.ns == Some(b) && r.transmitMe && r.sent == 0
       else match FirstSend(w)
         case Sent => r.ns == Some(b) && r.armed && r.sent == 1 && !r.transmitMe
         case Again => r.ns == Some(b) && r.transmitMe && r.sent == 0 && At(s'.ring, b).choked
         case SendFailed => r.armed && r.sent == 1 && !r.transmitMe && !At(s'.ring, b).up
  }

  lemma LaunchIsSent(s: State, r: Request)
    requires Apart(s.ring) && r.ns.Some? && r.ns.value in Ids(s.ring.servers) && r.sent == 0
    ensures IsSent(s, Submit(s, r), r.ns.value, World(s.ids, s.sends, s.calls))
    ensures AskOf(Submit(s, r).inflight[|s.inflight|]) == AskOf(r) && Submit(s, r).waiting == s.waiting
  {
    hide Ids, At, SetServer, NameserverFailed, Apart;
    var s1, n, b := Launch(s, r), |s.inflight|, r.ns.value;
    TransmitIs(s1, n);
    assert SameKey(s1.inflight[n], Transmit(s1, n).inflight[n]);
    if !At(s.ring, b).choked && s.sends != [] {
      if s.sends[0] == Again {
        AgainChokes(s1, n);
      } else if s.sends[0] == SendFailed {
        AtIs(s.ring, b);
        FailedRing(SetReq(s1, n, s1.inflight[n].(transmitMe := true)).(sends := s.sends[1..]), b);
        StaysDown(s, b);
      }
    }
  }

  /** A lookup whose first name is accepted is sent to the next server in turn at once, if the limit leaves room and
      there is a server. Otherwise it is the last one to wait. */
  lemma LookupIsSent(s: State, qtype: QType, name: DnsNames.Text, noSearch: bool, w: World)
    requires Sound(s) && NameOk(FirstTry(s, name, noSearch || qtype == Ptr).0)
    ensures var s' := Step(s, ResolveName(qtype, name, noSearch), w);
            var (first, search) := FirstTry(s, name, noSearch || qtype == Ptr);
            var ask := Ask(User(s.nextLookup), qtype, first, search);
            if |s.inflight| < s.opts.limit && s.ring.servers != [] then
              && Pick(s.ring).1.Some? && Pick(s.ring).1.value in Ids(s.ring.servers)
              && IsSent(s, s', Pick(s.ring).1.value, w) && AskOf(s'.inflight[|s.inflight|]) == ask
              && s'.waiting == s.waiting
            else
              && s'.inflight == s.inflight && |s'.waiting| == |s.waiting| + 1 && s'.waiting[..|s.waiting|] == s.waiting
              && AskOf(s'.waiting[|s.waiting|]) == ask
  {
    hide Sound, Ids, At, Pick, FirstTry, NameOk, IsSent, Apart, Drift, RequestNew, Submit;
    Counters(s);
    ExactRing(s);
    PickKeepsRing(s.ring);
    PickApart(s.ring);
    var (first, search) := FirstTry(s, name, noSearch || qtype == Ptr);
    var l, s0 := s.nextLookup, s.(ids := w.ids, sends := w.sends, calls := w.calls, nextLookup := s.nextLookup + 1);
    SameTry(s, s.(ids := w.ids, sends := w.sends, calls := w.calls), name, noSearch || qtype == Ptr);
    NewRequest(s0, User(l), qtype, first);
    var (s1, r) := RequestNew(s0, User(l), qtype, first);
    var s2 := Log(s1.(accepted := s1.accepted + {l}), User(l), first);
    var r1 := r.value.(search := search);
    assert Step(s, ResolveName(qtype, name, noSearch), w) == Submit(s2, r1);
    if |s.inflight| < s.opts.limit && s.ring.servers != [] {
      var b := Pick(s.ring).1.value;
      LaunchIsSent(s2, r1);
      AtPick(s.ring, b);
      SentLater(s, s2, Submit(s2, r1), b, w);
    } else {
      EnqueueIs(s2, r1);
    }
  }

  lemma NewRequest(s: State, owner: Owner, qtype: QType, name: DnsNames.Text)
    requires NameOk(name)
    ensures var (s1, r) := RequestNew(s, owner, qtype, name);
            var (ring, ns) := if s.nInflight < s.opts.limit then Pick(s.ring) else (s.ring, None);
            && s1 == s.(ring := ring, ids := s1.ids)
            && r.Some? && r.value == Request(owner, qtype, name, 0, 0, ns, r.value.transId, false, false, NoSearch)
  {
    hide TakeId, Pick, NameOk;
  }

  lemma EnqueueIs(s: State, r: Request)
    requires r.ns.None?
    ensures Submit(s, r).inflight == s.inflight && Submit(s, r).waiting == s.waiting + [r]
  {}

  lemma SameTry(s: State, s': State, name: DnsNames.Text, noSearch: bool)
    requires s'.searches == s.searches && s'.globalSearch == s.globalSearch
    ensures FirstTry(s', name, noSearch) == FirstTry(s, name, noSearch)
  {}

  lemma SentLater(s: State, s1: State, s2: State, b: nat, w: World)
    requires b in Ids(s.ring.servers) && b in Ids(s1.ring.servers) && At(s1.ring, b) == At(s.ring, b)
    requires |s1.inflight| == |s.inflight| && s1.sends == w.sends
    requires IsSent(s1, s2, b, World(s1.ids, s1.sends, s1.calls))
    ensures IsSent(s, s2, b, w)
  {
    hide Ids, At;
  }
}
