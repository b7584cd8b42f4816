/** The circular doubly linked lists evdns.c keeps its requests in. Requests are known by number and
    their next and prev pointers are kept in two maps, so that the pointer surgery of
    evdns_request_insert, of request_finished and of suspension is a handful of map updates. It is
    proved to act on the two queues as appending, dropping and prepending act on sequences. */
module RequestRing {

  import opened Basics
  import opened DnsServers
  import opened DnsRequests

  function After(i: nat, n: nat): (j: nat)
    requires i < n
    ensures j < n
  {
    if i + 1 < n then i + 1 else 0
  }

  function Before(i: nat, n: nat): (j: nat)
    requires i < n
    ensures j < n
  {
    if i == 0 then n - 1 else i - 1
  }

  ghost predicate Distinct(q: seq<nat>) {
    forall i, j :: 0 <= i < j < |q| ==> q[i] != q[j]
  }

  datatype Links = Links(next: map<nat, nat>, prev: map<nat, nat>)

  /** The i-th request of a queue points at its neighbours, cyclically. */
  ghost predicate LinkedAt(h: Links, q: seq<nat>, i: nat) {
    && i < |q|
    && q[i] in h.next && h.next[q[i]] == q[After(i, |q|)]
    && q[i] in h.prev && h.prev[q[i]] == q[Before(i, |q|)]
  }

  /** The list at `head` is the well-formed ring of the requests of q. */
  ghost predicate IsRing(h: Links, head: Option<nat>, q: seq<nat>) {
    && Distinct(q)
    && head == (if q == [] then None else Some(q[0]))
    && forall i :: 0 <= i < |q| ==> LinkedAt(h, q, i)
  }

  /** evdns_request_insert */
  function InsertLinks(h: Links, head: Option<nat>, req: nat): (p: (Links, Option<nat>))
    requires head.Some? ==> head.value in h.prev
  {
    if head.None? then (Links(h.next[req := req], h.prev[req := req]), Some(req))
    else
      var first := head.value;
      var last := h.prev[first];
      (Links(h.next[last := req][req := first], h.prev[req := last][first := req]), head)
  }

  /** The unlinking in request_finished and in the pump */
  function RemoveLinks(h: Links, head: Option<nat>, req: nat): (p: (Links, Option<nat>))
    requires req in h.next && req in h.prev
  {
    var after, before := h.next[req], h.prev[req];
    if after == req then (h, None)
    else (Links(h.next[before := after], h.prev[after := before]), if head == Some(req) then Some(after) else head)
  }

  lemma InsertRing(h: Links, head: Option<nat>, q: seq<nat>, req: nat)
    requires IsRing(h, head, q) && req !in q
    ensures head.Some? ==> head.value in h.prev
    ensures IsRing(InsertLinks(h, head, req).0, InsertLinks(h, head, req).1, q + [req])
  {
    if q != [] {
      assert LinkedAt(h, q, 0);
      assert LinkedAt(h, q, |q| - 1);
      var (h', head') := InsertLinks(h, head, req);
      var q' := q + [req];
      forall i | 0 <= i < |q'| ensures LinkedAt(h', q', i) {
        if i < |q| { assert LinkedAt(h, q, i); }
      }
    }
  }

  lemma RemoveRing(h: Links, head: Option<nat>, q: seq<nat>, k: nat)
    requires IsRing(h, head, q) && k < |q|
    ensures q[k] in h.next && q[k] in h.prev
    ensures IsRing(RemoveLinks(h, head, q[k]).0, RemoveLinks(h, head, q[k]).1, q[..k] + q[k + 1..])
  {
    assert LinkedAt(h, q, k);
    var n, q' := |q|, q[..k] + q[k + 1..];
    var (h', head') := RemoveLinks(h, head, q[k]);
    if n > 1 {
      assert q[After(k, n)] != q[k];
      DropDistinct(q, k);
      forall i | 0 <= i < n - 1 ensures LinkedAt(h', q', i) {
        var j := if i < k then i else i + 1;
        assert LinkedAt(h, q, j);
        DropAt(q, k, i);
        SameIndex(q, j, After(k, n));
        SameIndex(q, j, Before(k, n));
      }
    }
  }

  /** Where the neighbours of a request stand once the k-th is dropped. */
  lemma DropAt(q: seq<nat>, k: nat, i: nat)
    requires k < |q| && 1 < |q| && i < |q| - 1
    ensures var q' := q[..k] + q[k + 1..];
            var n := |q|;
            var j := if i < k then i else i + 1;
            && q'[i] == q[j]
            && q'[After(i, n - 1)] == q[if After(j, n) == k then After(k, n) else After(j, n)]
            && q'[Before(i, n - 1)] == q[if Before(j, n) == k then Before(k, n) else Before(j, n)]
  {
  }

  lemma DropDistinct(q: seq<nat>, k: nat)
    requires k < |q| && Distinct(q)
    ensures Distinct(q[..k] + q[k + 1..])
  {
  }

  lemma SameIndex(q: seq<nat>, a: nat, b: nat)
    requires a < |q| && b < |q| && Distinct(q)
    ensures q[a] == q[b] <==> a == b
  {
  }

  /** Moving the head back by one makes the last request the first. */
  lemma ShiftRing(h: Links, head: Option<nat>, q: seq<nat>)
    requires IsRing(h, head, q) && q != []
    ensures q[0] in h.prev
    ensures IsRing(h, Some(h.prev[q[0]]), [q[|q| - 1]] + q[..|q| - 1])
  {
    assert LinkedAt(h, q, 0);
    var n, q' := |q|, [q[|q| - 1]] + q[..|q| - 1];
    forall i | 0 <= i < n ensures LinkedAt(h, q', i) {
      assert LinkedAt(h, q, Before(i, n));
      ShiftAt(q, i);
    }
  }

  lemma ShiftAt(q: seq<nat>, i: nat)
    requires i < |q|
    ensures var q' := [q[|q| - 1]] + q[..|q| - 1];
            var n := |q|;
            var j := Before(i, n);
            q'[i] == q[j] && q'[After(i, n)] == q[After(j, n)] && q'[Before(i, n)] == q[Before(j, n)]
  {
  }

  /** A ring is untouched by changes to pointers of requests outside it. */
  lemma RingFrame(h: Links, h': Links, head: Option<nat>, q: seq<nat>)
    requires IsRing(h, head, q)
    requires forall x :: x in q && x in h.next ==> x in h'.next && h'.next[x] == h.next[x]
    requires forall x :: x in q && x in h.prev ==> x in h'.prev && h'.prev[x] == h.prev[x]
    ensures IsRing(h', head, q)
  {
    forall i | 0 <= i < |q| ensures LinkedAt(h', q, i) { assert LinkedAt(h, q, i) && q[i] in q; }
  }

  /** Only the list's own requests and the one inserted or removed have their pointers changed. */
  lemma SurgeryIsLocal(h: Links, head: Option<nat>, q: seq<nat>, req: nat, other: seq<nat>, otherHead: Option<nat>)
    requires IsRing(h, head, q) && IsRing(h, otherHead, other) && req !in other
    requires forall x :: x in q ==> x !in other
    ensures req !in q ==> (head.Some? ==> head.value in h.prev) && IsRing(InsertLinks(h, head, req).0, otherHead, other)
    ensures req in q ==> req in h.next && req in h.prev && IsRing(RemoveLinks(h, head, req).0, otherHead, other)
  {
    if req in q {
      var k :| 0 <= k < |q| && q[k] == req;
      assert LinkedAt(h, q, k);
      assert q[After(k, |q|)] in q && q[Before(k, |q|)] in q;
      RingFrame(h, RemoveLinks(h, head, req).0, otherHead, other);
    } else {
      if q != [] {
        assert LinkedAt(h, q, 0);
        assert q[Before(0, |q|)] in q && q[0] in q;
      }
      RingFrame(h, InsertLinks(h, head, req).0, otherHead, other);
    }
  }

  lemma SurgeryKeepsOther(h: Links, head: Option<nat>, q: seq<nat>, k: nat, other: seq<nat>, otherHead: Option<nat>,
                          keys: set<nat>)
    requires IsRing(h, head, q) && IsRing(h, otherHead, other) && Owned(keys, q, other, None) && k < |q|
    ensures q[k] !in other && q[k] in h.next && q[k] in h.prev && IsRing(RemoveLinks(h, head, q[k]).0, otherHead, other)
  {
    hide IsRing, RemoveLinks;
    assert q[k] in q;
    SurgeryIsLocal(h, head, q, q[k], other, otherHead);
  }

  lemma HeadOf(h: Links, head: Option<nat>, q: seq<nat>)
    requires IsRing(h, head, q)
    ensures head == (if q == [] then None else Some(q[0])) && Distinct(q)
  {
  }

  /** The k-th and later requests of q are still linked as they were. */
  ghost predicate LinkedFrom(h: Links, q: seq<nat>, k: nat) {
    forall i :: k <= i < |q| ==> LinkedAt(h, q, i)
  }

  ghost predicate AwayFrom(q: seq<nat>, k: nat, w: seq<nat>) {
    forall i :: k <= i < |q| ==> q[i] !in w
  }

  /** Suspension's insertion at the tail followed by moving the head back is a prepending, and it leaves
      the pointers of the requests still to be moved alone. */
  lemma RequeuedRing(h: Links, head: Option<nat>, w: seq<nat>, q: seq<nat>, k: nat)
    requires IsRing(h, head, w) && Distinct(q) && k < |q| && LinkedFrom(h, q, k) && AwayFrom(q, k, w)
    ensures head.Some? ==> head.value in h.prev
    ensures var (h', head') := InsertLinks(h, head, q[k]);
            && head'.Some? && head'.value in h'.prev
            && IsRing(h', Some(h'.prev[head'.value]), [q[k]] + w)
            && LinkedFrom(h', q, k + 1) && AwayFrom(q, k + 1, [q[k]] + w)
  {
    InsertRing(h, head, w, q[k]);
    var (h', head') := InsertLinks(h, head, q[k]);
    InsertedApart(h, head, w, q, k);
    var w' := w + [q[k]];
    HeadOf(h', head', w');
    ShiftRing(h', head', w');
    assert w'[..|w'| - 1] == w;
  }

  lemma InsertedApart(h: Links, head: Option<nat>, w: seq<nat>, q: seq<nat>, k: nat)
    requires IsRing(h, head, w) && Distinct(q) && k < |q| && LinkedFrom(h, q, k) && AwayFrom(q, k, w)
    requires head.Some? ==> head.value in h.prev
    ensures LinkedFrom(InsertLinks(h, head, q[k]).0, q, k + 1) && AwayFrom(q, k + 1, [q[k]] + w)
  {
    if w != [] {
      assert LinkedAt(h, w, 0);
      assert w[Before(0, |w|)] in w && w[0] in w;
    }
    forall i | k + 1 <= i < |q| ensures LinkedAt(InsertLinks(h, head, q[k]).0, q, i) && q[i] !in [q[k]] + w {
      assert LinkedAt(h, q, i);
      SameIndex(q, i, k);
    }
  }

  // ---------- Records ----------

  predicate Has(m: map<nat, Request>, q: seq<nat>) {
    forall i :: 0 <= i < |q| ==> q[i] in m
  }

  /** The requests of a queue */
  function Records(m: map<nat, Request>, q: seq<nat>): (rs: seq<Request>)
    requires Has(m, q)
    ensures |rs| == |q|
  {
    seq(|q|, i requires 0 <= i < |q| => m[q[i]])
  }

  /** Each request that is allocated is on one of the two lists, on both of none, or is the one being moved. */
  ghost predicate Owned(keys: set<nat>, q: seq<nat>, w: seq<nat>, loose: Option<nat>) {
    && (forall x :: x in keys <==> x in q || x in w || loose == Some(x))
    && (forall x :: x in q ==> x !in w)
    && (loose.Some? ==> loose.value !in q && loose.value !in w)
  }

  lemma OwnedHas(m: map<nat, Request>, q: seq<nat>, w: seq<nat>, loose: Option<nat>)
    requires Owned(m.Keys, q, w, loose)
    ensures Has(m, q) && Has(m, w) && (loose.Some? ==> loose.value in m)
  {
    forall i | 0 <= i < |q| ensures q[i] in m { assert q[i] in q; }
    forall i | 0 <= i < |w| ensures w[i] in m { assert w[i] in w; }
  }

  lemma RecordsAre(m: map<nat, Request>, q: seq<nat>)
    requires Has(m, q)
    ensures forall i :: 0 <= i < |q| ==> m[q[i]] == Records(m, q)[i]
  {
  }

  /** Overwriting a record of one list */
  lemma RecordSet(m: map<nat, Request>, q: seq<nat>, i: nat, r: Request)
    requires Has(m, q) && Distinct(q) && i < |q|
    ensures Has(m[q[i] := r], q) && Records(m[q[i] := r], q) == Records(m, q)[i := r]
  {
  }

  /** Records of a list do not depend on others. */
  lemma RecordOther(m: map<nat, Request>, q: seq<nat>, x: nat, r: Request)
    requires Has(m, q) && x !in q
    ensures Has(m[x := r], q) && Records(m[x := r], q) == Records(m, q)
    ensures Has(m - {x}, q) && Records(m - {x}, q) == Records(m, q)
  {
    forall i | 0 <= i < |q| ensures q[i] != x { assert q[i] in q; }
  }

  lemma RecordsMore(m: map<nat, Request>, q: seq<nat>, x: nat)
    requires Has(m, q) && x in m
    ensures Has(m, q + [x]) && Records(m, q + [x]) == Records(m, q) + [m[x]]
    ensures Has(m, [x] + q) && Records(m, [x] + q) == [m[x]] + Records(m, q)
  {
  }

  lemma RecordsDrop(m: map<nat, Request>, q: seq<nat>, k: nat)
    requires Has(m, q) && k < |q|
    ensures Has(m, q[..k] + q[k + 1..])
    ensures Records(m, q[..k] + q[k + 1..]) == Records(m, q)[..k] + Records(m, q)[k + 1..]
  {
  }

  lemma DropOwned(keys: set<nat>, q: seq<nat>, w: seq<nat>, k: nat)
    requires Owned(keys, q, w, None) && k < |q| && Distinct(q)
    ensures Owned(keys, q[..k] + q[k + 1..], w, Some(q[k])) && q[k] !in q[..k] + q[k + 1..]
    ensures Owned(keys - {q[k]}, q[..k] + q[k + 1..], w, None)
  {
    var q' := q[..k] + q[k + 1..];
    forall x ensures x in q <==> x in q' || x == q[k] {
      if x in q {
        var i :| 0 <= i < |q| && q[i] == x;
        if i < k { assert q'[i] == x; } else if i > k { assert q'[i - 1] == x; }
      }
    }
    forall i | 0 <= i < |q'| ensures q'[i] != q[k] { assert q'[i] == q[if i < k then i else i + 1]; }
  }

  /** req_head, req_waiting_head, their counters and all requests with their pointers. */
  class Queues {
    var reqs: map<nat, Request>
    var links: Links
    var reqHead: Option<nat>
    var waitingHead: Option<nat>
    var requestsInflight: int
    var requestsWaiting: int
    var unused: nat                      // numbers from here on have not been given to a request
    ghost var inflight: seq<nat>
    ghost var waiting: seq<nat>
    ghost var loose: Option<nat>         // a request that is on neither list yet

    /** Both lists are well-formed rings, no request is on both, each counter is the length of its list, and the
        requests allocated are those on the lists and the loose one. */
    ghost predicate Valid()
      reads this
    {
      && IsRing(links, reqHead, inflight)
      && IsRing(links, waitingHead, waiting)
      && requestsInflight == |inflight| && requestsWaiting == |waiting|
      && Owned(reqs.Keys, inflight, waiting, loose)
      && (forall x :: x in reqs ==> x < unused)
    }

    /** The requests in flight, from the head on */
    ghost function Flying(): (rs: seq<Request>)
      reads this
      requires Valid()
      ensures |rs| == |inflight|
    {
      OwnedHas(reqs, inflight, waiting, loose);
      Records(reqs, inflight)
    }

    /** The requests that wait, from the head on */
    ghost function Waiting(): (rs: seq<Request>)
      reads this
      requires Valid()
      ensures |rs| == |waiting|
    {
      OwnedHas(reqs, inflight, waiting, loose);
      Records(reqs, waiting)
    }

    /** Where a walk along the list in flight starts */
    lemma HeadIs()
      requires Valid()
      ensures reqHead == (if inflight == [] then None else Some(inflight[0]))
    {
    }

    /** Where it goes on, and that it is back at the head exactly after the last request */
    lemma NextIs(i: nat)
      requires Valid() && i < |inflight|
      ensures inflight[i] in links.next
      ensures i + 1 < |inflight| ==> links.next[inflight[i]] == inflight[i + 1] && reqHead != Some(inflight[i + 1])
      ensures i + 1 == |inflight| ==> reqHead == Some(links.next[inflight[i]])
    {
      assert LinkedAt(links, inflight, i);
    }

    lemma Counters()
      requires Valid()
      ensures requestsInflight == |inflight| && requestsWaiting == |waiting|
    {
    }

    lemma RecordIs(i: nat)
      requires Valid() && i < |inflight|
      ensures inflight[i] in reqs && reqs[inflight[i]] == Flying()[i]
    {
      OwnedHas(reqs, inflight, waiting, loose);
    }

    constructor ()
      ensures Valid() && inflight == [] && waiting == [] && loose == None
    {
      reqs, links, unused := map[], Links(map[], map[]), 0;
      reqHead, waitingHead := None, None;
      requestsInflight, requestsWaiting := 0, 0;
      inflight, waiting, loose := [], [], None;
    }

    /** A request is allocated. */
    method Allocate(r: Request) returns (req: nat)
      requires Valid() && loose == None
      modifies this
      ensures Valid() && loose == Some(req) && reqs == old(reqs)[req := r] && req !in old(reqs)
      ensures inflight == old(inflight) && waiting == old(waiting)
      ensures Flying() == old(Flying()) && Waiting() == old(Waiting())
    {
      hide IsRing;
      req := unused;
      OwnedHas(reqs, inflight, waiting, None);
      RecordOther(reqs, inflight, req, r);
      RecordOther(reqs, waiting, req, r);
      reqs := reqs[req := r];
      loose := Some(req);
      unused := unused + 1;
    }

    /** Fields of a request in flight are assigned. */
    method SetFlying(req: nat, r: Request, ghost k: nat)
      requires Valid() && k < |inflight| && inflight[k] == req
      modifies this`reqs
      ensures Valid() && reqs == old(reqs)[req := r]
      ensures Flying() == old(Flying())[k := r] && Waiting() == old(Waiting())
    {
      hide IsRing;
      HeadOf(links, reqHead, inflight);
      assert req in inflight;
      OwnedHas(reqs, inflight, waiting, loose);
      RecordSet(reqs, inflight, k, r);
      RecordOther(reqs, waiting, req, r);
      reqs := reqs[req := r];
    }

    /** Fields of the loose request are assigned. */
    method SetLoose(req: nat, r: Request)
      requires Valid() && loose == Some(req)
      modifies this`reqs
      ensures Valid() && reqs == old(reqs)[req := r]
      ensures Flying() == old(Flying()) && Waiting() == old(Waiting())
    {
      hide IsRing;
      OwnedHas(reqs, inflight, waiting, loose);
      RecordOther(reqs, inflight, req, r);
      RecordOther(reqs, waiting, req, r);
      reqs := reqs[req := r];
    }

    /** evdns_request_insert(req, &req_head), with the counter */
    method InsertInflight(req: nat)
      requires Valid() && loose == Some(req)
      modifies this
      ensures Valid() && loose == None && reqs == old(reqs)
      ensures inflight == old(inflight) + [req] && waiting == old(waiting)
      ensures req in reqs && Flying() == old(Flying()) + [reqs[req]] && Waiting() == old(Waiting())
    {
      hide IsRing, InsertLinks;
      OwnedHas(reqs, inflight, waiting, loose);
      InsertRing(links, reqHead, inflight, req);
      SurgeryIsLocal(links, reqHead, inflight, req, waiting, waitingHead);
      RecordsMore(reqs, inflight, req);
      var (h, head) := InsertLinks(links, reqHead, req);
      links, reqHead, requestsInflight := h, head, requestsInflight + 1;
      inflight, loose := inflight + [req], None;
    }

    /** evdns_request_insert(req, &req_waiting_head), with the counter */
    method InsertWaiting(req: nat)
      requires Valid() && loose == Some(req)
      modifies this
      ensures Valid() && loose == None && reqs == old(reqs)
      ensures inflight == old(inflight) && waiting == old(waiting) + [req]
      ensures req in reqs && Flying() == old(Flying()) && Waiting() == old(Waiting()) + [reqs[req]]
    {
      hide IsRing, InsertLinks;
      OwnedHas(reqs, inflight, waiting, loose);
      InsertRing(links, waitingHead, waiting, req);
      SurgeryIsLocal(links, waitingHead, waiting, req, inflight, reqHead);
      RecordsMore(reqs, waiting, req);
      var (h, head) := InsertLinks(links, waitingHead, req);
      links, waitingHead, requestsWaiting := h, head, requestsWaiting + 1;
      waiting, loose := waiting + [req], None;
    }

    /** request_finished(req, &req_head) up to the pump: the request is unlinked, counted off and freed. */
    method Unlink(req: nat, ghost k: nat)
      requires Valid() && loose == None && k < |inflight| && inflight[k] == req
      modifies this
      ensures Valid() && loose == None && reqs == old(reqs) - {req}
      ensures inflight == old(inflight)[..k] + old(inflight)[k + 1..] && waiting == old(waiting)
      ensures Flying() == old(Flying())[..k] + old(Flying())[k + 1..] && Waiting() == old(Waiting())
    {
      hide IsRing, RemoveLinks, Owned, Records, Distinct;
      HeadOf(links, reqHead, inflight);
      OwnedHas(reqs, inflight, waiting, loose);
      RemoveRing(links, reqHead, inflight, k);
      SurgeryKeepsOther(links, reqHead, inflight, k, waiting, waitingHead, reqs.Keys);
      DropOwned(reqs.Keys, inflight, waiting, k);
      RecordsDrop(reqs, inflight, k);
      RecordOther(reqs, inflight[..k] + inflight[k + 1..], req, reqs[req]);
      RecordOther(reqs, waiting, req, reqs[req]);
      var (h, head) := RemoveLinks(links, reqHead, req);
      links, reqHead, requestsInflight := h, head, requestsInflight - 1;
      reqs := reqs - {req};
      inflight := inflight[..k] + inflight[k + 1..];
    }

    /** The first half of the pump's turn: the head of the waiting list is unlinked and counted off. */
    method TakeFirst() returns (req: nat)
      requires Valid() && loose == None && waiting != []
      modifies this
      ensures Valid() && loose == Some(req) && reqs == old(reqs) && req in reqs
      ensures inflight == old(inflight) && waiting == old(waiting)[1..]
      ensures Flying() == old(Flying()) && Waiting() == old(Waiting())[1..] && reqs[req] == old(Waiting())[0]
    {
      hide IsRing, RemoveLinks, Owned, Records, Distinct;
      HeadOf(links, waitingHead, waiting);
      OwnedHas(reqs, inflight, waiting, loose);
      RecordsAre(reqs, waiting);
      req := waitingHead.value;
      RemoveRing(links, waitingHead, waiting, 0);
      OwnedSwap(reqs.Keys, inflight, waiting, None);
      SurgeryKeepsOther(links, waitingHead, waiting, 0, inflight, reqHead, reqs.Keys);
      DropOwned(reqs.Keys, waiting, inflight, 0);
      RecordsDrop(reqs, waiting, 0);
      assert waiting[..0] + waiting[1..] == waiting[1..];
      assert Records(reqs, waiting)[..0] + Records(reqs, waiting)[1..] == Records(reqs, waiting)[1..];
      OwnedSwap(reqs.Keys, waiting[1..], inflight, Some(req));
      var (h, head) := RemoveLinks(links, waitingHead, req);
      links, waitingHead, requestsWaiting := h, head, requestsWaiting - 1;
      waiting, loose := waiting[1..], Some(req);
    }

    /** The first k requests of the list q, which was in flight, have been reset and requeued. */
    ghost predicate Requeued(q: seq<nat>, k: nat, was: seq<Request>, ids: seq<nat>, wait: seq<Request>)
      reads this
    {
      && k <= |q| == |was| && Distinct(q) && LinkedFrom(links, q, k) && AwayFrom(q, k, waiting)
      && IsRing(links, waitingHead, waiting) && waiting == Reverse(q[..k]) + ids
      && Has(reqs, q) && Has(reqs, waiting) && (forall i :: k <= i < |q| ==> reqs[q[i]] == was[i])
      && Records(reqs, waiting) == Suspended(was[..k], wait)
    }

    /** One turn of suspension: a request is reset and inserted at the tail of the waiting list, whose head then moves
        back to it. */
    method Requeue(req: nat, ghost q: seq<nat>, ghost k: nat, ghost was: seq<Request>, ghost ids: seq<nat>,
                   ghost wait: seq<Request>) returns (next: nat)
      requires Requeued(q, k, was, ids, wait) && k < |q| && q[k] == req
      modifies this`links, this`waitingHead, this`waiting, this`reqs, this`requestsWaiting
      ensures Requeued(q, k + 1, was, ids, wait) && reqs.Keys == old(reqs.Keys)
      ensures requestsWaiting == old(requestsWaiting) + 1 && next == q[After(k, |q|)]
    {
      hide IsRing, InsertLinks, AwayFrom, LinkedFrom, Records, Suspended;
      NextOf(links, q, k);
      next := links.next[req];
      RequeuedRecord(reqs, waiting, q, k, was, wait);
      reqs := reqs[req := Reset(reqs[req])];
      requestsWaiting := requestsWaiting + 1;
      RequeuedRing(links, waitingHead, waiting, q, k);
      var (h, head) := InsertLinks(links, waitingHead, req);
      links, waitingHead := h, Some(h.prev[head.value]);
      waiting := [req] + waiting;
      assert q[..k + 1] == q[..k] + [q[k]];
      ReverseMore(q[..k], q[k]);
    }

    /** evdns_clear_nameservers_and_suspend: the list in flight is walked from the head on. It is not unlinked; its head
        is cleared at the end. */
    method Suspend()
      requires Valid() && loose == None
      modifies this
      ensures Valid() && loose == None && inflight == [] && waiting == Reverse(old(inflight)) + old(waiting)
      ensures Waiting() == Suspended(old(Flying()), old(Waiting()))
    {
      hide IsRing, AwayFrom, LinkedFrom, Owned, Records, Suspended, Requeued;
      HeadOf(links, reqHead, inflight);
      ghost var q, k, was, wait, keys := inflight, 0, Flying(), Waiting(), reqs.Keys;
      if reqHead.Some? {
        var first := reqHead.value;
        var req := first;
        StartRequeue();
        while true
          invariant 0 <= k < |q| && req == q[k] && first == q[0]
          invariant Requeued(q, k, was, old(waiting), wait)
          invariant reqs.Keys == keys && requestsWaiting == old(requestsWaiting) + k
          invariant loose == None && unused == old(unused)
          decreases |q| - k
        {
          var next := Requeue(req, q, k, was, old(waiting), wait);
          SameIndex(q, After(k, |q|), 0);
          if next == first {
            break;
          }
          req, k := next, k + 1;
        }
        AllRequeued(q, was, old(waiting), wait);
        SuspendedOwned(keys, q, old(waiting));
      } else {
        SuspendedNone(Waiting());
      }
      reqHead, requestsInflight := None, 0;
      inflight := [];
      EmptyRing(links);
    }

    lemma StartRequeue()
      requires Valid() && loose == None
      ensures Requeued(inflight, 0, Flying(), waiting, Waiting())
    {
      hide IsRing, Suspended;
      OwnedHas(reqs, inflight, waiting, loose);
      HeadOf(links, reqHead, inflight);
      StartApart(links, reqHead, inflight, waiting, reqs.Keys);
      RecordsAre(reqs, inflight);
      SuspendedNone(Waiting());
    }

    lemma AllRequeued(q: seq<nat>, was: seq<Request>, ids: seq<nat>, wait: seq<Request>)
      requires Requeued(q, |q|, was, ids, wait)
      ensures IsRing(links, waitingHead, waiting) && waiting == Reverse(q) + ids && Has(reqs, waiting)
      ensures Records(reqs, waiting) == Suspended(was, wait)
    {
      hide IsRing, AwayFrom, LinkedFrom, Records, Suspended;
      assert q[..|q|] == q && was[..|was|] == was;
    }
  }

  lemma EmptyRing(h: Links)
    ensures IsRing(h, None, [])
  {
  }

  lemma NextOf(h: Links, q: seq<nat>, k: nat)
    requires k < |q| && LinkedFrom(h, q, k)
    ensures q[k] in h.next && h.next[q[k]] == q[After(k, |q|)]
  {
    assert LinkedAt(h, q, k);
  }

  lemma StartApart(h: Links, head: Option<nat>, q: seq<nat>, w: seq<nat>, keys: set<nat>)
    requires IsRing(h, head, q) && Owned(keys, q, w, None)
    ensures LinkedFrom(h, q, 0) && AwayFrom(q, 0, w)
  {
  }

  lemma OwnedSwap(keys: set<nat>, q: seq<nat>, w: seq<nat>, loose: Option<nat>)
    requires Owned(keys, q, w, loose)
    ensures Owned(keys, w, q, loose)
  {
  }

  lemma SuspendedNone(w: seq<Request>)
    ensures Suspended([], w) == w
  {
  }

  lemma {:induction false} SuspendedMore(q: seq<Request>, r: Request, w: seq<Request>)
    ensures Suspended(q + [r], w) == [Reset(r)] + Suspended(q, w)
  {
    if q == [] {
      assert [r][1..] == [];
    } else {
      assert (q + [r])[1..] == q[1..] + [r];
      SuspendedMore(q[1..], r, [Reset(q[0])] + w);
    }
  }

  /** The k-th request is reset and stands before those requeued before it. */
  lemma RequeuedRecord(m: map<nat, Request>, w: seq<nat>, q: seq<nat>, k: nat, was: seq<Request>, wait: seq<Request>)
    requires Has(m, q) && Has(m, w) && Distinct(q) && k < |q| == |was| && AwayFrom(q, k, w)
    requires (forall i :: k <= i < |q| ==> m[q[i]] == was[i]) && Records(m, w) == Suspended(was[..k], wait)
    ensures var m' := m[q[k] := Reset(m[q[k]])];
            && m'.Keys == m.Keys && Has(m', q) && Has(m', [q[k]] + w)
            && (forall i :: k + 1 <= i < |q| ==> m'[q[i]] == was[i])
            && Records(m', [q[k]] + w) == Suspended(was[..k + 1], wait)
  {
    var m' := m[q[k] := Reset(m[q[k]])];
    RecordOther(m, w, q[k], Reset(m[q[k]]));
    RecordsMore(m', w, q[k]);
    SuspendedMore(was[..k], was[k], wait);
    assert was[..k + 1] == was[..k] + [was[k]];
  }

  lemma SuspendedOwned(keys: set<nat>, q: seq<nat>, w: seq<nat>)
    requires Owned(keys, q, w, None)
    ensures Owned(keys, [], Reverse(q) + w, None)
  {
    forall x ensures x in Reverse(q) <==> x in q { ReverseMember(q, x); }
  }

  lemma {:induction false} ReverseMember(q: seq<nat>, x: nat)
    ensures x in Reverse(q) <==> x in q
  {
    if q != [] {
      ReverseMember(q[1..], x);
      assert q == [q[0]] + q[1..];
    }
  }

  ghost function Reverse(q: seq<nat>): (r: seq<nat>)
    ensures |r| == |q|
  {
    if q == [] then [] else Reverse(q[1..]) + [q[0]]
  }

  lemma {:induction false} ReverseMore(q: seq<nat>, x: nat)
    ensures Reverse(q + [x]) == [x] + Reverse(q)
  {
    if q == [] {
      assert Reverse([x]) == Reverse([]) + [x];
    } else {
      assert (q + [x])[1..] == q[1..] + [x];
      ReverseMore(q[1..], x);
    }
  }
}
