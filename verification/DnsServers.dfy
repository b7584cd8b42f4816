/** The nameserver ring of evdns.c: health, round robin choice and the good-server counter.

    The ring is a sequence in `next` order whose first element is server_head; moving server_head on
    is a rotation. A server is known by a number of its own, so that one that has been freed is not
    taken for another at the same address. */
module DnsServers {

  import opened Basics

  datatype Server = Server(id: nat, address: nat, up: bool, failedTimes: nat, timedout: nat, choked: bool)

  /** The servers and global_good_nameservers. */
  datatype Ring = Ring(servers: seq<Server>, good: int)

  function UpCount(q: seq<Server>): (n: nat) {
    if q == [] then 0 else (if q[0].up then 1 else 0) + UpCount(q[1..])
  }

  /** The servers that are up, in ring order. */
  function UpList(q: seq<Server>): (a: seq<nat>) {
    if q == [] then [] else (if q[0].up then [q[0].id] else []) + UpList(q[1..])
  }

  function Ids(q: seq<Server>): (a: set<nat>) {
    if q == [] then {} else {q[0].id} + Ids(q[1..])
  }

  /** No server occurs twice. */
  ghost predicate Apart(r: Ring) {
    |Ids(r.servers)| == |r.servers|
  }

  /** By how much the counter of good servers is wrong */
  function Drift(r: Ring): (d: int) {
    r.good - UpCount(r.servers)
  }

  /** No server occurs twice, and the counter is the number of servers that are up. */
  ghost predicate RingOk(r: Ring) {
    Apart(r) && Drift(r) == 0
  }

  /** The same servers, and a counter that is wrong by as much. */
  ghost predicate SameRing(r: Ring, r': Ring) {
    (Apart(r) ==> Apart(r')) && Ids(r'.servers) == Ids(r.servers) && Drift(r') == Drift(r)
  }

  // ---------- Sums over the ring ----------

  lemma {:induction false} UpCountConcat(a: seq<Server>, b: seq<Server>)
    ensures UpCount(a + b) == UpCount(a) + UpCount(b)
  {
    if a == [] {
      assert a + b == b;
    } else {
      assert (a + b)[1..] == a[1..] + b;
      UpCountConcat(a[1..], b);
    }
  }

  lemma {:induction false} IdsConcat(a: seq<Server>, b: seq<Server>)
    ensures Ids(a + b) == Ids(a) + Ids(b)
  {
    if a == [] {
      assert a + b == b;
    } else {
      assert (a + b)[1..] == a[1..] + b;
      IdsConcat(a[1..], b);
    }
  }

  lemma {:induction false} UpListConcat(a: seq<Server>, b: seq<Server>)
    ensures UpList(a + b) == UpList(a) + UpList(b)
  {
    if a == [] {
      assert a + b == b;
    } else {
      assert (a + b)[1..] == a[1..] + b;
      UpListConcat(a[1..], b);
      var head := if a[0].up then [a[0].id] else [];
      assert head + (UpList(a[1..]) + UpList(b)) == head + UpList(a[1..]) + UpList(b);
    }
  }

  lemma {:induction false} UpListLength(q: seq<Server>)
    ensures |UpList(q)| == UpCount(q)
  {
    if q != [] { UpListLength(q[1..]); }
  }

  lemma {:induction false} UpListMember(q: seq<Server>, a: nat)
    ensures a in UpList(q) <==> exists i :: 0 <= i < |q| && q[i].up && q[i].id == a
  {
    if q != [] {
      UpListMember(q[1..], a);
      if i :| 0 <= i < |q| && q[i].up && q[i].id == a {
        if i > 0 { assert q[1..][i - 1] == q[i]; }
      }
      if i :| 0 <= i < |q[1..]| && q[1..][i].up && q[1..][i].id == a { assert q[i + 1] == q[1..][i]; }
    }
  }

  lemma UpdateSplits(q: seq<Server>, i: nat, s: Server)
    requires i < |q|
    ensures UpCount(q[i := s]) == UpCount(q) - (if q[i].up then 1 else 0) + (if s.up then 1 else 0)
    ensures s.id == q[i].id ==> Ids(q[i := s]) == Ids(q)
  {
    SplitAt(q, i);
    SplitAt(q[i := s], i);
    assert q[i := s][..i] == q[..i] && q[i := s][i + 1..] == q[i + 1..];
  }

  lemma SplitAt(q: seq<Server>, i: nat)
    requires i < |q|
    ensures UpCount(q) == UpCount(q[..i]) + (if q[i].up then 1 else 0) + UpCount(q[i + 1..])
    ensures Ids(q) == Ids(q[..i]) + {q[i].id} + Ids(q[i + 1..])
  {
    assert q == q[..i] + q[i..] && q[i..][1..] == q[i + 1..];
    UpCountConcat(q[..i], q[i..]);
    IdsConcat(q[..i], q[i..]);
  }

  // ---------- Choosing a server ----------

  /** server_head moved on n times */
  function Rotate(q: seq<Server>, n: nat): (r: seq<Server>)
    requires n <= |q|
    ensures |r| == |q|
  {
    q[n..] + q[..n]
  }

  /** The index of the first server that is up, or the length. */
  function FirstUp(q: seq<Server>, from: nat): (i: nat)
    requires from <= |q|
    ensures from <= i <= |q|
    ensures i < |q| ==> q[i].up
    ensures forall k :: from <= k < i ==> !q[k].up
    decreases |q| - from
  {
    if from == |q| || q[from].up then from else FirstUp(q, from + 1)
  }

  /** nameserver_pick. With no good server the head moves on and is returned; otherwise the first server
      found up is, and the head moves past it. The last case is the one its assertion rules out. */
  function Pick(r: Ring): (p: (Ring, Option<nat>))
  {
    var q := r.servers;
    if q == [] then (r, None)
    else if r.good == 0 then
      var q' := Rotate(q, 1);
      (r.(servers := q'), Some(q'[0].id))
    else
      var i := FirstUp(q, 0);
      if i < |q| then (r.(servers := Rotate(q, i + 1)), Some(q[i].id))
      else (r.(servers := Rotate(q, 1)), Some(q[0].id))
  }

  lemma Halves(q: seq<Server>, n: nat)
    requires n <= |q|
    ensures q == q[..n] + q[n..]
  {}

  lemma RotateKeeps(q: seq<Server>, n: nat)
    requires n <= |q|
    ensures UpCount(Rotate(q, n)) == UpCount(q)
    ensures Ids(Rotate(q, n)) == Ids(q)
  {
    hide UpCount, Ids;
    Halves(q, n);
    UpCountConcat(q[..n], q[n..]);
    UpCountConcat(q[n..], q[..n]);
    IdsConcat(q[..n], q[n..]);
    IdsConcat(q[n..], q[..n]);
  }

  lemma {:induction false} IdIn(q: seq<Server>, i: nat)
    requires i < |q|
    ensures q[i].id in Ids(q)
  {
    if i > 0 { IdIn(q[1..], i - 1); }
  }

  lemma {:induction false} NoneUp(q: seq<Server>)
    requires forall k :: 0 <= k < |q| ==> !q[k].up
    ensures UpCount(q) == 0
  {
    if q != [] { NoneUp(q[1..]); }
  }

  /** The choice keeps the ring and its counter, never fails on a non-empty ring, and returns a server
      that is up whenever there is one, so the assertion inside the source's loop cannot fail. */
  lemma PickIsGood(r: Ring)
    requires RingOk(r)
    ensures RingOk(Pick(r).0) && Pick(r).0.good == r.good
    ensures r.good > 0 ==> FirstUp(r.servers, 0) < |r.servers|
    ensures r.good > 0 ==> Pick(r).1.Some? && Pick(r).1.value in UpList(r.servers)
  {
    PickKeepsRing(r);
    var q := r.servers;
    if q != [] && r.good > 0 {
      var i := FirstUp(q, 0);
      if i == |q| { NoneUp(q); }
      UpListMember(q, q[i].id);
    }
  }

  /** Whatever the counter says, the choice only turns the ring, and gives one of its servers if there are any. */
  lemma PickKeepsRing(r: Ring)
    ensures SameRing(r, Pick(r).0)
    ensures Pick(r).1.Some? <==> r.servers != []
    ensures Pick(r).1.Some? ==> Pick(r).1.value in Ids(r.servers)
  {
    var q := r.servers;
    if q != [] {
      var i := FirstUp(q, 0);
      RotateKeeps(q, 1);
      IdIn(Rotate(q, 1), 0);
      IdIn(q, 0);
      if i < |q| {
        RotateKeeps(q, i + 1);
        IdIn(q, i);
      }
    }
  }

  // ---------- Fairness ----------

  /** The servers returned by n choices with no change of health in between, and the ring after them. */
  function Picks(r: Ring, n: nat): (p: (Ring, seq<Option<nat>>))
    ensures |p.1| == n
    decreases n
  {
    if n == 0 then (r, [])
    else
      var (r1, a) := Pick(r);
      var (r2, rest) := Picks(r1, n - 1);
      (r2, [a] + rest)
  }

  lemma PicksStep(r: Ring, n: nat, k: nat)
    requires k < n
    ensures Picks(r, n).1[k] == if k == 0 then Pick(r).1 else Picks(Pick(r).0, n - 1).1[k - 1]
  {
    hide Pick;
  }

  lemma {:induction false} UpListSkips(q: seq<Server>, i: nat)
    requires i == FirstUp(q, 0) < |q|
    ensures UpList(q) == [q[i].id] + UpList(q[i + 1..])
    ensures UpList(q[..i + 1]) == [q[i].id]
  {
    hide UpList, FirstUp;
    AllDown(q[..i]);
    Halves(q, i);
    UpListConcat(q[..i], q[i..]);
    assert q[..i + 1] == q[..i] + [q[i]];
    UpListConcat(q[..i], [q[i]]);
    UpListFirst([q[i]]);
    UpListFirst(q[i..]);
  }

  lemma UpListFirst(q: seq<Server>)
    requires q != [] && q[0].up
    ensures UpList(q) == [q[0].id] + UpList(q[1..]) && (|q| == 1 ==> UpList(q) == [q[0].id])
  {}

  lemma {:induction false} AllDown(q: seq<Server>)
    requires forall k :: 0 <= k < |q| ==> !q[k].up
    ensures UpList(q) == []
  {
    if q != [] { AllDown(q[1..]); }
  }

  /** A choice takes the first server in the order of the up servers and puts it behind the others. */
  lemma PickRotates(r: Ring)
    requires RingOk(r) && r.good > 0
    ensures var u := UpList(r.servers);
            && u != []
            && Pick(r).1 == Some(u[0])
            && UpList(Pick(r).0.servers) == u[1..] + [u[0]]
  {
    PickIsGood(r);
    var q := r.servers;
    var i := FirstUp(q, 0);
    UpListSkips(q, i);
    UpListConcat(q[i + 1..], q[..i + 1]);
  }

  /** Round robin: with the servers' health unchanged, the k-th choice is the k-th up server in ring
      order, counted cyclically, so every up server comes before any comes again. */
  lemma {:induction false} RoundRobin(r: Ring, n: nat, k: nat)
    requires RingOk(r) && r.good > 0 && k < n
    ensures |UpList(r.servers)| == r.good
    ensures Picks(r, n).1[k] == Some(UpList(r.servers)[k % r.good])
    decreases n
  {
    hide Pick, Picks, UpList, UpCount, Ids;
    UpListLength(r.servers);
    PickRotates(r);
    PickIsGood(r);
    PicksStep(r, n, k);
    var u := UpList(r.servers);
    var r1 := Pick(r).0;
    if k == 0 {
    } else {
      RoundRobin(r1, n - 1, k - 1);
      UpListLength(r1.servers);
      CyclicNext(k, r.good);
      var j := (k - 1) % r.good;
      assert (u[1..] + [u[0]])[j] == if j + 1 < |u| then u[j + 1] else u[0];
    }
  }

  /** With no good server the choice goes round all of them, from the one behind the head on. */
  lemma {:induction false} AllDownInTurn(r: Ring, n: nat, k: nat)
    requires r.servers != [] && r.good == 0 && k < n
    ensures Picks(r, n).1[k] == Some(r.servers[(k + 1) % |r.servers|].id)
    decreases n
  {
    hide Picks;
    PicksStep(r, n, k);
    var q, r1 := r.servers, Pick(r).0;
    assert r1 == r.(servers := Rotate(q, 1));
    CyclicNext(k + 1, |q|);
    if k == 0 {
      assert 0 % |q| == 0;
    } else {
      AllDownInTurn(r1, n - 1, k - 1);
      var j := k % |q|;
      assert Rotate(q, 1)[j] == if j + 1 < |q| then q[j + 1] else q[0];
    }
  }

  lemma {:induction false} IdsBound(q: seq<Server>)
    ensures |Ids(q)| <= |q|
  {
    if q != [] { IdsBound(q[1..]); }
  }

  lemma {:induction false} UpListDistinct(q: seq<Server>, i: nat, j: nat)
    requires |Ids(q)| == |q| && i < j < |UpList(q)|
    ensures UpList(q)[i] != UpList(q)[j]
  {
    var rest := q[1..];
    IdsBound(rest);
    assert q[0].id !in Ids(rest);
    if !q[0].up {
      UpListDistinct(rest, i, j);
    } else if i > 0 {
      UpListDistinct(rest, i - 1, j - 1);
    } else {
      UpListIds(rest, j - 1);
    }
  }

  lemma {:induction false} UpListIds(q: seq<Server>, i: nat)
    requires i < |UpList(q)|
    ensures UpList(q)[i] in Ids(q)
  {
    if !q[0].up { UpListIds(q[1..], i); } else if i > 0 { UpListIds(q[1..], i - 1); }
  }

  /** No server is chosen twice within as many choices as there are servers up. */
  lemma NoRepeatInATurn(r: Ring, n: nat, i: nat, j: nat)
    requires RingOk(r) && i < j < n && j < i + r.good
    ensures Picks(r, n).1[i] != Picks(r, n).1[j]
  {
    RoundRobin(r, n, i);
    RoundRobin(r, n, j);
    CyclicApart(i, j, r.good);
    var a, b := i % r.good, j % r.good;
    UpListDistinct(r.servers, if a < b then a else b, if a < b then b else a);
  }

  lemma CyclicApart(i: nat, j: nat, n: nat)
    requires i < j < i + n
    ensures i % n != j % n
  {
    if i % n == j % n {
      var d := j / n - i / n;
      assert n * d == j - i;
      MulBound(n, d);
      assert false;
    }
  }

  lemma CyclicNext(k: nat, n: nat)
    requires 0 < k && 0 < n
    ensures k % n == if (k - 1) % n + 1 < n then (k - 1) % n + 1 else 0
  {
    var q, j := (k - 1) / n, (k - 1) % n;
    assert k == q * n + (j + 1);
    if j + 1 < n {
      ModUnique(k, n, q, j + 1);
    } else {
      assert k == (q + 1) * n;
      ModUnique(k, n, q + 1, 0);
    }
  }

  lemma ModUnique(k: nat, n: nat, q: int, j: nat)
    requires 0 < n && j < n && k == q * n + j
    ensures k % n == j
  {
    var d := k / n - q;
    assert k == n * (k / n) + k % n;
    assert n * d == j - k % n;
    MulBound(n, d);
    assert d == 0;
  }

  lemma MulBound(n: nat, d: int)
    ensures d >= 1 ==> n * d >= n
    ensures d <= -1 ==> n * d <= 0 - n
  {
  }

  // ---------- Health ----------

  function IndexOf(q: seq<Server>, a: nat): (i: nat)
    requires a in Ids(q)
    ensures i < |q| && q[i].id == a
  {
    if q[0].id == a then 0 else 1 + IndexOf(q[1..], a)
  }

  /** Overwrites a server */
  function SetServer(r: Ring, s: Server): (r': Ring)
    requires s.id in Ids(r.servers)
  {
    r.(servers := r.servers[IndexOf(r.servers, s.id) := s])
  }

  function At(r: Ring, a: nat): (s: Server)
    requires a in Ids(r.servers)
    ensures s.id == a
  {
    r.servers[IndexOf(r.servers, a)]
  }

  /** The part of nameserver_failed that concerns the server */
  function MarkDown(r: Ring, a: nat): (r': Ring)
    requires a in Ids(r.servers)
  {
    var s := At(r, a);
    if !s.up then r else SetServer(r, s.(up := false, failedTimes := 1)).(good := r.good - 1)
  }

  /** nameserver_up */
  function MarkUp(r: Ring, a: nat): (r': Ring)
    requires a in Ids(r.servers)
  {
    var s := At(r, a);
    if s.up then r else SetServer(r, s.(up := true, failedTimes := 0, timedout := 0)).(good := r.good + 1)
  }

  lemma SetServerKeeps(r: Ring, s: Server)
    requires s.id in Ids(r.servers)
    ensures var r' := SetServer(r, s);
            && Ids(r'.servers) == Ids(r.servers) && |r'.servers| == |r.servers| && r'.good == r.good
            && UpCount(r'.servers) == UpCount(r.servers) - (if At(r, s.id).up then 1 else 0) + (if s.up then 1 else 0)
  {
    UpdateSplits(r.servers, IndexOf(r.servers, s.id), s);
  }

  /** Marking a server up or down changes the counter as it changes the number of servers that are up; an exact
      counter never goes below zero. */
  lemma MarkKeeps(r: Ring, a: nat)
    requires a in Ids(r.servers)
    ensures SameRing(r, MarkDown(r, a)) && SameRing(r, MarkUp(r, a))
    ensures Drift(r) == 0 ==> MarkDown(r, a).good >= 0
  {
    var s := At(r, a);
    SetServerKeeps(r, s.(up := false, failedTimes := 1));
    SetServerKeeps(r, s.(up := true, failedTimes := 0, timedout := 0));
  }

  predicate KnownAddress(q: seq<Server>, address: nat) {
    exists i :: 0 <= i < |q| && q[i].address == address
  }

  /** _evdns_nameserver_add_impl, with socket and event calls succeeding: a new server goes behind the
      head; a known address is refused. */
  function AddServer(r: Ring, id: nat, address: nat): (r': Ring)
  {
    if KnownAddress(r.servers, address) then r
    else
      var s := Server(id, address, true, 0, 0, false);
      var q := r.servers;
      Ring(if q == [] then [s] else q[..1] + [s] + q[1..], r.good + 1)
  }

  lemma AddServerKeeps(r: Ring, id: nat, address: nat)
    requires id !in Ids(r.servers)
    ensures Apart(r) ==> Apart(AddServer(r, id, address))
    ensures Drift(AddServer(r, id, address)) == Drift(r)
    ensures Ids(AddServer(r, id, address).servers) ==
            Ids(r.servers) + (if KnownAddress(r.servers, address) then {} else {id})
  {
    if !KnownAddress(r.servers, address) {
      var s := Server(id, address, true, 0, 0, false);
      Inserted(r.servers, s);
      assert id !in Ids(r.servers);
    }
  }

  predicate AddressesApart(q: seq<Server>) {
    forall i, j :: 0 <= i < j < |q| ==> q[i].address != q[j].address
  }

  /** No address is configured twice. */
  lemma AddedOnce(r: Ring, id: nat, address: nat)
    requires AddressesApart(r.servers)
    ensures AddressesApart(AddServer(r, id, address).servers)
  {
    var q, q' := r.servers, AddServer(r, id, address).servers;
    if q != [] && !KnownAddress(q, address) {
      forall k | 0 <= k < |q'| && k != 1 ensures q'[k] == (if k == 0 then q[0] else q[k - 1]) {}
    }
  }

  /** A new server goes behind the head: if that is up, the choice after the next one is the new server. */
  lemma AddedIsNext(r: Ring, id: nat, address: nat)
    requires r.good > 0 && r.servers != [] && r.servers[0].up && !KnownAddress(r.servers, address)
    ensures Picks(AddServer(r, id, address), 2).1 == [Some(r.servers[0].id), Some(id)]
  {
    var r1 := AddServer(r, id, address);
    var q := r1.servers;
    assert q[0] == r.servers[0] && q[1] == Server(id, address, true, 0, 0, false);
    assert FirstUp(q, 0) == 0;
    var r2 := Pick(r1).0;
    assert r2.servers[0] == q[1] && FirstUp(r2.servers, 0) == 0;
    PicksStep(r1, 2, 0);
    PicksStep(r1, 2, 1);
    PicksStep(r2, 1, 0);
  }

  lemma Inserted(q: seq<Server>, s: Server)
    ensures var q' := if q == [] then [s] else q[..1] + [s] + q[1..];
            Ids(q') == Ids(q) + {s.id} && UpCount(q') == UpCount(q) + (if s.up then 1 else 0)
  {
    if q == [] {
      assert [s][1..] == [];
    } else {
      var q' := q[..1] + [s] + q[1..];
      SplitAt(q', 1);
      assert q'[..1] == q[..1] && q'[2..] == q[1..] && q == q[..1] + q[1..];
      UpCountConcat(q[..1], q[1..]);
      IdsConcat(q[..1], q[1..]);
    }
  }

  // ---------- Servers that are down ----------

  /** The servers that are down */
  function DownSet(q: seq<Server>): (a: set<nat>) {
    if q == [] then {} else (if q[0].up then {} else {q[0].id}) + DownSet(q[1..])
  }

  lemma {:induction false} DownIn(q: seq<Server>)
    ensures DownSet(q) <= Ids(q)
  {
    if q != [] { DownIn(q[1..]); }
  }
}
