/** Payload types in SdpInfo.cpp: the order of the m-lines, the negotiation of codecs, and the two maps between
    the payload types of the peer and the internal ones. */
module SdpPayload {

  datatype RtpMap = RtpMap(
    pt: nat, name: string, clock: nat, video: bool, channels: nat, feedback: seq<string>, params: map<string, string>)

  // ---------- The order of the m-lines ----------

  /** parsed_order_map after the payload types of the m-lines */
  function OrderOf(pts: seq<nat>): (order: map<nat, nat>) {
    if pts == [] then map[]
    else
      var order := OrderOf(pts[..|pts| - 1]);
      var pt := pts[|pts| - 1];
      if pt in order then order else order[pt := |order|]
  }

  function FirstIndex(pts: seq<nat>, pt: nat): (i: nat)
    ensures i <= |pts| && (i < |pts| ==> pts[i] == pt) && (forall k :: 0 <= k < i ==> pts[k] != pt)
  {
    if pts == [] || pts[0] == pt then 0 else FirstIndex(pts[1..], pt) + 1
  }

  lemma FirstIndexGrows(pts: seq<nat>, more: seq<nat>, pt: nat)
    ensures pt in pts ==> FirstIndex(pts + more, pt) == FirstIndex(pts, pt) < |pts|
    ensures pt !in pts ==> FirstIndex(pts + more, pt) >= |pts|
  {
    var i := FirstIndex(pts, pt);
    var j := FirstIndex(pts + more, pt);
    if pt in pts {
      assert i < |pts|;
      assert (pts + more)[i] == pt;
    }
  }

  lemma {:induction false} OrderKeys(pts: seq<nat>)
    ensures forall pt :: pt in OrderOf(pts) <==> pt in pts
    ensures forall pt :: pt in pts ==> OrderOf(pts)[pt] < |OrderOf(pts)|
  {
    if pts != [] {
      assert pts == pts[..|pts| - 1] + [pts[|pts| - 1]];
      OrderKeys(pts[..|pts| - 1]);
    }
  }

  lemma {:induction false} OrderOfTwo(pts: seq<nat>, a: nat, b: nat)
    requires a in pts && b in pts
    ensures a in OrderOf(pts) && b in OrderOf(pts)
    ensures OrderOf(pts)[a] < OrderOf(pts)[b] <==> FirstIndex(pts, a) < FirstIndex(pts, b)
  {
    var init, last := pts[..|pts| - 1], pts[|pts| - 1];
    assert pts == init + [last];
    OrderKeys(init);
    OrderKeys(pts);
    FirstIndexGrows(init, [last], a);
    FirstIndexGrows(init, [last], b);
    if a in init && b in init { OrderOfTwo(init, a, b); }
  }

  /** The order map ranks exactly the payload types of the m-lines, by their first appearance. */
  lemma OrderIsFirstAppearance(pts: seq<nat>)
    ensures forall pt :: pt in OrderOf(pts) <==> pt in pts
    ensures forall a, b :: a in pts && b in pts ==>
              (OrderOf(pts)[a] < OrderOf(pts)[b] <==> FirstIndex(pts, a) < FirstIndex(pts, b))
  {
    hide OrderOf, FirstIndex;
    OrderKeys(pts);
    forall a, b | a in pts && b in pts
      ensures OrderOf(pts)[a] < OrderOf(pts)[b] <==> FirstIndex(pts, a) < FirstIndex(pts, b)
    {
      OrderOfTwo(pts, a, b);
    }
  }

  /** The loop over the pieces of an m-line */
  method ReadMLine(pts: seq<nat>) returns (order: map<nat, nat>)
    ensures order == OrderOf(pts)
  {
    order := map[];
    var i := 0;
    while i < |pts|
      invariant 0 <= i <= |pts| && order == OrderOf(pts[..i])
    {
      assert pts[..i + 1][..i] == pts[..i];
      if pts[i] !in order { order := order[pts[i] := |order|]; }
      i := i + 1;
    }
    assert pts[..i] == pts;
  }

  // ---------- Negotiation ----------

  predicate Matches(e: RtpMap, q: RtpMap) {
    e.name == q.name && e.clock == q.clock
  }

  function Times(x: string, ys: seq<string>): (r: seq<string>) {
    if ys == [] then [] else Times(x, ys[..|ys| - 1]) + if ys[|ys| - 1] == x then [x] else []
  }

  /** The feedback lines that both sides name */
  function Common(xs: seq<string>, ys: seq<string>): (r: seq<string>) {
    if xs == [] then [] else Common(xs[..|xs| - 1], ys) + Times(xs[|xs| - 1], ys)
  }

  function CommonParams(e: RtpMap, q: RtpMap): (r: map<string, string>) {
    if |e.params| != |q.params| then map[]
    else map k | k in e.params && k in q.params && e.params[k] == q.params[k] :: e.params[k]
  }

  function Negotiated(e: RtpMap, q: RtpMap): (r: RtpMap) {
    var params := CommonParams(e, q);
    q.(channels := e.channels, feedback := Common(e.feedback, q.feedback),
       params := if params == map[] then q.params else params)
  }

  datatype Nego = Nego(outIn: map<nat, nat>, inOut: map<nat, nat>, payloads: seq<RtpMap>, video: nat, audio: nat)

  predicate Agrees(e: RtpMap, q: RtpMap, order: map<nat, nat>) {
    Matches(e, q) && q.pt in order
  }

  /** The body of the two loops of postProcessInfo */
  function Negotiate1(n: Nego, e: RtpMap, q: RtpMap, order: map<nat, nat>): (n': Nego) {
    if !Agrees(e, q, order) then n
    else Nego(
      n.outIn[q.pt := e.pt], n.inOut[e.pt := q.pt],
      if e.params == map[] || |q.params| == |CommonParams(e, q)| then n.payloads + [Negotiated(e, q)] else n.payloads,
      if q.video then n.video + 1 else n.video, if q.video then n.audio else n.audio + 1)
  }

  function Inner(n: Nego, e: RtpMap, parsed: seq<RtpMap>, order: map<nat, nat>): (n': Nego) {
    if parsed == [] then n
    else Negotiate1(Inner(n, e, parsed[..|parsed| - 1], order), e, parsed[|parsed| - 1], order)
  }

  function Outer(es: seq<RtpMap>, parsed: seq<RtpMap>, order: map<nat, nat>): (n: Nego) {
    if es == [] then Nego(map[], map[], [], 0, 0)
    else Inner(Outer(es[..|es| - 1], parsed, order), es[|es| - 1], parsed, order)
  }

  /** payload_parsed_map_ in the order in which it is walked */
  predicate Ascending(parsed: seq<RtpMap>) {
    forall i, j :: 0 <= i < j < |parsed| ==> parsed[i].pt < parsed[j].pt
  }

  // ---------- The maps invert each other ----------

  ghost predicate Linked(es: seq<RtpMap>, parsed: seq<RtpMap>, order: map<nat, nat>, i: nat, p: nat) {
    exists e, q :: e in es && q in parsed && e.pt == i && q.pt == p && Agrees(e, q, order)
  }

  ghost predicate Traced(n: Nego, es: seq<RtpMap>, parsed: seq<RtpMap>, order: map<nat, nat>) {
    && (forall p :: p in n.outIn ==> Linked(es, parsed, order, n.outIn[p], p))
    && (forall i :: i in n.inOut ==> n.inOut[i] in n.outIn && Linked(es, parsed, order, i, n.inOut[i]))
  }

  lemma Traced1(n: Nego, es: seq<RtpMap>, parsed: seq<RtpMap>, order: map<nat, nat>, e: RtpMap, q: RtpMap)
    requires Traced(n, es, parsed, order) && e in es && q in parsed
    ensures Traced(Negotiate1(n, e, q, order), es, parsed, order)
  {
    if Agrees(e, q, order) { assert Linked(es, parsed, order, e.pt, q.pt); }
  }

  lemma {:induction false} TracedInner(
      n: Nego, es: seq<RtpMap>, parsed: seq<RtpMap>, order: map<nat, nat>, e: RtpMap, some: seq<RtpMap>)
    requires Traced(n, es, parsed, order) && e in es && forall q :: q in some ==> q in parsed
    ensures Traced(Inner(n, e, some, order), es, parsed, order)
    decreases |some|
  {
    if some != [] {
      TracedInner(n, es, parsed, order, e, some[..|some| - 1]);
      Traced1(Inner(n, e, some[..|some| - 1], order), es, parsed, order, e, some[|some| - 1]);
    }
  }

  lemma {:induction false} TracedOuter(es: seq<RtpMap>, parsed: seq<RtpMap>, order: map<nat, nat>, some: seq<RtpMap>)
    requires forall e :: e in some ==> e in es
    ensures Traced(Outer(some, parsed, order), es, parsed, order)
    decreases |some|
  {
    if some != [] {
      var init := some[..|some| - 1];
      TracedOuter(es, parsed, order, init);
      TracedInner(Outer(init, parsed, order), es, parsed, order, some[|some| - 1], parsed);
    }
  }

  /** What is internal and has been negotiated is found again from what it is called outside. */
  predicate Inverts(n: Nego) {
    forall i :: i in n.inOut ==> n.inOut[i] in n.outIn && n.outIn[n.inOut[i]] == i
  }

  /** Internal codecs of the same name and clock have the same payload type. */
  predicate Consistent(es: seq<RtpMap>) {
    forall a, b :: 0 <= a < |es| && 0 <= b < |es| && Matches(es[a], es[b]) ==> es[a].pt == es[b].pt
  }

  lemma LinkedOnce(es: seq<RtpMap>, parsed: seq<RtpMap>, order: map<nat, nat>, i: nat, j: nat, p: nat)
    requires Consistent(es) && Ascending(parsed)
    requires Linked(es, parsed, order, i, p) && Linked(es, parsed, order, j, p)
    ensures i == j
  {
    var e, q :| e in es && q in parsed && e.pt == i && q.pt == p && Agrees(e, q, order);
    var f, r :| f in es && r in parsed && f.pt == j && r.pt == p && Agrees(f, r, order);
    var a :| 0 <= a < |es| && es[a] == e;
    var b :| 0 <= b < |es| && es[b] == f;
    var c :| 0 <= c < |parsed| && parsed[c] == q;
    var d :| 0 <= d < |parsed| && parsed[d] == r;
    assert c == d;
    assert Matches(es[a], es[b]);
  }

  lemma ConsistentInverts(es: seq<RtpMap>, parsed: seq<RtpMap>, order: map<nat, nat>)
    requires Consistent(es) && Ascending(parsed)
    ensures Inverts(Outer(es, parsed, order))
  {
    var n := Outer(es, parsed, order);
    TracedOuter(es, parsed, order, es);
    forall i | i in n.inOut ensures n.inOut[i] in n.outIn && n.outIn[n.inOut[i]] == i {
      LinkedOnce(es, parsed, order, n.outIn[n.inOut[i]], i, n.inOut[i]);
    }
  }

  lemma {:induction false} InnerGrows(n: Nego, e: RtpMap, parsed: seq<RtpMap>, order: map<nat, nat>)
    ensures n.inOut.Keys <= Inner(n, e, parsed, order).inOut.Keys
    ensures n.outIn.Keys <= Inner(n, e, parsed, order).outIn.Keys
    ensures forall q :: q in parsed && Agrees(e, q, order) ==>
              e.pt in Inner(n, e, parsed, order).inOut && q.pt in Inner(n, e, parsed, order).outIn
    decreases |parsed|
  {
    if parsed != [] {
      var init := parsed[..|parsed| - 1];
      assert parsed == init + [parsed[|parsed| - 1]];
      InnerGrows(n, e, init, order);
    }
  }

  /** Every offered codec that has an internal counterpart is negotiated. */
  lemma {:induction false} NothingMissed(es: seq<RtpMap>, parsed: seq<RtpMap>, order: map<nat, nat>,
                                         e: RtpMap, q: RtpMap)
    requires e in es && q in parsed && Agrees(e, q, order)
    ensures e.pt in Outer(es, parsed, order).inOut && q.pt in Outer(es, parsed, order).outIn
    decreases |es|
  {
    var init, last := es[..|es| - 1], es[|es| - 1];
    assert es == init + [last];
    InnerGrows(Outer(init, parsed, order), last, parsed, order);
    if e != last { NothingMissed(init, parsed, order, e, q); }
  }

  /** Two internal codecs that differ only in their payload type cannot both be found again. */
  lemma InconsistentFails(es: seq<RtpMap>) returns (parsed: seq<RtpMap>, pts: seq<nat>)
    requires !Consistent(es)
    ensures Ascending(parsed) && !Inverts(Outer(es, parsed, OrderOf(pts)))
  {
    var a, b :| 0 <= a < |es| && 0 <= b < |es| && Matches(es[a], es[b]) && es[a].pt != es[b].pt;
    var q := RtpMap(0, es[a].name, es[a].clock, false, 0, [], map[]);
    parsed, pts := [q], [0];
    OrderIsFirstAppearance(pts);
    var order := OrderOf(pts);
    var n := Outer(es, parsed, order);
    NothingMissed(es, parsed, order, es[a], q);
    NothingMissed(es, parsed, order, es[b], q);
    TracedOuter(es, parsed, order, es);
    assert n.inOut[es[a].pt] == 0 && n.inOut[es[b].pt] == 0 by {
      assert Linked(es, parsed, order, es[a].pt, n.inOut[es[a].pt]);
      assert Linked(es, parsed, order, es[b].pt, n.inOut[es[b].pt]);
    }
  }

  /** The two maps invert each other for every offer if and only if internal codecs of the same name and clock
      have the same payload type. */
  lemma MapsInvert(es: seq<RtpMap>)
    ensures (forall parsed, pts :: Ascending(parsed) ==> Inverts(Outer(es, parsed, OrderOf(pts)))) <==> Consistent(es)
  {
    if Consistent(es) {
      forall parsed, pts | Ascending(parsed) ensures Inverts(Outer(es, parsed, OrderOf(pts))) {
        ConsistentInverts(es, parsed, OrderOf(pts));
      }
    } else {
      var parsed, pts := InconsistentFails(es);
    }
  }

  // ---------- The other way round ----------

  /** The payload types of the internal codecs are distinct. */
  predicate DistinctTypes(es: seq<RtpMap>) {
    forall a, b :: 0 <= a < b < |es| ==> es[a].pt != es[b].pt
  }

  lemma {:induction false} InnerOthers(n: Nego, e: RtpMap, parsed: seq<RtpMap>, order: map<nat, nat>, i: nat)
    requires i in n.inOut && i != e.pt
    ensures i in Inner(n, e, parsed, order).inOut && Inner(n, e, parsed, order).inOut[i] == n.inOut[i]
    decreases |parsed|
  {
    if parsed != [] { InnerOthers(n, e, parsed[..|parsed| - 1], order, i); }
  }

  lemma {:induction false} InnerLast(n: Nego, e: RtpMap, parsed: seq<RtpMap>, order: map<nat, nat>, q: RtpMap)
    requires Ascending(parsed) && q in parsed && Agrees(e, q, order)
    ensures var n' := Inner(n, e, parsed, order); e.pt in n'.inOut && q.pt <= n'.inOut[e.pt]
    decreases |parsed|
  {
    var init, last := parsed[..|parsed| - 1], parsed[|parsed| - 1];
    assert parsed == init + [last];
    var k :| 0 <= k < |parsed| && parsed[k] == q;
    assert q.pt <= last.pt;
    if k < |init| {
      assert init[k] == q;
      InnerLast(n, e, init, order, q);
    }
  }

  lemma {:induction false} GreatestWins(es: seq<RtpMap>, parsed: seq<RtpMap>, order: map<nat, nat>,
                                         e: RtpMap, q: RtpMap)
    requires DistinctTypes(es) && Ascending(parsed) && e in es && q in parsed && Agrees(e, q, order)
    ensures var n := Outer(es, parsed, order); e.pt in n.inOut && q.pt <= n.inOut[e.pt]
    decreases |es|
  {
    var init, last := es[..|es| - 1], es[|es| - 1];
    assert es == init + [last];
    if e == last {
      InnerLast(Outer(init, parsed, order), last, parsed, order, q);
    } else {
      var k :| 0 <= k < |init| && init[k] == e;
      assert es[k] == e;
      GreatestWins(init, parsed, order, e, q);
      InnerOthers(Outer(init, parsed, order), last, parsed, order, e.pt);
    }
  }

  /** From outside, a payload type is found again if and only if it is the greatest one offered for its codec. */
  lemma OutsideReadsBack(es: seq<RtpMap>, parsed: seq<RtpMap>, order: map<nat, nat>, e: RtpMap, q: RtpMap)
    requires DistinctTypes(es) && Consistent(es) && Ascending(parsed)
    requires e in es && q in parsed && Agrees(e, q, order)
    ensures var n := Outer(es, parsed, order);
            && q.pt in n.outIn && n.outIn[q.pt] == e.pt && e.pt in n.inOut
            && (n.inOut[n.outIn[q.pt]] == q.pt <==> forall r :: r in parsed && Agrees(e, r, order) ==> r.pt <= q.pt)
  {
    var n := Outer(es, parsed, order);
    NothingMissed(es, parsed, order, e, q);
    TracedOuter(es, parsed, order, es);
    assert Linked(es, parsed, order, e.pt, q.pt);
    LinkedOnce(es, parsed, order, n.outIn[q.pt], e.pt, q.pt);
    GreatestWins(es, parsed, order, e, q);
    var f, r :| f in es && r in parsed && f.pt == e.pt && r.pt == n.inOut[e.pt] && Agrees(f, r, order);
    SameType(es, e, f);
    forall x | x in parsed && Agrees(e, x, order)
      ensures x.pt <= n.inOut[e.pt]
    {
      GreatestWins(es, parsed, order, e, x);
    }
  }

  lemma SameType(es: seq<RtpMap>, e: RtpMap, f: RtpMap)
    requires DistinctTypes(es) && e in es && f in es && e.pt == f.pt
    ensures e == f
  {
    var a :| 0 <= a < |es| && es[a] == e;
    var b :| 0 <= b < |es| && es[b] == f;
    assert a == b;
  }

  // ---------- The lookups ----------

  /** getAudioInternalPT and getVideoInternalPT: what is not found stays as it is. */
  function Internal(n: Nego, pt: nat): (r: nat) {
    if pt in n.outIn then n.outIn[pt] else pt
  }

  /** getAudioExternalPT and getVideoExternalPT */
  function External(n: Nego, pt: nat): (r: nat) {
    if pt in n.inOut then n.inOut[pt] else pt
  }

  /** Some internal codec of payload type i is offered. */
  ghost predicate Inside(es: seq<RtpMap>, parsed: seq<RtpMap>, order: map<nat, nat>, i: nat) {
    exists p: nat :: Linked(es, parsed, order, i, p)
  }

  /** The payload type p is offered for some internal codec. */
  ghost predicate Outside(es: seq<RtpMap>, parsed: seq<RtpMap>, order: map<nat, nat>, p: nat) {
    exists i: nat :: Linked(es, parsed, order, i, p)
  }

  /** No greater payload type than p is offered for its codec. */
  ghost predicate Greatest(es: seq<RtpMap>, parsed: seq<RtpMap>, order: map<nat, nat>, p: nat) {
    forall i: nat, r: nat :: Linked(es, parsed, order, i, p) && Linked(es, parsed, order, i, r) ==> r <= p
  }

  lemma LinkedIsFound(es: seq<RtpMap>, parsed: seq<RtpMap>, order: map<nat, nat>, i: nat, p: nat)
    requires Linked(es, parsed, order, i, p)
    ensures i in Outer(es, parsed, order).inOut && p in Outer(es, parsed, order).outIn
  {
    var e, q :| e in es && q in parsed && e.pt == i && q.pt == p && Agrees(e, q, order);
    NothingMissed(es, parsed, order, e, q);
  }

  /** The keys of the two maps */
  lemma Keys(es: seq<RtpMap>, parsed: seq<RtpMap>, order: map<nat, nat>, pt: nat)
    ensures pt in Outer(es, parsed, order).inOut <==> Inside(es, parsed, order, pt)
    ensures pt in Outer(es, parsed, order).outIn <==> Outside(es, parsed, order, pt)
  {
    hide Outer, Linked;
    TracedOuter(es, parsed, order, es);
    if Inside(es, parsed, order, pt) {
      var p :| Linked(es, parsed, order, pt, p);
      LinkedIsFound(es, parsed, order, pt, p);
    }
    if Outside(es, parsed, order, pt) {
      var i :| Linked(es, parsed, order, i, pt);
      LinkedIsFound(es, parsed, order, i, pt);
    }
  }

  /** For every number, negotiated or not: the lookups give an internal payload type back, unless it is not negotiated
      and the peer uses the same number for another codec. */
  lemma InsideFoundAgain(es: seq<RtpMap>, parsed: seq<RtpMap>, order: map<nat, nat>, i: nat)
    requires Consistent(es) && Ascending(parsed)
    ensures var n := Outer(es, parsed, order);
            Internal(n, External(n, i)) == i <==> Inside(es, parsed, order, i) || !Outside(es, parsed, order, i)
  {
    hide Outer, Linked, Inside, Outside;
    var n := Outer(es, parsed, order);
    Keys(es, parsed, order, i);
    ConsistentInverts(es, parsed, order);
    if i !in n.inOut && i in n.outIn && n.outIn[i] == i {
      TracedOuter(es, parsed, order, es);
      LinkedIsFound(es, parsed, order, i, i);
    }
  }

  /** And the other way round: a number is given back if it is the greatest that is offered for its codec, or is
      offered for none and is no negotiated internal one. */
  lemma OutsideFoundAgain(es: seq<RtpMap>, parsed: seq<RtpMap>, order: map<nat, nat>, p: nat)
    requires DistinctTypes(es) && Consistent(es) && Ascending(parsed)
    ensures var n := Outer(es, parsed, order);
            External(n, Internal(n, p)) == p <==>
            if Outside(es, parsed, order, p) then Greatest(es, parsed, order, p) else !Inside(es, parsed, order, p)
  {
    hide Outer, Inside, Outside;
    var n := Outer(es, parsed, order);
    Keys(es, parsed, order, p);
    TracedOuter(es, parsed, order, es);
    if p in n.outIn {
      var e, q :| e in es && q in parsed && e.pt == n.outIn[p] && q.pt == p && Agrees(e, q, order);
      OutsideReadsBack(es, parsed, order, e, q);
      GreatestIs(es, parsed, order, e, q);
    }
  }

  lemma GreatestIs(es: seq<RtpMap>, parsed: seq<RtpMap>, order: map<nat, nat>, e: RtpMap, q: RtpMap)
    requires DistinctTypes(es) && Consistent(es) && Ascending(parsed)
    requires e in es && q in parsed && Agrees(e, q, order)
    ensures Greatest(es, parsed, order, q.pt) <==> forall r :: r in parsed && Agrees(e, r, order) ==> r.pt <= q.pt
  {
    assert Linked(es, parsed, order, e.pt, q.pt);
    forall i: nat, p: nat | Linked(es, parsed, order, i, q.pt) && Linked(es, parsed, order, i, p)
      ensures exists r :: r in parsed && Agrees(e, r, order) && r.pt == p
    {
      LinkedOnce(es, parsed, order, i, e.pt, q.pt);
      var f, r :| f in es && r in parsed && f.pt == i && r.pt == p && Agrees(f, r, order);
      SameType(es, e, f);
    }
    forall r | r in parsed && Agrees(e, r, order) ensures Linked(es, parsed, order, e.pt, r.pt) {}
  }

  // ---------- In place ----------

  class SdpInfo {
    var outIn: map<nat, nat>
    var inOut: map<nat, nat>
    var payloads: seq<RtpMap>
    var video: nat
    var audio: nat

    function Abs(): (n: Nego)
      reads this
    {
      Nego(outIn, inOut, payloads, video, audio)
    }

    constructor ()
      ensures Abs() == Nego(map[], map[], [], 0, 0)
    {
      outIn, inOut, payloads, video, audio := map[], map[], [], 0, 0;
    }

    method Feedback(xs: seq<string>, ys: seq<string>) returns (r: seq<string>)
      ensures r == Common(xs, ys)
    {
      r := [];
      var i := 0;
      while i < |xs|
        invariant 0 <= i <= |xs| && r == Common(xs[..i], ys)
      {
        assert xs[..i + 1][..i] == xs[..i];
        var j := 0;
        while j < |ys|
          invariant 0 <= j <= |ys| && r == Common(xs[..i], ys) + Times(xs[i], ys[..j])
        {
          assert ys[..j + 1][..j] == ys[..j];
          if xs[i] == ys[j] { r := r + [xs[i]]; }
          j := j + 1;
        }
        assert ys[..j] == ys;
        i := i + 1;
      }
      assert xs[..i] == xs;
    }

    /** The two loops of postProcessInfo */
    method Negotiate(es: seq<RtpMap>, parsed: seq<RtpMap>, order: map<nat, nat>)
      requires Abs() == Nego(map[], map[], [], 0, 0)
      modifies this
      ensures Abs() == Outer(es, parsed, order)
    {
      var i := 0;
      while i < |es|
        invariant 0 <= i <= |es| && Abs() == Outer(es[..i], parsed, order)
      {
        assert es[..i + 1][..i] == es[..i];
        ghost var n := Abs();
        var j := 0;
        while j < |parsed|
          invariant 0 <= j <= |parsed| && Abs() == Inner(n, es[i], parsed[..j], order)
        {
          assert parsed[..j + 1][..j] == parsed[..j];
          NegotiatePair(es[i], parsed[j], order);
          j := j + 1;
        }
        assert parsed[..j] == parsed;
        i := i + 1;
      }
      assert es[..i] == es;
    }

    method NegotiatePair(e: RtpMap, q: RtpMap, order: map<nat, nat>)
      modifies this
      ensures Abs() == Negotiate1(old(Abs()), e, q, order)
    {
      if !Matches(e, q) || q.pt !in order { return; }
      outIn, inOut := outIn[q.pt := e.pt], inOut[e.pt := q.pt];
      var feedback := Feedback(e.feedback, q.feedback);
      var params := CommonParams(e, q);
      var m := q.(channels := e.channels, feedback := feedback, params := if params == map[] then q.params else params);
      if q.video { video := video + 1; } else { audio := audio + 1; }
      if e.params == map[] || |q.params| == |params| { payloads := payloads + [m]; }
    }
  }
}
