/** What the negotiation of codecs in SdpInfo.cpp makes of an offer: which entries the list has, how many, and what they
    hold. */
module SdpNegotiation {
  import opened SdpPayload

  /** A pair of an internal codec and an offered one, by their indices */
  datatype Cell = Cell(i: nat, j: nat)

  predicate Before(a: Cell, b: Cell) {
    a.i < b.i || (a.i == b.i && a.j < b.j)
  }

  /** Each cell comes before the later ones. */
  predicate InOrder(cs: seq<Cell>) {
    forall a, b :: 0 <= a < b < |cs| ==> Before(cs[a], cs[b])
  }

  predicate Inside(c: Cell, es: seq<RtpMap>, parsed: seq<RtpMap>) {
    c.i < |es| && c.j < |parsed|
  }

  predicate AgreesAt(c: Cell, es: seq<RtpMap>, parsed: seq<RtpMap>, order: map<nat, nat>) {
    Inside(c, es, parsed) && Agrees(es[c.i], parsed[c.j], order)
  }

  /** Two codecs that agree make an entry if one of them has no parameters, or both have the same. */
  predicate Fits(e: RtpMap, q: RtpMap) {
    e.params == map[] || q.params == map[] || e.params == q.params
  }

  predicate FitsAt(c: Cell, es: seq<RtpMap>, parsed: seq<RtpMap>, order: map<nat, nat>) {
    AgreesAt(c, es, parsed, order) && Fits(es[c.i], parsed[c.j])
  }

  /** The entry is the offered codec with the channels of the internal one, and with each feedback line as often as both
      sides name it. */
  ghost predicate Entry(e: RtpMap, q: RtpMap, m: RtpMap) {
    && m == q.(channels := e.channels, feedback := m.feedback)
    && forall x :: multiset(m.feedback)[x] == multiset(e.feedback)[x] * multiset(q.feedback)[x]
  }

  ghost predicate EntryAt(c: Cell, es: seq<RtpMap>, parsed: seq<RtpMap>, m: RtpMap) {
    Inside(c, es, parsed) && Entry(es[c.i], parsed[c.j], m)
  }

  // ---------- One pair ----------

  lemma {:induction false} TimesCount(x: string, ys: seq<string>, z: string)
    ensures multiset(Times(x, ys))[z] == if z == x then multiset(ys)[x] else 0
  {
    if ys != [] {
      var init, last := ys[..|ys| - 1], ys[|ys| - 1];
      assert ys == init + [last];
      TimesCount(x, init, z);
    }
  }

  lemma CountLast(xs: seq<string>, z: string)
    requires xs != []
    ensures multiset(xs)[z] == multiset(xs[..|xs| - 1])[z] + if xs[|xs| - 1] == z then 1 else 0
  {
    assert xs == xs[..|xs| - 1] + [xs[|xs| - 1]];
  }

  lemma CommonLast(xs: seq<string>, ys: seq<string>, z: string)
    requires xs != []
    ensures multiset(Common(xs, ys))[z]
         == multiset(Common(xs[..|xs| - 1], ys))[z] + if xs[|xs| - 1] == z then multiset(ys)[z] else 0
  {
    TimesCount(xs[|xs| - 1], ys, z);
  }

  lemma CommonNone(ys: seq<string>, z: string)
    ensures multiset(Common([], ys))[z] == 0
  {}

  lemma {:induction false} CommonCount(xs: seq<string>, ys: seq<string>, z: string)
    ensures multiset(Common(xs, ys))[z] == multiset(xs)[z] * multiset(ys)[z]
    decreases |xs|
  {
    hide Common;
    CommonNone(ys, z);
    if xs != [] {
      CommonCount(xs[..|xs| - 1], ys, z);
      CountLast(xs, z);
      CommonLast(xs, ys, z);
      OneMore(multiset(xs[..|xs| - 1])[z], xs[|xs| - 1] == z, multiset(ys)[z]);
    }
  }

  lemma OneMore(a: nat, more: bool, c: nat)
    ensures (a + if more then 1 else 0) * c == a * c + if more then c else 0
  {}

  lemma SameKeys(a: set<string>, b: set<string>)
    requires a <= b && |a| == |b|
    ensures a == b
  {
    assert b == a + (b - a);
  }

  lemma SameSize(a: map<string, string>, b: map<string, string>)
    requires a.Keys <= b.Keys && |a| == |b|
    ensures a.Keys == b.Keys
  {
    assert |a.Keys| == |a| && |b.Keys| == |b|;
    SameKeys(a.Keys, b.Keys);
  }

  /** The test of the source on sizes says just this. */
  lemma FitsIs(e: RtpMap, q: RtpMap)
    ensures e.params == map[] || |q.params| == |CommonParams(e, q)| <==> Fits(e, q)
    ensures Fits(e, q) ==> Negotiated(e, q).params == q.params
  {
    var c := CommonParams(e, q);
    assert c.Keys <= e.params.Keys && c.Keys <= q.params.Keys;
    if e.params == q.params { assert c == q.params; }
    if |e.params| == |q.params| == |c| {
      SameSize(c, e.params);
      SameSize(c, q.params);
      assert e.params == c == q.params;
    }
    if |q.params| == 0 { assert q.params == map[]; }
    if c == map[] { assert |c| == 0; }
  }

  lemma NegotiatedIs(e: RtpMap, q: RtpMap)
    requires Fits(e, q)
    ensures Entry(e, q, Negotiated(e, q))
  {
    hide Common, CommonParams, Fits;
    FitsIs(e, q);
    forall x ensures multiset(Common(e.feedback, q.feedback))[x] == multiset(e.feedback)[x] * multiset(q.feedback)[x] {
      CommonCount(e.feedback, q.feedback, x);
    }
  }

  // ---------- The cells in the order of the loops ----------

  ghost function Row(es: seq<RtpMap>, i: nat, parsed: seq<RtpMap>, n: nat, order: map<nat, nat>): (cs: seq<Cell>)
    requires i < |es| && n <= |parsed|
  {
    if n == 0 then []
    else Row(es, i, parsed, n - 1, order) + if Agrees(es[i], parsed[n - 1], order) then [Cell(i, n - 1)] else []
  }

  ghost function Rows(es: seq<RtpMap>, n: nat, parsed: seq<RtpMap>, order: map<nat, nat>): (cs: seq<Cell>)
    requires n <= |es|
  {
    if n == 0 then [] else Rows(es, n - 1, parsed, order) + Row(es, n - 1, parsed, |parsed|, order)
  }

  lemma {:induction false} RowIs(es: seq<RtpMap>, i: nat, parsed: seq<RtpMap>, n: nat, order: map<nat, nat>)
    requires i < |es| && n <= |parsed|
    ensures InOrder(Row(es, i, parsed, n, order))
    ensures forall c :: c in Row(es, i, parsed, n, order) <==> c.i == i && c.j < n && Agrees(es[i], parsed[c.j], order)
  {
    if n > 0 {
      RowIs(es, i, parsed, n - 1, order);
      var cs := Row(es, i, parsed, n - 1, order);
      forall a | 0 <= a < |cs| ensures cs[a].i == i && cs[a].j < n - 1 { assert cs[a] in cs; }
    }
  }

  lemma {:induction false} RowsAre(es: seq<RtpMap>, n: nat, parsed: seq<RtpMap>, order: map<nat, nat>)
    requires n <= |es|
    ensures InOrder(Rows(es, n, parsed, order))
    ensures forall c :: c in Rows(es, n, parsed, order) <==> c.i < n && AgreesAt(c, es, parsed, order)
  {
    if n > 0 {
      RowsAre(es, n - 1, parsed, order);
      RowIs(es, n - 1, parsed, |parsed|, order);
      var cs, ds := Rows(es, n - 1, parsed, order), Row(es, n - 1, parsed, |parsed|, order);
      forall a | 0 <= a < |cs| ensures cs[a].i < n - 1 { assert cs[a] in cs; }
      forall a | 0 <= a < |ds| ensures ds[a].i == n - 1 { assert ds[a] in ds; }
    }
  }

  // ---------- What the loops make of them ----------

  /** The cells that make an entry, and how many are of a video codec */
  ghost function Fitting(cs: seq<Cell>, es: seq<RtpMap>, parsed: seq<RtpMap>): (r: seq<Cell>) {
    if cs == [] then []
    else
      var c := cs[|cs| - 1];
      Fitting(cs[..|cs| - 1], es, parsed) + if Inside(c, es, parsed) && Fits(es[c.i], parsed[c.j]) then [c] else []
  }

  ghost function Videos(cs: seq<Cell>, parsed: seq<RtpMap>, video: bool): (n: nat) {
    if cs == [] then 0
    else
      var j := cs[|cs| - 1].j;
      Videos(cs[..|cs| - 1], parsed, video) + if j < |parsed| && parsed[j].video == video then 1 else 0
  }

  /** What the loops have made of some cells */
  ghost predicate Made(n: Nego, cs: seq<Cell>, es: seq<RtpMap>, parsed: seq<RtpMap>) {
    && (forall c :: c in cs ==> Inside(c, es, parsed))
    && n.video == Videos(cs, parsed, true) && n.audio == Videos(cs, parsed, false)
    && var fs := Fitting(cs, es, parsed);
       |n.payloads| == |fs| && forall k :: 0 <= k < |fs| ==> n.payloads[k] == Negotiated1(es, parsed, fs[k])
  }

  ghost function Negotiated1(es: seq<RtpMap>, parsed: seq<RtpMap>, c: Cell): (m: RtpMap) {
    if Inside(c, es, parsed) then Negotiated(es[c.i], parsed[c.j]) else RtpMap(0, "", 0, false, 0, [], map[])
  }

  lemma FittingMore(cs: seq<Cell>, c: Cell, es: seq<RtpMap>, parsed: seq<RtpMap>)
    requires (forall x :: x in cs ==> Inside(x, es, parsed)) && Inside(c, es, parsed)
    ensures forall x :: x in cs + [c] ==> Inside(x, es, parsed)
    ensures Fitting(cs + [c], es, parsed)
         == Fitting(cs, es, parsed) + if Fits(es[c.i], parsed[c.j]) then [c] else []
    ensures forall v :: Videos(cs + [c], parsed, v) == Videos(cs, parsed, v) + if parsed[c.j].video == v then 1 else 0
  {
    hide Fits;
    assert (cs + [c])[..|cs|] == cs;
  }

  lemma MadeMore(n: Nego, cs: seq<Cell>, c: Cell, es: seq<RtpMap>, parsed: seq<RtpMap>, order: map<nat, nat>)
    requires Made(n, cs, es, parsed) && AgreesAt(c, es, parsed, order)
    ensures Made(Negotiate1(n, es[c.i], parsed[c.j], order), cs + [c], es, parsed)
  {
    hide Fits, Negotiated, CommonParams, Fitting, Videos;
    FittingMore(cs, c, es, parsed);
    FitsIs(es[c.i], parsed[c.j]);
  }

  lemma {:induction false} InnerMade(
      n0: Nego, cs: seq<Cell>, es: seq<RtpMap>, i: nat, parsed: seq<RtpMap>, n: nat, order: map<nat, nat>)
    requires i < |es| && n <= |parsed| && Made(n0, cs, es, parsed)
    ensures Made(Inner(n0, es[i], parsed[..n], order), cs + Row(es, i, parsed, n, order), es, parsed)
    decreases n
  {
    hide Made, Negotiate1;
    assert cs + [] == cs;
    if n > 0 {
      var part := parsed[..n];
      assert part[..|part| - 1] == parsed[..n - 1] && part[|part| - 1] == parsed[n - 1];
      InnerMade(n0, cs, es, i, parsed, n - 1, order);
      var n1, cs1 := Inner(n0, es[i], parsed[..n - 1], order), cs + Row(es, i, parsed, n - 1, order);
      if Agrees(es[i], parsed[n - 1], order) {
        MadeMore(n1, cs1, Cell(i, n - 1), es, parsed, order);
        assert cs1 + [Cell(i, n - 1)] == cs + Row(es, i, parsed, n, order);
      } else {
        NoAgreement(n1, es[i], parsed[n - 1], order);
        assert cs1 == cs + Row(es, i, parsed, n, order);
      }
    }
  }

  lemma NoAgreement(n: Nego, e: RtpMap, q: RtpMap, order: map<nat, nat>)
    requires !Agrees(e, q, order)
    ensures Negotiate1(n, e, q, order) == n
  {}

  lemma {:induction false} OuterMade(es: seq<RtpMap>, n: nat, parsed: seq<RtpMap>, order: map<nat, nat>)
    requires n <= |es|
    ensures Made(Outer(es[..n], parsed, order), Rows(es, n, parsed, order), es, parsed)
  {
    hide Made, Inner;
    if n == 0 {
      NothingMade(es, parsed);
    } else {
      var part := es[..n];
      assert part[..|part| - 1] == es[..n - 1] && part[|part| - 1] == es[n - 1];
      OuterMade(es, n - 1, parsed, order);
      assert parsed[..|parsed|] == parsed;
      InnerMade(Outer(es[..n - 1], parsed, order), Rows(es, n - 1, parsed, order), es, n - 1, parsed, |parsed|, order);
    }
  }

  lemma NothingMade(es: seq<RtpMap>, parsed: seq<RtpMap>)
    ensures Made(Nego(map[], map[], [], 0, 0), [], es, parsed)
  {}

  lemma {:induction false} FittingIs(cs: seq<Cell>, es: seq<RtpMap>, parsed: seq<RtpMap>)
    requires InOrder(cs) && forall c :: c in cs ==> Inside(c, es, parsed)
    ensures InOrder(Fitting(cs, es, parsed))
    ensures forall c :: c in Fitting(cs, es, parsed) <==> c in cs && Inside(c, es, parsed) && Fits(es[c.i], parsed[c.j])
  {
    hide Fits;
    if cs != [] {
      var init, c := cs[..|cs| - 1], cs[|cs| - 1];
      assert cs == init + [c];
      FittingIs(init, es, parsed);
      var fs := Fitting(init, es, parsed);
      forall a | 0 <= a < |fs| ensures Before(fs[a], c) { assert fs[a] in init; }
    }
  }

  /** The negotiated list has exactly one entry for each pair of an internal and an offered codec that agree and whose
      parameters fit, in the order of the loops; and the two counters say how many pairs agree, of either kind. */
  lemma ListIsExact(es: seq<RtpMap>, parsed: seq<RtpMap>, order: map<nat, nat>)
    returns (all: seq<Cell>, made: seq<Cell>)
    ensures InOrder(all) && forall c :: c in all <==> AgreesAt(c, es, parsed, order)
    ensures InOrder(made) && forall c :: c in made <==> FitsAt(c, es, parsed, order)
    ensures var n := Outer(es, parsed, order);
            && |n.payloads| == |made|
            && (forall k :: 0 <= k < |made| ==> EntryAt(made[k], es, parsed, n.payloads[k]))
            && n.video == Videos(all, parsed, true) && n.audio == Videos(all, parsed, false)
            && n.video + n.audio == |all|
  {
    hide Outer, Rows, Fits, Entry, Negotiated;
    all := Rows(es, |es|, parsed, order);
    RowsAre(es, |es|, parsed, order);
    assert es[..|es|] == es;
    OuterMade(es, |es|, parsed, order);
    made := Fitting(all, es, parsed);
    FittingIs(all, es, parsed);
    forall k | 0 <= k < |made| ensures EntryAt(made[k], es, parsed, Outer(es, parsed, order).payloads[k]) {
      assert made[k] in made;
      NegotiatedIs(es[made[k].i], parsed[made[k].j]);
    }
    BothKinds(all, parsed);
  }

  lemma {:induction false} BothKinds(cs: seq<Cell>, parsed: seq<RtpMap>)
    requires forall c :: c in cs ==> c.j < |parsed|
    ensures Videos(cs, parsed, true) + Videos(cs, parsed, false) == |cs|
  {
    if cs != [] {
      assert cs[|cs| - 1] in cs;
      BothKinds(cs[..|cs| - 1], parsed);
    }
  }

  // ---------- The list in its final order ----------

  predicate SortedBy(order: map<nat, nat>, v: seq<RtpMap>) {
    forall i, j :: 0 <= i < j < |v| ==> v[i].pt in order && v[j].pt in order && order[v[i].pt] <= order[v[j].pt]
  }

  /** Some pair that agrees and fits has made this entry. */
  ghost predicate HasMade(m: RtpMap, es: seq<RtpMap>, parsed: seq<RtpMap>, order: map<nat, nat>) {
    exists c :: FitsAt(c, es, parsed, order) && EntryAt(c, es, parsed, m)
  }

  /** The negotiated list, put in any order that the sort may choose, follows the first appearances on the m-lines. It
      has as many entries as there are pairs of codecs that agree and fit, one of each, and no others. */
  lemma NegotiatedList(es: seq<RtpMap>, parsed: seq<RtpMap>, pts: seq<nat>, v: seq<RtpMap>) returns (made: seq<Cell>)
    requires multiset(v) == multiset(Outer(es, parsed, OrderOf(pts)).payloads) && SortedBy(OrderOf(pts), v)
    ensures forall i, j :: 0 <= i < j < |v| ==> FirstIndex(pts, v[i].pt) <= FirstIndex(pts, v[j].pt)
    ensures InOrder(made) && (forall c :: c in made <==> FitsAt(c, es, parsed, OrderOf(pts))) && |v| == |made|
    ensures forall m :: m in v ==> m.pt in pts && HasMade(m, es, parsed, OrderOf(pts))
    ensures forall c :: c in made ==> exists m :: m in v && EntryAt(c, es, parsed, m)
  {
    hide Outer, OrderOf, FirstIndex, Videos, FitsAt, EntryAt, HasMade, SortedBy, InOrder, AgreesAt;
    var order := OrderOf(pts);
    var all;
    all, made := ListIsExact(es, parsed, order);
    var ms := Outer(es, parsed, order).payloads;
    SameMembers(v, ms);
    SortedFirst(pts, v);
    OrderIsFirstAppearance(pts);
    forall m | m in v ensures m.pt in pts && HasMade(m, es, parsed, order) { IsMade(es, parsed, order, made, ms, m); }
    forall c | c in made ensures exists m :: m in v && EntryAt(c, es, parsed, m) {
      var k :| 0 <= k < |made| && made[k] == c;
      assert ms[k] in ms;
    }
  }

  lemma SameMembers(v: seq<RtpMap>, ms: seq<RtpMap>)
    requires multiset(v) == multiset(ms)
    ensures |v| == |ms| && forall m :: m in v <==> m in ms
  {
    assert |v| == |multiset(v)| && |ms| == |multiset(ms)|;
    forall m ensures m in v <==> m in ms { assert m in v <==> m in multiset(v); }
  }

  lemma SortedFirst(pts: seq<nat>, v: seq<RtpMap>)
    requires SortedBy(OrderOf(pts), v)
    ensures forall i, j :: 0 <= i < j < |v| ==> FirstIndex(pts, v[i].pt) <= FirstIndex(pts, v[j].pt)
  {
    hide OrderOf, FirstIndex;
    OrderIsFirstAppearance(pts);
  }

  lemma IsMade(es: seq<RtpMap>, parsed: seq<RtpMap>, order: map<nat, nat>, made: seq<Cell>, ms: seq<RtpMap>, m: RtpMap)
    requires m in ms && |ms| == |made|
    requires forall c :: c in made ==> FitsAt(c, es, parsed, order)
    requires forall k :: 0 <= k < |made| ==> EntryAt(made[k], es, parsed, ms[k])
    ensures m.pt in order && HasMade(m, es, parsed, order)
  {
    hide Fits, Entry;
    var k :| 0 <= k < |ms| && ms[k] == m;
    assert made[k] in made && EntryAt(made[k], es, parsed, m);
    EntryType(es[made[k].i], parsed[made[k].j], m);
  }

  lemma EntryType(e: RtpMap, q: RtpMap, m: RtpMap)
    requires Entry(e, q, m)
    ensures m.pt == q.pt
  {}
}
