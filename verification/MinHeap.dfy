/** min_heap.h: the timer heap, an array of events in heap order in which each event knows its place. Events are
    numbers, and their deadlines are given to each call, as the source reads them from the events. */
module MinHeap {
  import opened Timeval

  function Parent(k: nat): (j: nat)
    requires k > 0
    ensures j < k
  {
    (k - 1) / 2
  }

  /** The event a is due no later than b. */
  predicate Le(due: seq<Time>, a: nat, b: nat) {
    a < |due| && b < |due| && !Later(due[a], due[b])
  }

  lemma LeTrans(due: seq<Time>, a: nat, b: nat, c: nat)
    requires Le(due, a, b) && Le(due, b, c)
    ensures Le(due, a, c)
  {}

  // ---------- Heap order with a hole ----------

  predicate Edge(due: seq<Time>, a: seq<nat>, k: nat)
    requires 0 < k < |a|
  {
    Le(due, a[Parent(k)], a[k])
  }

  /** Heap order of the first n places, but for the place `hole`, whose event is missing. */
  predicate Holed(due: seq<Time>, a: seq<nat>, n: nat, hole: int)
    requires n <= |a|
  {
    forall k :: 0 < k < n && k != hole && Parent(k) != hole ==> Edge(due, a, k)
  }

  /** What is above the hole is due no later than what is below it. */
  predicate Bridged(due: seq<Time>, a: seq<nat>, n: nat, hole: nat)
    requires n <= |a| && hole <= n
  {
    hole > 0 ==> forall k :: 0 < k < n && Parent(k) == hole ==> Le(due, a[Parent(hole)], a[k])
  }

  /** The event e can stand above everything below the hole. */
  predicate Above(due: seq<Time>, a: seq<nat>, n: nat, hole: nat, e: nat)
    requires n <= |a|
  {
    forall k :: 0 < k < n && Parent(k) == hole ==> Le(due, e, a[k])
  }

  predicate Below(due: seq<Time>, a: seq<nat>, hole: nat, e: nat)
    requires hole <= |a|
  {
    hole > 0 ==> Le(due, a[Parent(hole)], e)
  }

  predicate Ordered(due: seq<Time>, a: seq<nat>, n: nat)
    requires n <= |a|
  {
    forall k :: 0 < k < n ==> Edge(due, a, k)
  }

  /** The parent moves down into the hole. */
  lemma HoleUp(due: seq<Time>, a: seq<nat>, n: nat, hole: nat, e: nat)
    requires 0 < hole < n <= |a| && Holed(due, a, n, hole) && Bridged(due, a, n, hole)
    requires e < |due| && a[Parent(hole)] < |due| && Later(due[a[Parent(hole)]], due[e])
    ensures var a' := a[hole := a[Parent(hole)]];
            && Holed(due, a', n, Parent(hole)) && Bridged(due, a', n, Parent(hole))
            && Above(due, a', n, Parent(hole), e)
  {
    var up := Parent(hole);
    var a' := a[hole := a[up]];
    forall k | 0 < k < n && k != up && Parent(k) != up ensures Edge(due, a', k) {
      if Parent(k) != hole { assert Edge(due, a, k); }
    }
    forall k | 0 < k < n && Parent(k) == up ensures Le(due, e, a'[k]) && Le(due, a[up], a'[k]) {
      if k != hole { assert Edge(due, a, k); }
    }
    if up > 0 {
      assert Edge(due, a, up);
      forall k | 0 < k < n && Parent(k) == up ensures Le(due, a'[Parent(up)], a'[k]) {
        LeTrans(due, a[Parent(up)], a[up], a'[k]);
      }
    }
  }

  /** The lesser child c moves up into the hole. */
  lemma HoleDown(due: seq<Time>, a: seq<nat>, n: nat, hole: nat, c: nat, e: nat)
    requires hole < c < n <= |a| && Parent(c) == hole && Holed(due, a, n, hole) && Bridged(due, a, n, hole)
    requires e < |due| && a[c] < |due| && Later(due[e], due[a[c]])
    requires forall k :: 0 < k < n && Parent(k) == hole ==> Le(due, a[c], a[k])
    ensures var a' := a[hole := a[c]];
            Holed(due, a', n, c) && Bridged(due, a', n, c) && Below(due, a', c, e)
  {
    var a' := a[hole := a[c]];
    forall k | 0 < k < n && k != c && Parent(k) != c ensures Edge(due, a', k) {
      if k != hole && Parent(k) != hole { assert Edge(due, a, k); }
    }
    forall k | 0 < k < n && Parent(k) == c ensures Le(due, a'[hole], a'[k]) {
      assert Edge(due, a, k);
    }
  }

  lemma HoleFilled(due: seq<Time>, a: seq<nat>, n: nat, hole: nat, e: nat)
    requires hole < n <= |a| && Holed(due, a, n, hole) && Above(due, a, n, hole, e) && Below(due, a, hole, e)
    ensures Ordered(due, a[hole := e], n)
  {
    var a' := a[hole := e];
    forall k | 0 < k < n ensures Edge(due, a', k) {
      if k != hole && Parent(k) != hole { assert Edge(due, a, k); }
    }
  }

  /** The top of a heap is due first. */
  lemma {:induction false} TopIsFirst(due: seq<Time>, a: seq<nat>, n: nat, k: nat)
    requires k < n <= |a| && Ordered(due, a, n) && a[0] < |due|
    ensures Le(due, a[0], a[k])
  {
    if k > 0 {
      TopIsFirst(due, a, n, Parent(k));
      assert Edge(due, a, k);
      LeTrans(due, a[0], a[Parent(k)], a[k]);
    }
  }

  // ---------- Places ----------

  /** Every event of the first n places, but the hole, knows its place, and every event with a place is there, but
      for those in `gone`. */
  predicate Places(a: seq<nat>, n: nat, idx: map<nat, nat>, hole: int, gone: set<nat>)
    requires n <= |a|
  {
    && (forall k :: 0 <= k < n && k != hole ==> a[k] in idx && idx[a[k]] == k && a[k] !in gone)
    && (forall x :: x in idx && x !in gone ==> idx[x] < n && idx[x] != hole && a[idx[x]] == x)
  }

  lemma PlacesMove(a: seq<nat>, n: nat, idx: map<nat, nat>, hole: nat, j: nat, gone: set<nat>)
    requires hole < n <= |a| && j < n && j != hole && Places(a, n, idx, hole, gone)
    ensures Places(a[hole := a[j]], n, idx[a[j] := hole], j, gone)
    ensures idx[a[j] := hole].Keys == idx.Keys
  {}

  lemma PlacesFill(a: seq<nat>, n: nat, idx: map<nat, nat>, hole: nat, e: nat, gone: set<nat>)
    requires hole < n <= |a| && e in gone && Places(a, n, idx, hole, gone)
    ensures Places(a[hole := e], n, idx[e := hole], -1, gone - {e})
  {}

  predicate Known(idx: map<nat, nat>, due: seq<Time>) {
    forall x :: x in idx ==> x < |due|
  }

  class Heap {
    var p: array<nat>
    var n: nat
    var idx: map<nat, nat>  // min_heap_idx of the events whose value is not -1

    ghost predicate Valid(due: seq<Time>)
      reads this, p
    {
      n <= p.Length && Known(idx, due) && Ordered(due, p[..], n) && Places(p[..], n, idx, -1, {})
    }

    constructor ()
      ensures fresh(p) && n == 0 && idx == map[]
      ensures forall due :: Valid(due)
    {
      p, n, idx := new nat[0], 0, map[];
    }

    /** min_heap_shift_up_. The place after the last is filled when that place is erased. */
    method ShiftUp(start: nat, e: nat, due: seq<Time>, ghost gone: set<nat>)
      requires start <= n <= p.Length && start < p.Length && e < |due| && e in gone && Known(idx, due)
      requires Holed(due, p[..], n, start) && Bridged(due, p[..], n, start) && Places(p[..], n, idx, start, gone)
      requires Above(due, p[..], n, start, e)
      requires start == n ==> Below(due, p[..], n, e)
      modifies this`idx, p
      ensures idx.Keys == old(idx.Keys) + {e}
      ensures start < n ==> Ordered(due, p[..], n) && Places(p[..], n, idx, -1, gone - {e})
      ensures start == n ==> p[..n] == old(p[..n]) && idx == old(idx)[e := n]
    {
      hide Holed, Bridged, Above, Ordered, Places;
      ghost var a := p[..];
      PlaceOfParent(a, n, idx, start, gone);
      var hole := start;
      var parent := if hole == 0 then 0 else (hole - 1) / 2;
      while hole > 0 && Later(due[p[parent]], due[e])
        invariant 0 <= hole <= start && parent == if hole == 0 then 0 else Parent(hole)
        invariant a == p[..] && Known(idx, due) && idx.Keys == old(idx.Keys)
        invariant hole > 0 ==> p[parent] < |due|
        invariant Holed(due, a, n, hole) && Bridged(due, a, n, hole) && Places(a, n, idx, hole, gone)
        invariant Above(due, a, n, hole, e)
        invariant start == n ==> hole == n && p[..] == old(p[..]) && idx == old(idx)
      {
        HoleUp(due, a, n, hole, e);
        PlacesMove(a, n, idx, hole, parent, gone);
        p[hole] := p[parent];
        idx := idx[p[hole] := hole];
        a := a[hole := a[parent]];
        hole := parent;
        parent := if hole == 0 then 0 else (hole - 1) / 2;
        PlaceOfParent(a, n, idx, hole, gone);
      }
      if start < n {
        HoleFilled(due, a, n, hole, e);
        PlacesFill(a, n, idx, hole, e, gone);
      }
      p[hole] := e;
      idx := idx[e := hole];
      assert p[..] == a[hole := e];
    }

    /** min_heap_shift_down_ */
    method ShiftDown(start: nat, e: nat, due: seq<Time>, ghost gone: set<nat>)
      requires start <= n <= p.Length && start < p.Length && e < |due| && e in gone && Known(idx, due)
      requires Holed(due, p[..], n, start) && Bridged(due, p[..], n, start) && Places(p[..], n, idx, start, gone)
      requires Below(due, p[..], start, e)
      modifies this`idx, p
      ensures idx.Keys == old(idx.Keys) + {e}
      ensures start < n ==> Ordered(due, p[..], n) && Places(p[..], n, idx, -1, gone - {e})
      ensures start == n ==> p[..n] == old(p[..n]) && idx == old(idx)[e := n]
    {
      hide Holed, Bridged, Above, Ordered, Places;
      ghost var a := p[..];
      var hole := start;
      var child := 2 * (hole + 1);
      while child <= n
        invariant start <= hole && child == 2 * (hole + 1)
        invariant if start == n then hole == n else hole < n
        invariant a == p[..] && Known(idx, due) && idx.Keys == old(idx.Keys)
        invariant Holed(due, a, n, hole) && Bridged(due, a, n, hole) && Places(a, n, idx, hole, gone)
        invariant Below(due, a, hole, e)
        invariant start == n ==> p[..] == old(p[..]) && idx == old(idx)
        decreases n - hole
      {
        ChildrenKnown(a, n, idx, hole, gone, due);
        if child == n || Later(due[p[child]], due[p[child - 1]]) { child := child - 1; }
        LesserChild(due, a, n, hole, child);
        if !Later(due[e], due[p[child]]) {
          FitsAbove(due, a, n, hole, child, e);
          break;
        }
        HoleDown(due, a, n, hole, child, e);
        PlacesMove(a, n, idx, hole, child, gone);
        p[hole] := p[child];
        idx := idx[p[hole] := hole];
        a := a[hole := a[child]];
        hole := child;
        child := 2 * (hole + 1);
      }
      if child > n { NoChildren(due, a, n, hole, e); }
      ShiftUp(hole, e, due, gone);
    }

    /** min_heap_reserve, on a machine that has the memory */
    method Reserve(m: nat)
      requires n <= p.Length
      modifies this`p
      ensures m <= p.Length && n <= p.Length && p[..n] == old(p[..n])
      ensures p == old(p) || fresh(p)
    {
      if p.Length < m {
        var size := if p.Length != 0 then p.Length * 2 else 8;
        if size < m { size := m; }
        var q := new nat[size];
        var i := 0;
        while i < n
          invariant p == old(p) && 0 <= i <= n && q[..i] == p[..i]
        {
          q[i] := p[i];
          i := i + 1;
        }
        p := q;
      }
    }

    /** min_heap_push */
    method Push(e: nat, due: seq<Time>)
      requires Valid(due) && e !in idx && e < |due|
      modifies this, p
      ensures Valid(due) && idx.Keys == old(idx.Keys) + {e} && (p == old(p) || fresh(p))
    {
      hide Ordered, Places, Holed, Bridged, Above;
      ghost var a := p[..];
      Reserve(n + 1);
      Opened(due, a, p[..], n, idx, e);
      n := n + 1;
      ShiftUp(n - 1, e, due, {e});
      assert {e} - {e} == {};
    }

    /** min_heap_top */
    method Top(due: seq<Time>) returns (found: bool, e: nat)
      requires Valid(due)
      ensures found <==> idx != map[]
      ensures found ==> e in idx && forall x :: x in idx ==> Le(due, e, x)
    {
      if n == 0 { return false, 0; }
      found, e := true, p[0];
      forall x | x in idx ensures Le(due, e, x) { TopIsFirst(due, p[..], n, idx[x]); }
    }

    /** An event goes into the hole that another has left, up or down from there. */
    method Refill(at: nat, e: nat, due: seq<Time>, ghost gone: set<nat>)
      requires at <= n < p.Length && e < |due| && e in gone && Known(idx, due) && (at > 0 ==> p[Parent(at)] < |due|)
      requires Holed(due, p[..], n, at) && Bridged(due, p[..], n, at) && Places(p[..], n, idx, at, gone)
      requires at == n || at == 0 || !Later(due[p[Parent(at)]], due[e]) ==> Below(due, p[..], at, e)
      requires at > 0 && Later(due[p[Parent(at)]], due[e]) ==> Above(due, p[..], n, at, e)
      modifies this`idx, p
      ensures idx.Keys == old(idx.Keys) + {e}
      ensures at < n ==> Ordered(due, p[..], n) && Places(p[..], n, idx, -1, gone - {e})
      ensures at == n ==> p[..n] == old(p[..n]) && idx == old(idx)[e := n]
    {
      hide Ordered, Places, Holed, Bridged, Above, Below;
      if at > 0 && Later(due[p[(at - 1) / 2]], due[e]) {
        ShiftUp(at, e, due, gone);
      } else {
        ShiftDown(at, e, due, gone);
      }
    }

    /** min_heap_erase; the result is -1 for an event that is not in the heap. */
    method Erase(e: nat, due: seq<Time>) returns (r: int)
      requires Valid(due)
      modifies this, p
      ensures Valid(due) && idx.Keys == old(idx.Keys) - {e} && p == old(p)
      ensures r == if e in old(idx) then 0 else -1
    {
      hide Ordered, Places, Holed, Bridged, Above, Le;
      if e !in idx { return -1; }
      var at := idx[e];
      ghost var a := p[..];
      PlaceOf(a, n, idx, e);
      n := n - 1;
      var last := p[n];
      ghost var gone := {e, last};
      Taken(due, a, n, idx, at, e);
      Refill(at, last, due, gone);
      if at == n {
        LastDropped(due, a, p[..], n, idx, e);
      } else {
        assert gone - {last} == {e};
        Dropped(p[..], n, idx, e);
      }
      idx := idx - {e};
      return 0;
    }
  }

  lemma ChildrenKnown(a: seq<nat>, n: nat, idx: map<nat, nat>, hole: nat, gone: set<nat>, due: seq<Time>)
    requires n <= |a| && Places(a, n, idx, hole, gone) && Known(idx, due) && 2 * hole + 2 <= n
    ensures a[2 * hole + 1] < |due| && (2 * hole + 2 < n ==> a[2 * hole + 2] < |due|)
  {}

  lemma LesserChild(due: seq<Time>, a: seq<nat>, n: nat, hole: nat, c: nat)
    requires n <= |a| && c < n && a[c] < |due| && 2 * hole + 1 <= c <= 2 * hole + 2
    requires 2 * hole + 2 < n ==> a[2 * hole + 1] < |due| && a[2 * hole + 2] < |due|
    requires c == 2 * hole + 1 && 2 * hole + 2 < n ==> Later(due[a[c + 1]], due[a[c]])
    requires c == 2 * hole + 2 ==> !Later(due[a[c]], due[a[c - 1]])
    ensures Parent(c) == hole
    ensures forall k :: 0 < k < n && Parent(k) == hole ==> Le(due, a[c], a[k])
  {}

  lemma FitsAbove(due: seq<Time>, a: seq<nat>, n: nat, hole: nat, c: nat, e: nat)
    requires n <= |a| && c < n && Le(due, e, a[c])
    requires forall k :: 0 < k < n && Parent(k) == hole ==> Le(due, a[c], a[k])
    ensures Above(due, a, n, hole, e)
  {}

  lemma NoChildren(due: seq<Time>, a: seq<nat>, n: nat, hole: nat, e: nat)
    requires n <= |a| && n < 2 * (hole + 1)
    ensures Above(due, a, n, hole, e)
  {}

  lemma PlaceOfParent(a: seq<nat>, n: nat, idx: map<nat, nat>, hole: nat, gone: set<nat>)
    requires hole <= n <= |a| && Places(a, n, idx, hole, gone)
    ensures hole > 0 ==> a[Parent(hole)] in idx
  {}

  /** A new place after the last is a hole. */
  lemma Opened(due: seq<Time>, a: seq<nat>, b: seq<nat>, n: nat, idx: map<nat, nat>, e: nat)
    requires n <= |a| && n < |b| && a[..n] == b[..n] && e !in idx
    requires Ordered(due, a, n) && Places(a, n, idx, -1, {})
    ensures Holed(due, b, n + 1, n) && Bridged(due, b, n + 1, n) && Above(due, b, n + 1, n, e)
    ensures Places(b, n + 1, idx, n, {e})
  {
    assert forall k :: 0 <= k < n ==> a[k] == b[k] by {
      forall k | 0 <= k < n ensures a[k] == b[k] { assert a[..n][k] == b[..n][k]; }
    }
    forall k | 0 < k < n + 1 && k != n && Parent(k) != n ensures Edge(due, b, k) { assert Edge(due, a, k); }
  }

  lemma PlaceOf(a: seq<nat>, n: nat, idx: map<nat, nat>, e: nat)
    requires n <= |a| && Places(a, n, idx, -1, {}) && e in idx
    ensures idx[e] < n && a[idx[e]] == e
  {}

  /** The heap without its last place, and with a hole where e was. */
  lemma Taken(due: seq<Time>, a: seq<nat>, n: nat, idx: map<nat, nat>, at: nat, e: nat)
    requires n < |a| && at <= n && a[at] == e && Known(idx, due)
    requires Ordered(due, a, n + 1) && Places(a, n + 1, idx, -1, {})
    ensures a[n] < |due| && a[n] in idx && (at > 0 ==> a[Parent(at)] < |due|)
    ensures at != n ==> a[n] != e
    ensures Holed(due, a, n, at) && Bridged(due, a, n, at) && Places(a, n, idx, at, {e, a[n]})
    ensures at == n || at == 0 || !Later(due[a[Parent(at)]], due[a[n]]) ==> Below(due, a, at, a[n])
    ensures at > 0 && Later(due[a[Parent(at)]], due[a[n]]) ==> Above(due, a, n, at, a[n])
  {
    assert a[n] in idx;
    if at > 0 {
      assert Edge(due, a, at);
      forall k | 0 < k < n && Parent(k) == at ensures Le(due, a[Parent(at)], a[k]) {
        assert Edge(due, a, k);
        LeTrans(due, a[Parent(at)], a[at], a[k]);
      }
    }
  }

  lemma Dropped(a: seq<nat>, n: nat, idx: map<nat, nat>, e: nat)
    requires n <= |a| && Places(a, n, idx, -1, {e})
    ensures Places(a, n, idx - {e}, -1, {})
  {}

  lemma LastDropped(due: seq<Time>, a: seq<nat>, b: seq<nat>, n: nat, idx: map<nat, nat>, e: nat)
    requires n < |a| && n <= |b| && a[..n] == b[..n] && Ordered(due, a, n + 1)
    requires Places(a, n, idx, n, {e})
    ensures Ordered(due, b, n) && Places(b, n, idx - {e}, -1, {})
  {
    assert forall k :: 0 <= k < n ==> a[k] == b[k] by {
      forall k | 0 <= k < n ensures a[k] == b[k] { assert a[..n][k] == b[..n][k]; }
    }
    forall k | 0 < k < n ensures Edge(due, b, k) { assert Edge(due, a, k); }
  }

  /** A heap stays one when the deadlines of its parents and children keep their order. */
  lemma OrderKept(h: Heap, due: seq<Time>, due': seq<Time>)
    requires h.Valid(due) && |due'| == |due|
    requires forall k :: 0 < k < h.n ==> Edge(due', h.p[..], k)
    ensures h.Valid(due')
  {
  }

  // ---------- Corrections of the clock ----------

  /** All deadlines moved back by d */
  function Back(due: seq<Time>, d: Time): (due': seq<Time>)
    ensures |due'| == |due|
  {
    seq(|due|, e requires 0 <= e < |due| => Sub(due[e], d))
  }

  /** No correction lets an event overtake its parent. */
  predicate SteadyAt(due: seq<Time>, a: seq<nat>, k: nat)
    requires 0 < k < |a|
  {
    a[Parent(k)] < |due| && a[k] < |due| && Steady(due[a[Parent(k)]], due[a[k]])
  }

  predicate SteadyEdges(due: seq<Time>, a: seq<nat>, n: nat)
    requires n <= |a|
  {
    forall k :: 0 < k < n ==> SteadyAt(due, a, k)
  }

  lemma EdgeKept(due: seq<Time>, a: seq<nat>, k: nat)
    requires 0 < k < |a| && Edge(due, a, k)
    ensures (forall d :: Normal(d) ==> Edge(Back(due, d), a, k)) <==> SteadyAt(due, a, k)
  {
    var p, c := due[a[Parent(k)]], due[a[k]];
    SubKeepsOrder(p, c);
    if !Steady(p, c) {
      var d :| Normal(d) && Later(Sub(p, d), Sub(c, d));
      assert !Edge(Back(due, d), a, k);
    } else {
      forall d | Normal(d) ensures Edge(Back(due, d), a, k) { assert !Later(Sub(p, d), Sub(c, d)); }
    }
  }

  /** The exact condition under which a heap survives the clock: every normalised correction keeps heap order if and
      only if every event and its parent are steady. */
  lemma CorrectionKeepsHeapIff(due: seq<Time>, a: seq<nat>, n: nat)
    requires n <= |a| && Ordered(due, a, n)
    ensures (forall d :: Normal(d) ==> Ordered(Back(due, d), a, n)) <==> SteadyEdges(due, a, n)
  {
    if SteadyEdges(due, a, n) {
      forall d | Normal(d) ensures Ordered(Back(due, d), a, n) {
        forall k | 0 < k < n ensures Edge(Back(due, d), a, k) {
          assert Edge(due, a, k) && SteadyAt(due, a, k);
          EdgeKept(due, a, k);
        }
      }
    } else {
      var k :| 0 < k < n && !SteadyAt(due, a, k);
      assert Edge(due, a, k);
      EdgeKept(due, a, k);
      var d :| Normal(d) && !Edge(Back(due, d), a, k);
      assert !Ordered(Back(due, d), a, n);
    }
  }
}
