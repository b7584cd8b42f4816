/** The order in which a lookup's names are asked, over whole runs. */
module DnsSearch {

  import opened Basics
  import opened DnsNames
  import DnsCompression
  import opened DnsServers
  import opened DnsRequests
  import opened DnsLookups

  function Suffixed(name: Text, domains: seq<Text>): (ns: seq<Text>)
    ensures |ns| == |domains|
    ensures forall i :: 0 <= i < |domains| ==> ns[i] == WithSuffix(name, domains[i])
  {
    seq(|domains|, i requires 0 <= i < |domains| => WithSuffix(name, domains[i]))
  }

  /** The order promised: a name with enough dots first as it is and then under each suffix, any other
      under each suffix and then as it is. */
  function SearchOrder(name: Text, st: SearchState): (ns: seq<Text>)
    ensures |ns| == |st.domains| + 1
  {
    if NumDots(name) >= st.ndots then [name] + Suffixed(name, st.domains) else Suffixed(name, st.domains) + [name]
  }

  /** The names a lookup may be asked under, in order: without a search only its own. */
  function Order(s: State, qtype: QType, name: Text, noSearch: bool): (ns: seq<Text>)
    ensures ns != []
  {
    if noSearch || qtype == Ptr || s.globalSearch.None? || s.globalSearch.value >= |s.searches| then [name]
    else
      var st := s.searches[s.globalSearch.value];
      if st.domains == [] then [name] else SearchOrder(name, st)
  }

  /** How many names of the order come before the first one that is refused. */
  function LeadingOk(order: seq<Text>): (n: nat)
    ensures n <= |order|
    ensures forall i :: 0 <= i < n ==> NameOk(order[i])
    ensures n < |order| ==> !NameOk(order[n])
  {
    if order == [] || !NameOk(order[0]) then 0
    else
      var n := LeadingOk(order[1..]);
      assert forall i :: 0 < i < n + 1 ==> order[i] == order[1..][i - 1];
      n + 1
  }

  // ---------- Setting the search up ----------

  lemma {:induction false} StripIs(d: Text)
    ensures var t := StripDots(d);
            && (t == [] || t[0] != DOT) && |t| <= |d| && d[|d| - |t|..] == t
            && forall i :: 0 <= i < |d| - |t| ==> d[i] == DOT
  {
    if d != [] && d[0] == DOT {
      StripIs(d[1..]);
      var n := |d| - |StripDots(d)|;
      assert d[1..][n - 1..] == d[n..];
      forall i | 0 < i < n ensures d[i] == DOT { assert d[1..][i - 1] == d[i]; }
    }
  }

  predicate GlobalOk(s: State) {
    s.globalSearch.Some? ==> s.globalSearch.value < |s.searches|
  }

  /** A domain that is added comes before those that are there: lookups from then on are asked under it first, or right
      after the name itself if that has enough dots. Dots that it begins with do not count. */
  lemma AddedSuffixFirst(s: State, d: Text, w: World, qtype: QType, name: Text)
    requires GlobalOk(s) && qtype != Ptr
    ensures var s' := Step(s, SearchAdd(d), w);
            var was := Order(s, qtype, name, false);
            var added := WithSuffix(name, StripDots(d));
            Order(s', qtype, name, false)
            == if NumDots(name) >= Global(s).ndots then [name, added] + was[1..] else [added] + was
  {
    hide WithSuffix, NumDots, StripDots, Suffixed;
    var t, g := StripDots(d), Global(s);
    OrderGrows(name, t, g);
    AddIs(s, d, w);
  }

  lemma AddIs(s: State, d: Text, w: World)
    requires GlobalOk(s)
    ensures var s' := Step(s, SearchAdd(d), w);
            GlobalOk(s') && s'.globalSearch.Some? && Global(s') == Global(s).(domains := [StripDots(d)] + Global(s).domains)
  {}

  lemma OrderGrows(name: Text, t: Text, st: SearchState)
    ensures var was := if st.domains == [] then [name] else SearchOrder(name, st);
            var added := WithSuffix(name, t);
            SearchOrder(name, st.(domains := [t] + st.domains))
            == if NumDots(name) >= st.ndots then [name, added] + was[1..] else [added] + was
  {
    hide WithSuffix, NumDots;
    assert Suffixed(name, [t] + st.domains) == [WithSuffix(name, t)] + Suffixed(name, st.domains);
  }

  /** The number of dots decides where the name itself stands, and clearing leaves only that. Searches that are on their
      way keep their domains when the search is cleared. */
  lemma SearchIsSet(s: State, n: int, w: World, qtype: QType, name: Text)
    requires GlobalOk(s) && qtype != Ptr
    ensures var s1, s2 := Step(s, SearchNdots(n), w), Step(s, SearchClear, w);
            && Order(s1, qtype, name, false)
               == (if NumDots(name) >= n then [name] + Suffixed(name, Global(s).domains)
                   else Suffixed(name, Global(s).domains) + [name])
            && Order(s2, qtype, name, false) == [name] && s.searches <= s2.searches
  {}

  // ---------- The names that follow a failure ----------

  /** How many attempts may still follow. */
  function Left(s: State, search: Search): (n: nat) {
    if search.NoSearch? || search.state >= |s.searches| then 0
    else
      var d := |s.searches[search.state].domains|;
      if search.index >= d then 1 else d - search.index + 1
  }

  /** The names search_try_next goes on to ask for, each after the failure of the one before. */
  function TriesFrom(s: State, search: Search): (ns: seq<Text>)
    decreases Left(s, search)
  {
    match NextTry(s, search)
    case None => []
    case Some((name, next)) => [name] + TriesFrom(s, next)
  }

  lemma {:induction false} TriesAre(s: State, state: nat, index: SearchIndex, orig: Text)
    requires state < |s.searches| && index <= |s.searches[state].domains|
    ensures var st := s.searches[state];
            var n := if index + 1 < |st.domains| then index + 1 else |st.domains|;
            TriesFrom(s, Search(state, index, orig))
            == Suffixed(orig, st.domains)[n..] + (if NumDots(orig) < st.ndots then [orig] else [])
    decreases |s.searches[state].domains| - index
  {
    var st := s.searches[state];
    var all := Suffixed(orig, st.domains);
    if index + 1 < |st.domains| {
      TriesAre(s, state, index + 1, orig);
      assert all[index + 1..] == [all[index + 1]] + all[index + 2..];
    } else if NumDots(orig) < st.ndots {
      assert TriesFrom(s, NoSearch) == [];
    }
  }

  /** The first name and those that would follow it one failure after the other are the order. */
  lemma TriesFollowOrder(s: State, qtype: QType, name: Text, noSearch: bool)
    ensures var (first, search) := FirstTry(s, name, noSearch || qtype == Ptr);
            [first] + TriesFrom(s, search) == Order(s, qtype, name, noSearch)
  {
    var (first, search) := FirstTry(s, name, noSearch || qtype == Ptr);
    if search.NoSearch? {
      assert TriesFrom(s, NoSearch) == [];
    } else {
      var g := s.globalSearch.value;
      var st := s.searches[g];
      var all := Suffixed(name, st.domains);
      if NumDots(name) >= st.ndots {
        TriesAre(s, g, -1, name);
      } else {
        TriesAre(s, g, 0, name);
        assert all == [all[0]] + all[1..];
      }
    }
  }

  /** Search states that are only added do not change the names. */
  lemma {:induction false} TriesSame(s: State, s': State, search: Search)
    requires s.searches <= s'.searches && (search.Search? ==> search.state < |s.searches|)
    ensures NextTry(s', search) == NextTry(s, search) && TriesFrom(s', search) == TriesFrom(s, search)
    decreases Left(s, search)
  {
    if search.Search? {
      assert s'.searches[search.state] == s.searches[search.state];
      if NextTry(s, search).Some? { TriesSame(s, s', NextTry(s, search).value.1); }
    }
  }

  // ---------- One lookup through a run ----------

  /** The question is the k-th name of the order, and the names that may follow it are the rest. */
  ghost predicate AskAt(s: State, ask: Item, order: seq<Text>, k: nat) {
    && ask.Ask? && (ask.search.Search? ==> ask.qtype != Ptr && ask.search.state < |s.searches|)
    && k < |order| && [ask.name] + TriesFrom(s, ask.search) == order[k..]
  }

  /** The lookup's only question, if it still has one. */
  ghost predicate OnlyAsk(s: State, l: nat, here: Option<Item>) {
    forall x: Item :: x.Ask? && x.owner == User(l) ==> Ledger(s)[x] == if here == Some(x) then 1 else 0
  }

  /** The lookup was answered once, and a failure that is no timeout came after the last name that could be asked. */
  ghost predicate Over(s: State, l: nat, order: seq<Text>, k: nat) {
    var errs := Errs(s.fired, l);
    |errs| == 1 && (errs[0] == NoErr || errs[0] == TimedOut || k == LeadingOk(order))
  }

  /** The lookup has been asked under the first k names of the order, is at the k-th or is over. */
  ghost predicate Tracked(s: State, l: nat, order: seq<Text>, k: nat, here: Option<Item>) {
    && l < s.nextLookup && 1 <= k <= LeadingOk(order) && Names(s.asked, l) == order[..k]
    && Ledger(s)[Lookup(l)] == 1 && OnlyAsk(s, l, here)
    && (here.Some? ==> AskAt(s, here.value, order, k - 1) && Errs(s.fired, l) == [])
    && (here.None? ==> Over(s, l, order, k))
  }

  /** What NextAsk says in terms of the order */
  lemma NextIs(s: State, ask: Item, order: seq<Text>, k: nat)
    requires k > 0 && AskAt(s, ask, order, k - 1)
    ensures NextAsk(s, ask).Some? <==> k < |order| && NameOk(order[k])
    ensures NextAsk(s, ask).Some? ==>
              var next := NextAsk(s, ask).value;
              next.name == order[k] && next.owner == ask.owner && AskAt(s, next, order, k)
  {
    hide NameOk, NextTry;
    var tries := TriesFrom(s, ask.search);
    assert order[k - 1..][1..] == order[k..] && ([ask.name] + tries)[1..] == tries;
    assert ask.qtype == Ptr ==> tries == [] by { TriesEnd(s, ask.search); }
    match NextTry(s, ask.search)
    case None =>
      assert tries == [];
    case Some((name, search)) =>
      assert tries == [name] + TriesFrom(s, search);
      assert order[k] == order[k..][0] == name;
      NextState(s, ask.search);
  }

  lemma TriesEnd(s: State, search: Search)
    ensures search.NoSearch? ==> TriesFrom(s, search) == []
  {
  }

  lemma NextState(s: State, search: Search)
    requires NextTry(s, search).Some?
    ensures search.Search?
    ensures var next := NextTry(s, search).value.1; next.Search? ==> next.state == search.state
  {
  }

  /** What one event does to a lookup advances it by at most one name of the order: a failure moves it to the next name,
      and ends it after the last one or when the next name is refused. */
  lemma SearchAdvances(s: State, s': State, l: nat, order: seq<Text>, k: nat, here: Option<Item>)
    returns (k': nat, here': Option<Item>)
    requires Tracked(s, l, order, k, here) && Turn(s, s', l)
    requires s.searches <= s'.searches && s.nextLookup <= s'.nextLookup
    ensures Tracked(s', l, order, k', here') && k <= k' <= k + 1
  {
    hide Ledger, Names, Errs, NextAsk, LeadingOk, Continues, Ends, Shift, AskAt, OnlyAsk, Over;
    if Untouched(s, s', l) {
      k', here' := k, here;
      StaysTracked(s, s', l, order, k, here);
    } else if ask, next :| Continues(s, s', l, ask, next) {
      k', here' := k + 1, Some(next);
      MovesOn(s, s', l, order, k, here, ask, next);
    } else {
      var ask, err :| Ends(s, s', l, ask, err);
      k', here' := k, None;
      ComesToEnd(s, s', l, order, k, here, ask, err);
    }
  }

  lemma AtSame(s: State, s': State, ask: Item, order: seq<Text>, k: nat)
    requires AskAt(s, ask, order, k) && s.searches <= s'.searches
    ensures AskAt(s', ask, order, k)
  {
    TriesSame(s, s', ask.search);
  }

  lemma StaysTracked(s: State, s': State, l: nat, order: seq<Text>, k: nat, here: Option<Item>)
    requires Tracked(s, l, order, k, here) && Untouched(s, s', l)
    requires s.searches <= s'.searches && s.nextLookup <= s'.nextLookup
    ensures Tracked(s', l, order, k, here)
  {
    hide Ledger, Names, Errs, LeadingOk, AskAt;
    assert OfLookup(Lookup(l), l);
    forall x: Item | x.Ask? && x.owner == User(l) ensures Ledger(s')[x] == Ledger(s)[x] { assert OfLookup(x, l); }
    if here.Some? { AtSame(s, s', here.value, order, k - 1); }
  }

  lemma MovesOn(s: State, s': State, l: nat, order: seq<Text>, k: nat, here: Option<Item>, ask: Item, next: Item)
    requires Tracked(s, l, order, k, here) && Continues(s, s', l, ask, next)
    requires s.searches <= s'.searches && s.nextLookup <= s'.nextLookup
    ensures Tracked(s', l, order, k + 1, Some(next))
  {
    hide Ledger, Names, Errs, NextAsk, LeadingOk, AskAt;
    assert here == Some(ask) by { assert Ledger(s)[ask] > 0; }
    NextIs(s, ask, order, k);
    assert OfLookup(Lookup(l), l);
    forall x: Item | x.Ask? && x.owner == User(l) ensures Ledger(s')[x] == if x == next then 1 else 0 {
      assert OfLookup(x, l);
      assert Ledger(s')[x] + multiset{ask}[x] == Ledger(s)[x] + multiset{next}[x];
    }
    AtSame(s, s', next, order, k);
    AskInOrder(s', next, order, k);
  }

  lemma AskInOrder(s: State, ask: Item, order: seq<Text>, k: nat)
    requires AskAt(s, ask, order, k)
    ensures k < |order| && order[k] == ask.name && order[..k] + [ask.name] == order[..k + 1]
  {
    assert order[k] == order[k..][0];
  }

  lemma ComesToEnd(s: State, s': State, l: nat, order: seq<Text>, k: nat, here: Option<Item>, ask: Item, err: Err)
    requires Tracked(s, l, order, k, here) && Ends(s, s', l, ask, err)
    requires s.nextLookup <= s'.nextLookup
    ensures Tracked(s', l, order, k, None)
  {
    hide Ledger, Names, Errs, NextAsk, LeadingOk, AskAt;
    assert here == Some(ask) by { assert Ledger(s)[ask] > 0; }
    NextIs(s, ask, order, k);
    assert OfLookup(Lookup(l), l);
    forall x: Item | x.Ask? && x.owner == User(l) ensures Ledger(s')[x] == 0 {
      assert OfLookup(x, l);
      assert Ledger(s')[x] + multiset{ask}[x] == Ledger(s)[x] + multiset{}[x];
    }
  }

  // ---------- A lookup that was not taken on ----------

  ghost predicate Absent(s: State, l: nat) {
    && l < s.nextLookup && Names(s.asked, l) == [] && Errs(s.fired, l) == []
    && Ledger(s)[Lookup(l)] == 0 && OnlyAsk(s, l, None)
  }

  lemma StaysAbsent(s: State, s': State, l: nat)
    requires Absent(s, l) && Turn(s, s', l) && s.nextLookup <= s'.nextLookup
    ensures Absent(s', l)
  {
    hide Ledger, Names, Errs, NextAsk;
    assert forall ask :: !IsAsk(s, l, ask);
    assert OfLookup(Lookup(l), l);
    forall x: Item | x.Ask? && x.owner == User(l) ensures Ledger(s')[x] == Ledger(s)[x] { assert OfLookup(x, l); }
  }

  // ---------- Whole runs ----------

  /** The run changes no search that is in use; evdns_search_clear only starts another. */
  ghost predicate SearchesFixed(moves: seq<Move>) {
    forall i :: 0 <= i < |moves| ==> !moves[i].event.SearchAdd? && !moves[i].event.SearchNdots?
  }

  lemma StepSearches(s: State, e: Event, w: World)
    requires Enabled(s, e) && !e.SearchAdd? && !e.SearchNdots?
    ensures s.searches <= Step(s, e, w).searches
  {
    hide Resolve, Reply, Timeout, SendProbe, TransmitAll, NameserverFailed, AddServer, Pump, SetServer, Suspend;
    if e.SuspendAll? { SuspendSearches(s.(ids := w.ids, sends := w.sends, calls := w.calls)); }
  }

  lemma SuspendSearches(s: State)
    ensures Suspend(s).searches == s.searches
  {
  }

  lemma {:induction false} RunTracks(s: State, moves: seq<Move>, s': State, l: nat, order: seq<Text>, k: nat,
                                     here: Option<Item>) returns (k': nat, here': Option<Item>)
    requires Inv(s) && Runs(s, moves, s') && SearchesFixed(moves) && Tracked(s, l, order, k, here)
    ensures Tracked(s', l, order, k', here')
    decreases |moves|
  {
    hide Inv, Step, Enabled, Turn, Tracked;
    k', here' := k, here;
    if moves != [] {
      var s1 := Step(s, moves[0].event, moves[0].world);
      StepKeeps(s, moves[0].event, moves[0].world);
      StepSearches(s, moves[0].event, moves[0].world);
      TrackedBelow(s, l, order, k, here);
      var k1, here1 := SearchAdvances(s, s1, l, order, k, here);
      k', here' := RunTracks(s1, moves[1..], s', l, order, k1, here1);
    }
  }

  lemma TrackedBelow(s: State, l: nat, order: seq<Text>, k: nat, here: Option<Item>)
    requires Tracked(s, l, order, k, here)
    ensures l < s.nextLookup
  {
  }

  lemma {:induction false} RunStaysAbsent(s: State, moves: seq<Move>, s': State, l: nat)
    requires Inv(s) && Runs(s, moves, s') && Absent(s, l)
    ensures Absent(s', l)
    decreases |moves|
  {
    hide Inv, Step, Enabled, Turn;
    if moves != [] {
      var s1 := Step(s, moves[0].event, moves[0].world);
      StepKeeps(s, moves[0].event, moves[0].world);
      StaysAbsent(s, s1, l);
      RunStaysAbsent(s1, moves[1..], s', l);
    }
  }

  /** Nothing is known of a lookup that has not been started. */
  lemma Unborn(s: State, l: nat)
    requires Inv(s) && l >= s.nextLookup
    ensures Names(s.asked, l) == [] && Errs(s.fired, l) == [] && Ledger(s)[Lookup(l)] == 0 && OnlyAsk(s, l, None)
  {
    FreshLookup(s);
    BalanceOf(s, l);
    NotNamed(s, s.asked, l);
    NoErrs(s.fired, l);
    forall x: Item | x.Ask? && x.owner == User(l) ensures Ledger(s)[x] == 0 {
      AsksBounded(s.inflight, x, l);
      AsksBounded(s.waiting, x, l);
      NotAnswered(s.fired, x);
    }
  }

  lemma {:induction false} NotNamed(s: State, asked: seq<Asked>, l: nat)
    requires AskedBelow(asked, s.nextLookup) && l >= s.nextLookup
    ensures Names(asked, l) == []
  {
    if asked != [] { NotNamed(s, asked[..|asked| - 1], l); }
  }

  lemma {:induction false} NoErrs(fired: seq<Fired>, l: nat)
    requires Answered(fired)[Lookup(l)] == 0
    ensures Errs(fired, l) == []
  {
    if fired != [] {
      var n := |fired| - 1;
      assert fired == fired[..n] + [fired[n]];
      AnsweredConcat(fired[..n], [fired[n]]);
      assert [fired[n]][1..] == [];
      NoErrs(fired[..n], l);
    }
  }

  lemma {:induction false} AsksBounded(q: seq<Request>, ask: Item, l: nat)
    requires ask.Ask? && ask.owner == User(l)
    ensures Carried(q)[ask] <= Carried(q)[Lookup(l)]
  {
    if q != [] {
      AsksBounded(q[1..], ask, l);
      assert One(q[0])[ask] <= One(q[0])[Lookup(l)];
    }
  }

  /** A lookup starts at the first name of its order, or is refused with it. */
  lemma StartsTracked(s: State, qtype: QType, name: Text, noSearch: bool, w: World) returns (here: Option<Item>)
    requires Inv(s)
    ensures var s1 := Step(s, ResolveName(qtype, name, noSearch), w);
            var order := Order(s, qtype, name, noSearch);
            if NameOk(order[0]) then Tracked(s1, s.nextLookup, order, 1, here) else Absent(s1, s.nextLookup)
  {
    hide Inv, Ledger, Names, Errs, Resolve, LeadingOk, NameOk, FirstTry, TriesFrom, Order, OnlyAsk;
    var l, order := s.nextLookup, Order(s, qtype, name, noSearch);
    var s0 := s.(ids := w.ids, sends := w.sends, calls := w.calls);
    InvSound(s);
    WorldKeeps(s, w);
    ResolveKeeps(s0, qtype, name, noSearch);
    ResolveNumbers(s0, qtype, name, noSearch);
    Unborn(s, l);
    SameFirst(s, w, qtype, name, noSearch);
    var (first, search) := FirstTry(s, name, noSearch || qtype == Ptr);
    TriesFollowOrder(s, qtype, name, noSearch);
    FirstTryOk(s, name, noSearch || qtype == Ptr);
    var s1 := Resolve(s0, qtype, name, noSearch);
    assert OfLookup(Lookup(l), l);
    if NameOk(first) {
      var ask := Ask(User(l), qtype, first, search);
      here := Some(ask);
      NewAsk(s, s1, l, ask);
      TriesSame(s, s1, search);
      assert order[0..] == order;
    } else {
      here := None;
      NoAsk(s, s1, l);
    }
  }

  lemma InvSound(s: State)
    requires Inv(s)
    ensures Sound(s)
  {
  }

  lemma ResolveNumbers(s: State, qtype: QType, name: Text, noSearch: bool)
    ensures Resolve(s, qtype, name, noSearch).nextLookup == s.nextLookup + 1
  {
    hide RequestNew, Submit, FirstTry;
  }

  lemma SameFirst(s: State, w: World, qtype: QType, name: Text, noSearch: bool)
    ensures var s0 := s.(ids := w.ids, sends := w.sends, calls := w.calls);
            FirstTry(s0, name, noSearch || qtype == Ptr) == FirstTry(s, name, noSearch || qtype == Ptr)
  {
  }

  lemma NewAsk(s: State, s1: State, l: nat, ask: Item)
    requires OnlyAsk(s, l, None) && Ledger(s)[Lookup(l)] == 0 && ask.Ask? && ask.owner == User(l)
    requires Shift(s, s1, l, multiset{}, multiset{Lookup(l), ask}, [ask.name], [])
    ensures OnlyAsk(s1, l, Some(ask)) && Ledger(s1)[Lookup(l)] == 1
  {
    hide Ledger, Names, Errs;
    assert OfLookup(Lookup(l), l);
    forall x: Item | x.Ask? && x.owner == User(l) ensures Ledger(s1)[x] == if x == ask then 1 else 0 {
      assert OfLookup(x, l);
      assert Ledger(s1)[x] + multiset{}[x] == Ledger(s)[x] + multiset{Lookup(l), ask}[x];
    }
  }

  lemma NoAsk(s: State, s1: State, l: nat)
    requires OnlyAsk(s, l, None) && Untouched(s, s1, l)
    ensures OnlyAsk(s1, l, None)
  {
    hide Ledger, Names, Errs;
    forall x: Item | x.Ask? && x.owner == User(l) ensures Ledger(s1)[x] == 0 { assert OfLookup(x, l); }
  }

  /** The callback was told of a failure that is no timeout. */
  ghost predicate Failed(s: State, l: nat) {
    var errs := Errs(s.fired, l);
    errs != [] && errs[0] != NoErr && errs[0] != TimedOut
  }

  /** The search order over whole runs: whatever happens after a lookup is started, as long as no search is changed, the
      names asked for it are a beginning of its order, without gap or repetition, and all of them before the first
      refused one if it fails. It is taken on if and only if the first name is accepted. A timeout ends the search. */
  lemma NamesAskedInOrder(before: seq<Move>, s: State, qtype: QType, name: Text, noSearch: bool, w: World,
                          moves: seq<Move>, s': State)
    requires Runs(Initial(), before, s)
    requires Runs(Step(s, ResolveName(qtype, name, noSearch), w), moves, s') && SearchesFixed(moves)
    ensures var order := Order(s, qtype, name, noSearch);
            var asked := Names(s'.asked, s.nextLookup);
            && |asked| <= LeadingOk(order) && asked == order[..|asked|]
            && (LeadingOk(order) > 0 ==> asked != [])
            && (s.nextLookup in s'.accepted <==> LeadingOk(order) > 0)
            && (Failed(s', s.nextLookup) ==> |asked| == LeadingOk(order))
  {
    hide Inv, Ledger, Step, Runs, Names, Errs, Order, Enabled, OnlyAsk;
    var order, l := Order(s, qtype, name, noSearch), s.nextLookup;
    ResolveEnabled(s, qtype, name, noSearch);
    var s1 := Step(s, ResolveName(qtype, name, noSearch), w);
    Starts();
    RunKeeps(Initial(), before, s);
    StepKeeps(s, ResolveName(qtype, name, noSearch), w);
    RunKeeps(s1, moves, s');
    BalanceOf(s', l);
    var here := StartsTracked(s, qtype, name, noSearch, w);
    if NameOk(order[0]) {
      var k', here' := RunTracks(s1, moves, s', l, order, 1, here);
    } else {
      RunStaysAbsent(s1, moves, s', l);
    }
  }

  lemma ResolveEnabled(s: State, qtype: QType, name: Text, noSearch: bool)
    ensures Enabled(s, ResolveName(qtype, name, noSearch))
  {
  }

  /** The promise, exactly: a lookup that fails was asked under every name of its order if and only if every name of the
      order is accepted. */
  lemma WholeOrderIff(before: seq<Move>, s: State, qtype: QType, name: Text, noSearch: bool, w: World,
                      moves: seq<Move>, s': State)
    requires Runs(Initial(), before, s)
    requires Runs(Step(s, ResolveName(qtype, name, noSearch), w), moves, s') && SearchesFixed(moves)
    requires Failed(s', s.nextLookup)
    ensures var order := Order(s, qtype, name, noSearch);
            Names(s'.asked, s.nextLookup) == order <==> forall i :: 0 <= i < |order| ==> NameOk(order[i])
  {
    hide Runs, Step, Names, Errs, Order, NameOk;
    NamesAskedInOrder(before, s, qtype, name, noSearch, w, moves, s');
    var order := Order(s, qtype, name, noSearch);
    var asked := Names(s'.asked, s.nextLookup);
    assert order[..|order|] == order;
    if asked == order { assert LeadingOk(order) == |order|; }
  }

  // ---------- A name that is never asked ----------

  /** Four labels of 63 bytes: 255 bytes, which may be asked as they are. */
  function Long(): (name: Text) {
    var part: Text := seq(63, i => 97);
    part + ([DOT] + (part + ([DOT] + (part + ([DOT] + part)))))
  }

  lemma LabelFirst(part: Text, rest: Text)
    requires |part| <= MAX_LABEL && (forall i :: 0 <= i < |part| ==> part[i] != DOT)
    requires DnsCompression.LabelsShort(rest)
    ensures DnsCompression.LabelsShort(part + ([DOT] + rest))
    ensures NumDots(part + ([DOT] + rest)) == 1 + NumDots(rest)
  {
    var name := part + ([DOT] + rest);
    DnsCompression.FirstDotAt(name, |part|);
    assert name[|part| + 1..] == rest;
    DotsAfter(part, [DOT] + rest);
    assert ([DOT] + rest)[1..] == rest;
  }

  lemma {:induction false} DotsAfter(part: Text, rest: Text)
    requires forall i :: 0 <= i < |part| ==> part[i] != DOT
    ensures NumDots(part + rest) == NumDots(rest)
  {
    if part == [] {
      assert part + rest == rest;
    } else {
      assert (part + rest)[1..] == part[1..] + rest;
      DotsAfter(part[1..], rest);
    }
  }

  lemma NoDots(part: Text)
    requires forall i :: 0 <= i < |part| ==> part[i] != DOT
    ensures NumDots(part) == 0
  {
    DotsAfter(part, []);
    assert part + [] == part;
  }

  lemma LongIsFine()
    ensures |Long()| == 255 && NameOk(Long()) && NumDots(Long()) == 3 && Long()[254] != DOT
  {
    hide DnsCompression.LabelsShort, NumDots;
    var part: Text := seq(63, i => 97);
    DnsCompression.ShortName(part);
    NoDots(part);
    LabelFirst(part, part);
    LabelFirst(part, part + ([DOT] + part));
    LabelFirst(part, part + ([DOT] + (part + ([DOT] + part))));
  }

  /** A search with one suffix and four dots asked for */
  const DEEP := Initial().(searches := [SearchState([[120]], 4)], globalSearch := Some(0))

  lemma DeepIsReached() returns (before: seq<Move>)
    ensures Runs(Initial(), before, DEEP)
  {
    var nothing := World([], [], []);
    var a, b := Move(SearchAdd([120]), nothing), Move(SearchNdots(4), nothing);
    before := [a, b];
    var s1 := Step(Initial(), a.event, nothing);
    var empty: seq<Text> := [];
    assert StripDots([120]) == [120] && [[120]] + empty == [[120]];
    assert Global(WithGlobal(Initial())) == SearchState([], 1);
    assert s1 == Initial().(searches := [SearchState([[120]], 1)], globalSearch := Some(0));
    assert Step(s1, b.event, nothing) == DEEP;
    assert before[1..] == [b] && [b][1..] == [];
  }

  /** The order is not always asked in full: a name of 255 bytes with too few dots is too long under a suffix, and is
      given up without being asked as it is, although it could be. */
  lemma LongNameIsNeverAsked(w: World, moves: seq<Move>, s': State)
    requires Runs(Step(DEEP, ResolveName(A, Long(), false), w), moves, s') && SearchesFixed(moves)
    ensures var order := Order(DEEP, A, Long(), false);
            |order| == 2 && order[1] == Long() && NameOk(order[1]) && !NameOk(order[0])
    ensures 0 !in s'.accepted && Names(s'.asked, 0) == []
  {
    hide Runs, Step, Names, DnsCompression.LabelsShort, NumDots, Long;
    LongIsFine();
    var before := DeepIsReached();
    NamesAskedInOrder(before, DEEP, A, Long(), false, w, moves, s');
  }
}
