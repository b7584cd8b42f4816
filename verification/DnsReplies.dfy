/** What an answer, or its absence, means to the lookup it is for and to the server it was asked of. */
module DnsReplies {

  import opened Basics
  import opened DnsServers
  import opened DnsRequests
  import opened DnsLookups
  import opened DnsHealth

  // ---------- The header of an answer ----------

  /** What the numbers of RCODE mean, section 4.1.1 of RFC 1035 */
  const RCODES := [NoErr, Format, ServerFailed, NotExist, NotImpl, Refused]

  function Rcode(flags: nat): (code: nat)
    ensures code < 16
  {
    flags % 16
  }

  predicate IsAnswer(flags: nat) {
    flags / 0x8000 % 2 == 1
  }

  predicate IsTruncated(flags: nat) {
    flags / 0x200 % 2 == 1
  }

  /** The answer brings nothing: it is truncated, or has an RCODE, or no record. */
  predicate Bad(flags: nat, answered: bool) {
    IsTruncated(flags) || Rcode(flags) != 0 || !answered
  }

  function Failure(flags: nat): (err: Err) {
    if IsTruncated(flags) then Truncated
    else if 0 < Rcode(flags) < |RCODES| then RCODES[Rcode(flags)]
    else UnknownErr
  }

  /** The failures that speak against the server */
  predicate Blames(err: Err) {
    err == NotImpl || err == Refused
  }

  lemma FailureIs(flags: nat, answered: bool)
    ensures IsError(flags, answered) <==> Bad(flags, answered)
    ensures ErrorOf(flags) == Failure(flags)
  {}

  // ---------- What becomes of the request ----------

  /** nameserver_pick gives another server than the one the request has, once that has been taken for down. */
  predicate GoesElsewhere(s: State, i: nat)
    requires Assigned(s, i)
  {
    var s1 := NameserverFailed(s, s.inflight[i].ns.value);
    PickNs(s1).1 != s1.inflight[i].ns
  }

  /** The request is to be sent again, to another server, and its lookup has not noticed. */
  ghost predicate SentElsewhere(s: State, s': State, i: nat, l: nat)
    requires i < |s.inflight|
  {
    && Untouched(s, s', l) && i < |s'.inflight| && s'.inflight[i].ns.Some?
    && var r := s.inflight[i];
       s'.inflight[i] == r.(ns := s'.inflight[i].ns, reissues := r.reissues + 1, sent := 0, transmitMe := true)
  }

  /** An answer that brings nothing makes the lookup search on or fail, unless it blames the server and another is to be
      asked. */
  ghost predicate Disappoints(s: State, s': State, i: nat, l: nat, err: Err, elsewhere: bool)
    requires i < |s.inflight|
  {
    if Blames(err) && s.inflight[i].reissues < s.opts.maxReissues && elsewhere then SentElsewhere(s, s', i, l)
    else FailsOver(s, s', l, AskOf(s.inflight[i]), err)
  }

  lemma QuietThenFails(s: State, s1: State, s2: State, l: nat, ask: Item, err: Err)
    requires Quiet(s, s1) && s1.searches == s.searches && ask.Ask? && FailsOver(s1, s2, l, ask, err)
    ensures FailsOver(s, s2, l, ask, err)
  {
    hide Sound, Ledger, Names, Errs, NameOk;
  }

  lemma QuietThenUntouched(s: State, s1: State, s2: State, l: nat)
    requires Quiet(s, s1) && Untouched(s1, s2, l)
    ensures Untouched(s, s2, l)
  {
    hide Sound, Ledger, Names, Errs;
  }

  lemma QuietUntouched(s: State, s': State, l: nat)
    requires Quiet(s, s')
    ensures Untouched(s, s', l)
  {
    hide Sound, Ledger, Names, Errs;
  }

  lemma SameAsk(r: Request, r': Request)
    requires SameKey(r, r')
    ensures AskOf(r) == AskOf(r') && r.owner == r'.owner
  {}

  lemma FailsAfter(s: State, s1: State, i: nat, l: nat, err: Err)
    requires Quiet(s, s1) && Frame(s, s1) && i < |s.inflight| && s.inflight[i].owner == User(l)
    ensures FailsOver(s, Fail(s1, i, err), l, AskOf(s.inflight[i]), err)
  {
    hide Sound, Ledger, Fail, FailsOver, NextAsk, Settled, Concluded, Pumped;
    SameAsk(s.inflight[i], s1.inflight[i]);
    QuietSound(s, s1);
    FailKeeps(s1, i, err);
    QuietThenFails(s, s1, Fail(s1, i, err), l, AskOf(s.inflight[i]), err);
  }

  /** nameserver_failed gives a request another server, and changes nothing else about it. */
  lemma {:induction false} ReassignOnlyServer(s: State, a: nat, from: nat, i: nat)
    requires i < |s.inflight|
    ensures i < |Reassign(s, a, from).inflight| && Reassign(s, a, from).sends == s.sends
    ensures var r := s.inflight[i];
            var r' := Reassign(s, a, from).inflight[i];
            r' == r.(ns := r'.ns) && (r.sent > 0 ==> r' == r)
    decreases |s.inflight| - from
  {
    hide Pick;
    if from < |s.inflight| { ReassignOnlyServer(MoveOn(s, a, from), a, from + 1, i); }
  }

  lemma FailedOnlyServer(s: State, a: nat, i: nat)
    requires i < |s.inflight|
    ensures i < |NameserverFailed(s, a).inflight| && NameserverFailed(s, a).sends == s.sends
    ensures var r := s.inflight[i];
            var r' := NameserverFailed(s, a).inflight[i];
            r' == r.(ns := r'.ns) && (r.sent > 0 ==> r' == r)
  {
    hide Reassign, MarkDown, At, Ids;
    if a in Ids(s.ring.servers) { ReassignOnlyServer(s.(ring := MarkDown(s.ring, a)), a, 0, i); }
  }

  lemma Blamed(s: State, i: nat, l: nat, err: Err)
    requires Sound(s) && i < |s.inflight| && s.inflight[i].owner == User(l) && Assigned(s, i)
    ensures var (s2, moved) := Reissue(NameserverFailed(s, s.inflight[i].ns.value), i);
            && (moved <==> GoesElsewhere(s, i))
            && if moved then SentElsewhere(s, s2, i, l)
               else i < |s2.inflight| && FailsOver(s, Fail(s2, i, err), l, AskOf(s.inflight[i]), err)
  {
    hide Sound, Ledger, NameserverFailed, Fail, FailsOver, Pick, Ids, Untouched;
    var a := s.inflight[i].ns.value;
    var s1 := NameserverFailed(s, a);
    FailedKeeps(s, a);
    FailedOnlyServer(s, a, i);
    QuietSound(s, s1);
    ReissueKeeps(s1, i);
    var (s2, moved) := Reissue(s1, i);
    QuietTrans(s, s1, s2);
    QuietUntouched(s, s2, l);
    RequestAt(s2, i);
    if !moved {
      FrameTrans(s, s1, s2);
      FailsAfter(s, s2, i, l, err);
    }
  }

  lemma FrameTrans(s: State, s1: State, s2: State)
    requires Frame(s, s1) && Frame(s1, s2)
    ensures Frame(s, s2)
  {
    forall i | 0 <= i < |s.inflight| ensures SameKey(s.inflight[i], s2.inflight[i]) {
      assert SameKey(s.inflight[i], s1.inflight[i]) && SameKey(s1.inflight[i], s2.inflight[i]);
    }
  }

  lemma HandleBad(s: State, i: nat, l: nat, flags: nat, answered: bool)
    requires Sound(s) && i < |s.inflight| && s.inflight[i].owner == User(l) && Bad(flags, answered)
    ensures Assigned(s, i)
    ensures Disappoints(s, ReplyHandle(s, i, flags, answered), i, l, Failure(flags), GoesElsewhere(s, i))
  {
    hide Sound, Ledger, NameserverFailed, NameserverUp, Fail, FailsOver, SentElsewhere, Reissue, ErrorOf, IsError, Bad,
         Failure, Ids, GoesElsewhere, Pick;
    RequestAt(s, i);
    FailureIs(flags, answered);
    var a, err := s.inflight[i].ns.value, Failure(flags);
    QuietSelf(s);
    if Blames(err) && s.inflight[i].reissues < s.opts.maxReissues {
      Blamed(s, i, l, err);
    } else if Blames(err) || err == ServerFailed {
      FailsAfter(s, s, i, l, err);
    } else {
      UpKeeps(s, a);
      FailsAfter(s, NameserverUp(s, a), i, l, err);
    }
  }

  lemma QuietSelf(s: State)
    requires Sound(s)
    ensures Quiet(s, s) && Frame(s, s)
  {
    hide Ledger;
  }

  // ---------- An answer as an event ----------

  /** The state in which an answer is handled: the server it came from has been heard of. */
  function Heard(s: State, from: nat, w: World): (s': State)
    requires from in Ids(s.ring.servers)
  {
    s.(ids := w.ids, sends := w.sends, calls := w.calls, ring := SetServer(s.ring, At(s.ring, from).(timedout := 0)))
  }

  lemma HeardKeeps(s: State, from: nat, w: World)
    requires Sound(s) && from in Ids(s.ring.servers)
    ensures Quiet(s, Heard(s, from, w)) && Heard(s, from, w).searches == s.searches
    ensures Heard(s, from, w).inflight == s.inflight && Heard(s, from, w).opts == s.opts
  {
    hide Sound, Ledger, SetServer, At, Ids;
    var s0 := s.(ids := w.ids, sends := w.sends, calls := w.calls);
    WorldKeeps(s, w);
    TouchKeeps(s0, At(s.ring, from).(timedout := 0));
    QuietTrans(s, s0, Heard(s, from, w));
  }

  /** The answer of any configured server reaches the request with its id, if it says that it is one. */
  lemma ReplyReaches(s: State, i: nat, from: nat, flags: nat, answered: bool, w: World)
    requires Sound(s) && i < |s.inflight| && from in Ids(s.ring.servers) && IsAnswer(flags)
    ensures Step(s, ReplyFrom(from, s.inflight[i].transId, flags, answered), w)
         == ReplyHandle(Heard(s, from, w), i, flags, answered)
  {
    hide ReplyHandle, SetServer, At, Ids, FindId;
    Distinct(s);
    Finds(s.inflight, i, 0);
  }

  lemma Distinct(s: State)
    requires Sound(s)
    ensures IdsDistinct(s.inflight)
  {}

  lemma {:induction false} Finds(q: seq<Request>, i: nat, from: nat)
    requires IdsDistinct(q) && from <= i < |q|
    ensures FindId(q, q[i].transId, from) == i
    decreases i - from
  {
    if from < i {
      assert q[from].transId != q[i].transId;
      Finds(q, i, from + 1);
    }
  }

  /** An answer that brings nothing, from any configured server, whatever the world decides: if it blames the server,
      the request may still be reissued and another server is picked, that one is asked; in every other case the lookup
      goes on to the next name of its search, or its callback is told the failure that the header names. */
  lemma BadAnswer(s: State, i: nat, l: nat, from: nat, flags: nat, answered: bool, w: World)
    requires Sound(s) && i < |s.inflight| && s.inflight[i].owner == User(l)
    requires from in Ids(s.ring.servers) && IsAnswer(flags) && Bad(flags, answered)
    ensures var s1 := Heard(s, from, w);
            && Assigned(s1, i)
            && Disappoints(s, Step(s, ReplyFrom(from, s.inflight[i].transId, flags, answered), w), i, l, Failure(flags),
                           GoesElsewhere(s1, i))
  {
    hide Sound, Ledger, Heard, Step, ReplyHandle, GoesElsewhere, FailsOver, Untouched, Bad, Failure, Ids, Quiet;
    var s1 := Heard(s, from, w);
    HeardKeeps(s, from, w);
    QuietSound(s, s1);
    HandleBad(s1, i, l, flags, answered);
    ReplyReaches(s, i, from, flags, answered, w);
    Disappointed(s, s1, ReplyHandle(s1, i, flags, answered), i, l, Failure(flags), GoesElsewhere(s1, i));
  }

  lemma Disappointed(s: State, s1: State, s2: State, i: nat, l: nat, err: Err, elsewhere: bool)
    requires Quiet(s, s1) && s1.searches == s.searches && s1.inflight == s.inflight && s1.opts == s.opts
    requires i < |s.inflight| && Disappoints(s1, s2, i, l, err, elsewhere)
    ensures Disappoints(s, s2, i, l, err, elsewhere)
  {
    hide Sound, Ledger, FailsOver, Untouched, Quiet;
    if Blames(err) && s.inflight[i].reissues < s.opts.maxReissues && elsewhere {
      QuietThenUntouched(s, s1, s2, l);
    } else {
      QuietThenFails(s, s1, s2, l, AskOf(s.inflight[i]), err);
    }
  }

  /** An answer that brings something ends the lookup with it. */
  lemma GoodAnswer(s: State, i: nat, l: nat, from: nat, flags: nat, w: World)
    requires Sound(s) && i < |s.inflight| && s.inflight[i].owner == User(l)
    requires from in Ids(s.ring.servers) && IsAnswer(flags) && !Bad(flags, true)
    ensures Ends(s, Step(s, ReplyFrom(from, s.inflight[i].transId, flags, true), w), l, AskOf(s.inflight[i]), NoErr)
  {
    hide Sound, Ledger, Heard, Step, Ids, Names, Errs, Bad, IsError, Answer, Finished, NameserverUp, NextAsk, Owed;
    var s1 := Heard(s, from, w);
    HeardKeeps(s, from, w);
    RequestAt(s1, i);
    AcceptKeeps(s1, i);
    FailureIs(flags, true);
    ReplyReaches(s, i, from, flags, true, w);
    AskCarried(s, i);
  }

  /** What does not say that it is an answer, and what answers no request in flight, is ignored. */
  lemma NoAnswer(s: State, l: nat, from: nat, id: TransId, flags: nat, answered: bool, w: World)
    requires Sound(s) && from in Ids(s.ring.servers)
    requires !IsAnswer(flags) || forall i :: 0 <= i < |s.inflight| ==> s.inflight[i].transId != id
    ensures var s' := Step(s, ReplyFrom(from, id, flags, answered), w);
            Untouched(s, s', l) && s'.inflight == s.inflight && s'.waiting == s.waiting
  {
    hide Sound, Ledger, Ids, SetServer, At, ReplyHandle, Untouched, FindId;
    HeardKeeps(s, from, w);
    QuietUntouched(s, Heard(s, from, w), l);
    assert Step(s, ReplyFrom(from, id, flags, answered), w) == Heard(s, from, w);
  }

  // ---------- When another server is asked ----------

  /** There is another server that is up, or all are down and the head of the ring comes to another. */
  predicate HasOther(q: seq<Server>, a: nat) {
    (exists k :: 0 <= k < |q| && q[k].up && q[k].id != a) || (q != [] && q[1 % |q|].id != a)
  }

  lemma {:induction false} ReassignRing(s: State, a: nat, i: nat)
    requires Apart(s.ring)
    ensures var r' := Reassign(s, a, i).ring;
            && Apart(r') && Ids(r'.servers) == Ids(s.ring.servers)
            && forall b :: b in Ids(s.ring.servers) ==> At(r', b) == At(s.ring, b)
    decreases |s.inflight| - i
  {
    hide Pick, Ids, At, Apart;
    if i < |s.inflight| {
      var s1 := MoveOn(s, a, i);
      forall b | b in Ids(s.ring.servers)
        ensures b in Ids(Pick(s.ring).0.servers) && At(Pick(s.ring).0, b) == At(s.ring, b)
      {
        AtPick(s.ring, b);
      }
      PickApart(s.ring);
      ReassignRing(s1, a, i + 1);
    }
  }

  lemma PickApart(r: Ring)
    requires Apart(r)
    ensures Apart(Pick(r).0) && Ids(Pick(r).0.servers) == Ids(r.servers)
  {
    hide Pick, Ids, Drift;
    PickKeepsRing(r);
  }

  lemma FailedRing(s: State, a: nat)
    requires Apart(s.ring) && a in Ids(s.ring.servers)
    ensures var r' := NameserverFailed(s, a).ring;
            && Apart(r') && Ids(r'.servers) == Ids(s.ring.servers)
            && forall b :: b in Ids(s.ring.servers) ==>
                 At(r', b) == if b == a then Fallen(At(s.ring, a)) else At(s.ring, b)
  {
    hide Ids, At, Apart, SetServer, Reassign;
    if At(s.ring, a).up {
      var r1 := MarkDown(s.ring, a);
      AtSet(s.ring, Fallen(At(s.ring, a)), s.ring.good - 1, a);
      forall b | b in Ids(s.ring.servers)
        ensures b in Ids(r1.servers) && At(r1, b) == if b == a then Fallen(At(s.ring, a)) else At(s.ring, b)
      {
        AtSet(s.ring, Fallen(At(s.ring, a)), s.ring.good - 1, b);
      }
      ReassignRing(s.(ring := r1), a, 0);
    }
  }

  lemma PicksOther(r: Ring, a: nat, k: nat)
    requires RingOk(r) && a in Ids(r.servers) && !At(r, a).up && k < |r.servers| && r.servers[k].up
    ensures Pick(r).1.Some? && Pick(r).1.value != a
  {
    hide Pick, Ids, At, UpCount, UpList;
    var q := r.servers;
    UpListMember(q, q[k].id);
    UpListLength(q);
    PickIsGood(r);
    var p := Pick(r).1.value;
    UpListMember(q, p);
    var j :| 0 <= j < |q| && q[j].up && q[j].id == p;
    FoundAt(r, j);
  }

  lemma PicksNext(r: Ring)
    requires r.servers != [] && r.good == 0
    ensures Pick(r).1 == Some(r.servers[1 % |r.servers|].id)
  {
    var q := r.servers;
    assert Rotate(q, 1)[0] == if |q| == 1 then q[0] else q[1];
  }

  lemma NoneLeft(s: State, a: nat)
    requires RingOk(s.ring) && a in Ids(s.ring.servers)
    requires forall k :: 0 <= k < |s.ring.servers| && s.ring.servers[k].up ==> s.ring.servers[k].id == a
    ensures var r' := NameserverFailed(s, a).ring;
            && r'.good == 0 && |r'.servers| == |s.ring.servers|
            && forall k :: 0 <= k < |r'.servers| ==> r'.servers[k].id == s.ring.servers[k].id
  {
    hide Ids, UpCount, Reassign;
    var r, q, i := s.ring, s.ring.servers, IndexOf(s.ring.servers, a);
    MarkKeeps(r, a);
    var q' := MarkDown(r, a).servers;
    forall k | 0 <= k < |q'| ensures !q'[k].up {
      if k != i { OthersDiffer(q, i, k); }
    }
    NoneUp(q');
  }

  /** For a request that has been sent, and as long as the counter of good servers is exact. */
  lemma GoesElsewhereIff(s: State, i: nat)
    requires Sound(s) && !s.tainted && i < |s.inflight| && s.inflight[i].sent > 0
    ensures Assigned(s, i) && (GoesElsewhere(s, i) <==> HasOther(s.ring.servers, s.inflight[i].ns.value))
  {
    hide Sound, Ids, At, UpCount, NameserverFailed, Pick, Fallen;
    RequestAt(s, i);
    ExactRing(s);
    var a, q := s.inflight[i].ns.value, s.ring.servers;
    var s1 := NameserverFailed(s, a);
    FailedOnlyServer(s, a, i);
    FailedKeeps(s, a);
    FailedRing(s, a);
    StaysDown(s, a);
    if k :| 0 <= k < |q| && q[k].up && q[k].id != a {
      FoundAt(s.ring, k);
      var j := IndexOf(s1.ring.servers, q[k].id);
      AtIs(s1.ring, q[k].id);
      PicksOther(s1.ring, a, j);
    } else {
      NoneLeft(s, a);
      HasServers(s, i);
      PicksNext(s1.ring);
    }
  }

  lemma AtIs(r: Ring, a: nat)
    requires a in Ids(r.servers)
    ensures At(r, a) == r.servers[IndexOf(r.servers, a)]
  {}

  lemma StaysDown(s: State, a: nat)
    requires a in Ids(s.ring.servers)
    ensures !Fallen(At(s.ring, a)).up
  {}

  lemma HasServers(s: State, i: nat)
    requires Assigned(s, i)
    ensures s.ring.servers != []
  {}

  lemma ExactRing(s: State)
    requires Sound(s)
    ensures Apart(s.ring) && (!s.tainted ==> RingOk(s.ring))
  {}

  // ---------- What an answer says of the server ----------

  /** A server after an answer to a request that was sent to it */
  function Judged(x: Server, err: Err, again: bool): (y: Server) {
    if err == ServerFailed then x
    else if Blames(err) then if again then Fallen(x) else x
    else Revived(x)
  }

  function Fresh(x: Server): (y: Server) {
    x.(timedout := 0)
  }

  /** The server `from` has been heard of, the server a is judged, and the others are as they were. */
  ghost predicate Judges(s: State, s': State, from: nat, a: nat, err: Err, again: bool) {
    && Ids(s'.ring.servers) == Ids(s.ring.servers)
    && forall b :: b in Ids(s.ring.servers) ==>
         var x := if b == from then Fresh(At(s.ring, b)) else At(s.ring, b);
         Alike(if b == a then Judged(x, err, again) else x, At(s'.ring, b))
  }

  lemma HeardRates(s: State, from: nat, w: World)
    requires Sound(s) && from in Ids(s.ring.servers) && forall k :: 0 <= k < |w.sends| ==> w.sends[k] != SendFailed
    ensures var s1 := Heard(s, from, w);
            Calm(s1) && Rated(s, s1, from, Fresh(At(s.ring, from)))
  {
    hide Sound, SetServer, At, Ids;
    ExactRing(s);
    var s0 := s.(ids := w.ids, sends := w.sends, calls := w.calls);
    SetRated(s0, Fresh(At(s.ring, from)), s.ring.good);
    GoodSame(s.ring, Fresh(At(s.ring, from)));
  }

  lemma GoodSame(r: Ring, x: Server)
    requires x.id in Ids(r.servers)
    ensures SetServer(r, x).(good := r.good) == SetServer(r, x)
  {}

  lemma JudgedBy(s: State, s1: State, s2: State, from: nat, a: nat, err: Err, again: bool)
    requires from in Ids(s.ring.servers) && a in Ids(s.ring.servers)
    requires Rated(s, s1, from, Fresh(At(s.ring, from)))
    requires a in Ids(s1.ring.servers) && Rated(s1, s2, a, Judged(At(s1.ring, a), err, again))
    ensures Judges(s, s2, from, a, err, again)
  {
    hide Ids, At;
  }

  /** Unless a send fails, a bad answer does to the servers just what it says: the one it came from has no timeouts any
      more; the one that was asked is down if it is blamed and the request may be reissued, as it was if it failed, and
      up in all other cases. */
  lemma BadAnswerJudges(s: State, i: nat, l: nat, from: nat, flags: nat, answered: bool, w: World)
    requires Sound(s) && i < |s.inflight| && s.inflight[i].owner == User(l)
    requires from in Ids(s.ring.servers) && IsAnswer(flags) && Bad(flags, answered)
    requires forall k :: 0 <= k < |w.sends| ==> w.sends[k] != SendFailed
    ensures Assigned(s, i)
    ensures Judges(s, Step(s, ReplyFrom(from, s.inflight[i].transId, flags, answered), w), from,
                   s.inflight[i].ns.value, Failure(flags), s.inflight[i].reissues < s.opts.maxReissues)
  {
    hide Sound, Heard, Step, Ids, At, Judges, Rated, Bad, IsError, ErrorOf, Failure, ReplyHandle, Calm, Judged;
    RequestAt(s, i);
    var s1, a, err := Heard(s, from, w), s.inflight[i].ns.value, Failure(flags);
    HeardKeeps(s, from, w);
    HeardRates(s, from, w);
    RequestAt(s1, i);
    var again := s.inflight[i].reissues < s.opts.maxReissues;
    HandleRates(s1, i, flags, answered);
    ReplyReaches(s, i, from, flags, answered, w);
    JudgedBy(s, s1, ReplyHandle(s1, i, flags, answered), from, a, err, again);
  }

  lemma HandleRates(s: State, i: nat, flags: nat, answered: bool)
    requires Assigned(s, i) && s.inflight[i].owner.User? && Calm(s) && Bad(flags, answered)
    ensures Rated(s, ReplyHandle(s, i, flags, answered), s.inflight[i].ns.value,
                  Judged(At(s.ring, s.inflight[i].ns.value), Failure(flags),
                         s.inflight[i].reissues < s.opts.maxReissues))
  {
    hide Ids, At, Rated, Bad, IsError, ErrorOf, Failure, Calm, NameserverUp, NameserverFailed, Fail, Reissue, Steady,
         Fallen, Revived;
    FailureIs(flags, answered);
    var a, err := s.inflight[i].ns.value, Failure(flags);
    if Blames(err) && s.inflight[i].reissues < s.opts.maxReissues {
      var s1 := NameserverFailed(s, a);
      FailedRates(s, a);
      FailedOnlyServer(s, a, i);
      var s2 := Reissue(s1, i).0;
      ReissueSteady(s1, i);
      ReissueOwner(s1, i);
      FailSteady(s2, i, err);
      RatedSteady(s, s1, s2, a, Fallen(At(s.ring, a)));
      RatedSteady(s, s2, Fail(s2, i, err), a, Fallen(At(s.ring, a)));
    } else if Blames(err) || err == ServerFailed {
      FailSteady(s, i, err);
      SteadyRated(s, Fail(s, i, err), a);
    } else {
      var s1 := NameserverUp(s, a);
      UpRates(s, a);
      UpInflight(s, a);
      FailSteady(s1, i, err);
      RatedSteady(s, s1, Fail(s1, i, err), a, Revived(At(s.ring, a)));
    }
  }

  lemma UpInflight(s: State, a: nat)
    ensures NameserverUp(s, a).inflight == s.inflight
  {}

  lemma ReissueOwner(s: State, i: nat)
    requires i < |s.inflight|
    ensures i < |Reissue(s, i).0.inflight| && Reissue(s, i).0.inflight[i].owner == s.inflight[i].owner
  {
    hide Pick;
  }

  // ---------- No answer ----------

  /** A server after another of its requests has timed out */
  function Overdue(x: Server, maxTimeouts: int): (y: Server) {
    if x.timedout + 1 > maxTimeouts then Fallen(x.(timedout := 0)) else x.(timedout := x.timedout + 1)
  }

  /** The request has been sent once more and its timer runs. */
  predicate SentAgain(r: Request, r': Request) {
    r' == r.(ns := r'.ns, armed := true, sent := r.sent + 1, transmitMe := false)
  }

  /** The request waits for its socket, and its timer does not run. */
  predicate HeldBack(r: Request, r': Request) {
    r' == r.(ns := r'.ns, armed := false, transmitMe := true)
  }

  lemma CountRing(s: State, a: nat)
    requires Apart(s.ring) && a in Ids(s.ring.servers)
    ensures var r' := CountTimeout(s, a).ring;
            && Apart(r') && Ids(r'.servers) == Ids(s.ring.servers)
            && forall b :: b in Ids(s.ring.servers) ==>
                 At(r', b) == if b == a then Overdue(At(s.ring, a), s.opts.maxTimeouts) else At(s.ring, b)
  {
    hide Ids, At, Apart, SetServer, NameserverFailed;
    var x := At(s.ring, a);
    var over := x.timedout + 1 > s.opts.maxTimeouts;
    var y := x.(timedout := if over then 0 else x.timedout + 1);
    var r1 := SetServer(s.ring, y);
    GoodSame(s.ring, y);
    AtSet(s.ring, y, s.ring.good, a);
    forall b | b in Ids(s.ring.servers)
      ensures b in Ids(r1.servers) && At(r1, b) == if b == a then y else At(s.ring, b)
    {
      AtSet(s.ring, y, s.ring.good, b);
    }
    if over { FailedRing(s.(ring := r1), a); }
  }

  lemma CountOnlyServer(s: State, a: nat, i: nat)
    requires i < |s.inflight| && a in Ids(s.ring.servers)
    ensures i < |CountTimeout(s, a).inflight| && CountTimeout(s, a).sends == s.sends
    ensures var r := s.inflight[i];
            var r' := CountTimeout(s, a).inflight[i];
            r' == r.(ns := r'.ns) && (r.sent > 0 ==> r' == r)
  {
    hide Ids, At, SetServer, NameserverFailed;
    var x := At(s.ring, a);
    var over := x.timedout + 1 > s.opts.maxTimeouts;
    FailedOnlyServer(s.(ring := SetServer(s.ring, x.(timedout := if over then 0 else x.timedout + 1))), a, i);
  }

  /** Nothing but a server and the servers of unsent requests is touched. */
  lemma CountKeeps(s: State, a: nat)
    requires Sound(s) && a in Ids(s.ring.servers)
    ensures Quiet(s, CountTimeout(s, a)) && Frame(s, CountTimeout(s, a))
  {
    hide Sound, Ledger, At, SetServer, NameserverFailed, Ids, Quiet;
    var x := At(s.ring, a);
    var over := x.timedout + 1 > s.opts.maxTimeouts;
    var y := x.(timedout := if over then 0 else x.timedout + 1);
    var s1 := s.(ring := SetServer(s.ring, y));
    TouchKeeps(s, y);
    QuietSound(s, s1);
    SelfFrame(s, s1);
    if over {
      FailedKeeps(s1, a);
      QuietTrans(s, s1, NameserverFailed(s1, a));
      FrameTrans(s, s1, NameserverFailed(s1, a));
    }
  }

  lemma SelfFrame(s: State, s': State)
    requires s' == s.(ring := s'.ring)
    ensures Frame(s, s')
  {}

  lemma DisarmFrame(s: State, i: nat)
    requires i < |s.inflight|
    ensures Frame(s, SetReq(s, i, s.inflight[i].(armed := false)))
  {}

  lemma TransmitIs(s: State, i: nat)
    requires Assigned(s, i)
    ensures i < |Transmit(s, i).inflight|
    ensures var r := s.inflight[i];
            var r' := Transmit(s, i).inflight[i];
            if !At(s.ring, r.ns.value).choked && (s.sends == [] || s.sends[0] != Again) then SentAgain(r, r')
            else r' == r.(transmitMe := true)
  {
    hide Ids, At, SetServer, NameserverFailed;
    var s1 := SetReq(s, i, s.inflight[i].(transmitMe := true));
    if s.sends != [] {
      var s2 := s1.(sends := s.sends[1..]);
      FailedOnlyServer(s2, At(s.ring, s.inflight[i].ns.value).id, i);
    }
  }

  /** A request whose timer fires is given up, and its callback is told of a timeout, once it has been sent as often as
      allowed. Before that it is sent once more, or held back if the socket of its server is choked. */
  lemma TimerFires(s: State, i: nat, l: nat, w: World)
    requires Sound(s) && i < |s.inflight| && s.inflight[i].owner == User(l) && Enabled(s, RequestTimer(i))
    ensures var s' := Step(s, RequestTimer(i), w);
            var r := s.inflight[i];
            && Assigned(s, i)
            && if r.sent >= s.opts.maxRetransmits then Ends(s, s', l, AskOf(r), TimedOut)
               else
                 && Untouched(s, s', l) && i < |s'.inflight|
                 && (SentAgain(r, s'.inflight[i]) || HeldBack(r, s'.inflight[i]))
                 && (r.sent > 0 ==> (SentAgain(r, s'.inflight[i]) <==>
                                     !At(s.ring, r.ns.value).choked && (w.sends == [] || w.sends[0] != Again)))
  {
    hide Sound, Ledger, Ids, At, CountTimeout, Transmit, Conclude, Ends, Untouched, Quiet, Enabled, AskOf, Frame;
    var s0 := s.(ids := w.ids, sends := w.sends, calls := w.calls);
    WorldKeeps(s, w);
    SameFrame(s, s0);
    QuietSound(s, s0);
    RequestAt(s0, i);
    var r, a := s.inflight[i], s.inflight[i].ns.value;
    var s2 := CountTimeout(s0, a);
    CountKeeps(s0, a);
    CountOnlyServer(s0, a, i);
    ExactRing(s);
    CountRing(s0, a);
    OverdueSocket(At(s.ring, a), s.opts.maxTimeouts);
    var s3 := SetReq(s2, i, s2.inflight[i].(armed := false));
    QuietSound(s0, s2);
    DisarmKeeps(s2, i);
    DisarmFrame(s2, i);
    QuietSound(s2, s3);
    QuietTrans(s, s0, s2);
    QuietTrans(s, s2, s3);
    FrameTrans(s0, s2, s3);
    if r.sent >= s.opts.maxRetransmits {
      AskCarried(s, i);
      GivenUp(s, s0, s3, i, l);
    } else {
      RequestAt(s3, i);
      TransmitIs(s3, i);
      TransmitKeeps(s3, i);
      QuietTrans(s, s3, Transmit(s3, i));
      QuietUntouched(s, Transmit(s3, i), l);
    }
  }

  lemma OverdueSocket(x: Server, maxTimeouts: int)
    ensures Overdue(x, maxTimeouts).choked == x.choked
  {}

  lemma SameFrame(s: State, s': State)
    requires s' == s.(ids := s'.ids, sends := s'.sends, calls := s'.calls)
    ensures s'.inflight == s.inflight && s'.ring == s.ring && s'.opts == s.opts && s'.searches == s.searches
  {}

  lemma GivenUp(s: State, s0: State, s3: State, i: nat, l: nat)
    requires Quiet(s, s3) && s0.inflight == s.inflight && Frame(s0, s3)
    requires i < |s.inflight| && s.inflight[i].owner == User(l) && AskOf(s.inflight[i]) in Ledger(s) && Sound(s)
    ensures i < |s3.inflight| && Ends(s, Conclude(s3, i, TimedOut), l, AskOf(s.inflight[i]), TimedOut)
  {
    hide Ledger, Sound, Conclude, Names, Errs, NextAsk, Owed;
    SameAsk(s.inflight[i], s3.inflight[i]);
    RequestAt(s, i);
    ConcludeKeeps(s3, i, TimedOut);
  }

  /** Unless a send fails, a timeout counts against the server, which is taken for down when there are too many. */
  lemma TimerJudges(s: State, i: nat, l: nat, w: World)
    requires Sound(s) && i < |s.inflight| && s.inflight[i].owner == User(l) && Enabled(s, RequestTimer(i))
    requires forall k :: 0 <= k < |w.sends| ==> w.sends[k] != SendFailed
    ensures Assigned(s, i)
    ensures var a := s.inflight[i].ns.value;
            Rated(s, Step(s, RequestTimer(i), w), a, Overdue(At(s.ring, a), s.opts.maxTimeouts))
  {
    hide Sound, Ids, At, CountTimeout, Transmit, Conclude, Steady, Enabled, Overdue;
    var s0 := s.(ids := w.ids, sends := w.sends, calls := w.calls);
    WorldKeeps(s, w);
    QuietSound(s, s0);
    RequestAt(s0, i);
    ExactRing(s);
    var a := s.inflight[i].ns.value;
    var x := Overdue(At(s.ring, a), s.opts.maxTimeouts);
    var s2 := CountTimeout(s0, a);
    CountOnlyServer(s0, a, i);
    CountRing(s0, a);
    var s3 := SetReq(s2, i, s2.inflight[i].(armed := false));
    assert Calm(s3) && Rated(s, s3, a, x);
    ConcludeSteady(s3, i, TimedOut);
    TransmitSteady(s3, i);
    RatedSteady(s, s3, Conclude(s3, i, TimedOut), a, x);
    RatedSteady(s, s3, Transmit(s3, i), a, x);
  }
}
