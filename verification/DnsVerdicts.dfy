/** What answers, probes and errors make of the servers, and where the requests of a server that fails go. */
module DnsVerdicts {

  import opened Basics
  import opened DnsNames
  import opened DnsServers
  import opened DnsRequests
  import opened DnsLookups
  import opened DnsHealth
  import opened DnsReplies

  // ---------- A server fails ----------

  /** Some other server is up. */
  ghost predicate OtherUp(r: Ring, a: nat) {
    exists b :: b in Ids(r.servers) && b != a && At(r, b).up
  }

  lemma StillGood(r: Ring, b: nat)
    requires RingOk(r) && b in Ids(r.servers) && At(r, b).up
    ensures r.good > 0
  {
    hide Ids, UpCount, UpList;
    UpListMember(r.servers, b);
    UpListLength(r.servers);
  }

  lemma PicksUp(r: Ring, b: nat)
    requires RingOk(r) && b in Ids(r.servers) && At(r, b).up
    ensures var (r', p) := Pick(r);
            && RingOk(r') && Ids(r'.servers) == Ids(r.servers) && p.Some? && p.value in Ids(r.servers)
            && At(r, p.value).up
            && forall c :: c in Ids(r.servers) ==> At(r', c) == At(r, c)
  {
    hide Pick, Ids, At, UpCount, UpList, Drift;
    var q := r.servers;
    StillGood(r, b);
    PickIsGood(r);
    PickApart(r);
    var p := Pick(r).1.value;
    UpListMember(q, p);
    var j :| 0 <= j < |q| && q[j].up && q[j].id == p;
    FoundAt(r, j);
    forall c | c in Ids(q) ensures At(Pick(r).0, c) == At(r, c) { AtPick(r, c); }
  }

  /** A request that the loop of nameserver_failed looks at */
  ghost predicate Moved(r: Ring, a: nat, x: Request, x': Request) {
    if x.sent == 0 && x.ns == Some(a) then
      x' == x.(ns := x'.ns) && x'.ns.Some? && x'.ns.value in Ids(r.servers) && At(r, x'.ns.value).up
    else x' == x
  }

  lemma {:induction false} ReassignMoves(s: State, a: nat, b: nat, from: nat, i: nat)
    requires RingOk(s.ring) && a in Ids(s.ring.servers) && !At(s.ring, a).up
    requires b in Ids(s.ring.servers) && At(s.ring, b).up && i < |s.inflight|
    ensures i < |Reassign(s, a, from).inflight|
    ensures var x, x' := s.inflight[i], Reassign(s, a, from).inflight[i];
            if i < from then x' == x else Moved(s.ring, a, x, x')
    decreases |s.inflight| - from
  {
    hide Pick, Ids, At, RingOk;
    if from < |s.inflight| {
      PicksUp(s.ring, b);
      ReassignMoves(MoveOn(s, a, from), a, b, from + 1, i);
    }
  }

  lemma FailedMoves(s: State, a: nat, i: nat)
    requires RingOk(s.ring) && a in Ids(s.ring.servers) && i < |s.inflight|
    ensures i < |NameserverFailed(s, a).inflight|
    ensures var x, x' := s.inflight[i], NameserverFailed(s, a).inflight[i];
            if At(s.ring, a).up && OtherUp(s.ring, a) then Moved(NameserverFailed(s, a).ring, a, x, x') else x' == x
  {
    hide Ids, At, RingOk, Reassign, MarkDown, UpCount;
    if At(s.ring, a).up {
      var s1 := s.(ring := MarkDown(s.ring, a));
      DownRing(s, a);
      if OtherUp(s.ring, a) {
        var b :| b in Ids(s.ring.servers) && b != a && At(s.ring, b).up;
        StillGood(s1.ring, b);
        ReassignMoves(s1, a, b, 0, i);
        RingOkApart(s1.ring);
        ReassignRing(s1, a, 0);
      } else {
        NoneGood(s1.ring);
      }
    }
  }

  lemma RingOkApart(r: Ring)
    requires RingOk(r)
    ensures Apart(r)
  {}

  lemma DownRing(s: State, a: nat)
    requires RingOk(s.ring) && a in Ids(s.ring.servers) && At(s.ring, a).up
    ensures var r' := MarkDown(s.ring, a);
            && RingOk(r') && Ids(r'.servers) == Ids(s.ring.servers) && !At(r', a).up
            && forall b :: b in Ids(s.ring.servers) && b != a ==> At(r', b) == At(s.ring, b)
  {
    hide Ids, At, UpCount, SetServer, Apart;
    MarkKeeps(s.ring, a);
    RingOkApart(s.ring);
    var x := Fallen(At(s.ring, a));
    AtSet(s.ring, x, s.ring.good - 1, a);
    forall b | b in Ids(s.ring.servers) && b != a ensures At(MarkDown(s.ring, a), b) == At(s.ring, b) {
      AtSet(s.ring, x, s.ring.good - 1, b);
    }
  }

  lemma NoneGood(r: Ring)
    requires RingOk(r) && forall b :: b in Ids(r.servers) ==> !At(r, b).up
    ensures r.good == 0
  {
    hide Ids, At, UpCount;
    RingOkApart(r);
    forall k | 0 <= k < |r.servers| ensures !r.servers[k].up { FoundAt(r, k); }
    NoneUp(r.servers);
  }

  /** As long as the counter of good servers is exact: a server whose socket reports an error is taken for down. Its
      requests that have not been sent go to servers that are up, if there are any; all other requests stay as they
      are. */
  lemma ErrorMovesRequests(s: State, a: nat, w: World)
    requires Sound(s) && !s.tainted && a in Ids(s.ring.servers)
    ensures var s' := Step(s, ReadError(a), w);
            && Ids(s'.ring.servers) == Ids(s.ring.servers) && |s'.inflight| == |s.inflight| && s'.waiting == s.waiting
            && (forall b :: b in Ids(s.ring.servers) ==>
                  At(s'.ring, b) == if b == a then Fallen(At(s.ring, a)) else At(s.ring, b))
            && forall i :: 0 <= i < |s.inflight| ==>
                 if At(s.ring, a).up && OtherUp(s.ring, a) then Moved(s'.ring, a, s.inflight[i], s'.inflight[i])
                 else s'.inflight[i] == s.inflight[i]
  {
    hide Sound, Ids, At, NameserverFailed, Fallen, Moved, OtherUp, RingOk;
    ExactRing(s);
    var s0 := s.(ids := w.ids, sends := w.sends, calls := w.calls);
    FailedRing(s0, a);
    forall i | 0 <= i < |s.inflight|
      ensures i < |NameserverFailed(s0, a).inflight|
      ensures if At(s.ring, a).up && OtherUp(s.ring, a)
              then Moved(NameserverFailed(s0, a).ring, a, s.inflight[i], NameserverFailed(s0, a).inflight[i])
              else NameserverFailed(s0, a).inflight[i] == s.inflight[i]
    {
      FailedMoves(s0, a, i);
    }
  }

  // ---------- A good answer ----------

  /** Unless a send fails, the requests in flight stay with their servers. */
  ghost predicate Loyal(s: State, s': State) {
    && |s.inflight| <= |s'.inflight|
    && (Calm(s) ==> Calm(s') && forall i :: 0 <= i < |s.inflight| ==> s'.inflight[i].ns == s.inflight[i].ns)
  }

  lemma LoyalTrans(s: State, s1: State, s2: State)
    requires Loyal(s, s1) && Loyal(s1, s2)
    ensures Loyal(s, s2)
  {
    hide Calm;
  }

  lemma TransmitLoyal(s: State, i: nat)
    ensures Loyal(s, Transmit(s, i))
  {
    hide NameserverFailed, SetServer, At, Ids, Steady;
    TransmitSteady(s, i);
    if Calm(s) { SteadyCalm(s, Transmit(s, i)); }
  }

  lemma SteadyCalm(s: State, s': State)
    requires Steady(s, s') && Calm(s)
    ensures Calm(s')
  {
    hide Calm;
  }

  lemma SubmitLoyal(s: State, r: Request)
    ensures Loyal(s, Submit(s, r))
  {
    hide Transmit, Calm, Apart;
    TransmitLoyal(Launch(s, r), |s.inflight|);
    SameCalm(s, Launch(s, r));
    SameCalm(s, Enqueue(s, r));
  }

  lemma SameCalm(s: State, s': State)
    requires s'.ring == s.ring && s'.sends == s.sends
    ensures Calm(s) ==> Calm(s')
  {}

  lemma ResolveLoyal(s: State, qtype: QType, name: Text, noSearch: bool)
    ensures Loyal(s, Resolve(s, qtype, name, noSearch))
  {
    hide RequestNew, Submit, FirstTry, Calm;
    var l, s0 := s.nextLookup, s.(nextLookup := s.nextLookup + 1);
    var (first, search) := FirstTry(s, name, noSearch || qtype == Ptr);
    var (s1, r) := RequestNew(s0, User(l), qtype, first);
    RequestNewSteady(s0, User(l), qtype, first);
    SameCalm(s, s0);
    if Calm(s) { SteadyCalm(s0, s1); }
    if r.Some? {
      var s2 := Log(s1.(accepted := s1.accepted + {l}), User(l), first);
      SameCalm(s1, s2);
      SubmitLoyal(s2, r.value.(search := search));
      LoyalTrans(s, s2, Resolve(s, qtype, name, noSearch));
    }
  }

  lemma {:induction false} ResolveAllLoyal(s: State, calls: seq<Call>)
    ensures Loyal(s, ResolveAll(s, calls))
    decreases |calls|
  {
    hide Resolve, Loyal;
    if calls == [] {
      SelfLoyal(s, s);
    } else {
      var s1 := Resolve(s, calls[0].qtype, calls[0].name, calls[0].noSearch);
      ResolveLoyal(s, calls[0].qtype, calls[0].name, calls[0].noSearch);
      ResolveAllLoyal(s1, calls[1..]);
      LoyalTrans(s, s1, ResolveAll(s, calls));
    }
  }

  lemma SelfLoyal(s: State, s': State)
    requires s'.ring == s.ring && s'.sends == s.sends && s'.inflight == s.inflight
    ensures Loyal(s, s')
  {}

  lemma AnswerLoyal(s: State, i: nat, err: Err)
    requires i < |s.inflight| && s.inflight[i].owner.User?
    ensures Loyal(s, Answer(s, i, err))
  {
    hide ResolveAll, Loyal;
    var s1 := Callback(s, i, err);
    SelfLoyal(s, s1);
    if s.calls != [] {
      var s2 := s1.(calls := s1.calls[1..]);
      SelfLoyal(s, s2);
      ResolveAllLoyal(s2, s.calls[0]);
      LoyalTrans(s, s2, Answer(s, i, err));
    }
  }

  lemma RevivedLater(s: State, s1: State, s2: State, a: nat)
    requires Calm(s) && Steady(s, s1) && a in Ids(s.ring.servers)
    requires a in Ids(s1.ring.servers) && Rated(s1, s2, a, Revived(At(s1.ring, a)))
    ensures Rated(s, s2, a, Revived(At(s.ring, a)))
  {
    hide Calm, Ids, At;
  }

  lemma AcceptRates(s: State, i: nat)
    requires Assigned(s, i) && s.inflight[i].owner.User? && Calm(s)
    ensures Rated(s, ReplyAccepted(s, i), s.inflight[i].ns.value, Revived(At(s.ring, s.inflight[i].ns.value)))
  {
    hide Ids, At, Answer, NameserverUp, Finished, Rated, Calm, Steady, Revived;
    var a := s.inflight[i].ns.value;
    var s1 := Answer(s, i, NoErr);
    AnswerSteady(s, i, NoErr);
    AnswerLoyal(s, i, NoErr);
    SteadyIds(s, s1);
    var s2 := NameserverUp(s1, a);
    UpRates(s1, a);
    RevivedLater(s, s1, s2, a);
    UpInflight(s1, a);
    FinishedSteady(s2, i);
    RatedSteady(s, s2, Finished(s2, i), a, Revived(At(s.ring, a)));
  }

  lemma SteadyIds(s: State, s': State)
    requires Calm(s) && Steady(s, s')
    ensures Calm(s') && Ids(s'.ring.servers) == Ids(s.ring.servers)
  {
    hide Calm, Ids, At;
  }

  /** Unless a send fails, a good answer to a lookup takes the server that was asked for up, has heard of the one it
      came from, and leaves the others alone, whatever the callback starts. */
  lemma GoodAnswerJudges(s: State, i: nat, l: nat, from: nat, flags: nat, w: World)
    requires Sound(s) && i < |s.inflight| && s.inflight[i].owner == User(l)
    requires from in Ids(s.ring.servers) && IsAnswer(flags) && !Bad(flags, true)
    requires forall k :: 0 <= k < |w.sends| ==> w.sends[k] != SendFailed
    ensures Assigned(s, i)
    ensures Judges(s, Step(s, ReplyFrom(from, s.inflight[i].transId, flags, true), w), from, s.inflight[i].ns.value,
                   NoErr, false)
  {
    hide Sound, Heard, Step, Ids, At, Judges, Rated, Bad, IsError, Answer, NameserverUp, Finished, Calm;
    RequestAt(s, i);
    var s1, a := Heard(s, from, w), s.inflight[i].ns.value;
    HeardKeeps(s, from, w);
    HeardRates(s, from, w);
    RequestAt(s1, i);
    FailureIs(flags, true);
    ReplyReaches(s, i, from, flags, true, w);
    AcceptRates(s1, i);
    JudgedBy(s, s1, ReplyAccepted(s1, i), from, a, NoErr, false);
  }

  // ---------- Probes ----------

  /** nameserver_probe_callback: a server that is probed, once the result is known */
  function Verdict(x: Server, err: Err): (y: Server) {
    if err == NoErr || err == NotExist then Revived(x)
    else if x.up then x
    else x.(failedTimes := x.failedTimes + 1)
  }

  /** The i-th request in flight probes a server that is configured. */
  ghost predicate IsProbe(s: State, i: nat, a: nat) {
    && Calm(s) && i < |s.inflight| && s.inflight[i].owner == Probe(a) && s.inflight[i].search.NoSearch?
    && a in Ids(s.ring.servers) && a !in s.orphans
  }

  lemma CallbackRates(s: State, i: nat, a: nat, err: Err)
    requires IsProbe(s, i, a)
    ensures var s' := Callback(s, i, err);
            && Calm(s') && Rated(s, s', a, Verdict(At(s.ring, a), err)) && s'.inflight == s.inflight
            && Answer(s, i, err) == s'
  {
    hide Ids, At, SetServer, Calm;
    SameSteady(s, s);
    SteadyRated(s, s, a);
    if err == NoErr || err == NotExist {
      UpRates(s, a);
      UpInflight(s, a);
    } else if !At(s.ring, a).up {
      var x := Verdict(At(s.ring, a), err);
      SetRated(s, x, s.ring.good);
      GoodSame(s.ring, x);
    }
  }

  lemma FailRates(s: State, i: nat, a: nat, err: Err)
    requires IsProbe(s, i, a)
    ensures Rated(s, Fail(s, i, err), a, Verdict(At(s.ring, a), err))
  {
    hide Ids, At, Calm, Rated, Verdict, Finished, Callback;
    var s1 := Callback(s, i, err);
    CallbackRates(s, i, a, err);
    FinishedSteady(s1, i);
    RatedSteady(s, s1, Finished(s1, i), a, Verdict(At(s.ring, a), err));
  }

  /** The servers after the answer to a probe of a that was sent to b, which is concluded or not */
  ghost predicate Probed(s: State, s': State, from: nat, a: nat, b: nat, err: Err, again: bool, concluded: bool) {
    && Ids(s'.ring.servers) == Ids(s.ring.servers)
    && forall c :: c in Ids(s.ring.servers) ==>
         var x := if c == from then Fresh(At(s.ring, c)) else At(s.ring, c);
         var y := if c == b then Judged(x, err, again) else x;
         Alike(if c == a && concluded then Verdict(y, err) else y, At(s'.ring, c))
  }

  lemma JudgedAlike(x: Server, y: Server, err: Err, again: bool)
    requires Alike(x, y)
    ensures Alike(Judged(x, err, again), Judged(y, err, again))
  {}

  lemma VerdictAlike(x: Server, y: Server, z: Server, err: Err)
    requires Alike(x, y) && Alike(Verdict(y, err), z)
    ensures Alike(Verdict(x, err), z)
  {}

  lemma AlikeTrans(x: Server, y: Server, z: Server)
    requires Alike(x, y) && Alike(y, z)
    ensures Alike(x, z)
  {}

  lemma ProbedBad(s: State, s1: State, s2: State, s3: State, from: nat, a: nat, b: nat, err: Err, again: bool,
                  concluded: bool)
    requires var ids := Ids(s.ring.servers); from in ids && a in ids && b in ids
    requires Rated(s, s1, from, Fresh(At(s.ring, from)))
    requires b in Ids(s1.ring.servers) && Rated(s1, s2, b, Judged(At(s1.ring, b), err, again))
    requires a in Ids(s2.ring.servers)
    requires if concluded then Rated(s2, s3, a, Verdict(At(s2.ring, a), err)) else s3 == s2
    ensures Probed(s, s3, from, a, b, err, again, concluded)
  {
    hide Ids, At, Judged, Verdict, Alike, Fresh;
    forall c | c in Ids(s.ring.servers)
      ensures var x := if c == from then Fresh(At(s.ring, c)) else At(s.ring, c);
              var y := if c == b then Judged(x, err, again) else x;
              Alike(if c == a && concluded then Verdict(y, err) else y, At(s3.ring, c))
    {
      var x := if c == from then Fresh(At(s.ring, c)) else At(s.ring, c);
      var y := if c == b then Judged(x, err, again) else x;
      JudgedAlike(x, At(s1.ring, c), err, again);
      AlikeTrans(y, if c == b then Judged(At(s1.ring, c), err, again) else At(s1.ring, c), At(s2.ring, c));
      if concluded && c == a {
        VerdictAlike(y, At(s2.ring, c), At(s3.ring, c), err);
      } else if concluded {
        AlikeTrans(y, At(s2.ring, c), At(s3.ring, c));
      }
    }
  }

  lemma ProbedGood(s: State, s1: State, s2: State, s3: State, from: nat, a: nat, b: nat, again: bool)
    requires var ids := Ids(s.ring.servers); from in ids && a in ids && b in ids
    requires Rated(s, s1, from, Fresh(At(s.ring, from)))
    requires a in Ids(s1.ring.servers) && Rated(s1, s2, a, Verdict(At(s1.ring, a), NoErr))
    requires b in Ids(s2.ring.servers) && Rated(s2, s3, b, Revived(At(s2.ring, b)))
    ensures Probed(s, s3, from, a, b, NoErr, again, true)
  {
    hide Ids, At;
  }

  /** An answer to a probe, unless a send fails. The server that was asked is judged as by any other answer, and if the
      answer blames it, and another server is to be tried, the probe goes on. In all other cases the server that is
      probed and is down is up again if there is an answer or the name does not exist, and also if it has answered itself
      and neither failed nor refused; otherwise one more failure is counted. */
  lemma ProbeJudges(s: State, i: nat, a: nat, from: nat, flags: nat, answered: bool, w: World)
    requires Sound(s) && i < |s.inflight| && s.inflight[i].owner == Probe(a) && a in Ids(s.ring.servers)
    requires from in Ids(s.ring.servers) && IsAnswer(flags)
    requires forall k :: 0 <= k < |w.sends| ==> w.sends[k] != SendFailed
    ensures Assigned(s, i) && Assigned(Heard(s, from, w), i)
    ensures var err := if Bad(flags, answered) then Failure(flags) else NoErr;
            var again := s.inflight[i].reissues < s.opts.maxReissues;
            Probed(s, Step(s, ReplyFrom(from, s.inflight[i].transId, flags, answered), w), from, a,
                   s.inflight[i].ns.value, err, again, !(Blames(err) && again && GoesElsewhere(Heard(s, from, w), i)))
  {
    hide Sound, Step, Ids, At, SetServer, Rated, Bad, IsError, ErrorOf, Failure, Calm, Probed, Verdict, Judged,
         Callback, NameserverUp, Finished, Fail, GoesElsewhere;
    RequestAt(s, i);
    ProbeOf(s, i);
    var s1, b := Heard(s, from, w), s.inflight[i].ns.value;
    HeardKeeps(s, from, w);
    HeardRates(s, from, w);
    RatedIds(s, s1, from, Fresh(At(s.ring, from)));
    RequestAt(s1, i);
    FailureIs(flags, answered);
    ReplyReaches(s, i, from, flags, answered, w);
    var again := s.inflight[i].reissues < s.opts.maxReissues;
    var s3 := ReplyHandle(s1, i, flags, answered);
    if Bad(flags, answered) {
      var err := Failure(flags);
      var s2, concluded := BadProbe(s1, i, a, flags, answered);
      RatedIds(s1, s2, b, Judged(At(s1.ring, b), err, again));
      ProbedBad(s, s1, s2, s3, from, a, b, err, again, concluded);
    } else {
      GoodProbe(s1, i, a);
      var s2 := Callback(s1, i, NoErr);
      RatedIds(s1, s2, a, Verdict(At(s1.ring, a), NoErr));
      ProbedGood(s, s1, s2, s3, from, a, b, again);
    }
  }

  lemma ProbeOf(s: State, i: nat)
    requires Sound(s) && i < |s.inflight| && s.inflight[i].owner.Probe?
    ensures s.inflight[i].search.NoSearch? && Ids(s.ring.servers) !! s.orphans
  {
    hide Ids, AllIdle, AllBelow, AskedBelow, IdsDistinct, Apart, Drift;
    RequestAt(s, i);
  }

  lemma RatedIds(s: State, s': State, a: nat, x: Server)
    requires a in Ids(s.ring.servers) && Rated(s, s', a, x)
    ensures Ids(s'.ring.servers) == Ids(s.ring.servers)
  {
    hide Ids, At;
  }

  /** What reply_handle says of the server that was asked comes before the callback of a request that failed. */
  lemma BadProbe(s: State, i: nat, a: nat, flags: nat, answered: bool) returns (s1: State, concluded: bool)
    requires IsProbe(s, i, a) && Assigned(s, i) && Bad(flags, answered)
    ensures var b, err := s.inflight[i].ns.value, Failure(flags);
            var again, s' := s.inflight[i].reissues < s.opts.maxReissues, ReplyHandle(s, i, flags, answered);
            && concluded == !(Blames(err) && again && GoesElsewhere(s, i))
            && Rated(s, s1, b, Judged(At(s.ring, b), err, again)) && a in Ids(s1.ring.servers)
            && if concluded then Rated(s1, s', a, Verdict(At(s1.ring, a), err)) else s' == s1
  {
    hide Ids, At, Rated, Bad, IsError, ErrorOf, Failure, Calm, Verdict, Revived, Fail, Reissue, NameserverUp,
         NameserverFailed, Fallen, GoesElsewhere;
    FailureIs(flags, answered);
    var b, err := s.inflight[i].ns.value, Failure(flags);
    var again := s.inflight[i].reissues < s.opts.maxReissues;
    concluded := !(Blames(err) && again && GoesElsewhere(s, i));
    SameSteady(s, s);
    SteadyRated(s, s, b);
    if Blames(err) && again {
      BlamedProbe(s, i, a, err);
      s1 := Reissue(NameserverFailed(s, b), i).0;
    } else if Blames(err) || err == ServerFailed {
      s1 := s;
      FailRates(s1, i, a, err);
    } else {
      s1 := NameserverUp(s, b);
      UpRates(s, b);
      RatedIds(s, s1, b, Revived(At(s.ring, b)));
      UpSame(s, b);
      FailRates(s1, i, a, err);
    }
  }

  lemma UpSame(s: State, a: nat)
    ensures NameserverUp(s, a) == s.(ring := NameserverUp(s, a).ring)
  {}

  lemma BlamedProbe(s: State, i: nat, a: nat, err: Err)
    requires IsProbe(s, i, a) && Assigned(s, i)
    ensures i < |NameserverFailed(s, s.inflight[i].ns.value).inflight|
    ensures var b := s.inflight[i].ns.value;
            var (s1, moved) := Reissue(NameserverFailed(s, b), i);
            && (moved <==> GoesElsewhere(s, i)) && i < |s1.inflight|
            && Rated(s, s1, b, Fallen(At(s.ring, b))) && a in Ids(s1.ring.servers)
            && Rated(s1, Fail(s1, i, err), a, Verdict(At(s1.ring, a), err))
  {
    hide Ids, At, Rated, Calm, Verdict, Fail, NameserverFailed, Fallen, Pick;
    var b := s.inflight[i].ns.value;
    var s1 := NameserverFailed(s, b);
    FailedRates(s, b);
    FailedOnlyServer(s, b, i);
    var s2 := Reissue(s1, i).0;
    ReissueSteady(s1, i);
    RatedSteady(s, s1, s2, b, Fallen(At(s.ring, b)));
    RatedIds(s, s2, b, Fallen(At(s.ring, b)));
    FailRates(s2, i, a, err);
  }

  lemma GoodProbe(s: State, i: nat, a: nat)
    requires IsProbe(s, i, a) && Assigned(s, i)
    ensures var b, s1 := s.inflight[i].ns.value, Callback(s, i, NoErr);
            && Rated(s, s1, a, Verdict(At(s.ring, a), NoErr))
            && b in Ids(s1.ring.servers) && Rated(s1, ReplyAccepted(s, i), b, Revived(At(s1.ring, b)))
  {
    hide Ids, At, Rated, Calm, Verdict, Revived, Callback, NameserverUp, Finished;
    var b, s1 := s.inflight[i].ns.value, Callback(s, i, NoErr);
    CallbackRates(s, i, a, NoErr);
    RatedIds(s, s1, a, Verdict(At(s.ring, a), NoErr));
    UpRates(s1, b);
    UpInflight(s1, b);
    var s2 := NameserverUp(s1, b);
    FinishedSteady(s2, i);
    RatedSteady(s1, s2, Finished(s2, i), b, Revived(At(s1.ring, b)));
  }

  /** The servers after a timeout of a probe of a that was sent to b */
  ghost predicate ProbeLate(s: State, s': State, a: nat, b: nat, over: bool) {
    && Ids(s'.ring.servers) == Ids(s.ring.servers)
    && forall c :: c in Ids(s.ring.servers) ==>
         var y := if c == b then Overdue(At(s.ring, c), s.opts.maxTimeouts) else At(s.ring, c);
         Alike(if c == a && over then Verdict(y, TimedOut) else y, At(s'.ring, c))
  }

  lemma LateOver(s: State, s1: State, s2: State, a: nat, b: nat)
    requires a in Ids(s.ring.servers) && b in Ids(s.ring.servers)
    requires Rated(s, s1, b, Overdue(At(s.ring, b), s.opts.maxTimeouts))
    requires a in Ids(s1.ring.servers) && Rated(s1, s2, a, Verdict(At(s1.ring, a), TimedOut))
    ensures ProbeLate(s, s2, a, b, true)
  {
    hide Ids, At, Verdict, Alike, Overdue;
    forall c | c in Ids(s.ring.servers)
      ensures var y := if c == b then Overdue(At(s.ring, c), s.opts.maxTimeouts) else At(s.ring, c);
              Alike(if c == a then Verdict(y, TimedOut) else y, At(s2.ring, c))
    {
      var y := if c == b then Overdue(At(s.ring, c), s.opts.maxTimeouts) else At(s.ring, c);
      if c == a {
        VerdictAlike(y, At(s1.ring, c), At(s2.ring, c), TimedOut);
      } else {
        AlikeTrans(y, At(s1.ring, c), At(s2.ring, c));
      }
    }
  }

  /** The timer of a probe, unless a send fails: the timeout counts against the server that was asked, and when the
      probe is given up one more failure counts against the server that is probed. */
  lemma ProbeTimerJudges(s: State, i: nat, a: nat, w: World)
    requires Sound(s) && Enabled(s, RequestTimer(i)) && s.inflight[i].owner == Probe(a)
    requires a in Ids(s.ring.servers) && forall k :: 0 <= k < |w.sends| ==> w.sends[k] != SendFailed
    ensures Assigned(s, i)
    ensures ProbeLate(s, Step(s, RequestTimer(i), w), a, s.inflight[i].ns.value,
                      s.inflight[i].sent >= s.opts.maxRetransmits)
  {
    hide Sound, Ids, At, CountTimeout, Transmit, Finished, Callback, Steady, Overdue, Verdict, Calm, Rated, Alike;
    var s0 := s.(ids := w.ids, sends := w.sends, calls := w.calls);
    WorldKeeps(s, w);
    QuietSound(s, s0);
    RequestAt(s0, i);
    ProbeOf(s, i);
    var b := s.inflight[i].ns.value;
    var x := Overdue(At(s.ring, b), s.opts.maxTimeouts);
    var s2 := CountTimeout(s0, b);
    CountOnlyServer(s0, b, i);
    CountRates(s, s0, b, i);
    RatedIds(s, s2, b, x);
    var s3 := SetReq(s2, i, s2.inflight[i].(armed := false));
    DisarmRates(s, s2, i, b, x);
    if s.inflight[i].sent >= s.opts.maxRetransmits {
      var s4 := Callback(s3, i, TimedOut);
      CallbackRates(s3, i, a, TimedOut);
      FinishedSteady(s4, i);
      RatedSteady(s3, s4, Finished(s4, i), a, Verdict(At(s3.ring, a), TimedOut));
      LateOver(s, s3, Finished(s4, i), a, b);
    } else {
      TransmitSteady(s3, i);
      RatedSteady(s, s3, Transmit(s3, i), b, x);
      LateOnce(s, Transmit(s3, i), a, b);
    }
  }

  lemma LateOnce(s: State, s': State, a: nat, b: nat)
    requires b in Ids(s.ring.servers) && Rated(s, s', b, Overdue(At(s.ring, b), s.opts.maxTimeouts))
    ensures ProbeLate(s, s', a, b, false)
  {
    hide Ids, At, Overdue, Alike;
  }

  lemma DisarmRates(s: State, s1: State, i: nat, b: nat, x: Server)
    requires i < |s1.inflight| && b in Ids(s.ring.servers) && Calm(s1) && Rated(s, s1, b, x)
    ensures var s2 := SetReq(s1, i, s1.inflight[i].(armed := false)); Calm(s2) && Rated(s, s2, b, x)
  {
    hide Ids, At, Apart;
  }

  lemma CountRates(s: State, s0: State, b: nat, i: nat)
    requires Sound(s) && b in Ids(s.ring.servers) && s0 == s.(ids := s0.ids, sends := s0.sends, calls := s0.calls)
    requires i < |s.inflight| && forall k :: 0 <= k < |s0.sends| ==> s0.sends[k] != SendFailed
    ensures var s1 := CountTimeout(s0, b);
            && Calm(s1) && Rated(s, s1, b, Overdue(At(s.ring, b), s.opts.maxTimeouts)) && s1.orphans == s.orphans
  {
    hide Sound, Ids, At, NameserverFailed, Overdue, Apart, SetServer;
    ExactRing(s);
    CountRing(s0, b);
    CountOnlyServer(s0, b, i);
  }
}
