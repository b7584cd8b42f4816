/** The matchers over lines: both find exactly the partner of a bracket, and invert each other on brackets in text of
    any kind. */
module BracketLines {
  import opened Brackets
  import opened BracketTheory

  // ---------- Characters as tokens ----------

  function KindOf(c: char): (k: Kind) {
    if c == '(' || c == ')' then Round else if c == '[' || c == ']' then Square else Curly
  }

  /** What a character is when nothing around it matters */
  function Plainly(c: char): (t: Tok) {
    if IsOpen(c) then Opening(KindOf(c)) else if IsClose(c) then Closing(KindOf(c))
    else if c == '<' then Lt else if c == '>' then Gt else if c == ';' then Semi else Other
  }

  /** What FindEndOfExpressionInLine takes the character i for */
  function Forth(line: string, i: nat): (t: Tok)
    requires i < |line|
  {
    if line[i] == '<' && i > 0 && line[i - 1] == '<' then Shift
    else if line[i] == '<' && i > 0 && OperatorBefore(line, i) then Other
    else if line[i] == '>' && i > 0 && (line[i - 1] == '-' || OperatorBefore(line, i - 1)) then Other
    else Plainly(line[i])
  }

  /** How many of the characters from i on are left angle brackets, without a gap */
  function Lefts(line: string, i: nat): (n: nat)
    requires i <= |line|
    decreases |line| - i
  {
    if i < |line| && line[i] == '<' then 1 + Lefts(line, i + 1) else 0
  }

  /** What FindStartOfExpressionInLine takes the character i for. Left angle brackets in a row are taken in pairs, from
      the last one on. */
  function Backwards(line: string, i: nat): (t: Tok)
    requires i < |line|
  {
    if line[i] == '<' && (Lefts(line, i) % 2 == 0 || (i > 0 && line[i - 1] == '<')) then Other
    else if line[i] == '>' && i > 0
            && (line[i - 1] == '-' || SpacedGe(line, i - 1) || OperatorBefore(line, i)) then Other
    else Plainly(line[i])
  }

  function Toks(line: string, forth: bool): (ts: seq<Tok>)
    ensures |ts| == |line|
    ensures forall i :: 0 <= i < |line| ==> ts[i] == if forth then Forth(line, i) else Backwards(line, i)
  {
    seq(|line|, i requires 0 <= i < |line| => if forth then Forth(line, i) else Backwards(line, i))
  }

  // ---------- The stack ----------

  function Sign(l: Level, forth: bool): (c: char) {
    match l
    case Angle => if forth then '<' else '>'
    case Bracket(Round) => if forth then '(' else ')'
    case Bracket(Square) => if forth then '[' else ']'
    case Bracket(Curly) => if forth then '{' else '}'
  }

  /** The stack of a scan as a string */
  function Stack(ls: seq<Level>, forth: bool): (st: string)
    ensures |st| == |ls| && forall k :: 0 <= k < |ls| ==> st[k] == Sign(ls[k], forth)
  {
    seq(|ls|, k requires 0 <= k < |ls| => Sign(ls[k], forth))
  }

  function Shown(r: Found, forth: bool): (s: Scan) {
    match r
    case Past(p) => At(p)
    case Missed => Brackets.Lost
    case Pending(ls) => More(Stack(ls, forth))
  }

  lemma StackPush(ls: seq<Level>, l: Level, forth: bool)
    ensures Stack(ls + [l], forth) == Stack(ls, forth) + [Sign(l, forth)]
  {}

  lemma StackTop(ls: seq<Level>, forth: bool)
    requires ls != []
    ensures Stack(ls, forth) != "" && Top(Stack(ls, forth)) == Sign(Last(ls), forth)
    ensures Pop(Stack(ls, forth)) == Stack(Init(ls), forth) && (Pop(Stack(ls, forth)) == "" <==> |ls| == 1)
  {}

  lemma {:induction false} StackCut(ls: seq<Level>, forth: bool)
    ensures DropTop(Stack(ls, forth), Sign(Angle, forth)) == Stack(Cut(ls), forth)
  {
    if ls != [] {
      StackTop(ls, forth);
      if Last(ls).Angle? { StackCut(Init(ls), forth); }
    }
  }

  lemma SignIs(k: Kind, c: char)
    ensures IsOpen(c) ==> Sign(Bracket(KindOf(c)), true) == c && Closer(c) == Sign(Bracket(KindOf(c)), false)
    ensures IsClose(c) ==> Sign(Bracket(KindOf(c)), false) == c
    ensures IsOpen(Sign(Bracket(k), true)) && KindOf(Sign(Bracket(k), true)) == k
    ensures IsClose(Sign(Bracket(k), false)) && KindOf(Sign(Bracket(k), false)) == k
    ensures Closer(Sign(Bracket(k), true)) == Sign(Bracket(k), false)
  {}

  /** What is left of a scan after a token, as the loops say it; `at` is the place to report. */
  function Told(r: Took, at: nat, forth: bool): (s: Scan) {
    match r
    case Finds => At(at)
    case Fails => Brackets.Lost
    case Keeps(ls) => More(Stack(ls, forth))
  }

  lemma EndStepIs(line: string, i: nat, ls: seq<Level>)
    requires i < |line|
    ensures EndStep(line, i, Stack(ls, true)) == Told(Take(Forth(line, i), ls), i + 1, true)
  {
    hide OperatorBefore, Cut, DropTop, Stack, Sign, KindOf;
    var c := line[i];
    AngleSign();
    SignIs(Round, c);
    StackNone(ls, true);
    if IsOpen(c) {
      StackPush(ls, Bracket(KindOf(c)), true);
    } else if c == '<' || c == '>' {
      StackPush(ls, Angle, true);
      if ls != [] {
        StackTop(ls, true);
        if Last(ls).Bracket? { SignIs(Last(ls).kind, c); }
      }
    } else if IsClose(c) || c == ';' {
      StackCut(ls, true);
      StackNone(Cut(ls), true);
      if Cut(ls) != [] {
        StackTop(Cut(ls), true);
        SignIs(Last(Cut(ls)).kind, c);
      }
    }
  }

  lemma StackNone(ls: seq<Level>, forth: bool)
    ensures Stack(ls, forth) == "" <==> ls == []
  {}

  lemma AngleSign()
    ensures Sign(Angle, true) == '<' && Sign(Angle, false) == '>'
  {}

  /** The forward scan of a line is the scan of its tokens. */
  lemma {:induction false} EndIsRun(line: string, i: nat, ls: seq<Level>)
    requires i <= |line|
    ensures FindEnd(line, i, Stack(ls, true)) == Shown(Run(Toks(line, true), i, ls), true)
    decreases |line| - i
  {
    hide EndStep, Take, Forth;
    if i < |line| {
      EndStepIs(line, i, ls);
      var r := Take(Forth(line, i), ls);
      if r.Keeps? { EndIsRun(line, i + 1, r.ls); }
    }
  }

  // ---------- Backwards ----------

  /** The backward scan looks at the character i; it skips the first half of a left shift. */
  predicate LooksAt(line: string, i: int)
    requires i < |line|
  {
    i < 0 || Lefts(line, i) % 2 == 1 || line[i] != '<'
  }

  /** The character is passed over together with the one before it. */
  predicate TakesTwo(line: string, i: nat)
    requires i < |line|
  {
    && i > 0
    && ((line[i] == '<' && line[i - 1] == '<') ||
        (line[i] == '>' && (line[i - 1] == '-' || SpacedGe(line, i - 1) || OperatorBefore(line, i))))
  }

  lemma StartStepIs(line: string, i: nat, ls: seq<Level>)
    requires i < |line| && LooksAt(line, i)
    ensures StartStep(line, i, Stack(ls, false)).0 == Told(Take(Flip(Backwards(line, i)), ls), i, false)
    ensures StartStep(line, i, Stack(ls, false)).1 == if TakesTwo(line, i) then i - 2 else i - 1
    ensures TakesTwo(line, i) ==> Backwards(line, i).Other?
  {
    hide OperatorBefore, SpacedGe, Cut, DropTop, Stack, Sign, KindOf, Lefts;
    var c := line[i];
    AngleSign();
    SignIs(Round, c);
    StackNone(ls, false);
    if IsClose(c) {
      StackPush(ls, Bracket(KindOf(c)), false);
    } else if c == '>' {
      StackPush(ls, Angle, false);
    } else if c == '<' {
      if ls != [] {
        StackTop(ls, false);
        if Last(ls).Bracket? { SignIs(Last(ls).kind, c); }
      }
    } else if IsOpen(c) || c == ';' {
      StackCut(ls, false);
      StackNone(Cut(ls), false);
      if Cut(ls) != [] {
        StackTop(Cut(ls), false);
        SignIs(Last(Cut(ls)).kind, c);
      }
    }
  }

  lemma EndsInWord(line: string, i: nat)
    requires 0 < i <= |line| && OperatorBefore(line, i)
    ensures IsSpace(line[i - 1]) || line[i - 1] == 'r'
  {
    var e := Stripped(line, i);
    if e == i { assert line[i - 8..i][7] == "operator"[7]; }
  }

  /** What is passed over with another character plays no part itself. */
  lemma SkippedIsOther(line: string, i: nat)
    requires i < |line| && LooksAt(line, i) && TakesTwo(line, i)
    ensures Backwards(line, i - 1).Other? && LooksAt(line, i - 2)
  {
    hide OperatorBefore;
    if line[i] == '<' {
      assert Lefts(line, i - 1) == 1 + Lefts(line, i);
      if i > 1 && line[i - 2] == '<' { assert Lefts(line, i - 2) == 1 + Lefts(line, i - 1); }
    } else {
      if OperatorBefore(line, i) { EndsInWord(line, i); }
      if i > 1 && line[i - 2] == '<' { assert Lefts(line, i - 2) == 1 + Lefts(line, i - 1); }
    }
  }

  lemma NextLooked(line: string, i: nat)
    requires i < |line| && LooksAt(line, i) && !TakesTwo(line, i)
    ensures LooksAt(line, i - 1)
  {
    hide OperatorBefore, SpacedGe;
    if i > 0 && line[i - 1] == '<' { assert Lefts(line, i - 1) == 1 + Lefts(line, i); }
  }

  lemma BackOther(ts: seq<Tok>, i: nat, ls: seq<Level>)
    requires i < |ts| && ts[i].Other?
    ensures Back(ts, i, ls) == Back(ts, i - 1, ls)
  {}

  /** The backward scan of a line is the scan of its tokens. */
  lemma {:induction false} StartIsBack(line: string, i: int, ls: seq<Level>)
    requires -1 <= i < |line| && LooksAt(line, i)
    ensures FindStart(line, i, Stack(ls, false)) == Shown(Back(Toks(line, false), i, ls), false)
    decreases i + 1
  {
    hide StartStep, Take, Backwards, TakesTwo, LooksAt;
    if i >= 0 {
      var ts := Toks(line, false);
      StartStepIs(line, i, ls);
      if TakesTwo(line, i) {
        SkippedIsOther(line, i);
        TwoAtLeast(line, i);
        BackOther(ts, i, ls);
        BackOther(ts, i - 1, ls);
        TakeOther(ls);
        StartIsBack(line, i - 2, ls);
      } else {
        NextLooked(line, i);
        var r := Take(Flip(Backwards(line, i)), ls);
        if r.Keeps? { StartIsBack(line, i - 1, r.ls); }
      }
    }
  }

  lemma TwoAtLeast(line: string, i: nat)
    requires i < |line| && TakesTwo(line, i)
    ensures i > 0
  {}

  lemma TakeOther(ls: seq<Level>)
    ensures Take(Flip(Other), ls) == Keeps(ls)
  {}

  lemma LastLooked(line: string)
    ensures LooksAt(line, |line| - 1)
  {
    if line != "" { assert Lefts(line, |line|) == 0; }
  }

  // ---------- Lines ----------

  function Joined(lines: seq<string>, forth: bool): (ts: seq<Tok>) {
    if lines == [] then [] else Toks(lines[0], forth) + Joined(lines[1..], forth)
  }

  function Offset(lines: seq<string>, l: nat): (o: nat)
    requires l <= |lines|
  {
    if l == 0 then 0 else |lines[0]| + Offset(lines[1..], l - 1)
  }

  lemma {:induction false} OffsetNext(lines: seq<string>, l: nat, forth: bool)
    requires l < |lines|
    ensures Offset(lines, l) + |lines[l]| == Offset(lines, l + 1) <= |Joined(lines, forth)|
  {
    if l > 0 {
      OffsetNext(lines[1..], l - 1, forth);
    } else {
      assert Offset(lines[1..], 0) == 0;
    }
  }

  lemma {:induction false} TokenInJoined(lines: seq<string>, l: nat, i: nat, forth: bool)
    requires l < |lines| && i < |lines[l]|
    ensures Offset(lines, l) + i < |Joined(lines, forth)|
    ensures Joined(lines, forth)[Offset(lines, l) + i] == Toks(lines[l], forth)[i]
  {
    OffsetNext(lines, l, forth);
    if l > 0 { TokenInJoined(lines[1..], l - 1, i, forth); }
  }

  /** The line stands in ts from o on. */
  predicate LineAt(line: seq<Tok>, ts: seq<Tok>, o: nat) {
    o + |line| <= |ts| && forall k :: 0 <= k < |line| ==> ts[o + k] == line[k]
  }

  lemma LineInJoined(lines: seq<string>, l: nat, forth: bool)
    requires l < |lines|
    ensures Offset(lines, l) + |lines[l]| == Offset(lines, l + 1)
    ensures LineAt(Toks(lines[l], forth), Joined(lines, forth), Offset(lines, l))
  {
    hide Joined, Offset, Toks;
    OffsetNext(lines, l, forth);
    var ts := Toks(lines[l], forth);
    forall i | 0 <= i < |ts| ensures Joined(lines, forth)[Offset(lines, l) + i] == ts[i] {
      TokenInJoined(lines, l, i, forth);
    }
  }

  lemma {:induction false} OffsetGrows(lines: seq<string>, l: nat, m: nat)
    requires l < m <= |lines|
    ensures Offset(lines, l) + |lines[l]| <= Offset(lines, m)
    decreases m
  {
    OffsetNext(lines, m - 1, true);
    if l < m - 1 { OffsetGrows(lines, l, m - 1); }
  }

  /** A place in the joined text is in one line only. */
  lemma OnePlace(lines: seq<string>, l: nat, p: nat, m: nat, q: nat)
    requires l < |lines| && p < |lines[l]| && m < |lines| && q < |lines[m]|
    requires Offset(lines, l) + p == Offset(lines, m) + q
    ensures l == m && p == q
  {
    hide Offset;
    if l < m { OffsetGrows(lines, l, m); }
    if m < l { OffsetGrows(lines, m, l); }
  }

  lemma {:induction false} JoinedLength(lines: seq<string>, forth: bool)
    ensures Offset(lines, |lines|) == |Joined(lines, forth)|
  {
    if lines != [] { JoinedLength(lines[1..], forth); }
  }

  lemma {:induction false} RunShifts(line: seq<Tok>, ts: seq<Tok>, o: nat, i: nat, ls: seq<Level>)
    requires LineAt(line, ts, o) && i <= |line|
    ensures match Run(line, i, ls)
            case Past(p) => Run(ts, o + i, ls) == Past(o + p)
            case Missed => Run(ts, o + i, ls) == Missed
            case Pending(r) => Run(ts, o + i, ls) == Run(ts, o + |line|, r)
    decreases |line| - i
  {
    hide Take;
    if i < |line| {
      var r := Take(line[i], ls);
      if r.Keeps? { RunShifts(line, ts, o, i + 1, r.ls); }
    }
  }

  lemma {:induction false} BackShifts(line: seq<Tok>, ts: seq<Tok>, o: nat, i: int, ls: seq<Level>)
    requires LineAt(line, ts, o) && -1 <= i < |line|
    ensures match Back(line, i, ls)
            case Past(p) => Back(ts, o + i, ls) == Past(o + p)
            case Missed => Back(ts, o + i, ls) == Missed
            case Pending(r) => Back(ts, o + i, ls) == Back(ts, o - 1, r)
    decreases i + 1
  {
    hide Take;
    if i >= 0 {
      var r := Take(Flip(line[i]), ls);
      if r.Keeps? { BackShifts(line, ts, o, i - 1, r.ls); }
    }
  }

  /** The place of a joined scan, in lines */
  ghost predicate SamePlace(lines: seq<string>, p: Place, past: nat, r: Found) {
    match p
    case Nowhere => !r.Past?
    case Place(m, q) => m < |lines| && past <= q < |lines[m]| + past && r == Past(Offset(lines, m) + q)
  }

  lemma {:induction false} CloseFromJoined(lines: seq<string>, l: nat, i: nat, ls: seq<Level>)
    requires l < |lines| && i <= |lines[l]| && ls != []
    ensures Offset(lines, l) + i <= |Joined(lines, true)|
    ensures SamePlace(lines, CloseFrom(lines, l, FindEnd(lines[l], i, Stack(ls, true))), 1,
                      Run(Joined(lines, true), Offset(lines, l) + i, ls))
    decreases |lines| - l
  {
    hide FindEnd, Joined, Offset, Toks, Run, Stack;
    var ts, o, line := Joined(lines, true), Offset(lines, l), Toks(lines[l], true);
    LineInJoined(lines, l, true);
    EndIsRun(lines[l], i, ls);
    RunShifts(line, ts, o, i, ls);
    var r := Run(line, i, ls);
    if r.Pending? {
      StackNone(r.ls, true);
      if l + 1 < |lines| {
        CloseFromJoined(lines, l + 1, 0, r.ls);
      } else {
        JoinedLength(lines, true);
        TextOver(ts, r.ls);
      }
    }
  }

  lemma TextOver(ts: seq<Tok>, ls: seq<Level>)
    ensures Run(ts, |ts|, ls) == Pending(ls) && Back(ts, -1, ls) == Pending(ls)
  {}

  lemma {:induction false} OpenFromJoined(lines: seq<string>, l: nat, i: int, ls: seq<Level>)
    requires l < |lines| && -1 <= i < |lines[l]| && LooksAt(lines[l], i) && ls != []
    ensures Offset(lines, l) + i < |Joined(lines, false)|
    ensures SamePlace(lines, OpenFrom(lines, l, FindStart(lines[l], i, Stack(ls, false))), 0,
                      Back(Joined(lines, false), Offset(lines, l) + i, ls))
    decreases l
  {
    hide FindStart, Joined, Toks, Back, Stack, LooksAt;
    var ts, o, line := Joined(lines, false), Offset(lines, l), Toks(lines[l], false);
    LineInJoined(lines, l, false);
    StartIsBack(lines[l], i, ls);
    BackShifts(line, ts, o, i, ls);
    var r := Back(line, i, ls);
    if r.Pending? {
      StackNone(r.ls, false);
      if l > 0 {
        LineInJoined(lines, l - 1, false);
        LastLooked(lines[l - 1]);
        OpenFromJoined(lines, l - 1, |lines[l - 1]| - 1, r.ls);
      } else {
        TextOver(ts, r.ls);
      }
    }
  }

  // ---------- What the matchers find ----------

  /** CloseExpression looks for the partner of this character: it is a bracket, or an angle bracket that neither belongs
      to an operator nor begins one. */
  predicate Begins(line: string, p: nat)
    requires p < |line|
  {
    IsOpen(line[p]) || (Forth(line, p).Lt? && !FollowedByOperator(line, p))
  }

  predicate FollowedByOperator(line: string, p: nat) {
    p + 1 < |line| && (line[p + 1] == '<' || line[p + 1] == '=')
  }

  lemma BeginsScan(line: string, p: nat)
    requires p < |line| && Begins(line, p)
    ensures Forth(line, p).Opening? || Forth(line, p).Lt?
    ensures var l := if Forth(line, p).Lt? then Angle else Bracket(Forth(line, p).kind);
            FindEnd(line, p, "") == FindEnd(line, p + 1, Stack([l], true))
  {
    hide FindEnd, Forth;
    var l := if line[p] == '<' then Angle else Bracket(KindOf(line[p]));
    ForthIs(line, p);
    SignIs(Round, line[p]);
    assert Stack([l], true) == [line[p]];
    assert "" + [line[p]] == [line[p]];
    assert Stack([], true) == "";
    EndStepIs(line, p, []);
    assert [] + [l] == [l];
    FindEndStep(line, p, "");
  }

  lemma ForthIs(line: string, p: nat)
    requires p < |line|
    ensures IsOpen(line[p]) ==> Forth(line, p) == Opening(KindOf(line[p]))
    ensures IsClose(line[p]) ==> Backwards(line, p) == Closing(KindOf(line[p]))
    ensures Forth(line, p).Lt? ==> line[p] == '<'
    ensures Backwards(line, p).Gt? ==> line[p] == '>'
  {}

  lemma FindEndStep(line: string, i: nat, st: string)
    requires i < |line|
    ensures FindEnd(line, i, st)
         == if EndStep(line, i, st).More? then FindEnd(line, i + 1, EndStep(line, i, st).stack)
            else EndStep(line, i, st)
  {}

  /** From a character that begins something, line by line, the scan of the joined text */
  lemma CloseIsJoined(lines: seq<string>, l: nat, p: nat)
    requires l < |lines| && p < |lines[l]| && Begins(lines[l], p)
    ensures Offset(lines, l) + p < |Joined(lines, true)|
    ensures var t := Joined(lines, true)[Offset(lines, l) + p];
            t == Forth(lines[l], p) && (t.Opening? || t.Lt?)
    ensures SamePlace(lines, CloseExpression(lines, l, p), 1, Run(Joined(lines, true), Offset(lines, l) + p, []))
  {
    hide Joined, Offset, FindEnd, Run, CloseFrom, Forth, Stack;
    var line := lines[l];
    BeginsScan(line, p);
    TokenInJoined(lines, l, p, true);
    ForthIs(line, p);
    var k := if Forth(line, p).Lt? then Angle else Bracket(Forth(line, p).kind);
    CloseFromJoined(lines, l, p + 1, [k]);
    RunBegins(Joined(lines, true), Offset(lines, l) + p);
  }

  /** CloseExpression finds the place past (m, q) if and only if what is there is the partner of the bracket at
      (l, p). */
  lemma CloseFinds(lines: seq<string>, l: nat, p: nat, m: nat, q: nat)
    requires l < |lines| && p < |lines[l]| && m < |lines| && q < |lines[m]| && Begins(lines[l], p)
    ensures CloseExpression(lines, l, p) == Place(m, q + 1)
       <==> Partners(Joined(lines, true), Offset(lines, l) + p, Offset(lines, m) + q)
  {
    hide Joined, Offset, Run, CloseExpression, Partners, Begins;
    var i, j := Offset(lines, l) + p, Offset(lines, m) + q;
    CloseIsJoined(lines, l, p);
    RunIsPartner(Joined(lines, true), i, j);
    if Partners(Joined(lines, true), i, j) {
      var c := CloseExpression(lines, l, p);
      OnePlace(lines, m, q, c.line, c.pos - 1);
    }
  }

  lemma StartScan(line: string, q: nat)
    requires q < |line| && (IsClose(line[q]) || Backwards(line, q).Gt?)
    ensures Backwards(line, q).Closing? || Backwards(line, q).Gt?
    ensures LooksAt(line, q) && LooksAt(line, q - 1)
    ensures var l := if line[q] == '>' then Angle else Bracket(KindOf(line[q]));
            FindStart(line, q, "") == FindStart(line, q - 1, Stack([l], false))
    ensures line[q] != '>' ==> Backwards(line, q) == Closing(KindOf(line[q]))
  {
    hide FindStart, OperatorBefore, SpacedGe;
    var l := if line[q] == '>' then Angle else Bracket(KindOf(line[q]));
    ForthIs(line, q);
    NextLooked(line, q);
    SignIs(Round, line[q]);
    assert Stack([l], false) == [line[q]];
    assert Stack([], false) == "";
    StartStepIs(line, q, []);
    assert [] + [l] == [l];
    FindStartStep(line, q, "");
  }

  lemma FindStartStep(line: string, i: nat, st: string)
    requires i < |line|
    ensures FindStart(line, i, st) == var (r, next) := StartStep(line, i, st);
                                      if r.More? then FindStart(line, next, r.stack) else r
  {}

  lemma BackBegins(ts: seq<Tok>, j: nat)
    requires j < |ts| && (ts[j].Closing? || ts[j].Gt?)
    ensures Back(ts, j, []) == Back(ts, j - 1, if ts[j].Gt? then [Angle] else [Bracket(ts[j].kind)])
  {
    assert [] + [Angle] == [Angle];
    if ts[j].Closing? { assert [] + [Bracket(ts[j].kind)] == [Bracket(ts[j].kind)]; }
  }

  lemma ReverseIsJoined(lines: seq<string>, m: nat, q: nat)
    requires m < |lines| && q < |lines[m]| && (IsClose(lines[m][q]) || Backwards(lines[m], q).Gt?)
    ensures Offset(lines, m) + q < |Joined(lines, false)|
    ensures var t := Joined(lines, false)[Offset(lines, m) + q];
            t == Backwards(lines[m], q) && (t.Closing? || t.Gt?)
    ensures SamePlace(lines, ReverseCloseExpression(lines, m, q), 0,
                      Back(Joined(lines, false), Offset(lines, m) + q, []))
  {
    hide Joined, Offset, FindStart, Back, OpenFrom, Backwards, Stack, LooksAt;
    var line := lines[m];
    StartScan(line, q);
    ForthIs(line, q);
    TokenInJoined(lines, m, q, false);
    var k := if line[q] == '>' then Angle else Bracket(KindOf(line[q]));
    OpenFromJoined(lines, m, q - 1, [k]);
    BackBegins(Joined(lines, false), Offset(lines, m) + q);
  }

  lemma {:induction false} NoShiftBackwards(lines: seq<string>)
    ensures NoShift(Joined(lines, false))
  {
    if lines != [] { NoShiftBackwards(lines[1..]); }
  }

  /** ReverseCloseExpression finds (l, p) if and only if what is there is the partner of the bracket at (m, q). */
  lemma ReverseFinds(lines: seq<string>, l: nat, p: nat, m: nat, q: nat)
    requires l < |lines| && p < |lines[l]| && m < |lines| && q < |lines[m]|
    requires IsClose(lines[m][q]) || Backwards(lines[m], q).Gt?
    ensures ReverseCloseExpression(lines, m, q) == Place(l, p)
       <==> Partners(Joined(lines, false), Offset(lines, l) + p, Offset(lines, m) + q)
  {
    hide Joined, Offset, Back, ReverseCloseExpression, Partners, Backwards, NoShift;
    var i, j := Offset(lines, l) + p, Offset(lines, m) + q;
    ReverseIsJoined(lines, m, q);
    NoShiftBackwards(lines);
    BackIsPartner(Joined(lines, false), i, j);
    if Partners(Joined(lines, false), i, j) {
      var c := ReverseCloseExpression(lines, m, q);
      OnePlace(lines, l, p, c.line, c.pos);
    }
  }

  // ---------- The kind of bracket that is found ----------

  /** What closes a bracket or an angle bracket */
  function PartnerOf(c: char): (d: char)
    requires IsOpen(c) || c == '<'
  {
    if c == '<' then '>' else Closer(c)
  }

  lemma CharIs(line: string, i: nat, c: char)
    requires i < |line|
    ensures Forth(line, i).Gt? ==> line[i] == '>'
    ensures IsOpen(c) && Forth(line, i) == Closing(KindOf(c)) ==> line[i] == Closer(c)
  {}

  /** The place that is found lies past the partner of the bracket it was looked for from. */
  lemma PlaceIsPastPartner(lines: seq<string>, l: nat, p: nat)
    requires l < |lines| && p < |lines[l]| && Begins(lines[l], p)
    ensures match CloseExpression(lines, l, p)
            case Nowhere => true
            case Place(m, q) => m < |lines| && 0 < q <= |lines[m]| && lines[m][q - 1] == PartnerOf(lines[l][p])
  {
    hide Joined, Offset, Run, CloseExpression, Partners, Forth;
    CloseIsJoined(lines, l, p);
    var c := CloseExpression(lines, l, p);
    if c.Place? {
      var m, q := c.line, c.pos - 1;
      CloseFinds(lines, l, p, m, q);
      PartnersAre(Joined(lines, true), Offset(lines, l) + p, Offset(lines, m) + q);
      TokenInJoined(lines, m, q, true);
      ForthIs(lines[l], p);
      CharIs(lines[m], q, lines[l][p]);
    }
  }

  lemma PartnersAre(ts: seq<Tok>, i: nat, j: nat)
    requires Partners(ts, i, j)
    ensures i < j < |ts| && if ts[i].Lt? then ts[j].Gt? else ts[i].Opening? && ts[j] == Closing(ts[i].kind)
  {}

  lemma StartIs(line: string, i: nat, d: char)
    requires i < |line|
    ensures d == '>' && Backwards(line, i).Lt? ==> line[i] == '<'
    ensures IsClose(d) && Backwards(line, i) == Opening(KindOf(d)) ==> IsOpen(line[i]) && Closer(line[i]) == d
  {}

  /** The same backwards. */
  lemma PlaceIsPartner(lines: seq<string>, m: nat, q: nat)
    requires m < |lines| && q < |lines[m]| && (IsClose(lines[m][q]) || Backwards(lines[m], q).Gt?)
    ensures match ReverseCloseExpression(lines, m, q)
            case Nowhere => true
            case Place(l, p) =>
              && l < |lines| && p < |lines[l]| && (IsOpen(lines[l][p]) || lines[l][p] == '<')
              && PartnerOf(lines[l][p]) == lines[m][q]
  {
    hide Joined, Offset, Back, ReverseCloseExpression, Partners, Backwards;
    ReverseIsJoined(lines, m, q);
    var c := ReverseCloseExpression(lines, m, q);
    if c.Place? {
      var l, p := c.line, c.pos;
      ReverseFinds(lines, l, p, m, q);
      PartnersAre(Joined(lines, false), Offset(lines, l) + p, Offset(lines, m) + q);
      TokenInJoined(lines, l, p, false);
      ForthIs(lines[m], q);
      StartIs(lines[l], p, lines[m][q]);
    }
  }

  /** A left angle bracket of an operator is passed over, and the scan goes on with nothing to look for: it finds the
      end of whatever begins next in the line. */
  lemma OperatorIsPassed(lines: seq<string>, l: nat, p: nat)
    requires l < |lines| && p < |lines[l]| && lines[l][p] == '<' && !Forth(lines[l], p).Lt?
    requires !FollowedByOperator(lines[l], p)
    ensures CloseExpression(lines, l, p) == CloseFrom(lines, l, FindEnd(lines[l], p + 1, ""))
  {}

  /** The same backwards. */
  lemma OperatorIsPassedBack(lines: seq<string>, m: nat, q: nat)
    requires m < |lines| && q < |lines[m]| && lines[m][q] == '>' && !Backwards(lines[m], q).Gt?
    ensures q > 0 && ReverseCloseExpression(lines, m, q) == OpenFrom(lines, m, FindStart(lines[m], q - 2, ""))
  {}

  /** What follows a character does not matter to what it is taken for. */
  lemma {:induction false} StrippedPrefix(head: string, tail: string, n: nat)
    requires n <= |head|
    ensures Stripped(head + tail, n) == Stripped(head, n)
  {
    if n > 0 && IsSpace(head[n - 1]) { StrippedPrefix(head, tail, n - 1); }
  }

  lemma ForthPrefix(head: string, tail: string, i: nat)
    requires i < |head|
    ensures Forth(head + tail, i) == Forth(head, i)
  {
    hide OperatorBefore, Plainly;
    OperatorPrefix(head, tail, i);
    if i > 0 { OperatorPrefix(head, tail, i - 1); }
  }

  lemma OperatorPrefix(head: string, tail: string, n: nat)
    requires n <= |head|
    ensures OperatorBefore(head + tail, n) <==> OperatorBefore(head, n)
  {
    hide Stripped, IsSpace, IsWord;
    StrippedPrefix(head, tail, n);
    var e := Stripped(head, n);
    if e >= 8 { assert (head + tail)[e - 8..e] == head[e - 8..e]; }
  }

  /** What is found from the angle bracket at the end of `head`, whatever follows it, lies past a right angle
      bracket. */
  ghost predicate FindsAngle(head: string) {
    forall tail: string, below: seq<string> :: FoundAngle(head, [head + tail] + below)
  }

  predicate FoundAngle(head: string, lines: seq<string>) {
    lines != [] && 0 < |head| <= |lines[0]| &&
    match CloseExpression(lines, 0, |head| - 1)
    case Nowhere => true
    case Place(m, q) => m < |lines| && 0 < q <= |lines[m]| && lines[m][q - 1] == '>'
  }

  /** This holds if and only if the angle bracket does not belong to an operator. */
  lemma FindsAngleIff(head: string)
    requires head != "" && head[|head| - 1] == '<'
    ensures FindsAngle(head) <==> Forth(head, |head| - 1).Lt?
  {
    hide Forth, CloseFrom, CloseExpression;
    var p := |head| - 1;
    if Forth(head, p).Lt? {
      forall tail: string, below: seq<string> ensures FoundAngle(head, [head + tail] + below) {
        AngleFound(head, tail, below);
      }
    } else {
      var lines := [head + "()"] + [];
      ForthPrefix(head, "()", p);
      RoundFound(head);
      assert !FoundAngle(head, lines);
    }
  }

  lemma AngleFound(head: string, tail: string, below: seq<string>)
    requires head != "" && head[|head| - 1] == '<' && Forth(head, |head| - 1).Lt?
    ensures FoundAngle(head, [head + tail] + below)
  {
    hide Forth, CloseFrom, FindEnd;
    var lines, p := [head + tail] + below, |head| - 1;
    assert lines[0] == head + tail && lines[0][p] == '<';
    ForthPrefix(head, tail, p);
    if Begins(lines[0], p) { PlaceIsPastPartner(lines, 0, p); }
  }

  lemma RoundFound(head: string)
    requires head != "" && head[|head| - 1] == '<' && !Forth(head, |head| - 1).Lt?
    ensures CloseExpression([head + "()"] + [], 0, |head| - 1) == Place(0, |head| + 2)
  {
    hide Forth, OperatorBefore, FindEnd, DropTop;
    var line, p := head + "()", |head| - 1;
    var lines := [line] + [];
    assert lines[0] == line && line[p] == '<' && line[p + 1] == '(' && line[p + 2] == ')';
    ForthPrefix(head, "()", p);
    OperatorIsPassed(lines, 0, p);
    FindEndStep(line, p + 1, "");
    FindEndStep(line, p + 2, "(");
    assert "" + ['('] == "(" && Pop("(") == "";
    DropNone();
  }

  lemma DropNone()
    ensures DropTop("(", '<') == "(" && DropTop(")", '>') == ")"
  {}

  /** An arrow behind a bracket: the bracket is found. */
  lemma ArrowFindsRound()
    ensures ReverseCloseExpression(["(a)->"], 0, 4) == Place(0, 0)
  {
    hide OperatorBefore, SpacedGe, DropTop, FindStart, StartStep;
    var line := "(a)->";
    ArrowSteps();
    FindStartStep(line, 4, "");
    FindStartStep(line, 2, "");
    FindStartStep(line, 1, ")");
    FindStartStep(line, 0, ")");
  }

  lemma ArrowSteps()
    ensures StartStep("(a)->", 4, "") == (More(""), 2) && StartStep("(a)->", 2, "") == (More(")"), 1)
    ensures StartStep("(a)->", 1, ")") == (More(")"), 0) && StartStep("(a)->", 0, ")") == (At(0), -1)
  {
    hide OperatorBefore, SpacedGe, DropTop;
    assert "" + [')'] == ")" && Pop(")") == "";
    DropNone();
  }

  // ---------- The matchers invert each other ----------

  lemma {:induction false} SameBrackets(ts: seq<Tok>, us: seq<Tok>, a: nat, b: nat)
    requires a <= b <= |ts| == |us| && Balanced(ts, a, b)
    requires forall k :: 0 <= k < |ts| ==> (IsBracket(ts[k]) || IsBracket(us[k]) ==> us[k] == ts[k])
    ensures Balanced(us, a, b)
    decreases b - a
  {
    hide Balanced;
    BalancedNone(us, a);
    if a < b {
      var k := BalancedHead(ts, a, b);
      if ts[a].Opening? {
        SameBrackets(ts, us, a + 1, k);
        SameBrackets(ts, us, k + 1, b);
        BalancedPair(us, a, k, b);
      } else {
        SameBrackets(ts, us, a + 1, b);
        BalancedNext(us, a, b);
      }
    }
  }

  /** Both scans see the same brackets. */
  lemma {:induction false} JoinedBrackets(lines: seq<string>)
    ensures var ts, us := Joined(lines, true), Joined(lines, false);
            && |ts| == |us|
            && forall k :: 0 <= k < |ts| ==> (IsBracket(ts[k]) || IsBracket(us[k]) ==> us[k] == ts[k])
  {
    hide OperatorBefore, SpacedGe;
    if lines != [] { JoinedBrackets(lines[1..]); }
  }

  /** From brackets the two matchers invert each other, in text of any kind: from the bracket at (l, p) the one finds
      the place past (m, q) if and only if from the bracket at (m, q) the other finds (l, p). */
  lemma MatchersInvert(lines: seq<string>, l: nat, p: nat, m: nat, q: nat)
    requires l < |lines| && p < |lines[l]| && m < |lines| && q < |lines[m]|
    requires IsOpen(lines[l][p]) && IsClose(lines[m][q])
    ensures CloseExpression(lines, l, p) == Place(m, q + 1) <==> ReverseCloseExpression(lines, m, q) == Place(l, p)
  {
    hide Joined, Offset, CloseExpression, ReverseCloseExpression, Balanced, Template, Forth, Backwards;
    var ts, us, i, j := Joined(lines, true), Joined(lines, false), Offset(lines, l) + p, Offset(lines, m) + q;
    CloseFinds(lines, l, p, m, q);
    ReverseFinds(lines, l, p, m, q);
    JoinedBrackets(lines);
    TokenInJoined(lines, l, p, true);
    TokenInJoined(lines, m, q, false);
    ForthIs(lines[l], p);
    ForthIs(lines[m], q);
    if Partners(ts, i, j) { SameBrackets(ts, us, i + 1, j); }
    if Partners(us, i, j) { SameBrackets(us, ts, i + 1, j); }
  }

  /** The angle bracket at i is no part of an operator, whichever way it is read. */
  predicate ClearAt(line: string, i: nat)
    requires i < |line|
  {
    && (line[i] == '<' ==> !FollowedByOperator(line, i))
    && (i > 0 ==> line[i - 1] != '<' && line[i - 1] != '-' && !SpacedGe(line, i - 1)
                  && !OperatorBefore(line, i) && !OperatorBefore(line, i - 1))
  }

  predicate Clean(line: string) {
    forall i :: 0 <= i < |line| && (line[i] == '<' || line[i] == '>') ==> ClearAt(line, i)
  }

  lemma CleanTokens(line: string, i: nat)
    requires i < |line| && Clean(line)
    ensures Forth(line, i) == Backwards(line, i) == Plainly(line[i])
    ensures line[i] == '<' ==> !FollowedByOperator(line, i)
  {
    hide OperatorBefore, SpacedGe, Plainly;
    if line[i] == '<' || line[i] == '>' {
      assert ClearAt(line, i);
      if line[i] == '<' { assert Lefts(line, i) == 1 + Lefts(line, i + 1); }
    }
  }

  lemma {:induction false} CleanJoined(lines: seq<string>)
    requires forall l :: 0 <= l < |lines| ==> Clean(lines[l])
    ensures Joined(lines, true) == Joined(lines, false)
  {
    hide Clean, Forth, Backwards;
    if lines != [] {
      forall i | 0 <= i < |lines[0]| ensures Toks(lines[0], true)[i] == Toks(lines[0], false)[i] {
        CleanTokens(lines[0], i);
      }
      assert Toks(lines[0], true) == Toks(lines[0], false);
      CleanJoined(lines[1..]);
    }
  }

  /** In lines whose angle brackets belong to no operator the matchers invert each other from every character. There
      what CloseFinds and ReverseFinds say is what the characters say. */
  lemma CleanMatchersInvert(lines: seq<string>, l: nat, p: nat, m: nat, q: nat)
    requires l < |lines| && p < |lines[l]| && m < |lines| && q < |lines[m]|
    requires forall k :: 0 <= k < |lines| ==> Clean(lines[k])
    ensures CloseExpression(lines, l, p) == Place(m, q + 1) <==> ReverseCloseExpression(lines, m, q) == Place(l, p)
    ensures Joined(lines, true) == Joined(lines, false)
    ensures Offset(lines, l) + p < |Joined(lines, true)|
         && Joined(lines, true)[Offset(lines, l) + p] == Plainly(lines[l][p])
  {
    hide Joined, Offset, Partners, Clean, CloseFrom, OpenFrom, FindEnd, FindStart;
    var ts, i, j := Joined(lines, true), Offset(lines, l) + p, Offset(lines, m) + q;
    CleanJoined(lines);
    CleanTokens(lines[l], p);
    CleanTokens(lines[m], q);
    TokenInJoined(lines, l, p, true);
    TokenInJoined(lines, m, q, true);
    if Partners(ts, i, j) { PartnersAre(ts, i, j); }
    if Begins(lines[l], p) { CloseFinds(lines, l, p, m, q); }
    if IsClose(lines[m][q]) || lines[m][q] == '>' { ReverseFinds(lines, l, p, m, q); }
  }

  /** With an operator they need not: a greater-or-equal sign with spaces around it ends template arguments forwards,
      and is passed over backwards. */
  lemma GreaterOrEqual()
    ensures CloseExpression(["a<b >= c"], 0, 1) == Place(0, 5)
    ensures ReverseCloseExpression(["a<b >= c"], 0, 4) == Nowhere
  {
    GreaterForth();
    GreaterBack();
  }

  lemma NoOperatorYet(line: string, n: nat)
    requires n <= |line| && n < 8
    ensures !OperatorBefore(line, n)
  {}

  lemma GreaterEnds()
    ensures FindEnd("a<b >= c", 2, "<") == At(5)
  {
    hide OperatorBefore, SpacedGe, DropTop, FindEnd;
    var line := "a<b >= c";
    NoOperatorYet(line, 3);
    assert Pop("<") == "";
    FindEndStep(line, 2, "<");
    FindEndStep(line, 3, "<");
    FindEndStep(line, 4, "<");
  }

  lemma GreaterForth()
    ensures CloseExpression(["a<b >= c"], 0, 1) == Place(0, 5)
  {
    hide OperatorBefore, SpacedGe, DropTop, FindEnd;
    var line := "a<b >= c";
    NoOperatorYet(line, 1);
    FindEndStep(line, 1, "");
    assert "" + ['<'] == "<";
    GreaterEnds();
  }

  lemma GreaterBack()
    ensures ReverseCloseExpression(["a<b >= c"], 0, 4) == Nowhere
  {
    hide OperatorBefore, DropTop, FindStart;
    var line := "a<b >= c";
    assert SpacedGe(line, 3);
    FindStartStep(line, 4, "");
    FindStartStep(line, 2, "");
    FindStartStep(line, 1, "");
    FindStartStep(line, 0, "");
    NothingLeft(line);
  }

  lemma NothingLeft(line: string)
    ensures FindStart(line, -1, "") == More("")
  {}
}
