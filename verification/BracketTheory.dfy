/** What the bracket matchers of cpplint.py find, in text of any kind. Each scan reads a line as tokens, since what an
    angle bracket means depends on the characters around it. */
module BracketTheory {
  import opened Brackets

  datatype Kind = Round | Square | Curly

  /** A bracket, an angle bracket that may delimit template arguments, the second half of a left shift, a semicolon, or
      something that plays no part */
  datatype Tok = Opening(kind: Kind) | Closing(kind: Kind) | Lt | Gt | Shift | Semi | Other

  // ---------- Well-bracketed text ----------

  predicate IsBracket(t: Tok) {
    t.Opening? || t.Closing?
  }

  /** In ts[a..b] every bracket has its partner; angle brackets do not count. */
  ghost predicate Balanced(ts: seq<Tok>, a: nat, b: nat)
    requires b <= |ts|
    decreases b - a
  {
    || a == b
    || (a < b && !IsBracket(ts[a]) && Balanced(ts, a + 1, b))
    || (a < b && ts[a].Opening?
        && exists k :: a < k < b && Pair(ts, a, k) && Balanced(ts, a + 1, k) && Balanced(ts, k + 1, b))
  }

  /** The brackets at a and k belong together. */
  predicate Pair(ts: seq<Tok>, a: nat, k: nat)
    requires a < |ts| && k < |ts|
  {
    ts[a].Opening? && ts[k] == Closing(ts[a].kind)
  }

  /** ts[a..b] can stand between the angle brackets of template arguments: each angle bracket in it has its partner, or
      is the first half of a left shift; a bracket has its partner with well-bracketed text between them; and there is
      no semicolon but between brackets. */
  ghost predicate Template(ts: seq<Tok>, a: nat, b: nat)
    requires b <= |ts|
    decreases b - a
  {
    || a == b
    || (a < b && ts[a].Other? && Template(ts, a + 1, b))
    || (a < b && ts[a].Lt? && exists k :: a < k < b && Ends(ts[k]) && Template(ts, a + 1, k) && Template(ts, k + 1, b))
    || (a < b && ts[a].Opening?
        && exists k :: a < k < b && Pair(ts, a, k) && Balanced(ts, a + 1, k) && Template(ts, k + 1, b))
  }

  predicate Ends(t: Tok) {
    t.Gt? || t.Shift?
  }

  lemma BalancedNone(ts: seq<Tok>, a: nat)
    requires a <= |ts|
    ensures Balanced(ts, a, a) && Template(ts, a, a)
  {}

  lemma BalancedNext(ts: seq<Tok>, a: nat, b: nat)
    requires a < b <= |ts| && !IsBracket(ts[a]) && Balanced(ts, a + 1, b)
    ensures Balanced(ts, a, b)
  {}

  lemma BalancedPair(ts: seq<Tok>, a: nat, k: nat, b: nat)
    requires a < k < b <= |ts| && Pair(ts, a, k) && Balanced(ts, a + 1, k) && Balanced(ts, k + 1, b)
    ensures Balanced(ts, a, b)
  {}

  lemma BalancedHead(ts: seq<Tok>, a: nat, b: nat) returns (k: nat)
    requires a < b <= |ts| && Balanced(ts, a, b)
    ensures if ts[a].Opening? then a < k < b && Pair(ts, a, k) && Balanced(ts, a + 1, k) && Balanced(ts, k + 1, b)
            else !IsBracket(ts[a]) && Balanced(ts, a + 1, b)
  {
    k := a;
    if ts[a].Opening? {
      k :| a < k < b && Pair(ts, a, k) && Balanced(ts, a + 1, k) && Balanced(ts, k + 1, b);
    }
  }

  lemma {:induction false} BalancedJoins(ts: seq<Tok>, a: nat, b: nat, c: nat)
    requires a <= b <= c <= |ts| && Balanced(ts, a, b) && Balanced(ts, b, c)
    ensures Balanced(ts, a, c)
    decreases b - a
  {
    hide Balanced;
    if a < b {
      var k := BalancedHead(ts, a, b);
      if ts[a].Opening? {
        BalancedJoins(ts, k + 1, b, c);
        BalancedPair(ts, a, k, c);
      } else {
        BalancedJoins(ts, a + 1, b, c);
        BalancedNext(ts, a, c);
      }
    }
  }

  lemma TemplateNext(ts: seq<Tok>, a: nat, b: nat)
    requires a < b <= |ts| && ts[a].Other? && Template(ts, a + 1, b)
    ensures Template(ts, a, b)
  {}

  lemma TemplateAngles(ts: seq<Tok>, a: nat, k: nat, b: nat)
    requires a < k < b <= |ts| && ts[a].Lt? && Ends(ts[k]) && Template(ts, a + 1, k) && Template(ts, k + 1, b)
    ensures Template(ts, a, b)
  {}

  lemma TemplateBrackets(ts: seq<Tok>, a: nat, k: nat, b: nat)
    requires a < k < b <= |ts| && Pair(ts, a, k) && Balanced(ts, a + 1, k) && Template(ts, k + 1, b)
    ensures Template(ts, a, b)
  {}

  lemma TemplateHead(ts: seq<Tok>, a: nat, b: nat) returns (k: nat)
    requires a < b <= |ts| && Template(ts, a, b)
    ensures match ts[a]
            case Other => Template(ts, a + 1, b)
            case Lt => a < k < b && Ends(ts[k]) && Template(ts, a + 1, k) && Template(ts, k + 1, b)
            case Opening(_) => a < k < b && Pair(ts, a, k) && Balanced(ts, a + 1, k) && Template(ts, k + 1, b)
            case _ => false
  {
    hide Balanced;
    k := a;
    if ts[a].Lt? {
      k :| a < k < b && Ends(ts[k]) && Template(ts, a + 1, k) && Template(ts, k + 1, b);
    } else if ts[a].Opening? {
      k :| a < k < b && Pair(ts, a, k) && Balanced(ts, a + 1, k) && Template(ts, k + 1, b);
    }
  }

  lemma {:induction false} TemplateJoins(ts: seq<Tok>, a: nat, b: nat, c: nat)
    requires a <= b <= c <= |ts| && Template(ts, a, b) && Template(ts, b, c)
    ensures Template(ts, a, c)
    decreases b - a
  {
    hide Template, Balanced;
    if a < b {
      var k := TemplateHead(ts, a, b);
      if ts[a].Lt? {
        TemplateJoins(ts, k + 1, b, c);
        TemplateAngles(ts, a, k, c);
      } else if ts[a].Opening? {
        TemplateJoins(ts, k + 1, b, c);
        TemplateBrackets(ts, a, k, c);
      } else {
        TemplateJoins(ts, a + 1, b, c);
        TemplateNext(ts, a, c);
      }
    }
  }

  // ---------- Scanning tokens ----------

  /** What the scan still waits for: the partner of a bracket, or of an angle bracket */
  datatype Level = Bracket(kind: Kind) | Angle

  function Last(ls: seq<Level>): (x: Level)
    requires ls != []
  {
    ls[|ls| - 1]
  }

  function Init(ls: seq<Level>): (r: seq<Level>)
    requires ls != []
  {
    ls[..|ls| - 1]
  }

  /** Without the angle brackets at the top, which were operators */
  function Cut(ls: seq<Level>): (r: seq<Level>)
    ensures |r| <= |ls| && (r != [] ==> Last(r).Bracket?)
  {
    if ls != [] && Last(ls).Angle? then Cut(Init(ls)) else ls
  }

  datatype Took = Finds | Fails | Keeps(ls: seq<Level>)

  function Take(t: Tok, ls: seq<Level>): (r: Took) {
    match t
    case Opening(k) => Keeps(ls + [Bracket(k)])
    case Lt => Keeps(ls + [Angle])
    case Closing(k) =>
      var c := Cut(ls);
      if c == [] || Last(c).kind != k then Fails else if |c| == 1 then Finds else Keeps(Init(c))
    case Gt => if ls == [] || Last(ls).Bracket? then Keeps(ls) else if |ls| == 1 then Finds else Keeps(Init(ls))
    case Shift => if ls == [] || Last(ls).Bracket? then Keeps(ls) else if |ls| == 1 then Fails else Keeps(Init(ls))
    case Semi => if Cut(ls) == [] then Fails else Keeps(Cut(ls))
    case Other => Keeps(ls)
  }

  datatype Found = Past(p: nat) | Missed | Pending(ls: seq<Level>)

  /** A scan forwards; it finds the place past the token that ends it. */
  function Run(ts: seq<Tok>, i: nat, ls: seq<Level>): (r: Found)
    requires i <= |ts|
    ensures r.Past? ==> i < r.p <= |ts|
    ensures r.Pending? && ls != [] ==> r.ls != []
    decreases |ts| - i
  {
    if i == |ts| then Pending(ls)
    else match Take(ts[i], ls)
      case Finds => Past(i + 1)
      case Fails => Missed
      case Keeps(r) => Run(ts, i + 1, r)
  }

  lemma CutBracket(ls: seq<Level>, k: Kind)
    ensures Cut(ls + [Bracket(k)]) == ls + [Bracket(k)] && Init(ls + [Bracket(k)]) == ls
  {}

  lemma CutAngle(ls: seq<Level>)
    ensures Cut(ls + [Angle]) == Cut(ls) && Init(ls + [Angle]) == ls
  {
    assert Init(ls + [Angle]) == ls;
  }

  lemma {:induction false} CutTwice(ls: seq<Level>)
    ensures Cut(Cut(ls)) == Cut(ls)
  {
    if ls != [] && Last(ls).Angle? { CutTwice(Init(ls)); }
  }

  /** Anything but a bracket leaves what is waited for below the angle brackets. */
  lemma TakeKeeps(t: Tok, ls: seq<Level>) returns (r: seq<Level>)
    requires !IsBracket(t) && Cut(ls) != []
    ensures Take(t, ls) == Keeps(r) && Cut(r) == Cut(ls)
  {
    CutAngle(ls);
    CutTwice(ls);
    r := Take(t, ls).ls;
  }

  /** Well-bracketed text leaves what is waited for, but for angle brackets. */
  lemma {:induction false} RunPasses(ts: seq<Tok>, a: nat, b: nat, ls: seq<Level>) returns (r: seq<Level>)
    requires a <= b <= |ts| && Balanced(ts, a, b) && Cut(ls) != []
    ensures Cut(r) == Cut(ls) && Run(ts, a, ls) == Run(ts, b, r)
    decreases b - a
  {
    hide Balanced, Cut;
    r := ls;
    if a < b {
      var k := BalancedHead(ts, a, b);
      if ts[a].Opening? {
        PairPasses(ts, a, k, ls);
        r := RunPasses(ts, k + 1, b, ls);
      } else {
        r := TakeKeeps(ts[a], ls);
        r := RunPasses(ts, a + 1, b, r);
      }
    }
  }

  lemma {:induction false} PairPasses(ts: seq<Tok>, a: nat, k: nat, ls: seq<Level>)
    requires a < k < |ts| && Pair(ts, a, k) && Balanced(ts, a + 1, k)
    ensures Run(ts, a, ls) == if ls == [] then Past(k + 1) else Run(ts, k + 1, ls)
    decreases k - a
  {
    hide Balanced, Cut;
    var l1 := ls + [Bracket(ts[a].kind)];
    CutBracket(ls, ts[a].kind);
    var r := RunPasses(ts, a + 1, k, l1);
  }

  /** A scan that waits for a bracket finds its partner first, with well-bracketed text before it. */
  lemma {:induction false} RunFinds(ts: seq<Tok>, i: nat, ls: seq<Level>, j: nat) returns (k: nat)
    requires i <= |ts| && Cut(ls) != [] && Run(ts, i, ls) == Past(j)
    ensures i <= k < j <= |ts| && Balanced(ts, i, k) && ts[k] == Closing(Last(Cut(ls)).kind)
    ensures if |Cut(ls)| == 1 then k + 1 == j else Run(ts, k + 1, Init(Cut(ls))) == Past(j)
    decreases |ts| - i
  {
    hide Balanced, Cut;
    BalancedNone(ts, i);
    k := i;
    if ts[i].Opening? {
      var l1 := ls + [Bracket(ts[i].kind)];
      CutBracket(ls, ts[i].kind);
      CutNone();
      var m := RunFinds(ts, i + 1, l1, j);
      k := RunFinds(ts, m + 1, ls, j);
      BalancedPair(ts, i, m, k);
    } else if !ts[i].Closing? {
      var r := TakeKeeps(ts[i], ls);
      k := RunFinds(ts, i + 1, r, j);
      BalancedNext(ts, i, k);
    }
  }

  lemma CutNone()
    ensures Cut([]) == []
  {}

  lemma {:induction false} AnglesOnly(ls: seq<Level>)
    requires Cut(ls) == []
    ensures ls != [] ==> Last(ls).Angle? && Cut(Init(ls)) == []
  {}

  /** Template text leaves the scan as it was. */
  lemma {:induction false} TemplatePasses(ts: seq<Tok>, a: nat, b: nat, ls: seq<Level>)
    requires a <= b <= |ts| && Template(ts, a, b) && ls != [] && Last(ls).Angle?
    ensures Run(ts, a, ls) == Run(ts, b, ls)
    decreases b - a
  {
    hide Balanced, Template, Cut;
    if a < b {
      var k := TemplateHead(ts, a, b);
      if ts[a].Lt? {
        var l1 := ls + [Angle];
        assert Init(l1) == ls;
        TemplatePasses(ts, a + 1, k, l1);
        TemplatePasses(ts, k + 1, b, ls);
      } else if ts[a].Opening? {
        PairPasses(ts, a, k, ls);
        TemplatePasses(ts, k + 1, b, ls);
      } else {
        TemplatePasses(ts, a + 1, b, ls);
      }
    }
  }

  /** A scan that waits for angle brackets only finds the end of the last one, with template text before it. */
  lemma {:induction false} TemplateFinds(ts: seq<Tok>, i: nat, ls: seq<Level>, j: nat) returns (k: nat)
    requires i <= |ts| && ls != [] && Cut(ls) == [] && Run(ts, i, ls) == Past(j)
    ensures i <= k < j <= |ts| && Template(ts, i, k)
    ensures if |ls| == 1 then ts[k].Gt? && k + 1 == j else Ends(ts[k]) && Run(ts, k + 1, Init(ls)) == Past(j)
    decreases |ts| - i
  {
    hide Balanced, Template, Cut;
    BalancedNone(ts, i);
    AnglesOnly(ls);
    k := i;
    match ts[i] {
      case Lt =>
        var l1 := ls + [Angle];
        CutAngle(ls);
        var m := TemplateFinds(ts, i + 1, l1, j);
        k := TemplateFinds(ts, m + 1, ls, j);
        TemplateAngles(ts, i, m, k);
      case Opening(kind) =>
        CutBracket(ls, kind);
        var m := RunFinds(ts, i + 1, ls + [Bracket(kind)], j);
        k := TemplateFinds(ts, m + 1, ls, j);
        TemplateBrackets(ts, i, m, k);
      case Other =>
        k := TemplateFinds(ts, i + 1, ls, j);
        TemplateNext(ts, i, k);
      case _ =>
    }
  }

  /** The token at j ends what the one at i begins. */
  ghost predicate Partners(ts: seq<Tok>, i: nat, j: nat) {
    && i < j < |ts|
    && if ts[i].Lt? then ts[j].Gt? && Template(ts, i + 1, j) else Pair(ts, i, j) && Balanced(ts, i + 1, j)
  }

  lemma RunBegins(ts: seq<Tok>, i: nat)
    requires i < |ts| && (ts[i].Opening? || ts[i].Lt?)
    ensures Run(ts, i, []) == Run(ts, i + 1, if ts[i].Lt? then [Angle] else [Bracket(ts[i].kind)])
  {
    assert [] + [Angle] == [Angle];
    if ts[i].Opening? { assert [] + [Bracket(ts[i].kind)] == [Bracket(ts[i].kind)]; }
  }

  lemma RunEnds(ts: seq<Tok>, j: nat)
    requires j < |ts| && ts[j].Gt?
    ensures Run(ts, j, [Angle]) == Past(j + 1)
  {}

  lemma CutOne(k: Kind)
    ensures Cut([Angle]) == [] && Cut([Bracket(k)]) == [Bracket(k)]
  {
    assert Init([Angle]) == [];
  }

  lemma AngleIsPartner(ts: seq<Tok>, i: nat, j: nat)
    requires i < |ts| && ts[i].Lt?
    ensures Run(ts, i, []) == Past(j + 1) <==> Partners(ts, i, j)
  {
    hide Balanced, Template, Cut, Run;
    RunBegins(ts, i);
    CutOne(Round);
    if Run(ts, i, []) == Past(j + 1) { var k := TemplateFinds(ts, i + 1, [Angle], j + 1); }
    if Partners(ts, i, j) {
      TemplatePasses(ts, i + 1, j, [Angle]);
      RunEnds(ts, j);
    }
  }

  lemma BracketIsPartner(ts: seq<Tok>, i: nat, j: nat)
    requires i < |ts| && ts[i].Opening?
    ensures Run(ts, i, []) == Past(j + 1) <==> Partners(ts, i, j)
  {
    hide Balanced, Template, Cut, Run;
    RunBegins(ts, i);
    CutOne(ts[i].kind);
    if Run(ts, i, []) == Past(j + 1) { var k := RunFinds(ts, i + 1, [Bracket(ts[i].kind)], j + 1); }
    if Partners(ts, i, j) { PairPasses(ts, i, j, []); }
  }

  /** The forward scan from a bracket or an angle bracket finds the place past j if and only if the two are partners. */
  lemma RunIsPartner(ts: seq<Tok>, i: nat, j: nat)
    requires i < |ts| && (ts[i].Opening? || ts[i].Lt?)
    ensures Run(ts, i, []) == Past(j + 1) <==> Partners(ts, i, j)
  {
    hide Partners, Run;
    if ts[i].Lt? { AngleIsPartner(ts, i, j); } else { BracketIsPartner(ts, i, j); }
  }

  // ---------- Backwards ----------

  function Flip(t: Tok): (r: Tok) {
    match t
    case Opening(k) => Closing(k)
    case Closing(k) => Opening(k)
    case Lt => Gt
    case Gt => Lt
    case _ => t
  }

  /** The text read from its end */
  function Mirror(ts: seq<Tok>): (r: seq<Tok>)
    ensures |r| == |ts| && forall k :: 0 <= k < |ts| ==> r[k] == Flip(ts[|ts| - 1 - k])
  {
    seq(|ts|, k requires 0 <= k < |ts| => Flip(ts[|ts| - 1 - k]))
  }

  lemma MirrorTwice(ts: seq<Tok>)
    ensures Mirror(Mirror(ts)) == ts
  {}

  /** A scan backwards; it finds the place of the token that ends it. */
  function Back(ts: seq<Tok>, i: int, ls: seq<Level>): (r: Found)
    requires i < |ts|
    ensures r.Past? ==> r.p <= i
    ensures r.Pending? && ls != [] ==> r.ls != []
    decreases i + 1
  {
    if i < 0 then Pending(ls)
    else match Take(Flip(ts[i]), ls)
      case Finds => Past(i)
      case Fails => Missed
      case Keeps(r) => Back(ts, i - 1, r)
  }

  lemma {:induction false} BackIsMirrored(ts: seq<Tok>, i: int, ls: seq<Level>)
    requires -1 <= i < |ts|
    ensures match Run(Mirror(ts), |ts| - 1 - i, ls)
            case Past(p) => p <= |ts| && Back(ts, i, ls) == Past(|ts| - p)
            case Missed => Back(ts, i, ls) == Missed
            case Pending(r) => Back(ts, i, ls) == Pending(r)
    decreases i + 1
  {
    hide Take;
    if i >= 0 {
      assert Mirror(ts)[|ts| - 1 - i] == Flip(ts[i]);
      var r := Take(Flip(ts[i]), ls);
      if r.Keeps? { BackIsMirrored(ts, i - 1, r.ls); }
    }
  }

  lemma {:induction false} BalancedMirrors(ts: seq<Tok>, a: nat, b: nat)
    requires a <= b <= |ts| && Balanced(Mirror(ts), a, b)
    ensures Balanced(ts, |ts| - b, |ts| - a)
    decreases b - a
  {
    hide Balanced;
    var n := |ts|;
    BalancedNone(ts, n - a);
    if a < b {
      var k := BalancedHead(Mirror(ts), a, b);
      assert Mirror(ts)[a] == Flip(ts[n - 1 - a]);
      if Mirror(ts)[a].Opening? {
        assert Mirror(ts)[k] == Flip(ts[n - 1 - k]);
        BalancedMirrors(ts, a + 1, k);
        BalancedMirrors(ts, k + 1, b);
        BalancedPair(ts, n - 1 - k, n - 1 - a, n - a);
        BalancedJoins(ts, n - b, n - 1 - k, n - a);
      } else {
        BalancedMirrors(ts, a + 1, b);
        BalancedNext(ts, n - a - 1, n - a);
        BalancedJoins(ts, n - b, n - a - 1, n - a);
      }
    }
  }

  predicate NoShift(ts: seq<Tok>) {
    forall k :: 0 <= k < |ts| ==> !ts[k].Shift?
  }

  lemma {:induction false} TemplateMirrors(ts: seq<Tok>, a: nat, b: nat)
    requires a <= b <= |ts| && NoShift(ts) && Template(Mirror(ts), a, b)
    ensures Template(ts, |ts| - b, |ts| - a)
    decreases b - a
  {
    hide Template, Balanced;
    var n := |ts|;
    BalancedNone(ts, n - a);
    if a < b {
      var k := TemplateHead(Mirror(ts), a, b);
      var t := Mirror(ts)[a];
      assert t == Flip(ts[n - 1 - a]);
      if t.Other? {
        TemplateMirrors(ts, a + 1, b);
        TemplateNext(ts, n - a - 1, n - a);
        TemplateJoins(ts, n - b, n - a - 1, n - a);
      } else {
        assert Mirror(ts)[k] == Flip(ts[n - 1 - k]);
        TemplateMirrors(ts, k + 1, b);
        if t.Lt? {
          TemplateMirrors(ts, a + 1, k);
          TemplateAngles(ts, n - 1 - k, n - 1 - a, n - a);
        } else {
          BalancedMirrors(ts, a + 1, k);
          TemplateBrackets(ts, n - 1 - k, n - 1 - a, n - a);
        }
        TemplateJoins(ts, n - b, n - 1 - k, n - a);
      }
    }
  }

  lemma PartnersMirror(ts: seq<Tok>, i: nat, j: nat)
    requires i < |ts| && j < |ts| && NoShift(ts) && Partners(Mirror(ts), i, j)
    ensures Partners(ts, |ts| - 1 - j, |ts| - 1 - i)
  {
    hide Template, Balanced;
    var n, m := |ts|, Mirror(ts);
    assert m[i] == Flip(ts[n - 1 - i]) && m[j] == Flip(ts[n - 1 - j]);
    if m[i].Lt? { TemplateMirrors(ts, i + 1, j); } else { BalancedMirrors(ts, i + 1, j); }
  }

  lemma MirrorAt(ts: seq<Tok>, k: nat)
    requires k < |ts|
    ensures Mirror(ts)[|ts| - 1 - k] == Flip(ts[k])
  {}

  lemma NoShiftMirrors(ts: seq<Tok>)
    requires NoShift(ts)
    ensures NoShift(Mirror(ts))
  {}

  /** The backward scan from a bracket or an angle bracket finds i if and only if the two are partners. */
  lemma BackIsPartner(ts: seq<Tok>, i: nat, j: nat)
    requires j < |ts| && NoShift(ts) && (ts[j].Closing? || ts[j].Gt?)
    ensures Back(ts, j, []) == Past(i) <==> Partners(ts, i, j)
  {
    hide Partners, Run, Back, Mirror, NoShift;
    var n, m := |ts|, Mirror(ts);
    MirrorAt(ts, j);
    BackIsMirrored(ts, j, []);
    if Back(ts, j, []) == Past(i) {
      RunIsPartner(m, n - 1 - j, n - 1 - i);
      PartnersMirror(ts, n - 1 - j, n - 1 - i);
    }
    if Partners(ts, i, j) {
      PartnersBound(ts, i, j);
      MirrorTwice(ts);
      NoShiftMirrors(ts);
      PartnersMirror(m, i, j);
      RunIsPartner(m, n - 1 - j, n - 1 - i);
    }
  }

  lemma PartnersBound(ts: seq<Tok>, i: nat, j: nat)
    requires Partners(ts, i, j)
    ensures i < j < |ts|
  {}
}
