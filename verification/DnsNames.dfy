/** The value side of the DNS name codec of evdns.c: the text of a name, the meaning of the bytes
    it is written as (section 4.1.4 of RFC 1035), and the results of the writer and the parser.

    A C string is a sequence of non-zero bytes. */
module DnsNames {

  import opened Basics

  type CChar = b: Byte | b != 0 witness 1
  type Text = seq<CChar>

  const DOT: CChar := 46
  const MAX_LABEL := 63
  const MAX_NAME := 255
  /** Pointers carry 14 bits. */
  const POINTER_LIMIT := 0x4000
  const MAX_LABELS := 128

  // ---------- The text of a name ----------

  /** The index of the first dot, or the length when there is none. */
  function FirstDot(s: Text): (k: nat)
    ensures k <= |s|
    ensures k < |s| ==> s[k] == DOT
    ensures forall i :: 0 <= i < k ==> s[i] != DOT
  {
    DotFrom(s, 0)
  }

  function DotFrom(s: Text, from: nat): (k: nat)
    requires from <= |s|
    ensures from <= k <= |s|
    ensures k < |s| ==> s[k] == DOT
    ensures forall i :: from <= i < k ==> s[i] != DOT
    decreases |s| - from
  {
    if from == |s| || s[from] == DOT then from else DotFrom(s, from + 1)
  }

  /** The labels a reader of the encoded name sees: those before the first empty label. */
  function Meaning(name: Text): (ls: seq<Text>)
  {
    var k := FirstDot(name);
    if k == 0 then []
    else if k == |name| then [name]
    else [name[..k]] + Meaning(name[k + 1..])
  }

  /** Labels separated by dots. */
  function Join(ls: seq<seq<Byte>>): (s: seq<Byte>)
  {
    if |ls| == 0 then []
    else if |ls| == 1 then ls[0]
    else ls[0] + [DOT] + Join(ls[1..])
  }

  /** No dot at either end and no two dots in a row. */
  predicate Proper(name: Text) {
    forall i :: 0 <= i < |name| && name[i] == DOT ==> 0 < i && i + 1 < |name| && name[i + 1] != DOT
  }

  lemma {:induction false} MeaningFits(name: Text)
    ensures |Join(Meaning(name))| <= |name|
    ensures forall l :: l in Meaning(name) ==> 0 < |l|
  {
    var k := FirstDot(name);
    if 0 < k < |name| {
      var rest := name[k + 1..];
      MeaningFits(rest);
      if Meaning(rest) != [] {
        assert Meaning(name)[1..] == Meaning(rest);
      }
    }
  }

  /** A reader gets back the text that was written exactly for proper names. */
  lemma {:induction false} MeaningIsName(name: Text)
    ensures Join(Meaning(name)) == name <==> Proper(name)
  {
    var k := FirstDot(name);
    if k == 0 {
      if name != [] { assert name[0] == DOT; }
    } else if k < |name| {
      var rest := name[k + 1..];
      assert name == name[..k] + [DOT] + rest;
      MeaningIsName(rest);
      if rest == [] {
        assert name[k] == DOT && k + 1 == |name|;
        assert !Proper(name);
        assert Join(Meaning(name)) == name[..k];
      } else if rest[0] == DOT {
        assert name[k + 1] == DOT;
        assert !Proper(name);
        assert Meaning(rest) == [];
      } else {
        assert FirstDot(rest) > 0;
        assert Meaning(name)[1..] == Meaning(rest) && Meaning(rest) != [];
        assert Join(Meaning(name)) == name[..k] + [DOT] + Join(Meaning(rest));
        assert Proper(name) <==> Proper(rest) by { ProperTail(name, k); }
        MeaningFits(rest);
        if Join(Meaning(name)) == name {
          assert Join(Meaning(rest)) == Join(Meaning(name))[k + 1..] == rest;
        }
      }
    }
  }

  lemma ProperTail(name: Text, k: nat)
    requires 0 < k < |name| - 1 && name[k] == DOT && name[k + 1] != DOT
    requires forall i :: 0 <= i < k ==> name[i] != DOT
    ensures Proper(name) <==> Proper(name[k + 1..])
  {
    var rest := name[k + 1..];
    if Proper(name) {
      forall i | 0 <= i < |rest| && rest[i] == DOT
        ensures 0 < i && i + 1 < |rest| && rest[i + 1] != DOT
      {
        assert name[k + 1 + i] == DOT;
      }
    }
    if Proper(rest) {
      forall i | 0 <= i < |name| && name[i] == DOT
        ensures 0 < i && i + 1 < |name| && name[i + 1] != DOT
      {
        if i > k { assert rest[i - k - 1] == DOT; }
      }
    }
  }

  // ---------- What the bytes mean ----------

  /** The 14 bit target of a pointer: the low six bits of the first byte and all of the second. Any
      length byte above 63 is read as the start of one. */
  function Target(hi: Byte, lo: Byte): (t: nat)
    requires hi > MAX_LABEL
    ensures t < POINTER_LIMIT
  {
    (if hi >= 192 then hi - 192 else if hi >= 128 then hi - 128 else hi - 64) * 256 + lo
  }

  datatype Walked = Stuck | Running | Done(labels: seq<seq<Byte>>, end: nat)

  /** The labels met from index j on, following at most `fuel` labels and pointers, and the index
      after the first terminator or pointer. A packet has a name at j when some fuel is enough. */
  function Walk(m: seq<Byte>, j: nat, fuel: nat): (w: Walked)
    decreases fuel
  {
    if j >= |m| then Stuck
    else if m[j] == 0 then Done([], j + 1)
    else if fuel == 0 then Running
    else if m[j] > MAX_LABEL then
      if j + 1 >= |m| then Stuck
      else
        var w := Walk(m, Target(m[j], m[j + 1]), fuel - 1);
        if w.Done? then Done(w.labels, j + 2) else w
    else if j + 1 + m[j] > |m| then Stuck
    else
      var w := Walk(m, j + 1 + m[j], fuel - 1);
      if w.Done? then Done([m[j + 1..j + 1 + m[j]]] + w.labels, w.end) else w
  }

  lemma {:induction false} WalkMoreFuel(m: seq<Byte>, j: nat, fuel: nat, more: nat)
    requires Walk(m, j, fuel).Done? && fuel <= more
    ensures Walk(m, j, more) == Walk(m, j, fuel)
    decreases fuel
  {
    if m[j] != 0 {
      if m[j] > MAX_LABEL {
        WalkMoreFuel(m, Target(m[j], m[j + 1]), fuel - 1, more - 1);
      } else {
        WalkMoreFuel(m, j + 1 + m[j], fuel - 1, more - 1);
      }
    }
  }

  // ---------- The parser ----------

  datatype ParseResult = Malformed | Parsed(text: seq<Byte>, next: nat)

  /** The state of the parsing loop as a function: `jumps` is its pointer count, `end` the index it
      will report once it has followed a pointer. */
  function ParseFrom(m: seq<Byte>, j: nat, out: seq<Byte>, room: nat, jumps: nat, end: int): (r: ParseResult)
    requires jumps <= |m| && -1 <= end
    decreases |m| - jumps, |m| - j
  {
    if j >= |m| then Malformed
    else if m[j] == 0 then
      if |out| >= room then Malformed else Parsed(out, if end < 0 then j + 1 else end)
    else if m[j] > MAX_LABEL then
      if j + 1 >= |m| then Malformed
      else
        var t := Target(m[j], m[j + 1]);
        if t >= |m| || jumps + 1 > |m| then Malformed
        else ParseFrom(m, t, out, room, jumps + 1, if end < 0 then j + 2 else end)
    else if out != [] && |out| + 1 >= room then Malformed
    else if |out| + (if out == [] then 0 else 1) + m[j] >= room then Malformed
    else if j + 1 + m[j] > |m| then Malformed
    else ParseFrom(m, j + 1 + m[j], Push(out, m[j + 1..j + 1 + m[j]]), room, jumps, end)
  }

  /** A label behind the text so far, separated by a dot unless it is the first. */
  function Push(out: seq<Byte>, l: seq<Byte>): (s: seq<Byte>) {
    if out == [] then l else out + [DOT] + l
  }

  /** name_parse on a packet m, from index j, into a buffer of `room` bytes. */
  function Parse(m: seq<Byte>, j: nat, room: nat): (r: ParseResult) {
    ParseFrom(m, j, [], room, 0, -1)
  }

  /** What the parser adds to `out` for some labels. */
  function Extend(out: seq<Byte>, ls: seq<seq<Byte>>): (s: seq<Byte>)
  {
    if ls == [] then out else if out == [] then Join(ls) else out + [DOT] + Join(ls)
  }

  lemma Assoc<T>(a: seq<T>, b: seq<T>, c: seq<T>)
    ensures a + b + c == a + (b + c)
  {
  }

  lemma JoinCons(l: seq<Byte>, ls: seq<seq<Byte>>)
    ensures Join([l] + ls) == if ls == [] then l else l + [DOT] + Join(ls)
  {
    assert ([l] + ls)[1..] == ls;
  }

  lemma ExtendStep(out: seq<Byte>, l: seq<Byte>, ls: seq<seq<Byte>>)
    requires l != []
    ensures Extend(Push(out, l), ls) == Extend(out, [l] + ls)
    ensures |Push(out, l)| <= |Extend(out, [l] + ls)|
  {
    JoinCons(l, ls);
    if out != [] && ls != [] {
      Assoc(out + [DOT], l, [DOT] + Join(ls));
      Assoc(l, [DOT], Join(ls));
      Assoc(out + [DOT] + l, [DOT], Join(ls));
    }
  }

  /** The pointers followed so far, each of which still had more than `fuel` of the walk ahead of it. */
  ghost predicate Behind(m: seq<Byte>, seen: set<nat>, fuel: nat) {
    forall p | p in seen :: p < |m| && !Walk(m, p, fuel).Done?
  }

  lemma BehindLess(m: seq<Byte>, seen: set<nat>, fuel: nat)
    requires 0 < fuel && Behind(m, seen, fuel)
    ensures Behind(m, seen, fuel - 1)
  {
    forall p | p in seen ensures !Walk(m, p, fuel - 1).Done? {
      if Walk(m, p, fuel - 1).Done? { WalkMoreFuel(m, p, fuel - 1, fuel); }
    }
  }

  /** A pointer that the walk needs all of its fuel for has not been followed before. */
  lemma OneMoreJump(m: seq<Byte>, seen: set<nat>, fuel: nat, j: nat)
    requires 0 < fuel && Behind(m, seen, fuel) && Walk(m, j, fuel).Done? && !Walk(m, j, fuel - 1).Done?
    ensures Behind(m, seen + {j}, fuel - 1) && |seen + {j}| == |seen| + 1 <= |m|
  {
    BehindLess(m, seen, fuel);
    Pigeonhole(seen + {j}, |m|);
  }

  /** One step of a walk that ends */
  lemma WalkStep(m: seq<Byte>, j: nat, fuel: nat)
    requires Walk(m, j, fuel).Done?
    ensures j < |m| && (m[j] == 0 ==> Walk(m, j, fuel) == Done([], j + 1))
    ensures m[j] > MAX_LABEL ==>
              && 0 < fuel && j + 1 < |m| && Target(m[j], m[j + 1]) < |m|
              && var w := Walk(m, Target(m[j], m[j + 1]), fuel - 1);
                 w.Done? && Walk(m, j, fuel) == Done(w.labels, j + 2)
    ensures 0 < m[j] <= MAX_LABEL ==>
              && 0 < fuel && j + 1 + m[j] <= |m|
              && var w := Walk(m, j + 1 + m[j], fuel - 1);
                 w.Done? && Walk(m, j, fuel) == Done([m[j + 1..j + 1 + m[j]]] + w.labels, w.end)
  {}

  /** A pointer walk that ends visits no index twice, so the loop's jump count cannot reject it. */
  lemma {:induction false} WalkIsParsed(
    m: seq<Byte>, j: nat, fuel: nat, out: seq<Byte>, room: nat, jumps: nat, end: int, seen: set<nat>)
    requires Walk(m, j, fuel).Done? && -1 <= end
    requires Behind(m, seen, fuel) && |seen| == jumps <= |m|
    requires |Extend(out, Walk(m, j, fuel).labels)| < room
    ensures ParseFrom(m, j, out, room, jumps, end)
         == Parsed(Extend(out, Walk(m, j, fuel).labels), if end < 0 then Walk(m, j, fuel).end else end)
    decreases fuel
  {
    hide Walk, ParseFrom, Behind, Extend, Push, Target;
    WalkStep(m, j, fuel);
    if m[j] == 0 {
      ParseZero(m, j, out, room, jumps, end);
      ExtendNone(out);
    } else if m[j] <= MAX_LABEL {
      BehindLess(m, seen, fuel);
      var l := m[j + 1..j + 1 + m[j]];
      ExtendStep(out, l, Walk(m, j + 1 + m[j], fuel - 1).labels);
      WalkIsParsed(m, j + 1 + m[j], fuel - 1, Push(out, l), room, jumps, end, seen);
      ParseLabel(m, j, out, room, jumps, end);
    } else if Walk(m, j, fuel - 1).Done? {
      BehindLess(m, seen, fuel);
      WalkMoreFuel(m, j, fuel - 1, fuel);
      WalkIsParsed(m, j, fuel - 1, out, room, jumps, end, seen);
    } else {
      OneMoreJump(m, seen, fuel, j);
      var t, end' := Target(m[j], m[j + 1]), if end < 0 then j + 2 else end;
      WalkIsParsed(m, t, fuel - 1, out, room, jumps + 1, end', seen + {j});
      ParseJump(m, j, out, room, jumps, end);
    }
  }

  lemma ExtendNone(out: seq<Byte>)
    ensures Extend(out, []) == out
  {}

  lemma ParseZero(m: seq<Byte>, j: nat, out: seq<Byte>, room: nat, jumps: nat, end: int)
    requires j < |m| && m[j] == 0 && jumps <= |m| && -1 <= end
    ensures ParseFrom(m, j, out, room, jumps, end)
         == if |out| < room then Parsed(out, if end < 0 then j + 1 else end) else Malformed
  {}

  lemma ParseJump(m: seq<Byte>, j: nat, out: seq<Byte>, room: nat, jumps: nat, end: int)
    requires j + 1 < |m| && m[j] > MAX_LABEL && jumps < |m| && -1 <= end && Target(m[j], m[j + 1]) < |m|
    ensures ParseFrom(m, j, out, room, jumps, end)
         == ParseFrom(m, Target(m[j], m[j + 1]), out, room, jumps + 1, if end < 0 then j + 2 else end)
  {
  }

  lemma ParseLabel(m: seq<Byte>, j: nat, out: seq<Byte>, room: nat, jumps: nat, end: int)
    requires j < |m| && 0 < m[j] <= MAX_LABEL && j + 1 + m[j] <= |m| && jumps <= |m| && -1 <= end
    ensures var out' := Push(out, m[j + 1..j + 1 + m[j]]);
            if |out'| < room
            then ParseFrom(m, j, out, room, jumps, end) == ParseFrom(m, j + 1 + m[j], out', room, jumps, end)
            else ParseFrom(m, j, out, room, jumps, end) == Malformed
  {
  }

  /** What the parser rejects */
  lemma ParseStuck(m: seq<Byte>, j: nat, out: seq<Byte>, room: nat, jumps: nat, end: int)
    requires jumps <= |m| && -1 <= end
    ensures j >= |m| ==> ParseFrom(m, j, out, room, jumps, end) == Malformed
    ensures j < |m| && m[j] > MAX_LABEL && (j + 1 >= |m| || Target(m[j], m[j + 1]) >= |m| || jumps == |m|) ==>
              ParseFrom(m, j, out, room, jumps, end) == Malformed
    ensures j < |m| && 0 < m[j] <= MAX_LABEL &&
            (|out| + (if out == [] then 0 else 1) + m[j] >= room || j + 1 + m[j] > |m|) ==>
              ParseFrom(m, j, out, room, jumps, end) == Malformed
  {}

  lemma {:induction false} Pigeonhole(s: set<nat>, n: nat)
    requires forall p | p in s :: p < n
    ensures |s| <= n
  {
    if n == 0 {
      assert s == {};
    } else {
      Pigeonhole(s - {n - 1}, n - 1);
    }
  }

  /** What a parse that succeeds finds in front of it */
  lemma ParseStep(m: seq<Byte>, j: nat, out: seq<Byte>, room: nat, jumps: nat, end: int)
    requires jumps <= |m| && -1 <= end && ParseFrom(m, j, out, room, jumps, end).Parsed?
    ensures j < |m|
    ensures m[j] > MAX_LABEL ==> j + 1 < |m| && jumps < |m| && Target(m[j], m[j + 1]) < |m|
    ensures 0 < m[j] <= MAX_LABEL ==> j + 1 + m[j] <= |m|
  {}

  lemma WalkJump(m: seq<Byte>, j: nat, fuel: nat)
    requires j + 1 < |m| && m[j] > MAX_LABEL && Walk(m, Target(m[j], m[j + 1]), fuel).Done?
    ensures Walk(m, j, fuel + 1) == Done(Walk(m, Target(m[j], m[j + 1]), fuel).labels, j + 2)
  {}

  lemma WalkLabel(m: seq<Byte>, j: nat, fuel: nat)
    requires j < |m| && 0 < m[j] <= MAX_LABEL && j + 1 + m[j] <= |m| && Walk(m, j + 1 + m[j], fuel).Done?
    ensures var w := Walk(m, j + 1 + m[j], fuel);
            Walk(m, j, fuel + 1) == Done([m[j + 1..j + 1 + m[j]]] + w.labels, w.end)
  {}

  lemma {:induction false} ParsedIsWalk(m: seq<Byte>, j: nat, out: seq<Byte>, room: nat, jumps: nat, end: int)
    returns (fuel: nat)
    requires jumps <= |m| && -1 <= end
    requires ParseFrom(m, j, out, room, jumps, end).Parsed?
    ensures Walk(m, j, fuel).Done?
    ensures ParseFrom(m, j, out, room, jumps, end).text == Extend(out, Walk(m, j, fuel).labels)
    ensures |Extend(out, Walk(m, j, fuel).labels)| < room
    decreases |m| - jumps, |m| - j
  {
    hide ParseFrom, Extend, Push, Target;
    ParseStep(m, j, out, room, jumps, end);
    if m[j] == 0 {
      fuel := 0;
      ParseZero(m, j, out, room, jumps, end);
      ExtendNone(out);
    } else if m[j] > MAX_LABEL {
      ParseJump(m, j, out, room, jumps, end);
      var f := ParsedIsWalk(m, Target(m[j], m[j + 1]), out, room, jumps + 1, if end < 0 then j + 2 else end);
      fuel := f + 1;
      WalkJump(m, j, f);
    } else {
      var l := m[j + 1..j + 1 + m[j]];
      ParseLabel(m, j, out, room, jumps, end);
      var f := ParsedIsWalk(m, j + 1 + m[j], Push(out, l), room, jumps, end);
      fuel := f + 1;
      WalkLabel(m, j, f);
      ExtendStep(out, l, Walk(m, j + 1 + m[j], f).labels);
    }
  }

  /** The parser accepts a packet exactly when its pointers lead, in any finite number of steps, to a
      terminator and the joined labels leave room for the closing zero: its limit on jumps rejects
      every pointer loop and nothing else. */
  lemma ParseIsExact(m: seq<Byte>, j: nat, room: nat)
    ensures Parse(m, j, room).Parsed? <==>
            exists fuel: nat :: Walk(m, j, fuel).Done? && |Join(Walk(m, j, fuel).labels)| < room
    ensures forall fuel: nat :: Walk(m, j, fuel).Done? && |Join(Walk(m, j, fuel).labels)| < room ==>
            Parse(m, j, room) == Parsed(Join(Walk(m, j, fuel).labels), Walk(m, j, fuel).end)
  {
    forall fuel: nat | Walk(m, j, fuel).Done? && |Join(Walk(m, j, fuel).labels)| < room
      ensures Parse(m, j, room) == Parsed(Join(Walk(m, j, fuel).labels), Walk(m, j, fuel).end)
    {
      WalkIsParsed(m, j, fuel, [], room, 0, -1, {});
    }
    if Parse(m, j, room).Parsed? {
      var fuel := ParsedIsWalk(m, j, [], room, 0, -1);
      assert Walk(m, j, fuel).Done? && |Join(Walk(m, j, fuel).labels)| < room;
    }
  }
}
