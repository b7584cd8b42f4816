/** Text in an SDP: splitting as StringUtil.cpp does it, decimal numbers, and the candidate lines that SdpInfo.cpp
    prints and parses. */
module SdpText {

  import opened Basics

  // ---------- splitOneOf ----------

  /** find_first_of: the first character of s that is a delimiter, or the length of s */
  function FindFirst(s: string, delims: string): (i: nat)
    ensures i <= |s|
    ensures i < |s| ==> s[i] in delims
    ensures forall k :: 0 <= k < i ==> s[k] !in delims
  {
    if s == "" || s[0] in delims then 0 else FindFirst(s[1..], delims) + 1
  }

  /** Splits at most `left` times, or without limit if that is negative. An empty last piece is dropped. */
  function SplitUpTo(s: string, delims: string, left: int): (ps: seq<string>)
    decreases |s|
  {
    var i := FindFirst(s, delims);
    if left == 0 || i == |s| then if s == "" then [] else [s]
    else [s[..i]] + SplitUpTo(s[i + 1..], delims, left - 1)
  }

  lemma SplitStep(s: string, delims: string, left: int)
    ensures var i := FindFirst(s, delims);
            SplitUpTo(s, delims, left) == if left == 0 || i == |s| then if s == "" then [] else [s]
                                          else [s[..i]] + SplitUpTo(s[i + 1..], delims, left - 1)
  {}

  lemma SplitTurn(done: seq<string>, s: string, delims: string, left: int)
    requires left != 0 && FindFirst(s, delims) < |s|
    ensures var i := FindFirst(s, delims);
            done + SplitUpTo(s, delims, left) == done + [s[..i]] + SplitUpTo(s[i + 1..], delims, left - 1)
  {
    hide FindFirst;
  }

  /** splitOneOf; a limit of 0 is none. */
  function SplitOneOf(s: string, delims: string, max: nat): (ps: seq<string>) {
    SplitUpTo(s, delims, if max == 0 then -1 else max)
  }

  /** The loop of splitOneOf */
  method Split(s: string, delims: string, max: nat) returns (result: seq<string>)
    ensures result == SplitOneOf(s, delims, max)
  {
    hide SplitUpTo, FindFirst;
    var remaining, splits := s, 0;
    result := [];
    ghost var left := if max == 0 then -1 else max;
    var pos := FindFirst(remaining, delims);
    while (max == 0 || splits < max) && pos < |remaining|
      invariant pos == FindFirst(remaining, delims) && (if max == 0 then left < 0 else left == max - splits >= 0)
      invariant SplitOneOf(s, delims, max) == result + SplitUpTo(remaining, delims, left)
      decreases |remaining|
    {
      SplitTurn(result, remaining, delims, left);
      result := result + [remaining[..pos]];
      remaining := remaining[pos + 1..];
      splits, left := splits + 1, left - 1;
      pos := FindFirst(remaining, delims);
    }
    SplitStep(remaining, delims, left);
    if |remaining| > 0 { result := result + [remaining]; }
  }

  function Join(ps: seq<string>, d: char): (s: string) {
    if ps == [] then "" else if |ps| == 1 then ps[0] else ps[0] + [d] + Join(ps[1..], d)
  }

  lemma FindFirstAt(s: string, d: char, i: nat)
    requires i < |s| && s[i] == d && forall k :: 0 <= k < i ==> s[k] != d
    ensures FindFirst(s, [d]) == i
  {}

  lemma FindNone(s: string, d: char)
    requires d !in s
    ensures FindFirst(s, [d]) == |s|
  {}

  /** Splitting takes joined pieces apart again, if no piece holds the delimiter and the last is not empty. */
  lemma {:induction false} SplitJoined(ps: seq<string>, d: char, left: int)
    requires ps != [] && ps[|ps| - 1] != "" && (forall p :: p in ps ==> d !in p) && left < 0
    ensures SplitUpTo(Join(ps, d), [d], left) == ps
    decreases |ps|
  {
    hide SplitUpTo, Join, FindFirst;
    var s := Join(ps, d);
    assert ps[0] in ps;
    SplitStep(s, [d], left);
    if |ps| == 1 {
      assert ps == [ps[0]];
      JoinFew(ps[0], d);
      FindNone(ps[0], d);
    } else {
      assert ps == [ps[0]] + ps[1..];
      JoinMore(ps[0], ps[1..], d);
      FindFirstAt(s, d, |ps[0]|);
      assert s[..|ps[0]|] == ps[0] && s[|ps[0]| + 1..] == Join(ps[1..], d);
      forall p | p in ps[1..] ensures d !in p { assert p in ps; }
      SplitJoined(ps[1..], d, left - 1);
    }
  }

  /** Joining puts a split text together again, but for a delimiter at its end. */
  lemma {:induction false} JoinSplit(s: string, d: char, left: int)
    requires left < 0
    ensures var j := Join(SplitUpTo(s, [d], left), d);
            s == if s != "" && s[|s| - 1] == d then j + [d] else j
    decreases |s|
  {
    hide SplitUpTo, Join, FindFirst;
    var i := FindFirst(s, [d]);
    SplitStep(s, [d], left);
    if i < |s| {
      var rest := s[i + 1..];
      var ps := SplitUpTo(rest, [d], left - 1);
      JoinSplit(rest, d, left - 1);
      assert s == s[..i] + [d] + rest;
      if rest == "" {
        SplitStep(rest, [d], left - 1);
        assert [s[..i]] + ps == [s[..i]];
        JoinFew(s[..i], d);
      } else {
        SplitNotEmpty(rest, d, left - 1);
        JoinMore(s[..i], ps, d);
        JoinEnds(s, s[..i], d, rest, Join(ps, d));
      }
    } else {
      JoinFew(s, d);
    }
  }

  lemma JoinFew(p: string, d: char)
    ensures Join([], d) == "" && Join([p], d) == p
  {}

  lemma JoinMore(p: string, ps: seq<string>, d: char)
    requires ps != []
    ensures Join([p] + ps, d) == p + [d] + Join(ps, d)
  {
    assert ([p] + ps)[1..] == ps;
  }

  lemma JoinEnds(s: string, p: string, d: char, rest: string, j: string)
    requires s == p + [d] + rest && rest != "" && rest == if rest[|rest| - 1] == d then j + [d] else j
    ensures s == if s[|s| - 1] == d then p + [d] + j + [d] else p + [d] + j
  {
    assert s[|s| - 1] == rest[|rest| - 1];
  }

  lemma SplitNotEmpty(s: string, d: char, left: int)
    requires s != ""
    ensures SplitUpTo(s, [d], left) != []
  {}

  // ---------- Numbers ----------

  predicate IsDigit(c: char) {
    '0' <= c <= '9'
  }

  function Digit(n: nat): (c: char)
    requires n < 10
    ensures IsDigit(c)
  {
    '0' + n as char
  }

  /** A number as a stream prints it */
  function Decimal(n: nat): (s: string)
    ensures s != "" && forall k :: 0 <= k < |s| ==> IsDigit(s[k])
  {
    if n < 10 then [Digit(n)] else Decimal(n / 10) + [Digit(n % 10)]
  }

  /** The number that the digits at the start of s continue */
  function NumberFrom(s: string, acc: nat): (n: nat) {
    if s == "" || !IsDigit(s[0]) then acc else NumberFrom(s[1..], acc * 10 + (s[0] - '0') as nat)
  }

  /** strtoul with base 10, on text that does not start with a sign or white space */
  function Number(s: string): (n: nat) {
    NumberFrom(s, 0)
  }

  lemma {:induction false} NumberJoins(s: string, c: char, acc: nat)
    requires IsDigit(c) && forall k :: 0 <= k < |s| ==> IsDigit(s[k])
    ensures NumberFrom(s + [c], acc) == NumberFrom(s, acc) * 10 + (c - '0') as nat
    decreases |s|
  {
    if s == "" {
      assert (s + [c])[1..] == "";
    } else {
      assert (s + [c])[1..] == s[1..] + [c];
      NumberJoins(s[1..], c, acc * 10 + (s[0] - '0') as nat);
    }
  }

  lemma {:induction false} NumberReadsBack(n: nat)
    ensures Number(Decimal(n)) == n
  {
    if n < 10 {
      assert [Digit(n)][1..] == "" && (Digit(n) - '0') as nat == n;
      assert NumberFrom([Digit(n)], 0) == NumberFrom("", n);
    } else {
      NumberReadsBack(n / 10);
      NumberJoins(Decimal(n / 10), Digit(n % 10), 0);
    }
  }

  // ---------- Candidates ----------

  datatype HostType = Host | Srflx | Prflx | Relay

  datatype Candidate = Candidate(
    foundation: string, component: nat, protocol: string, priority: nat, address: string, port: nat,
    kind: HostType, rAddress: string, rPort: nat, generation: int)

  const U32 := 0x1_0000_0000

  const PREFIX := "a=candidate:"

  function TypeName(t: HostType): (s: string) {
    match t
    case Host => "host"
    case Srflx => "srflx"
    case Prflx => "prflx"
    case Relay => "relay"
  }

  predicate HasRelated(c: Candidate) {
    c.kind == Srflx || c.kind == Relay
  }

  function Related(c: Candidate): (ps: seq<string>) {
    if HasRelated(c) then ["raddr", c.rAddress, "rport", Decimal(c.rPort)] else []
  }

  function Generation(c: Candidate): (ps: seq<string>) {
    if c.generation >= 0 then ["generation", Decimal(c.generation)] else []
  }

  function Tokens(c: Candidate): (ps: seq<string>) {
    [PREFIX + c.foundation, Decimal(c.component), c.protocol, Decimal(c.priority), c.address, Decimal(c.port),
     "typ", TypeName(c.kind)] + Related(c) + Generation(c)
  }

  /** stringifyCandidate */
  function PrintCandidate(c: Candidate): (s: string) {
    Join(Tokens(c), ' ')
  }

  /** The pieces of a candidate line as processSdp prepares them. A line without a foundation has none. */
  function Pieces(line: string): (ps: Option<seq<string>>) {
    var ps := SplitOneOf(line, " ", 0);
    if ps == [] then None
    else
      var head := SplitOneOf(ps[0], ":", 0);
      if |head| < 2 then None else Some(["", head[1]] + ps[1..])
  }

  /** The loop over types_str; a type of no known name is a host. */
  function TypeOf(name: string): (t: HostType) {
    if name == "relay" then Relay
    else if name == "prflx" then Prflx
    else if name == "srflx" then Srflx
    else Host
  }

  function Unsigned(s: string): (n: nat) {
    Number(s) % U32
  }

  /** processCandidate. It takes UDP candidates only. Lines with fewer pieces than it reads are not parsed. */
  function ProcessCandidate(ps: seq<string>): (c: Option<Candidate>) {
    if |ps| < 9 || (ps[3] != "UDP" && ps[3] != "udp") || ps[7] != "typ" then None
    else
      var kind := TypeOf(ps[8]);
      var related := kind == Srflx || kind == Relay;
      if related && |ps| < 13 then None
      else
        var at := if kind == Host then 9 else 13;
        Some(Candidate(
          ps[1], Unsigned(ps[2]), ps[3], Unsigned(ps[4]), ps[5], Unsigned(ps[6]), kind,
          if related then ps[10] else "", if related then Unsigned(ps[12]) else 0,
          if |ps| > at then Number(ps[at]) else -1))
  }

  function ParseCandidate(line: string): (c: Option<Candidate>) {
    var ps := Pieces(line);
    if ps.None? then None else ProcessCandidate(ps.value)
  }

  predicate IsUdp(protocol: string) {
    protocol == "udp" || protocol == "UDP"
  }

  /** A candidate whose tokens hold no space */
  predicate Printable(c: Candidate) {
    && ' ' !in c.foundation && ' ' !in c.address && ' ' !in c.rAddress && ' ' !in c.protocol
    && c.component < U32 && c.priority < U32 && c.port < U32 && c.rPort < U32
  }

  /** Everything but the generation, and the related address only where there is one */
  predicate SameCandidate(a: Candidate, b: Candidate) {
    && a.foundation == b.foundation && a.component == b.component && a.protocol == b.protocol
    && a.priority == b.priority && a.address == b.address && a.port == b.port && a.kind == b.kind
    && (HasRelated(a) ==> a.rAddress == b.rAddress && a.rPort == b.rPort)
  }

  lemma NoSpace(n: nat)
    ensures ' ' !in Decimal(n)
  {}

  lemma TokensClean(c: Candidate)
    requires Printable(c)
    ensures forall p :: p in Tokens(c) ==> ' ' !in p
    ensures Tokens(c)[|Tokens(c)| - 1] != ""
  {
    NoSpace(c.component);
    NoSpace(c.priority);
    NoSpace(c.port);
    NoSpace(c.rPort);
    if c.generation >= 0 { NoSpace(c.generation); }
    assert ' ' !in PREFIX;
    assert ' ' !in "typ" && ' ' !in TypeName(c.kind) && ' ' !in "raddr" && ' ' !in "rport" && ' ' !in "generation";
  }

  /** The foundation as the parser finds it behind the first colon */
  lemma HeadPiece(f: string)
    ensures var head := SplitOneOf(PREFIX + f, ":", 0);
            && (|head| >= 2 <==> f != "")
            && (f != "" ==> (head[1] == f <==> ':' !in f))
  {
    var s := PREFIX + f;
    assert PREFIX[11] == ':' && forall k :: 0 <= k < 11 ==> PREFIX[k] != ':';
    FindFirstAt(s, ':', 11);
    assert s[12..] == f;
    assert SplitOneOf(s, ":", 0) == [s[..11]] + SplitUpTo(f, ":", -2);
    var i := FindFirst(f, ":");
    if f == "" {
      assert SplitUpTo(f, ":", -2) == [];
    } else {
      if ':' !in f {
        FindNone(f, ':');
        assert SplitUpTo(f, ":", -2) == [f];
      } else {
        assert i < |f|;
        assert SplitUpTo(f, ":", -2)[0] == f[..i];
        assert |f[..i]| < |f|;
      }
    }
  }

  lemma TypeReadsBack(t: HostType)
    ensures TypeOf(TypeName(t)) == t
  {
    assert "host"[0] != "relay"[0] && "host"[0] != "prflx"[0] && "host"[0] != "srflx"[0];
    assert "srflx"[0] != "relay"[0] && "srflx"[0] != "prflx"[0] && "prflx"[0] != "relay"[0];
  }

  lemma UnsignedReadsBack(n: nat)
    requires n < U32
    ensures Unsigned(Decimal(n)) == n
  {
    NumberReadsBack(n);
  }

  lemma PiecesRead(c: Candidate, f: string)
    requires Printable(c)
    ensures var r := ProcessCandidate(["", f] + Tokens(c)[1..]);
            && (r.Some? <==> IsUdp(c.protocol))
            && (r.Some? ==> r.value.foundation == f && SameCandidate(c, r.value.(foundation := c.foundation)))
  {
    TypeReadsBack(c.kind);
    UnsignedReadsBack(c.component);
    UnsignedReadsBack(c.priority);
    UnsignedReadsBack(c.port);
    UnsignedReadsBack(c.rPort);
    var ts := Tokens(c);
    var ps := ["", f] + ts[1..];
    assert forall k :: 2 <= k < |ps| ==> ps[k] == ts[k - 1];
    if HasRelated(c) {
      assert ts[9] == c.rAddress && ts[11] == Decimal(c.rPort);
    }
  }

  /** A printed candidate is parsed back, but for its generation, if and only if it is a UDP candidate and its
      foundation is not empty and has no colon. */
  lemma CandidateReadsBack(c: Candidate)
    requires Printable(c)
    ensures var r := ParseCandidate(PrintCandidate(c));
            (r.Some? && SameCandidate(c, r.value)) <==> IsUdp(c.protocol) && c.foundation != "" && ':' !in c.foundation
  {
    hide Tokens, ProcessCandidate, Join, SplitUpTo, Printable, IsUdp;
    TokensClean(c);
    FirstToken(c);
    SplitJoined(Tokens(c), ' ', -1);
    HeadPiece(c.foundation);
    if c.foundation != "" {
      var f := SplitOneOf(PREFIX + c.foundation, ":", 0)[1];
      PiecesRead(c, f);
    }
  }

  lemma FirstToken(c: Candidate)
    ensures Tokens(c) != [] && Tokens(c)[0] == PREFIX + c.foundation
  {}
}
