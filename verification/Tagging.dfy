/** event_tagging.c: integers by nibbles, tags by groups of seven bits, and records of a tag, a length and a
    payload. */
module Tagging {
  import opened Basics
  import opened EvBuffer

  const U32 := 0x1_0000_0000

  // ---------- What the decoders see ----------

  /** The first k bytes of a buffer of this length are seen by a decoder, which stores the length in an int. */
  predicate Reaches(length: nat, k: nat) {
    k <= Int32(length)
  }

  /** The bytes a decoder sees */
  function Seen(s: seq<Byte>): (w: seq<Byte>)
    ensures w <= s && |w| == if Int32(|s|) <= 0 then 0 else Int32(|s|)
  {
    Int32Least(|s|);
    if Int32(|s|) <= 0 then [] else s[..Int32(|s|)]
  }

  /** Whether the bytes written before `rest` are all seen; if not, only some of them are. */
  lemma SeenSplit(e: seq<Byte>, rest: seq<Byte>)
    requires e != []
    ensures if Reaches(|e + rest|, |e|) then |e| <= |Seen(e + rest)| && Seen(e + rest) == e + Seen(e + rest)[|e|..]
            else |Seen(e + rest)| < |e| && Seen(e + rest) == e[..|Seen(e + rest)|]
  {
    hide Int32;
    var s, w := e + rest, Seen(e + rest);
    if Reaches(|s|, |e|) {
      assert w[..|e|] == s[..|e|] == e;
      assert w == w[..|e|] + w[|e|..];
    }
  }

  // ---------- Integers ----------

  /** The nibbles of a number, least significant first */
  function Nibbles(n: nat): (ns: seq<nat>)
    ensures forall i :: 0 <= i < |ns| ==> ns[i] < 16
  {
    if n == 0 then [] else [n % 16] + Nibbles(n / 16)
  }

  function Value(ns: seq<nat>): (n: nat) {
    if ns == [] then 0 else ns[0] + 16 * Value(ns[1..])
  }

  function NibbleAt(ns: seq<nat>, i: int): (x: nat)
    requires forall k :: 0 <= k < |ns| ==> ns[k] < 16
    ensures x < 16
  {
    if 0 <= i < |ns| then ns[i] else 0
  }

  /** The number of nibbles less one, in the place before them */
  function Header(ns: seq<nat>): (h: nat) {
    if |ns| > 1 then |ns| - 1 else 0
  }

  function PackedByte(ns: seq<nat>, k: nat): (b: Byte)
    requires |ns| <= 8 && forall i :: 0 <= i < |ns| ==> ns[i] < 16
  {
    (if k == 0 then Header(ns) else NibbleAt(ns, 2 * k - 1)) * 16 + NibbleAt(ns, 2 * k)
  }

  /** encode_int */
  function EncodeInt(n: nat): (s: seq<Byte>)
    requires n < U32
    ensures 1 <= |s| <= 5
  {
    ShortNibbles(n, 8);
    var ns := Nibbles(n);
    seq(|ns| / 2 + 1, k requires 0 <= k => PackedByte(ns, k))
  }

  function Pow16(k: nat): (p: nat)
    ensures p > 0
  {
    if k == 0 then 1 else 16 * Pow16(k - 1)
  }

  lemma {:induction false} ShortNibbles(n: nat, k: nat)
    requires n < Pow16(k) || (k == 8 && n < U32)
    ensures |Nibbles(n)| <= k
    decreases k
  {
    if k == 8 { Pow16Is(); }
    if n > 0 {
      assert k > 0;
      ShortNibbles(n / 16, k - 1);
    }
  }

  lemma Pow16Is()
    ensures Pow16(8) == U32
  {
    assert Pow16(4) == 65536;
    assert Pow16(8) == 16 * 16 * 16 * 16 * Pow16(4);
  }

  lemma {:induction false} NibblesValue(n: nat)
    ensures Value(Nibbles(n)) == n
  {
    if n > 0 { NibblesValue(n / 16); }
  }

  /** The nibble i of an encoded number; the first is the one beside the header. */
  function Nib(s: seq<Byte>, i: nat): (x: nat)
    requires i / 2 < |s|
    ensures x < 16
  {
    if i % 2 == 1 then s[i / 2] % 16 else s[i / 2] / 16
  }

  /** The number made of the nibbles from i to last */
  function FromNibble(s: seq<Byte>, i: nat, last: nat): (n: nat)
    requires last / 2 < |s|
    decreases last + 1 - i
  {
    if i > last then 0 else Nib(s, i) + 16 * FromNibble(s, i + 1, last)
  }

  /** decode_int_internal: the number and how many bytes it took */
  function DecodeInt(s: seq<Byte>): (r: Option<(nat, nat)>) {
    IntIn(Seen(s))
  }

  /** The same on the bytes seen */
  function IntIn(s: seq<Byte>): (r: Option<(nat, nat)>)
    ensures r.Some? ==> 1 <= r.value.1 <= |s|
  {
    if s == [] then None
    else
      var nibbles := s[0] / 16 + 1;
      if nibbles > 8 || nibbles / 2 + 1 > |s| then None
      else Some((FromNibble(s, 1, nibbles), nibbles / 2 + 1))
  }

  lemma {:induction false} FromNibbleIs(s: seq<Byte>, ns: seq<nat>, i: nat, last: nat)
    requires last / 2 < |s| && 1 <= i <= last + 1 && last == |ns|
    requires forall k :: 1 <= k <= last ==> Nib(s, k) == ns[k - 1]
    ensures FromNibble(s, i, last) == Value(ns[i - 1..])
    decreases last + 1 - i
  {
    if i <= last {
      FromNibbleIs(s, ns, i + 1, last);
      assert ns[i - 1..][1..] == ns[i..];
    }
  }

  lemma PackedNibbles(n: nat, rest: seq<Byte>)
    requires n < U32
    ensures var s := EncodeInt(n) + rest;
            var ns := Nibbles(n);
            && |ns| <= 8 && |EncodeInt(n)| == |ns| / 2 + 1 && s[0] / 16 == Header(ns)
            && (ns == [] ==> s[0] == 0)
            && forall k :: 1 <= k <= |ns| ==> Nib(s, k) == ns[k - 1]
  {
    hide Nibbles, PackedByte;
    ShortNibbles(n, 8);
    var ns := Nibbles(n);
    var s := EncodeInt(n) + rest;
    assert s[0] == PackedByte(ns, 0);
    FirstPacked(ns);
    forall k | 1 <= k <= |ns| ensures Nib(s, k) == ns[k - 1] {
      assert s[k / 2] == PackedByte(ns, k / 2);
      PackedAt(ns, k);
    }
  }

  lemma FirstPacked(ns: seq<nat>)
    requires |ns| <= 8 && forall i :: 0 <= i < |ns| ==> ns[i] < 16
    ensures PackedByte(ns, 0) / 16 == Header(ns) && (ns == [] ==> PackedByte(ns, 0) == 0)
  {}

  lemma PackedAt(ns: seq<nat>, k: nat)
    requires 1 <= k <= |ns| <= 8 && forall i :: 0 <= i < |ns| ==> ns[i] < 16
    ensures ns[k - 1] == if k % 2 == 1 then PackedByte(ns, k / 2) % 16 else PackedByte(ns, k / 2) / 16
  {}

  lemma NoNibbles()
    ensures Value([]) == 0
  {}

  lemma IntSeen(n: nat, rest: seq<Byte>)
    requires n < U32
    ensures IntIn(EncodeInt(n) + rest) == Some((n, |EncodeInt(n)|))
  {
    hide Nibbles, EncodeInt, Value;
    NoNibbles();
    var s := EncodeInt(n) + rest;
    var ns := Nibbles(n);
    PackedNibbles(n, rest);
    NibblesValue(n);
    if ns == [] {
      assert Nib(s, 1) == 0;
    } else {
      FromNibbleIs(s, ns, 1, |ns|);
      assert ns[0..] == ns;
    }
  }

  lemma IntCut(n: nat, k: nat)
    requires n < U32 && k < |EncodeInt(n)|
    ensures IntIn(EncodeInt(n)[..k]) == None
  {
    hide Nibbles, EncodeInt;
    PackedNibbles(n, []);
    assert EncodeInt(n) + [] == EncodeInt(n);
  }

  /** Every 32-bit number is read back as it was written, whatever follows it, if and only if the length of the buffer
      shows all of it when it is stored in an int; otherwise nothing is read. */
  lemma IntReadsBack(n: nat, rest: seq<Byte>)
    requires n < U32
    ensures var s := EncodeInt(n) + rest;
            DecodeInt(s) == if Reaches(|s|, |EncodeInt(n)|) then Some((n, |EncodeInt(n)|)) else None
  {
    hide EncodeInt, IntIn, Seen, Reaches;
    var e := EncodeInt(n);
    SeenSplit(e, rest);
    if Reaches(|e + rest|, |e|) {
      IntSeen(n, Seen(e + rest)[|e|..]);
    } else {
      IntCut(n, |Seen(e + rest)|);
    }
  }

  // ---------- Tags ----------

  /** evtag_encode_tag */
  function EncodeTag(t: nat): (s: seq<Byte>)
    ensures s != []
  {
    if t < 128 then [t] else [t % 128 + 128] + EncodeTag(t / 128)
  }

  function Pow128(k: nat): (p: nat)
    ensures p > 0
  {
    if k == 0 then 1 else 128 * Pow128(k - 1)
  }

  /** The number made of the low seven bits of the first c bytes */
  function Sevens(s: seq<Byte>, c: nat): (n: nat)
    requires c <= |s|
  {
    if c == 0 then 0 else s[0] % 128 + 128 * Sevens(s[1..], c - 1)
  }

  /** The bytes up to the first one without the continuation bit */
  function TagLength(s: seq<Byte>): (c: Option<nat>)
    ensures c.Some? ==> 1 <= c.value <= |s|
  {
    if s == [] then None
    else if s[0] < 128 then Some(1)
    else
      var r := TagLength(s[1..]);
      if r.None? then None else Some(r.value + 1)
  }

  /** decode_tag_internal. The shifts past 32 bits that a tag of more than five bytes asks for add nothing. */
  function DecodeTag(s: seq<Byte>): (r: Option<(nat, nat)>) {
    TagIn(Seen(s))
  }

  /** The same on the bytes seen */
  function TagIn(s: seq<Byte>): (r: Option<(nat, nat)>)
    ensures r.Some? ==> 1 <= r.value.1 <= |s|
  {
    var c := TagLength(s);
    if c.None? then None else Some((Sevens(s, c.value) % U32, c.value))
  }

  lemma {:induction false} TagSevens(t: nat, rest: seq<Byte>)
    ensures TagLength(EncodeTag(t) + rest) == Some(|EncodeTag(t)|)
    ensures Sevens(EncodeTag(t) + rest, |EncodeTag(t)|) == t
  {
    var s := EncodeTag(t) + rest;
    if t < 128 {
      assert s[0] == t;
    } else {
      TagSevens(t / 128, rest);
      assert s[1..] == EncodeTag(t / 128) + rest;
    }
  }

  lemma {:induction false} TagCut(t: nat, k: nat)
    requires k < |EncodeTag(t)|
    ensures TagLength(EncodeTag(t)[..k]) == None
  {
    if k > 0 {
      TagCut(t / 128, k - 1);
      assert EncodeTag(t)[..k][1..] == EncodeTag(t / 128)[..k - 1];
    }
  }

  /** Every 32-bit tag is read back as it was written, whatever follows it, if and only if the length of the buffer
      shows all of it when it is stored in an int; otherwise nothing is read. */
  lemma TagReadsBack(t: nat, rest: seq<Byte>)
    requires t < U32
    ensures var s := EncodeTag(t) + rest;
            DecodeTag(s) == if Reaches(|s|, |EncodeTag(t)|) then Some((t, |EncodeTag(t)|)) else None
  {
    hide EncodeTag, TagLength, Sevens, Seen, Reaches;
    var e := EncodeTag(t);
    SeenSplit(e, rest);
    if Reaches(|e + rest|, |e|) {
      TagSevens(t, Seen(e + rest)[|e|..]);
    } else {
      TagCut(t, |Seen(e + rest)|);
    }
  }

  /** From 2^31 to 2^32 bytes nothing is decoded, whatever the buffer holds. */
  lemma LongIsNotDecoded(s: seq<Byte>)
    requires 0x8000_0000 <= |s| <= 0x1_0000_0000
    ensures DecodeTag(s) == None && DecodeInt(s) == None
  {
    assert Int32(|s|) <= 0;
  }

  // ---------- Records ----------

  /** evtag_marshal */
  function Marshal(tag: nat, payload: seq<Byte>): (s: seq<Byte>)
    requires |payload| < U32
  {
    EncodeTag(tag) + EncodeInt(|payload|) + payload
  }

  /** What is left in the source, and the record if there was one */
  datatype Read = Bad(rest: seq<Byte>) | Good(tag: nat, payload: seq<Byte>, rest: seq<Byte>)

  /** The tag and the length before a payload. What could be decoded before a failure is gone. */
  datatype Head = NoHead(rest: seq<Byte>) | Head(tag: nat, length: nat, rest: seq<Byte>)

  function DecodeHead(s: seq<Byte>): (h: Head) {
    var t := DecodeTag(s);
    if t.None? then NoHead(s)
    else
      var s1 := s[t.value.1..];
      var n := DecodeInt(s1);
      if n.None? then NoHead(s1) else Head(t.value.0, n.value.0, s1[n.value.1..])
  }

  /** evtag_unmarshal */
  function Unmarshal(s: seq<Byte>): (r: Read) {
    match DecodeHead(s)
    case NoHead(rest) => Bad(rest)
    case Head(tag, n, rest) => if |rest| < n then Bad(rest) else Good(tag, rest[..n], rest[n..])
  }

  /** evtag_marshal_int */
  function MarshalInt(tag: nat, n: nat): (s: seq<Byte>)
    requires n < U32
  {
    Marshal(tag, EncodeInt(n))
  }

  /** evtag_unmarshal_int: what is left, and the number if the tag was the one needed */
  function UnmarshalInt(s: seq<Byte>, need: nat): (r: (Option<nat>, seq<Byte>)) {
    var t := DecodeTag(s);
    if t.None? then (None, s)
    else
      var s1 := s[t.value.1..];
      if t.value.0 != need then (None, s1)
      else match Unmarshal(s)
        case Bad(rest) => (None, rest)
        case Good(_, payload, rest) =>
          var n := DecodeInt(payload);
          (if n.None? then None else Some(n.value.0), rest)
  }

  /** The tag and the length of a record are seen in a buffer of this many bytes, one after the other. */
  predicate HeadSeen(length: nat, tag: nat, payload: nat)
    requires payload < U32
  {
    && Reaches(length, |EncodeTag(tag)|)
    && |EncodeTag(tag)| <= length && Reaches(length - |EncodeTag(tag)|, |EncodeInt(payload)|)
  }

  /** Below 2^31 bytes all of a record is seen. */
  lemma ShortIsSeen(tag: nat, payload: nat, length: nat)
    requires payload < U32 && |EncodeTag(tag)| + |EncodeInt(payload)| <= length < 0x8000_0000
    ensures HeadSeen(length, tag, payload)
  {
    hide EncodeTag, EncodeInt, Int32;
    Int32Least(length);
    Int32Least(length - |EncodeTag(tag)|);
  }

  /** The header of a record is decoded if and only if it is seen. */
  lemma HeadReadsBack(tag: nat, n: nat, rest: seq<Byte>)
    requires tag < U32 && n < U32
    ensures var s := EncodeTag(tag) + (EncodeInt(n) + rest);
            if HeadSeen(|s|, tag, n) then DecodeHead(s) == Head(tag, n, rest) else DecodeHead(s).NoHead?
  {
    hide EncodeTag, EncodeInt, DecodeTag, DecodeInt, Reaches;
    var s1 := EncodeInt(n) + rest;
    var s := EncodeTag(tag) + s1;
    TagReadsBack(tag, s1);
    assert s[|EncodeTag(tag)|..] == s1 && |s1| == |s| - |EncodeTag(tag)|;
    IntReadsBack(n, rest);
    assert s1[|EncodeInt(n)|..] == rest;
  }

  /** A record is read back exactly, for every 32-bit tag and every payload, and what follows it stays, if and only if
      its header is seen; otherwise it is refused. */
  lemma RecordReadsBack(tag: nat, payload: seq<Byte>, rest: seq<Byte>)
    requires tag < U32 && |payload| < U32
    ensures var s := Marshal(tag, payload) + rest;
            if HeadSeen(|s|, tag, |payload|) then Unmarshal(s) == Good(tag, payload, rest) else Unmarshal(s).Bad?
  {
    hide EncodeTag, EncodeInt, DecodeHead, HeadSeen;
    var s := Marshal(tag, payload) + rest;
    assert s == EncodeTag(tag) + (EncodeInt(|payload|) + (payload + rest));
    HeadReadsBack(tag, |payload|, payload + rest);
    assert (payload + rest)[..|payload|] == payload && (payload + rest)[|payload|..] == rest;
  }

  lemma IntRecordReadsBack(tag: nat, n: nat, rest: seq<Byte>)
    requires tag < U32 && n < U32
    ensures var s := MarshalInt(tag, n) + rest;
            UnmarshalInt(s, tag) == (Some(n), rest) <==> HeadSeen(|s|, tag, |EncodeInt(n)|)
    ensures var s := MarshalInt(tag, n) + rest;
            UnmarshalInt(s, tag).0.None? <==> !HeadSeen(|s|, tag, |EncodeInt(n)|)
  {
    hide EncodeTag, EncodeInt, DecodeTag, DecodeInt, Unmarshal, Reaches;
    var s, e := MarshalInt(tag, n) + rest, EncodeInt(n);
    var s1 := EncodeInt(|e|) + e + rest;
    assert s == EncodeTag(tag) + s1;
    TagReadsBack(tag, s1);
    RecordReadsBack(tag, e, rest);
    AloneReadsBack(n);
  }

  /** A number that is all of its buffer is read. */
  lemma AloneReadsBack(n: nat)
    requires n < U32
    ensures DecodeInt(EncodeInt(n)) == Some((n, |EncodeInt(n)|))
  {
    hide EncodeInt, DecodeInt;
    IntReadsBack(n, []);
    assert EncodeInt(n) + [] == EncodeInt(n);
    Int32Least(|EncodeInt(n)|);
  }

  /** evtag_marshal_timeval and evtag_unmarshal_timeval: two numbers in one payload. They are read one after the other
      if and only if the header of the record is seen. */
  lemma PairReadsBack(tag: nat, sec: nat, usec: nat, rest: seq<Byte>)
    requires tag < U32 && sec < U32 && usec < U32
    ensures var payload := EncodeInt(sec) + EncodeInt(usec);
            var s := Marshal(tag, payload) + rest;
            && (Unmarshal(s) == Good(tag, payload, rest) <==> HeadSeen(|s|, tag, |payload|))
            && DecodeInt(payload) == Some((sec, |EncodeInt(sec)|))
            && DecodeInt(payload[|EncodeInt(sec)|..]) == Some((usec, |EncodeInt(usec)|))
  {
    hide EncodeTag, EncodeInt, DecodeInt, Unmarshal, HeadSeen, Int32;
    var payload := EncodeInt(sec) + EncodeInt(usec);
    RecordReadsBack(tag, payload, rest);
    IntReadsBack(sec, EncodeInt(usec));
    Int32Least(|payload|);
    AloneReadsBack(usec);
    assert payload[|EncodeInt(sec)|..] == EncodeInt(usec);
  }

  /** A sequence of records is read back record by record. */
  function MarshalAll(rs: seq<(nat, seq<Byte>)>): (s: seq<Byte>)
    requires forall r :: r in rs ==> r.0 < U32 && |r.1| < U32
  {
    if rs == [] then [] else Marshal(rs[0].0, rs[0].1) + MarshalAll(rs[1..])
  }

  function UnmarshalAll(s: seq<Byte>, count: nat): (rs: Option<seq<(nat, seq<Byte>)>>) {
    if count == 0 then if s == [] then Some([]) else None
    else match Unmarshal(s)
      case Bad(_) => None
      case Good(tag, payload, rest) =>
        var more := UnmarshalAll(rest, count - 1);
        if more.None? then None else Some([(tag, payload)] + more.value)
  }

  /** Each header is seen when its record is the first that is left. */
  predicate AllSeen(rs: seq<(nat, seq<Byte>)>)
    requires forall r :: r in rs ==> r.0 < U32 && |r.1| < U32
  {
    rs == [] || (HeadSeen(|MarshalAll(rs)|, rs[0].0, |rs[0].1|) && AllSeen(rs[1..]))
  }

  lemma {:induction false} StreamReadsBack(rs: seq<(nat, seq<Byte>)>)
    requires forall r :: r in rs ==> r.0 < U32 && |r.1| < U32
    ensures UnmarshalAll(MarshalAll(rs), |rs|) == if AllSeen(rs) then Some(rs) else None
  {
    hide Marshal, Unmarshal, HeadSeen;
    if rs != [] {
      RecordReadsBack(rs[0].0, rs[0].1, MarshalAll(rs[1..]));
      StreamReadsBack(rs[1..]);
      assert rs == [(rs[0].0, rs[0].1)] + rs[1..];
    }
  }

  /** A stream below 2^31 bytes is read back. */
  lemma {:induction false} ShortStreamSeen(rs: seq<(nat, seq<Byte>)>)
    requires (forall r :: r in rs ==> r.0 < U32 && |r.1| < U32) && |MarshalAll(rs)| < 0x8000_0000
    ensures AllSeen(rs)
  {
    hide EncodeTag, EncodeInt, HeadSeen;
    if rs != [] {
      ShortIsSeen(rs[0].0, |rs[0].1|, |MarshalAll(rs)|);
      ShortStreamSeen(rs[1..]);
    }
  }

  /** evtag_peek_length; the sum is taken in 32 bits. */
  function PeekLength(s: seq<Byte>): (n: Option<nat>) {
    var t := DecodeTag(s);
    if t.None? then None
    else
      var n := DecodeInt(s[t.value.1..]);
      if n.None? then None else Some((n.value.0 + n.value.1 + t.value.1) % U32)
  }

  /** evtag_consume: whether it succeeded, and what is left */
  function Consume(s: seq<Byte>): (r: (bool, seq<Byte>)) {
    match DecodeHead(s)
    case NoHead(rest) => (false, rest)
    case Head(_, n, rest) => (true, if n >= |rest| then [] else rest[n..])
  }

  /** How long the record is that the header announces, header included. */
  function Announced(s: seq<Byte>): (n: Option<nat>) {
    var t := DecodeTag(s);
    if t.None? then None
    else
      var n := DecodeInt(s[t.value.1..]);
      if n.None? then None else Some(t.value.1 + n.value.1 + n.value.0)
  }

  /** The header, and as many bytes after it as it says, have arrived. */
  predicate Complete(s: seq<Byte>) {
    Announced(s).Some? && Announced(s).value <= |s|
  }

  /** evtag_peek_length announces what evtag_consume takes away if and only if the whole record has arrived and is less
      than 2^32 bytes long. A record can be unmarshalled if and only if it has arrived. */
  lemma PeekIsConsumed(s: seq<Byte>)
    ensures PeekLength(s).None? <==> !Consume(s).0
    ensures Consume(s).0 ==>
              (PeekLength(s).value == |s| - |Consume(s).1| <==> Complete(s) && Announced(s).value < U32)
    ensures Unmarshal(s).Good? <==> Complete(s)
    ensures Complete(s) ==> Consume(s) == (true, Unmarshal(s).rest)
  {
    hide DecodeTag, DecodeInt;
    TagFits(s);
    if DecodeTag(s).Some? {
      DecodedFits(s[DecodeTag(s).value.1..]);
    }
  }

  lemma TagFits(s: seq<Byte>)
    ensures DecodeTag(s).Some? ==> 1 <= DecodeTag(s).value.1 <= |s| && DecodeTag(s).value.1 < 0x8000_0000
  {
    hide Int32, TagLength, Sevens;
  }

  /** A record of which not all has arrived is announced in full, and consumed as far as it goes, if its header is
      seen. */
  lemma CutRecord(tag: nat, payload: seq<Byte>, k: nat)
    requires tag < U32 && |payload| < U32 - 16 && k < |payload|
    ensures var s := Marshal(tag, payload)[..|Marshal(tag, payload)| - |payload| + k];
            && !Complete(s) && Unmarshal(s).Bad?
            && if HeadSeen(|s|, tag, |payload|) then
                 PeekLength(s) == Some(|Marshal(tag, payload)|) && Consume(s) == (true, [])
               else PeekLength(s).None? && !Consume(s).0
  {
    hide EncodeTag, EncodeInt, DecodeTag, DecodeInt, HeadSeen;
    var s := Marshal(tag, payload)[..|Marshal(tag, payload)| - |payload| + k];
    assert s == EncodeTag(tag) + (EncodeInt(|payload|) + payload[..k]);
    HeadReadsBack(tag, |payload|, payload[..k]);
    HeadSizes(tag, |payload|, payload[..k]);
    PeekIsConsumed(s);
  }

  lemma HeadSizes(tag: nat, n: nat, rest: seq<Byte>)
    requires tag < U32 && n < U32 - 16
    ensures var s := EncodeTag(tag) + (EncodeInt(n) + rest);
            HeadSeen(|s|, tag, n) ==>
              && Announced(s) == Some(|EncodeTag(tag)| + |EncodeInt(n)| + n)
              && PeekLength(s) == Announced(s)
  {
    hide EncodeTag, EncodeInt, DecodeTag, DecodeInt, Reaches;
    var s1 := EncodeInt(n) + rest;
    var s := EncodeTag(tag) + s1;
    TagReadsBack(tag, s1);
    assert s[|EncodeTag(tag)|..] == s1 && |s1| == |s| - |EncodeTag(tag)|;
    IntReadsBack(n, rest);
    ShortTag(tag, 5);
  }

  lemma DecodedFits(s: seq<Byte>)
    ensures DecodeInt(s).Some? ==>
              DecodeInt(s).value.0 < U32 && DecodeInt(s).value.1 <= 5 && DecodeInt(s).value.1 <= |s|
  {
    hide Int32;
    if DecodeInt(s).Some? {
      var last := Seen(s)[0] / 16 + 1;
      NibblesFit(Seen(s), 1, last);
      PowLe(last, 8);
      Pow16Is();
    }
  }

  lemma {:induction false} NibblesFit(s: seq<Byte>, i: nat, last: nat)
    requires last / 2 < |s| && i <= last + 1
    ensures FromNibble(s, i, last) < Pow16(last + 1 - i)
    decreases last + 1 - i
  {
    if i <= last { NibblesFit(s, i + 1, last); }
  }

  lemma {:induction false} PowLe(j: nat, k: nat)
    requires j <= k
    ensures Pow16(j) <= Pow16(k)
  {
    if j < k { PowLe(j, k - 1); }
  }

  // ---------- On buffers ----------

  /** The scratch byte k when the first `done` nibbles are in it, without the header */
  function Partial(ns: seq<nat>, done: nat, k: nat): (b: Byte)
    requires done <= |ns| && forall i :: 0 <= i < |ns| ==> ns[i] < 16
  {
    (if 1 <= k && 2 * k - 1 < done then ns[2 * k - 1] * 16 else 0) + if 2 * k < done then ns[2 * k] else 0
  }

  /** The new value of the byte that takes the next nibble */
  function PutNibble(b: Byte, off: nat, x: nat): (b': Byte)
    requires x < 16
  {
    if off % 2 == 1 then b / 16 * 16 + x else b % 16 + x * 16
  }

  lemma PartialStep(ns: seq<nat>, off: nat)
    requires 1 <= off <= |ns| <= 8 && forall i :: 0 <= i < |ns| ==> ns[i] < 16
    ensures Partial(ns, off, off / 2) == PutNibble(Partial(ns, off - 1, off / 2), off, ns[off - 1])
    ensures forall k :: 0 <= k < 5 && k != off / 2 ==> Partial(ns, off, k) == Partial(ns, off - 1, k)
  {}

  /** The loop of encode_int */
  method FillNibbles(data: array<Byte>, number: nat) returns (off: nat)
    requires data.Length == 5 && number < U32 && forall k :: 0 <= k < 5 ==> data[k] == 0
    modifies data
    ensures var ns := Nibbles(number);
            |ns| <= 8 && off == |ns| + 1 && forall k :: 0 <= k < 5 ==> data[k] == Partial(ns, |ns|, k)
  {
    hide Partial, PutNibble, Nibbles;
    var n := number;
    off := 1;
    ghost var ns := Nibbles(number);
    ShortNibbles(number, 8);
    PartialNone(ns);
    NibblesNone();
    while n != 0
      invariant 1 <= off <= |ns| + 1 && Nibbles(n) == ns[off - 1..]
      invariant forall k :: 0 <= k < 5 ==> data[k] == Partial(ns, off - 1, k)
    {
      NibblesStep(n, ns, off - 1);
      PartialStep(ns, off);
      data[off / 2] := PutNibble(data[off / 2], off, n % 16);
      n := n / 16;
      off := off + 1;
    }
  }

  lemma NibblesNone()
    ensures Nibbles(0) == []
  {}

  lemma NibblesStep(n: nat, ns: seq<nat>, i: nat)
    requires n != 0 && i <= |ns| && Nibbles(n) == ns[i..]
    ensures i < |ns| && ns[i] == n % 16 && Nibbles(n / 16) == ns[i + 1..]
  {
    assert ns[i..][0] == n % 16 && ns[i..][1..] == ns[i + 1..];
  }

  lemma PartialNone(ns: seq<nat>)
    requires forall i :: 0 <= i < |ns| ==> ns[i] < 16
    ensures forall k :: 0 <= k ==> Partial(ns, 0, k) == 0
  {}

  lemma HeaderByte(ns: seq<nat>, k: nat)
    requires |ns| <= 8 && forall i :: 0 <= i < |ns| ==> ns[i] < 16
    ensures PackedByte(ns, k) == if k == 0 then Partial(ns, |ns|, 0) % 16 + Header(ns) * 16 else Partial(ns, |ns|, k)
  {}

  /** encode_int with its five bytes of scratch space */
  method WriteInt(buf: Buffer, number: nat)
    requires buf.Valid() && number < U32 && buf.off <= SIZE_MAX - 5
    modifies buf, buf.data
    ensures buf.Valid() && (buf.data == old(buf.data) || fresh(buf.data))
    ensures buf.Contents() == old(buf.Contents()) + EncodeInt(number)
  {
    hide Partial, PackedByte;
    var data := new Byte[5](_ => 0);
    var off := FillNibbles(data, number);
    var nibbles := if off > 2 then off - 2 else 0;
    data[0] := data[0] % 16 + nibbles * 16;
    ghost var ns := Nibbles(number);
    forall k | 0 <= k < |ns| / 2 + 1 ensures data[k] == PackedByte(ns, k) { HeaderByte(ns, k); }
    assert data[..(off + 1) / 2] == EncodeInt(number);
    var res, told := buf.Add(data[..(off + 1) / 2]);
  }

  /** The loop of evtag_encode_tag */
  method FillTag(data: array<Byte>, tag: nat) returns (bytes: nat)
    requires data.Length == 5 && tag < U32
    modifies data
    ensures bytes <= 5 && data[..bytes] == EncodeTag(tag)
  {
    var t := tag;
    bytes := 0;
    ghost var all := EncodeTag(tag);
    ShortTag(tag, 5);
    var more := true;
    while more
      invariant bytes <= |all| && data[..bytes] == all[..bytes]
      invariant if more then EncodeTag(t) == all[bytes..] else bytes == |all|
      decreases more, t
    {
      var lower := t % 128;
      t := t / 128;
      if t != 0 { lower := lower + 128; }
      assert all[bytes] == lower;
      data[bytes] := lower;
      bytes := bytes + 1;
      more := t != 0;
    }
  }

  /** evtag_encode_tag with its five bytes of scratch space; the result is how many bytes the tag takes. */
  method WriteTag(buf: Buffer, tag: nat) returns (bytes: nat)
    requires buf.Valid() && tag < U32 && buf.off <= SIZE_MAX - 5
    modifies buf, buf.data
    ensures buf.Valid() && (buf.data == old(buf.data) || fresh(buf.data))
    ensures buf.Contents() == old(buf.Contents()) + EncodeTag(tag) && bytes == |EncodeTag(tag)| <= 5
  {
    var data := new Byte[5](_ => 0);
    bytes := FillTag(data, tag);
    var res, told := buf.Add(data[..bytes]);
  }

  lemma {:induction false} ShortTag(t: nat, k: nat)
    requires k >= 1 && (t < Pow128(k) || (k == 5 && t < U32))
    ensures |EncodeTag(t)| <= k
    decreases k
  {
    if k == 5 { assert Pow128(2) == 16384 && Pow128(5) == 128 * 128 * 128 * Pow128(2); }
    if t >= 128 {
      assert k > 1 by { assert Pow128(1) == 128; }
      ShortTag(t / 128, k - 1);
    }
  }

  /** What a decoder says and leaves */
  predicate Outcome(s: seq<Byte>, d: Option<(nat, nat)>, drain: bool, res: int, number: nat, s': seq<Byte>) {
    match d
    case None => res == -1 && s' == s
    case Some(v) => v.1 <= |s| && res == v.1 && number == v.0 && s' == if drain then s[v.1..] else s
  }

  /** The loop of decode_int_internal */
  method SumNibbles(buf: Buffer, last: nat, ghost w: seq<Byte>) returns (number: nat)
    requires buf.Valid() && last / 2 < |w| <= buf.off && w == buf.Contents()[..|w|]
    ensures number == FromNibble(w, 1, last)
  {
    hide FromNibble;
    number := 0;
    var nibbles := last;
    FromBeyond(w, last);
    while nibbles > 0
      invariant 0 <= nibbles <= last && number == FromNibble(w, nibbles + 1, last)
    {
      FromStep(w, nibbles, last);
      var b := buf.data[buf.misalign + nibbles / 2];
      assert b == w[nibbles / 2];
      number := number * 16 + if nibbles % 2 == 1 then b % 16 else b / 16;
      nibbles := nibbles - 1;
    }
  }

  /** decode_int_internal; the result is -1 or the number of bytes. */
  method ReadInt(buf: Buffer, drain: bool) returns (res: int, number: nat)
    requires buf.Valid()
    modifies buf`misalign, buf`off
    ensures buf.Valid() && buf.off <= old(buf.off)
    ensures Outcome(old(buf.Contents()), DecodeInt(old(buf.Contents())), drain, res, number, buf.Contents())
  {
    hide FromNibble, Int32;
    ghost var s, w := buf.Contents(), Seen(buf.Contents());
    var len := Int32(buf.off);
    number := 0;
    Int32Least(buf.off);
    if len == 0 { return -1, 0; }
    var nibbles := buf.data[buf.misalign] / 16 + 1;
    if nibbles > 8 || nibbles / 2 + 1 > len { return -1, 0; }
    len := nibbles / 2 + 1;
    number := SumNibbles(buf, nibbles, w);
    if drain { var told := buf.Drain(len); }
    return len, number;
  }

  lemma FromBeyond(s: seq<Byte>, last: nat)
    requires last / 2 < |s|
    ensures FromNibble(s, last + 1, last) == 0
  {}

  lemma FromStep(s: seq<Byte>, i: nat, last: nat)
    requires last / 2 < |s| && i <= last
    ensures FromNibble(s, i, last) == Nib(s, i) + 16 * FromNibble(s, i + 1, last)
  {}

  /** (lower & 0x7f) << 7 * count in 32 bits */
  function Shifted(lower: Byte, count: nat): (n: nat) {
    lower % 128 * Pow128(count) % U32
  }

  /** decode_tag_internal; the result is -1 or the number of bytes. */
  method ReadTag(buf: Buffer, drain: bool) returns (res: int, tag: nat)
    requires buf.Valid()
    modifies buf`misalign, buf`off
    ensures buf.Valid() && buf.off <= old(buf.off)
    ensures Outcome(old(buf.Contents()), DecodeTag(old(buf.Contents())), drain, res, tag, buf.Contents())
  {
    hide Sevens, TagLength, Pow128, Int32;
    ghost var s, w := buf.Contents(), Seen(buf.Contents());
    var len := Int32(buf.off);
    var count, done := 0, false;
    tag := 0;
    SevensNone(w);
    assert w[0..] == w;
    while count < len && !done
      invariant buf.misalign == old(buf.misalign) && buf.off == old(buf.off) && buf.Valid()
      invariant 0 <= count <= |w| && buf.Contents() == s
      invariant tag == Sevens(w, count) % U32
      invariant if done then TagLength(w) == Some(count) else TagLength(w) == Later(TagLength(w[count..]), count)
      decreases |w| - count, !done
    {
      var lower := buf.data[buf.misalign + count];
      assert lower == s[count] == w[count];
      SevensMore(w, count);
      TagLengthStep(w[count..]);
      assert w[count..][1..] == w[count + 1..];
      AddMod(Sevens(w, count), lower % 128 * Pow128(count));
      tag := (tag + Shifted(lower, count)) % U32;
      count := count + 1;
      if lower < 128 { done := true; }
    }
    if !done {
      TagLengthStep(w[count..]);
      return -1, 0;
    }
    if drain { var told := buf.Drain(count); }
    return count, tag;
  }

  function Later(c: Option<nat>, k: nat): (r: Option<nat>) {
    if c.None? then None else Some(c.value + k)
  }

  lemma TagLengthStep(s: seq<Byte>)
    ensures TagLength(s) == if s == [] then None else if s[0] < 128 then Some(1) else Later(TagLength(s[1..]), 1)
  {}

  lemma SevensNone(s: seq<Byte>)
    ensures Sevens(s, 0) == 0
  {}

  lemma {:induction false} SevensMore(s: seq<Byte>, c: nat)
    requires c < |s|
    ensures Sevens(s, c + 1) == Sevens(s, c) + s[c] % 128 * Pow128(c)
  {
    if c > 0 {
      SevensMore(s[1..], c - 1);
      assert s[1..][c - 1] == s[c];
      Regroup(Sevens(s[1..], c - 1), s[c] % 128, Pow128(c - 1));
    }
  }

  lemma Regroup(a: nat, x: nat, p: nat)
    ensures 128 * (a + x * p) == 128 * a + x * (128 * p)
  {}

  lemma AddMod(a: nat, b: nat)
    ensures (a % U32 + b % U32) % U32 == (a + b) % U32
  {}

  /** evtag_marshal */
  method WriteRecord(buf: Buffer, tag: nat, payload: seq<Byte>)
    requires buf.Valid() && tag < U32 && |payload| < U32 && buf.off + |payload| <= SIZE_MAX - 10
    modifies buf, buf.data
    ensures buf.Valid() && (buf.data == old(buf.data) || fresh(buf.data))
    ensures buf.Contents() == old(buf.Contents()) + Marshal(tag, payload)
  {
    hide EncodeTag, EncodeInt;
    ghost var s := buf.Contents();
    WriteHead(buf, tag, |payload|);
    var res, told := buf.Add(payload);
    Associate(s, EncodeTag(tag), EncodeInt(|payload|), payload);
  }

  lemma Associate(a: seq<Byte>, b: seq<Byte>, c: seq<Byte>, d: seq<Byte>)
    ensures a + b + c + d == a + (b + c + d)
  {}

  /** evtag_marshal_int, which builds the payload in the scratch buffer and moves it over */
  method WriteIntRecord(buf: Buffer, scratch: Buffer, tag: nat, number: nat)
    requires buf.Valid() && scratch.Valid() && buf != scratch && buf.data != scratch.data
    requires tag < U32 && number < U32 && buf.off <= SIZE_MAX - 15
    modifies buf, buf.data, scratch, scratch.data
    ensures buf.Valid() && scratch.Valid() && buf.data != scratch.data
    ensures buf.Contents() == old(buf.Contents()) + MarshalInt(tag, number) && scratch.Contents() == []
  {
    hide EncodeTag, EncodeInt, MarshalInt;
    OnlyInt(scratch, number);
    MoveInt(buf, scratch, tag, number);
  }

  method MoveInt(buf: Buffer, scratch: Buffer, tag: nat, ghost number: nat)
    requires buf.Valid() && scratch.Valid() && buf != scratch && buf.data != scratch.data
    requires tag < U32 && number < U32 && buf.off <= SIZE_MAX - 15
    requires scratch.Contents() == EncodeInt(number) && scratch.off <= 5
    modifies buf, buf.data, scratch
    ensures buf.Valid() && scratch.Valid() && buf.data != scratch.data
    ensures buf.Contents() == old(buf.Contents()) + MarshalInt(tag, number) && scratch.Contents() == []
  {
    hide EncodeTag, EncodeInt, MarshalInt;
    ghost var s := buf.Contents();
    WriteHead(buf, tag, scratch.off);
    assert scratch.Contents() == EncodeInt(number);
    var res, _, _ := buf.AddBuffer(scratch);
    IntRecord(s, tag, number);
  }

  method OnlyInt(scratch: Buffer, number: nat)
    requires scratch.Valid() && number < U32
    modifies scratch, scratch.data
    ensures scratch.Valid() && (scratch.data == old(scratch.data) || fresh(scratch.data))
    ensures scratch.Contents() == EncodeInt(number) && scratch.off <= 5
  {
    hide EncodeInt;
    var told := scratch.Drain(scratch.off);
    WriteInt(scratch, number);
    assert scratch.Contents() == EncodeInt(number);
  }

  lemma IntRecord(s: seq<Byte>, tag: nat, number: nat)
    requires tag < U32 && number < U32
    ensures s + EncodeTag(tag) + EncodeInt(|EncodeInt(number)|) + EncodeInt(number) == s + MarshalInt(tag, number)
  {
    hide EncodeTag, EncodeInt;
    Associate(s, EncodeTag(tag), EncodeInt(|EncodeInt(number)|), EncodeInt(number));
  }

  method WriteHead(buf: Buffer, tag: nat, length: nat)
    requires buf.Valid() && tag < U32 && length < U32 && buf.off <= SIZE_MAX - 10
    modifies buf, buf.data
    ensures buf.Valid() && (buf.data == old(buf.data) || fresh(buf.data)) && buf.off <= old(buf.off) + 10
    ensures buf.Contents() == old(buf.Contents()) + EncodeTag(tag) + EncodeInt(length)
  {
    hide EncodeTag, EncodeInt;
    var bytes := WriteTag(buf, tag);
    assert |buf.Contents()| == old(|buf.Contents()|) + bytes;
    ghost var n := |buf.Contents()|;
    WriteInt(buf, length);
    assert |buf.Contents()| == n + |EncodeInt(length)|;
  }

  predicate HeadOutcome(s: seq<Byte>, res: int, tag: nat, length: nat, s': seq<Byte>) {
    match DecodeHead(s)
    case NoHead(rest) => res == -1 && s' == rest
    case Head(t, n, rest) => res == 0 && tag == t && length == n && s' == rest
  }

  lemma NoTag(s: seq<Byte>, tag: nat, s1: seq<Byte>)
    requires Outcome(s, DecodeTag(s), true, -1, tag, s1)
    ensures HeadOutcome(s, -1, tag, 0, s1)
  {
    hide DecodeInt;
  }

  lemma TagThenInt(s: seq<Byte>, res: int, tag: nat, s1: seq<Byte>, r: int, length: nat, s2: seq<Byte>)
    requires res != -1 && Outcome(s, DecodeTag(s), true, res, tag, s1)
    requires Outcome(s1, DecodeInt(s1), true, r, length, s2)
    ensures HeadOutcome(s, if r == -1 then -1 else 0, tag, length, s2)
  {
    hide TagLength, Sevens, FromNibble;
  }

  method ReadHead(src: Buffer) returns (res: int, tag: nat, length: nat)
    requires src.Valid()
    modifies src`misalign, src`off
    ensures src.Valid() && src.off <= old(src.off)
    ensures HeadOutcome(old(src.Contents()), res, tag, length, src.Contents())
  {
    hide DecodeTag, DecodeInt, HeadOutcome, Outcome;
    ghost var s := src.Contents();
    res, tag := ReadTag(src, true);
    ghost var s1 := src.Contents();
    if res == -1 {
      NoTag(s, tag, s1);
      return -1, tag, 0;
    }
    var r;
    r, length := ReadInt(src, true);
    TagThenInt(s, res, tag, s1, r, length, src.Contents());
    res := if r == -1 then -1 else 0;
  }

  lemma UnmarshalOf(s: seq<Byte>)
    ensures match DecodeHead(s)
            case NoHead(rest) => Unmarshal(s) == Bad(rest)
            case Head(tag, n, rest) =>
              Unmarshal(s) == if |rest| < n then Bad(rest) else Good(tag, rest[..n], rest[n..])
  {}

  /** evtag_unmarshal */
  method ReadRecord(src: Buffer, dst: Buffer) returns (res: int, tag: nat)
    requires src.Valid() && dst.Valid() && src != dst && src.data != dst.data
    requires dst.off <= SIZE_MAX - src.off
    modifies src`misalign, src`off, dst, dst.data
    ensures src.Valid() && dst.Valid()
    ensures match old(Unmarshal(src.Contents()))
            case Bad(rest) => res == -1 && src.Contents() == rest && dst.Contents() == old(dst.Contents())
            case Good(t, payload, rest) =>
              && res == Int32(|payload|) && tag == t && src.Contents() == rest
              && dst.Contents() == old(dst.Contents()) + payload
  {
    hide DecodeHead, Unmarshal;
    var len;
    UnmarshalOf(src.Contents());
    res, tag, len := ReadHead(src);
    if res == -1 { return; }
    ghost var rest := src.Contents();
    if src.off < len { return -1, tag; }
    src.SliceOf(0, len);
    var payload := src.data[src.misalign..src.misalign + len];
    assert payload == rest[..len];
    var a, told := dst.Add(payload);
    assert src.Contents() == rest;
    var d := src.Drain(len);
    return Int32(len), tag;
  }

  /** evtag_consume */
  method ConsumeRecord(buf: Buffer) returns (res: int)
    requires buf.Valid()
    modifies buf`misalign, buf`off
    ensures buf.Valid() && (res == 0 || res == -1)
    ensures (res == 0, buf.Contents()) == old(Consume(buf.Contents()))
  {
    hide DecodeHead;
    var r, tag, len := ReadHead(buf);
    if r == -1 { return -1; }
    var told := buf.Drain(len);
    return 0;
  }
}
