/** The buffers of the name codec: the label table, the writer that fills a message buffer in place,
    and the parser that fills the caller's name buffer. Each is proved against the functions of
    DnsNames and DnsCompression. */
module DnsCodec {

  import opened Basics
  import opened DnsNames
  import opened DnsCompression

  /** struct dnslabel_table: a fixed array of which the first nLabels entries are in use. */
  class LabelTable {
    const labels: array<Entry>
    var nLabels: nat

    ghost predicate Valid()
      reads this
    {
      labels.Length == MAX_LABELS && nLabels <= MAX_LABELS
    }

    ghost function Entries(): (es: seq<Entry>)
      reads this, labels
      requires Valid()
    {
      labels[..nLabels]
    }

    constructor ()
      ensures Valid() && fresh(labels) && Entries() == []
    {
      labels := new Entry[MAX_LABELS];
      nLabels := 0;
    }

    /** dnslabel_table_get_pos */
    method GetPos(name: Text) returns (pos: int)
      requires Valid()
      ensures pos == Lookup(Entries(), name)
    {
      var i := 0;
      while i < nLabels
        invariant i <= nLabels
        invariant Lookup(Entries(), name) == Lookup(Entries()[i..], name)
      {
        if labels[i].name == name {
          return labels[i].pos;
        }
        assert Entries()[i..][1..] == Entries()[i + 1..];
        i := i + 1;
      }
      return -1;
    }

    /** dnslabel_table_add, with strdup succeeding */
    method Add(name: Text, pos: nat) returns (res: int)
      requires Valid()
      modifies this, labels
      ensures Valid()
      ensures Table(Entries()) == Remember(Table(old(Entries())), name, pos)
      ensures res == if old(nLabels) == MAX_LABELS then -1 else 0
    {
      if nLabels == MAX_LABELS {
        return -1;
      }
      labels[nLabels] := Entry(name, pos);
      nLabels := nLabels + 1;
      return 0;
    }
  }

  ghost function TableOf(table: LabelTable?): (t: Table)
    reads table, if table == null then {} else {table.labels}
    requires table != null ==> table.Valid()
  {
    if table == null then NoTable else Table(table.Entries())
  }

  /** memcpy into a buffer */
  method CopyIn(buf: array<Byte>, at: nat, src: seq<Byte>)
    requires at + |src| <= buf.Length
    modifies buf
    ensures buf[..] == old(buf[..at]) + src + old(buf[at + |src|..])
  {
    var i := 0;
    while i < |src|
      invariant i <= |src|
      invariant buf[..at] == old(buf[..at])
      invariant buf[at..at + i] == src[..i]
      invariant buf[at + i..] == old(buf[at + i..])
    {
      buf[at + i] := src[i];
      assert buf[at..at + i + 1] == buf[at..at + i] + [src[i]];
      assert buf[at + i + 1..] == old(buf[at + i..])[1..];
      i := i + 1;
    }
    assert buf[..] == buf[..at] + buf[at..at + i] + buf[at + i..];
  }

  /** The buffer holds its original contents with `written` laid over them from `start` on. */
  ghost predicate Overlaid(original: seq<Byte>, start: nat, written: seq<Byte>, now: seq<Byte>) {
    if start + |written| > |original| then written == [] && now == original
    else now == original[..start] + written + original[start + |written|..]
  }

  ghost predicate SameBelow(original: seq<Byte>, start: nat, now: seq<Byte>) {
    |original| == |now| && forall i :: 0 <= i < start && i < |now| ==> now[i] == original[i]
  }

  lemma WroteBelow(original: seq<Byte>, start: nat, written: seq<Byte>, now: seq<Byte>)
    requires Overlaid(original, start, written, now)
    ensures SameBelow(original, start, now)
  {
  }

  method Put(buf: array<Byte>, at: nat, src: seq<Byte>,
             ghost original: seq<Byte>, ghost start: nat, ghost written: seq<Byte>)
    requires at + |src| <= buf.Length == |original| && at == start + |written|
    requires Overlaid(original, start, written, buf[..])
    modifies buf
    ensures Overlaid(original, start, written + src, buf[..])
  {
    ghost var before := buf[..];
    CopyIn(buf, at, src);
    assert before[..at] == original[..start] + written;
    assert before[at + |src|..] == original[at + |src|..];
  }

  /** How the result for a whole name follows from what is written so far and the result for the rest. */
  ghost predicate Continues(whole: Encoded, written: seq<Byte>, rest: Encoded) {
    if rest.Encoded? then whole == Encoded(written + rest.bytes, rest.table) else whole == rest
  }

  lemma ContinuesLabel(whole: Encoded, written: seq<Byte>, j: nat, bufLen: nat, rest: Text, table: Table, k: nat)
    requires Continues(whole, written, EncodeFrom(j, bufLen, rest, table))
    requires !Known(table, rest) && k == FirstDot(rest) <= MAX_LABEL && j + k + 1 <= bufLen
    ensures k < |rest| ==>
      Continues(whole, written + ([k] + rest[..k]),
                EncodeFrom(j + k + 1, bufLen, rest[k + 1..], Remember(table, rest, j)))
    ensures k == |rest| ==>
      whole == Encoded(written + ([k] + rest[..k]) + (if k == 0 then [] else [0]), Remember(table, rest, j))
  {
    var head: seq<Byte> := [k] + rest[..k];
    if k == |rest| {
      assert rest[..k] == rest;
      Assoc(written, head, if k == 0 then [] else [0]);
    } else {
      var r := EncodeFrom(j + k + 1, bufLen, rest[k + 1..], Remember(table, rest, j));
      if r.Encoded? { Assoc(written, head, r.bytes); }
    }
  }

  /** What the caller of the writer finds: the index behind the name and the new buffer and table, or
      an error code and, below the start, an unchanged buffer. */
  ghost predicate Outcome(e: Encoded, start: nat, bufLen: nat, original: seq<Byte>,
                          r: int, now: seq<Byte>, after: Table) {
    match e
    case Encoded(bytes, t) => r == start + |bytes| <= bufLen + 1 && Overlaid(original, start, bytes, now) && after == t
    case LabelTooLong => r == -1 && SameBelow(original, start, now)
    case NoRoom => r == -2 && SameBelow(original, start, now)
  }

  /** dnsname_to_labels. The closing zero is stored without comparing its index with bufLen, so the buffer must have one
      more byte than bufLen for the names that overrun it, and for no others. */
  method DnsNameToLabels(buf: array<Byte>, bufLen: nat, start: nat, name: Text, table: LabelTable?) returns (r: int)
    requires table != null ==> table.Valid()
    requires bufLen <= buf.Length && (Overruns(start, bufLen, name, TableOf(table)) ==> bufLen < buf.Length)
    modifies buf, table, if table == null then {} else {table.labels}
    ensures table != null ==> table.Valid()
    ensures var e := Encode(start, bufLen, name, old(TableOf(table)));
            Outcome(e, start, bufLen, old(buf[..]), r, buf[..], TableOf(table))
  {
    if |name| > MAX_NAME {
      return -2;
    }
    OverrunIff(start, bufLen, name, TableOf(table));
    r := WriteLabels(buf, bufLen, start, name, table);
  }

  /** The loop invariant of the writer: `rest` is still to be written at j, and finishing it gives `whole`. */
  ghost predicate Progress(whole: Encoded, start: nat, bufLen: nat, original: seq<Byte>,
                           j: nat, written: seq<Byte>, rest: Text, now: seq<Byte>, table: Table) {
    && bufLen <= |original| == |now| && Fits(whole, start, |original|)
    && j == start + |written| && (written == [] || j <= bufLen)
    && Continues(whole, written, EncodeFrom(j, bufLen, rest, table))
    && Overlaid(original, start, written, now)
  }

  ghost predicate Fits(whole: Encoded, start: nat, length: nat) {
    whole.Encoded? ==> start + |whole.bytes| <= length
  }

  method WriteLabels(buf: array<Byte>, bufLen: nat, start: nat, name: Text, table: LabelTable?) returns (r: int)
    requires table != null ==> table.Valid()
    requires bufLen <= buf.Length && Fits(EncodeFrom(start, bufLen, name, TableOf(table)), start, buf.Length)
    modifies buf, table, if table == null then {} else {table.labels}
    ensures table != null ==> table.Valid()
    ensures var e := EncodeFrom(start, bufLen, name, old(TableOf(table)));
            Outcome(e, start, bufLen, old(buf[..]), r, buf[..], TableOf(table))
  {
    var j := start;
    var rest := name;
    ghost var original := buf[..];
    ghost var whole := EncodeFrom(start, bufLen, name, TableOf(table));
    ghost var written: seq<Byte> := [];
    r := 0;
    var done := false;
    while !done
      invariant table != null ==> table.Valid()
      invariant if done then Outcome(whole, start, bufLen, original, r, buf[..], TableOf(table))
                else Progress(whole, start, bufLen, original, j, written, rest, buf[..], TableOf(table))
      decreases !done, |rest|
    {
      done, r, j, rest, written := Step(buf, bufLen, j, rest, table, original, start, written, whole);
    }
  }

  /** One turn of the writer's loop: a pointer or the last label ends it, and so does an error. */
  method Step(buf: array<Byte>, bufLen: nat, j: nat, rest: Text, table: LabelTable?,
              ghost original: seq<Byte>, ghost start: nat, ghost written: seq<Byte>, ghost whole: Encoded)
    returns (done: bool, r: int, j': nat, rest': Text, ghost written': seq<Byte>)
    requires table != null ==> table.Valid()
    requires |original| == buf.Length
    requires Progress(whole, start, bufLen, original, j, written, rest, buf[..], TableOf(table))
    modifies buf, table, if table == null then {} else {table.labels}
    ensures table != null ==> table.Valid()
    ensures if done then Outcome(whole, start, bufLen, original, r, buf[..], TableOf(table))
            else
              && |rest'| < |rest|
              && Progress(whole, start, bufLen, original, j', written', rest', buf[..], TableOf(table))
  {
    done, r, j', rest', written' := true, 0, j, rest, written;
    var ref := -1;
    if table != null {
      ref := table.GetPos(rest);
    }
    if ref >= 0 {
      r := StorePointer(buf, bufLen, j, ref, rest, original, start, written, whole, TableOf(table));
      return;
    }
    var k := FirstDot(rest);
    if k > MAX_LABEL || j + k + 1 > bufLen {
      Rejected(whole, start, bufLen, original, j, written, rest, buf[..], TableOf(table));
      r := if k > MAX_LABEL then -1 else -2;
      return;
    }
    written' := StoreLabel(buf, bufLen, j, rest, table, k, original, start, written, whole);
    j' := j + 1 + k;
    if k == |rest| {
      r := CloseName(buf, j', original, start, written');
      return;
    }
    done, rest' := false, rest[k + 1..];
  }

  method StorePointer(buf: array<Byte>, bufLen: nat, j: nat, ref: nat, rest: Text, ghost original: seq<Byte>,
                      ghost start: nat, ghost written: seq<Byte>, ghost whole: Encoded, ghost table: Table)
    returns (r: int)
    requires |original| == buf.Length
    requires Progress(whole, start, bufLen, original, j, written, rest, buf[..], table)
    requires Known(table, rest) && ref == Lookup(table.entries, rest)
    modifies buf
    ensures Outcome(whole, start, bufLen, original, r, buf[..], table)
  {
    if j + 2 > bufLen {
      WroteBelow(original, start, written, buf[..]);
      return -2;
    }
    Put(buf, j, PointerBytes(ref), original, start, written);
    return j + 2;
  }

  lemma Rejected(whole: Encoded, start: nat, bufLen: nat, original: seq<Byte>, j: nat, written: seq<Byte>,
                 rest: Text, now: seq<Byte>, table: Table)
    requires Progress(whole, start, bufLen, original, j, written, rest, now, table)
    requires !Known(table, rest) && (FirstDot(rest) > MAX_LABEL || j + FirstDot(rest) + 1 > bufLen)
    ensures Outcome(whole, start, bufLen, original, if FirstDot(rest) > MAX_LABEL then -1 else -2, now, table)
  {
    WroteBelow(original, start, written, now);
  }

  /** One label with its length byte, remembered in the table at the index of that byte. */
  method StoreLabel(buf: array<Byte>, bufLen: nat, j: nat, rest: Text, table: LabelTable?, k: Byte,
                    ghost original: seq<Byte>, ghost start: nat, ghost written: seq<Byte>, ghost whole: Encoded)
    returns (ghost now: seq<Byte>)
    requires table != null ==> table.Valid()
    requires bufLen <= buf.Length == |original| && j == start + |written|
    requires k == FirstDot(rest) <= MAX_LABEL && j + k + 1 <= bufLen && !Known(TableOf(table), rest)
    requires Overlaid(original, start, written, buf[..])
    requires Continues(whole, written, EncodeFrom(j, bufLen, rest, TableOf(table)))
    modifies buf, table, if table == null then {} else {table.labels}
    ensures table != null ==> table.Valid()
    ensures TableOf(table) == Remember(old(TableOf(table)), rest, j)
    ensures |now| == |written| + k + 1 && Overlaid(original, start, now, buf[..])
    ensures k < |rest| ==> Continues(whole, now, EncodeFrom(j + k + 1, bufLen, rest[k + 1..], TableOf(table)))
    ensures k == |rest| ==> whole == Encoded(Closed(now), TableOf(table))
  {
    ContinuesLabel(whole, written, j, bufLen, rest, TableOf(table), k);
    if table != null {
      var _ := table.Add(rest, j);
    }
    var head: seq<Byte> := [k] + rest[..k];
    Put(buf, j, head, original, start, written);
    now := written + head;
    if k == |rest| {
      LastByte(written, k, rest);
    }
  }

  /** The terminator, left out when the last byte written is already zero. */
  method CloseName(buf: array<Byte>, j: nat, ghost original: seq<Byte>, ghost start: nat, ghost written: seq<Byte>)
    returns (r: nat)
    requires written != [] && j == start + |written| && start + |Closed(written)| <= buf.Length == |original|
    requires Overlaid(original, start, written, buf[..])
    modifies buf
    ensures r == start + |Closed(written)|
    ensures Overlaid(original, start, Closed(written), buf[..])
  {
    assert buf[..][j - 1] == written[|written| - 1];
    r := j;
    if j == 0 || buf[j - 1] != 0 {
      Put(buf, j, [0], original, start, written);
      r := j + 1;
    }
  }

  ghost function Closed(written: seq<Byte>): (s: seq<Byte>)
    requires written != []
  {
    if written[|written| - 1] == 0 then written else written + [0]
  }

  lemma LastByte(before: seq<Byte>, k: Byte, rest: Text)
    requires k == |rest|
    ensures Closed(before + ([k] + rest[..k])) == before + ([k] + rest[..k]) + (if k == 0 then [] else [0])
  {
    var all := before + ([k] + rest[..k]);
    assert all[|all| - 1] == ([k] + rest[..k])[k];
    if k == 0 { assert all + [] == all; }
  }

  /** name_parse: the text goes into nameOut, behind which a zero is stored. A label that runs past the
      packet is not copied, for the index it leaves behind is rejected on the next turn whatever
      follows the packet. */
  method NameParse(m: seq<Byte>, idx: nat, nameOut: array<Byte>) returns (ok: bool, next: nat)
    modifies nameOut
    ensures match Parse(m, idx, nameOut.Length)
            case Malformed => !ok && next == idx
            case Parsed(text, after) =>
              ok && next == after && |text| < nameOut.Length && nameOut[..|text|] == text && nameOut[|text|] == 0
  {
    hide ParseFrom, Target;
    ghost var whole := Parse(m, idx, nameOut.Length);
    var nameEnd := -1;
    var j: nat, jumps: nat, cp: nat := idx, 0, 0;
    while j < |m| && m[j] != 0
      invariant jumps <= |m| && -1 <= nameEnd && cp <= nameOut.Length
      invariant ParseFrom(m, j, nameOut[..cp], nameOut.Length, jumps, nameEnd) == whole
      decreases |m| - jumps, |m| - j
    {
      ParseStuck(m, j, nameOut[..cp], nameOut.Length, jumps, nameEnd);
      if m[j] > MAX_LABEL {
        if j + 1 >= |m| {
          return false, idx;
        }
        var target := Target(m[j], m[j + 1]);
        if target >= |m| || jumps + 1 > |m| {
          return false, idx;
        }
        ParseJump(m, j, nameOut[..cp], nameOut.Length, jumps, nameEnd);
        nameEnd := if nameEnd < 0 then j + 2 else nameEnd;
        j, jumps := target, jumps + 1;
      } else {
        ghost var out := nameOut[..cp];
        var fits, cp' := AppendLabel(m, j, nameOut, cp);
        if !fits {
          return false, idx;
        }
        ParseLabel(m, j, out, nameOut.Length, jumps, nameEnd);
        j, cp := j + 1 + m[j], cp';
      }
    }
    ParseStuck(m, j, nameOut[..cp], nameOut.Length, jumps, nameEnd);
    if j < |m| { ParseZero(m, j, nameOut[..cp], nameOut.Length, jumps, nameEnd); }
    if j >= |m| || cp >= nameOut.Length {
      return false, idx;
    }
    nameOut[cp] := 0;
    return true, if nameEnd < 0 then j + 1 else nameEnd;
  }

  /** The separating dot and the bytes of the label at j. */
  method AppendLabel(m: seq<Byte>, j: nat, nameOut: array<Byte>, cp: nat) returns (fits: bool, cp': nat)
    requires j < |m| && 0 < m[j] <= MAX_LABEL && cp <= nameOut.Length
    modifies nameOut
    ensures fits <==> cp + (if cp == 0 then 0 else 1) + m[j] < nameOut.Length && j + 1 + m[j] <= |m|
    ensures fits ==> cp' <= nameOut.Length && nameOut[..cp'] == Push(old(nameOut[..cp]), m[j + 1..j + 1 + m[j]])
  {
    cp' := cp;
    if cp != 0 {
      if cp + 1 >= nameOut.Length {
        return false, cp;
      }
      nameOut[cp] := DOT;
      cp' := cp + 1;
    }
    if cp' + m[j] >= nameOut.Length || j + 1 + m[j] > |m| {
      return false, cp;
    }
    assert nameOut[..cp'] == old(nameOut[..cp]) + if cp == 0 then [] else [DOT];
    CopyIn(nameOut, cp', m[j + 1..j + 1 + m[j]]);
    return true, cp' + m[j];
  }
}
