/** dnsname_to_labels of evdns.c as a function of the position it writes at, and the proof that
    every name written into a message with a shared label table reads back. */
module DnsCompression {

  import opened Basics
  import opened DnsNames

  datatype Entry = Entry(name: Text, pos: nat)
  datatype Table = NoTable | Table(entries: seq<Entry>)

  datatype Encoded = Encoded(bytes: seq<Byte>, table: Table) | LabelTooLong | NoRoom

  /** dnslabel_table_get_pos: the first entry for the name, or -1. */
  function Lookup(entries: seq<Entry>, name: Text): (pos: int)
    ensures pos >= -1
  {
    if entries == [] then -1
    else if entries[0].name == name then entries[0].pos
    else Lookup(entries[1..], name)
  }

  lemma {:induction false} LookupFinds(entries: seq<Entry>, name: Text)
    ensures Lookup(entries, name) >= 0 ==> Entry(name, Lookup(entries, name)) in entries
    ensures Lookup(entries, name) < 0 ==> forall e :: e in entries ==> e.name != name
  {
    if entries != [] { LookupFinds(entries[1..], name); }
  }

  lemma {:induction false} LookupMore(entries: seq<Entry>, e: Entry, name: Text)
    requires e.name != name
    ensures Lookup(entries + [e], name) == Lookup(entries, name)
  {
    if entries != [] {
      assert (entries + [e])[1..] == entries[1..] + [e];
      LookupMore(entries[1..], e, name);
    }
  }

  predicate Known(table: Table, name: Text) {
    table.Table? && Lookup(table.entries, name) >= 0
  }

  /** dnslabel_table_add: a full table forgets the name. */
  function Remember(table: Table, name: Text, pos: nat): (t: Table)
    ensures t.Table? <==> table.Table?
  {
    if table.NoTable? || |table.entries| == MAX_LABELS then table
    else Table(table.entries + [Entry(name, pos)])
  }

  /** The two bytes of `ref | 0xc000` cut to 16 bits. */
  function PointerBytes(ref: nat): (bs: seq<Byte>)
    ensures |bs| == 2 && bs[0] > MAX_LABEL && Target(bs[0], bs[1]) == ref % POINTER_LIMIT
  {
    var low := ref % POINTER_LIMIT;
    [192 + low / 256, low % 256]
  }

  /** The bytes written at index pos for what is left of a name. The last label is closed by a zero
      unless it is empty, and that zero is not counted against the room. */
  function EncodeFrom(pos: nat, room: nat, name: Text, table: Table): (r: Encoded)
    decreases |name|
  {
    if Known(table, name) then
      if pos + 2 > room then NoRoom
      else Encoded(PointerBytes(Lookup(table.entries, name)), table)
    else
      var k := FirstDot(name);
      if k > MAX_LABEL then LabelTooLong
      else if pos + k + 1 > room then NoRoom
      else if k == |name| then
        Encoded([k] + name + (if k == 0 then [] else [0]), Remember(table, name, pos))
      else
        var rest := EncodeFrom(pos + k + 1, room, name[k + 1..], Remember(table, name, pos));
        if rest.Encoded? then Encoded([k] + name[..k] + rest.bytes, rest.table) else rest
  }

  /** dnsname_to_labels for a name of length |name|. */
  function Encode(pos: nat, room: nat, name: Text, table: Table): (r: Encoded) {
    if |name| > MAX_NAME then NoRoom else EncodeFrom(pos, room, name, table)
  }

  // ---------- The reading of a message that is still growing ----------

  /** Labels from index j on, where every pointer goes back before `seg`, the start of the run of
      labels it belongs to. Unlike Walk this needs no fuel, and appending cannot change it. */
  function Resolve(m: seq<Byte>, seg: nat, j: nat): (w: Walked)
    decreases seg, |m| - j
  {
    if j >= |m| then Stuck
    else if m[j] == 0 then Done([], j + 1)
    else if m[j] > MAX_LABEL then
      if j + 1 >= |m| then Stuck
      else
        var t := Target(m[j], m[j + 1]);
        if t >= seg then Stuck
        else
          var w := Resolve(m, t, t);
          if w.Done? then Done(w.labels, j + 2) else Stuck
    else if j + 1 + m[j] > |m| then Stuck
    else
      var w := Resolve(m, seg, j + 1 + m[j]);
      if w.Done? then Done([m[j + 1..j + 1 + m[j]]] + w.labels, w.end) else Stuck
  }

  lemma {:induction false} ResolveExtends(m: seq<Byte>, more: seq<Byte>, seg: nat, seg': nat, j: nat)
    requires Resolve(m, seg, j).Done? && seg <= seg'
    ensures Resolve(m + more, seg', j) == Resolve(m, seg, j)
    decreases seg, |m| - j
  {
    var m' := m + more;
    assert m'[j] == m[j];
    if m[j] == 0 {
    } else if m[j] > MAX_LABEL {
      var t := Target(m[j], m[j + 1]);
      assert m'[j + 1] == m[j + 1];
      ResolveExtends(m, more, t, t, t);
    } else {
      ResolveExtends(m, more, seg, seg', j + 1 + m[j]);
      assert m'[j + 1..j + 1 + m[j]] == m[j + 1..j + 1 + m[j]];
    }
  }

  lemma {:induction false} ResolveIsWalk(m: seq<Byte>, seg: nat, j: nat) returns (fuel: nat)
    requires Resolve(m, seg, j).Done?
    ensures Walk(m, j, fuel) == Resolve(m, seg, j)
    decreases seg, |m| - j
  {
    if m[j] == 0 {
      fuel := 0;
    } else if m[j] > MAX_LABEL {
      var t := Target(m[j], m[j + 1]);
      var f := ResolveIsWalk(m, t, t);
      fuel := f + 1;
    } else {
      var f := ResolveIsWalk(m, seg, j + 1 + m[j]);
      fuel := f + 1;
    }
  }

  // ---------- The label table invariant ----------

  /** The entry's position reads as its name, through backward pointers only. */
  ghost predicate EntryOk(m: seq<Byte>, e: Entry) {
    && e.pos < POINTER_LIMIT
    && Resolve(m, e.pos, e.pos).Done?
    && Resolve(m, e.pos, e.pos).labels == Meaning(e.name)
  }

  ghost predicate TableOk(m: seq<Byte>, table: Table) {
    table.Table? ==> forall e :: e in table.entries ==> EntryOk(m, e)
  }

  /** Writing the name leaves the reader at the index the writer returns. It does not when an empty
      label with more text behind it is written out: its length byte reads as the terminator. */
  predicate ReachesEnd(name: Text, table: Table)
    decreases |name|
  {
    || Known(table, name)
    || FirstDot(name) == |name|
    || (FirstDot(name) > 0 && ReachesEnd(name[FirstDot(name) + 1..], table))
  }

  /** The entries the writer may point at while writing what is left of a name: those made before
      the name was begun at seg. Entries made since are for longer texts. */
  ghost predicate Usable(m: seq<Byte>, seg: nat, name: Text, table: Table) {
    table.Table? ==>
      forall e :: e in table.entries ==> |e.name| > |name| || (e.pos < seg && EntryOk(m, e))
  }

  /** The bytes bs stand in m from index j on. */
  ghost predicate Laid(m: seq<Byte>, j: nat, bs: seq<Byte>) {
    j + |bs| <= |m| && m[j..j + |bs|] == bs
  }

  lemma LaidSplit(m: seq<Byte>, j: nat, a: seq<Byte>, b: seq<Byte>)
    requires Laid(m, j, a + b)
    ensures Laid(m, j, a) && Laid(m, j + |a|, b)
  {
    assert m[j..j + |a|] == m[j..j + |a + b|][..|a|];
    assert m[j + |a|..j + |a + b|] == m[j..j + |a + b|][|a|..];
  }

  lemma LaidByte(m: seq<Byte>, j: nat, b: Byte)
    requires Laid(m, j, [b])
    ensures j < |m| && m[j] == b
  {
    assert m[j] == m[j..j + 1][0];
  }

  lemma KnownStable(table: Table, longer: Text, pos: nat, name: Text)
    requires |name| < |longer|
    ensures Known(Remember(table, longer, pos), name) <==> Known(table, name)
  {
    if table.Table? { LookupMore(table.entries, Entry(longer, pos), name); }
  }

  lemma {:induction false} ReachesEndStable(table: Table, longer: Text, pos: nat, name: Text)
    requires |name| < |longer|
    ensures ReachesEnd(name, Remember(table, longer, pos)) <==> ReachesEnd(name, table)
    decreases |name|
  {
    KnownStable(table, longer, pos, name);
    var k := FirstDot(name);
    if k < |name| { ReachesEndStable(table, longer, pos, name[k + 1..]); }
  }

  /** What reads at j as the meaning of a text, ending at `end` when the writer's end can be reached. */
  ghost predicate Reads(m: seq<Byte>, seg: nat, j: nat, name: Text, table: Table, end: nat) {
    var w := Resolve(m, seg, j);
    w.Done? && w.labels == Meaning(name) && (w.end == end <==> ReachesEnd(name, table))
  }

  lemma ReadsPointer(m: seq<Byte>, seg: nat, j: nat, name: Text, table: Table)
    requires seg <= j && Usable(m, seg, name, table) && Known(table, name)
    requires Laid(m, j, PointerBytes(Lookup(table.entries, name)))
    ensures Reads(m, seg, j, name, table, j + 2)
  {
    var ref := Lookup(table.entries, name);
    var bytes := PointerBytes(ref);
    LookupFinds(table.entries, name);
    assert EntryOk(m, Entry(name, ref)) && ref < seg;
    assert bytes == [bytes[0]] + [bytes[1]];
    LaidSplit(m, j, [bytes[0]], [bytes[1]]);
    LaidByte(m, j, bytes[0]);
    LaidByte(m, j + 1, bytes[1]);
  }

  lemma ReadsLast(m: seq<Byte>, seg: nat, j: nat, name: Text, table: Table)
    requires seg <= j && FirstDot(name) == |name| <= MAX_LABEL
    requires Laid(m, j, [|name|] + name + (if |name| == 0 then [] else [0]))
    ensures Reads(m, seg, j, name, table, j + 1 + |name| + if |name| == 0 then 0 else 1)
  {
    LaidSplit(m, j, [|name|] + name, if |name| == 0 then [] else [0]);
    LaidSplit(m, j, [|name|], name);
    LaidByte(m, j, |name|);
    if |name| > 0 {
      LaidByte(m, j + 1 + |name|, 0);
      assert Resolve(m, seg, j + 1 + |name|) == Done([], j + 2 + |name|);
      ResolveLabel(m, seg, j, |name|);
      assert [name] + [] == [name];
    }
  }

  lemma ResolveLabel(m: seq<Byte>, seg: nat, j: nat, k: Byte)
    requires k <= MAX_LABEL && j + 1 + k <= |m| && m[j] == k && Resolve(m, seg, j + 1 + k).Done?
    ensures Resolve(m, seg, j) ==
            if k == 0 then Done([], j + 1)
            else var w := Resolve(m, seg, j + 1 + k); Done([m[j + 1..j + 1 + k]] + w.labels, w.end)
  {
  }

  lemma MeaningLabel(name: Text, k: nat)
    requires k == FirstDot(name) < |name|
    ensures Meaning(name) == if k == 0 then [] else [name[..k]] + Meaning(name[k + 1..])
  {
    hide DotFrom, FirstDot;
    var rest := name[k + 1..];
    assert k > 0 ==> Meaning(name) == [name[..k]] + Meaning(rest);
  }

  lemma ReachesLabel(name: Text, table: Table, j: nat, k: nat)
    requires k == FirstDot(name) < |name| && !Known(table, name)
    ensures ReachesEnd(name, table) <==> k > 0 && ReachesEnd(name[k + 1..], Remember(table, name, j))
  {
    ReachesEndStable(table, name, j, name[k + 1..]);
  }

  lemma ReadsLabel(m: seq<Byte>, seg: nat, j: nat, k: nat, name: Text, table: Table, end: nat)
    requires k == FirstDot(name) < |name| && k <= MAX_LABEL && !Known(table, name)
    requires Laid(m, j, [k]) && Laid(m, j + 1, name[..k]) && j + 1 + k < end
    requires Reads(m, seg, j + 1 + k, name[k + 1..], Remember(table, name, j), end)
    ensures Reads(m, seg, j, name, table, end)
  {
    LaidByte(m, j, k);
    ResolveLabel(m, seg, j, k);
    MeaningLabel(name, k);
    ReachesLabel(name, table, j, k);
    assert Resolve(m, seg, j).labels == Meaning(name);
  }

  lemma {:induction false} EncodeNonEmpty(pos: nat, room: nat, name: Text, table: Table)
    requires EncodeFrom(pos, room, name, table).Encoded?
    ensures 0 < |EncodeFrom(pos, room, name, table).bytes|
  {
  }

  /** What is left of a name was written into m at j. */
  ghost predicate Wrote(m: seq<Byte>, j: nat, room: nat, name: Text, table: Table) {
    EncodeFrom(j, room, name, table).Encoded? && Laid(m, j, EncodeFrom(j, room, name, table).bytes)
  }

  ghost function WrittenEnd(j: nat, room: nat, name: Text, table: Table): (end: nat)
    requires EncodeFrom(j, room, name, table).Encoded?
  {
    j + |EncodeFrom(j, room, name, table).bytes|
  }

  ghost function WrittenTable(j: nat, room: nat, name: Text, table: Table): (t: Table)
    requires EncodeFrom(j, room, name, table).Encoded?
  {
    EncodeFrom(j, room, name, table).table
  }

  /** Writing one label and then the rest is writing the rest behind that label. */
  lemma EncodeUnfolds(m: seq<Byte>, j: nat, room: nat, name: Text, table: Table, k: Byte)
    requires !Known(table, name) && k == FirstDot(name) < |name| && Wrote(m, j, room, name, table)
    ensures k <= MAX_LABEL && Laid(m, j, [k]) && Laid(m, j + 1, name[..k])
    ensures Wrote(m, j + 1 + k, room, name[k + 1..], Remember(table, name, j))
    ensures WrittenEnd(j, room, name, table) == WrittenEnd(j + 1 + k, room, name[k + 1..], Remember(table, name, j))
    ensures WrittenTable(j, room, name, table) == WrittenTable(j + 1 + k, room, name[k + 1..], Remember(table, name, j))
    ensures j + 1 + k < WrittenEnd(j, room, name, table)
  {
    hide Laid, Remember, Known, FirstDot;
    var r1 := EncodeFrom(j + 1 + k, room, name[k + 1..], Remember(table, name, j));
    LaidSplit(m, j, [k] + name[..k], r1.bytes);
    LaidSplit(m, j, [k], name[..k]);
    EncodeNonEmpty(j + 1 + k, room, name[k + 1..], Remember(table, name, j));
  }

  lemma UsableStep(m: seq<Byte>, seg: nat, j: nat, name: Text, rest: Text, table: Table)
    requires Usable(m, seg, name, table) && |rest| < |name|
    ensures Usable(m, seg, rest, Remember(table, name, j))
  {
  }

  /** The heart of the round trip, by induction on what is left of the name. */
  lemma {:induction false} EncodeResolves(m: seq<Byte>, seg: nat, j: nat, room: nat, name: Text, table: Table)
    requires seg <= j && Usable(m, seg, name, table) && Wrote(m, j, room, name, table)
    ensures Reads(m, seg, j, name, table, WrittenEnd(j, room, name, table))
    decreases |name|
  {
    var k := FirstDot(name);
    if Known(table, name) {
      ReadsPointer(m, seg, j, name, table);
    } else if k == |name| {
      ReadsLast(m, seg, j, name, table);
    } else {
      var end := WrittenEnd(j, room, name, table);
      EncodeUnfolds(m, j, room, name, table, k);
      UsableStep(m, seg, j, name, name[k + 1..], table);
      EncodeResolves(m, seg, j + 1 + k, room, name[k + 1..], Remember(table, name, j));
      ReadsLabel(m, seg, j, k, name, table, end);
    }
  }

  lemma EntryAdded(m: seq<Byte>, seg: nat, j: nat, room: nat, name: Text, table: Table)
    requires seg <= j && room <= POINTER_LIMIT && Usable(m, seg, name, table) && !Known(table, name)
    requires Wrote(m, j, room, name, table)
    ensures EntryOk(m, Entry(name, j))
  {
    EncodeResolves(m, seg, j, room, name, table);
    FromStart(m, seg, j);
  }

  /** Every entry the writer adds reads as its text in the finished message. */
  lemma {:induction false} EncodeEntries(m: seq<Byte>, seg: nat, j: nat, room: nat, name: Text, table: Table, e: Entry)
    requires seg <= j && room <= POINTER_LIMIT && table.Table? && Usable(m, seg, name, table)
    requires Wrote(m, j, room, name, table)
    ensures var t := WrittenTable(j, room, name, table);
            t.Table? && (e in t.entries && e !in table.entries ==> EntryOk(m, e))
    decreases |name|
  {
    var k := FirstDot(name);
    if !Known(table, name) {
      var t := WrittenTable(j, room, name, table);
      EntryAdded(m, seg, j, room, name, table);
      RememberAdds(table, name, j, e);
      if k < |name| {
        EncodeUnfolds(m, j, room, name, table, k);
        UsableStep(m, seg, j, name, name[k + 1..], table);
        EncodeEntries(m, seg, j + 1 + k, room, name[k + 1..], Remember(table, name, j), e);
      }
    }
  }

  lemma RememberAdds(table: Table, name: Text, j: nat, e: Entry)
    requires table.Table?
    ensures e in Remember(table, name, j).entries && e !in table.entries ==> e == Entry(name, j)
  {
  }

  lemma FromStart(m: seq<Byte>, seg: nat, j: nat)
    requires seg <= j && Resolve(m, seg, j).Done?
    ensures Resolve(m, j, j) == Resolve(m, seg, j)
  {
    ResolveExtends(m, [], seg, j, j);
    assert m + [] == m;
  }

  lemma TableExtends(m: seq<Byte>, more: seq<Byte>, table: Table)
    requires TableOk(m, table)
    ensures TableOk(m + more, table)
  {
    if table.Table? {
      forall e | e in table.entries ensures EntryOk(m + more, e) {
        assert EntryOk(m, e);
        ResolveExtends(m, more, e.pos, e.pos, e.pos);
      }
    }
  }

  /** One name written at the end of a message whose table is sound: the table stays sound, and the
      name reads back with the meaning of its text. */
  lemma EncodeKeepsTable(m: seq<Byte>, room: nat, name: Text, table: Table)
    requires room <= POINTER_LIMIT && TableOk(m, table)
    requires Encode(|m|, room, name, table).Encoded?
    ensures var r := Encode(|m|, room, name, table);
            && (table.Table? ==> r.table.Table?)
            && TableOk(m + r.bytes, r.table)
            && Reads(m + r.bytes, |m|, |m|, name, table, |m + r.bytes|)
  {
    var r := Encode(|m|, room, name, table);
    var m' := m + r.bytes;
    TableExtends(m, r.bytes, table);
    if table.Table? {
      forall e | e in table.entries ensures e.pos < |m| { assert EntryOk(m, e); }
    }
    assert Laid(m', |m|, r.bytes);
    EncodeResolves(m', |m|, |m|, room, name, table);
    if table.Table? {
      EncodeEntries(m', |m|, |m|, room, name, table, Entry([], 0));
      forall e | e in r.table.entries ensures EntryOk(m', e) {
        if e in table.entries {
          assert EntryOk(m', e);
        } else {
          EncodeEntries(m', |m|, |m|, room, name, table, e);
        }
      }
    } else {
      NoTableStays(|m|, room, name);
    }
  }

  lemma {:induction false} NoTableStays(pos: nat, room: nat, name: Text)
    ensures EncodeFrom(pos, room, name, NoTable).Encoded? ==> EncodeFrom(pos, room, name, NoTable).table == NoTable
    decreases |name|
  {
    var k := FirstDot(name);
    if k < |name| { NoTableStays(pos + k + 1, room, name[k + 1..]); }
  }

  // ---------- Room ----------

  predicate LabelsShort(name: Text)
    decreases |name|
  {
    var k := FirstDot(name);
    k <= MAX_LABEL && (k < |name| ==> LabelsShort(name[k + 1..]))
  }

  lemma FirstDotAt(name: Text, k: nat)
    requires k < |name| && name[k] == DOT && forall i :: 0 <= i < k ==> name[i] != DOT
    ensures FirstDot(name) == k
  {
  }

  lemma {:induction false} ShortName(name: Text)
    requires |name| <= MAX_LABEL
    ensures LabelsShort(name)
    decreases |name|
  {
    var k := FirstDot(name);
    if k < |name| { ShortName(name[k + 1..]); }
  }

  /** The writer finds no text to point at. */
  predicate Unshared(name: Text, table: Table)
    decreases |name|
  {
    var k := FirstDot(name);
    !Known(table, name) && (k < |name| ==> Unshared(name[k + 1..], table))
  }

  lemma {:induction false} UnsharedStable(table: Table, longer: Text, pos: nat, name: Text)
    requires |name| < |longer|
    ensures Unshared(name, Remember(table, longer, pos)) <==> Unshared(name, table)
    decreases |name|
  {
    KnownStable(table, longer, pos, name);
    var k := FirstDot(name);
    if k < |name| { UnsharedStable(table, longer, pos, name[k + 1..]); }
  }

  predicate EndsOpen(name: Text) {
    name != [] && name[|name| - 1] != DOT
  }

  /** A name that is written out takes one byte more than its text, and another one for the closing zero unless its last
      label is empty; only that zero can lie behind the room. A name that ends in a pointer stays within it. */
  lemma {:induction false} EncodedLength(pos: nat, room: nat, name: Text, table: Table)
    requires EncodeFrom(pos, room, name, table).Encoded?
    ensures var n := |EncodeFrom(pos, room, name, table).bytes|;
            if Unshared(name, table) then
              n == |name| + 1 + (if EndsOpen(name) then 1 else 0) && pos + |name| + 1 <= room
            else pos + n <= room
    decreases |name|
  {
    hide Known, Remember, FirstDot, PointerBytes;
    var k := FirstDot(name);
    if !Known(table, name) && k < |name| {
      var rest := name[k + 1..];
      UnsharedStable(table, name, pos, rest);
      EncodedLength(pos + k + 1, room, rest, Remember(table, name, pos));
      assert EndsOpen(name) <==> EndsOpen(rest) by { if rest != [] { assert rest[|rest| - 1] == name[|name| - 1]; } }
    }
  }

  /** Short labels and room for two bytes more than the text are enough, whatever the table holds. */
  lemma {:induction false} EncodeFits(pos: nat, room: nat, name: Text, table: Table)
    requires LabelsShort(name) && pos + |name| + 2 <= room
    ensures var e := EncodeFrom(pos, room, name, table); e.Encoded? && |e.bytes| <= |name| + 2
    decreases |name|
  {
    var k := FirstDot(name);
    if k < |name| { EncodeFits(pos + k + 1, room, name[k + 1..], Remember(table, name, pos)); }
  }

  /** Without anything to point at, the labels alone decide, and one byte more than the text is enough. */
  lemma {:induction false} PlainEncode(pos: nat, room: nat, name: Text, table: Table)
    requires pos + |name| + 1 <= room && Unshared(name, table)
    ensures if LabelsShort(name) then EncodeFrom(pos, room, name, table).Encoded?
            else EncodeFrom(pos, room, name, table) == LabelTooLong
    decreases |name|
  {
    var k := FirstDot(name);
    if k < |name| {
      UnsharedStable(table, name, pos, name[k + 1..]);
      PlainEncode(pos + k + 1, room, name[k + 1..], Remember(table, name, pos));
    }
  }

  /** The name is written out in full, does not end in a dot, and its text with one more byte just fills the room. */
  predicate Overruns(pos: nat, room: nat, name: Text, table: Table) {
    |name| <= MAX_NAME && LabelsShort(name) && EndsOpen(name) && Unshared(name, table) && pos + |name| + 1 == room
  }

  /** When the writer stores a byte behind the room it was given, exactly; it is then one byte. */
  lemma OverrunIff(pos: nat, room: nat, name: Text, table: Table)
    ensures var e := Encode(pos, room, name, table);
            && (e.Encoded? && pos + |e.bytes| > room <==> Overruns(pos, room, name, table))
            && (e.Encoded? ==> pos + |e.bytes| <= room + 1)
  {
    var e := Encode(pos, room, name, table);
    if e.Encoded? { EncodedLength(pos, room, name, table); }
    if Unshared(name, table) && pos + |name| + 1 <= room { PlainEncode(pos, room, name, table); }
  }

  /** A name of one letter with two bytes left ends at the third. */
  lemma OverrunExample()
    ensures Encode(10, 12, [97], NoTable) == Encoded([1, 97, 0], NoTable)
    ensures Overruns(10, 12, [97], NoTable)
  {
    assert DotFrom([97], 1) == 1;
  }

  lemma {:induction false} PlainIsUnshared(name: Text)
    ensures Unshared(name, NoTable)
    decreases |name|
  {
    var k := FirstDot(name);
    if k < |name| { PlainIsUnshared(name[k + 1..]); }
  }

  // ---------- Whole messages ----------

  /** A message is written left to right: names through the table, other fields as they are. */
  datatype Piece = Name(text: Text) | Raw(bytes: seq<Byte>)

  datatype Message = Message(bytes: seq<Byte>, table: Table) | Overflow

  function Append(msg: Message, room: nat, piece: Piece): (r: Message)
  {
    if msg.Overflow? then Overflow
    else match piece
      case Raw(bytes) => if |msg.bytes| + |bytes| > room then Overflow else msg.(bytes := msg.bytes + bytes)
      case Name(text) =>
        var e := Encode(|msg.bytes|, room, text, msg.table);
        if e.Encoded? then Message(msg.bytes + e.bytes, e.table) else Overflow
  }

  function Write(room: nat, pieces: seq<Piece>): (r: Message)
  {
    if pieces == [] then Message([], Table([]))
    else Append(Write(room, pieces[..|pieces| - 1]), room, pieces[|pieces| - 1])
  }

  /** A piece that can be written where there is room. */
  predicate Writable(piece: Piece) {
    piece.Name? ==> |piece.text| <= MAX_NAME && LabelsShort(piece.text)
  }

  /** Room that is always enough for a piece */
  function Size(piece: Piece): (n: nat) {
    match piece case Name(text) => |text| + 2 case Raw(bytes) => |bytes|
  }

  function Sizes(pieces: seq<Piece>): (n: nat) {
    if pieces == [] then 0 else Sizes(pieces[..|pieces| - 1]) + Size(pieces[|pieces| - 1])
  }

  /** A message is written without an error when its names have short labels and at most 255 bytes and the room is
      enough for every name written out, however its names share suffixes; it takes no more than that. */
  lemma {:induction false} WriteSucceeds(room: nat, pieces: seq<Piece>)
    requires (forall i :: 0 <= i < |pieces| ==> Writable(pieces[i])) && Sizes(pieces) <= room
    ensures Write(room, pieces).Message? && |Write(room, pieces).bytes| <= Sizes(pieces)
  {
    if pieces != [] {
      var before := pieces[..|pieces| - 1];
      assert forall i :: 0 <= i < |before| ==> Writable(before[i]);
      WriteSucceeds(room, before);
      var w, last := Write(room, before), pieces[|pieces| - 1];
      if last.Name? { EncodeFits(|w.bytes|, room, last.text, w.table); }
    }
  }

  lemma {:induction false} WriteKeepsTable(room: nat, pieces: seq<Piece>)
    requires room <= POINTER_LIMIT && Write(room, pieces).Message?
    ensures var w := Write(room, pieces); w.table.Table? && TableOk(w.bytes, w.table)
  {
    if pieces != [] {
      var before := pieces[..|pieces| - 1];
      WriteKeepsTable(room, before);
      var w := Write(room, before);
      match pieces[|pieces| - 1]
      case Raw(bytes) =>
        TableExtends(w.bytes, bytes, w.table);
      case Name(text) =>
        EncodeKeepsTable(w.bytes, room, text, w.table);
    }
  }

  lemma {:induction false} WriteGrows(room: nat, pieces: seq<Piece>, i: nat)
    requires i <= |pieces| && Write(room, pieces).Message?
    ensures Write(room, pieces[..i]).Message?
    ensures Write(room, pieces[..i]).bytes <= Write(room, pieces).bytes
    decreases |pieces| - i
  {
    if i == |pieces| {
      assert pieces[..i] == pieces;
    } else {
      WriteGrows(room, pieces, i + 1);
      assert pieces[..i + 1][..i] == pieces[..i];
    }
  }

  /** DNS compression round trip: in a finished message every name reads back from the index where it
      was begun, whatever was written before and after it. The text read is the name itself exactly
      when the name is proper, and the index reported is the one the writer returned exactly when no
      empty label was written out in the middle of the name. */
  lemma NamesReadBack(room: nat, pieces: seq<Piece>, i: nat)
    requires room <= POINTER_LIMIT
    requires i < |pieces| && pieces[i].Name? && Write(room, pieces).Message?
    ensures Write(room, pieces[..i]).Message? && Write(room, pieces[..i + 1]).Message?
    ensures var name := pieces[i].text;
            var m := Write(room, pieces).bytes;
            var before := Write(room, pieces[..i]);
            var r := Parse(m, |before.bytes|, MAX_NAME + 1);
            && r.Parsed?
            && r.text == Join(Meaning(name))
            && (r.text == name <==> Proper(name))
            && (r.next == |Write(room, pieces[..i + 1]).bytes| <==> ReachesEnd(name, before.table))
  {
    var name := pieces[i].text;
    var m := Write(room, pieces).bytes;
    WriteGrows(room, pieces, i);
    WriteGrows(room, pieces, i + 1);
    assert pieces[..i + 1][..i] == pieces[..i];
    WriteKeepsTable(room, pieces[..i]);
    var before := Write(room, pieces[..i]);
    var after := Write(room, pieces[..i + 1]);
    var j := |before.bytes|;
    EncodeKeepsTable(before.bytes, room, name, before.table);
    assert m == after.bytes + m[|after.bytes|..];
    ResolveExtends(after.bytes, m[|after.bytes|..], j, j, j);
    var fuel := ResolveIsWalk(m, j, j);
    MeaningFits(name);
    MeaningIsName(name);
    ParseIsExact(m, j, MAX_NAME + 1);
  }

  lemma {:induction false} ProperReachesEnd(name: Text, table: Table)
    requires Proper(name)
    ensures ReachesEnd(name, table)
    decreases |name|
  {
    var k := FirstDot(name);
    if k < |name| {
      assert name[k] == DOT;
      var rest := name[k + 1..];
      ProperTail(name, k);
      ProperReachesEnd(rest, table);
    }
  }

  /** For proper names both halves hold: the reader gets the name and stops where the writer did. */
  lemma ProperNamesRoundTrip(room: nat, pieces: seq<Piece>, i: nat)
    requires room <= POINTER_LIMIT
    requires i < |pieces| && pieces[i].Name? && Proper(pieces[i].text) && Write(room, pieces).Message?
    ensures Write(room, pieces[..i]).Message? && Write(room, pieces[..i + 1]).Message?
    ensures Parse(Write(room, pieces).bytes, |Write(room, pieces[..i]).bytes|, MAX_NAME + 1)
         == Parsed(pieces[i].text, |Write(room, pieces[..i + 1]).bytes|)
  {
    NamesReadBack(room, pieces, i);
    ProperReachesEnd(pieces[i].text, Write(room, pieces[..i]).table);
  }

  // ---------- Queries ----------

  function Word(x: nat): (bs: seq<Byte>)
    ensures |bs| == 2
  {
    [x / 256 % 256, x % 256]
  }

  /** evdns_request_len */
  function RequestLen(name: Text): (n: nat) {
    96 + |name| + 2 + 4
  }

  /** evdns_request_data_build: the fixed header, the name without a table, the type and the class. */
  function BuildRequest(name: Text, transId: nat, qtype: nat, qclass: nat): (r: Encoded)
  {
    var header := Word(transId) + Word(0x0100) + Word(1) + Word(0) + Word(0) + Word(0);
    var e := Encode(|header|, RequestLen(name), name, NoTable);
    if e.Encoded? then Encoded(header + e.bytes + (Word(qtype) + Word(qclass)), NoTable) else e
  }

  function WordAt(m: seq<Byte>, i: nat): (x: nat)
    requires i + 2 <= |m|
  {
    m[i] as nat * 256 + m[i + 1] as nat
  }

  lemma WordReadsBack(before: seq<Byte>, x: nat, after: seq<Byte>)
    ensures WordAt(before + Word(x) + after, |before|) == x % 0x10000
  {
    var m, i := before + Word(x) + after, |before|;
    assert m[i] == Word(x)[0] && m[i + 1] == Word(x)[1];
    assert x / 256 % 256 * 256 + x % 256 == x % 0x10000;
  }

  /** The length computed for a query is always enough for it, closing zero included, so a query is refused exactly for
      a name over 255 bytes or a label over 63. The id, the flags and the count of questions read back from the
      header, the name from index 12, the type and the class from the last four bytes; the text read is the name
      exactly when it is proper, and the reader stops at the type exactly when no empty label lies inside the name. */
  lemma RequestReadsBack(name: Text, transId: nat, qtype: nat, qclass: nat)
    ensures var r := BuildRequest(name, transId, qtype, qclass);
            && (r.Encoded? <==> |name| <= MAX_NAME && LabelsShort(name))
            && !Overruns(12, RequestLen(name), name, NoTable)
            && (r.Encoded? ==> |r.bytes| <= RequestLen(name) && RequestReads(r.bytes, name, transId, qtype, qclass))
  {
    hide EncodeFrom, LabelsShort, Unshared, Parse, Join, Meaning, Proper, ReachesEnd, Word, WordAt;
    var header := Word(transId) + Word(0x0100) + Word(1) + Word(0) + Word(0) + Word(0);
    var tail := Word(qtype) + Word(qclass);
    var room := RequestLen(name);
    if |name| <= MAX_NAME {
      PlainIsUnshared(name);
      PlainEncode(|header|, room, name, NoTable);
      if LabelsShort(name) {
        var e := Encode(|header|, room, name, NoTable);
        EncodeFits(|header|, room, name, NoTable);
        HeaderReads(transId, e.bytes + tail);
        assert header + e.bytes + tail == header + (e.bytes + tail);
        TailReads(header + e.bytes, qtype, qclass);
        QuestionReads(header, name, tail);
      }
    }
  }

  ghost predicate RequestReads(m: seq<Byte>, name: Text, transId: nat, qtype: nat, qclass: nat) {
    && |m| >= 16 && WordAt(m, 0) == transId % 0x10000 && WordAt(m, 2) == 0x0100 && WordAt(m, 4) == 1
    && WordAt(m, |m| - 4) == qtype % 0x10000 && WordAt(m, |m| - 2) == qclass % 0x10000
    && var p := Parse(m, 12, MAX_NAME + 1);
       && p.Parsed? && p.text == Join(Meaning(name)) && (p.text == name <==> Proper(name))
       && (p.next == |m| - 4 <==> ReachesEnd(name, NoTable))
  }

  lemma HeaderReads(transId: nat, rest: seq<Byte>)
    ensures var m := Word(transId) + Word(0x0100) + Word(1) + Word(0) + Word(0) + Word(0) + rest;
            WordAt(m, 0) == transId % 0x10000 && WordAt(m, 2) == 0x0100 && WordAt(m, 4) == 1
  {
    var m := Word(transId) + Word(0x0100) + Word(1) + Word(0) + Word(0) + Word(0) + rest;
    var r2 := Word(1) + Word(0) + Word(0) + Word(0) + rest;
    var r1 := Word(0x0100) + r2;
    assert m == [] + Word(transId) + r1;
    WordReadsBack([], transId, r1);
    assert m == Word(transId) + Word(0x0100) + r2;
    WordReadsBack(Word(transId), 0x0100, r2);
    var h2 := Word(transId) + Word(0x0100);
    var r3 := Word(0) + Word(0) + Word(0) + rest;
    assert m == h2 + Word(1) + r3;
    WordReadsBack(h2, 1, r3);
  }

  lemma TailReads(before: seq<Byte>, qtype: nat, qclass: nat)
    ensures var m := before + (Word(qtype) + Word(qclass));
            WordAt(m, |m| - 4) == qtype % 0x10000 && WordAt(m, |m| - 2) == qclass % 0x10000
  {
    var m := before + (Word(qtype) + Word(qclass));
    assert m == before + Word(qtype) + Word(qclass);
    WordReadsBack(before, qtype, Word(qclass));
    assert m == (before + Word(qtype)) + Word(qclass) + [];
    WordReadsBack(before + Word(qtype), qclass, []);
  }

  /** The name of a query reads back, whatever follows it. */
  lemma QuestionReads(header: seq<Byte>, name: Text, tail: seq<Byte>)
    requires Encode(|header|, RequestLen(name), name, NoTable).Encoded?
    ensures var e := Encode(|header|, RequestLen(name), name, NoTable);
            var p := Parse(header + e.bytes + tail, |header|, MAX_NAME + 1);
            && p.Parsed? && p.text == Join(Meaning(name)) && (p.text == name <==> Proper(name))
            && (p.next == |header + e.bytes| <==> ReachesEnd(name, NoTable))
  {
    var e, j := Encode(|header|, RequestLen(name), name, NoTable), |header|;
    EncodeKeepsTable(header, RequestLen(name), name, NoTable);
    ResolveExtends(header + e.bytes, tail, j, j, j);
    var fuel := ResolveIsWalk(header + e.bytes + tail, j, j);
    MeaningFits(name);
    MeaningIsName(name);
    ParseIsExact(header + e.bytes + tail, j, MAX_NAME + 1);
  }

  /** Beyond 14 bits a pointer names another place: it is followed to its entry exactly below 0x4000. */
  lemma PointerReaches(ref: nat)
    ensures Target(PointerBytes(ref)[0], PointerBytes(ref)[1]) == ref <==> ref < POINTER_LIMIT
  {
  }

  // ---------- Empty labels ----------

  /** A label that is empty and has more behind it begins at index i. */
  predicate EmptyAt(name: Text, i: nat) {
    i < |name| && name[i] == DOT && (i == 0 || name[i - 1] == DOT)
  }

  lemma {:induction false} StopsAt(m: seq<Byte>, seg: nat, j: nat, room: nat, name: Text, i: nat)
    requires EmptyAt(name, i) && (forall k :: 0 <= k < i ==> !EmptyAt(name, k)) && Wrote(m, j, room, name, NoTable)
    ensures var w := Resolve(m, seg, j);
            && w.Done? && w.end == j + i + 1 && (w.labels == [] <==> i == 0)
            && Join(w.labels) == name[..if i == 0 then 0 else i - 1]
    decreases |name|
  {
    hide Wrote, WrittenEnd, WrittenTable, Laid, Resolve, FirstDot, Join, EmptyAt;
    ShortFirst(m, j, room, name, i);
    var k := FirstDot(name);
    EncodeUnfolds(m, j, room, name, NoTable, k);
    LaidByte(m, j, k);
    if k > 0 {
      EmptyLater(name, i, k);
      StopsAt(m, seg, j + 1 + k, room, name[k + 1..], i - k - 1);
      ResolveLaid(m, seg, j, k, name[..k]);
      JoinCons(name[..k], Resolve(m, seg, j + 1 + k).labels);
      JoinUpTo(name, k, i);
    } else {
      EmptyFirst(name, i);
      ResolveZero(m, seg, j);
      JoinNone();
    }
  }

  lemma ResolveLaid(m: seq<Byte>, seg: nat, j: nat, k: Byte, l: Text)
    requires 0 < k <= MAX_LABEL && j < |m| && m[j] == k == |l| && Laid(m, j + 1, l) && Resolve(m, seg, j + 1 + k).Done?
    ensures var w := Resolve(m, seg, j + 1 + k); Resolve(m, seg, j) == Done([l] + w.labels, w.end)
  {
    hide Resolve;
    ResolveLabel(m, seg, j, k);
  }

  lemma JoinUpTo(name: Text, k: nat, i: nat)
    requires k < i <= |name| && name[k] == DOT
    ensures if i - k - 1 == 0 then name[..i - 1] == name[..k]
            else name[..k] + [DOT] + name[k + 1..][..i - k - 2] == name[..i - 1]
  {}

  lemma EmptyFirst(name: Text, i: nat)
    requires EmptyAt(name, i) && (forall k :: 0 <= k < i ==> !EmptyAt(name, k)) && FirstDot(name) == 0
    ensures i == 0
  {
    assert EmptyAt(name, 0);
  }

  lemma ShortFirst(m: seq<Byte>, j: nat, room: nat, name: Text, i: nat)
    requires Wrote(m, j, room, name, NoTable) && EmptyAt(name, i)
    ensures FirstDot(name) <= MAX_LABEL && FirstDot(name) < |name|
  {
    hide FirstDot, Laid;
  }

  /** The first empty label stays the first one when the label before it is taken away. */
  lemma EmptyLater(name: Text, i: nat, k: nat)
    requires EmptyAt(name, i) && (forall n :: 0 <= n < i ==> !EmptyAt(name, n)) && 0 < k == FirstDot(name)
    ensures var rest := name[k + 1..];
            k < i && EmptyAt(rest, i - k - 1) && forall n :: 0 <= n < i - k - 1 ==> !EmptyAt(rest, n)
  {
    assert !EmptyAt(name, k);
    var rest := name[k + 1..];
    forall n | 0 <= n < i - k - 1 ensures !EmptyAt(rest, n) { assert !EmptyAt(name, k + 1 + n); }
  }

  lemma ResolveZero(m: seq<Byte>, seg: nat, j: nat)
    requires j < |m| && m[j] == 0
    ensures Resolve(m, seg, j) == Done([], j + 1)
  {
  }

  lemma JoinNone()
    ensures Join([]) == []
  {
  }

  /** Every name with an empty label inside is written in full but read only up to that label: the text before it comes
      back, and the reader stops behind the zero that is its length. */
  lemma EmptyLabelStopsReader(m: seq<Byte>, room: nat, name: Text, i: nat)
    requires EmptyAt(name, i) && (forall k :: 0 <= k < i ==> !EmptyAt(name, k))
    requires Encode(|m|, room, name, NoTable).Encoded?
    ensures var bytes := Encode(|m|, room, name, NoTable).bytes;
            && Parse(m + bytes, |m|, MAX_NAME + 1) == Parsed(name[..if i == 0 then 0 else i - 1], |m| + i + 1)
            && |bytes| == |name| + 1 + (if EndsOpen(name) then 1 else 0)
  {
    var bytes := Encode(|m|, room, name, NoTable).bytes;
    var m', j := m + bytes, |m|;
    assert Laid(m', j, bytes);
    StopsAt(m', j, j, room, name, i);
    var fuel := ResolveIsWalk(m', j, j);
    ParseIsExact(m', j, MAX_NAME + 1);
    PlainIsUnshared(name);
    EncodedLength(j, room, name, NoTable);
  }
}
