/** buffer.c: a byte buffer with slack at both ends. `data` is orig_buffer, its length totallen, and the bytes are
    those from misalign on. */
module EvBuffer {

  import opened Basics

  const SIZE_MAX := 0xffff_ffff_ffff_ffff

  const CR: Byte := 13
  const LF: Byte := 10

  /** enum evbuffer_eol_style */
  datatype Eol = Any | CrLf | CrLfStrict | Lf

  predicate IsEnd(b: Byte) {
    b == CR || b == LF
  }

  /** s[i..j] is a line ending of the style, taken as long as the style allows. */
  predicate Ending(style: Eol, s: seq<Byte>, i: nat, j: nat) {
    && i < j <= |s|
    && match style
       case Any => (forall k :: i <= k < j ==> IsEnd(s[k])) && (j < |s| ==> !IsEnd(s[j]))
       case CrLf =>
         s[j - 1] == LF && ((j == i + 2 && s[i] == CR) || (j == i + 1 && (i == 0 || s[i - 1] != CR)))
       case CrLfStrict => j == i + 2 && s[i] == CR && s[i + 1] == LF
       case Lf => j == i + 1 && s[i] == LF
  }

  /** The index after a line that ends at n: another CR or LF goes with it if the two differ. */
  function AfterLine(s: seq<Byte>, n: nat): (j: nat)
    requires n < |s|
    ensures n < j <= |s|
  {
    if n + 1 < |s| && IsEnd(s[n + 1]) && s[n + 1] != s[n] then n + 2 else n + 1
  }

  class Buffer {
    var data: array<Byte>
    var misalign: nat
    var off: nat

    ghost predicate Valid()
      reads this
    {
      misalign + off <= data.Length <= SIZE_MAX
    }

    ghost function Contents(): (s: seq<Byte>)
      requires Valid()
      reads this, data
    {
      data[misalign..misalign + off]
    }

    constructor ()
      ensures Valid() && fresh(data) && Contents() == []
    {
      data, misalign, off := new Byte[0], 0, 0;
    }

    /** evbuffer_align */
    method Align()
      requires Valid()
      modifies this`misalign, data
      ensures Valid() && misalign == 0 && Contents() == old(Contents())
    {
      var i := 0;
      while i < off
        invariant 0 <= i <= off && misalign == old(misalign)
        invariant forall k :: 0 <= k < i ==> data[k] == old(data[misalign + k])
        invariant forall k :: i + misalign <= k < misalign + off ==> data[k] == old(data[k])
      {
        data[i] := data[misalign + i];
        i := i + 1;
      }
      misalign := 0;
    }

    /** evbuffer_expand, on a machine that has the memory: room for n more bytes, unless the length would not
        fit a size_t. */
    method Expand(n: nat) returns (res: int)
      requires Valid() && n <= SIZE_MAX
      modifies this, data
      ensures Valid() && Contents() == old(Contents()) && (data == old(data) || fresh(data))
      ensures res == 0 ==> misalign + off + n <= data.Length
      ensures res == -1 <==> old(misalign + off + n > data.Length) && n > SIZE_MAX - off
      ensures res == 0 || res == -1
    {
      var used := misalign + off;
      if data.Length - used >= n { return 0; }
      if n > SIZE_MAX - off { return -1; }
      if data.Length - off >= n {
        Align();
      } else {
        var length := data.Length;
        var need := off + n;
        if length < 256 { length := 256; }
        if need < SIZE_MAX / 2 {
          while length < need
            invariant 256 <= length && (length < need || length < SIZE_MAX || length == data.Length)
            invariant length <= SIZE_MAX
          {
            length := length * 2;
          }
        } else {
          length := need;
        }
        if misalign != 0 { Align(); }
        Grow(length);
      }
      return 0;
    }

    /** realloc to a greater size */
    method Grow(length: nat)
      requires Valid() && misalign == 0 && off <= length <= SIZE_MAX
      modifies this`data
      ensures Valid() && Contents() == old(Contents()) && fresh(data) && data.Length == length
    {
      var bigger := new Byte[length](_ => 0);
      var i := 0;
      while i < off
        invariant 0 <= i <= off && data == old(data) && bigger.Length == length
        invariant forall k :: 0 <= k < i ==> bigger[k] == data[k]
      {
        bigger[i] := data[i];
        i := i + 1;
      }
      data := bigger;
    }

    /** evbuffer_add; told says that a callback would be called. */
    method Add(bytes: seq<Byte>) returns (res: int, told: bool)
      requires Valid() && |bytes| <= SIZE_MAX
      modifies this, data
      ensures Valid() && (data == old(data) || fresh(data))
      ensures res == 0 ==> Contents() == old(Contents()) + bytes
      ensures res == -1 ==> Contents() == old(Contents())
      ensures res == 0 || (res == -1 && |bytes| > SIZE_MAX - old(off))
      ensures told <==> res == 0 && bytes != []
    {
      res := 0;
      if data.Length - (misalign + off) < |bytes| {
        res := Expand(|bytes|);
        if res == -1 { return -1, false; }
      }
      Append(bytes);
      return 0, bytes != [];
    }

    method Append(bytes: seq<Byte>)
      requires Valid() && misalign + off + |bytes| <= data.Length
      modifies this`off, data
      ensures Valid() && Contents() == old(Contents()) + bytes
    {
      ghost var was := data[..];
      CopyIn(misalign + off, bytes);
      Appended(was, data[..], misalign, off, bytes);
      off := off + |bytes|;
    }

    /** memcpy */
    method CopyIn(at: nat, bytes: seq<Byte>)
      requires at + |bytes| <= data.Length
      modifies data
      ensures forall k :: 0 <= k < data.Length ==>
                data[k] == if at <= k < at + |bytes| then bytes[k - at] else old(data[k])
    {
      var i := 0;
      while i < |bytes|
        invariant 0 <= i <= |bytes|
        invariant forall k :: 0 <= k < data.Length ==>
          data[k] == if at <= k < at + i then bytes[k - at] else old(data[k])
      {
        data[at + i] := bytes[i];
        i := i + 1;
      }
    }

    /** evbuffer_drain */
    method Drain(n: nat) returns (told: bool)
      requires Valid()
      modifies this`misalign, this`off
      ensures Valid()
      ensures Contents() == if n >= old(off) then [] else old(Contents())[n..]
      ensures told <==> old(off) != 0 && n != 0
    {
      if n >= off {
        told := off != 0;
        off, misalign := 0, 0;
      } else {
        told := n != 0;
        misalign, off := misalign + n, off - n;
      }
      if old(off) > n { assert Contents() == old(Contents())[n..]; }
    }

    /** evbuffer_remove; nread is the int that it returns. */
    method Remove(n: nat) returns (bytes: seq<Byte>, nread: int, told: bool)
      requires Valid()
      modifies this`misalign, this`off
      ensures Valid() && |bytes| == (if n <= old(off) then n else old(off))
      ensures old(Contents()) == bytes + Contents()
      ensures nread == Int32(|bytes|) && (told <==> bytes != [])
    {
      var size := n;
      if size >= off { size := off; }
      bytes := data[misalign..misalign + size];
      told := Drain(size);
      nread := Int32(size);
    }

    /** evbuffer_add_buffer: the bytes move from the one buffer to the other, and both callbacks are called if there
        are any. */
    method AddBuffer(input: Buffer) returns (res: int, told: bool, inputTold: bool)
      requires Valid() && input.Valid() && input != this && data != input.data
      modifies this, data, input
      ensures Valid() && input.Valid() && data != input.data
      ensures res == 0 ==> Contents() == old(Contents() + input.Contents()) && input.Contents() == []
      ensures res == -1 ==> Contents() == old(Contents()) && input.Contents() == old(input.Contents())
      ensures res == 0 || (res == -1 && old(input.off) > SIZE_MAX - old(off))
      ensures told == inputTold && (told <==> res == 0 && old(input.Contents()) != [])
      ensures {data, input.data} == {old(data), old(input.data)} || (fresh(data) && input.data == old(input.data))
    {
      if off == 0 {
        var oldoff := input.off;
        data, misalign, off, input.data, input.misalign, input.off :=
          input.data, input.misalign, input.off, data, misalign, off;
        return 0, oldoff != 0, input.off != oldoff;
      }
      res, told := Add(input.data[input.misalign..input.misalign + input.off]);
      inputTold := false;
      if res == 0 { inputTold := input.Drain(input.off); }
    }

    lemma SliceOf(x: nat, y: nat)
      requires Valid() && x <= y <= off
      ensures Contents()[x..y] == data[misalign + x..misalign + y]
    {
      SliceSlice(data[..], misalign, misalign + off, x, y);
    }

    lemma OccursHere(what: seq<Byte>, i: nat)
      requires Valid() && i + |what| <= off
      ensures Occurs(Contents(), what, i) <==> data[misalign + i..misalign + i + |what|] == what
    {
      SliceOf(i, i + |what|);
    }

    /** memchr on the bytes from `from` on */
    method Index(b: Byte, from: nat) returns (i: Option<nat>)
      requires Valid() && from <= off
      ensures i.Some? ==> from <= i.value < off && Contents()[i.value] == b && b !in Contents()[from..i.value]
      ensures i.None? ==> b !in Contents()[from..]
    {
      var k := from;
      while k < off
        invariant from <= k <= off && b !in Contents()[from..k]
      {
        if data[misalign + k] == b { return Some(k); }
        assert Contents()[from..k + 1] == Contents()[from..k] + [Contents()[k]];
        k := k + 1;
      }
      assert Contents()[from..] == Contents()[from..k];
      return None;
    }

    /** The first byte that ends a line */
    method FirstEnd() returns (i: nat)
      requires Valid()
      ensures i <= off && (i < off ==> IsEnd(Contents()[i])) && forall k :: 0 <= k < i ==> !IsEnd(Contents()[k])
    {
      i := 0;
      while i < off && !IsEnd(data[misalign + i])
        invariant 0 <= i <= off && forall k :: misalign <= k < misalign + i ==> !IsEnd(data[k])
      {
        i := i + 1;
      }
    }

    method EndAny() returns (found: bool, i: nat, j: nat)
      requires Valid()
      ensures FirstEnding(Any, Contents(), found, i, j)
    {
      i := FirstEnd();
      j := i;
      NoEndBefore(Contents(), i);
      if i == off { return false, 0, 0; }
      j := i + 1;
      while j < off && IsEnd(data[misalign + j])
        invariant i < j <= off && forall k :: misalign + i <= k < misalign + j ==> IsEnd(data[k])
      {
        j := j + 1;
      }
      return true, i, j;
    }

    method EndCrLf() returns (found: bool, i: nat, j: nat)
      requires Valid()
      ensures FirstEnding(CrLf, Contents(), found, i, j)
    {
      hide Ending, FirstEnding;
      var k := Index(LF, 0);
      NoByte(Contents(), LF, 0, if k.Some? then k.value else off);
      CrLfEnding(Contents(), if k.Some? then k.value else off);
      if k.None? { return false, 0, 0; }
      if k.value > 0 && data[misalign + k.value - 1] == CR { return true, k.value - 1, k.value + 1; }
      return true, k.value, k.value + 1;
    }

    method EndStrict() returns (found: bool, i: nat, j: nat)
      requires Valid()
      ensures FirstEnding(CrLfStrict, Contents(), found, i, j)
    {
      var from := 0;
      while from < off
        invariant 0 <= from <= off
        invariant forall a, b :: 0 <= a < from ==> !Ending(CrLfStrict, Contents(), a, b)
      {
        var k := Index(CR, from);
        NoByte(Contents(), CR, from, if k.Some? then k.value else off);
        if k.None? { return false, 0, 0; }
        if k.value + 1 < off && data[misalign + k.value + 1] == LF { return true, k.value, k.value + 2; }
        from := k.value + 1;
      }
      return false, 0, 0;
    }

    method EndLf() returns (found: bool, i: nat, j: nat)
      requires Valid()
      ensures FirstEnding(Lf, Contents(), found, i, j)
    {
      var k := Index(LF, 0);
      NoByte(Contents(), LF, 0, if k.Some? then k.value else off);
      if k.None? { return false, 0, 0; }
      return true, k.value, k.value + 1;
    }

    method FindEnding(style: Eol) returns (found: bool, i: nat, j: nat)
      requires Valid()
      ensures FirstEnding(style, Contents(), found, i, j) && (found ==> i < j <= off)
    {
      match style {
        case Any => found, i, j := EndAny();
        case CrLf => found, i, j := EndCrLf();
        case CrLfStrict => found, i, j := EndStrict();
        case Lf => found, i, j := EndLf();
      }
    }

    /** evbuffer_readln: the bytes before the first line ending, which is taken away with them */
    method ReadLn(style: Eol) returns (line: Option<seq<Byte>>)
      requires Valid()
      modifies this`misalign, this`off
      ensures Valid()
      ensures line.None? ==> Contents() == old(Contents()) && forall a, b :: !Ending(style, Contents(), a, b)
      ensures line.Some? ==>
                var s := old(Contents());
                exists j :: Ending(style, s, |line.value|, j) && Splits(s, line.value, j, Contents())
      ensures line.Some? ==> forall a, b :: 0 <= a < |line.value| ==> !Ending(style, old(Contents()), a, b)
    {
      hide Ending, Splits;
      var found, i, j := FindEnding(style);
      if !found { return None; }
      SliceOf(0, i);
      line := Some(data[misalign..misalign + i]);
      var told := Drain(j);
      SplitsAt(old(Contents()), line.value, j, Contents());
    }

    method LineStop(n: nat) returns (j: nat)
      requires Valid() && n < off
      ensures j == AfterLine(Contents(), n)
    {
      j := n + 1;
      if j < off {
        var fch, sch := data[misalign + n], data[misalign + j];
        if IsEnd(sch) && sch != fch { j := j + 1; }
      }
    }

    /** evbuffer_readline: ends a line at the first CR or LF, and at two of them if they differ */
    method ReadLine() returns (line: Option<seq<Byte>>)
      requires Valid()
      modifies this`misalign, this`off
      ensures Valid()
      ensures line.None? ==> Contents() == old(Contents()) && forall k :: 0 <= k < off ==> !IsEnd(Contents()[k])
      ensures line.Some? ==>
                var s, n := old(Contents()), |line.value|;
                && n < |s| && IsEnd(s[n]) && (forall k :: 0 <= k < n ==> !IsEnd(s[k]))
                && Splits(s, line.value, AfterLine(s, n), Contents())
    {
      hide Splits, IsEnd, AfterLine;
      var i := FirstEnd();
      if i == off { return None; }
      SliceOf(0, i);
      line := Some(data[misalign..misalign + i]);
      var j := LineStop(i);
      var told := Drain(j);
      SplitsAt(old(Contents()), line.value, j, Contents());
    }

    /** evbuffer_find: the first place where the bytes occur. The source reads the first byte to look for even when
        it is told to look for none. */
    method Find(what: seq<Byte>) returns (i: Option<nat>)
      requires Valid() && what != []
      ensures i.Some? ==> Occurs(Contents(), what, i.value)
      ensures i.Some? ==> forall k :: 0 <= k < i.value ==> !Occurs(Contents(), what, k)
      ensures i.None? ==> forall k :: 0 <= k < off ==> !Occurs(Contents(), what, k)
    {
      hide Occurs;
      ghost var s := Contents();
      var from := 0;
      while from < off
        invariant 0 <= from <= off && Contents() == s
        invariant forall k :: 0 <= k < from ==> !Occurs(s, what, k)
      {
        var p := Index(what[0], from);
        if p.None? {
          NoneWithout(s, what, from, off);
          return None;
        }
        NoneWithout(s, what, from, p.value);
        if p.value + |what| > off {
          NoneLate(s, what, p.value);
          return None;
        }
        OccursHere(what, p.value);
        if data[misalign + p.value..misalign + p.value + |what|] == what { return p; }
        from := p.value + 1;
      }
      return None;
    }
  }

  /** s[i..j] is the first line ending of the style, or there is none. */
  ghost predicate FirstEnding(style: Eol, s: seq<Byte>, found: bool, i: nat, j: nat) {
    if found then Ending(style, s, i, j) && forall a, b :: 0 <= a < i ==> !Ending(style, s, a, b)
    else forall a, b :: !Ending(style, s, a, b)
  }

  function Terminator(style: Eol): (t: seq<Byte>) {
    if style == CrLf || style == CrLfStrict then [CR, LF] else [LF]
  }

  /** A line written with the ending of a style is what that style reads back, whatever follows; for the style that
      takes any ending, whatever follows that is not itself a line ending. */
  lemma LineReadsBack(style: Eol, line: seq<Byte>, rest: seq<Byte>, found: bool, i: nat, j: nat)
    requires (forall k :: 0 <= k < |line| ==> !IsEnd(line[k])) && (style == Any && rest != [] ==> !IsEnd(rest[0]))
    requires FirstEnding(style, line + Terminator(style) + rest, found, i, j)
    ensures found && i == |line| && j == i + |Terminator(style)|
  {
    var s := line + Terminator(style) + rest;
    var n := |line|;
    forall k | 0 <= k < n ensures !IsEnd(s[k]) { assert s[k] == line[k]; }
    assert Ending(style, s, n, n + |Terminator(style)|) by {
      assert s[n] == Terminator(style)[0];
      assert n > 0 ==> s[n - 1] == line[n - 1];
    }
    assert found;
    EndingStarts(style, s, i, j);
    assert i == n;
    assert rest != [] ==> s[n + |Terminator(style)|] == rest[0];
    assert style == Any && n + 1 < |s| ==> !IsEnd(s[n + 1]);
  }

  /** A line written with CR, LF or both, in either order, is what evbuffer_readline reads back, unless what follows
      makes a pair with the ending. */
  lemma LineEndsWithPair(line: seq<Byte>, ending: seq<Byte>, rest: seq<Byte>)
    requires ending in [[CR], [LF], [CR, LF], [LF, CR]]
    requires |ending| == 1 && rest != [] ==> !IsEnd(rest[0]) || rest[0] == ending[0]
    ensures AfterLine(line + ending + rest, |line|) == |line| + |ending|
  {
    var s, n := line + ending + rest, |line|;
    assert s[n] == ending[0];
    assert n + 1 < |s| ==> s[n + 1] == if |ending| == 2 then ending[1] else rest[0];
  }

  lemma EndingStarts(style: Eol, s: seq<Byte>, i: nat, j: nat)
    requires Ending(style, s, i, j)
    ensures IsEnd(s[i])
  {}

  lemma NoEndBefore(s: seq<Byte>, i: nat)
    requires i <= |s| && forall k :: 0 <= k < i ==> !IsEnd(s[k])
    ensures forall a, b :: 0 <= a < i ==> !Ending(Any, s, a, b)
  {
    forall a, b | 0 <= a < i ensures !Ending(Any, s, a, b) { assert !IsEnd(s[a]); }
  }

  /** s is the line, its ending up to j, and the rest. */
  predicate Splits(s: seq<Byte>, line: seq<Byte>, j: nat, rest: seq<Byte>) {
    |line| <= j <= |s| && line == s[..|line|] && rest == s[j..]
  }

  lemma SplitsAt(s: seq<Byte>, line: seq<Byte>, j: nat, rest: seq<Byte>)
    requires |line| <= j <= |s| && line == s[0..|line|] && rest == if j == |s| then [] else s[j..]
    ensures Splits(s, line, j, rest)
  {}

  lemma NoByte(s: seq<Byte>, b: Byte, from: nat, to: nat)
    requires from <= to <= |s| && b !in s[from..to]
    ensures forall k :: from <= k < to ==> s[k] != b
  {
    forall k | from <= k < to ensures s[k] != b { assert s[from..to][k - from] == s[k]; }
  }

  /** The first LF, with a CR before it, is the first CR LF or LF. */
  lemma CrLfEnding(s: seq<Byte>, k: nat)
    requires k <= |s| && (k < |s| ==> s[k] == LF) && forall m :: 0 <= m < k ==> s[m] != LF
    ensures k == |s| ==> FirstEnding(CrLf, s, false, 0, 0)
    ensures k < |s| ==> FirstEnding(CrLf, s, true, if k > 0 && s[k - 1] == CR then k - 1 else k, k + 1)
  {
    forall a: nat, b: nat | Ending(CrLf, s, a, b) ensures b - 1 >= k { assert s[b - 1] == LF; }
  }

  predicate Occurs(s: seq<Byte>, what: seq<Byte>, i: nat) {
    i + |what| <= |s| && s[i..i + |what|] == what
  }

  lemma NoneLate(s: seq<Byte>, what: seq<Byte>, from: nat)
    requires from + |what| > |s|
    ensures forall k :: from <= k ==> !Occurs(s, what, k)
  {}

  lemma NoneWithout(s: seq<Byte>, what: seq<Byte>, from: nat, to: nat)
    requires what != [] && from <= to <= |s| && what[0] !in s[from..to]
    ensures forall k :: from <= k < to ==> !Occurs(s, what, k)
  {
    forall k | from <= k < to ensures !Occurs(s, what, k) {
      assert s[from..to][k - from] == s[k];
      if k + |what| <= |s| { assert s[k..k + |what|][0] == s[k]; }
    }
  }

  lemma SliceSlice(s: seq<Byte>, a: nat, b: nat, x: nat, y: nat)
    requires a <= b <= |s| && x <= y <= b - a
    ensures s[a..b][x..y] == s[a + x..a + y]
  {
    var t := s[a..b];
    forall k | 0 <= k < y - x ensures t[x..y][k] == s[a + x..a + y][k] {
      assert t[x..y][k] == t[x + k];
      assert t[x + k] == s[a + x + k];
    }
    assert |t[x..y]| == |s[a + x..a + y]|;
  }

  lemma Appended(s: seq<Byte>, t: seq<Byte>, at: nat, n: nat, bytes: seq<Byte>)
    requires at + n + |bytes| <= |s| == |t|
    requires forall k :: 0 <= k < |s| ==> t[k] == if at + n <= k < at + n + |bytes| then bytes[k - at - n] else s[k]
    ensures t[at..at + n + |bytes|] == s[at..at + n] + bytes
  {}
}
