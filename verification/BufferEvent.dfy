/** The reading side of evbuffer.c: watermarks put pressure on the reader, and a callback on the input buffer
    takes it off again. */
module BufferEvent {

  import opened Basics
  import opened EvBuffer

  /** What the reading side depends on. `pending` says the read event is added, `pressure` that the pressure
      callback is installed on the input buffer, `length` is that of the buffer. `broken` is set when a
      read ends in an error, end of file or timeout, and cleared when the read event is added again. */
  datatype Bev = Bev(enabled: bool, pending: bool, pressure: bool, length: nat, low: nat, high: nat, broken: bool)

  datatype Outcome = TimedOut | Again | Failed | Eof | Got(n: nat)

  function AddRead(b: Bev): (b': Bev) {
    b.(pending := true, broken := false)
  }

  /** bufferevent_read_pressure_cb */
  function Pressure(b: Bev): (b': Bev) {
    if b.high == 0 || b.length < b.high then
      var b1 := b.(pressure := false);
      if b.enabled then AddRead(b1) else b1
    else b
  }

  /** The length of the input buffer changes, and its callback is told. */
  function Resize(b: Bev, length: nat): (b': Bev) {
    var b1 := b.(length := length);
    if length != b.length && b.pressure then Pressure(b1) else b1
  }

  /** The most a read may bring: -1 for no limit */
  function HowMuch(b: Bev): (n: int) {
    if b.high != 0 then Int32(b.high - b.length) else -1
  }

  predicate Stops(b: Bev) {
    b.high != 0 && HowMuch(b) <= 0
  }

  /** The results that evbuffer_read can have */
  predicate Possible(b: Bev, o: Outcome) {
    o.Got? ==> o.n > 0 && (b.high != 0 ==> o.n <= HowMuch(b))
  }

  /** bufferevent_readcb after a read that brought n bytes */
  function Arrived(b: Bev, n: nat): (b': Bev) {
    var b1 := AddRead(Resize(b, b.length + n));
    if b1.low != 0 && b1.length < b1.low then b1
    else if b1.high != 0 && b1.length >= b1.high then b1.(pending := false, pressure := true)
    else b1
  }

  /** bufferevent_readcb; the event loop has taken the event off before the call. */
  function ReadCb(b: Bev, o: Outcome): (b': Bev) {
    var b0 := b.(pending := false);
    if o == TimedOut then b0.(broken := true)
    else if Stops(b) then b0.(pressure := true)
    else match o
      case Again => AddRead(b0)
      case Got(n) => Arrived(b0, n)
      case _ => b0.(broken := true)
  }

  /** What the user's callbacks are told */
  datatype Notice = Silent | DataReady | Trouble(what: Outcome)

  function Told(b: Bev, o: Outcome): (n: Notice) {
    if o == TimedOut then Trouble(o)
    else if Stops(b) then Silent
    else match o
      case Again => Silent
      case Got(n) => if b.low != 0 && b.length + n < b.low then Silent else DataReady
      case _ => Trouble(o)
  }

  /** bufferevent_enable and bufferevent_disable for reading */
  function Enable(b: Bev): (b': Bev) { AddRead(b).(enabled := true) }

  function Disable(b: Bev): (b': Bev) { b.(pending := false, enabled := false) }

  /** bufferevent_setwatermark for reading */
  function SetMarks(b: Bev, low: nat, high: nat): (b': Bev) {
    Pressure(b.(low := low, high := high))
  }

  /** Reading goes on: it is scheduled, or held back by a buffer that is full. */
  predicate Alert(b: Bev) {
    && (b.enabled && !b.broken ==> b.pending || b.pressure)
    && (b.pressure ==> 0 < b.high <= b.length)
  }

  /** No read has taken the buffer past its high mark. */
  predicate WithinMark(b: Bev, b': Bev) {
    b.high != 0 ==> b'.length == b.length || b'.length <= b.high
  }

  /** The difference to the mark keeps its sign when it becomes an int. */
  predicate Honest(b: Bev) {
    b.high != 0 ==> (Int32(b.high - b.length) <= 0 <==> b.high <= b.length)
  }

  lemma SmallIsHonest(b: Bev)
    requires b.high < 0x8000_0000 && b.length <= 0x8000_0000 + b.high
    ensures Honest(b)
  {}

  /** The callback keeps reading going, whatever the read brings, and never passes the mark, if and only if the
      difference to the mark fits an int. */
  lemma ReadCbKeeps(b: Bev)
    requires Alert(b) && b.pending
    ensures (forall o :: Possible(b, o) ==> Alert(ReadCb(b, o)) && WithinMark(b, ReadCb(b, o))) <==> Honest(b)
  {
    if Honest(b) {
      forall o | Possible(b, o) ensures Alert(ReadCb(b, o)) && WithinMark(b, ReadCb(b, o)) {
        if b.high > b.length { Int32Least(b.high - b.length); }
      }
    } else if b.length < b.high {
      assert Possible(b, Again) && !Alert(ReadCb(b, Again));
    } else {
      assert Possible(b, Got(1)) && !WithinMark(b, ReadCb(b, Got(1)));
    }
  }

  /** The user is told of data just when some has come and the low mark is reached, and of trouble just when reading has
      come to its end. */
  lemma ToldIff(b: Bev, o: Outcome)
    requires Possible(b, o) && !b.broken
    ensures var b' := ReadCb(b, o);
            && (Told(b, o).DataReady? <==> b'.length > b.length && b'.length >= b.low)
            && (Told(b, o).Trouble? <==> b'.broken) && (b'.broken ==> !b'.pending)
            && (b'.length > b.length ==>
                  (b'.pending <==> !(Told(b, o).DataReady? && b.high != 0 && b'.length >= b.high)))
  {
    hide Int32;
  }

  /** The pressure is taken off just when the buffer is below its mark again or has none any more, and reading goes on
      then if it is enabled. */
  lemma PressureEndsIff(b: Bev, length: nat, low: nat, high: nat)
    requires b.pressure
    ensures var b1 := Resize(b, length);
            length != b.length ==>
              && (b1.pressure <==> 0 < b.high <= length)
              && (b1.pending <==> b.pending || (!b1.pressure && b.enabled))
    ensures var b2 := SetMarks(b, low, high);
            && (b2.pressure <==> 0 < high <= b.length)
            && (b2.pending <==> b.pending || (!b2.pressure && b.enabled))
  {}

  lemma ReadCbSafe(b: Bev, o: Outcome)
    requires Alert(b) && b.pending && Possible(b, o)
    ensures Honest(b) ==> Alert(ReadCb(b, o)) && WithinMark(b, ReadCb(b, o))
  {
    hide Alert, Honest, WithinMark, Possible, ReadCb;
    ReadCbKeeps(b);
  }

  lemma GotSome(b: Bev, o: Outcome)
    requires o.Got? && Possible(b, o)
    ensures o.n > 0
  {
  }

  // ---------- Runs ----------

  datatype Op = OpRead(o: Outcome) | OpEnable | OpDisable | OpMarks(low: nat, high: nat) | OpResize(length: nat)

  predicate CanDo(b: Bev, op: Op) {
    op.OpRead? ==> b.pending && Possible(b, op.o)
  }

  function Do(b: Bev, op: Op): (b': Bev) {
    match op
    case OpRead(o) => ReadCb(b, o)
    case OpEnable => Enable(b)
    case OpDisable => Disable(b)
    case OpMarks(low, high) => SetMarks(b, low, high)
    case OpResize(length) => Resize(b, length)
  }

  /** The states a run passes through */
  predicate Run(bs: seq<Bev>, ops: seq<Op>) {
    |bs| == |ops| + 1 && forall i :: 0 <= i < |ops| ==> CanDo(bs[i], ops[i]) && bs[i + 1] == Do(bs[i], ops[i])
  }

  lemma DoKeeps(b: Bev, op: Op)
    requires Alert(b) && CanDo(b, op) && (op.OpRead? ==> Honest(b))
    ensures Alert(Do(b, op)) && (op.OpRead? ==> WithinMark(b, Do(b, op)))
  {
    if op.OpRead? { ReadCbKeeps(b); }
  }

  /** No wakeup is lost in any run: as long as each read callback finds the buffer within 2^31 bytes of its mark,
      reading that is enabled and has not failed is scheduled or held back by a full buffer. */
  lemma {:induction false} NoLostWakeup(bs: seq<Bev>, ops: seq<Op>, k: nat)
    requires Run(bs, ops) && k < |bs| && Alert(bs[0])
    requires forall i :: 0 <= i < |ops| && ops[i].OpRead? ==> Honest(bs[i])
    ensures Alert(bs[k])
    ensures k > 0 && ops[k - 1].OpRead? ==> WithinMark(bs[k - 1], bs[k])
  {
    if k > 0 {
      NoLostWakeup(bs, ops, k - 1);
      DoKeeps(bs[k - 1], ops[k - 1]);
    }
  }

  /** Reading is scheduled only while it is enabled, in every run that starts so: nothing is read while it is not. */
  lemma {:induction false} DisabledIsQuiet(bs: seq<Bev>, ops: seq<Op>, k: nat)
    requires Run(bs, ops) && k < |bs| && (bs[0].pending ==> bs[0].enabled)
    ensures bs[k].pending ==> bs[k].enabled
    ensures k < |ops| && ops[k].OpRead? ==> bs[k].enabled
  {
    hide Int32;
    if k > 0 {
      DisabledIsQuiet(bs, ops, k - 1);
      assert CanDo(bs[k - 1], ops[k - 1]);
    }
    if k < |ops| { assert CanDo(bs[k], ops[k]); }
  }

  /** Operations that do not start reading anew: it is not enabled again, and given no other marks. */
  predicate NoRestart(ops: seq<Op>) {
    forall i :: 0 <= i < |ops| ==> !ops[i].OpEnable? && !ops[i].OpMarks?
  }

  /** After a timeout, an error or the end of the file nothing is read any more until reading is started anew; what is
      in the buffer can still be taken out. */
  lemma {:induction false} EndIsFinal(b: Bev, o: Outcome, bs: seq<Bev>, ops: seq<Op>, k: nat)
    requires Possible(b, o) && !b.broken && !b.pressure && Told(b, o).Trouble?
    requires Run(bs, ops) && bs[0] == ReadCb(b, o) && NoRestart(ops) && k < |bs|
    ensures bs[k].broken && !bs[k].pending && !bs[k].pressure
    ensures k < |ops| ==> !ops[k].OpRead?
  {
    hide Int32;
    if k > 0 {
      EndIsFinal(b, o, bs, ops, k - 1);
      assert CanDo(bs[k - 1], ops[k - 1]) && !ops[k - 1].OpEnable? && !ops[k - 1].OpMarks?;
    }
    if k < |ops| { assert CanDo(bs[k], ops[k]); }
  }

  /** Operations of a caller that waits for data: read callbacks, and taking bytes out of the buffer. */
  predicate Waits(bs: seq<Bev>, ops: seq<Op>)
    requires |bs| == |ops| + 1
  {
    forall i :: 0 <= i < |ops| ==> ops[i].OpRead? || (ops[i].OpResize? && ops[i].length <= bs[i].length)
  }

  /** With a high mark that the conversion to int makes negative, such as 2^31, and an empty buffer, the first callback
      stops reading whatever has arrived, and no run of a caller that waits for data ever starts it again. */
  lemma HugeMarkStalls(low: nat, high: nat, o: Outcome, bs: seq<Bev>, ops: seq<Op>)
    requires high > 0 && Int32(high) <= 0 && o != TimedOut
    requires var b := Enable(SetMarks(Bev(false, false, false, 0, 0, 0, false), low, high));
             Run(bs, ops) && bs[0] == ReadCb(b, o) && Waits(bs, ops)
    ensures var b := Enable(SetMarks(Bev(false, false, false, 0, 0, 0, false), low, high)); Alert(b) && b.pending
    ensures forall k :: 0 <= k < |bs| ==>
              bs[k].enabled && !bs[k].broken && !bs[k].pending && bs[k].length == 0 && !Alert(bs[k])
  {
    var b := bs[0];
    assert b == Bev(true, false, true, 0, low, high, false);
    forall k | 0 <= k < |bs| ensures bs[k] == b { StaysStalled(b, bs, ops, k); }
  }

  lemma {:induction false} StaysStalled(b: Bev, bs: seq<Bev>, ops: seq<Op>, k: nat)
    requires Run(bs, ops) && Waits(bs, ops) && k < |bs| && bs[0] == b && !b.pending && b.length == 0
    ensures bs[k] == b
  {
    if k > 0 {
      StaysStalled(b, bs, ops, k - 1);
      assert CanDo(bs[k - 1], ops[k - 1]);
    }
  }

  // ---------- In place ----------

  /** struct bufferevent: the input buffer with the callback on it, the read event and the marks. */
  class Bufferevent {
    const input: Buffer
    var enabled: bool
    var pending: bool
    var pressure: bool
    var low: nat
    var high: nat
    ghost var broken: bool

    ghost function Abs(): (b: Bev)
      reads this, input
    {
      Bev(enabled, pending, pressure, input.off, low, high, broken)
    }

    /** The buffer is well formed and no wakeup is lost. */
    ghost predicate Valid()
      reads this, input
    {
      input.Valid() && Alert(Abs())
    }

    constructor ()
      ensures Valid() && fresh(input) && fresh(input.data) && input.Contents() == [] && !enabled
    {
      input := new Buffer();
      enabled, pending, pressure, low, high, broken := false, false, false, 0, 0, false;
    }

    /** bufferevent_read_pressure_cb, which evbuffer calls when it is installed and the buffer has changed */
    method Changed(told: bool)
      requires input.Valid()
      modifies this
      ensures Abs() == if told && old(pressure) then Pressure(old(Abs())) else old(Abs())
    {
      if told && pressure && (high == 0 || input.off < high) {
        pressure := false;
        if enabled { pending, broken := true, false; }
      }
    }

    /** bufferevent_readcb, with the bytes that a successful read brings. They are appended to the buffer, unless
        reading stops; and no wakeup is lost if the difference to the mark fits an int. */
    method ReadCallback(o: Outcome, bytes: seq<Byte>) returns (notice: Notice)
      requires Valid() && pending && Possible(Abs(), o)
      requires o.Got? ==> |bytes| == o.n <= SIZE_MAX - input.off
      modifies this, input, input.data
      ensures input.Valid() && (input.data == old(input.data) || fresh(input.data))
      ensures Abs() == ReadCb(old(Abs()), o) && notice == Told(old(Abs()), o)
      ensures input.Contents() == old(input.Contents()) + if o.Got? && !old(Stops(Abs())) then bytes else []
      ensures old(Honest(Abs())) ==> Valid() && WithinMark(old(Abs()), Abs())
    {
      hide Int32, Alert, Honest, WithinMark, Possible, Arrived;
      ghost var b := Abs();
      pending := false;
      notice := Silent;
      if o == TimedOut {
        broken, notice := true, Trouble(o);
      } else if high != 0 && Int32(high - input.off) <= 0 {
        pressure := true;
      } else if o.Got? {
        GotSome(b, o);
        var ready := Received(bytes);
        if ready { notice := DataReady; }
      } else if o == Again {
        pending, broken := true, false;
      } else {
        broken, notice := true, Trouble(o);
      }
      ReadCbSafe(b, o);
    }

    method Append(bytes: seq<Byte>) returns (told: bool)
      requires input.Valid() && |bytes| <= SIZE_MAX - input.off
      modifies input, input.data
      ensures input.Valid() && (input.data == old(input.data) || fresh(input.data))
      ensures input.Contents() == old(input.Contents()) + bytes && input.off == old(input.off) + |bytes|
      ensures told <==> bytes != []
    {
      var res;
      res, told := input.Add(bytes);
      assert |input.Contents()| == input.off && |old(input.Contents())| == old(input.off);
    }

    /** The bytes of a read go into the buffer, the read event is added again, and taken off if the mark is reached. */
    method Received(bytes: seq<Byte>) returns (ready: bool)
      requires input.Valid() && 0 < |bytes| <= SIZE_MAX - input.off
      modifies this, input, input.data
      ensures input.Valid() && (input.data == old(input.data) || fresh(input.data))
      ensures input.Contents() == old(input.Contents()) + bytes
      ensures Abs() == Arrived(old(Abs()), |bytes|) && ready == old(low == 0 || input.off + |bytes| >= low)
    {
      hide Buffer.Contents;
      var told := Append(bytes);
      Changed(told);
      pending, broken := true, false;
      ready := low == 0 || input.off >= low;
      if ready && high != 0 && input.off >= high {
        pending, pressure := false, true;
      }
    }

    /** bufferevent_enable for reading */
    method EnableReading()
      requires Valid()
      modifies this
      ensures Valid() && Abs() == Enable(old(Abs()))
    {
      pending, broken, enabled := true, false, true;
    }

    /** bufferevent_disable for reading */
    method DisableReading()
      requires Valid()
      modifies this
      ensures Valid() && Abs() == Disable(old(Abs()))
    {
      pending, enabled := false, false;
    }

    /** bufferevent_setwatermark for reading; the pressure callback is then called directly. */
    method SetWatermark(lo: nat, hi: nat)
      requires Valid()
      modifies this
      ensures Valid() && Abs() == SetMarks(old(Abs()), lo, hi)
    {
      low, high := lo, hi;
      if high == 0 || input.off < high {
        pressure := false;
        if enabled { pending, broken := true, false; }
      }
    }

    /** bufferevent_read: up to n bytes are taken from the front of the input buffer, and reading that a full buffer
        held back starts again when it is no longer full. */
    method Read(n: nat) returns (bytes: seq<Byte>)
      requires Valid()
      modifies this, input
      ensures Valid() && input.data == old(input.data)
      ensures |bytes| == (if old(input.off) < n then old(input.off) else n)
      ensures old(input.Contents()) == bytes + input.Contents()
      ensures Abs() == Resize(old(Abs()), old(input.off) - |bytes|)
    {
      bytes := Take(n);
      Changed(bytes != []);
    }

    /** The bytes leave the buffer, which tells its callback if there are any. */
    method Take(n: nat) returns (bytes: seq<Byte>)
      requires input.Valid()
      modifies input
      ensures input.Valid() && input.data == old(input.data)
      ensures |bytes| == (if old(input.off) < n then old(input.off) else n)
      ensures old(input.Contents()) == bytes + input.Contents() && input.off == old(input.off) - |bytes|
    {
      var size := if input.off < n then input.off else n;
      bytes := input.data[input.misalign..input.misalign + size];
      if size != 0 {
        var told := input.Drain(size);
        assert input.off == |input.Contents()|;
      }
    }
  }
}
