/** The epoll and /dev/poll backends of the event loop: both keep a table of the events of each file descriptor and
    make the kernel watch exactly what the table asks for. */
module Backends {

  import opened Basics

  datatype Dir = In | Out

  /** An event that waits for reading, for writing or for both */
  datatype Ev = Ev(id: nat, fd: nat, read: bool, write: bool)

  predicate Waits(e: Ev) {
    e.read || e.write
  }

  /** struct evepoll and struct evdevpoll: who waits for reading and who for writing */
  datatype Slot = Slot(read: Option<nat>, write: Option<nat>)

  const FREE := Slot(None, None)

  function SlotAt(fds: seq<Slot>, fd: nat): (s: Slot) {
    if fd < |fds| then fds[fd] else FREE
  }

  function Dirs(read: bool, write: bool): (d: set<Dir>) {
    (if read then {In} else {}) + (if write then {Out} else {})
  }

  function Mask(s: Slot): (d: set<Dir>) {
    Dirs(s.read.Some?, s.write.Some?)
  }

  /** The kernel's set: what it watches for the file descriptors it knows */
  type Kernel = map<nat, set<Dir>>

  function Watched(k: Kernel, fd: nat): (d: set<Dir>) {
    if fd in k then k[fd] else {}
  }

  // ---------- The specification: interest per file descriptor ----------

  function Want(fds: seq<Slot>, fd: nat): (d: set<Dir>) {
    Mask(SlotAt(fds, fd))
  }

  /** The kernel watches what the table asks for. */
  ghost predicate Agree(fds: seq<Slot>, k: Kernel) {
    forall fd :: Watched(k, fd) == Want(fds, fd)
  }

  /** The table after an event has been added, and after it has been deleted */
  function AddSlot(s: Slot, e: Ev): (s': Slot) {
    Slot(if e.read then Some(e.id) else s.read, if e.write then Some(e.id) else s.write)
  }

  function DelSlot(s: Slot, e: Ev): (s': Slot) {
    Slot(if e.read then None else s.read, if e.write then None else s.write)
  }

  lemma AddAsks(s: Slot, e: Ev)
    ensures Mask(AddSlot(s, e)) == Mask(s) + Dirs(e.read, e.write)
  {}

  /** An added event is asked for in its directions, a deleted one in none of them; and where no other event waits,
      deleting undoes adding. */
  lemma DelUndoesAdd(s: Slot, e: Ev)
    ensures Dirs(e.read, e.write) <= Mask(AddSlot(s, e)) && Dirs(e.read, e.write) !! Mask(DelSlot(s, e))
    ensures Mask(s) - Dirs(e.read, e.write) == Mask(DelSlot(s, e))
    ensures (e.read ==> s.read.None?) && (e.write ==> s.write.None?) ==> DelSlot(AddSlot(s, e), e) == s
  {}

  /** epoll_recalc and devpoll_recalc: doubling until the table has a slot for max */
  method Recalc(fds: seq<Slot>, max: nat) returns (r: seq<Slot>)
    requires |fds| > 0
    ensures max < |r| && fds <= r && forall k :: |fds| <= k < |r| ==> r[k] == FREE
  {
    r := fds;
    if max >= |fds| {
      var n := |fds|;
      while n <= max
        invariant n >= |fds|
        decreases max - n
      {
        n := n * 2;
      }
      r := fds + seq(n - |fds|, _ => FREE);
    }
  }

  // ---------- epoll ----------

  datatype Ctl = CtlAdd | CtlMod | CtlDel

  /** epoll_ctl refuses to add what is there and to change what is not. */
  predicate Accepts(k: Kernel, op: Ctl, fd: nat) {
    op == CtlAdd <==> fd !in k
  }

  function Control(k: Kernel, op: Ctl, fd: nat, d: set<Dir>): (k': Kernel) {
    if op == CtlDel then k - {fd} else k[fd := d]
  }

  /** The kernel knows just the file descriptors with an event, and watches what the events ask for. */
  predicate EpollOk(fds: seq<Slot>, k: Kernel) {
    && |fds| > 0
    && (forall fd :: 0 <= fd < |fds| ==> (fd in k <==> Mask(fds[fd]) != {}) && Watched(k, fd) == Mask(fds[fd]))
    && (forall fd :: fd in k ==> fd < |fds|)
  }

  /** What the kernel is told about one file descriptor keeps the table and the kernel in step. */
  lemma EpollKept(fds: seq<Slot>, k: Kernel, fd: nat, s: Slot, op: Ctl, d: set<Dir>)
    requires EpollOk(fds, k) && fd < |fds| && d == Mask(s) && (op == CtlDel <==> d == {})
    ensures EpollOk(fds[fd := s], Control(k, op, fd, d))
  {
    hide Dirs, Mask;
    var fds', k' := fds[fd := s], Control(k, op, fd, d);
    forall x | 0 <= x < |fds'| ensures (x in k' <==> Mask(fds'[x]) != {}) && Watched(k', x) == Mask(fds'[x]) {
      assert x != fd ==> fds'[x] == fds[x] && Watched(k', x) == Watched(k, x);
    }
  }

  lemma EpollGrown(fds: seq<Slot>, k: Kernel, r: seq<Slot>)
    requires EpollOk(fds, k) && fds <= r && forall x :: |fds| <= x < |r| ==> r[x] == FREE
    ensures EpollOk(r, k) && forall x :: SlotAt(r, x) == SlotAt(fds, x)
  {
    forall x | 0 <= x < |r| ensures (x in k <==> Mask(r[x]) != {}) && Watched(k, x) == Mask(r[x]) {
      assert x < |fds| ==> r[x] == fds[x];
    }
  }

  lemma EpollWatches(fds: seq<Slot>, k: Kernel)
    requires EpollOk(fds, k)
    ensures Agree(fds, k)
  {
    forall fd: nat ensures Watched(k, fd) == Want(fds, fd) { if fd >= |fds| { assert fd !in k; } }
  }

  lemma MaskIs(s: Slot)
    ensures (Mask(s) == {} <==> s == FREE) && (In in Mask(s) <==> s.read.Some?) && (Out in Mask(s) <==> s.write.Some?)
  {}

  class Epoll {
    var fds: seq<Slot>
    ghost var kernel: Kernel

    ghost predicate Valid()
      reads this
    {
      EpollOk(fds, kernel)
    }

    constructor ()
      ensures Valid() && forall fd :: SlotAt(fds, fd) == FREE
    {
      fds, kernel := seq(32, _ => FREE), map[];
    }

    /** epoll_ctl, called only as the kernel accepts it */
    method EpollCtl(op: Ctl, fd: nat, events: set<Dir>)
      requires Accepts(kernel, op, fd)
      modifies this`kernel
      ensures kernel == Control(old(kernel), op, fd, events)
    {
      kernel := Control(kernel, op, fd, events);
    }

    /** epoll_add */
    method AddEvent(e: Ev)
      requires Valid() && Waits(e)
      modifies this
      ensures Valid() && SlotAt(fds, e.fd) == AddSlot(old(SlotAt(fds, e.fd)), e)
      ensures forall fd :: fd != e.fd ==> SlotAt(fds, fd) == old(SlotAt(fds, fd))
      ensures Agree(fds, kernel)
    {
      hide EpollOk, Mask, Agree;
      EpollSize(fds, kernel);
      fds := Recalc(fds, e.fd);
      EpollGrown(old(fds), kernel, fds);
      var s := fds[e.fd];
      var op := if s.read.Some? || s.write.Some? then CtlMod else CtlAdd;
      var events := Mask(s) + Dirs(e.read, e.write);
      AddAsks(s, e);
      MaskIs(s);
      MaskIs(AddSlot(s, e));
      EpollKnows(fds, kernel, e.fd);
      EpollKept(fds, kernel, e.fd, AddSlot(s, e), op, events);
      EpollCtl(op, e.fd, events);
      fds := fds[e.fd := AddSlot(s, e)];
      EpollWatches(fds, kernel);
    }

    /** epoll_del. The kernel refuses the call just when it watches nothing for the file descriptor. */
    method DelEvent(e: Ev) returns (res: int)
      requires Valid() && Waits(e)
      modifies this
      ensures Valid() && SlotAt(fds, e.fd) == DelSlot(old(SlotAt(fds, e.fd)), e)
      ensures forall fd :: fd != e.fd ==> SlotAt(fds, fd) == old(SlotAt(fds, fd))
      ensures Agree(fds, kernel)
      ensures res == if e.fd < old(|fds|) && old(Want(fds, e.fd)) == {} then -1 else 0
    {
      hide EpollOk, Mask, Agree;
      EpollWatches(fds, kernel);
      if e.fd >= |fds| { return 0; }
      var s := fds[e.fd];
      var op, events, needRead, needWrite := CtlDel, Dirs(e.read, e.write), true, true;
      if !(e.read && e.write) {
        if e.read && s.write.Some? {
          needWrite, events, op := false, {Out}, CtlMod;
        } else if e.write && s.read.Some? {
          needRead, events, op := false, {In}, CtlMod;
        }
      }
      MaskIs(s);
      fds := fds[e.fd := Slot(if needRead then None else s.read, if needWrite then None else s.write)];
      assert fds[e.fd] == DelSlot(s, e);
      if s == FREE {
        assert fds == old(fds);
        return -1;
      }
      EpollKnows(old(fds), kernel, e.fd);
      Left(s, e);
      EpollKept(old(fds), kernel, e.fd, DelSlot(s, e), op, if op == CtlDel then {} else events);
      EpollCtl(op, e.fd, events);
      EpollWatches(fds, kernel);
      return 0;
    }
  }

  lemma EpollSize(fds: seq<Slot>, k: Kernel)
    requires EpollOk(fds, k)
    ensures |fds| > 0
  {}

  lemma EpollKnows(fds: seq<Slot>, k: Kernel, fd: nat)
    requires EpollOk(fds, k) && fd < |fds|
    ensures fd in k <==> fds[fd] != FREE
  {}

  /** What is still asked for when an event is deleted */
  lemma Left(s: Slot, e: Ev)
    requires Waits(e)
    ensures Mask(DelSlot(s, e))
         == if e.read && e.write then {} else if e.read && s.write.Some? then {Out}
            else if e.write && s.read.Some? then {In} else {}
  {}

  // ---------- /dev/poll ----------

  /** A change of the driver's set; None is POLLREMOVE. */
  datatype Change = Change(fd: nat, dirs: Option<set<Dir>>)

  /** The driver adds what it is asked to watch to what it watches already. */
  function Apply1(k: Kernel, c: Change): (k': Kernel) {
    if c.dirs.None? then k - {c.fd} else k[c.fd := Watched(k, c.fd) + c.dirs.value]
  }

  function Apply(k: Kernel, cs: seq<Change>): (k': Kernel) {
    if cs == [] then k else Apply1(Apply(k, cs[..|cs| - 1]), cs[|cs| - 1])
  }

  /** What the driver will watch when the changes that wait are written is what the table asks for. */
  ghost predicate DevpollOk(fds: seq<Slot>, k: Kernel, cs: seq<Change>) {
    |fds| > 0 && Agree(fds, Apply(k, cs))
  }

  lemma AddAgrees(fds: seq<Slot>, k: Kernel, e: Ev)
    requires Agree(fds, k) && e.fd < |fds|
    ensures Agree(fds[e.fd := AddSlot(fds[e.fd], e)], Apply1(k, Change(e.fd, Some(Dirs(e.read, e.write)))))
  {
    var fds' := fds[e.fd := AddSlot(fds[e.fd], e)];
    var k' := Apply1(k, Change(e.fd, Some(Dirs(e.read, e.write))));
    forall fd: nat ensures Watched(k', fd) == Want(fds', fd) {
      AddAsks(fds[e.fd], e);
      assert Watched(k, fd) == Want(fds, fd);
      assert fd != e.fd ==> SlotAt(fds', fd) == SlotAt(fds, fd) && Watched(k', fd) == Watched(k, fd);
    }
  }

  /** Removing a file descriptor and adding again the direction that stays leaves what the table asks for. */
  lemma DelAgrees(fds: seq<Slot>, k: Kernel, e: Ev)
    requires Agree(fds, k) && e.fd < |fds| && Waits(e)
    ensures var fds' := fds[e.fd := DelSlot(fds[e.fd], e)];
            var k' := Apply1(k, Change(e.fd, None));
            if Want(fds', e.fd) == {} then Agree(fds', k')
            else Agree(fds', Apply1(k', Change(e.fd, Some(Want(fds', e.fd)))))
  {
    var fds' := fds[e.fd := DelSlot(fds[e.fd], e)];
    var k' := Apply1(k, Change(e.fd, None));
    var k2 := if Want(fds', e.fd) == {} then k' else Apply1(k', Change(e.fd, Some(Want(fds', e.fd))));
    forall fd: nat ensures Watched(k2, fd) == Want(fds', fd) {
      assert Watched(k, fd) == Want(fds, fd);
      assert fd != e.fd ==> SlotAt(fds', fd) == SlotAt(fds, fd) && Watched(k2, fd) == Watched(k, fd);
    }
  }

  lemma GrowAgrees(fds: seq<Slot>, fds': seq<Slot>, k: Kernel)
    requires Agree(fds, k) && fds <= fds' && forall j :: |fds| <= j < |fds'| ==> fds'[j] == FREE
    ensures Agree(fds', k)
  {
    forall fd: nat ensures Watched(k, fd) == Want(fds', fd) {
      assert Watched(k, fd) == Want(fds, fd) && SlotAt(fds', fd) == SlotAt(fds, fd);
    }
  }

  class Devpoll {
    var fds: seq<Slot>
    const changes: array<Change>
    var nchanges: nat
    ghost var kernel: Kernel

    /** The changes that wait never outgrow their array. */
    ghost predicate Valid()
      reads this, changes
    {
      nchanges <= changes.Length && changes.Length > 0 && DevpollOk(fds, kernel, changes[..nchanges])
    }

    ghost function Pending(): (cs: seq<Change>)
      requires nchanges <= changes.Length
      reads this, changes
    {
      changes[..nchanges]
    }

    constructor (nfiles: nat)
      requires nfiles > 0
      ensures Valid() && fresh(changes) && forall fd :: SlotAt(fds, fd) == FREE
    {
      fds, changes, nchanges, kernel := seq(nfiles, _ => FREE), new Change[nfiles](_ => Change(0, None)), 0, map[];
    }

    /** devpoll_commit */
    method Commit()
      requires nchanges <= changes.Length
      modifies this`nchanges, this`kernel
      ensures nchanges == 0 && kernel == old(Apply(kernel, changes[..nchanges])) && Apply(kernel, Pending()) == kernel
    {
      kernel := Apply(kernel, changes[..nchanges]);
      nchanges := 0;
    }

    /** devpoll_queue */
    method Queue(c: Change)
      requires nchanges <= changes.Length && changes.Length > 0
      modifies this`nchanges, this`kernel, changes
      ensures nchanges <= changes.Length
      ensures Apply(kernel, Pending()) == Apply1(old(Apply(kernel, Pending())), c)
    {
      if nchanges >= changes.Length { Commit(); }
      ghost var cs := Pending();
      changes[nchanges] := c;
      nchanges := nchanges + 1;
      assert Pending() == cs + [c] && (cs + [c])[..|cs|] == cs;
    }

    /** devpoll_add; it refuses a second event for the same direction. */
    method AddEvent(e: Ev) returns (res: int)
      requires Valid() && Waits(e)
      modifies this, changes
      ensures Valid()
      ensures var s := old(SlotAt(fds, e.fd));
              if NoClash(s, e) then res == 0 && SlotAt(fds, e.fd) == AddSlot(s, e)
              else res == -1 && SlotAt(fds, e.fd) == s
      ensures forall fd :: fd != e.fd ==> SlotAt(fds, fd) == old(SlotAt(fds, fd))
    {
      hide Apply, Agree, AddSlot;
      ghost var k := Apply(kernel, Pending());
      if e.fd >= |fds| { fds := Recalc(fds, e.fd); }
      GrowAgrees(old(fds), fds, k);
      AddAgrees(fds, k, e);
      var s := fds[e.fd];
      if e.read && s.read.Some? && s.read.value != e.id { return -1; }
      if e.write && s.write.Some? && s.write.value != e.id { return -1; }
      var events := Dirs(e.read, e.write);
      Queue(Change(e.fd, Some(events)));
      fds := fds[e.fd := AddSlot(s, e)];
      return 0;
    }

    /** devpoll_del: the file descriptor is removed, and the other direction added again if it has an event. */
    method DelEvent(e: Ev)
      requires Valid() && Waits(e)
      modifies this, changes
      ensures Valid() && SlotAt(fds, e.fd) == DelSlot(old(SlotAt(fds, e.fd)), e)
      ensures forall fd :: fd != e.fd ==> SlotAt(fds, fd) == old(SlotAt(fds, fd))
    {
      hide Apply, Agree, Apply1;
      if e.fd >= |fds| { return; }
      var s := fds[e.fd];
      DelAgrees(fds, Apply(kernel, Pending()), e);
      var needRead, needWrite := true, true;
      Queue(Change(e.fd, None));
      if !(e.read && e.write) {
        if e.read && s.write.Some? {
          Queue(Change(e.fd, Some({Out})));
          needWrite := false;
        } else if e.write && s.read.Some? {
          Queue(Change(e.fd, Some({In})));
          needRead := false;
        }
      }
      fds := fds[e.fd := Slot(if needRead then None else s.read, if needWrite then None else s.write)];
      assert fds[e.fd] == DelSlot(s, e);
      assert Want(fds, e.fd) == if !needWrite then {Out} else if !needRead then {In} else {};
    }

    /** devpoll_dispatch writes the changes before it polls: the driver then watches what the table asks for. */
    method Flush()
      requires Valid()
      modifies this`nchanges, this`kernel
      ensures Valid() && fds == old(fds) && Agree(fds, kernel)
    {
      assert nchanges == 0 ==> Pending() == [];
      if nchanges != 0 { Commit(); }
    }
  }

  // ---------- Both do the same ----------

  datatype Op = OpAdd(e: Ev) | OpDel(e: Ev)

  /** epoll's table after an operation: the last event added for a direction has it. */
  function EpollStep(s: Slot, op: Op, fd: nat): (s': Slot) {
    if op.e.fd != fd then s else if op.OpAdd? then AddSlot(s, op.e) else DelSlot(s, op.e)
  }

  /** No event is added for a direction in which another one waits. */
  predicate NoClash(s: Slot, e: Ev) {
    (e.read && s.read.Some? ==> s.read.value == e.id) && (e.write && s.write.Some? ==> s.write.value == e.id)
  }

  /** The table of /dev/poll: an event that clashes with another is refused. */
  function DevpollStep(s: Slot, op: Op, fd: nat): (s': Slot) {
    if op.OpAdd? && op.e.fd == fd && !NoClash(s, op.e) then s else EpollStep(s, op, fd)
  }

  /** Who waits on a file descriptor after a list of operations */
  function EpollAfter(ops: seq<Op>, fd: nat): (s: Slot) {
    if ops == [] then FREE else EpollStep(EpollAfter(ops[..|ops| - 1], fd), ops[|ops| - 1], fd)
  }

  function DevpollAfter(ops: seq<Op>, fd: nat): (s: Slot) {
    if ops == [] then FREE else DevpollStep(DevpollAfter(ops[..|ops| - 1], fd), ops[|ops| - 1], fd)
  }

  /** The operation is about reading, or about writing, of the file descriptor. */
  predicate Touches(op: Op, fd: nat, dir: Dir) {
    op.e.fd == fd && if dir == In then op.e.read else op.e.write
  }

  function Waiter(s: Slot, dir: Dir): (id: Option<nat>) {
    if dir == In then s.read else s.write
  }

  /** Whoever was added last for a direction is the one that is woken, until it is deleted. */
  lemma {:induction false} LastAddedWaits(ops: seq<Op>, fd: nat, dir: Dir, k: nat)
    requires k < |ops| && Touches(ops[k], fd, dir) && forall j :: k < j < |ops| ==> !Touches(ops[j], fd, dir)
    ensures Waiter(EpollAfter(ops, fd), dir) == if ops[k].OpAdd? then Some(ops[k].e.id) else None
  {
    if k < |ops| - 1 {
      LastAddedWaits(ops[..|ops| - 1], fd, dir, k);
      assert !Touches(ops[|ops| - 1], fd, dir);
    }
  }

  /** One event per direction at any time */
  predicate Orderly(ops: seq<Op>) {
    forall k :: 0 <= k < |ops| && ops[k].OpAdd? ==> NoClash(EpollAfter(ops[..k], ops[k].e.fd), ops[k].e)
  }

  /** The two tables are the same after each of the operations. */
  ghost predicate AlwaysAgree(ops: seq<Op>) {
    forall k, fd :: 0 <= k <= |ops| && 0 <= fd ==> EpollAfter(ops[..k], fd) == DevpollAfter(ops[..k], fd)
  }

  /** A clash makes the tables differ at once. */
  lemma ClashDiffers(s: Slot, op: Op)
    ensures op.OpAdd? ==> (EpollStep(s, op, op.e.fd) == DevpollStep(s, op, op.e.fd) <==> NoClash(s, op.e))
  {
  }

  lemma {:induction false} OrderlyAgrees(ops: seq<Op>, k: nat, fd: nat)
    requires Orderly(ops) && k <= |ops|
    ensures EpollAfter(ops[..k], fd) == DevpollAfter(ops[..k], fd)
  {
    if k > 0 {
      OrderlyAgrees(ops, k - 1, fd);
      assert ops[..k][..k - 1] == ops[..k - 1];
      assert ops[k - 1].OpAdd? ==> NoClash(EpollAfter(ops[..k - 1], ops[k - 1].e.fd), ops[k - 1].e);
    }
  }

  /** The two backends keep the same table through a list of operations if and only if no event is ever added for a
      direction in which another one waits. */
  lemma AgreeIffOrderly(ops: seq<Op>)
    ensures AlwaysAgree(ops) <==> Orderly(ops)
  {
    hide EpollStep, DevpollStep, NoClash;
    if Orderly(ops) {
      forall k, fd | 0 <= k <= |ops| && 0 <= fd ensures EpollAfter(ops[..k], fd) == DevpollAfter(ops[..k], fd) {
        OrderlyAgrees(ops, k, fd);
      }
    } else {
      var k :| 0 <= k < |ops| && ops[k].OpAdd? && !NoClash(EpollAfter(ops[..k], ops[k].e.fd), ops[k].e);
      var fd := ops[k].e.fd;
      var s := EpollAfter(ops[..k], fd);
      assert ops[..k + 1][..k] == ops[..k];
      ClashDiffers(s, ops[k]);
      assert EpollAfter(ops[..k + 1], fd) == EpollStep(s, ops[k], fd);
      assert DevpollAfter(ops[..k + 1], fd) == DevpollStep(DevpollAfter(ops[..k], fd), ops[k], fd);
    }
  }

  /** A second event that waits for reading replaces the first one with epoll, and is refused by /dev/poll. */
  lemma SecondReader(fd: nat)
    ensures var ops := [OpAdd(Ev(1, fd, true, false)), OpAdd(Ev(2, fd, true, false))];
            && !Orderly(ops)
            && EpollAfter(ops, fd) == Slot(Some(2), None) && DevpollAfter(ops, fd) == Slot(Some(1), None)
  {
    var a, b := OpAdd(Ev(1, fd, true, false)), OpAdd(Ev(2, fd, true, false));
    var ops := [a, b];
    assert ops[..1] == [a] && [a][..0] == [];
    assert EpollAfter([a], fd) == Slot(Some(1), None) && DevpollAfter([a], fd) == Slot(Some(1), None);
    assert ops[1].OpAdd? && !NoClash(EpollAfter(ops[..1], ops[1].e.fd), ops[1].e);
  }

  /** After any operations each backend has the table said above, and both kernels watch exactly the directions in which
      an event of their table waits. */
  method Replay(ops: seq<Op>, nfiles: nat) returns (epoll: Epoll, devpoll: Devpoll)
    requires nfiles > 0 && forall k :: 0 <= k < |ops| ==> Waits(ops[k].e)
    ensures forall fd :: SlotAt(epoll.fds, fd) == EpollAfter(ops, fd)
    ensures forall fd :: SlotAt(devpoll.fds, fd) == DevpollAfter(ops, fd)
    ensures forall fd :: Watched(epoll.kernel, fd) == Mask(EpollAfter(ops, fd))
    ensures forall fd :: Watched(devpoll.kernel, fd) == Mask(DevpollAfter(ops, fd))
  {
    hide AddSlot, DelSlot, EpollOk, DevpollOk;
    epoll := new Epoll();
    devpoll := new Devpoll(nfiles);
    var i := 0;
    while i < |ops|
      invariant 0 <= i <= |ops| && epoll.Valid() && devpoll.Valid()
      invariant fresh(epoll) && fresh(devpoll) && fresh(devpoll.changes)
      invariant forall fd :: SlotAt(epoll.fds, fd) == EpollAfter(ops[..i], fd)
      invariant forall fd :: SlotAt(devpoll.fds, fd) == DevpollAfter(ops[..i], fd)
    {
      assert ops[..i + 1][..i] == ops[..i];
      var e := ops[i].e;
      if ops[i].OpAdd? {
        epoll.AddEvent(e);
        var r := devpoll.AddEvent(e);
      } else {
        var r := epoll.DelEvent(e);
        devpoll.DelEvent(e);
      }
      i := i + 1;
    }
    assert ops[..i] == ops;
    devpoll.Flush();
    EpollWatches(epoll.fds, epoll.kernel);
  }
}
