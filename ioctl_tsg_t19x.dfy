/** The t19x TSG ioctls: BIND_CHANNEL_EX request validation and the command
    dispatcher. BindChannelEx takes the scheduler control lock, a power
    reference (gk20a_busy) and a channel reference, validates the dynamic
    TPC power-gating request and the subcontext id, updates the group's and
    the channel's t19x fields, calls the bind HAL, and releases what it took
    in reverse order on every path.

    The outcomes of gk20a_busy, of the fd-to-channel lookup and of the bind
    HAL are inputs. Each resource taken, each release and the bind HAL call
    are recorded in a ghost trace of the GPU; a gk20a_busy or a lookup that
    fails takes nothing and records no event. */
module IoctlTsgT19x {
  import opened KernelTypes

  /** Subcontext (VEID) 0, the synchronous one. */
  const CHANNEL_INFO_VEID0: u32 := 0

  /** NVGPU_TSG_IOCTL_BIND_CHANNEL_EX: _IOWR('T', 11, 24-byte argument). */
  const NVGPU_TSG_IOCTL_BIND_CHANNEL_EX: u32 := 0xC018_540B

  /** struct nvgpu_tsg_bind_channel_ex_args. */
  datatype BindChannelExArgs = BindChannelExArgs(
    channelFd: int,
    subcontextId: u32,
    numActiveTpcs: u32,
    tpcPgEnabled: u8)

  /** Platform limits read by the ioctl. */
  datatype Limits = Limits(
    maxTpcCount: u32,       // g->gr.max_tpc_count
    maxSubctxCount: u32)    // g->fifo.t19x.max_subctx_count

  /** tsg->t19x: dynamic TPC power-gating state of the group. */
  datatype TpcState = TpcState(tpcNumInitialized: bool, numActiveTpcs: u32, tpcPgEnabled: bool)

  /** ch->t19x: the channel's subcontext and runqueue selector. */
  datatype SubctxState = SubctxState(subctxId: u32, runqueueSel: u32)

  /** Resources the ioctl holds while it runs. */
  datatype Resource = ControlLock | PowerRef | ChannelRef

  datatype Event =
    | Acquire(res: Resource)
    | Release(res: Resource)
    | TsgBindChannel(chid: u32)

  /** Return code and new state of one call. */
  datatype BindExOutcome = BindExOutcome(err: int, tpc: TpcState, ch: SubctxState, events: seq<Event>)

  // ---------------------------------------------------------------------
  // The specification of one call

  /** The TPC power-gating step: None when the request is rejected. */
  function TpcStep(tpc: TpcState, arg: BindChannelExArgs, maxTpcCount: u32): Option<TpcState>
  {
    if arg.tpcPgEnabled != 0 && !tpc.tpcNumInitialized then
      if arg.numActiveTpcs > maxTpcCount || arg.numActiveTpcs == 0 then None
      else Some(TpcState(true, arg.numActiveTpcs, true))
    else Some(tpc.(tpcPgEnabled := false))
  }

  /** The channel's t19x fields once the subcontext id has been accepted. */
  function SubctxStep(ch: SubctxState, subctxId: u32): SubctxState
  {
    var c := ch.(subctxId := subctxId);
    if c.subctxId > CHANNEL_INFO_VEID0 then c.(runqueueSel := 1) else c
  }

  /** Events of a path that returns after taking the given resources. */
  function Unwound(taken: seq<Resource>): seq<Event>
  {
    if taken == [] then []
    else [Acquire(taken[0])] + Unwound(taken[1..]) + [Release(taken[0])]
  }

  const ALL_HELD: seq<Resource> := [ControlLock, PowerRef, ChannelRef]

  /** gv11b_tsg_ioctl_bind_channel_ex as a function of the state it reads.
      found is the id of the channel the fd resolves to, if any. */
  function BindChannelExEffect(limits: Limits, controlLocked: bool, busyErr: int, found: Option<u32>,
                               tpc: TpcState, ch: SubctxState, arg: BindChannelExArgs, bindErr: int): BindExOutcome
  {
    if controlLocked then
      BindExOutcome(-EPERM, tpc, ch, Unwound([ControlLock]))
    else if busyErr != 0 then
      BindExOutcome(busyErr, tpc, ch, Unwound([ControlLock]))
    else if found.None? then
      BindExOutcome(-EINVAL, tpc, ch, Unwound([ControlLock, PowerRef]))
    else
      var tpc' := TpcStep(tpc, arg, limits.maxTpcCount);
      if tpc'.None? then
        BindExOutcome(-EINVAL, tpc, ch, Unwound(ALL_HELD))
      else if arg.subcontextId >= limits.maxSubctxCount then
        BindExOutcome(-EINVAL, tpc'.value, ch, Unwound(ALL_HELD))
      else
        BindExOutcome(bindErr, tpc'.value, SubctxStep(ch, arg.subcontextId),
                      [Acquire(ControlLock), Acquire(PowerRef), Acquire(ChannelRef),
                       TsgBindChannel(found.value),
                       Release(ChannelRef), Release(PowerRef), Release(ControlLock)])
  }

  /** True when the call gets as far as the bind HAL. */
  predicate ReachesBind(limits: Limits, controlLocked: bool, busyErr: int, found: Option<u32>,
                        tpc: TpcState, arg: BindChannelExArgs)
  {
    !controlLocked && busyErr == 0 && found.Some? &&
    TpcStep(tpc, arg, limits.maxTpcCount).Some? && arg.subcontextId < limits.maxSubctxCount
  }

  /** t19x_tsg_ioctl_handler as a function of the state it reads. */
  function IoctlHandlerEffect(cmd: u32, limits: Limits, controlLocked: bool, busyErr: int, found: Option<u32>,
                              tpc: TpcState, ch: SubctxState, arg: BindChannelExArgs, bindErr: int): BindExOutcome
  {
    if cmd == NVGPU_TSG_IOCTL_BIND_CHANNEL_EX then
      BindChannelExEffect(limits, controlLocked, busyErr, found, tpc, ch, arg, bindErr)
    else
      BindExOutcome(-ENOTTY, tpc, ch, [])
  }

  // ---------------------------------------------------------------------
  // Resource discipline

  /** Replays events over the stack of held resources: an acquire pushes, a
      release must pop the most recent acquire, and the bind HAL may only run
      with the control lock, a power reference and the channel reference
      held. None when the discipline is broken. */
  function Replay(events: seq<Event>, held: seq<Resource>): Option<seq<Resource>>
    decreases |events|
  {
    if events == [] then Some(held)
    else match events[0]
      case Acquire(r) => Replay(events[1..], held + [r])
      case Release(r) =>
        if held != [] && held[|held| - 1] == r then Replay(events[1..], held[..|held| - 1]) else None
      case TsgBindChannel(_) =>
        if held == ALL_HELD then Replay(events[1..], held) else None
  }

  /** Every resource taken is released, in reverse order, and the bind HAL
      runs with all three held. */
  predicate Balanced(events: seq<Event>)
  {
    Replay(events, []) == Some([])
  }

  lemma {:induction false} ReplayConcat(a: seq<Event>, b: seq<Event>, held: seq<Resource>)
    requires Replay(a, held).Some?
    ensures Replay(a + b, held) == Replay(b, Replay(a, held).value)
    decreases |a|
  {
    if a != [] {
      assert (a + b)[0] == a[0] && (a + b)[1..] == a[1..] + b;
      match a[0]
      case Acquire(r) => ReplayConcat(a[1..], b, held + [r]);
      case Release(r) => ReplayConcat(a[1..], b, held[..|held| - 1]);
      case TsgBindChannel(_) => ReplayConcat(a[1..], b, held);
    } else {
      assert a + b == b;
    }
  }

  /** Taking resources and returning releases them in reverse order. */
  lemma {:induction false} UnwoundReplays(taken: seq<Resource>, held: seq<Resource>)
    ensures Replay(Unwound(taken), held) == Some(held)
    decreases |taken|
  {
    if taken != [] {
      var r := taken[0];
      var inner := Unwound(taken[1..]);
      var u := Unwound(taken);
      assert u == [Acquire(r)] + (inner + [Release(r)]);
      assert u[0] == Acquire(r) && u[1..] == inner + [Release(r)];
      UnwoundReplays(taken[1..], held + [r]);
      ReplayConcat(inner, [Release(r)], held + [r]);
      assert (held + [r])[..|held + [r]| - 1] == held;
      assert [Release(r)][1..] == [];
    }
  }

  /** On every exit path the ioctl releases exactly what it took, in
      reverse order (channel put, idle, control-lock release), and it runs
      the bind HAL holding all three. */
  lemma BindChannelExBalanced(limits: Limits, controlLocked: bool, busyErr: int, found: Option<u32>,
                              tpc: TpcState, ch: SubctxState, arg: BindChannelExArgs, bindErr: int)
    ensures Balanced(BindChannelExEffect(limits, controlLocked, busyErr, found, tpc, ch, arg, bindErr).events)
  {
    if ReachesBind(limits, controlLocked, busyErr, found, tpc, arg) {
      BindPathReplays(found.value);
    } else if controlLocked || busyErr != 0 {
      UnwoundReplays([ControlLock], []);
    } else if found.None? {
      UnwoundReplays([ControlLock, PowerRef], []);
    } else {
      UnwoundReplays(ALL_HELD, []);
    }
  }

  lemma BindPathReplays(chid: u32)
    ensures Balanced([Acquire(ControlLock), Acquire(PowerRef), Acquire(ChannelRef),
                      TsgBindChannel(chid),
                      Release(ChannelRef), Release(PowerRef), Release(ControlLock)])
  {
    var pre := [Acquire(ControlLock), Acquire(PowerRef), Acquire(ChannelRef), TsgBindChannel(chid)];
    var rel := [Release(ChannelRef), Release(PowerRef), Release(ControlLock)];
    assert Replay(pre, []) == Some(ALL_HELD) by {
      var p1, p2, p3 := pre[1..], pre[2..], pre[3..];
      assert p1[1..] == p2 && p2[1..] == p3 && p3[1..] == [];
      assert Replay(p3, ALL_HELD) == Some(ALL_HELD);
      assert [ControlLock, PowerRef] + [ChannelRef] == ALL_HELD;
      assert Replay(p2, [ControlLock, PowerRef]) == Some(ALL_HELD);
      assert [ControlLock] + [PowerRef] == [ControlLock, PowerRef];
      assert Replay(p1, [ControlLock]) == Some(ALL_HELD);
      assert [] + [ControlLock] == [ControlLock];
    }
    assert Replay(rel, ALL_HELD) == Some([]) by {
      assert rel[1..] == [Release(PowerRef), Release(ControlLock)];
      assert rel[1..][1..] == [Release(ControlLock)];
      assert rel[1..][1..][1..] == [];
      assert ALL_HELD[..2] == [ControlLock, PowerRef];
      assert [ControlLock, PowerRef][..1] == [ControlLock];
      assert [ControlLock][..0] == [];
    }
    ReplayConcat(pre, rel, []);
    assert pre + rel == [Acquire(ControlLock), Acquire(PowerRef), Acquire(ChannelRef),
                         TsgBindChannel(chid),
                         Release(ChannelRef), Release(PowerRef), Release(ControlLock)];
  }

  /** The three early-exit event sequences, spelled out. */
  lemma UnwoundExits()
    ensures Unwound([ControlLock]) == [Acquire(ControlLock), Release(ControlLock)]
    ensures Unwound([ControlLock, PowerRef]) ==
              [Acquire(ControlLock), Acquire(PowerRef), Release(PowerRef), Release(ControlLock)]
    ensures Unwound(ALL_HELD) ==
              [Acquire(ControlLock), Acquire(PowerRef), Acquire(ChannelRef),
               Release(ChannelRef), Release(PowerRef), Release(ControlLock)]
  {
  }

  // ---------------------------------------------------------------------
  // Properties of one call

  /** With the scheduler control locked the call fails with -EPERM having
      only taken and dropped the control lock: no power-up, no channel
      lookup, no state change. */
  lemma BindChannelExControlLocked(limits: Limits, busyErr: int, found: Option<u32>,
                                   tpc: TpcState, ch: SubctxState, arg: BindChannelExArgs, bindErr: int)
    ensures var out := BindChannelExEffect(limits, true, busyErr, found, tpc, ch, arg, bindErr);
            out == BindExOutcome(-EPERM, tpc, ch, [Acquire(ControlLock), Release(ControlLock)])
  {
  }

  /** A failed power-up returns its error and changes nothing; a failed
      channel lookup returns -EINVAL, changes nothing, and drops the power
      reference it took before the control lock. */
  lemma BindChannelExEarlyFailures(limits: Limits, busyErr: int, found: Option<u32>,
                                   tpc: TpcState, ch: SubctxState, arg: BindChannelExArgs, bindErr: int)
    ensures busyErr != 0 ==>
              BindChannelExEffect(limits, false, busyErr, found, tpc, ch, arg, bindErr) ==
              BindExOutcome(busyErr, tpc, ch, [Acquire(ControlLock), Release(ControlLock)])
    ensures busyErr == 0 && found.None? ==>
              BindChannelExEffect(limits, false, busyErr, found, tpc, ch, arg, bindErr) ==
              BindExOutcome(-EINVAL, tpc, ch, [Acquire(ControlLock), Acquire(PowerRef),
                                               Release(PowerRef), Release(ControlLock)])
  {
  }

  /** The first request for dynamic TPC power gating on a group is checked
      against 1 .. max_tpc_count: a count outside it fails with -EINVAL
      before anything is written; one inside it is recorded and marks the
      group initialised and gated. */
  lemma BindChannelExTpcInit(limits: Limits, chid: u32, tpc: TpcState, ch: SubctxState,
                             arg: BindChannelExArgs, bindErr: int)
    requires arg.tpcPgEnabled != 0 && !tpc.tpcNumInitialized
    ensures var out := BindChannelExEffect(limits, false, 0, Some(chid), tpc, ch, arg, bindErr);
            (arg.numActiveTpcs == 0 || arg.numActiveTpcs > limits.maxTpcCount <==>
               out.err == -EINVAL && out.tpc == tpc && out.ch == ch && TsgBindChannel(chid) !in out.events) &&
            (0 < arg.numActiveTpcs <= limits.maxTpcCount ==>
               out.tpc == TpcState(true, arg.numActiveTpcs, true))
  {
  }

  /** Once a group's TPC count is initialised no later call changes it or
      clears the flag; a call that does not initialise it (not requested, or
      already initialised) turns gating off for this bind and leaves the
      count alone. */
  lemma BindChannelExTpcConfiguredOnce(limits: Limits, controlLocked: bool, busyErr: int, found: Option<u32>,
                                       tpc: TpcState, ch: SubctxState, arg: BindChannelExArgs, bindErr: int)
    ensures var out := BindChannelExEffect(limits, controlLocked, busyErr, found, tpc, ch, arg, bindErr);
            (tpc.tpcNumInitialized ==>
               out.tpc.tpcNumInitialized && out.tpc.numActiveTpcs == tpc.numActiveTpcs) &&
            (out.tpc.numActiveTpcs != tpc.numActiveTpcs ==>
               !tpc.tpcNumInitialized && out.tpc == TpcState(true, arg.numActiveTpcs, true)) &&
            (!controlLocked && busyErr == 0 && found.Some? &&
             (arg.tpcPgEnabled == 0 || tpc.tpcNumInitialized) ==>
               out.tpc == tpc.(tpcPgEnabled := false))
  {
  }

  /** The subcontext id is checked against max_subctx_count after the TPC
      step: an id out of range fails with -EINVAL, leaves the channel alone
      and never reaches the bind HAL, but keeps what the TPC step wrote. The
      bind HAL is called exactly when every check passes. */
  lemma BindChannelExSubctxBound(limits: Limits, controlLocked: bool, busyErr: int, found: Option<u32>,
                                 tpc: TpcState, ch: SubctxState, arg: BindChannelExArgs, bindErr: int)
    ensures var out := BindChannelExEffect(limits, controlLocked, busyErr, found, tpc, ch, arg, bindErr);
            (found.Some? ==> (TsgBindChannel(found.value) in out.events <==>
                              ReachesBind(limits, controlLocked, busyErr, found, tpc, arg))) &&
            (forall e :: e in out.events && e.TsgBindChannel? ==> found == Some(e.chid)) &&
            (!controlLocked && busyErr == 0 && found.Some? && TpcStep(tpc, arg, limits.maxTpcCount).Some? &&
             arg.subcontextId >= limits.maxSubctxCount ==>
               out.err == -EINVAL && out.ch == ch && out.tpc == TpcStep(tpc, arg, limits.maxTpcCount).value)
  {
  }

  /** A bind that reaches the HAL stores the subcontext id, selects runqueue
      1 for every asynchronous subcontext (id above VEID 0) and otherwise
      keeps the selector, and returns the HAL's result. */
  lemma BindChannelExRunqueueSel(limits: Limits, found: Option<u32>,
                                 tpc: TpcState, ch: SubctxState, arg: BindChannelExArgs, bindErr: int)
    requires ReachesBind(limits, false, 0, found, tpc, arg)
    ensures var out := BindChannelExEffect(limits, false, 0, found, tpc, ch, arg, bindErr);
            out.err == bindErr &&
            out.ch.subctxId == arg.subcontextId &&
            out.ch.subctxId < limits.maxSubctxCount &&
            (out.ch.runqueueSel == 1 <==> arg.subcontextId > CHANNEL_INFO_VEID0 || ch.runqueueSel == 1) &&
            (arg.subcontextId == CHANNEL_INFO_VEID0 ==> out.ch.runqueueSel == ch.runqueueSel)
  {
  }

  /** Because the TPC step runs first, a call that requests power gating
      with a valid count on a group not yet initialised, and is then rejected
      for its subcontext id, has already initialised the count; no later call,
      whatever its arguments and outcome, can change that count. */
  lemma BindChannelExRejectedSubctxInitialisesTpc(limits: Limits, chid: u32, tpc: TpcState, ch: SubctxState,
                                                  arg: BindChannelExArgs, bindErr: int,
                                                  controlLocked2: bool, busyErr2: int, found2: Option<u32>,
                                                  ch2: SubctxState, arg2: BindChannelExArgs, bindErr2: int)
    requires arg.tpcPgEnabled != 0 && !tpc.tpcNumInitialized
    requires 0 < arg.numActiveTpcs <= limits.maxTpcCount && arg.subcontextId >= limits.maxSubctxCount
    ensures var first := BindChannelExEffect(limits, false, 0, Some(chid), tpc, ch, arg, bindErr);
            var later := BindChannelExEffect(limits, controlLocked2, busyErr2, found2, first.tpc, ch2, arg2, bindErr2);
            first.err == -EINVAL && first.ch == ch && first.tpc == TpcState(true, arg.numActiveTpcs, true) &&
            later.tpc.tpcNumInitialized && later.tpc.numActiveTpcs == arg.numActiveTpcs
  {
  }

  /** One instance: a count of 2 fixed by a call rejected for subcontext 64
      survives a corrected retry that asks for 3. */
  lemma BindChannelExRejectedSubctxExample()
    ensures var limits := Limits(4, 64);
            var arg := BindChannelExArgs(3, 64, 2, 1);
            var first := BindChannelExEffect(limits, false, 0, Some(7), TpcState(false, 0, false),
                                             SubctxState(0, 0), arg, 0);
            var retry := BindChannelExEffect(limits, false, 0, Some(7), first.tpc, first.ch,
                                             arg.(subcontextId := 1, numActiveTpcs := 3), 0);
            first.err == -EINVAL && first.tpc == TpcState(true, 2, true) &&
            retry.err == 0 && retry.tpc == TpcState(true, 2, false)
  {
  }

  /** Any command other than BIND_CHANNEL_EX fails with -ENOTTY and touches
      nothing; BIND_CHANNEL_EX is exactly the bind. */
  lemma IoctlHandlerRoutes(cmd: u32, limits: Limits, controlLocked: bool, busyErr: int, found: Option<u32>,
                           tpc: TpcState, ch: SubctxState, arg: BindChannelExArgs, bindErr: int)
    ensures var out := IoctlHandlerEffect(cmd, limits, controlLocked, busyErr, found, tpc, ch, arg, bindErr);
            (cmd != NVGPU_TSG_IOCTL_BIND_CHANNEL_EX ==> out == BindExOutcome(-ENOTTY, tpc, ch, [])) &&
            (cmd == NVGPU_TSG_IOCTL_BIND_CHANNEL_EX ==>
               out == BindChannelExEffect(limits, controlLocked, busyErr, found, tpc, ch, arg, bindErr)) &&
            Balanced(out.events)
  {
    if cmd == NVGPU_TSG_IOCTL_BIND_CHANNEL_EX {
      BindChannelExBalanced(limits, controlLocked, busyErr, found, tpc, ch, arg, bindErr);
    }
  }

  // ---------------------------------------------------------------------
  // The state the ioctl updates in place

  /** The parts of struct gk20a (and its Linux scheduler control) read here. */
  class Gk20a {
    /** sched_ctrl.control_locked */
    var controlLocked: bool
    const limits: Limits
    ghost var trace: seq<Event>

    constructor (limits: Limits, controlLocked: bool)
      ensures this.limits == limits && this.controlLocked == controlLocked && trace == []
    {
      this.limits := limits;
      this.controlLocked := controlLocked;
      trace := [];
    }
  }

  /** A TSG's t19x fields. */
  class Tsg {
    var tpcNumInitialized: bool
    var numActiveTpcs: u32
    var tpcPgEnabled: bool

    function Tpc(): TpcState
      reads this
    {
      TpcState(tpcNumInitialized, numActiveTpcs, tpcPgEnabled)
    }

    constructor ()
      ensures Tpc() == TpcState(false, 0, false)
    {
      tpcNumInitialized, numActiveTpcs, tpcPgEnabled := false, 0, false;
    }
  }

  /** A channel's id and t19x fields. */
  class Channel {
    const chid: u32
    var subctxId: u32
    var runqueueSel: u32

    function Subctx(): SubctxState
      reads this
    {
      SubctxState(subctxId, runqueueSel)
    }

    constructor (chid: u32)
      ensures this.chid == chid && Subctx() == SubctxState(0, 0)
    {
      this.chid := chid;
      subctxId, runqueueSel := 0, 0;
    }
  }

  function Found(ch: Channel?): Option<u32>
    reads ch
  {
    if ch == null then None else Some(ch.chid)
  }

  /** The part of gv11b_tsg_ioctl_bind_channel_ex that runs holding all
      three resources: the TPC power-gating step, the subcontext check and
      the bind HAL. Returning early is the source's jump to ch_put. */
  method ConfigureAndBind(g: Gk20a, tsg: Tsg, arg: BindChannelExArgs, ch: Channel, bindErr: int)
      returns (err: int)
    modifies g`trace, tsg, ch
    ensures var tpc := TpcStep(old(tsg.Tpc()), arg, g.limits.maxTpcCount);
            if tpc.None? then
              err == -EINVAL && tsg.Tpc() == old(tsg.Tpc()) && ch.Subctx() == old(ch.Subctx()) &&
              g.trace == old(g.trace)
            else if arg.subcontextId >= g.limits.maxSubctxCount then
              err == -EINVAL && tsg.Tpc() == tpc.value && ch.Subctx() == old(ch.Subctx()) &&
              g.trace == old(g.trace)
            else
              err == bindErr && tsg.Tpc() == tpc.value &&
              ch.Subctx() == SubctxStep(old(ch.Subctx()), arg.subcontextId) &&
              g.trace == old(g.trace) + [TsgBindChannel(ch.chid)]
  {
    if arg.tpcPgEnabled != 0 && !tsg.tpcNumInitialized {
      if arg.numActiveTpcs > g.limits.maxTpcCount || arg.numActiveTpcs == 0 {
        return -EINVAL;
      }
      tsg.tpcNumInitialized := true;
      tsg.numActiveTpcs := arg.numActiveTpcs;
      tsg.tpcPgEnabled := true;
    } else {
      tsg.tpcPgEnabled := false;
    }

    if arg.subcontextId < g.limits.maxSubctxCount {
      ch.subctxId := arg.subcontextId;
    } else {
      return -EINVAL;
    }

    if ch.subctxId > CHANNEL_INFO_VEID0 {
      ch.runqueueSel := 1;
    }
    g.trace := g.trace + [TsgBindChannel(ch.chid)];
    err := bindErr;
  }

  /** gv11b_tsg_ioctl_bind_channel_ex. busyErr is what gk20a_busy returns,
      ch the channel arg.channelFd resolves to (null if none), bindErr what
      the tsg_bind_channel HAL returns. The goto chain of the source is a
      chain of labelled blocks. */
  method BindChannelEx(g: Gk20a, tsg: Tsg, arg: BindChannelExArgs, busyErr: int, ch: Channel?, bindErr: int)
      returns (err: int)
    modifies g`trace, tsg, ch
    ensures var out := BindChannelExEffect(g.limits, g.controlLocked, busyErr, Found(ch), old(tsg.Tpc()),
                                           if ch == null then SubctxState(0, 0) else old(ch.Subctx()), arg, bindErr);
            err == out.err && tsg.Tpc() == out.tpc && g.trace == old(g.trace) + out.events &&
            (ch != null ==> ch.Subctx() == out.ch)
  {
    UnwoundExits();
    g.trace := g.trace + [Acquire(ControlLock)];
    label mutexRelease: {
      if g.controlLocked {
        err := -EPERM;
        break mutexRelease;
      }
      err := busyErr;
      if err != 0 {
        break mutexRelease;
      }
      g.trace := g.trace + [Acquire(PowerRef)];
      label idle: {
        if ch == null {
          err := -EINVAL;
          break idle;
        }
        g.trace := g.trace + [Acquire(ChannelRef)];
        err := ConfigureAndBind(g, tsg, arg, ch, bindErr);
        g.trace := g.trace + [Release(ChannelRef)];
      }
      g.trace := g.trace + [Release(PowerRef)];
    }
    g.trace := g.trace + [Release(ControlLock)];
  }

  /** t19x_tsg_ioctl_handler. */
  method IoctlHandler(g: Gk20a, tsg: Tsg, cmd: u32, arg: BindChannelExArgs, busyErr: int, ch: Channel?, bindErr: int)
      returns (err: int)
    modifies g`trace, tsg, ch
    ensures var out := IoctlHandlerEffect(cmd, g.limits, g.controlLocked, busyErr, Found(ch), old(tsg.Tpc()),
                                          if ch == null then SubctxState(0, 0) else old(ch.Subctx()), arg, bindErr);
            err == out.err && tsg.Tpc() == out.tpc && g.trace == old(g.trace) + out.events &&
            (ch != null ==> ch.Subctx() == out.ch)
  {
    if cmd == NVGPU_TSG_IOCTL_BIND_CHANNEL_EX {
      err := BindChannelEx(g, tsg, arg, busyErr, ch, bindErr);
    } else {
      err := -ENOTTY;
    }
  }
}
