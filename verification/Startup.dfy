/** The threads under one peer: startup, ICE, received packets, and packets to send.
    They share flags without a lock; every read and every write of a flag is a step of
    its own. */
module Startup {
  import opened Bytes

  /** `cursorSet`: `sctp->stream_cursor` has been given its first value. */
  datatype Flags = Flags(
    exiting: bool, gathered: bool, negotiated: bool, dtlsDone: bool, sctpDone: bool, cursorSet: bool)

  /** The loops `while (!exit_thread && !flag)` with the `if (exit_thread)` after them. */
  datatype Wait =
    | StartupNegotiated | StartupDtls
    | IceGathered | IceNegotiated
    | ToDtlsNegotiated | ToDtlsDone | ToIceGathered | ToIceNegotiated

  /** Where a thread is.  `AtExit`, `AtFlag` and `AtCheck` are the three reads of a wait. */
  datatype Pc =
    | AtExit(wait: Wait) | AtFlag(wait: Wait) | AtCheck(wait: Wait)
    // startup_thread
    | BeginHandshake | SetCursor | Connecting | SetSctpDone | CallOnConnect
    // ice_thread
    | IceLoop | IceSend | IceTest | IceHandshake | IceFinished | IceSetDone
    // data_received_cb
    | ReceiveTest | ReceiveStore | ReceiveDone | ReceiveFinished | ReceiveSetDone | ReceiveDoneAgain
    | ReceiveHandshake | ReceiveInput
    // sctp_data_ready_cb
    | Queue | ToDtlsWrite | ToIceSend | ToIceTest | ToIceHandshake | ToIceFinished | ToIceSetDone
    | Ended

  datatype Kind = StartupThread | IceThread | Received | Outgoing

  function EntryPc(kind: Kind): Pc {
    match kind
    case StartupThread => AtExit(StartupNegotiated)
    case IceThread => AtExit(IceGathered)
    case Received => ReceiveTest
    case Outgoing => Queue
  }

  /** What other parties see a thread do. */
  datatype Effect = Handshake | OnConnect | SendPacket | SctpInput | SslWrite

  datatype Outcome = Outcome(pc: Pc, flags: Flags, effect: Option<Effect>, killed: bool)

  predicate Flag(flags: Flags, wait: Wait) {
    match wait
    case StartupNegotiated => flags.negotiated
    case StartupDtls => flags.dtlsDone
    case IceGathered => flags.gathered
    case IceNegotiated => flags.negotiated
    case ToDtlsNegotiated => flags.negotiated
    case ToDtlsDone => flags.dtlsDone
    case ToIceGathered => flags.gathered
    case ToIceNegotiated => flags.negotiated
  }

  function After(wait: Wait): Pc {
    match wait
    case StartupNegotiated => BeginHandshake
    case StartupDtls => SetCursor
    case IceGathered => AtExit(IceNegotiated)
    case IceNegotiated => IceLoop
    case ToDtlsNegotiated => AtExit(ToDtlsDone)
    case ToDtlsDone => ToDtlsWrite
    case ToIceGathered => AtExit(ToIceNegotiated)
    case ToIceNegotiated => ToIceSend
  }

  /** The waits of `sctp_to_dtls` and `dtls_to_ice` end in `exit(1)`. */
  predicate Kills(wait: Wait) {
    wait.ToDtlsNegotiated? || wait.ToDtlsDone? || wait.ToIceGathered? || wait.ToIceNegotiated?
  }

  function Goto(pc: Pc, flags: Flags): Outcome {
    Outcome(pc, flags, None, false)
  }

  function Do(effect: Effect, pc: Pc, flags: Flags): Outcome {
    Outcome(pc, flags, Some(effect), false)
  }

  /** One step of a thread at `pc`.  `yes` is the answer of a library call where the code
      asks for one: bytes to send, handshake finished, SCTP connected. */
  function Advance(flags: Flags, pc: Pc, yes: bool): Outcome {
    match pc
    case AtExit(w) => Goto(if flags.exiting then AtCheck(w) else AtFlag(w), flags)
    case AtFlag(w) => Goto(if Flag(flags, w) then AtCheck(w) else AtExit(w), flags)
    case AtCheck(w) => Outcome(if flags.exiting then Ended else After(w), flags, None, flags.exiting && Kills(w))

    case BeginHandshake => Do(Handshake, AtExit(StartupDtls), flags)
    case SetCursor => Goto(Connecting, flags.(cursorSet := true))
    case Connecting => Goto(if yes then SetSctpDone else Ended, flags)
    case SetSctpDone => Goto(CallOnConnect, flags.(sctpDone := true))
    case CallOnConnect => Do(OnConnect, Ended, flags)

    case IceLoop => Goto(if flags.exiting then Ended else IceSend, flags)
    case IceSend => if yes then Do(SendPacket, IceTest, flags) else Goto(IceTest, flags)
    case IceTest => Goto(if flags.dtlsDone then IceLoop else IceHandshake, flags)
    case IceHandshake => Do(Handshake, IceFinished, flags)
    case IceFinished => Goto(if yes then IceSetDone else IceLoop, flags)
    case IceSetDone => Goto(IceLoop, flags.(dtlsDone := true))

    case ReceiveTest => Goto(if flags.negotiated then ReceiveStore else Ended, flags)
    case ReceiveStore => Goto(ReceiveDone, flags)
    case ReceiveDone => Goto(if flags.dtlsDone then ReceiveDoneAgain else ReceiveFinished, flags)
    case ReceiveFinished => Goto(if yes then ReceiveSetDone else ReceiveDoneAgain, flags)
    case ReceiveSetDone => Goto(ReceiveDoneAgain, flags.(dtlsDone := true))
    case ReceiveDoneAgain => Goto(if flags.dtlsDone then ReceiveInput else ReceiveHandshake, flags)
    case ReceiveHandshake => Do(Handshake, Ended, flags)
    case ReceiveInput => if yes then Do(SctpInput, Ended, flags) else Goto(Ended, flags)

    case Queue => Goto(AtExit(ToDtlsNegotiated), flags)
    case ToDtlsWrite =>
      if yes then Do(SslWrite, AtExit(ToIceGathered), flags) else Goto(AtExit(ToIceGathered), flags)
    case ToIceSend => if yes then Do(SendPacket, ToIceTest, flags) else Goto(ToIceTest, flags)
    case ToIceTest => Goto(if flags.dtlsDone then Ended else ToIceHandshake, flags)
    case ToIceHandshake => Do(Handshake, ToIceFinished, flags)
    case ToIceFinished => Goto(if yes then ToIceSetDone else Ended, flags)
    case ToIceSetDone => Goto(Ended, flags.(dtlsDone := true))
    case Ended => Goto(Ended, flags)
  }

  /** `log` holds each effect with its thread and the flags at that moment. */
  datatype Entry = Entry(thread: nat, effect: Effect, flags: Flags)

  datatype Process = Process(flags: Flags, threads: seq<Pc>, log: seq<Entry>, killed: bool)

  datatype Step = Go(thread: nat, yes: bool) | Spawn(kind: Kind) | GatheringDone | PairSelected | LoopQuit

  function Start(): Process {
    Process(Flags(false, false, false, false, false, false), [], [], false)
  }

  function Apply(p: Process, step: Step): Process {
    if p.killed then p
    else
      match step
      case Go(i, yes) =>
        if i >= |p.threads| then p
        else
          var o := Advance(p.flags, p.threads[i], yes);
          Process(o.flags, p.threads[i := o.pc],
                  p.log + if o.effect.Some? then [Entry(i, o.effect.value, p.flags)] else [], o.killed)
      case Spawn(kind) => p.(threads := p.threads + [EntryPc(kind)])
      case GatheringDone => p.(flags := p.flags.(gathered := true))
      case PairSelected => p.(flags := p.flags.(negotiated := true))
      case LoopQuit => p.(flags := p.flags.(exiting := true))
  }

  function Run(p: Process, steps: seq<Step>): Process {
    if steps == [] then p else Apply(Run(p, steps[..|steps| - 1]), steps[|steps| - 1])
  }

  // Invariants

  /** Flags only rise. */
  predicate Below(f: Flags, g: Flags) {
    && (f.exiting ==> g.exiting) && (f.gathered ==> g.gathered) && (f.negotiated ==> g.negotiated)
    && (f.dtlsDone ==> g.dtlsDone) && (f.sctpDone ==> g.sctpDone) && (f.cursorSet ==> g.cursorSet)
  }

  /** SCTP is up only after DTLS, and DTLS only after ICE. */
  predicate InOrder(f: Flags) {
    && (f.sctpDone ==> f.dtlsDone && f.cursorSet)
    && (f.dtlsDone ==> f.negotiated)
  }

  /** What a thread may rely on before the flag of a wait. */
  predicate Before(f: Flags, wait: Wait) {
    match wait
    case StartupNegotiated => true
    case StartupDtls => f.negotiated
    case IceGathered => true
    case IceNegotiated => f.gathered
    case ToDtlsNegotiated => true
    case ToDtlsDone => f.negotiated
    case ToIceGathered => f.dtlsDone
    case ToIceNegotiated => f.gathered && f.dtlsDone
  }

  /** What a thread may rely on where it is. */
  predicate PcOk(f: Flags, pc: Pc) {
    match pc
    case AtExit(w) => Before(f, w)
    case AtFlag(w) => Before(f, w)
    case AtCheck(w) => Before(f, w) && (f.exiting || Flag(f, w))
    case BeginHandshake => f.negotiated
    case SetCursor => f.dtlsDone
    case Connecting => f.dtlsDone && f.cursorSet
    case SetSctpDone => f.dtlsDone && f.cursorSet
    case CallOnConnect => f.sctpDone
    case IceLoop => f.gathered && f.negotiated
    case IceSend => f.gathered && f.negotiated
    case IceTest => f.gathered && f.negotiated
    case IceHandshake => f.gathered && f.negotiated
    case IceFinished => f.gathered && f.negotiated
    case IceSetDone => f.gathered && f.negotiated
    case ReceiveTest => true
    case ReceiveInput => f.dtlsDone
    case ReceiveStore => f.negotiated
    case ReceiveDone => f.negotiated
    case ReceiveFinished => f.negotiated
    case ReceiveSetDone => f.negotiated
    case ReceiveDoneAgain => f.negotiated
    case ReceiveHandshake => f.negotiated
    case Queue => true
    case ToDtlsWrite => f.dtlsDone
    case ToIceSend => f.gathered && f.dtlsDone
    case ToIceTest => f.gathered && f.dtlsDone
    case ToIceHandshake => f.dtlsDone
    case ToIceFinished => f.dtlsDone
    case ToIceSetDone => f.dtlsDone
    case Ended => true
  }

  /** What holds when other parties see an effect. */
  predicate Timely(effect: Effect, f: Flags) {
    match effect
    case Handshake => f.negotiated
    case OnConnect => f.negotiated && f.dtlsDone && f.sctpDone && f.cursorSet
    case SendPacket => f.gathered && f.negotiated
    case SctpInput => f.negotiated && f.dtlsDone
    case SslWrite => f.negotiated && f.dtlsDone
  }

  /** One step of one thread. */
  lemma AdvanceKeeps(f: Flags, pc: Pc, yes: bool)
    requires InOrder(f) && PcOk(f, pc)
    ensures var o := Advance(f, pc, yes); InOrder(o.flags) && PcOk(o.flags, o.pc) && Below(f, o.flags)
  {
    if pc.AtExit? || pc.AtFlag? || pc.AtCheck? {
      WaitMoves(f, pc, yes);
    } else if OfIce(pc) {
      IceMoves(f, pc, yes);
    } else {
      PlainMoves(f, pc, yes);
    }
  }

  predicate OfIce(pc: Pc) {
    pc.IceLoop? || pc.IceSend? || pc.IceTest? || pc.IceHandshake? || pc.IceFinished? || pc.IceSetDone?
  }

  lemma IceMoves(f: Flags, pc: Pc, yes: bool)
    requires InOrder(f) && PcOk(f, pc) && OfIce(pc)
    ensures PcOk(Advance(f, pc, yes).flags, Advance(f, pc, yes).pc)
  {
  }

  /** After the third read the flag is up, because `exit_thread` only rises. */
  lemma WaitMoves(f: Flags, pc: Pc, yes: bool)
    requires InOrder(f) && PcOk(f, pc) && (pc.AtExit? || pc.AtFlag? || pc.AtCheck?)
    ensures PcOk(f, Advance(f, pc, yes).pc)
  {
    if pc.AtCheck? && !f.exiting {
      assert Flag(f, pc.wait) && Before(f, pc.wait);
    }
  }

  lemma PlainMoves(f: Flags, pc: Pc, yes: bool)
    requires InOrder(f) && PcOk(f, pc) && !pc.AtExit? && !pc.AtFlag? && !pc.AtCheck? && !OfIce(pc)
    ensures PcOk(Advance(f, pc, yes).flags, Advance(f, pc, yes).pc)
  {
  }

  lemma AdvanceShows(f: Flags, pc: Pc, yes: bool)
    requires InOrder(f) && PcOk(f, pc)
    ensures var o := Advance(f, pc, yes);
      && (o.effect.Some? ==> pc != Ended && Timely(o.effect.value, f)) && (o.killed ==> f.exiting)
      && (o.effect == Some(OnConnect) ==> o.pc == Ended) && (pc == Ended ==> o.pc == Ended)
  {
  }

  /** The other threads lose nothing when flags rise. */
  lemma PcRises(f: Flags, g: Flags, pc: Pc)
    requires PcOk(f, pc) && Below(f, g)
    ensures PcOk(g, pc)
  {
  }

  /** How often thread `i` has called `on_connect`. */
  function Connects(log: seq<Entry>, i: nat): nat {
    if log == [] then 0
    else
      var last := log[|log| - 1];
      Connects(log[..|log| - 1], i) + if last.thread == i && last.effect.OnConnect? then 1 else 0
  }

  lemma ConnectsMore(log: seq<Entry>, e: Entry, i: nat)
    ensures Connects(log + [e], i) == Connects(log, i) + if e.thread == i && e.effect.OnConnect? then 1 else 0
  {
    assert (log + [e])[..|log|] == log;
  }

  ghost predicate ThreadsOk(p: Process) {
    forall i :: 0 <= i < |p.threads| ==> PcOk(p.flags, p.threads[i])
  }

  /** Every effect so far was timely, and the flags it saw are still up. */
  ghost predicate LogOk(p: Process) {
    forall n :: 0 <= n < |p.log| ==> Timely(p.log[n].effect, p.log[n].flags) && Below(p.log[n].flags, p.flags)
  }

  /** A thread that has called `on_connect` has ended, and called it once. */
  ghost predicate ConnectsOk(p: Process) {
    forall i: nat :: Connects(p.log, i) == 0 || (i < |p.threads| && p.threads[i] == Ended && Connects(p.log, i) == 1)
  }

  ghost predicate Inv(p: Process) {
    InOrder(p.flags) && ThreadsOk(p) && LogOk(p) && ConnectsOk(p) && (p.killed ==> p.flags.exiting)
  }

  lemma GoKeeps(p: Process, i: nat, yes: bool)
    requires Inv(p) && !p.killed && i < |p.threads|
    ensures Inv(Apply(p, Go(i, yes)))
  {
    AdvanceKeeps(p.flags, p.threads[i], yes);
    AdvanceShows(p.flags, p.threads[i], yes);
    OutcomeKeeps(p, Apply(p, Go(i, yes)), i, Advance(p.flags, p.threads[i], yes));
  }

  lemma OutcomeKeeps(p: Process, q: Process, i: nat, o: Outcome)
    requires Inv(p) && i < |p.threads| && InOrder(o.flags) && PcOk(o.flags, o.pc) && Below(p.flags, o.flags)
    requires o.effect.Some? ==> p.threads[i] != Ended && Timely(o.effect.value, p.flags)
    requires o.killed ==> p.flags.exiting
    requires (o.effect == Some(OnConnect) || p.threads[i] == Ended) ==> o.pc == Ended
    requires q.flags == o.flags && q.threads == p.threads[i := o.pc] && q.killed == o.killed
    requires q.log == p.log + if o.effect.Some? then [Entry(i, o.effect.value, p.flags)] else []
    ensures Inv(q)
  {
    forall j | 0 <= j < |q.threads|
      ensures PcOk(q.flags, q.threads[j])
    {
      PcRises(p.flags, q.flags, p.threads[j]);
    }
    if o.effect.Some? {
      ConnectsKept(p, q, i, Entry(i, o.effect.value, p.flags));
    } else {
      assert q.log == p.log;
    }
  }

  lemma ConnectsKept(p: Process, q: Process, i: nat, e: Entry)
    requires ConnectsOk(p) && i < |p.threads| && p.threads[i] != Ended && |q.threads| == |p.threads|
    requires forall j :: 0 <= j < |p.threads| && j != i ==> q.threads[j] == p.threads[j]
    requires q.log == p.log + [e] && e.thread == i && (e.effect.OnConnect? ==> q.threads[i] == Ended)
    ensures ConnectsOk(q)
  {
    forall j: nat
      ensures Connects(q.log, j) == 0 || (j < |q.threads| && q.threads[j] == Ended && Connects(q.log, j) == 1)
    {
      ConnectsMore(p.log, e, j);
      assert Connects(p.log, i) == 0;
    }
  }

  lemma RiseKeeps(p: Process, q: Process)
    requires Inv(p) && Below(p.flags, q.flags) && InOrder(q.flags)
    requires q.threads == p.threads && q.log == p.log && q.killed == p.killed
    ensures Inv(q)
  {
    forall j | 0 <= j < |q.threads|
      ensures PcOk(q.flags, q.threads[j])
    {
      PcRises(p.flags, q.flags, p.threads[j]);
    }
  }

  lemma ApplyKeeps(p: Process, step: Step)
    requires Inv(p)
    ensures Inv(Apply(p, step)) && Below(p.flags, Apply(p, step).flags) && p.log <= Apply(p, step).log
  {
    if !p.killed {
      match step
      case Go(i, yes) =>
        if i < |p.threads| {
          GoKeeps(p, i, yes);
          AdvanceKeeps(p.flags, p.threads[i], yes);
        }
      case Spawn(kind) =>
      case GatheringDone => RiseKeeps(p, Apply(p, step));
      case PairSelected => RiseKeeps(p, Apply(p, step));
      case LoopQuit => RiseKeeps(p, Apply(p, step));
    }
  }

  /** In every interleaving of any number of threads of any kind: SCTP is up only after
      DTLS and DTLS only after ICE; nothing is seen before its time; a startup thread
      calls `on_connect` at most once, with all three up; the process is killed only when
      it was told to exit. */
  lemma {:induction false} RunOrdered(steps: seq<Step>)
    ensures Inv(Run(Start(), steps))
  {
    if steps != [] {
      RunOrdered(steps[..|steps| - 1]);
      ApplyKeeps(Run(Start(), steps[..|steps| - 1]), steps[|steps| - 1]);
    }
  }

  /** No flag is ever taken back, and no effect. */
  lemma {:induction false} RunRises(before: seq<Step>, after: seq<Step>)
    ensures var p, q := Run(Start(), before), Run(Start(), before + after);
      Below(p.flags, q.flags) && p.log <= q.log
    decreases |after|
  {
    if after == [] {
      assert before + after == before;
    } else {
      var steps, last := before + after[..|after| - 1], after[|after| - 1];
      assert before + after == steps + [last] && (steps + [last])[..|steps|] == steps;
      RunRises(before, after[..|after| - 1]);
      RunOrdered(steps);
      ApplyKeeps(Run(Start(), steps), last);
    }
  }

  /** What a caller of `on_connect` may rely on, then and ever after. */
  lemma ConnectedForGood(before: seq<Step>, after: seq<Step>, n: nat)
    requires n < |Run(Start(), before).log| && Run(Start(), before).log[n].effect.OnConnect?
    ensures var f := Run(Start(), before + after).flags;
      f.negotiated && f.dtlsDone && f.sctpDone && f.cursorSet
    ensures Connects(Run(Start(), before + after).log, Run(Start(), before).log[n].thread) == 1
  {
    RunOrdered(before);
    RunOrdered(before + after);
    RunRises(before, after);
    var log := Run(Start(), before + after).log;
    assert log[n] == Run(Start(), before).log[n];
    ConnectsAt(log, n);
  }

  lemma {:induction false} ConnectsAt(log: seq<Entry>, n: nat)
    requires n < |log| && log[n].effect.OnConnect?
    ensures Connects(log, log[n].thread) > 0
  {
    if n < |log| - 1 {
      ConnectsAt(log[..|log| - 1], n);
    }
  }
}
