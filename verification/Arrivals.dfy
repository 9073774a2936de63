/** What the threads of a start-up get done, not only what they must not do. */
module Arrivals {
  import opened Bytes
  import opened Startup

  // Who has called on_connect

  /** The thread is about to call `on_connect`, or has called it once. */
  predicate Connects1(p: Process, i: nat) {
    (i < |p.threads| && p.threads[i] == CallOnConnect) || Connects(p.log, i) == 1
  }

  ghost predicate SctpShown(p: Process) {
    p.flags.sctpDone ==> exists i: nat :: Connects1(p, i)
  }

  /** A thread leaves that place only by calling `on_connect`. */
  lemma CallLogged(p: Process, i: nat, yes: bool)
    requires !p.killed && i < |p.threads| && p.threads[i] == CallOnConnect
    ensures var q := Apply(p, Go(i, yes));
      && q.threads == p.threads[i := Ended] && q.log == p.log + [Entry(i, OnConnect, p.flags)]
      && q.flags == p.flags && !q.killed && Connects(q.log, i) == Connects(p.log, i) + 1
  {
    ConnectsMore(p.log, Entry(i, OnConnect, p.flags), i);
  }

  lemma SameConnects(log: seq<Entry>, log': seq<Entry>, e: Entry, j: nat)
    requires log' == log || (log' == log + [e] && e.effect != OnConnect)
    ensures Connects(log', j) == Connects(log, j)
  {
    ConnectsMore(log, e, j);
  }

  /** What a step does to the thread that took it. */
  lemma OwnStep(p: Process, i: nat, yes: bool)
    requires !p.killed && i < |p.threads| && p.threads[i] != CallOnConnect
    ensures var q := Apply(p, Go(i, yes));
      && |q.threads| == |p.threads| && (forall j: nat :: Connects(q.log, j) == Connects(p.log, j))
      && (forall j :: 0 <= j < |p.threads| && j != i ==> q.threads[j] == p.threads[j])
      && (q.flags.sctpDone && !p.flags.sctpDone ==> q.threads[i] == CallOnConnect)
  {
    var o, q := Advance(p.flags, p.threads[i], yes), Apply(p, Go(i, yes));
    EffectLaw(p.flags, p.threads[i], yes);
    FlagLaw(p.flags, p.threads[i], yes);
    RaiseLaw(p.flags, p.threads[i], yes);
    var e := Entry(i, if o.effect.Some? then o.effect.value else Handshake, p.flags);
    assert q.log == p.log || q.log == p.log + [e];
    forall j: nat
      ensures Connects(q.log, j) == Connects(p.log, j)
    {
      SameConnects(p.log, q.log, e, j);
    }
  }

  lemma ShownStays(p: Process, i: nat, yes: bool)
    requires Inv(p) && SctpShown(p) && !p.killed && i < |p.threads|
    ensures SctpShown(Apply(p, Go(i, yes)))
  {
    var q := Apply(p, Go(i, yes));
    if p.threads[i] == CallOnConnect {
      CallLogged(p, i, yes);
      assert Connects(p.log, i) == 0;
      assert Connects1(q, i);
    } else {
      OwnStep(p, i, yes);
      if p.flags.sctpDone {
        var j: nat :| Connects1(p, j);
        assert Connects1(q, j);
      } else if q.flags.sctpDone {
        assert Connects1(q, i);
      }
    }
  }

  /** In every run SCTP is marked as up exactly if some thread is about to call
      `on_connect` or has called it once. */
  lemma {:induction false} RunShown(steps: seq<Step>)
    ensures var p := Run(Start(), steps);
      p.flags.sctpDone <==> exists i: nat :: Connects1(p, i)
  {
    RunOrdered(steps);
    var p := Run(Start(), steps);
    if steps != [] {
      var before, last := steps[..|steps| - 1], steps[|steps| - 1];
      RunOrdered(before);
      RunShown(before);
      var o := Run(Start(), before);
      if last.Go? && !o.killed && last.thread < |o.threads| {
        ShownStays(o, last.thread, last.yes);
      } else {
        OthersShown(o, last);
      }
    }
    forall i: nat | Connects1(p, i)
      ensures p.flags.sctpDone
    {
      ShownUp(p, i);
    }
  }

  lemma OthersShown(p: Process, step: Step)
    requires SctpShown(p) && (!step.Go? || p.killed || step.thread >= |p.threads|)
    ensures SctpShown(Apply(p, step))
  {
    if p.flags.sctpDone {
      var i: nat :| Connects1(p, i);
      assert Connects1(Apply(p, step), i);
    }
  }

  lemma ShownUp(p: Process, i: nat)
    requires Inv(p) && Connects1(p, i)
    ensures p.flags.sctpDone
  {
    if Connects(p.log, i) == 1 {
      var n := ConnectedAt(p.log, i);
      assert Timely(p.log[n].effect, p.log[n].flags);
    } else {
      assert PcOk(p.flags, p.threads[i]);
    }
  }

  lemma {:induction false} ConnectedAt(log: seq<Entry>, i: nat) returns (n: nat)
    requires Connects(log, i) > 0
    ensures n < |log| && log[n].thread == i && log[n].effect == OnConnect
  {
    var last := |log| - 1;
    if log[last].thread == i && log[last].effect.OnConnect? {
      n := last;
    } else {
      n := ConnectedAt(log[..last], i);
    }
  }

  // A thread on its own

  /** `n` steps of thread `i`, with every library call answering yes. */
  function Alone(i: nat, n: nat): seq<Step> {
    seq(n, _ => Go(i, true))
  }

  lemma {:induction false} RunOn(p: Process, step: Step, more: seq<Step>)
    ensures Run(p, [step] + more) == Run(Apply(p, step), more)
    decreases |more|
  {
    if more == [] {
      assert [step] + more == [step] && [step][..0] == [];
    } else {
      assert ([step] + more)[..|more|] == [step] + more[..|more| - 1];
      RunOn(p, step, more[..|more| - 1]);
    }
  }

  lemma {:induction false} RunBoth(p: Process, a: seq<Step>, b: seq<Step>)
    ensures Run(p, a + b) == Run(Run(p, a), b)
    decreases |b|
  {
    if b == [] {
      assert a + b == a;
    } else {
      assert (a + b)[..|a + b| - 1] == a + b[..|b| - 1];
      RunBoth(p, a, b[..|b| - 1]);
    }
  }

  datatype Walked = Walked(flags: Flags, pc: Pc, shown: seq<Effect>)

  function Effects(e: Option<Effect>): seq<Effect> {
    if e.Some? then [e.value] else []
  }

  /** Where the thread stands `n` of its own steps later, and what it has shown. */
  function Walk(f: Flags, pc: Pc, n: nat): Walked
    decreases n
  {
    if n == 0 then Walked(f, pc, [])
    else
      var o := Advance(f, pc, true);
      var rest := Walk(o.flags, o.pc, n - 1);
      rest.(shown := Effects(o.effect) + rest.shown)
  }

  /** The effects of a thread, in order. */
  function Shown(log: seq<Entry>, i: nat): seq<Effect> {
    if log == [] then []
    else
      var last := log[|log| - 1];
      Shown(log[..|log| - 1], i) + if last.thread == i then [last.effect] else []
  }

  lemma ShownMore(log: seq<Entry>, i: nat, e: Option<Effect>, f: Flags)
    ensures Shown(log + (if e.Some? then [Entry(i, e.value, f)] else []), i) == Shown(log, i) + Effects(e)
  {
    if e.Some? {
      assert (log + [Entry(i, e.value, f)])[..|log|] == log;
    } else {
      assert log + [] == log;
    }
  }

  /** One own step, with what it leaves. */
  lemma StepRuns(p: Process, i: nat, o: Outcome, q: Process)
    requires !p.killed && i < |p.threads| && o == Advance(p.flags, p.threads[i], true) && q == Apply(p, Go(i, true))
    ensures q.flags == o.flags && q.threads == p.threads[i := o.pc] && q.killed == o.killed
    ensures Shown(q.log, i) == Shown(p.log, i) + Effects(o.effect)
  {
    ShownMore(p.log, i, o.effect, p.flags);
    assert q.log == p.log + if o.effect.Some? then [Entry(i, o.effect.value, p.flags)] else [];
  }

  /** A thread that runs on its own while the process is not told to exit. */
  lemma {:induction false} WalkRuns(p: Process, i: nat, n: nat)
    requires !p.killed && !p.flags.exiting && i < |p.threads|
    ensures var q, r := Run(p, Alone(i, n)), Walk(p.flags, p.threads[i], n);
      && q.flags == r.flags && q.threads == p.threads[i := r.pc] && !q.killed
      && Shown(q.log, i) == Shown(p.log, i) + r.shown
    decreases n
  {
    if n == 0 {
      assert p.threads[i := p.threads[i]] == p.threads;
    } else {
      var o, q := Advance(p.flags, p.threads[i], true), Apply(p, Go(i, true));
      StepRuns(p, i, o, q);
      FlagLaw(p.flags, p.threads[i], true);
      WalkRuns(q, i, n - 1);
      RunOn(p, Go(i, true), Alone(i, n - 1));
      assert Alone(i, n) == [Go(i, true)] + Alone(i, n - 1);
      Regrouped(Shown(p.log, i), Effects(o.effect), Walk(o.flags, o.pc, n - 1).shown);
    }
  }

  lemma Regrouped(a: seq<Effect>, b: seq<Effect>, c: seq<Effect>)
    ensures (a + b) + c == a + (b + c)
  {
  }

  lemma StepWalk(f: Flags, pc: Pc, n: nat, o: Outcome, r: Walked)
    requires o == Advance(f, pc, true) && r == Walk(o.flags, o.pc, n)
    ensures Walk(f, pc, n + 1) == r.(shown := Effects(o.effect) + r.shown)
  {
  }

  /** A step that shows nothing. */
  lemma QuietWalk(f: Flags, pc: Pc, n: nat, g: Flags, next: Pc)
    requires Advance(f, pc, true) == Goto(next, g)
    ensures Walk(f, pc, n + 1) == Walk(g, next, n)
  {
    var r := Walk(g, next, n);
    assert r.(shown := [] + r.shown) == r;
    StepWalk(f, pc, n, Goto(next, g), r);
  }

  /** A wait whose flag is up takes three steps and shows nothing. */
  lemma WaitWalk(f: Flags, wait: Wait, n: nat)
    requires !f.exiting && Flag(f, wait)
    ensures Walk(f, AtExit(wait), n + 3) == Walk(f, After(wait), n)
  {
    QuietWalk(f, AtCheck(wait), n, f, After(wait));
    QuietWalk(f, AtFlag(wait), n + 1, f, AtCheck(wait));
    QuietWalk(f, AtExit(wait), n + 2, f, AtFlag(wait));
  }

  // What each kind of thread gets done

  /** Ready for data: ICE and DTLS are up and nobody has asked to exit. */
  predicate Ready(f: Flags) {
    f.gathered && f.negotiated && f.dtlsDone && !f.exiting
  }

  lemma ConnectWalk(f: Flags)
    requires Ready(f)
    ensures Walk(f, SetCursor, 4) == Walked(f.(cursorSet := true, sctpDone := true), Ended, [OnConnect])
  {
    var g := f.(cursorSet := true);
    var h := g.(sctpDone := true);
    var r := Walked(h, Ended, []);
    assert Walk(h, Ended, 0) == r;
    StepWalk(h, CallOnConnect, 0, Do(OnConnect, Ended, h), r);
    var r1 := Walked(h, Ended, [OnConnect]);
    StepWalk(g, SetSctpDone, 1, Goto(CallOnConnect, h), r1);
    StepWalk(g, Connecting, 2, Goto(SetSctpDone, g), r1);
    StepWalk(f, SetCursor, 3, Goto(Connecting, g), r1);
  }

  /** A startup thread makes the handshake packet, connects SCTP and calls `on_connect`. */
  lemma StartupWalk(f: Flags)
    requires Ready(f)
    ensures Walk(f, EntryPc(StartupThread), 11) ==
            Walked(f.(cursorSet := true, sctpDone := true), Ended, [Handshake, OnConnect])
  {
    ConnectWalk(f);
    WaitWalk(f, StartupDtls, 4);
    StepWalk(f, BeginHandshake, 7, Do(Handshake, AtExit(StartupDtls), f), Walk(f, AtExit(StartupDtls), 7));
    WaitWalk(f, StartupNegotiated, 8);
  }

  lemma InputWalk(f: Flags)
    requires Ready(f)
    ensures Walk(f, ReceiveDoneAgain, 2) == Walked(f, Ended, [SctpInput])
  {
    var r := Walked(f, Ended, []);
    assert Walk(f, Ended, 0) == r;
    StepWalk(f, ReceiveInput, 0, Do(SctpInput, Ended, f), r);
    StepWalk(f, ReceiveDoneAgain, 1, Goto(ReceiveInput, f), Walked(f, Ended, [SctpInput]));
  }

  /** A packet that arrives goes to SCTP. */
  lemma ReceivedWalk(f: Flags)
    requires Ready(f)
    ensures Walk(f, EntryPc(Received), 5) == Walked(f, Ended, [SctpInput])
  {
    var r := Walked(f, Ended, [SctpInput]);
    InputWalk(f);
    StepWalk(f, ReceiveDone, 2, Goto(ReceiveDoneAgain, f), r);
    StepWalk(f, ReceiveStore, 3, Goto(ReceiveDone, f), r);
    StepWalk(f, ReceiveTest, 4, Goto(ReceiveStore, f), r);
  }

  lemma ToIceWalk(f: Flags)
    requires Ready(f)
    ensures Walk(f, ToIceSend, 2) == Walked(f, Ended, [SendPacket])
  {
    var r := Walked(f, Ended, []);
    assert Walk(f, Ended, 0) == r;
    StepWalk(f, ToIceTest, 0, Goto(Ended, f), r);
    StepWalk(f, ToIceSend, 1, Do(SendPacket, ToIceTest, f), r);
  }

  lemma ToDtlsWalk(f: Flags, n: nat)
    requires Ready(f) && n == 9
    ensures Walk(f, ToDtlsWrite, n) == Walked(f, Ended, [SslWrite, SendPacket])
  {
    ToIceWalk(f);
    WaitWalk(f, ToIceNegotiated, n - 7);
    WaitWalk(f, ToIceGathered, n - 4);
    StepWalk(f, ToDtlsWrite, n - 1, Do(SslWrite, AtExit(ToIceGathered), f), Walked(f, Ended, [SendPacket]));
  }

  lemma QueuedWalk(f: Flags, n: nat)
    requires Ready(f) && n == 15
    ensures Walk(f, AtExit(ToDtlsNegotiated), n) == Walked(f, Ended, [SslWrite, SendPacket])
  {
    ToDtlsWalk(f, n - 6);
    WaitWalk(f, ToDtlsDone, n - 6);
    WaitWalk(f, ToDtlsNegotiated, n - 3);
  }

  lemma QueueWalk(f: Flags, m: nat, r: Walked)
    requires Walk(f, AtExit(ToDtlsNegotiated), m) == r
    ensures Walk(f, Queue, m + 1) == r
  {
    QuietWalk(f, Queue, m, f, AtExit(ToDtlsNegotiated));
  }

  /** A packet to send is sealed, then sent. */
  lemma OutgoingWalk(f: Flags, m: nat, r: Walked)
    requires Ready(f) && m == 15 && r == Walked(f, Ended, [SslWrite, SendPacket])
    ensures Walk(f, Queue, m + 1) == r
  {
    QueuedWalk(f, m);
    QueueWalk(f, m, r);
  }

  lemma IceRound(f: Flags)
    requires Ready(f)
    ensures Walk(f, IceLoop, 3) == Walked(f, IceLoop, [SendPacket])
  {
    var r := Walked(f, IceLoop, []);
    assert Walk(f, IceLoop, 0) == r;
    StepWalk(f, IceTest, 0, Goto(IceLoop, f), r);
    StepWalk(f, IceSend, 1, Do(SendPacket, IceTest, f), r);
    StepWalk(f, IceLoop, 2, Goto(IceSend, f), Walked(f, IceLoop, [SendPacket]));
  }

  /** The ICE thread sends what there is and comes back for more. */
  lemma IceWalk(f: Flags)
    requires Ready(f)
    ensures Walk(f, EntryPc(IceThread), 9) == Walked(f, IceLoop, [SendPacket])
  {
    IceRound(f);
    WaitWalk(f, IceNegotiated, 3);
    WaitWalk(f, IceGathered, 6);
  }

  /** What a thread of each kind shows, from its start in a ready process, and how many
      steps that takes. */
  function Deeds(kind: Kind): (nat, seq<Effect>) {
    match kind
    case StartupThread => (11, [Handshake, OnConnect])
    case IceThread => (9, [SendPacket])
    case Received => (5, [SctpInput])
    case Outgoing => (16, [SslWrite, SendPacket])
  }

  /** In any run that is ready for data, a thread of any kind that starts gets its work
      done, whatever other threads there are. */
  lemma ThreadGetsDone(before: seq<Step>, kind: Kind)
    requires var p := Run(Start(), before); !p.killed && Ready(p.flags)
    ensures var i, (n, deeds) := |Run(Start(), before).threads|, Deeds(kind);
      Shown(Run(Start(), before + [Spawn(kind)] + Alone(i, n)).log, i) == deeds
  {
    var p := Run(Start(), before);
    var (n, deeds) := Deeds(kind);
    RunBoth(Start(), before, [Spawn(kind)]);
    RunBoth(Start(), before + [Spawn(kind)], Alone(|p.threads|, n));
    RunOn(p, Spawn(kind), []);
    assert [Spawn(kind)] + [] == [Spawn(kind)];
    var q := Apply(p, Spawn(kind));
    NothingShown(before);
    WalkRuns(q, |p.threads|, n);
    match kind
    case StartupThread => StartupWalk(p.flags);
    case IceThread => IceWalk(p.flags);
    case Received => ReceivedWalk(p.flags);
    case Outgoing => OutgoingWalk(p.flags, n - 1, Walked(p.flags, Ended, deeds));
  }

  /** Only threads that were started show anything. */
  ghost predicate QuietAbove(p: Process) {
    forall i: nat :: i >= |p.threads| ==> Shown(p.log, i) == []
  }

  lemma {:induction false} NothingShown(steps: seq<Step>)
    ensures QuietAbove(Run(Start(), steps))
  {
    if steps != [] {
      NothingShown(steps[..|steps| - 1]);
      StepShows(Run(Start(), steps[..|steps| - 1]), steps[|steps| - 1]);
    }
  }

  lemma StepShows(p: Process, step: Step)
    requires QuietAbove(p)
    ensures QuietAbove(Apply(p, step))
  {
    var q := Apply(p, step);
    assert |q.threads| >= |p.threads|;
    if q.log != p.log {
      assert q.log[..|p.log|] == p.log && |q.log| == |p.log| + 1;
    }
  }

  // Waiting and giving up

  /** A thread waits as long as its flag is down. */
  lemma KeepsWaiting(f: Flags, wait: Wait)
    requires !f.exiting && !Flag(f, wait)
    ensures Walk(f, AtExit(wait), 2) == Walked(f, AtExit(wait), [])
  {
    assert Walk(f, AtExit(wait), 0) == Walked(f, AtExit(wait), []);
    QuietWalk(f, AtFlag(wait), 0, f, AtExit(wait));
    QuietWalk(f, AtExit(wait), 1, f, AtFlag(wait));
  }

  /** Told to exit, it ends from the head of its loop in two steps without a deed; the
      threads that send end the process with them. */
  lemma GivesUp(f: Flags, wait: Wait, yes: bool)
    requires f.exiting
    ensures var o := Advance(f, AtExit(wait), yes);
      && o == Goto(AtCheck(wait), f)
      && Advance(f, o.pc, yes).pc == Ended && Advance(f, o.pc, yes).effect == None && Advance(f, o.pc, yes).flags == f
      && (Advance(f, o.pc, yes).killed <==>
            wait == ToDtlsNegotiated || wait == ToDtlsDone || wait == ToIceGathered || wait == ToIceNegotiated)
  {
  }

  /** The ICE thread ends at the head of its loop; a packet before ICE is up is dropped; a
      startup thread that SCTP does not connect ends without calling the user. */
  lemma EndsEarly(f: Flags)
    ensures f.exiting ==> Advance(f, IceLoop, false) == Goto(Ended, f)
    ensures !f.negotiated ==> Advance(f, ReceiveTest, false) == Goto(Ended, f)
    ensures Advance(f, Connecting, false) == Goto(Ended, f)
  {
  }

  lemma IceHandshakes(f: Flags)
    requires !f.dtlsDone
    ensures Walk(f, IceTest, 4) == Walked(f.(dtlsDone := true), IceLoop, [Handshake])
  {
    var g := f.(dtlsDone := true);
    assert Walk(g, IceLoop, 0) == Walked(g, IceLoop, []);
    QuietWalk(f, IceSetDone, 0, g, IceLoop);
    QuietWalk(f, IceFinished, 1, f, IceSetDone);
    StepWalk(f, IceHandshake, 2, Do(Handshake, IceFinished, f), Walked(g, IceLoop, []));
    QuietWalk(f, IceTest, 3, f, IceHandshake);
  }

  /** Until DTLS is up, each round of the ICE thread sends what there is, goes on with the
      handshake, and marks DTLS as up when that is finished. */
  lemma IceHandshakeRound(f: Flags)
    requires !f.dtlsDone && !f.exiting
    ensures Walk(f, IceLoop, 6) == Walked(f.(dtlsDone := true), IceLoop, [SendPacket, Handshake])
  {
    IceHandshakes(f);
    StepWalk(f, IceSend, 4, Do(SendPacket, IceTest, f), Walked(f.(dtlsDone := true), IceLoop, [Handshake]));
    QuietWalk(f, IceLoop, 5, f, IceSend);
  }

  // Every startup thread can still connect its user

  /** How many own steps a startup thread is from having called `on_connect`. */
  function Left(pc: Pc): nat {
    match pc
    case AtExit(w) => if w.StartupNegotiated? then 11 else if w.StartupDtls? then 7 else 0
    case AtFlag(w) => if w.StartupNegotiated? then 10 else if w.StartupDtls? then 6 else 0
    case AtCheck(w) => if w.StartupNegotiated? then 9 else if w.StartupDtls? then 5 else 0
    case BeginHandshake => 8
    case SetCursor => 4
    case Connecting => 3
    case SetSctpDone => 2
    case CallOnConnect => 1
    case _ => 0
  }

  predicate Up(f: Flags) {
    f.negotiated && f.dtlsDone && !f.exiting
  }

  /** One step nearer. */
  lemma NearerCall(f: Flags, pc: Pc)
    requires Up(f) && Left(pc) > 1
    ensures var o := Advance(f, pc, true); Up(o.flags) && Left(o.pc) == Left(pc) - 1
  {
  }

  lemma {:induction false} LeftWalk(f: Flags, pc: Pc, n: nat)
    requires Up(f) && Left(pc) == n > 0
    ensures OnConnect in Walk(f, pc, n).shown
    decreases n
  {
    var o := Advance(f, pc, true);
    if n > 1 {
      NearerCall(f, pc);
      LeftWalk(o.flags, o.pc, n - 1);
      StepWalk(f, pc, n - 1, o, Walk(o.flags, o.pc, n - 1));
    } else {
      assert pc == CallOnConnect && o.effect == Some(OnConnect);
      StepWalk(f, pc, 0, o, Walk(o.flags, o.pc, 0));
    }
  }

  lemma {:induction false} ShownConnects(log: seq<Entry>, i: nat)
    requires OnConnect in Shown(log, i)
    ensures Connects(log, i) > 0
  {
    var last := |log| - 1;
    if !(log[last].thread == i && log[last].effect == OnConnect) {
      ShownConnects(log[..last], i);
    }
  }

  lemma FinishedWalk(f: Flags)
    requires f.negotiated && !f.dtlsDone
    ensures Walk(f, ReceiveFinished, 2) == Walked(f.(dtlsDone := true), ReceiveDoneAgain, [])
  {
    var g := f.(dtlsDone := true);
    assert Walk(g, ReceiveDoneAgain, 0) == Walked(g, ReceiveDoneAgain, []);
    QuietWalk(f, ReceiveSetDone, 0, g, ReceiveDoneAgain);
    QuietWalk(f, ReceiveFinished, 1, f, ReceiveSetDone);
  }

  /** A packet that completes the handshake: DTLS is marked as up. */
  lemma HandshakeWalk(f: Flags)
    requires f.negotiated && !f.dtlsDone
    ensures Walk(f, ReceiveTest, 5) == Walked(f.(dtlsDone := true), ReceiveDoneAgain, [])
  {
    FinishedWalk(f);
    QuietWalk(f, ReceiveDone, 2, f, ReceiveFinished);
    QuietWalk(f, ReceiveStore, 3, f, ReceiveDone);
    QuietWalk(f, ReceiveTest, 4, f, ReceiveStore);
  }

  /** A packet arrives that completes the handshake. */
  lemma PacketArrives(p: Process, i: nat, more: seq<Step>)
    requires !p.killed && !p.flags.exiting && p.flags.negotiated && !p.flags.dtlsDone && i < |p.threads|
    requires more == [Spawn(Received)] + Alone(|p.threads|, 5)
    ensures var q := Run(p, more);
      !q.killed && Up(q.flags) && i < |q.threads| && q.threads[i] == p.threads[i]
  {
    var r := Apply(p, Spawn(Received));
    RunOn(p, Spawn(Received), Alone(|p.threads|, 5));
    HandshakeWalk(r.flags);
    WalkRuns(r, |p.threads|, 5);
  }

  /** The steps after which ICE and DTLS are up and thread `i` is where it was. */
  lemma BringUp(p: Process, i: nat) returns (more: seq<Step>)
    requires !p.killed && !p.flags.exiting && i < |p.threads|
    ensures var q := Run(p, more);
      !q.killed && Up(q.flags) && i < |q.threads| && q.threads[i] == p.threads[i]
  {
    more := if p.flags.dtlsDone then [] else [Spawn(Received)] + Alone(|p.threads|, 5);
    var q := Apply(p, PairSelected);
    assert !q.killed && !q.flags.exiting && q.flags.negotiated && q.threads == p.threads && q.flags.dtlsDone == p.flags.dtlsDone;
    if !p.flags.dtlsDone {
      PacketArrives(q, i, more);
    }
    RunOn(p, PairSelected, more);
    more := [PairSelected] + more;
  }

  /** What a thread in a process that is up shows when it goes on alone. */
  lemma CallsAlone(q: Process, i: nat, n: nat)
    requires !q.killed && Up(q.flags) && i < |q.threads| && n == Left(q.threads[i]) > 0
    ensures Connects(Run(q, Alone(i, n)).log, i) > 0
  {
    LeftWalk(q.flags, q.threads[i], n);
    WalkRuns(q, i, n);
    ShownConnects(Run(q, Alone(i, n)).log, i);
  }

  /** In every reachable state in which nobody has asked to exit, whatever threads there
      are, each startup thread that has not ended can still call `on_connect`. */
  lemma StartupConnects(before: seq<Step>, i: nat)
    requires var p := Run(Start(), before);
      !p.killed && !p.flags.exiting && i < |p.threads| && Left(p.threads[i]) > 0
    ensures exists more :: Connects(Run(Start(), before + more).log, i) == 1
  {
    var p := Run(Start(), before);
    var up := BringUp(p, i);
    var n := Left(p.threads[i]);
    CallsAlone(Run(p, up), i, n);
    RunBoth(p, up, Alone(i, n));
    RunBoth(Start(), before, up + Alone(i, n));
    RunOrdered(before + (up + Alone(i, n)));
  }

  function Spawns(kinds: seq<Kind>): seq<Step> {
    seq(|kinds|, i requires 0 <= i < |kinds| => Spawn(kinds[i]))
  }

  lemma {:induction false} SpawnsRun(kinds: seq<Kind>)
    ensures var p := Run(Start(), Spawns(kinds));
      !p.killed && !p.flags.exiting && |p.threads| == |kinds|
      && forall i :: 0 <= i < |kinds| ==> p.threads[i] == EntryPc(kinds[i])
  {
    if kinds != [] {
      var front := kinds[..|kinds| - 1];
      SpawnsRun(front);
      assert Spawns(kinds)[..|kinds| - 1] == Spawns(front);
    }
  }

  /** So whatever threads a process starts with, there is a run in which the startup thread
      among them calls `on_connect`. */
  lemma SomeRunConnects(kinds: seq<Kind>, i: nat)
    requires i < |kinds| && kinds[i].StartupThread?
    ensures exists more :: Connects(Run(Start(), Spawns(kinds) + more).log, i) == 1
  {
    SpawnsRun(kinds);
    StartupConnects(Spawns(kinds), i);
  }

  // What the libraries must have answered

  /** Where each effect is shown, when the process is killed, and which answers it takes. */
  lemma EffectLaw(f: Flags, pc: Pc, yes: bool)
    ensures var e := Advance(f, pc, yes).effect;
      && (e == Some(OnConnect) <==> pc == CallOnConnect)
      && (e == Some(Handshake) <==> pc == BeginHandshake || pc == IceHandshake || pc == ReceiveHandshake || pc == ToIceHandshake)
      && (e == Some(SslWrite) <==> pc == ToDtlsWrite && yes)
      && (e == Some(SendPacket) <==> (pc == IceSend || pc == ToIceSend) && yes)
      && (e == Some(SctpInput) <==> pc == ReceiveInput && yes)
    ensures Advance(f, pc, yes).killed <==>
      && pc.AtCheck? && f.exiting
      && (pc.wait == ToDtlsNegotiated || pc.wait == ToDtlsDone || pc.wait == ToIceGathered || pc.wait == ToIceNegotiated)
  {
  }

  /** A step asked the library at `pc` and the answer was yes. */
  predicate SaidYes(p: Process, step: Step, pc: Pc) {
    step.Go? && step.yes && !p.killed && step.thread < |p.threads| && p.threads[step.thread] == pc
  }

  predicate Said(steps: seq<Step>, pc: Pc) {
    steps != [] && (Said(steps[..|steps| - 1], pc) || SaidYes(Run(Start(), steps[..|steps| - 1]), steps[|steps| - 1], pc))
  }

  predicate SaidFinished(steps: seq<Step>) {
    Said(steps, IceFinished) || Said(steps, ReceiveFinished) || Said(steps, ToIceFinished)
  }

  /** What the thread has learnt from a library. */
  predicate Learnt(pc: Pc, connected: bool, finished: bool) {
    && (pc == SetSctpDone || pc == CallOnConnect ==> connected)
    && (pc == IceSetDone || pc == ReceiveSetDone || pc == ToIceSetDone ==> finished)
  }

  ghost predicate AllLearnt(p: Process, connected: bool, finished: bool) {
    && (p.flags.sctpDone ==> connected) && (p.flags.dtlsDone ==> finished)
    && forall i :: 0 <= i < |p.threads| ==> Learnt(p.threads[i], connected, finished)
  }

  predicate Waits(pc: Pc) {
    pc.AtExit? || pc.AtFlag? || pc.AtCheck?
  }

  /** Which step raises a flag. */
  predicate RaisesRight(f: Flags, pc: Pc, o: Outcome) {
    && (o.flags.sctpDone <==> f.sctpDone || pc == SetSctpDone)
    && (o.flags.dtlsDone <==> f.dtlsDone || pc == IceSetDone || pc == ReceiveSetDone || pc == ToIceSetDone)
    && (o.flags.cursorSet <==> f.cursorSet || pc == SetCursor)
    && o.flags.exiting == f.exiting && (o.killed ==> f.exiting)
  }

  lemma WaitRaises(f: Flags, pc: Pc, yes: bool)
    requires Waits(pc)
    ensures RaisesRight(f, pc, Advance(f, pc, yes))
  {
  }

  lemma IceRaises(f: Flags, pc: Pc, yes: bool)
    requires OfIce(pc)
    ensures RaisesRight(f, pc, Advance(f, pc, yes))
  {
  }

  lemma PlainRaises(f: Flags, pc: Pc, yes: bool)
    requires !Waits(pc) && !OfIce(pc)
    ensures RaisesRight(f, pc, Advance(f, pc, yes))
  {
  }

  lemma FlagLaw(f: Flags, pc: Pc, yes: bool)
    ensures RaisesRight(f, pc, Advance(f, pc, yes))
  {
    if Waits(pc) {
      WaitRaises(f, pc, yes);
    } else if OfIce(pc) {
      IceRaises(f, pc, yes);
    } else {
      PlainRaises(f, pc, yes);
    }
  }

  /** From where a thread comes to raise a flag. */
  lemma RaiseLaw(f: Flags, pc: Pc, yes: bool)
    ensures var next := Advance(f, pc, yes).pc;
      && (next == SetSctpDone <==> pc == Connecting && yes) && (next == CallOnConnect <==> pc == SetSctpDone)
      && (next == IceSetDone <==> pc == IceFinished && yes)
      && (next == ReceiveSetDone <==> pc == ReceiveFinished && yes)
      && (next == ToIceSetDone <==> pc == ToIceFinished && yes)
  {
  }

  lemma AdvanceLearns(f: Flags, pc: Pc, yes: bool, connected: bool, finished: bool)
    requires (f.sctpDone ==> connected) && (f.dtlsDone ==> finished) && Learnt(pc, connected, finished)
    ensures var o := Advance(f, pc, yes);
      var connected' := connected || (yes && pc == Connecting);
      var finished' := finished || (yes && (pc == IceFinished || pc == ReceiveFinished || pc == ToIceFinished));
      (o.flags.sctpDone ==> connected') && (o.flags.dtlsDone ==> finished') && Learnt(o.pc, connected', finished')
  {
    FlagLaw(f, pc, yes);
    RaiseLaw(f, pc, yes);
  }

  lemma StepLearns(p: Process, step: Step, connected: bool, finished: bool, connected': bool, finished': bool)
    requires AllLearnt(p, connected, finished)
    requires connected' == (connected || SaidYes(p, step, Connecting))
    requires finished' ==
             (finished || SaidYes(p, step, IceFinished) || SaidYes(p, step, ReceiveFinished) || SaidYes(p, step, ToIceFinished))
    ensures AllLearnt(Apply(p, step), connected', finished')
  {
    if step.Go? && !p.killed && step.thread < |p.threads| {
      AdvanceLearns(p.flags, p.threads[step.thread], step.yes, connected, finished);
    }
  }

  lemma {:induction false} RunLearns(steps: seq<Step>)
    ensures AllLearnt(Run(Start(), steps), Said(steps, Connecting), SaidFinished(steps))
  {
    if steps != [] {
      var front := steps[..|steps| - 1];
      RunLearns(front);
      StepLearns(Run(Start(), front), steps[|steps| - 1], Said(front, Connecting), SaidFinished(front),
                 Said(steps, Connecting), SaidFinished(steps));
    }
  }

  /** In every run SCTP is marked as up only after it reported a connection, DTLS only after
      a finished handshake, and `on_connect` is called only after both. */
  lemma RunAnswered(steps: seq<Step>)
    ensures var p := Run(Start(), steps);
      && (p.flags.sctpDone ==> Said(steps, Connecting)) && (p.flags.dtlsDone ==> SaidFinished(steps))
      && forall n :: 0 <= n < |p.log| && p.log[n].effect.OnConnect? ==> Said(steps, Connecting) && SaidFinished(steps)
  {
    RunOrdered(steps);
    RunLearns(steps);
    var p := Run(Start(), steps);
    forall n | 0 <= n < |p.log| && p.log[n].effect.OnConnect?
      ensures p.flags.sctpDone && p.flags.dtlsDone
    {
      assert Timely(p.log[n].effect, p.log[n].flags) && Below(p.log[n].flags, p.flags);
    }
  }
}
