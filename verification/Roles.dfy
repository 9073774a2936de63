/** Who becomes client and who server: two peers that exchange descriptions. */
module Roles {
  import opened Channels
  import opened Sdp
  import opened SdpTheorems

  /** One of the two peers. */
  datatype Side = Left | Right {
    function Other(): Side {
      if Left? then Right else Left
    }
  }

  datatype Peer = Peer(role: Role, port: int, remotePort: int, local: Local)

  /** `posted` holds every description made so far, oldest first, with its maker. */
  datatype Talk = Talk(left: Peer, right: Peer, posted: seq<(Side, string)>) {
    function At(side: Side): Peer {
      if side.Left? then left else right
    }

    function With(side: Side, peer: Peer): Talk {
      if side.Left? then this.(left := peer) else this.(right := peer)
    }
  }

  datatype Step = Describe(side: Side) | Read(n: nat)

  /** A peer describes itself, or the other peer reads description `n`. */
  function Apply(t: Talk, step: Step): Talk {
    match step
    case Describe(side) =>
      var p := t.At(side);
      t.(posted := t.posted + [(side, Printed(p.role, p.port, p.local))])
    case Read(n) =>
      if n >= |t.posted| then t
      else
        var (maker, sdp) := t.posted[n];
        var p := t.At(maker.Other());
        var q := Parsed(p.role, p.remotePort, sdp);
        t.With(maker.Other(), p.(role := q.role, remotePort := q.remotePort))
  }

  function Run(t: Talk, steps: seq<Step>): Talk {
    if steps == [] then t else Apply(Run(t, steps[..|steps| - 1]), steps[|steps| - 1])
  }

  /** New peers with any roles; `sctp->local_port` is drawn from 10000 up. */
  predicate Start(t: Talk) {
    t.posted == [] && t.left.port > 0 && t.right.port > 0 && OneLine(t.left.local) && OneLine(t.right.local)
  }

  predicate Complementary(t: Talk) {
    t.left.role != t.right.role
  }

  /** The roles that the makers had when they wrote the descriptions. */
  function RolesPosted(t: Talk, steps: seq<Step>): seq<(Side, Role)> {
    if steps == [] then []
    else
      var init, last := steps[..|steps| - 1], steps[|steps| - 1];
      RolesPosted(t, init) + if last.Describe? then [(last.side, Run(t, init).At(last.side).role)] else []
  }

  /** Every description in `posted` was printed by its maker in the role recorded. */
  ghost predicate PostedOk(t: Talk, u: Talk, roles: seq<(Side, Role)>) {
    && |u.posted| == |roles|
    && forall n :: 0 <= n < |roles| ==>
         var (side, role) := roles[n];
         u.posted[n] == (side, Printed(role, t.At(side).port, t.At(side).local))
  }

  /** Ports and agents stay the same. */
  predicate SamePeers(t: Talk, u: Talk) {
    && u.left.port == t.left.port && u.left.local == t.left.local
    && u.right.port == t.right.port && u.right.local == t.right.local
  }

  lemma {:induction false} RunPosted(t: Talk, steps: seq<Step>)
    requires Start(t)
    ensures SamePeers(t, Run(t, steps)) && PostedOk(t, Run(t, steps), RolesPosted(t, steps))
  {
    if steps != [] {
      RunPosted(t, steps[..|steps| - 1]);
    }
  }

  /** Reading a description, however old, gives the reader the opposite of the role that
      its maker had when it was written, and the maker's port; the maker is unchanged. */
  lemma ReadTakes(t: Talk, steps: seq<Step>, n: nat)
    requires Start(t) && n < |RolesPosted(t, steps)|
    ensures var (maker, role) := RolesPosted(t, steps)[n];
      var u, v := Run(t, steps), Apply(Run(t, steps), Read(n));
      && v.At(maker.Other()).role == role.Opposite() && v.At(maker.Other()).remotePort == t.At(maker).port
      && v.At(maker) == u.At(maker)
  {
    RunPosted(t, steps);
    var u := Run(t, steps);
    var (maker, role) := RolesPosted(t, steps)[n];
    PrintedRecovered(u.At(maker.Other()).role, u.At(maker.Other()).remotePort, role, t.At(maker).port, t.At(maker).local);
  }

  /** A reading leaves the roles complementary just when the description is current:
      its maker still has the role that it shows. */
  lemma ReadComplementaryIff(t: Talk, steps: seq<Step>, n: nat)
    requires Start(t) && n < |RolesPosted(t, steps)|
    ensures var (maker, role) := RolesPosted(t, steps)[n];
      Complementary(Apply(Run(t, steps), Read(n))) <==> Run(t, steps).At(maker).role == role
  {
    ReadTakes(t, steps, n);
  }

  /** The last reading of a run. */
  function LastRead(t: Talk, steps: seq<Step>): (k: int)
    ensures -1 <= k < |steps|
    ensures k >= 0 ==> steps[k].Read? && steps[k].n < |RolesPosted(t, steps[..k])|
  {
    if steps == [] then -1
    else
      var k := |steps| - 1;
      if steps[k].Read? && steps[k].n < |RolesPosted(t, steps[..k])| then k
      else
        var j := LastRead(t, steps[..k]);
        assert j >= 0 ==> steps[..k][..j] == steps[..j];
        j
  }

  /** Over whole runs: the roles end complementary just when the last description read
      was current, or nothing was read and they began so. */
  lemma {:induction false} RunComplementaryIff(t: Talk, steps: seq<Step>)
    requires Start(t)
    ensures var k := LastRead(t, steps);
      Complementary(Run(t, steps)) <==>
        if k < 0 then Complementary(t)
        else var (maker, role) := RolesPosted(t, steps[..k])[steps[k].n]; Run(t, steps[..k]).At(maker).role == role
  {
    if steps != [] {
      var k := |steps| - 1;
      var init := steps[..k];
      RunPosted(t, init);
      if steps[k].Read? && steps[k].n < |RolesPosted(t, init)| {
        ReadComplementaryIff(t, init, steps[k].n);
      } else {
        RunComplementaryIff(t, init);
        var j := LastRead(t, init);
        assert j >= 0 ==> init[..j] == steps[..j] && init[j] == steps[j];
      }
    }
  }

  // Offer and answer, and both at once

  /** One side after the other describes itself, and the other reads that at once. */
  function Handoffs(sides: seq<Side>): seq<Step> {
    if sides == [] then []
    else
      var n := |sides| - 1;
      Handoffs(sides[..n]) + [Describe(sides[n])] + [Read(n)]
  }

  /** Offer and answer, from any roles and repeated in any directions, give the peers
      complementary roles: the first to describe itself keeps its role. */
  lemma {:induction false} HandoffsSettle(t: Talk, sides: seq<Side>)
    requires Start(t) && sides != []
    ensures var u := Run(t, Handoffs(sides));
      Complementary(u) && u.At(sides[0]).role == t.At(sides[0]).role && |RolesPosted(t, Handoffs(sides))| == |sides|
  {
    var n := |sides| - 1;
    var before, side := Handoffs(sides[..n]), sides[n];
    if n > 0 {
      HandoffsSettle(t, sides[..n]);
    }
    OneHandoff(t, before, side, n);
  }

  lemma OneHandoff(t: Talk, before: seq<Step>, side: Side, n: nat)
    requires Start(t) && |RolesPosted(t, before)| == n
    ensures var u, v := Run(t, before), Run(t, before + [Describe(side)] + [Read(n)]);
      && v.At(side).role == u.At(side).role && v.At(side.Other()).role == u.At(side).role.Opposite()
      && |RolesPosted(t, before + [Describe(side)] + [Read(n)])| == n + 1
  {
    var described := before + [Describe(side)];
    assert described[..|before|] == before && (described + [Read(n)])[..|described|] == described;
    ReadTakes(t, described, n);
  }

  /** In every round both sides describe themselves before either reads. */
  function Lockstep(rounds: nat): seq<Step> {
    if rounds == 0 then []
    else
      Lockstep(rounds - 1) + [Describe(Left)] + [Describe(Right)] + [Read(2 * rounds - 2)] + [Read(2 * rounds - 1)]
  }

  /** Describing at the same time never settles: peers with equal roles both change in
      every round and stay equal, and complementary ones stay as they are. */
  lemma {:induction false} LockstepExact(t: Talk, rounds: nat)
    requires Start(t)
    ensures var u := Run(t, Lockstep(rounds));
      && (Complementary(u) <==> Complementary(t))
      && u.left.role == (if Complementary(t) || rounds % 2 == 0 then t.left.role else t.left.role.Opposite())
      && |RolesPosted(t, Lockstep(rounds))| == 2 * rounds
  {
    if rounds > 0 {
      LockstepExact(t, rounds - 1);
      OneRound(t, Lockstep(rounds - 1), 2 * rounds - 2);
      var u, v := Run(t, Lockstep(rounds - 1)), Run(t, Lockstep(rounds));
      RoundRoles(t.left.role, t.right.role, u.left.role, u.right.role, v.left.role, v.right.role, rounds);
    }
  }

  lemma RoundRoles(a: Role, b: Role, a1: Role, b1: Role, a2: Role, b2: Role, rounds: nat)
    requires rounds > 0 && a2 == b1.Opposite() && b2 == a1.Opposite() && (a1 != b1 <==> a != b)
    requires a1 == if a != b || (rounds - 1) % 2 == 0 then a else a.Opposite()
    ensures (a2 != b2 <==> a != b) && a2 == if a != b || rounds % 2 == 0 then a else a.Opposite()
  {
  }

  lemma OneRound(t: Talk, before: seq<Step>, n: nat)
    requires Start(t) && |RolesPosted(t, before)| == n
    ensures var after := before + [Describe(Left)] + [Describe(Right)] + [Read(n)] + [Read(n + 1)];
      var u, v := Run(t, before), Run(t, after);
      && v.left.role == u.right.role.Opposite() && v.right.role == u.left.role.Opposite()
      && |RolesPosted(t, after)| == n + 2
  {
    var one := before + [Describe(Left)];
    var two := one + [Describe(Right)];
    var three := two + [Read(n)];
    assert one[..|before|] == before && two[..|one|] == one && three[..|two|] == two;
    assert (three + [Read(n + 1)])[..|three|] == three;
    assert RolesPosted(t, two) == RolesPosted(t, before) + [(Left, Run(t, before).left.role)]
                                  + [(Right, Run(t, before).right.role)];
    ReadTakes(t, two, n);
    ReadTakes(t, three, n + 1);
  }
}
