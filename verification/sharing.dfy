/** Which command object each container is started with when a cluster comes
    from the builder. `build` hands every container the builder's own command
    object, and `bootstrapNext` writes the join address into the command of the
    container it bootstraps, so the write lands in the builder. Two replays of
    a start trace make that visible: `RunShared` (one object, as the code
    does) and `RunIsolated` (a private copy per container, as evidently
    intended). */
module SharedCommand {
  import opened Wrappers
  import AgentCommand
  import opened Cluster

  /** A container start together with the command it renders. */
  datatype Launch = Launch(slot: nat, command: AgentCommand.Command)

  /** The command once `bootstrapNext` has set join and retry on it. */
  function Joined(c: AgentCommand.Command, address: Ip): (r: AgentCommand.Command)
    ensures r.join == Some(address) && r.retryJoin
    ensures r.dev == c.dev && r.ui == c.ui
  {
    AgentCommand.SetRetryJoin(AgentCommand.SetJoin(c, Some(address)), true)
  }

  /** The launches of a successful start over `n` slots when every container
      starts from `base`: the anchor with `base`, every member with the join. */
  function StartLaunches(base: AgentCommand.Command, address: Ip, n: nat): seq<Launch>
    requires n >= 1
  {
    if n == 1 then [Launch(0, base)] else StartLaunches(base, address, n - 1) + [Launch(n - 1, Joined(base, address))]
  }

  // ---------------------------------------------------------------------------
  // As written: one shared object.

  datatype Shared = Shared(command: AgentCommand.Command, launches: seq<Launch>)

  function SharedStep(s: Shared, e: Event): Shared {
    match e
    case JoinSet(_, a) => s.(command := AgentCommand.SetJoin(s.command, Some(a)))
    case RetrySet(_) => s.(command := AgentCommand.SetRetryJoin(s.command, true))
    case Started(i) => s.(launches := s.launches + [Launch(i, s.command)])
    case _ => s
  }

  function RunShared(s: Shared, trace: seq<Event>): Shared
    decreases |trace|
  {
    if |trace| == 0 then s else RunShared(SharedStep(s, trace[0]), trace[1..])
  }

  lemma {:induction false} RunSharedAppend(s: Shared, a: seq<Event>, b: seq<Event>)
    ensures RunShared(s, a + b) == RunShared(RunShared(s, a), b)
    decreases |a|
  {
    if |a| == 0 {
      assert a + b == b;
    } else {
      assert (a + b)[1..] == a[1..] + b;
      RunSharedAppend(SharedStep(s, a[0]), a[1..], b);
    }
  }

  lemma RunSharedCons(s: Shared, e: Event, t: seq<Event>)
    ensures RunShared(s, [e] + t) == RunShared(SharedStep(s, e), t)
  {
    assert ([e] + t)[1..] == t;
  }

  /** Creating and attaching a container does not touch the command. */
  lemma {:induction false} SharedBootstrap(s: Shared, slot: nat, network: Option<NetId>)
    ensures RunShared(s, Bootstrap(slot, network)) == s
  {
    var rest: seq<Event> := if network.Some? then [Attached(slot, network.value)] else [];
    RunSharedCons(s, Created(slot), rest);
    if network.Some? {
      RunSharedCons(s, Attached(slot, network.value), []);
    }
  }

  lemma {:induction false} SharedMember(s: Shared, slot: nat, network: Option<NetId>, address: Ip)
    ensures RunShared(s, MemberEvents(slot, network, address)) ==
            Shared(Joined(s.command, address), s.launches + [Launch(slot, Joined(s.command, address))])
  {
    RunSharedAppend(s, Bootstrap(slot, network), [JoinSet(slot, address), RetrySet(slot), Started(slot)]);
    SharedBootstrap(s, slot, network);
    var s1 := SharedStep(s, JoinSet(slot, address));
    var s2 := SharedStep(s1, RetrySet(slot));
    RunSharedCons(s, JoinSet(slot, address), [RetrySet(slot), Started(slot)]);
    RunSharedCons(s1, RetrySet(slot), [Started(slot)]);
    RunSharedCons(s2, Started(slot), []);
  }

  /** The shared object through a successful start of `n` slots: the launches
      are the intended ones, and from two slots on the object is left holding
      the join. */
  lemma {:induction false} SharedStart(base: AgentCommand.Command, network: Option<NetId>, address: Ip, n: nat)
    requires n >= 1
    ensures RunShared(Shared(base, []), AnchorEvents(network) + JoinPhase(n, network, address)) ==
            Shared(if n >= 2 then Joined(base, address) else base, StartLaunches(base, address, n))
  {
    var s0 := Shared(base, []);
    if n == 1 {
      assert AnchorEvents(network) + JoinPhase(n, network, address) == AnchorEvents(network);
      SharedAnchor(s0, network);
    } else {
      SharedStart(base, network, address, n - 1);
      var front := AnchorEvents(network) + JoinPhase(n - 1, network, address);
      var member := MemberEvents(n - 1, network, address);
      assert AnchorEvents(network) + JoinPhase(n, network, address) == front + member;
      RunSharedAppend(s0, front, member);
      var mid := RunShared(s0, front);
      assert mid == Shared(if n - 1 >= 2 then Joined(base, address) else base, StartLaunches(base, address, n - 1));
      SharedMember(mid, n - 1, network, address);
      assert Joined(mid.command, address) == Joined(base, address);
    }
  }

  /** The anchor's events launch it with the current command and change
      nothing else. */
  lemma SharedAnchor(s: Shared, network: Option<NetId>)
    ensures RunShared(s, AnchorEvents(network)) == Shared(s.command, s.launches + [Launch(0, s.command)])
  {
    RunSharedAppend(s, Bootstrap(0, network), [Started(0), Inspected(0)]);
    SharedBootstrap(s, 0, network);
    var s1 := SharedStep(s, Started(0));
    RunSharedCons(s, Started(0), [Inspected(0)]);
    RunSharedCons(s1, Inspected(0), []);
  }

  /** A refused anchor launches nothing. */
  lemma SharedRefusedAnchor(s: Shared, network: Option<NetId>)
    ensures RunShared(s, Bootstrap(0, network) + [StartRefused(0)]) == s
  {
    RunSharedAppend(s, Bootstrap(0, network), [StartRefused(0)]);
    SharedBootstrap(s, 0, network);
    RunSharedCons(s, StartRefused(0), []);
  }

  /** A member that fails launches nothing; with a command object it still
      writes the join into the shared command before its start throws. */
  lemma SharedMemberFailure<H>(s: Shared, slot: nat, network: Option<NetId>, address: Ip, host: Host<H>)
    ensures RunShared(s, MemberFailure(slot, network, address, host)).launches == s.launches
    ensures RunShared(s, MemberFailure(slot, network, address, host)).command ==
            if host.hasCommand(host.create(slot)) then Joined(s.command, address) else s.command
  {
    SharedBootstrap(s, slot, network);
    if host.hasCommand(host.create(slot)) {
      RunSharedAppend(s, Bootstrap(slot, network), [JoinSet(slot, address), RetrySet(slot), StartRefused(slot)]);
      var s1 := SharedStep(s, JoinSet(slot, address));
      var s2 := SharedStep(s1, RetrySet(slot));
      RunSharedCons(s, JoinSet(slot, address), [RetrySet(slot), StartRefused(slot)]);
      RunSharedCons(s1, RetrySet(slot), [StartRefused(slot)]);
      RunSharedCons(s2, StartRefused(slot), []);
    }
  }

  /** As written, the builder's command after a start of two or more slots
      carries the anchor's address with retry on. */
  lemma SharedStartRewritesBuilder(base: AgentCommand.Command, network: Option<NetId>, address: Ip, n: nat)
    requires n >= 2
    ensures RunShared(Shared(base, []), AnchorEvents(network) + JoinPhase(n, network, address)).command ==
            Joined(base, address)
  {
    SharedStart(base, network, address, n);
  }

  /** The input that shows it: a fresh builder, a cluster of two or more
      slots, any non-empty anchor address (say 172.17.0.2). The first start's
      anchor runs `agent -client 0.0.0.0 -dev`; a second cluster from the same
      builder starts its anchor with `-join` and `-retry-join` of the old
      address. */
  lemma SecondStartAnchorJoins(network: Option<NetId>, address: Ip, n: nat)
    requires n >= 2 && |address| > 0
    ensures var t := AnchorEvents(network) + JoinPhase(n, network, address);
            var first := RunShared(Shared(AgentCommand.Default(), []), t);
            var second := RunShared(Shared(first.command, []), t);
            |first.launches| > 0 && |second.launches| > 0 &&
            AgentCommand.ToCommand(first.launches[0].command) == "agent -client 0.0.0.0 -dev" &&
            AgentCommand.ToCommand(second.launches[0].command) ==
              "agent -client 0.0.0.0 -dev -join " + address + " -retry-join " + address
  {
    var joined := Joined(AgentCommand.Default(), address);
    SharedStart(AgentCommand.Default(), network, address, n);
    SharedStart(joined, network, address, n);
    StartLaunchesAnchor(AgentCommand.Default(), address, n);
    StartLaunchesAnchor(joined, address, n);
    AgentCommand.DefaultRendersDev();
    assert joined == AgentCommand.Command(true, false, Some(address), true);
    AgentCommand.DevJoinRenders(address);
  }

  // ---------------------------------------------------------------------------
  // Intended: each container holds a copy taken when the factory builds it.

  datatype Copies = Copies(copies: map<nat, AgentCommand.Command>, launches: seq<Launch>)

  function IsolatedStep(base: AgentCommand.Command, s: Copies, e: Event): Copies {
    match e
    case Created(i) => s.(copies := s.copies[i := base])
    case JoinSet(i, a) =>
      if i in s.copies then s.(copies := s.copies[i := AgentCommand.SetJoin(s.copies[i], Some(a))]) else s
    case RetrySet(i) =>
      if i in s.copies then s.(copies := s.copies[i := AgentCommand.SetRetryJoin(s.copies[i], true)]) else s
    case Started(i) =>
      if i in s.copies then s.(launches := s.launches + [Launch(i, s.copies[i])]) else s
    case _ => s
  }

  /** The builder's command is `base` throughout: no step writes to it. */
  function RunIsolated(base: AgentCommand.Command, s: Copies, trace: seq<Event>): Copies
    decreases |trace|
  {
    if |trace| == 0 then s else RunIsolated(base, IsolatedStep(base, s, trace[0]), trace[1..])
  }

  lemma {:induction false} RunIsolatedAppend(base: AgentCommand.Command, s: Copies, a: seq<Event>, b: seq<Event>)
    ensures RunIsolated(base, s, a + b) == RunIsolated(base, RunIsolated(base, s, a), b)
    decreases |a|
  {
    if |a| == 0 {
      assert a + b == b;
    } else {
      assert (a + b)[1..] == a[1..] + b;
      RunIsolatedAppend(base, IsolatedStep(base, s, a[0]), a[1..], b);
    }
  }

  lemma RunIsolatedCons(base: AgentCommand.Command, s: Copies, e: Event, t: seq<Event>)
    ensures RunIsolated(base, s, [e] + t) == RunIsolated(base, IsolatedStep(base, s, e), t)
  {
    assert ([e] + t)[1..] == t;
  }

  /** Creating a container gives it a fresh copy of the builder's command. */
  lemma {:induction false} IsolatedBootstrap(base: AgentCommand.Command, s: Copies, slot: nat, network: Option<NetId>)
    ensures RunIsolated(base, s, Bootstrap(slot, network)) == IsolatedStep(base, s, Created(slot))
  {
    var rest: seq<Event> := if network.Some? then [Attached(slot, network.value)] else [];
    var s1 := IsolatedStep(base, s, Created(slot));
    RunIsolatedCons(base, s, Created(slot), rest);
    if network.Some? {
      RunIsolatedCons(base, s1, Attached(slot, network.value), []);
    }
  }

  lemma {:induction false} IsolatedMember(base: AgentCommand.Command, s: Copies, slot: nat,
                                          network: Option<NetId>, address: Ip)
    ensures RunIsolated(base, s, MemberEvents(slot, network, address)).launches ==
            s.launches + [Launch(slot, Joined(base, address))]
  {
    RunIsolatedAppend(base, s, Bootstrap(slot, network), [JoinSet(slot, address), RetrySet(slot), Started(slot)]);
    IsolatedBootstrap(base, s, slot, network);
    var s1 := IsolatedStep(base, s, Created(slot));
    var s2 := IsolatedStep(base, s1, JoinSet(slot, address));
    var s3 := IsolatedStep(base, s2, RetrySet(slot));
    assert s3.copies[slot] == Joined(base, address);
    RunIsolatedCons(base, s1, JoinSet(slot, address), [RetrySet(slot), Started(slot)]);
    RunIsolatedCons(base, s2, RetrySet(slot), [Started(slot)]);
    RunIsolatedCons(base, s3, Started(slot), []);
  }

  /** A refused anchor launches nothing. */
  lemma IsolatedRefusedAnchor(base: AgentCommand.Command, network: Option<NetId>)
    ensures RunIsolated(base, Copies(map[], []), Bootstrap(0, network) + [StartRefused(0)]).launches == []
  {
    var s0 := Copies(map[], []);
    RunIsolatedAppend(base, s0, Bootstrap(0, network), [StartRefused(0)]);
    IsolatedBootstrap(base, s0, 0, network);
    RunIsolatedCons(base, IsolatedStep(base, s0, Created(0)), StartRefused(0), []);
  }

  /** The anchor's events launch it with its fresh copy of the builder's
      command. */
  lemma IsolatedAnchor(base: AgentCommand.Command, s: Copies, network: Option<NetId>)
    ensures RunIsolated(base, s, AnchorEvents(network)).launches == s.launches + [Launch(0, base)]
  {
    RunIsolatedAppend(base, s, Bootstrap(0, network), [Started(0), Inspected(0)]);
    IsolatedBootstrap(base, s, 0, network);
    var s1 := IsolatedStep(base, s, Created(0));
    var s2 := IsolatedStep(base, s1, Started(0));
    RunIsolatedCons(base, s1, Started(0), [Inspected(0)]);
    RunIsolatedCons(base, s2, Inspected(0), []);
  }

  /** A member that fails, with or without a command, launches nothing. */
  lemma IsolatedMemberFailure<H>(base: AgentCommand.Command, s: Copies, slot: nat,
                                 network: Option<NetId>, address: Ip, host: Host<H>)
    ensures RunIsolated(base, s, MemberFailure(slot, network, address, host)).launches == s.launches
  {
    IsolatedBootstrap(base, s, slot, network);
    var s1 := IsolatedStep(base, s, Created(slot));
    if host.hasCommand(host.create(slot)) {
      RunIsolatedAppend(base, s, Bootstrap(slot, network), [JoinSet(slot, address), RetrySet(slot), StartRefused(slot)]);
      var s2 := IsolatedStep(base, s1, JoinSet(slot, address));
      var s3 := IsolatedStep(base, s2, RetrySet(slot));
      RunIsolatedCons(base, s1, JoinSet(slot, address), [RetrySet(slot), StartRefused(slot)]);
      RunIsolatedCons(base, s2, RetrySet(slot), [StartRefused(slot)]);
      RunIsolatedCons(base, s3, StartRefused(slot), []);
    }
  }

  /** A start that halts at member k has launched the anchor and members
      1..k-1, exactly as the first k launches of a successful start. */
  lemma IsolatedHaltAtMember<H>(base: AgentCommand.Command, network: Option<NetId>, address: Ip, k: nat, host: Host<H>)
    requires k >= 1
    ensures RunIsolated(base, Copies(map[], []),
                        AnchorEvents(network) + JoinPhase(k, network, address) + MemberFailure(k, network, address, host)).launches ==
            StartLaunches(base, address, k)
  {
    var s0 := Copies(map[], []);
    var front := AnchorEvents(network) + JoinPhase(k, network, address);
    IsolatedStart(base, network, address, k);
    RunIsolatedAppend(base, s0, front, MemberFailure(k, network, address, host));
    IsolatedMemberFailure(base, RunIsolated(base, s0, front), k, network, address, host);
  }

  /** The corrected start: the anchor launches with the builder's command and
      every member with its own joined copy. */
  lemma {:induction false} IsolatedStart(base: AgentCommand.Command, network: Option<NetId>, address: Ip, n: nat)
    requires n >= 1
    ensures RunIsolated(base, Copies(map[], []), AnchorEvents(network) + JoinPhase(n, network, address)).launches ==
            StartLaunches(base, address, n)
  {
    var s0 := Copies(map[], []);
    if n == 1 {
      assert AnchorEvents(network) + JoinPhase(n, network, address) == AnchorEvents(network);
      IsolatedAnchor(base, s0, network);
    } else {
      IsolatedStart(base, network, address, n - 1);
      var front := AnchorEvents(network) + JoinPhase(n - 1, network, address);
      assert AnchorEvents(network) + JoinPhase(n, network, address) ==
             front + MemberEvents(n - 1, network, address);
      RunIsolatedAppend(base, s0, front, MemberEvents(n - 1, network, address));
      IsolatedMember(base, RunIsolated(base, s0, front), n - 1, network, address);
    }
  }

  /** Within one start the two replays launch the same commands: the sharing
      only shows on the next start from the same builder, which with private
      copies launches its anchor with the unchanged builder command. */
  lemma SharingInvisibleWithinOneStart(base: AgentCommand.Command, network: Option<NetId>, address: Ip, n: nat)
    requires n >= 1
    ensures var t := AnchorEvents(network) + JoinPhase(n, network, address);
            RunShared(Shared(base, []), t).launches == RunIsolated(base, Copies(map[], []), t).launches
    ensures var t := AnchorEvents(network) + JoinPhase(n, network, address);
            var launches := RunIsolated(base, Copies(map[], []), t).launches;
            |launches| == n && launches[0] == Launch(0, base)
  {
    SharedStart(base, network, address, n);
    IsolatedStart(base, network, address, n);
    StartLaunchesAnchor(base, address, n);
  }

  /** The same holds for a start that stops at the anchor: a refused anchor
      launches nothing in either replay, and an anchor that reports no network
      is launched once with the builder's command in both. */
  lemma SharingInvisibleAtAnchorHalt(base: AgentCommand.Command, network: Option<NetId>)
    ensures var t := Bootstrap(0, network) + [StartRefused(0)];
            RunShared(Shared(base, []), t).launches == RunIsolated(base, Copies(map[], []), t).launches == []
    ensures var t := AnchorEvents(network);
            RunShared(Shared(base, []), t).launches == RunIsolated(base, Copies(map[], []), t).launches == [Launch(0, base)]
  {
    SharedRefusedAnchor(Shared(base, []), network);
    IsolatedRefusedAnchor(base, network);
    SharedAnchor(Shared(base, []), network);
    IsolatedAnchor(base, Copies(map[], []), network);
  }

  /** ... and for a start that halts at member k: both replays have launched
      the anchor and members 1..k-1 with the same commands. */
  lemma HaltedSharingInvisible<H>(base: AgentCommand.Command, network: Option<NetId>, address: Ip, k: nat, host: Host<H>)
    requires k >= 1
    ensures var t := AnchorEvents(network) + JoinPhase(k, network, address) + MemberFailure(k, network, address, host);
            RunShared(Shared(base, []), t).launches == RunIsolated(base, Copies(map[], []), t).launches ==
            StartLaunches(base, address, k)
  {
    var s0 := Shared(base, []);
    var front := AnchorEvents(network) + JoinPhase(k, network, address);
    SharedStart(base, network, address, k);
    RunSharedAppend(s0, front, MemberFailure(k, network, address, host));
    SharedMemberFailure(RunShared(s0, front), k, network, address, host);
    IsolatedHaltAtMember(base, network, address, k, host);
  }

  lemma {:induction false} StartLaunchesAnchor(base: AgentCommand.Command, address: Ip, n: nat)
    requires n >= 1
    ensures |StartLaunches(base, address, n)| == n
    ensures StartLaunches(base, address, n)[0] == Launch(0, base)
    ensures forall i :: 1 <= i < n ==> StartLaunches(base, address, n)[i] == Launch(i, Joined(base, address))
  {
    if n > 1 {
      StartLaunchesAnchor(base, address, n - 1);
    }
  }
}
