/** ConsulCluster: a single-use bootstrap over a fixed array of slots. Slot 0
    (the anchor) is created, attached to the optional network and started; its
    address is read back; slots 1..size-1 are then created one at a time, told
    to join that address with retry on, and started.

    Containers are abstract handles of type `H`. Everything the orchestrator
    asks of Docker and of the container factory is a parameter (`Host`), and
    every call it makes is recorded as an `Event`, so the order of factory
    calls, join settings and starts can be stated exactly. */
module Cluster {
  import opened Wrappers
  import opened Failures

  type NetId = string
  type Ip = string

  /** The cluster: the optional network and the slot array, whose length is the
      size given at construction. `getContainers` is the slot sequence as it
      stands, empty slots included. */
  datatype Cluster<H> = Cluster(network: Option<NetId>, slots: seq<Option<H>>)

  /** What the world answers. The factory is called once per slot, in slot
      order, so its i-th result is the container for slot i. */
  datatype Host<!H> = Host(
    create: nat -> H,                  // the factory's result for slot i
    hasCommand: H -> bool,             // `getConsulCommand()` is non-null
    startOk: H -> bool,                // `start()` returns normally
    networks: H -> seq<(NetId, Ip)>)   // the network map read after start, in iteration order

  /** One observable call. */
  datatype Event =
    | Created(slot: nat)                 // the factory was called
    | Attached(slot: nat, network: NetId) // `withNetwork`
    | JoinSet(slot: nat, address: Ip)    // `setJoin` on the member's command
    | RetrySet(slot: nat)                // `setRetryJoin(true)`
    | Started(slot: nat)                 // `start()` returned
    | StartRefused(slot: nat)            // `start()` threw
    | Inspected(slot: nat)               // the container's network map was read
    | Stopped(slot: nat)                 // `stop()`

  /** Where `start` gave up, and the exception it let escape. */
  datatype Halt = Halt(slot: nat, failure: Failure)

  // ---------------------------------------------------------------------------
  // Construction.

  /** The constructor allocates `size` empty slots and does not validate the
      size: only a negative size fails, through the array allocation. */
  function New<H>(size: int, network: Option<NetId>): (r: Result<Cluster<H>, Failure>)
    ensures r.Err? <==> size < 0
    ensures r.Err? ==> r.error == NegativeArraySize(size)
    ensures r.Ok? ==> r.value.network == network && |r.value.slots| == size
    ensures r.Ok? ==> forall i :: 0 <= i < |r.value.slots| ==> r.value.slots[i].None?
  {
    if size < 0 then Err(NegativeArraySize(size)) else Ok(Cluster(network, seq(size, _ => None)))
  }

  ghost predicate Fresh<H>(c: Cluster<H>) {
    forall i :: 0 <= i < |c.slots| ==> c.slots[i].None?
  }

  // ---------------------------------------------------------------------------
  // The anchor's address.

  /** The value stored under `id` in the network map. A map holds one entry per
      key; in the sequence the first entry with that key is the one found. */
  function Find(nets: seq<(NetId, Ip)>, id: NetId): (r: Option<Ip>)
    ensures r.None? <==> forall i :: 0 <= i < |nets| ==> nets[i].0 != id
    ensures r.Some? ==> exists i :: 0 <= i < |nets| && nets[i] == (id, r.value) &&
                                    forall j :: 0 <= j < i ==> nets[j].0 != id
  {
    if |nets| == 0 then None
    else if nets[0].0 == id then Some(nets[0].1)
    else
      var r := Find(nets[1..], id);
      assert forall i :: 1 <= i < |nets| ==> nets[i] == nets[1..][i - 1];
      r
  }

  /** `bootstrapFirst`'s address choice: with a network whose id the anchor
      reports, that network's address; otherwise the address of the first
      network the anchor reports; with none at all, `findFirst().get()` fails. */
  function AnchorAddress(nets: seq<(NetId, Ip)>, network: Option<NetId>): (r: Result<Ip, Failure>)
    ensures r.Err? <==> |nets| == 0
    ensures r.Err? ==> r.error == NoSuchElement
    ensures r.Ok? ==> exists i :: 0 <= i < |nets| && nets[i].1 == r.value
    ensures r.Ok? && network.Some? && Find(nets, network.value).Some? ==>
              r.value == Find(nets, network.value).value
    ensures r.Ok? && (network.None? || Find(nets, network.value).None?) ==> r.value == nets[0].1
  {
    if network.Some? && Find(nets, network.value).Some? then Ok(Find(nets, network.value).value)
    else if |nets| == 0 then Err(NoSuchElement)
    else Ok(nets[0].1)
  }

  /** With the requested network present, the address belongs to it, wherever
      that network sits in the anchor's list. */
  lemma AddressOnRequestedNetwork(nets: seq<(NetId, Ip)>, id: NetId, k: nat)
    requires k < |nets| && nets[k].0 == id
    ensures AnchorAddress(nets, Some(id)).Ok?
    ensures exists i :: 0 <= i <= k && nets[i] == (id, AnchorAddress(nets, Some(id)).value)
  {
    var r := Find(nets, id);
    var i :| 0 <= i < |nets| && nets[i] == (id, r.value) && forall j :: 0 <= j < i ==> nets[j].0 != id;
    assert i <= k;
  }

  // ---------------------------------------------------------------------------
  // The expected event sequences.

  /** The factory call and, with a network, the attachment. */
  function Bootstrap(slot: nat, network: Option<NetId>): seq<Event> {
    [Created(slot)] + (if network.Some? then [Attached(slot, network.value)] else [])
  }

  /** The anchor: created, attached, started, and only then inspected. */
  function AnchorEvents(network: Option<NetId>): seq<Event> {
    Bootstrap(0, network) + [Started(0), Inspected(0)]
  }

  /** One member: created, attached, told to join `address` with retry, started. */
  function MemberEvents(slot: nat, network: Option<NetId>, address: Ip): seq<Event> {
    Bootstrap(slot, network) + [JoinSet(slot, address), RetrySet(slot), Started(slot)]
  }

  /** Members 1..n-1, in slot order. */
  function JoinPhase(n: nat, network: Option<NetId>, address: Ip): seq<Event> {
    if n <= 1 then [] else JoinPhase(n - 1, network, address) + MemberEvents(n - 1, network, address)
  }

  /** A member that fails: without a command object `setJoin` dereferences
      null right after the attachment; otherwise its start throws. */
  function MemberFailure<H>(slot: nat, network: Option<NetId>, address: Ip, host: Host<H>): seq<Event> {
    if !host.hasCommand(host.create(slot)) then Bootstrap(slot, network)
    else Bootstrap(slot, network) + [JoinSet(slot, address), RetrySet(slot), StartRefused(slot)]
  }

  predicate MemberOk<H>(host: Host<H>, slot: nat) {
    host.hasCommand(host.create(slot)) && host.startOk(host.create(slot))
  }

  /** The anchor phase completes: it starts, there is a slot to store it in,
      and it reports at least one network. */
  predicate AnchorUp<H>(c: Cluster<H>, host: Host<H>) {
    host.startOk(host.create(0)) && |c.slots| > 0 && |host.networks(host.create(0))| > 0
  }

  function Address<H>(c: Cluster<H>, host: Host<H>): Ip
    requires AnchorUp(c, host)
  {
    AnchorAddress(host.networks(host.create(0)), c.network).value
  }

  /** Slots below `m` hold the factory's containers; the rest are as before. */
  ghost predicate Filled<H>(c: Cluster<H>, r: Cluster<H>, host: Host<H>, m: nat) {
    r.network == c.network && |r.slots| == |c.slots| &&
    forall i :: 0 <= i < |c.slots| ==> r.slots[i] == (if i < m then Some(host.create(i)) else c.slots[i])
  }

  // ---------------------------------------------------------------------------
  // start().

  /** `start`: the anchor phase, then the join phase. An exception stops the run
      where it happens; containers already stored stay stored (no rollback) and
      later slots keep what they held. */
  method Start<H>(c: Cluster<H>, host: Host<H>) returns (r: Cluster<H>, trace: seq<Event>, halt: Option<Halt>)
    ensures r.network == c.network && |r.slots| == |c.slots|
    ensures !host.startOk(host.create(0)) ==>
              halt == Some(Halt(0, StartFailed)) && r == c && trace == Bootstrap(0, c.network) + [StartRefused(0)]
    ensures host.startOk(host.create(0)) && |c.slots| == 0 ==>
              halt == Some(Halt(0, IndexOutOfBounds(0))) && r == c &&
              trace == Bootstrap(0, c.network) + [Started(0)]
    ensures host.startOk(host.create(0)) && |c.slots| > 0 && |host.networks(host.create(0))| == 0 ==>
              halt == Some(Halt(0, NoSuchElement)) && Filled(c, r, host, 1) && trace == AnchorEvents(c.network)
    ensures halt.Some? && halt.value.slot == 0 <==> !AnchorUp(c, host)
    ensures halt.None? <==> AnchorUp(c, host) && forall i :: 1 <= i < |c.slots| ==> MemberOk(host, i)
    ensures halt.None? ==>
              Filled(c, r, host, |c.slots|) &&
              trace == AnchorEvents(c.network) + JoinPhase(|c.slots|, c.network, Address(c, host))
    ensures halt.Some? && halt.value.slot > 0 ==>
              AnchorUp(c, host) && halt.value.slot < |c.slots| &&
              (forall i :: 1 <= i < halt.value.slot ==> MemberOk(host, i)) &&
              !MemberOk(host, halt.value.slot) &&
              halt.value.failure == (if host.hasCommand(host.create(halt.value.slot)) then StartFailed else NullPointer) &&
              Filled(c, r, host, halt.value.slot) &&
              trace == AnchorEvents(c.network) + JoinPhase(halt.value.slot, c.network, Address(c, host)) +
                       MemberFailure(halt.value.slot, c.network, Address(c, host), host)
  {
    r := c;
    var anchor := host.create(0);
    trace := Bootstrap(0, c.network);
    if !host.startOk(anchor) {
      return r, trace + [StartRefused(0)], Some(Halt(0, StartFailed));
    }
    trace := trace + [Started(0)];
    if |c.slots| == 0 {
      return r, trace, Some(Halt(0, IndexOutOfBounds(0)));
    }
    r := r.(slots := r.slots[0 := Some(anchor)]);
    trace := trace + [Inspected(0)];
    var found := AnchorAddress(host.networks(anchor), c.network);
    if found.Err? {
      return r, trace, Some(Halt(0, found.error));
    }
    var address := found.value;
    assert AnchorUp(c, host) && Address(c, host) == address;
    assert trace == AnchorEvents(c.network);
    assert Filled(c, r, host, 1);
    var events;
    r, events, halt := JoinMembers(c, host, address, r);
    trace := trace + events;
  }

  /** The join phase: `bootstrapNext` for slots 1..size-1 in order, each member
      told to join `address` with retry before it starts. Stops at the first
      member that throws. */
  method JoinMembers<H>(c: Cluster<H>, host: Host<H>, address: Ip, r0: Cluster<H>)
    returns (r: Cluster<H>, trace: seq<Event>, halt: Option<Halt>)
    requires |c.slots| > 0 && Filled(c, r0, host, 1)
    ensures r.network == c.network && |r.slots| == |c.slots|
    ensures halt.None? <==> forall i :: 1 <= i < |c.slots| ==> MemberOk(host, i)
    ensures halt.None? ==> Filled(c, r, host, |c.slots|) && trace == JoinPhase(|c.slots|, c.network, address)
    ensures halt.Some? ==>
              1 <= halt.value.slot < |c.slots| &&
              (forall i :: 1 <= i < halt.value.slot ==> MemberOk(host, i)) &&
              !MemberOk(host, halt.value.slot) &&
              halt.value.failure == (if host.hasCommand(host.create(halt.value.slot)) then StartFailed else NullPointer) &&
              Filled(c, r, host, halt.value.slot) &&
              trace == JoinPhase(halt.value.slot, c.network, address) + MemberFailure(halt.value.slot, c.network, address, host)
  {
    r := r0;
    trace := [];
    var i := 1;
    while i < |c.slots|
      invariant 1 <= i <= |c.slots|
      invariant Filled(c, r, host, i)
      invariant trace == JoinPhase(i, c.network, address)
      invariant forall j :: 1 <= j < i ==> MemberOk(host, j)
    {
      var member := host.create(i);
      var events := Bootstrap(i, c.network);
      if !host.hasCommand(member) {
        assert !MemberOk(host, i);
        return r, trace + events, Some(Halt(i, NullPointer));
      }
      events := events + [JoinSet(i, address), RetrySet(i)];
      if !host.startOk(member) {
        assert !MemberOk(host, i);
        return r, trace + events + [StartRefused(i)], Some(Halt(i, StartFailed));
      }
      r := r.(slots := r.slots[i := Some(member)]);
      trace := trace + events + [Started(i)];
      i := i + 1;
    }
    halt := None;
  }

  // ---------------------------------------------------------------------------
  // Properties of the successful run.

  function CountCreated(trace: seq<Event>): nat {
    if |trace| == 0 then 0 else CountCreated(trace[..|trace| - 1]) + (if trace[|trace| - 1].Created? then 1 else 0)
  }

  lemma {:induction false} CountCreatedAppend(a: seq<Event>, b: seq<Event>)
    ensures CountCreated(a + b) == CountCreated(a) + CountCreated(b)
    decreases |b|
  {
    if |b| == 0 {
      assert a + b == a;
    } else {
      assert (a + b)[..|a + b| - 1] == a + b[..|b| - 1];
      CountCreatedAppend(a, b[..|b| - 1]);
    }
  }

  /** A successful start of n slots calls the factory exactly n times. */
  lemma {:induction false} FactoryCalledPerSlot(n: nat, network: Option<NetId>, address: Ip)
    requires n >= 1
    ensures CountCreated(AnchorEvents(network) + JoinPhase(n, network, address)) == n
  {
    CountCreatedAppend(AnchorEvents(network), JoinPhase(n, network, address));
    assert CountCreated(AnchorEvents(network)) == 1 by {
      CountCreatedAppend(Bootstrap(0, network), [Started(0), Inspected(0)]);
      CountCreatedAppend([Created(0)], if network.Some? then [Attached(0, network.value)] else []);
      assert [Created(0)][..0] == [];
    }
    JoinPhaseCreates(n, network, address);
  }

  lemma {:induction false} JoinPhaseCreates(n: nat, network: Option<NetId>, address: Ip)
    requires n >= 1
    ensures CountCreated(JoinPhase(n, network, address)) == n - 1
  {
    if n > 1 {
      JoinPhaseCreates(n - 1, network, address);
      var m := MemberEvents(n - 1, network, address);
      CountCreatedAppend(JoinPhase(n - 1, network, address), m);
      var tail := (if network.Some? then [Attached(n - 1, network.value)] else []) +
                  [JoinSet(n - 1, address), RetrySet(n - 1), Started(n - 1)];
      assert m == [Created(n - 1)] + tail;
      CountCreatedAppend([Created(n - 1)], tail);
      assert [Created(n - 1)][..0] == [];
      assert CountCreated(tail) == 0 by {
        var t := tail;
        assert forall k :: 0 <= k < |t| ==> !t[k].Created?;
        NoCreated(t);
      }
    }
  }

  lemma {:induction false} NoCreated(t: seq<Event>)
    requires forall k :: 0 <= k < |t| ==> !t[k].Created?
    ensures CountCreated(t) == 0
    decreases |t|
  {
    if |t| > 0 {
      NoCreated(t[..|t| - 1]);
    }
  }

  /** Member i's events form one contiguous block right after those of members
      1..i-1, and everything after it concerns later slots: its join address
      and retry flag are set after it is created and before it starts, and the
      members are handled strictly in slot order. */
  lemma {:induction false} JoinPhaseBlocks(n: nat, network: Option<NetId>, address: Ip, i: nat)
    requires 1 <= i < n
    ensures JoinPhase(i, network, address) + MemberEvents(i, network, address) <= JoinPhase(n, network, address)
    ensures forall k :: |JoinPhase(i, network, address) + MemberEvents(i, network, address)| <= k < |JoinPhase(n, network, address)| ==>
              JoinPhase(n, network, address)[k].slot > i
  {
    if i < n - 1 {
      JoinPhaseBlocks(n - 1, network, address, i);
      var p := JoinPhase(n - 1, network, address);
      var m := MemberEvents(n - 1, network, address);
      assert JoinPhase(n, network, address) == p + m;
      assert forall k :: 0 <= k < |m| ==> m[k].slot == n - 1;
    }
  }

  /** Every join the phase sets names the anchor's address, and only members
      1..n-1 get one; a one-slot cluster sets no join at all. */
  lemma {:induction false} JoinsTargetAnchor(n: nat, network: Option<NetId>, address: Ip)
    ensures forall e :: e in JoinPhase(n, network, address) && e.JoinSet? ==>
              e.address == address && 1 <= e.slot < n
    ensures forall e :: e in JoinPhase(n, network, address) ==> !e.Inspected? && !e.StartRefused?
    ensures n <= 1 ==> JoinPhase(n, network, address) == []
  {
    if n > 1 {
      JoinsTargetAnchor(n - 1, network, address);
    }
  }

  /** Conversely every member gets its join: slot i's JoinSet, RetrySet and
      Started are all in the phase. */
  lemma EveryMemberJoins(n: nat, network: Option<NetId>, address: Ip, i: nat)
    requires 1 <= i < n
    ensures JoinSet(i, address) in JoinPhase(n, network, address)
    ensures RetrySet(i) in JoinPhase(n, network, address)
    ensures Started(i) in JoinPhase(n, network, address)
  {
    JoinPhaseBlocks(n, network, address, i);
    var block := MemberEvents(i, network, address);
    var pre := JoinPhase(i, network, address) + block;
    assert JoinSet(i, address) in block && RetrySet(i) in block && Started(i) in block;
    assert forall e :: e in block ==> e in pre;
    assert forall e :: e in pre ==> e in JoinPhase(n, network, address);
  }

  // ---------------------------------------------------------------------------
  // stop().

  /** `stop`: one `stop()` per non-empty slot, in slot order. The slots are
      not changed. */
  function StopEvents<H>(slots: seq<Option<H>>): (r: seq<Event>)
    ensures forall k :: 0 <= k < |r| ==> r[k].Stopped? && r[k].slot < |slots| && slots[r[k].slot].Some?
    ensures forall i :: 0 <= i < |slots| && slots[i].Some? ==> Stopped(i) in r
    ensures forall p, q :: 0 <= p < q < |r| ==> r[p].slot < r[q].slot
  {
    if |slots| == 0 then []
    else
      var front := StopEvents(slots[..|slots| - 1]);
      assert forall i :: 0 <= i < |slots| - 1 ==> slots[..|slots| - 1][i] == slots[i];
      front + (if slots[|slots| - 1].Some? then [Stopped(|slots| - 1)] else [])
  }

  function Stop<H>(c: Cluster<H>): seq<Event> {
    StopEvents(c.slots)
  }

  /** `Stopped(0)`, ..., `Stopped(m - 1)`. */
  function StopsUpTo(m: nat): seq<Event> {
    if m == 0 then [] else StopsUpTo(m - 1) + [Stopped(m - 1)]
  }

  /** After a successful start every slot is stopped, in order; after a start
      that halted at member k on a fresh cluster, exactly slots 0..k-1 are. */
  lemma {:induction false} StopAfterStart<H>(c: Cluster<H>, r: Cluster<H>, host: Host<H>, m: nat)
    requires Fresh(c) && m <= |c.slots| && Filled(c, r, host, m)
    ensures Stop(r) == StopsUpTo(m)
  {
    StopPrefix(r.slots, m);
  }

  lemma {:induction false} StopPrefix<H>(slots: seq<Option<H>>, m: nat)
    requires m <= |slots|
    requires forall i :: 0 <= i < |slots| ==> (slots[i].Some? <==> i < m)
    ensures StopEvents(slots) == StopsUpTo(m)
    decreases |slots|
  {
    if |slots| > 0 {
      var front := slots[..|slots| - 1];
      if m == |slots| {
        StopPrefix(front, m - 1);
      } else {
        StopPrefix(front, m);
      }
    }
  }
}
