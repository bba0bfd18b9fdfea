/**
  One channel (or two) driven through concrete orders of the two parties'
  steps on the heap model: the four completion orders, the orders in which
  the receiver parks first, the two runs of `select` that the pipe test
  program makes, and the run of `select` that parks over any number of
  channels and is woken by a send.
*/
module PipeScenarios {
  import opened Options
  import opened PipeProtocol
  import opened Pipes

  /** send, then recv: the value arrives and the receiver frees the packet. */
  method SendThenRecv<T>(v: T, task: TaskId) returns (sent: SendOutcome, got: RecvOutcome<T>, frees: nat)
    ensures sent == SentFast && got == Received(v) && frees == 1
  {
    var s, r := Entangle<T>();
    var pk := s.p.value;
    sent := Send(s, v);
    var _, o := RecvBegin(r, task);
    got := o;
    frees := pk.frees;
  }

  /** recv parks first; send signals the parked task; the woken receiver takes the value. */
  method RecvParksThenSend<T>(v: T, task: TaskId) returns (parked: RecvOutcome<T>, sent: SendOutcome, got: RecvOutcome<T>, frees: nat)
    ensures parked == Parked && sent == SentWoke(task) && got == Received(v) && frees == 1
  {
    var s, r := Entangle<T>();
    var pk := s.p.value;
    var _, o := RecvBegin(r, task);
    parked := o;
    sent := Send(s, v);
    got := pk.RecvWake();
    frees := pk.frees;
  }

  /** send, then the unused receiver is dropped: the receiver frees, payload included. */
  method SendThenReceiverDrop<T>(v: T) returns (sent: SendOutcome, dropped: Option<TermOutcome>, frees: nat)
    ensures sent == SentFast && dropped == Some(SelfFreed) && frees == 1
  {
    var s, r := Entangle<T>();
    var pk := s.p.value;
    sent := Send(s, v);
    dropped := r.Drop();
    frees := pk.frees;
  }

  /** The receiver is dropped first; the later send is discarded and the sender frees. */
  method ReceiverDropThenSend<T>(v: T) returns (dropped: Option<TermOutcome>, sent: SendOutcome, frees: nat)
    ensures dropped == Some(PeerFrees) && sent == SentDiscarded && frees == 1
  {
    var s, r := Entangle<T>();
    var pk := s.p.value;
    dropped := r.Drop();
    sent := Send(s, v);
    frees := pk.frees;
  }

  /** The sender is dropped unused, then recv: `none`, and the receiver frees. */
  method SenderDropThenRecv<T>(task: TaskId) returns (dropped: Option<TermOutcome>, got: RecvOutcome<T>, frees: nat)
    ensures dropped == Some(PeerFrees) && got == Closed && frees == 1
  {
    var s, r := Entangle<T>();
    var pk := s.p.value;
    dropped := s.Drop();
    var _, o := RecvBegin(r, task);
    got := o;
    frees := pk.frees;
  }

  /**
    recv parks, then the sender is dropped unused: no signal is sent, and a
    receiver that wakes anyway finds the packet Terminated and returns `none`.
  */
  method RecvParksThenSenderDrop<T>(task: TaskId) returns (dropped: Option<TermOutcome>, got: RecvOutcome<T>, frees: nat)
    ensures dropped == Some(PeerFrees) && got == Closed && frees == 1
  {
    var s, r := Entangle<T>();
    var pk := s.p.value;
    var _, parked := RecvBegin(r, task);
    dropped := s.Drop();
    got := pk.RecvWake();
    frees := pk.frees;
  }

  /** A wake before anyone sent or dropped: the loop's exchange meets Blocked and fails. */
  method SpuriousWake<T>(task: TaskId) returns (got: RecvOutcome<T>, frees: nat)
    ensures got == RecvFailed("blocking on already blocked packet") && frees == 0
  {
    var s, r := Entangle<T>();
    var pk := s.p.value;
    var _, parked := RecvBegin(r, task);
    got := pk.RecvWake();
    frees := pk.frees;
  }

  /** Both endpoints dropped unused, in either order: the second to terminate frees. */
  method BothDropped<T>(senderFirst: bool) returns (first: Option<TermOutcome>, second: Option<TermOutcome>, frees: nat)
    ensures first == Some(PeerFrees) && second == Some(SelfFreed) && frees == 1
  {
    var s, r := Entangle<T>();
    var pk := s.p.value;
    if senderFirst {
      first := s.Drop();
      second := r.Drop();
    } else {
      first := r.Drop();
      second := s.Drop();
    }
    frees := pk.frees;
  }

  /** An endpoint that was consumed by `send` does nothing when it is dropped afterwards. */
  method DropAfterSend<T>(v: T) returns (dropped: Option<TermOutcome>, state: State)
    ensures dropped == None && state == Full
  {
    var s, r := Entangle<T>();
    var pk := s.p.value;
    var _ := Send(s, v);
    dropped := s.Drop();
    state := pk.header.state;
  }

  /** Two fresh one-shot channels; a value has been sent on the one at `which`. */
  method SignalOne<T>(v: T, which: nat) returns (eps: seq<RecvPacket<T>>)
    requires which < 2
    ensures |eps| == 2 && Owning(eps)
    ensures forall j :: 0 <= j < 2 ==> fresh(eps[j]) && fresh(eps[j].p.value) && fresh(eps[j].p.value.header)
    ensures eps[which].p.value.header.state == Full && eps[1 - which].p.value.header.state == Empty
    ensures eps[which].p.value.payload == Some(v)
  {
    var p1 := new Packet<T>();
    var p2 := new Packet<T>();
    var sent := if which == 0 then p1 else p2;
    var _ := sent.Send(v);
    var r1 := new RecvPacket(p1);
    var r2 := new RecvPacket(p2);
    eps := [r1, r2];
  }

  /**
    Two one-shot channels; only the one at `which` has been signalled.
    `select` over both returns that index and its value without parking, and
    gives back the other endpoint, whose header is Empty again.
  */
  method SelectSignalled<T>(v: T, which: nat, task: TaskId)
    returns (index: nat, value: Option<T>, remaining: nat, otherState: State)
    requires which < 2
    ensures index == which && value == Some(v) && remaining == 1 && otherState == Empty
  {
    var eps := SignalOne(v, which);
    var other := eps[1 - which].p.value.header;
    var res := SelectOverTwo(eps, v, which, task);
    index := res.index;
    value := res.value;
    remaining := |res.remaining|;
    otherState := other.state;
  }

  /** `select` over two endpoints of which only the one at `which` is Full. */
  method SelectOverTwo<T>(eps: seq<RecvPacket<T>>, v: T, which: nat, task: TaskId) returns (res: SelectResult<T>)
    requires which < 2 && |eps| == 2 && Owning(eps)
    requires eps[which].p.value.header.state == Full && eps[1 - which].p.value.header.state == Empty
    requires eps[which].p.value.payload == Some(v)
    modifies (set e | e in eps), Held(eps)
    ensures res.Selected? && res.index == which && res.value == Some(v) && |res.remaining| == 1
    ensures old(eps[1 - which].p.value.header).state == Empty
  {
    ghost var hs := HeadersOf(eps);
    ghost var states := StatesOf(hs);
    ghost var payloads := PayloadsOf(eps);
    assert states == if which == 0 then [Full, Empty] else [Empty, Full];
    assert Poll(states) == PollReady(which) by {
      assert [Empty, Full][1..] == [Full];
    }
    assert payloads[which] == Some(v);
    ghost var other := eps[1 - which].p.value.header;
    assert hs[1 - which] == other;
    res := Select(eps, task, []);
    assert SelectDecided(states, payloads, res);
    assert res.Selected? && res.index == which;
    assert res.Selected? ==>
      forall j :: 0 <= j < |eps| && j != res.index ==>
        old(HeadersOf(eps))[j].state == UnblockState(old(StatesOf(HeadersOf(eps)))[j]);
    assert other.state == UnblockState(states[1 - which]);
  }

  /**
    The run of `select` that parks, over any number of channels: every
    packet is Empty, so the poll pass leaves every header Blocked by `task`;
    a send on the packet at `k` finds Blocked and signals `task`; the task
    wakes with events of which the first that names a header names the one at
    `k` (any before it are spurious), and `select` returns `k` and the value
    sent, with the other n-1 endpoints in order and their headers Empty again.
  */
  method SelectParksThenSend<T>(eps: seq<RecvPacket<T>>, k: nat, v: T, task: TaskId, events: seq<Header?>)
    returns (poll: PollResult, sent: SendOutcome, res: SelectResult<T>)
    requires Owning(eps) && k < |eps|
    requires forall j :: 0 <= j < |eps| ==> eps[j].p.value.header.state == Empty && eps[j].p.value.payload == None
    requires FirstMatch(HeadersOf(eps), events) == Some(k)
    modifies (set e | e in eps), Held(eps)
    ensures poll == PollNone && sent == SentWoke(task)
    ensures res.Selected? && res.index == k && res.value == Some(v)
    ensures |res.remaining| == |eps| - 1
    ensures forall j :: 0 <= j < |res.remaining| ==> res.remaining[j].p == Some(old(PacketsOf(eps))[Skip(j, k)])
    ensures forall j :: 0 <= j < |eps| && j != k ==> old(PacketsOf(eps))[j].header.state == Empty
  {
    var packets;
    packets, poll := ParkOnAll(eps, task);
    sent, res := SendAndWake(packets, k, v, task, events);
  }

  /**
    The rest of that run once every header is Blocked by `task`: the send on
    the packet at `k`, then the wake and the select that follows it.
  */
  method SendAndWake<T>(packets: seq<Packet<T>>, k: nat, v: T, task: TaskId, events: seq<Header?>)
    returns (sent: SendOutcome, res: SelectResult<T>)
    requires DistinctPackets(packets) && k < |packets|
    requires forall j :: 0 <= j < |packets| ==>
      packets[j].header.state == Blocked && packets[j].header.blockedTask == Some(task) && packets[j].payload == None
    requires FirstMatch(HeadersOfPackets(packets), events) == Some(k)
    modifies (set pk | pk in packets), (set pk | pk in packets :: pk.header)
    ensures sent == SentWoke(task)
    ensures res.Selected? && res.index == k && res.value == Some(v)
    ensures |res.remaining| == |packets| - 1
    ensures forall j :: 0 <= j < |res.remaining| ==> res.remaining[j].p == Some(packets[Skip(j, k)])
    ensures forall j :: 0 <= j < |packets| && j != k ==> packets[j].header.state == Empty
  {
    sent := SendToParked(packets[k], v, task);
    forall j | 0 <= j < |packets| && j != k
      ensures packets[j].header.state == Blocked
    {
      assert packets[j].header != packets[k].header;
    }
    res := WakeOnSignalled(packets, k, v, task, events);
  }

  /**
    The wake: the packet at `k` is Full with `v`, every other header is still
    Blocked, and the first event that names a header names the one at `k`.
  */
  method WakeOnSignalled<T>(packets: seq<Packet<T>>, k: nat, v: T, task: TaskId, events: seq<Header?>)
    returns (res: SelectResult<T>)
    requires DistinctPackets(packets) && k < |packets|
    requires packets[k].header.state == Full && packets[k].payload == Some(v)
    requires forall j :: 0 <= j < |packets| && j != k ==> packets[j].header.state == Blocked
    requires FirstMatch(HeadersOfPackets(packets), events) == Some(k)
    modifies (set pk | pk in packets), (set pk | pk in packets :: pk.header)
    ensures res.Selected? && res.index == k && res.value == Some(v)
    ensures |res.remaining| == |packets| - 1
    ensures forall j :: 0 <= j < |res.remaining| ==> res.remaining[j].p == Some(packets[Skip(j, k)])
    ensures forall j :: 0 <= j < |packets| && j != k ==> packets[j].header.state == Empty
  {
    ghost var st1 := StatesOf(HeadersOfPackets(packets));
    ghost var pl1 := PayloadsOfPackets(packets);
    assert st1[k] == Full && pl1[k] == Some(v);
    assert forall j :: 0 <= j < |packets| && j != k ==> UnblockState(st1[j]) == Empty;
    res := SelectWake(packets, task, events, st1, pl1);
  }

  /** A send on a packet whose receiver is parked on it: the packet becomes Full and the parked task is signalled. */
  method SendToParked<T>(pk: Packet<T>, v: T, task: TaskId) returns (sent: SendOutcome)
    requires pk.header.state == Blocked && pk.header.blockedTask == Some(task) && pk.payload == None
    modifies pk, pk.header
    ensures sent == SentWoke(task)
    ensures pk.header.state == Full && pk.payload == Some(v)
  {
    sent := pk.Send(v);
  }

  /** The poll pass of `select` over packets that are all Empty: none is ready and every header is left Blocked by `task`. */
  method ParkOnAll<T>(eps: seq<RecvPacket<T>>, task: TaskId) returns (packets: seq<Packet<T>>, poll: PollResult)
    requires Owning(eps)
    requires forall j :: 0 <= j < |eps| ==> eps[j].p.value.header.state == Empty && eps[j].p.value.payload == None
    modifies (set e | e in eps), (set e | e in eps && e.p.Some? :: e.p.value.header)
    ensures packets == old(PacketsOf(eps)) && DistinctPackets(packets) && HeadersOfPackets(packets) == old(HeadersOf(eps))
    ensures poll == PollNone
    ensures forall j :: 0 <= j < |packets| ==>
      packets[j].header.state == Blocked && packets[j].header.blockedTask == Some(task) && packets[j].payload == None
  {
    ghost var hs := HeadersOf(eps);
    ghost var st0 := StatesOf(hs);
    PollFindsFirst(st0);
    packets, poll := SelectBegin(eps, task, st0);
    assert HeadersOfPackets(packets) == hs;
  }

  /** Two fresh one-shot channels, nothing sent yet, as the endpoints `select` gets. */
  method TwoFresh<T>() returns (eps: seq<RecvPacket<T>>)
    ensures |eps| == 2 && Owning(eps)
    ensures forall j :: 0 <= j < 2 ==> fresh(eps[j]) && fresh(eps[j].p.value) && fresh(eps[j].p.value.header)
    ensures forall j :: 0 <= j < 2 ==> eps[j].p.value.header.state == Empty && eps[j].p.value.payload == None
  {
    var p1 := new Packet<T>();
    var p2 := new Packet<T>();
    var r1 := new RecvPacket(p1);
    var r2 := new RecvPacket(p2);
    eps := [r1, r2];
  }

  /**
    The two runs of `select` in the pipe test program: the task selects over
    two fresh channels before either is signalled, so it parks; only the one
    at `which` is then signalled, and the task wakes after one spurious
    event.  `select` returns `which` and the value, with one endpoint
    remaining whose header is Empty again.
  */
  method SelectThenSignal<T>(v: T, which: nat, task: TaskId)
    returns (index: nat, value: Option<T>, remaining: nat, otherState: State)
    requires which < 2
    ensures index == which && value == Some(v) && remaining == 1 && otherState == Empty
  {
    var eps := TwoFresh<T>();
    ghost var pks := PacketsOf(eps);
    var other := eps[1 - which].p.value;
    var events: seq<Header?> := [null, eps[which].p.value.header];
    ghost var hs := HeadersOf(eps);
    assert Position(hs, events[0]) == None;
    assert Position(hs, events[1]) == Some(which);
    assert events[1..] == [events[1]];
    assert FirstMatch(hs, events) == Some(which);
    assert pks == PacketsOf(eps);
    var _, _, res := SelectParksThenSend(eps, which, v, task, events);
    assert forall j :: 0 <= j < |eps| && j != which ==> pks[j].header.state == Empty;
    assert other == pks[1 - which] && 1 - which != which;
    assert pks[1 - which].header.state == Empty;
    index := res.index;
    value := res.value;
    remaining := |res.remaining|;
    otherState := other.header.state;
  }
}
