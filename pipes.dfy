/**
  The pipe runtime on the heap: packet headers and packets whose cells are
  overwritten by atomic exchanges, the two endpoint classes that own a packet
  pointer linearly, `wait_many` over a list of headers, `select` over a list
  of receive endpoints, and the completion orders of one channel.

  Each exchange is one indivisible step, so every operation is a method that
  runs without interference; the interleavings of two tasks are orderings of
  these calls.  Parking is not modelled: `recv` is split at its one
  suspension point (RecvBegin, Packet.RecvWake), and so is `wait_many`
  (PollPass, WaitPass, Finalize).
*/
module Pipes {
  import opened Options
  import opened PipeProtocol

  /** `packet_header`: the state and the task blocked on it. */
  class Header {
    var state: State
    var blockedTask: Option<TaskId>

    constructor ()
      ensures state == Empty && blockedTask == None
    {
      state := Empty;
      blockedTask := None;
    }

    /** `swap_state_acq` / `swap_state_rel`: store `s` and return what it displaced. */
    method Exchange(s: State) returns (prev: State)
      modifies this
      ensures prev == old(state) && state == s && blockedTask == old(blockedTask)
    {
      prev := state;
      state := s;
    }

    /** Registers `task` as the blocked one and exchanges the state to Blocked; returns the old state. */
    method MarkBlocked(task: TaskId) returns (prev: State)
      modifies this
      ensures prev == old(state) && state == Blocked && blockedTask == Some(task)
    {
      blockedTask := Some(task);
      prev := Exchange(Blocked);
    }

    /** Exchanges the state to Empty, then puts back Full or Terminated. */
    method Unblock()
      modifies this
      ensures state == UnblockState(old(state)) && blockedTask == old(blockedTask)
    {
      var prev := Exchange(Empty);
      match prev
      case Empty =>
      case Blocked =>
      case Terminated => state := Terminated;
      case Full => state := Full;
    }
  }

  /** `packet<T>`: a header and the single payload slot; `frees` counts releases by drop glue. */
  class Packet<T> {
    const header: Header
    var payload: Option<T>
    var frees: nat

    /** The packet's cells as the value the transition functions work on. */
    function Snapshot(): Shared<T>
      reads this, header
    {
      Shared(header.state, header.blockedTask, payload, frees)
    }

    /** `packet()`: state Empty, no blocked task, no payload. */
    constructor ()
      ensures fresh(header)
      ensures Snapshot() == Initial()
    {
      header := new Header();
      payload := None;
      frees := 0;
    }

    /** `send` once the endpoint is unwrapped; `SentWoke(t)` is the signal of `t` with this header. */
    method Send(v: T) returns (o: SendOutcome)
      modifies this, header
      ensures Step(Snapshot(), o) == SendStep(old(Snapshot()), v)
    {
      if payload.Some? {
        return SendFailed("assertion failed: payload == none");
      }
      payload := Some(v);
      var prev := header.Exchange(Full);
      match prev
      case Empty =>
        // the receiver frees
        o := SentFast;
      case Full =>
        o := SendFailed("duplicate send");
      case Blocked =>
        match header.blockedTask {
          case Some(t) => o := SentWoke(t);
          case None => o := SendFailed("blocked packet has no task");
        }
      case Terminated =>
        // the receiver is gone: drop glue frees here
        frees := frees + 1;
        o := SentDiscarded;
    }

    /** Swap the payload out, mark the packet Terminated and return the value. */
    method TakePayload() returns (o: RecvOutcome<T>)
      modifies this, header
      ensures Step(Snapshot(), o) == TakeStep(old(Snapshot()))
    {
      var got := payload;
      payload := None;
      header.state := Terminated;
      match got
      case None =>
        o := RecvFailed("option::unwrap of none");
      case Some(v) =>
        frees := frees + 1;
        o := Received(v);
    }

    /** One turn of the loop in `recv`: exchange to Blocked and branch on the old state. */
    method RecvExchange() returns (o: RecvOutcome<T>)
      modifies this, header
      ensures Step(Snapshot(), o) == RecvExchangeStep(old(Snapshot()))
    {
      var prev := header.Exchange(Blocked);
      match prev
      case Empty =>
        o := Parked;
      case Blocked =>
        o := RecvFailed("blocking on already blocked packet");
      case Full =>
        o := TakePayload();
      case Terminated =>
        frees := frees + 1;
        o := Closed;
    }

    /** `recv` up to its first suspension: record the task, then exchange. */
    method RecvBegin(task: TaskId) returns (o: RecvOutcome<T>)
      modifies this, header
      ensures Step(Snapshot(), o) == RecvBeginStep(old(Snapshot()), task)
    {
      header.blockedTask := Some(task);
      o := RecvExchange();
    }

    /** `recv` after `task_wait_event` returns: take the payload if Full, else loop to the exchange. */
    method RecvWake() returns (o: RecvOutcome<T>)
      modifies this, header
      ensures Step(Snapshot(), o) == RecvWakeStep(old(Snapshot()))
    {
      if header.state == Full {
        o := TakePayload();
      } else {
        o := RecvExchange();
      }
    }

    /** `sender_terminate`. */
    method SenderTerminate() returns (o: TermOutcome)
      modifies this, header
      ensures Step(Snapshot(), o) == SenderTerminateStep(old(Snapshot()))
    {
      var prev := header.Exchange(Terminated);
      match prev
      case Empty => o := PeerFrees;
      case Blocked => o := PeerFrees;
      case Full => o := TermFailed("you dun goofed");
      case Terminated =>
        frees := frees + 1;
        o := SelfFreed;
    }

    /** `receiver_terminate`. */
    method ReceiverTerminate() returns (o: TermOutcome)
      modifies this, header
      ensures Step(Snapshot(), o) == ReceiverTerminateStep(old(Snapshot()))
    {
      var prev := header.Exchange(Terminated);
      match prev
      case Empty => o := PeerFrees;
      case Blocked => o := TermFailed("terminating a blocked packet");
      case Full =>
        frees := frees + 1;
        o := SelfFreed;
      case Terminated =>
        frees := frees + 1;
        o := SelfFreed;
    }
  }

  /** `send_packet<T>`: the sender's linear handle; `p` is emptied by `unwrap` and by `drop`. */
  class SendPacket<T> {
    var p: Option<Packet<T>>

    constructor (pk: Packet<T>)
      ensures p == Some(pk)
    {
      p := Some(pk);
    }

    /** The packet and header a drop may touch. */
    function Footprint(): set<object>
      reads this
    {
      if p.Some? then {p.value, p.value.header} else {}
    }

    /** `unwrap`: swap the pointer out; `None` is the failing `option::unwrap`. */
    method Unwrap() returns (r: Option<Packet<T>>)
      modifies this
      ensures r == old(p) && p == None
    {
      r := p;
      p := None;
    }

    /** `drop`: terminate the sender's side only if the pointer is still there. */
    method Drop() returns (o: Option<TermOutcome>)
      modifies this, Footprint()
      ensures p == None
      ensures old(p).None? ==> o == None
      ensures old(p).Some? ==>
        o.Some? && Step(old(p).value.Snapshot(), o.value) == SenderTerminateStep(old(p.value.Snapshot()))
    {
      o := None;
      if p.Some? {
        var pk := p.value;
        p := None;
        var t := pk.SenderTerminate();
        o := Some(t);
      }
    }
  }

  /** `recv_packet<T>`: the receiver's linear handle. */
  class RecvPacket<T> {
    var p: Option<Packet<T>>

    constructor (pk: Packet<T>)
      ensures p == Some(pk)
    {
      p := Some(pk);
    }

    function Footprint(): set<object>
      reads this
    {
      if p.Some? then {p.value, p.value.header} else {}
    }

    method Unwrap() returns (r: Option<Packet<T>>)
      modifies this
      ensures r == old(p) && p == None
    {
      r := p;
      p := None;
    }

    /** `drop`: terminate the receiver's side only if the pointer is still there. */
    method Drop() returns (o: Option<TermOutcome>)
      modifies this, Footprint()
      ensures p == None
      ensures old(p).None? ==> o == None
      ensures old(p).Some? ==>
        o.Some? && Step(old(p).value.Snapshot(), o.value) == ReceiverTerminateStep(old(p.value.Snapshot()))
    {
      o := None;
      if p.Some? {
        var pk := p.value;
        p := None;
        var t := pk.ReceiverTerminate();
        o := Some(t);
      }
    }
  }

  /** `entangle`: one fresh packet, wrapped by both endpoints. */
  method Entangle<T>() returns (s: SendPacket<T>, r: RecvPacket<T>)
    ensures fresh(s) && fresh(r)
    ensures s.p.Some? && r.p == s.p
    ensures fresh(s.p.value) && fresh(s.p.value.header)
    ensures s.p.value.Snapshot() == Initial()
  {
    var pk := new Packet<T>();
    s := new SendPacket(pk);
    r := new RecvPacket(pk);
  }

  /** `send`: consume the endpoint and run the packet's send step; the emptied endpoint's drop does nothing. */
  method Send<T>(ep: SendPacket<T>, v: T) returns (o: SendOutcome)
    modifies ep, ep.Footprint()
    ensures ep.p == None
    ensures old(ep.p).None? ==> o == SendFailed("option::unwrap of none")
    ensures old(ep.p).Some? ==>
      Step(old(ep.p).value.Snapshot(), o) == SendStep(old(ep.p.value.Snapshot()), v)
  {
    var pk := ep.Unwrap();
    match pk
    case None =>
      o := SendFailed("option::unwrap of none");
    case Some(q) =>
      o := q.Send(v);
  }

  /**
    `recv` up to its suspension point: consume the endpoint, record `task` and
    exchange.  On `Parked` the caller continues with `RecvWake` on the
    returned packet once the task is woken.
  */
  method RecvBegin<T>(ep: RecvPacket<T>, task: TaskId) returns (pk: Option<Packet<T>>, o: RecvOutcome<T>)
    modifies ep, ep.Footprint()
    ensures ep.p == None && pk == old(ep.p)
    ensures pk.None? ==> o == RecvFailed("option::unwrap of none")
    ensures pk.Some? ==> Step(pk.value.Snapshot(), o) == RecvBeginStep(old(ep.p.value.Snapshot()), task)
  {
    pk := ep.Unwrap();
    match pk
    case None =>
      o := RecvFailed("option::unwrap of none");
    case Some(q) =>
      o := q.RecvBegin(task);
  }

  // ---------------------------------------------------------------------
  // wait_many
  // ---------------------------------------------------------------------

  /** Headers of pairwise distinct packets, as every list of owned endpoints gives. */
  ghost predicate Distinct(hs: seq<Header>)
  {
    forall j, k :: 0 <= j < k < |hs| ==> hs[j] != hs[k]
  }

  /** The current states of a list of headers. */
  function StatesOf(hs: seq<Header>): (r: seq<State>)
    reads set h | h in hs
    ensures |r| == |hs| && forall j :: 0 <= j < |hs| ==> r[j] == hs[j].state
  {
    if hs == [] then [] else [hs[0].state] + StatesOf(hs[1..])
  }

  /** The current blocked tasks of a list of headers. */
  function TasksOf(hs: seq<Header>): (r: seq<Option<TaskId>>)
    reads set h | h in hs
    ensures |r| == |hs| && forall j :: 0 <= j < |hs| ==> r[j] == hs[j].blockedTask
  {
    if hs == [] then [] else [hs[0].blockedTask] + TasksOf(hs[1..])
  }

  /** How the poll pass of `wait_many` ends. */
  datatype PollResult = PollReady(index: nat) | PollBlocked(index: nat) | PollNone

  /** The poll pass on the states it meets: the first header that is not Empty decides. */
  function Poll(states: seq<State>): (r: PollResult)
    ensures !r.PollNone? ==> r.index < |states|
  {
    if states == [] then PollNone
    else
      match states[0]
      case Empty =>
        (match Poll(states[1..])
         case PollReady(i) => PollReady(i + 1)
         case PollBlocked(i) => PollBlocked(i + 1)
         case PollNone => PollNone)
      case Blocked => PollBlocked(0)
      case Full => PollReady(0)
      case Terminated => PollReady(0)
  }

  predicate EmptyBefore(states: seq<State>, i: nat)
  {
    forall j :: 0 <= j < i && j < |states| ==> states[j] == Empty
  }

  /** The header at which the poll pass stopped, or the length if it ran to the end. */
  function Stop(r: PollResult, n: nat): nat
  {
    match r
    case PollReady(i) => i
    case PollBlocked(i) => i
    case PollNone => n
  }

  /**
    The poll pass finds the lowest-indexed header that is Full or
    Terminated, provided every header before it is Empty; it fails at a
    Blocked header met first; it finds nothing only if every header is
    Empty.  The three cases exclude each other, so this determines Poll.
  */
  lemma {:induction false} PollFindsFirst(states: seq<State>)
    ensures match Poll(states)
      case PollNone => EmptyBefore(states, |states|)
      case PollReady(i) => i < |states| && (states[i] == Full || states[i] == Terminated) && EmptyBefore(states, i)
      case PollBlocked(i) => i < |states| && states[i] == Blocked && EmptyBefore(states, i)
  {
    if states != [] && states[0] == Empty {
      PollFindsFirst(states[1..]);
    }
  }

  /** Where the poll pass stops, given that every header before `i` is Empty. */
  lemma {:induction false} PollStopsAt(states: seq<State>, i: nat)
    requires i <= |states| && EmptyBefore(states, i)
    ensures i == |states| ==> Poll(states) == PollNone
    ensures i < |states| && (states[i] == Full || states[i] == Terminated) ==> Poll(states) == PollReady(i)
    ensures i < |states| && states[i] == Blocked ==> Poll(states) == PollBlocked(i)
  {
    if states != [] && i > 0 {
      PollStopsAt(states[1..], i - 1);
    }
  }

  /**
    The poll pass of `wait_many`: mark each header blocked by `task` in
    order; at the first Full or Terminated one put the old state back and
    stop; a Blocked one is the "blocking on blocked packet" failure.  Headers
    after the stopping point are not touched.
  */
  method PollPass(pkts: seq<Header>, task: TaskId) returns (r: PollResult)
    requires Distinct(pkts)
    modifies set h | h in pkts
    ensures r == Poll(old(StatesOf(pkts)))
    ensures var k := Stop(r, |pkts|);
      && (forall j :: 0 <= j < k && j < |pkts| ==>
            pkts[j].state == Blocked && pkts[j].blockedTask == Some(task))
      && (k < |pkts| ==> pkts[k].state == old(pkts[k].state) && pkts[k].blockedTask == Some(task))
      && (forall j :: k < j < |pkts| ==>
            pkts[j].state == old(pkts[j].state) && pkts[j].blockedTask == old(pkts[j].blockedTask))
  {
    ghost var states := StatesOf(pkts);
    ghost var tasks := TasksOf(pkts);
    var i := 0;
    var prev := Empty;
    while i < |pkts|
      invariant 0 <= i <= |pkts|
      invariant EmptyBefore(states, i)
      invariant BlockedBy(pkts, i, task)
      invariant forall j :: i <= j < |pkts| ==> pkts[j].state == states[j] && pkts[j].blockedTask == tasks[j]
    {
      prev := PollHeader(pkts, i, task);
      if prev != Empty {
        break;
      }
      i := i + 1;
    }
    if i == |pkts| {
      r := PollNone;
    } else if prev == Blocked {
      r := PollBlocked(i);
    } else {
      r := PollReady(i);
    }
    PollStopsAt(states, i);
  }

  /** The first `n` headers are Blocked by `task`. */
  ghost predicate BlockedBy(pkts: seq<Header>, n: nat, task: TaskId)
    reads set h | h in pkts
  {
    forall j :: 0 <= j < n && j < |pkts| ==> pkts[j].state == Blocked && pkts[j].blockedTask == Some(task)
  }

  /** One header of the poll pass: mark it blocked by `task`, and put a Full or Terminated state back. */
  method PollHeader(pkts: seq<Header>, i: nat, task: TaskId) returns (prev: State)
    requires Distinct(pkts) && i < |pkts|
    modifies pkts[i]
    ensures prev == old(pkts[i].state) && pkts[i].blockedTask == Some(task)
    ensures pkts[i].state == if prev == Full || prev == Terminated then prev else Blocked
    ensures forall j :: 0 <= j < |pkts| && j != i ==>
      pkts[j].state == old(pkts[j].state) && pkts[j].blockedTask == old(pkts[j].blockedTask)
  {
    prev := pkts[i].MarkBlocked(task);
    if prev == Full || prev == Terminated {
      pkts[i].state := prev;
    }
  }

  /** `vec::position`: the first index holding `e`. */
  function Position(hs: seq<Header>, e: Header?): (r: Option<nat>)
    ensures r.Some? ==> r.value < |hs| && hs[r.value] == e && forall j :: 0 <= j < r.value ==> hs[j] != e
    ensures r.None? ==> forall j :: 0 <= j < |hs| ==> hs[j] != e
  {
    if hs == [] then None
    else if hs[0] == e then Some(0)
    else
      match Position(hs[1..], e)
      case None => None
      case Some(k) => Some(k + 1)
  }

  /** The header the first event naming one of `hs` names: what the wait pass wakes with. */
  function FirstMatch(hs: seq<Header>, events: seq<Header?>): (r: Option<nat>)
    ensures r.Some? ==> r.value < |hs|
    ensures r.Some? ==> exists i :: 0 <= i < |events| && Position(hs, events[i]) == r && forall j :: 0 <= j < i ==> Position(hs, events[j]).None?
    ensures r.None? ==> forall i :: 0 <= i < |events| ==> Position(hs, events[i]).None?
  {
    if events == [] then None
    else
      match Position(hs, events[0])
      case Some(i) => Some(i)
      case None => FirstMatch(hs, events[1..])
  }

  /**
    The wait pass of `wait_many`.  `events` are the tokens successive
    `task_wait_event` calls return; an event that is none of the headers is
    spurious and ignored.  `None` means the events ran out with the task
    still asleep.
  */
  method WaitPass(pkts: seq<Header>, events: seq<Header?>) returns (ready: Option<nat>)
    ensures ready == FirstMatch(pkts, events)
    ensures ready.None? ==> forall n :: 0 <= n < |events| ==> Position(pkts, events[n]).None?
    ensures ready.Some? ==>
      exists n :: 0 <= n < |events| && Position(pkts, events[n]) == ready &&
                  forall m :: 0 <= m < n ==> Position(pkts, events[m]).None?
  {
    var dataAvail := false;
    var n := 0;
    ready := None;
    while !dataAvail && n < |events|
      invariant 0 <= n <= |events|
      invariant !dataAvail ==> ready.None? && forall m :: 0 <= m < n ==> Position(pkts, events[m]).None?
      invariant !dataAvail ==> FirstMatch(pkts, events) == FirstMatch(pkts, events[n..])
      invariant dataAvail ==> ready == FirstMatch(pkts, events)
      invariant dataAvail ==>
        0 < n && ready.Some? && Position(pkts, events[n - 1]) == ready &&
        forall m :: 0 <= m < n - 1 ==> Position(pkts, events[m]).None?
    {
      assert events[n..][0] == events[n] && events[n..][1..] == events[n + 1..];
      var event := events[n];
      n := n + 1;
      var pos := Position(pkts, event);
      match pos
      case Some(i) =>
        ready := Some(i);
        dataAvail := true;
      case None =>
    }
  }

  /** The final pass of `wait_many`: `unblock` every header. */
  method Finalize(pkts: seq<Header>)
    requires Distinct(pkts)
    modifies set h | h in pkts
    ensures forall j :: 0 <= j < |pkts| ==>
      pkts[j].state == UnblockState(old(pkts[j].state)) && pkts[j].blockedTask == old(pkts[j].blockedTask)
  {
    for i := 0 to |pkts|
      invariant forall j :: 0 <= j < i ==>
        pkts[j].state == UnblockState(old(pkts[j].state)) && pkts[j].blockedTask == old(pkts[j].blockedTask)
      invariant forall j :: i <= j < |pkts| ==>
        pkts[j].state == old(pkts[j].state) && pkts[j].blockedTask == old(pkts[j].blockedTask)
    {
      pkts[i].Unblock();
    }
  }

  datatype WaitResult = Ready(index: nat) | Sleeping | WaitFailed(reason: string)

  /**
    `wait_many` run as one uninterrupted call: poll, wait on `events` if
    nothing was ready, unblock every header, and check the ready header.
    With no other task running in between, a wake in the wait pass finds its
    header unblocked back to Empty, so only the poll pass can succeed; the
    interleaved run is SelectBegin, the senders' steps, then SelectWake.
  */
  method WaitMany(pkts: seq<Header>, task: TaskId, events: seq<Header?>) returns (w: WaitResult)
    requires Distinct(pkts)
    modifies set h | h in pkts
    ensures w.Ready? ==> w.index < |pkts| && (pkts[w.index].state == Full || pkts[w.index].state == Terminated)
    ensures w.Ready? ==> forall j :: 0 <= j < |pkts| ==> pkts[j].state == UnblockState(old(pkts[j].state))
    ensures match Poll(old(StatesOf(pkts)))
      case PollReady(i) => w == Ready(i)
      case PollBlocked(_) => w == WaitFailed("blocking on blocked packet")
      case PollNone => !w.Ready?
  {
    ghost var states := StatesOf(pkts);
    PollFindsFirst(states);
    var poll := PollPass(pkts, task);
    assert forall j :: 0 <= j < |pkts| ==> UnblockState(pkts[j].state) == UnblockState(states[j]);
    match poll {
      case PollBlocked(_) =>
        w := WaitFailed("blocking on blocked packet");
      case PollReady(i) =>
        w := FinishWait(pkts, i, states);
      case PollNone =>
        var found := WaitPass(pkts, events);
        if found.None? {
          w := Sleeping;
        } else {
          w := FinishWait(pkts, found.value, states);
        }
    }
  }

  /** The end of `wait_many`: `unblock` every header, then check the ready one is Full or Terminated. */
  method FinishWait(pkts: seq<Header>, ready: nat, ghost states: seq<State>) returns (w: WaitResult)
    requires Distinct(pkts) && ready < |pkts| && |states| == |pkts|
    requires forall j :: 0 <= j < |pkts| ==> UnblockState(pkts[j].state) == UnblockState(states[j])
    modifies set h | h in pkts
    ensures forall j :: 0 <= j < |pkts| ==> pkts[j].state == UnblockState(states[j])
    ensures w == if UnblockState(states[ready]) == Full || UnblockState(states[ready]) == Terminated
      then Ready(ready) else WaitFailed("assertion failed: ready packet is full or terminated")
  {
    Finalize(pkts);
    if pkts[ready].state == Full || pkts[ready].state == Terminated {
      w := Ready(ready);
    } else {
      w := WaitFailed("assertion failed: ready packet is full or terminated");
    }
  }

  // ---------------------------------------------------------------------
  // select
  // ---------------------------------------------------------------------

  datatype SelectResult<T> =
    | Selected(index: nat, value: Option<T>, remaining: seq<RecvPacket<T>>)
    | SelectSleeping
    | SelectFailed(reason: string)

  /**
    Receive endpoints as the linear type system hands them to `select`:
    each still holds its pointer, and no two share an endpoint, a packet or
    a header.
  */
  ghost predicate Owning<T>(eps: seq<RecvPacket<T>>)
    reads set e | e in eps
  {
    && (forall j :: 0 <= j < |eps| ==> eps[j].p.Some?)
    && (forall j, k :: 0 <= j < k < |eps| ==>
          eps[j] != eps[k] && eps[j].p.value != eps[k].p.value && eps[j].p.value.header != eps[k].p.value.header)
  }

  /** The packets and headers a list of endpoints points to. */
  ghost function Held<T>(eps: seq<RecvPacket<T>>): set<object>
    reads set e | e in eps
  {
    (set e | e in eps && e.p.Some? :: e.p.value as object) +
    (set e | e in eps && e.p.Some? :: e.p.value.header as object)
  }

  /** The headers behind a list of endpoints. */
  function HeadersOf<T>(eps: seq<RecvPacket<T>>): (hs: seq<Header>)
    requires forall j :: 0 <= j < |eps| ==> eps[j].p.Some?
    reads set e | e in eps
    ensures |hs| == |eps| && forall j :: 0 <= j < |eps| ==> hs[j] == eps[j].p.value.header
  {
    if eps == [] then [] else [eps[0].p.value.header] + HeadersOf(eps[1..])
  }

  /** The `j`-th endpoint that is left once index `i` is taken out. */
  function Skip(j: nat, i: nat): nat
  {
    if j < i then j else j + 1
  }

  /** What `select` unwraps is exactly what the endpoints hold. */
  lemma HeldCovers<T>(eps: seq<RecvPacket<T>>, pks: seq<Packet<T>>)
    requires Owning(eps) && pks == PacketsOf(eps)
    ensures DistinctPackets(pks)
    ensures forall pk :: pk in pks ==> pk in Held(eps) && pk.header in Held(eps)
  {
    forall pk | pk in pks ensures pk in Held(eps) && pk.header in Held(eps) {
      var j :| 0 <= j < |pks| && pks[j] == pk;
      assert eps[j] in eps;
    }
  }

  /** The packets behind a list of endpoints. */
  function PacketsOf<T>(eps: seq<RecvPacket<T>>): (pks: seq<Packet<T>>)
    requires forall j :: 0 <= j < |eps| ==> eps[j].p.Some?
    reads set e | e in eps
    ensures |pks| == |eps| && forall j :: 0 <= j < |eps| ==> pks[j] == eps[j].p.value
  {
    if eps == [] then [] else [eps[0].p.value] + PacketsOf(eps[1..])
  }

  /** The payload slots behind a list of endpoints. */
  function PayloadsOf<T>(eps: seq<RecvPacket<T>>): (ps: seq<Option<T>>)
    requires forall j :: 0 <= j < |eps| ==> eps[j].p.Some?
    reads set e | e in eps, set e | e in eps && e.p.Some? :: e.p.value
    ensures |ps| == |eps| && forall j :: 0 <= j < |eps| ==> ps[j] == eps[j].p.value.payload
  {
    if eps == [] then [] else [eps[0].p.value.payload] + PayloadsOf(eps[1..])
  }

  /** The first step of `select`: `unwrap` every endpoint, in order. */
  method UnwrapAll<T>(eps: seq<RecvPacket<T>>) returns (packets: seq<Packet<T>>)
    requires Owning(eps)
    modifies set e | e in eps
    ensures packets == old(PacketsOf(eps))
    ensures forall j :: 0 <= j < |eps| ==> eps[j].p == None
  {
    ghost var pks := PacketsOf(eps);
    packets := [];
    for i := 0 to |eps|
      invariant packets == pks[..i]
      invariant forall j :: 0 <= j < i ==> eps[j].p == None
      invariant forall j :: i <= j < |eps| ==> eps[j].p == old(eps[j].p)
    {
      var q := eps[i].Unwrap();
      packets := packets + [q.value];
    }
  }

  /**
    The last step of `select`: wrap every packet in a new endpoint again;
    `recv` on the ready one, which is already Full or Terminated so
    that `recv` does not park, and keep the others in order.
  */
  method Consume<T>(packets: seq<Packet<T>>, ready: nat, task: TaskId)
    returns (value: Option<T>, fault: Option<string>, remaining: seq<RecvPacket<T>>)
    requires ready < |packets|
    requires packets[ready].header.state == Full || packets[ready].header.state == Terminated
    modifies packets[ready], packets[ready].header
    ensures |remaining| == |packets| - 1
    ensures forall j :: 0 <= j < |remaining| ==> fresh(remaining[j]) && remaining[j].p == Some(packets[Skip(j, ready)])
    ensures var st := RecvBeginStep(old(packets[ready].Snapshot()), task);
      && packets[ready].Snapshot() == st.next
      && match st.out
         case Received(v) => value == Some(v) && fault == None
         case RecvFailed(r) => value == None && fault == Some(r)
         case _ => value == None && fault == None
  {
    ghost var before := packets[ready].Snapshot();
    remaining := [];
    value, fault := None, None;
    for i := 0 to |packets|
      invariant |remaining| == (if i <= ready then i else i - 1)
      invariant forall j :: 0 <= j < |remaining| ==> fresh(remaining[j]) && remaining[j].p == Some(packets[Skip(j, ready)])
      invariant i <= ready ==> packets[ready].Snapshot() == before && value == None && fault == None
      invariant i > ready ==>
        var st := RecvBeginStep(before, task);
        && packets[ready].Snapshot() == st.next
        && match st.out
           case Received(v) => value == Some(v) && fault == None
           case RecvFailed(r) => value == None && fault == Some(r)
           case _ => value == None && fault == None
    {
      var q := new RecvPacket(packets[i]);
      if i == ready {
        var _, o := RecvBegin(q, task);
        match o {
          case Received(v) => value := Some(v);
          case Closed => value := None;
          case RecvFailed(r) => fault := Some(r);
          case Parked => assert false;
        }
      } else {
        remaining := remaining + [q];
      }
    }
  }

  /** Packets no two of which share the packet or the header. */
  ghost predicate DistinctPackets<T>(pks: seq<Packet<T>>)
  {
    forall j, k :: 0 <= j < k < |pks| ==> pks[j] != pks[k] && pks[j].header != pks[k].header
  }

  function HeadersOfPackets<T>(pks: seq<Packet<T>>): (hs: seq<Header>)
    ensures |hs| == |pks| && forall j :: 0 <= j < |pks| ==> hs[j] == pks[j].header
  {
    seq(|pks|, j requires 0 <= j < |pks| => pks[j].header)
  }

  function PayloadsOfPackets<T>(pks: seq<Packet<T>>): (ps: seq<Option<T>>)
    reads set pk | pk in pks
    ensures |ps| == |pks| && forall j :: 0 <= j < |pks| ==> ps[j] == pks[j].payload
  {
    if pks == [] then [] else [pks[0].payload] + PayloadsOfPackets(pks[1..])
  }

  /**
    What `select` returns, given the states and payloads the packets had
    when it was called: the poll pass decides, a Blocked header first met
    is a failure, and a selected packet that was Full yields its payload
    (a Full packet with no payload is the unwrap failure of `recv`).
  */
  ghost predicate SelectDecided<T>(states: seq<State>, payloads: seq<Option<T>>, res: SelectResult<T>)
    requires |states| == |payloads|
    ensures SelectDecided(states, payloads, res) && res.Selected? ==> EmptyBefore(states, res.index)
  {
    PollFindsFirst(states);
    && (res.Selected? ==>
          && res.index < |states|
          && (|| (states[res.index] == Full && res.value.Some? && res.value == payloads[res.index])
              || (states[res.index] == Terminated && res.value == None)))
    && match Poll(states)
       case PollReady(i) =>
         if states[i] == Full && payloads[i].None?
         then res == SelectFailed("option::unwrap of none")
         else res.Selected? && res.index == i
       case PollBlocked(_) => res == SelectFailed("blocking on blocked packet")
       case PollNone => !res.Selected?
  }

  /** `select` once the endpoints are unwrapped: `wait_many` over the headers, then consume. */
  method SelectPackets<T>(pks: seq<Packet<T>>, task: TaskId, events: seq<Header?>, ghost st0: seq<State>, ghost pl0: seq<Option<T>>)
    returns (res: SelectResult<T>)
    requires DistinctPackets(pks)
    requires st0 == StatesOf(HeadersOfPackets(pks)) && pl0 == PayloadsOfPackets(pks)
    modifies (set pk | pk in pks), (set pk | pk in pks :: pk.header)
    ensures SelectDecided(st0, pl0, res)
    ensures res.Selected? ==>
      && res.index < |pks|
      && |res.remaining| == |pks| - 1
      && (forall j :: 0 <= j < |res.remaining| ==>
            fresh(res.remaining[j]) && res.remaining[j].p == Some(pks[Skip(j, res.index)]))
    ensures res.Selected? ==>
      forall j :: 0 <= j < |pks| && j != res.index ==> pks[j].header.state == UnblockState(st0[j])
  {
    var headers := HeadersOfPackets(pks);
    var w := WaitMany(headers, task, events);
    match w {
      case Sleeping => res := SelectSleeping;
      case WaitFailed(r) => res := SelectFailed(r);
      case Ready(ready) =>
        assert Poll(st0) == PollReady(ready);
        assert pks[ready].header.state == st0[ready];
        assert pks[ready].payload == pl0[ready];
        res := SelectReady(pks, ready, task);
    }
  }

  /** The end of `select`: `recv` on the ready packet, and fresh endpoints for the others. */
  method SelectReady<T>(pks: seq<Packet<T>>, ready: nat, task: TaskId) returns (res: SelectResult<T>)
    requires ready < |pks|
    requires pks[ready].header.state == Full || pks[ready].header.state == Terminated
    modifies pks[ready], pks[ready].header
    ensures res.Selected? ==>
      && |res.remaining| == |pks| - 1
      && (forall j :: 0 <= j < |res.remaining| ==>
            fresh(res.remaining[j]) && res.remaining[j].p == Some(pks[Skip(j, res.index)]))
    ensures if old(pks[ready].header.state) == Full && old(pks[ready].payload).None?
      then res == SelectFailed("option::unwrap of none")
      else && res.Selected? && res.index == ready
           && if old(pks[ready].header.state) == Full then res.value.Some? && res.value == old(pks[ready].payload)
              else res.value == None
  {
    var value, fault, remaining := Consume(pks, ready, task);
    if fault.Some? {
      res := SelectFailed(fault.value);
    } else {
      res := Selected(ready, value, remaining);
    }
  }

  /**
    `select`: unwrap every endpoint, run `wait_many` over their headers,
    then `recv` on the ready packet and return new endpoints for the others
    in their original order.
  */
  method Select<T>(eps: seq<RecvPacket<T>>, task: TaskId, events: seq<Header?>) returns (res: SelectResult<T>)
    requires Owning(eps)
    modifies (set e | e in eps), Held(eps)
    ensures forall j :: 0 <= j < |eps| ==> eps[j].p == None
    ensures res.Selected? ==>
      && res.index < |eps|
      && |res.remaining| == |eps| - 1
      && (forall j :: 0 <= j < |res.remaining| ==>
            fresh(res.remaining[j]) && res.remaining[j].p == Some(old(PacketsOf(eps))[Skip(j, res.index)]))
    ensures SelectDecided(old(StatesOf(HeadersOf(eps))), old(PayloadsOf(eps)), res)
    ensures res.Selected? ==>
      forall j :: 0 <= j < |eps| && j != res.index ==>
        old(HeadersOf(eps))[j].state == UnblockState(old(StatesOf(HeadersOf(eps)))[j])
  {
    ghost var hs := HeadersOf(eps);
    ghost var states := StatesOf(hs);
    ghost var payloads := PayloadsOf(eps);
    HeldCovers(eps, PacketsOf(eps));
    var packets := UnwrapAll(eps);
    assert HeadersOfPackets(packets) == hs;
    assert StatesOf(HeadersOfPackets(packets)) == states;
    assert PayloadsOfPackets(packets) == payloads;
    res := SelectPackets(packets, task, events, states, payloads);
  }

  // ---------------------------------------------------------------------
  // select, split at its suspension point
  // ---------------------------------------------------------------------

  /**
    `select` up to the point where `wait_many` parks: unwrap every endpoint
    and run the poll pass over the headers.  When the poll pass finds
    nothing, every header is left Blocked by `task` and the caller continues
    with SelectWake once the task is woken.
  */
  method SelectBegin<T>(eps: seq<RecvPacket<T>>, task: TaskId, ghost st0: seq<State>) returns (packets: seq<Packet<T>>, poll: PollResult)
    requires Owning(eps) && st0 == StatesOf(HeadersOf(eps))
    modifies (set e | e in eps), (set e | e in eps && e.p.Some? :: e.p.value.header)
    ensures forall j :: 0 <= j < |eps| ==> eps[j].p == None
    ensures packets == old(PacketsOf(eps)) && DistinctPackets(packets)
    ensures poll == Poll(st0)
    ensures var k := Stop(poll, |packets|);
      && (forall j :: 0 <= j < k && j < |packets| ==>
            packets[j].header.state == Blocked && packets[j].header.blockedTask == Some(task))
      && (k < |packets| ==> packets[k].header.state == st0[k] && packets[k].header.blockedTask == Some(task))
      && (forall j :: k < j < |packets| ==> packets[j].header.state == st0[j])
  {
    ghost var hs0 := HeadersOf(eps);
    HeldCovers(eps, PacketsOf(eps));
    packets := UnwrapAll(eps);
    var headers := HeadersOfPackets(packets);
    assert headers == hs0;
    poll := PollPass(headers, task);
  }

  /**
    What `select` returns after a wake, given the states and payloads the
    packets have when the task runs again and the header the wait pass
    matched: no match leaves the task asleep; a matched header that is not
    Full or Terminated once unblocked fails the assertion of `wait_many`;
    otherwise `recv` on it decides, as in SelectDecided.
  */
  ghost predicate WakeDecided<T>(states: seq<State>, payloads: seq<Option<T>>, found: Option<nat>, res: SelectResult<T>)
    requires |states| == |payloads|
    ensures WakeDecided(states, payloads, found, res) ==>
      (res.Selected? <==> found.Some? && found.value < |states| &&
                          ((states[found.value] == Full && payloads[found.value].Some?) || states[found.value] == Terminated))
  {
    match found
    case None => res == SelectSleeping
    case Some(k) =>
      && k < |states|
      && if states[k] != Full && states[k] != Terminated then
           res == SelectFailed("assertion failed: ready packet is full or terminated")
         else if states[k] == Full && payloads[k].None? then
           res == SelectFailed("option::unwrap of none")
         else
           && res.Selected? && res.index == k
           && if states[k] == Full then res.value.Some? && res.value == payloads[k] else res.value == None
  }

  /**
    `select` after the task wakes in `wait_many`: the wait pass over
    `events`, the final pass, and `recv` on the ready packet with fresh
    endpoints for the others.
  */
  method SelectWake<T>(pks: seq<Packet<T>>, task: TaskId, events: seq<Header?>, ghost st0: seq<State>, ghost pl0: seq<Option<T>>)
    returns (res: SelectResult<T>)
    requires DistinctPackets(pks)
    requires st0 == StatesOf(HeadersOfPackets(pks)) && pl0 == PayloadsOfPackets(pks)
    modifies (set pk | pk in pks), (set pk | pk in pks :: pk.header)
    ensures WakeDecided(st0, pl0, FirstMatch(HeadersOfPackets(pks), events), res)
    ensures res.Selected? ==>
      && res.index < |pks|
      && |res.remaining| == |pks| - 1
      && (forall j :: 0 <= j < |res.remaining| ==>
            fresh(res.remaining[j]) && res.remaining[j].p == Some(pks[Skip(j, res.index)]))
    ensures res.Selected? ==>
      forall j :: 0 <= j < |pks| && j != res.index ==> pks[j].header.state == UnblockState(st0[j])
  {
    var headers := HeadersOfPackets(pks);
    var found := WaitPass(headers, events);
    match found {
      case None =>
        res := SelectSleeping;
      case Some(k) =>
        var w := FinishWait(headers, k, st0);
        if w.Ready? {
          assert pks[k].header.state == st0[k] && pks[k].payload == pl0[k];
          res := SelectReady(pks, k, task);
        } else {
          res := SelectFailed(w.reason);
        }
    }
  }
}
