/**
  The one-shot pipe packet as a state machine on values.

  Every runtime operation on a packet performs one atomic exchange of the
  packet's state and then branches on the state it displaced.  Each of those
  operations is written here as a function from the packet's shared cells to
  the new cells and an outcome; the imperative model in module Pipes is proved
  to perform exactly these transitions.  The second half of the module runs
  both sides of one channel in an arbitrary order and proves that the packet
  allocation is released exactly once.
*/
module PipeProtocol {
  import opened Options

  /** The four states a packet header can be in. */
  datatype State = Empty | Full | Blocked | Terminated

  /** A scheduler task, known to the pipe only by its identity. */
  type TaskId = nat

  /**
    The mutable cells of one packet: the header's state and blocked task and
    the payload slot.  `frees` counts how many times the allocation was
    released by drop glue (the branches that do not `forget` the packet).
  */
  datatype Shared<T> = Shared(state: State, blockedTask: Option<TaskId>, payload: Option<T>, frees: nat)

  /** What `send` did, by the state its exchange displaced. */
  datatype SendOutcome = SentFast | SentWoke(task: TaskId) | SentDiscarded | SendFailed(reason: string)

  /** What one step of `recv` did: parked, delivered a value, found the sender gone, or failed. */
  datatype RecvOutcome<T> = Parked | Received(value: T) | Closed | RecvFailed(reason: string)

  /** What a termination did: left the free to the peer, freed the packet itself, or failed. */
  datatype TermOutcome = PeerFrees | SelfFreed | TermFailed(reason: string)

  /** New cells together with an outcome. */
  datatype Step<T, O> = Step(next: Shared<T>, out: O)

  /** The freshly allocated packet of `packet()`. */
  function Initial<T>(): Shared<T>
  {
    Shared(Empty, None, None, 0)
  }

  /** Drop glue: the packet (and whatever payload it still holds) is released. */
  function Release<T>(s: Shared<T>): Shared<T>
  {
    s.(frees := s.frees + 1)
  }

  /** `send`: store the payload, exchange the state to Full and branch on the old state. */
  function SendStep<T>(s: Shared<T>, v: T): (r: Step<T, SendOutcome>)
    ensures s.payload.Some? ==> r.next == s && r.out.SendFailed?
    ensures s.payload.None? ==> r.next.state == Full && r.next.payload == Some(v)
    ensures r.next.blockedTask == s.blockedTask
    ensures r.out.SentWoke? <==> s.payload.None? && s.state == Blocked && s.blockedTask.Some?
    ensures r.out.SentWoke? ==> s.blockedTask == Some(r.out.task)
    ensures r.next.frees == if r.out == SentDiscarded then s.frees + 1 else s.frees
  {
    if s.payload.Some? then Step(s, SendFailed("assertion failed: payload == none"))
    else
      var stored := s.(payload := Some(v), state := Full);
      match s.state
      case Empty => Step(stored, SentFast)
      case Full => Step(stored, SendFailed("duplicate send"))
      case Blocked =>
        (match s.blockedTask
         case Some(t) => Step(stored, SentWoke(t))
         case None => Step(stored, SendFailed("blocked packet has no task")))
      case Terminated => Step(Release(stored), SentDiscarded)
  }

  /** Moving the payload out of a Full packet; `recv` then returns and its box is released. */
  function TakeStep<T>(s: Shared<T>): (r: Step<T, RecvOutcome<T>>)
    ensures r.next.state == Terminated && r.next.payload == None && r.next.blockedTask == s.blockedTask
    ensures r.out.Received? <==> s.payload.Some?
    ensures r.out.Received? ==> s.payload == Some(r.out.value)
    ensures r.next.frees == if r.out.Received? then s.frees + 1 else s.frees
  {
    match s.payload
    case None => Step(s.(state := Terminated), RecvFailed("option::unwrap of none"))
    case Some(v) => Step(Release(s.(payload := None, state := Terminated)), Received(v))
  }

  /** One turn of the loop in `recv`: exchange the state to Blocked and branch on the old state. */
  function RecvExchangeStep<T>(s: Shared<T>): (r: Step<T, RecvOutcome<T>>)
    ensures r.out == Parked <==> s.state == Empty
    ensures r.out == Closed <==> s.state == Terminated
    ensures r.out.Received? ==> s.state == Full && s.payload == Some(r.out.value)
    ensures s.state == Blocked ==> r.out == RecvFailed("blocking on already blocked packet")
    ensures r.out == Parked ==> r.next == s.(state := Blocked)
    ensures r.next.blockedTask == s.blockedTask
  {
    var marked := s.(state := Blocked);
    match s.state
    case Empty => Step(marked, Parked)
    case Blocked => Step(marked, RecvFailed("blocking on already blocked packet"))
    case Full => TakeStep(marked)
    case Terminated => Step(Release(marked), Closed)
  }

  /** Entering `recv`: record the receiving task, then the first exchange. */
  function RecvBeginStep<T>(s: Shared<T>, task: TaskId): (r: Step<T, RecvOutcome<T>>)
    ensures r.next.blockedTask == Some(task)
    ensures r.out == Parked <==> s.state == Empty
  {
    RecvExchangeStep(s.(blockedTask := Some(task)))
  }

  /** After the parked receiver wakes: take the payload if Full, otherwise loop to the exchange. */
  function RecvWakeStep<T>(s: Shared<T>): (r: Step<T, RecvOutcome<T>>)
    ensures r.out == Parked <==> s.state == Empty
    ensures s.state == Blocked ==> r.out == RecvFailed("blocking on already blocked packet")
    ensures s.state == Full ==> (r.out.Received? <==> s.payload.Some?)
    ensures r.out.Received? ==> s.payload == Some(r.out.value)
  {
    if s.state == Full then TakeStep(s) else RecvExchangeStep(s)
  }

  /** `sender_terminate`: exchange the state to Terminated and decide who frees. */
  function SenderTerminateStep<T>(s: Shared<T>): (r: Step<T, TermOutcome>)
    ensures r.next.state == Terminated && r.next.payload == s.payload && r.next.blockedTask == s.blockedTask
    ensures r.out == SelfFreed <==> s.state == Terminated
    ensures r.out.TermFailed? <==> s.state == Full
    ensures r.next.frees == if r.out == SelfFreed then s.frees + 1 else s.frees
  {
    var t := s.(state := Terminated);
    match s.state
    case Empty => Step(t, PeerFrees)
    case Blocked => Step(t, PeerFrees)
    case Full => Step(t, TermFailed("you dun goofed"))
    case Terminated => Step(Release(t), SelfFreed)
  }

  /** `receiver_terminate`: exchange the state to Terminated and decide who frees. */
  function ReceiverTerminateStep<T>(s: Shared<T>): (r: Step<T, TermOutcome>)
    ensures r.next.state == Terminated && r.next.payload == s.payload && r.next.blockedTask == s.blockedTask
    ensures r.out == PeerFrees <==> s.state == Empty
    ensures r.out.TermFailed? <==> s.state == Blocked
    ensures r.next.frees == if r.out == SelfFreed then s.frees + 1 else s.frees
  {
    var t := s.(state := Terminated);
    match s.state
    case Empty => Step(t, PeerFrees)
    case Blocked => Step(t, TermFailed("terminating a blocked packet"))
    case Full => Step(Release(t), SelfFreed)
    case Terminated => Step(Release(t), SelfFreed)
  }

  /** `unblock`: Empty and Blocked become Empty, Full and Terminated are kept. */
  function UnblockState(s: State): (r: State)
    ensures r != Blocked
    ensures r == Full <==> s == Full
    ensures r == Terminated <==> s == Terminated
  {
    match s
    case Empty => Empty
    case Blocked => Empty
    case Full => Full
    case Terminated => Terminated
  }

  // ---------------------------------------------------------------------
  // Both sides of one channel, in any order of their steps.
  // ---------------------------------------------------------------------

  /** How far the holder of the send endpoint has got. */
  datatype Sender<T> = SenderLive | SenderSent(sent: T) | SenderDropped

  /** How far the holder of the receive endpoint has got. */
  datatype Receiver<T> = ReceiverIdle | ReceiverParked(task: TaskId) | ReceiverGot(got: T) | ReceiverClosed | ReceiverDropped

  /** One channel: the packet, both parties, and the wake-ups `send` signalled. */
  datatype Sys<T> = Sys(shared: Shared<T>, sender: Sender<T>, receiver: Receiver<T>, signals: seq<TaskId>)

  /**
    The indivisible steps of the two parties.  `DoRecvWake` is the receiver
    returning from `task_wait_event` and re-checking the packet.
  */
  datatype Action<T> = DoSend(v: T) | DoSenderDrop | DoRecvBegin(task: TaskId) | DoRecvWake | DoReceiverDrop

  datatype Run<T> = Running(sys: Sys<T>) | Faulted(reason: string)

  /** Right after `entangle`: a fresh packet, both endpoints unused. */
  function Start<T>(): Sys<T>
  {
    Sys(Initial(), SenderLive, ReceiverIdle, [])
  }

  predicate SenderDone<T>(sys: Sys<T>)
  {
    !sys.sender.SenderLive?
  }

  predicate ReceiverDone<T>(sys: Sys<T>)
  {
    sys.receiver.ReceiverGot? || sys.receiver.ReceiverClosed? || sys.receiver.ReceiverDropped?
  }

  /**
    A party can only act with an endpoint it still owns: the sender sends or
    drops once, the receiver calls `recv` or drops once, and only a parked
    receiver wakes.
  */
  predicate Enabled<T>(sys: Sys<T>, a: Action<T>)
  {
    match a
    case DoSend(_) => sys.sender.SenderLive?
    case DoSenderDrop => sys.sender.SenderLive?
    case DoRecvBegin(_) => sys.receiver.ReceiverIdle?
    case DoReceiverDrop => sys.receiver.ReceiverIdle?
    case DoRecvWake => sys.receiver.ReceiverParked?
  }

  /** The receiver wakes only once the sender has acted (sent and signalled, or dropped). */
  predicate Woken<T>(sys: Sys<T>, a: Action<T>)
  {
    a.DoRecvWake? ==> SenderDone(sys)
  }

  function AfterRecv<T>(sys: Sys<T>, st: Step<T, RecvOutcome<T>>, task: TaskId): Run<T>
  {
    match st.out
    case Parked => Running(sys.(shared := st.next, receiver := ReceiverParked(task)))
    case Received(v) => Running(sys.(shared := st.next, receiver := ReceiverGot(v)))
    case Closed => Running(sys.(shared := st.next, receiver := ReceiverClosed))
    case RecvFailed(r) => Faulted(r)
  }

  /** One step of one party; a `fail` in the runtime is a fault here. */
  function Apply<T>(sys: Sys<T>, a: Action<T>): Run<T>
  {
    match a
    case DoSend(v) =>
      var st := SendStep(sys.shared, v);
      (match st.out
       case SendFailed(r) => Faulted(r)
       case SentWoke(t) => Running(sys.(shared := st.next, sender := SenderSent(v), signals := sys.signals + [t]))
       case _ => Running(sys.(shared := st.next, sender := SenderSent(v))))
    case DoSenderDrop =>
      var st := SenderTerminateStep(sys.shared);
      if st.out.TermFailed? then Faulted(st.out.reason)
      else Running(sys.(shared := st.next, sender := SenderDropped))
    case DoRecvBegin(t) => AfterRecv(sys, RecvBeginStep(sys.shared, t), t)
    case DoRecvWake =>
      AfterRecv(sys, RecvWakeStep(sys.shared), if sys.receiver.ReceiverParked? then sys.receiver.task else 0)
    case DoReceiverDrop =>
      var st := ReceiverTerminateStep(sys.shared);
      if st.out.TermFailed? then Faulted(st.out.reason)
      else Running(sys.(shared := st.next, receiver := ReceiverDropped))
  }

  /** A sequence of steps, stopping at the first fault. */
  function Exec<T>(sys: Sys<T>, acts: seq<Action<T>>): Run<T>
    decreases |acts|
  {
    if acts == [] then Running(sys)
    else
      match Apply(sys, acts[0])
      case Faulted(r) => Faulted(r)
      case Running(next) => Exec(next, acts[1..])
  }

  /** Every step of `acts`, taken from `sys`, is one its party may take at that point. */
  ghost predicate Legal<T>(sys: Sys<T>, acts: seq<Action<T>>)
    decreases |acts|
  {
    acts == [] ||
    (Enabled(sys, acts[0]) && Woken(sys, acts[0]) &&
     (Apply(sys, acts[0]).Running? ==> Legal(Apply(sys, acts[0]).sys, acts[1..])))
  }

  /**
    The protocol invariant: what the packet holds for each combination of the
    parties' progress.  In particular the allocation has been released once
    when both parties are done and not at all before.
  */
  ghost predicate Inv<T>(sys: Sys<T>)
  {
    var s := sys.shared;
    && s.frees == (if SenderDone(sys) && ReceiverDone(sys) then 1 else 0)
    && (sys.sender.SenderLive? ==> sys.signals == [])
    && (sys.sender.SenderDropped? ==> sys.signals == [])
    && |sys.signals| <= 1
    && match sys.sender
       case SenderLive =>
         (match sys.receiver
          case ReceiverIdle => s.state == Empty && s.payload == None
          case ReceiverParked(t) => s.state == Blocked && s.payload == None && s.blockedTask == Some(t)
          case ReceiverDropped => s.state == Terminated && s.payload == None
          case _ => false)
       case SenderSent(v) =>
         (match sys.receiver
          case ReceiverIdle => s.state == Full && s.payload == Some(v)
          case ReceiverParked(t) => s.state == Full && s.payload == Some(v) && sys.signals == [t]
          case ReceiverGot(w) => w == v
          case ReceiverClosed => false
          case ReceiverDropped => true)
       case SenderDropped =>
         (match sys.receiver
          case ReceiverIdle => s.state == Terminated && s.payload == None
          case ReceiverParked(_) => s.state == Terminated && s.payload == None
          case ReceiverGot(_) => false
          case _ => true)
  }

  lemma InvStart<T>()
    ensures Inv(Start<T>())
  {
  }

  /** Every permitted step from a state satisfying the invariant succeeds and keeps it. */
  lemma InvStep<T>(sys: Sys<T>, a: Action<T>)
    requires Inv(sys) && Enabled(sys, a) && Woken(sys, a)
    ensures Apply(sys, a).Running? && Inv(Apply(sys, a).sys)
  {
  }

  /**
    A receiver woken while the packet is still Blocked (nobody has sent or
    dropped) loops back to the exchange, sees Blocked, and fails.
  */
  lemma SpuriousWakeFails<T>(sys: Sys<T>)
    requires Inv(sys) && sys.sender.SenderLive? && sys.receiver.ReceiverParked?
    ensures Apply(sys, DoRecvWake) == Faulted("blocking on already blocked packet")
  {
  }

  lemma {:induction false} ExecKeepsInv<T>(sys: Sys<T>, acts: seq<Action<T>>)
    requires Inv(sys) && Legal(sys, acts)
    ensures Exec(sys, acts).Running? && Inv(Exec(sys, acts).sys)
    decreases |acts|
  {
    if acts != [] {
      InvStep(sys, acts[0]);
      ExecKeepsInv(Apply(sys, acts[0]).sys, acts[1..]);
    }
  }

  /**
    Exactly one free: in every permitted order of the two parties' steps no
    step fails, the allocation is released at most once, and it has been
    released exactly when both parties are done (so never while one of them
    can still touch it).
  */
  lemma ExactlyOneFree<T>(acts: seq<Action<T>>)
    requires Legal(Start<T>(), acts)
    ensures Exec(Start<T>(), acts).Running?
    ensures var sys := Exec(Start<T>(), acts).sys;
      sys.shared.frees <= 1 &&
      (sys.shared.frees == 1 <==> SenderDone(sys) && ReceiverDone(sys))
  {
    InvStart<T>();
    ExecKeepsInv(Start<T>(), acts);
  }

  /**
    `recv` delivers exactly the value that was sent, and returns `none`
    exactly when the sender dropped its endpoint without sending.
  */
  lemma RecvResultMatchesSender<T>(acts: seq<Action<T>>)
    requires Legal(Start<T>(), acts)
    ensures Exec(Start<T>(), acts).Running?
    ensures var sys := Exec(Start<T>(), acts).sys;
      (forall w :: sys.receiver == ReceiverGot(w) ==> sys.sender == SenderSent(w)) &&
      (sys.receiver.ReceiverClosed? ==> sys.sender.SenderDropped?)
  {
    InvStart<T>();
    ExecKeepsInv(Start<T>(), acts);
  }

  /**
    A `send` onto the packet of a parked receiver signals exactly that task,
    and once it wakes the receiver takes the value that was sent.
  */
  lemma SendWakesParkedReceiver<T>(sys: Sys<T>, v: T)
    requires Inv(sys) && sys.sender.SenderLive? && sys.receiver.ReceiverParked?
    ensures Apply(sys, DoSend(v)).Running?
    ensures var after := Apply(sys, DoSend(v)).sys;
      after.signals == [sys.receiver.task] &&
      Apply(after, DoRecvWake) == Running(after.(shared := Release(after.shared.(payload := None, state := Terminated)),
                                                 receiver := ReceiverGot(v)))
  {
  }

  /**
    Dropping the sender while the receiver is parked signals nothing: the
    receiver learns of it only if it wakes for another reason.
  */
  lemma SenderDropWhileParkedSignalsNothing<T>(sys: Sys<T>)
    requires Inv(sys) && sys.sender.SenderLive? && sys.receiver.ReceiverParked?
    ensures Apply(sys, DoSenderDrop).Running?
    ensures Apply(sys, DoSenderDrop).sys.signals == sys.signals
    ensures Apply(sys, DoSenderDrop).sys.receiver == sys.receiver
  {
  }

  /**
    A receiver still parked after the sender dropped its endpoint has no
    signal pending, and the sender has no step left that could send one:
    only a wake from outside the channel moves it.
  */
  lemma ParkedAfterSenderDropIsStranded<T>(sys: Sys<T>)
    requires Inv(sys) && sys.sender.SenderDropped? && sys.receiver.ReceiverParked?
    ensures sys.signals == []
    ensures forall a: Action<T> :: Enabled(sys, a) ==> a == DoRecvWake
  {
  }
}
