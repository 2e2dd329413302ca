/** Enqueuers, the deliver loop and close of one subscriber, interleaving over the
    ring and the one-slot wake channel. */
module FanoutProtocol {
  import opened Wrappers
  import opened Ring

  datatype LoopPc<T> =
    | Selecting        // on done and wake
    | Draining         // about to lock and look at the ring
    | Popped(x: T)     // unlocked with a message, done check is next
    | Cleared(x: T)    // past the done check, handler call is next
    | Handling(x: T)   // inside the handler
    | Exited

  datatype State<T> = State(
    queue: Queue<T>,
    token: bool,             // the wake channel holds its token
    done: bool,
    pc: LoopPc<T>,
    signalling: nat,         // enqueuers that unlocked and have not yet signalled
    handled: seq<T>,         // history: handler calls started
    closedPastCheck: bool,   // history: close found the loop past its done check
    startsAfterClose: nat    // history: handler calls started since close
  )

  datatype Step<T> =
    | Enqueue(x: T)
    | Signal
    | TakeToken
    | SeeDone
    | LookAtRing
    | CheckDone
    | StartHandler
    | EndHandler
    | Close

  function Init<T>(): State<T> {
    State(Queue([], [], [], 0), false, false, Selecting, 0, [], false, 0)
  }

  function Apply<T>(s: State<T>, capacity: nat, step: Step<T>): Option<State<T>>
    requires 0 < capacity
  {
    match step
    case Enqueue(x) => Some(s.(queue := Push(s.queue, capacity, x), signalling := s.signalling + 1))
    case Signal => if s.signalling == 0 then None else Some(s.(token := true, signalling := s.signalling - 1))
    case TakeToken => if s.pc.Selecting? && s.token then Some(s.(token := false, pc := Draining)) else None
    case SeeDone => if s.pc.Selecting? && s.done then Some(s.(pc := Exited)) else None
    case LookAtRing =>
      if !s.pc.Draining? then None
      else
        (match Pop(s.queue)
         case (_, None) => Some(s.(pc := Selecting))
         case (q, Some(x)) => Some(s.(queue := q, pc := Popped(x))))
    case CheckDone =>
      if !s.pc.Popped? then None else Some(s.(pc := if s.done then Exited else Cleared(s.pc.x)))
    case StartHandler =>
      if !s.pc.Cleared? then None
      else Some(s.(pc := Handling(s.pc.x), handled := s.handled + [s.pc.x],
                   startsAfterClose := if s.done then s.startsAfterClose + 1 else 0))
    case EndHandler => if s.pc.Handling? then Some(s.(pc := Draining)) else None
    case Close => if s.done then Some(s) else Some(s.(done := true, closedPastCheck := s.pc.Cleared?))
  }

  function Exec<T>(steps: seq<Step<T>>, capacity: nat): Option<State<T>>
    requires 0 < capacity
  {
    if steps == [] then Some(Init())
    else
      match Exec(steps[..|steps| - 1], capacity)
      case None => None
      case Some(s) => Apply(s, capacity, steps[|steps| - 1])
  }

  // The deliver loop is between waking up and finding the ring empty.
  predicate Awake<T>(pc: LoopPc<T>) {
    !pc.Selecting? && !pc.Exited?
  }

  // What was taken off the ring and not handed to the handler yet.
  function InFlight<T>(pc: LoopPc<T>): seq<T> {
    if pc.Popped? || pc.Cleared? then [pc.x] else []
  }

  ghost predicate Inv<T>(s: State<T>, capacity: nat) {
    && QueueInv(s.queue, capacity)
    && (s.pc.Exited? ==> s.done)
    && (s.queue.live != [] && !s.pc.Exited? ==> s.token || Awake(s.pc) || s.signalling > 0)
    && (if s.pc.Exited? then s.handled <= s.queue.taken else s.queue.taken == s.handled + InFlight(s.pc))
    && (!s.done ==> s.startsAfterClose == 0 && !s.closedPastCheck)
    && (s.done && s.pc.Cleared? ==> s.closedPastCheck && s.startsAfterClose == 0)
    && s.startsAfterClose <= (if s.closedPastCheck then 1 else 0)
  }

  lemma InitInv<T>(capacity: nat)
    ensures Inv(Init<T>(), capacity)
  {}

  lemma {:induction false} RunKeepsInv<T>(steps: seq<Step<T>>, capacity: nat)
    requires 0 < capacity && Exec(steps, capacity).Some?
    ensures Inv(Exec(steps, capacity).value, capacity)
  {
    if steps == [] {
      InitInv<T>(capacity);
    } else {
      hide Inv, Apply;
      RunKeepsInv(steps[..|steps| - 1], capacity);
      StepKeepsInv(Exec(steps[..|steps| - 1], capacity).value, capacity, steps[|steps| - 1]);
    }
  }

  lemma EnqueueKeeps<T>(s: State<T>, capacity: nat, x: T)
    requires 0 < capacity && Inv(s, capacity)
    ensures Inv(Apply(s, capacity, Step.Enqueue(x)).value, capacity)
  {
    hide QueueInv;
    PushKeeps(s.queue, capacity, x);
  }

  lemma LookKeeps<T>(s: State<T>, capacity: nat)
    requires 0 < capacity && Inv(s, capacity) && Apply(s, capacity, LookAtRing).Some?
    ensures Inv(Apply(s, capacity, LookAtRing).value, capacity)
  {
    hide QueueInv;
    PopKeeps(s.queue, capacity);
  }

  // The steps that leave the ring alone: of the token, and of the handler.
  lemma TokenKeeps<T>(s: State<T>, capacity: nat, step: Step<T>)
    requires 0 < capacity && Inv(s, capacity) && Apply(s, capacity, step).Some?
    requires step.Signal? || step.TakeToken? || step.SeeDone? || step.Close?
    ensures Inv(Apply(s, capacity, step).value, capacity)
  {
    hide QueueInv;
  }

  lemma HandlerKeeps<T>(s: State<T>, capacity: nat, step: Step<T>)
    requires 0 < capacity && Inv(s, capacity) && Apply(s, capacity, step).Some?
    requires step.CheckDone? || step.StartHandler? || step.EndHandler?
    ensures Inv(Apply(s, capacity, step).value, capacity)
  {
    hide QueueInv;
  }

  lemma StepKeepsInv<T>(s: State<T>, capacity: nat, step: Step<T>)
    requires 0 < capacity && Inv(s, capacity) && Apply(s, capacity, step).Some?
    ensures Inv(Apply(s, capacity, step).value, capacity)
  {
    hide Inv, Apply;
    match step {
      case Enqueue(x) => EnqueueKeeps(s, capacity, x);
      case LookAtRing => LookKeeps(s, capacity);
      case CheckDone => HandlerKeeps(s, capacity, step);
      case StartHandler => HandlerKeeps(s, capacity, step);
      case EndHandler => HandlerKeeps(s, capacity, step);
      case _ => TokenKeeps(s, capacity, step);
    }
  }

  // ---------------------------------------------------------------------

  /** No lost wake token: whenever the ring is non-empty and the subscriber is not
      closed, the token is there, the loop is still draining, or an enqueuer has
      unlocked and not yet signalled. */
  lemma NoLostToken<T>(steps: seq<Step<T>>, capacity: nat)
    requires 0 < capacity && Exec(steps, capacity).Some?
    requires Exec(steps, capacity).value.queue.live != [] && !Exec(steps, capacity).value.done
    ensures
      var s := Exec(steps, capacity).value;
      s.token || Awake(s.pc) || s.signalling > 0
  {
    RunKeepsInv(steps, capacity);
  }

  /** After close at most one further handler call starts, and only if the loop was
      already past its done check. */
  lemma AtMostOneCallAfterClose<T>(steps: seq<Step<T>>, capacity: nat)
    requires 0 < capacity && Exec(steps, capacity).Some?
    ensures
      var s := Exec(steps, capacity).value;
      s.startsAfterClose <= (if s.closedPastCheck then 1 else 0)
  {
    RunKeepsInv(steps, capacity);
  }

  /** The handler sees what was taken off the ring, in order and without gaps, and
      the ring is the drop-oldest queue through every interleaving. */
  lemma HandledInOrder<T>(steps: seq<Step<T>>, capacity: nat)
    requires 0 < capacity && Exec(steps, capacity).Some?
    ensures
      var s := Exec(steps, capacity).value;
      s.handled <= s.queue.taken && QueueInv(s.queue, capacity)
  {
    RunKeepsInv(steps, capacity);
  }

  // Steps of the deliver loop, and of enqueuers that have already changed the ring.
  predicate Delivering<T>(step: Step<T>) {
    !step.Enqueue? && !step.Close? && !step.SeeDone?
  }

  function Rank<T>(s: State<T>): nat {
    5 * |s.queue.live| + 4 * s.signalling + (if s.token then 3 else 0)
    + match s.pc
      case Popped(_) => 4
      case Cleared(_) => 3
      case Handling(_) => 2
      case Draining => 1
      case Selecting => 0
      case Exited => 0
  }

  lemma RankFalls<T>(s: State<T>, capacity: nat, step: Step<T>)
    requires 0 < capacity && Delivering(step) && Apply(s, capacity, step).Some?
    ensures Rank(Apply(s, capacity, step).value) < Rank(s)
  {}

  lemma QuietMeansDelivered<T>(s: State<T>, capacity: nat)
    requires 0 < capacity && Inv(s, capacity) && !s.done
    requires Apply(s, capacity, Signal).None? && Apply(s, capacity, TakeToken).None?
    requires Apply(s, capacity, LookAtRing).None? && Apply(s, capacity, CheckDone).None?
    requires Apply(s, capacity, StartHandler).None? && Apply(s, capacity, EndHandler).None?
    ensures s.queue.live == [] && s.handled == s.queue.taken && s.pc.Selecting?
    ensures |s.queue.enqueued| == |s.handled| + s.queue.lost
  {
    assert |s.queue.enqueued| == |s.queue.taken| + s.queue.lost + |s.queue.live|;
    hide QueueInv;
  }

  /** Everything is delivered: without new messages every delivering step uses up
      some of a finite rank, and when none is left to take on a subscriber that is
      not closed, every message that was not dropped has been handled. */
  lemma EverythingIsDelivered<T>(steps: seq<Step<T>>, capacity: nat)
    requires 0 < capacity && Exec(steps, capacity).Some? && !Exec(steps, capacity).value.done
    ensures
      var s := Exec(steps, capacity).value;
      && (forall step | Delivering(step) && Apply(s, capacity, step).Some? ::
            Rank(Apply(s, capacity, step).value) < Rank(s))
      && ((forall step | Delivering(step) :: Apply(s, capacity, step).None?) ==>
            s.pc.Selecting? && s.queue.live == [] && s.handled == s.queue.taken
            && |s.queue.enqueued| == |s.handled| + s.queue.lost)
  {
    hide Inv, Apply, Rank;
    RunKeepsInv(steps, capacity);
    var s := Exec(steps, capacity).value;
    forall step | Delivering(step) && Apply(s, capacity, step).Some?
      ensures Rank(Apply(s, capacity, step).value) < Rank(s)
    {
      RankFalls(s, capacity, step);
    }
    if forall step | Delivering(step) :: Apply(s, capacity, step).None? {
      QuietMeansDelivered(s, capacity);
    }
  }

  // The handler calls that a schedule starts.
  function Starts<T>(steps: seq<Step<T>>): nat {
    if steps == [] then 0
    else Starts(steps[..|steps| - 1]) + if steps[|steps| - 1].StartHandler? then 1 else 0
  }

  function AtHandler<T>(s: State<T>): nat {
    if s.pc.Cleared? then 1 else 0
  }

  lemma StartStep<T>(s: State<T>, capacity: nat, step: Step<T>)
    requires 0 < capacity && s.done && Apply(s, capacity, step).Some?
    ensures Apply(s, capacity, step).value.done
    ensures (if step.StartHandler? then 1 else 0) + AtHandler(Apply(s, capacity, step).value) <= AtHandler(s)
  {}

  /** The same of the schedule itself: whatever comes after a close, it starts no
      handler call if the close found the loop anywhere but past its done check, and
      one at most if there. */
  lemma {:induction false} CallsAfterClose<T>(before: seq<Step<T>>, after: seq<Step<T>>, capacity: nat)
    requires 0 < capacity && Exec(before, capacity).Some? && Exec(before + [Close] + after, capacity).Some?
    requires !Exec(before, capacity).value.done
    ensures
      var s := Exec(before + [Close] + after, capacity).value;
      s.done && Starts(after) + AtHandler(s) <= AtHandler(Exec(before, capacity).value)
  {
    var steps := before + [Close] + after;
    if after == [] {
      assert steps[..|steps| - 1] == before;
    } else {
      var n := |after| - 1;
      assert steps[..|steps| - 1] == before + [Close] + after[..n];
      CallsAfterClose(before, after[..n], capacity);
      StartStep(Exec(before + [Close] + after[..n], capacity).value, capacity, after[n]);
      hide Apply;
    }
  }

  /** Closing again does nothing. */
  lemma CloseTwice<T>(s: State<T>, capacity: nat)
    requires 0 < capacity
    ensures Apply(s, capacity, Close).Some? && Apply(s, capacity, Close).value.done
    ensures Apply(Apply(s, capacity, Close).value, capacity, Close) == Apply(s, capacity, Close)
  {}

  // ---------------------------------------------------------------------
  // The ring within the protocol

  function OpsOf<T>(steps: seq<Step<T>>): seq<QueueOp<T>> {
    if steps == [] then []
    else
      var ops := OpsOf(steps[..|steps| - 1]);
      match steps[|steps| - 1]
      case Enqueue(x) => ops + [QueueOp.Enqueue(x)]
      case LookAtRing => ops + [Dequeue]
      case _ => ops
  }

  lemma QueueStep<T>(s: State<T>, capacity: nat, step: Step<T>)
    requires 0 < capacity && Apply(s, capacity, step).Some?
    ensures Apply(s, capacity, step).value.queue ==
            match step
            case Enqueue(x) => Push(s.queue, capacity, x)
            case LookAtRing => Pop(s.queue).0
            case _ => s.queue
  {}

  /** In every interleaving the ring is the drop-oldest queue of the messages that the
      schedule enqueued and of its looks at the ring: what holds of the queue after
      any operations holds here, and nothing else gets in or out. */
  lemma {:induction false} RingIsTheQueue<T>(steps: seq<Step<T>>, capacity: nat)
    requires 0 < capacity && Exec(steps, capacity).Some?
    ensures Exec(steps, capacity).value.queue == RunQueue(OpsOf(steps), capacity)
  {
    if steps != [] {
      var before := steps[..|steps| - 1];
      RingIsTheQueue(before, capacity);
      QueueStep(Exec(before, capacity).value, capacity, steps[|steps| - 1]);
      hide Apply, Push, Pop;
      var ops := OpsOf(steps);
      assert ops != OpsOf(before) ==> ops[..|ops| - 1] == OpsOf(before);
    }
  }

  /** The loop ends only when closed, and only where it looks: waiting, or just after it
      has taken a message off the ring. */
  lemma ExitsOnlyWhenClosed<T>(s: State<T>, capacity: nat, step: Step<T>)
    requires 0 < capacity && Apply(s, capacity, step).Some? && !s.pc.Exited?
    ensures Apply(s, capacity, step).value.pc.Exited? ==> s.done && (s.pc.Selecting? || s.pc.Popped?)
  {}

  function StepsToExit<T>(pc: LoopPc<T>): nat {
    match pc
    case Exited => 0
    case Selecting => 1
    case Popped(_) => 1
    case Draining => 2
    case Handling(_) => 3
    case Cleared(_) => 4
  }

  lemma ExitStep<T>(s: State<T>, capacity: nat) returns (step: Step<T>)
    requires 0 < capacity && s.done && !s.pc.Exited?
    ensures Apply(s, capacity, step).Some? && Apply(s, capacity, step).value.done
    ensures StepsToExit(Apply(s, capacity, step).value.pc) < StepsToExit(s.pc)
  {
    match s.pc {
      case Selecting => step := SeeDone;
      case Popped(_) => step := CheckDone;
      case Draining => step := LookAtRing;
      case Handling(_) => step := EndHandler;
      case Cleared(_) => step := StartHandler;
    }
  }

  /** A closed subscriber's loop can end within four of its own steps, however many
      messages are left, once a handler call in progress returns. */
  lemma {:induction false} ClosedLoopCanExit<T>(steps: seq<Step<T>>, capacity: nat) returns (more: seq<Step<T>>)
    requires 0 < capacity && Exec(steps, capacity).Some? && Exec(steps, capacity).value.done
    ensures |more| <= StepsToExit(Exec(steps, capacity).value.pc) <= 4
    ensures Exec(steps + more, capacity).Some? && Exec(steps + more, capacity).value.pc.Exited?
    decreases StepsToExit(Exec(steps, capacity).value.pc)
  {
    var s := Exec(steps, capacity).value;
    if s.pc.Exited? {
      assert steps + [] == steps;
      return [];
    }
    hide Exec, Apply;
    var step := ExitStep(s, capacity);
    var longer := ExecOne(steps, capacity, step);
    var rest := ClosedLoopCanExit(longer, capacity);
    more := [step] + rest;
    assert steps + more == longer + rest;
  }

  /** A schedule in which everything happens once: a message is enqueued on a new
      subscriber, wakes the loop, and is handled. */
  lemma MessageIsHandled<T>(x: T, capacity: nat)
    requires 0 < capacity
    ensures
      var steps := [Step.Enqueue(x), Signal, TakeToken, LookAtRing, CheckDone, StartHandler];
      && Exec(steps, capacity).Some? && Exec(steps, capacity).value.handled == [x]
      && !Exec(steps, capacity).value.done && !Exec(steps, capacity).value.token
  {
    var steps: seq<Step<T>> := [];
    var enqueued := ExecOne(steps, capacity, Step.Enqueue(x));
    var signalled := ExecOne(enqueued, capacity, Signal);
    var awake := ExecOne(signalled, capacity, TakeToken);
    var popped := ExecOne(awake, capacity, LookAtRing);
    var cleared := ExecOne(popped, capacity, CheckDone);
    var handled := ExecOne(cleared, capacity, StartHandler);
    assert handled == [Step.Enqueue(x), Signal, TakeToken, LookAtRing, CheckDone, StartHandler];
  }

  lemma ExecOne<T>(steps: seq<Step<T>>, capacity: nat, step: Step<T>) returns (more: seq<Step<T>>)
    requires 0 < capacity && Exec(steps, capacity).Some?
    ensures more == steps + [step] && Exec(more, capacity) == Apply(Exec(steps, capacity).value, capacity, step)
  {
    more := steps + [step];
    assert more[..|steps|] == steps;
  }
}
