/** Subscribe callers, unsubscribers, the run loop and Close of the public stream
    client, interleaving over the shared registry: one step per critical section,
    wire write or environment event. Actor 0 is the run loop; every Subscribe call
    is its own actor. A connection is named by its generation. */
module RegistryProtocol {
  import opened Wrappers
  import opened Subscription
  import opened Registry

  // A Subscribe call that added the first local subscriber of its key.
  datatype Caller =
    | Polling(key: string, sub: Subscriber, sawNil: bool)  // in waitForConn; sawNil: the last look found no connection
    | Ready(key: string, sub: Subscriber)                  // waitForConn returned a connection
    | Sending(key: string, sub: Subscriber)                // inside sendRequest
    | Failing(key: string, sub: Subscriber)                // send failed, removeSubscriber is next

  // A wire subscribe in flight. `claim` is the log index of the mark it made;
  // `target` is the connection sendRequest read from c.conn, once it has, and
  // `sawNil` says that a look at c.conn found nothing.
  datatype Send = Send(key: string, obj: nat, gen: nat, claim: nat, target: Option<nat>, sawNil: bool, written: bool)

  datatype RunPc =
    | Dialing
    | Connected                       // c.conn stored, generation bumped
    | Replaying(todo: set<string>)    // resubscribeAll, between keys
    | ReplaySending(todo: set<string>)
    | Serving                         // resubscribeAll returned

  datatype Event =
    | Granted(key: string, obj: nat, gen: nat)    // lastWireGen was set to gen
    | SendFailed(key: string, gen: nat)           // a send claimed for gen failed
    | Unsubscribed(key: string)                   // last local subscriber gone

  // History no step looks at.
  datatype Past = Past(
    claims: map<string, (nat, nat)>,  // the latest claim of each key, and its actor
    wires: map<nat, nat>,             // the connection each claim's frame was written to
    rewrites: nat,                    // frames written for a claim that had one already
    gone: set<Subscriber>             // subscribers whose removal has run
  )

  datatype State = State(
    reg: Registry,
    run: RunPc,
    callers: map<nat, Caller>,
    sends: map<nat, Send>,
    nextActor: nat,
    past: Past,
    log: seq<Event>
  )

  const INIT := State(EMPTY, Dialing, map[], map[], 1, Past(map[], map[], 0, {}), [])

  datatype Step =
    | Subscribe(key: string, spec: SubscribeSpec)
    | Poll(a: nat)
    | PollTimeout(a: nat)
    | CallerSends(a: nat)
    | ReadConn(a: nat)
    | WriteFrame(a: nat)
    | SendSucceeds(a: nat)
    | SendFails(a: nat)
    | FailedCallerRemoves(a: nat)
    | Unsubscribe(key: string, sub: Subscriber)
    | Dial
    | Snapshot
    | ReplayNext(key: string)
    | ReplayEnds
    | ConnectionEnds
    | Close

  function DoSubscribe(s: State, key: string, spec: SubscribeSpec): Option<State> {
    if s.reg.closed then None
    else
      var (reg, sub, first) := Register(s.reg, key, spec);
      var t := s.(reg := reg, nextActor := s.nextActor + 1);
      Some(if first then t.(callers := s.callers[s.nextActor := Polling(key, sub, false)]) else t)
  }

  function DoPoll(s: State, a: nat): Option<State> {
    if a !in s.callers || !s.callers[a].Polling? then None
    else
      var c := s.callers[a];
      Some(s.(callers := s.callers[a := if s.reg.connected then Ready(c.key, c.sub) else c.(sawNil := true)]))
  }

  // The context is looked at only after a look at c.conn that found nothing.
  function DoPollTimeout(s: State, a: nat): Option<State> {
    if a !in s.callers || !s.callers[a].Polling? || !s.callers[a].sawNil then None
    else Some(s.(callers := s.callers - {a}))
  }

  // sendSubscribeIfNeeded for actor a, up to the release of the lock.
  function BeginSend(s: State, a: nat, key: string): (State, bool) {
    match Claim(s.reg, key)
    case (_, None) => (s, false)
    case (reg, Some(gen)) =>
      var obj := s.reg.subscriptions[key].obj;
      (s.(reg := reg,
          sends := s.sends[a := Send(key, obj, gen, |s.log|, None, false, false)],
          past := s.past.(claims := s.past.claims[key := (|s.log|, a)]),
          log := s.log + [Granted(key, obj, gen)]),
       true)
  }

  function DoCallerSends(s: State, a: nat): Option<State> {
    if a !in s.callers || !s.callers[a].Ready? then None
    else
      var c := s.callers[a];
      var (t, began) := BeginSend(s, a, c.key);
      Some(if began then t.(callers := s.callers[a := Sending(c.key, c.sub)]) else s.(callers := s.callers - {a}))
  }

  // sendRequest reads c.conn afresh, at once or from its own polling loop.
  function DoReadConn(s: State, a: nat): Option<State> {
    if a !in s.sends || s.sends[a].target.Some? then None
    else
      var d := s.sends[a];
      Some(s.(sends := s.sends[a := if s.reg.connected then d.(target := Some(s.reg.connGen)) else d.(sawNil := true)]))
  }

  function DoWrite(s: State, a: nat): Option<State> {
    if a !in s.sends || s.sends[a].target.None? || s.sends[a].written then None
    else
      var d := s.sends[a];
      Some(s.(sends := s.sends[a := d.(written := true)],
              past := s.past.(wires := s.past.wires[d.claim := d.target.value],
                              rewrites := s.past.rewrites + if d.claim in s.past.wires then 1 else 0)))
  }

  // The actor's code after sendRequest returned.
  function Finish(s: State, a: nat, ok: bool): State
    requires a in s.sends
  {
    var t := s.(sends := s.sends - {a});
    if a == 0 then (if s.run.ReplaySending? then t.(run := Replaying(s.run.todo)) else t)
    else if a !in s.callers then t
    else if ok then t.(callers := s.callers - {a})
    else t.(callers := s.callers[a := Failing(s.callers[a].key, s.callers[a].sub)])
  }

  // Acknowledged; or, no connection came in time and the mark is left for the next replay.
  function DoSucceed(s: State, a: nat): Option<State> {
    if a !in s.sends || (if s.sends[a].target.Some? then !s.sends[a].written else !s.sends[a].sawNil) then None
    else Some(Finish(s, a, true))
  }

  // Write error, timeout, error reply or lost connection.
  function DoFail(s: State, a: nat): Option<State> {
    if a !in s.sends || s.sends[a].target.None? then None
    else
      var d := s.sends[a];
      Some(Finish(s, a, false).(reg := Unclaim(s.reg, d.key, d.gen), log := s.log + [SendFailed(d.key, d.gen)]))
  }

  function DoDrop(s: State, key: string, sub: Subscriber): State {
    var (reg, last) := Drop(s.reg, key, sub);
    s.(reg := reg, past := s.past.(gone := s.past.gone + {sub}),
       log := if last then s.log + [Unsubscribed(key)] else s.log)
  }

  function DoFailedCaller(s: State, a: nat): Option<State> {
    if a !in s.callers || !s.callers[a].Failing? then None
    else Some(DoDrop(s, s.callers[a].key, s.callers[a].sub).(callers := s.callers - {a}))
  }

  // An unsubscribe function exists for every subscriber ever made; it may be
  // called at any time and any number of times.
  function DoUnsubscribe(s: State, key: string, sub: Subscriber): Option<State> {
    if sub.subKey != key || sub.id > s.reg.nextSubID then None else Some(DoDrop(s, key, sub))
  }

  function DoDial(s: State): Option<State> {
    if !s.run.Dialing? then None else Some(s.(run := Connected, reg := Connect(s.reg)))
  }

  function DoSnapshot(s: State): Option<State> {
    if !s.run.Connected? then None else Some(s.(run := Replaying(s.reg.subscriptions.Keys)))
  }

  function DoReplayNext(s: State, key: string): Option<State> {
    if !s.run.Replaying? || key !in s.run.todo || 0 in s.sends then None
    else
      var (t, began) := BeginSend(s, 0, key);
      var todo := s.run.todo - {key};
      Some(t.(run := if began then ReplaySending(todo) else Replaying(todo)))
  }

  function DoReplayEnds(s: State): Option<State> {
    if !s.run.Replaying? || s.run.todo != {} then None else Some(s.(run := Serving))
  }

  function DoConnectionEnds(s: State): Option<State> {
    if !s.run.Serving? then None else Some(s.(run := Dialing, reg := Disconnect(s.reg)))
  }

  function Apply(s: State, step: Step): Option<State> {
    match step
    case Subscribe(key, spec) => DoSubscribe(s, key, spec)
    case Poll(a) => DoPoll(s, a)
    case PollTimeout(a) => DoPollTimeout(s, a)
    case CallerSends(a) => DoCallerSends(s, a)
    case ReadConn(a) => DoReadConn(s, a)
    case WriteFrame(a) => DoWrite(s, a)
    case SendSucceeds(a) => DoSucceed(s, a)
    case SendFails(a) => DoFail(s, a)
    case FailedCallerRemoves(a) => DoFailedCaller(s, a)
    case Unsubscribe(key, sub) => DoUnsubscribe(s, key, sub)
    case Dial => DoDial(s)
    case Snapshot => DoSnapshot(s)
    case ReplayNext(key) => DoReplayNext(s, key)
    case ReplayEnds => DoReplayEnds(s)
    case ConnectionEnds => DoConnectionEnds(s)
    case Close => Some(s.(reg := CloseAll(s.reg)))
  }

  // The state after a schedule, or None when some step of it was not enabled.
  function Exec(steps: seq<Step>): Option<State> {
    if steps == [] then Some(INIT)
    else
      match Exec(steps[..|steps| - 1])
      case None => None
      case Some(s) => Apply(s, steps[|steps| - 1])
  }
}
