/** A schedule of the registry protocol in which one key's subscribe frame is
    written twice to one connection although nothing failed: "exactly one call per
    key and generation writes" holds of grants, not of frames. */
module RegistryExample {
  import opened Wrappers
  import opened Subscription
  import opened Registry
  import opened RegistryProtocol

  lemma ExecOne(steps: seq<Step>, step: Step)
    requires Exec(steps).Some?
    ensures Exec(steps + [step]) == Apply(Exec(steps).value, step)
  {
    assert (steps + [step])[..|steps|] == steps;
  }

  // The caller has claimed generation 1 and has not yet read c.conn.
  ghost predicate Claimed(s: State) {
    && s.run == Connected && s.reg.connected && s.reg.connGen == 1
    && s.reg.subscriptions.Keys == {"K"}
    && s.reg.subscriptions["K"].lastWireGen == 1 && s.reg.subscriptions["K"].obj == 0
    && s.sends == map[1 := Send("K", 0, 1, 0, None, false, false)]
    && s.past.wires == map[] && s.log == [Granted("K", 0, 1)]
  }

  lemma FirstHalf() returns (steps: seq<Step>)
    ensures Exec(steps).Some? && Claimed(Exec(steps).value)
  {
    var spec := SubscribeSpec("trade", "K", 0, "", 0, "");
    steps := [];
    ExecOne(steps, Subscribe("K", spec));
    steps := steps + [Subscribe("K", spec)];
    ExecOne(steps, Dial);
    steps := steps + [Dial];
    ExecOne(steps, Poll(1));
    steps := steps + [Poll(1)];
    ExecOne(steps, CallerSends(1));
    steps := steps + [CallerSends(1)];
  }

  // The replay of generation 1 finds the key marked; then the connection is lost,
  // the next one comes up, and only now does the caller read c.conn.
  ghost predicate Stale(s: State) {
    && s.run == Connected && s.reg.connected && s.reg.connGen == 2
    && s.reg.subscriptions.Keys == {"K"}
    && s.reg.subscriptions["K"].lastWireGen == 1 && s.reg.subscriptions["K"].obj == 0
    && s.sends == map[1 := Send("K", 0, 1, 0, Some(2), false, false)]
    && s.past.wires == map[] && s.log == [Granted("K", 0, 1)]
  }

  lemma SecondHalf(first: seq<Step>) returns (steps: seq<Step>)
    requires Exec(first).Some? && Claimed(Exec(first).value)
    ensures Exec(steps).Some? && Stale(Exec(steps).value)
  {
    steps := first;
    ExecOne(steps, Snapshot);
    steps := steps + [Snapshot];
    ExecOne(steps, ReplayNext("K"));
    steps := steps + [ReplayNext("K")];
    assert Exec(steps).value.run == Replaying({});
    ExecOne(steps, ReplayEnds);
    steps := steps + [ReplayEnds];
    ExecOne(steps, ConnectionEnds);
    steps := steps + [ConnectionEnds];
    ExecOne(steps, Dial);
    steps := steps + [Dial];
    ExecOne(steps, ReadConn(1));
    steps := steps + [ReadConn(1)];
  }

  /** Two frames for one subscription reach connection 2, with no failed send. */
  lemma StaleSendDuplicates() returns (steps: seq<Step>)
    ensures Exec(steps).Some?
    ensures
      var s := Exec(steps).value;
      s.past.wires == map[0 := 2, 1 := 2] && s.log == [Granted("K", 0, 1), Granted("K", 0, 2)]
  {
    steps := FirstHalf();
    steps := SecondHalf(steps);
    ExecOne(steps, Snapshot);
    steps := steps + [Snapshot];
    ExecOne(steps, ReplayNext("K"));
    steps := steps + [ReplayNext("K")];
    ExecOne(steps, ReadConn(0));
    steps := steps + [ReadConn(0)];
    ExecOne(steps, WriteFrame(1));
    steps := steps + [WriteFrame(1)];
    ExecOne(steps, WriteFrame(0));
    steps := steps + [WriteFrame(0)];
  }
}
