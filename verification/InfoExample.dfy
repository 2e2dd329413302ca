/** Two schedules of the public client's requests: one in which a request is answered,
    and one in which a request that polled for a connection is told that its
    connection was lost, on a healthy connection. */
module InfoExample {
  import opened Wrappers
  import opened ReplyTable
  import opened InfoRequests

  lemma ExecOne(steps: seq<Step>, step: Step)
    requires Exec(steps).Some?
    ensures Exec(steps + [step]) == Apply(Exec(steps).value, step)
  {
    assert (steps + [step])[..|steps|] == steps;
  }

  // Connection 0 came and went while the request slept between two looks.
  ghost predicate Slept(s: State) {
    && s.run == Down(0) && s.conn == Some(0) && s.nextConn == 1 && s.open == {} && s.readers == {}
    && s.reqs == map[0 := Polling]
    && s.table == Register(EMPTY, 0) && s.past == Past(map[0 := Birth(0, true)], map[], {})
  }

  lemma Sleeps() returns (steps: seq<Step>)
    ensures Exec(steps).Some? && Slept(Exec(steps).value)
  {
    steps := [];
    ExecOne(steps, Begin(0));
    steps := steps + [Begin(0)];
    ExecOne(steps, Dial);
    steps := steps + [Dial];
    ExecOne(steps, ReadLoopEnds(0));
    steps := steps + [ReadLoopEnds(0)];
    ExecOne(steps, ConnectionEnds);
    steps := steps + [ConnectionEnds];
  }

  // Nil was offered to the channel of the request, which is still polling.
  ghost predicate Missed(s: State) {
    && s.run == Failed(0) && s.conn == Some(0) && s.nextConn == 1 && s.open == {} && s.readers == {}
    && s.reqs == map[0 := Polling]
    && s.table.slot == map[0 := Some(Lost)] && s.past == Past(map[0 := Birth(0, true)], map[], {0})
  }

  lemma Misses() returns (steps: seq<Step>)
    ensures Exec(steps).Some? && Missed(Exec(steps).value)
  {
    steps := Sleeps();
    ExecOne(steps, SwapPending);
    steps := steps + [SwapPending];
    ExecOne(steps, FailNext(0));
    steps := steps + [FailNext(0)];
    ExecOne(steps, FailEnds);
    steps := steps + [FailEnds];
  }

  /** The request is written to connection 1 and at once answered that its connection
      was lost, while connection 1 is open, read and has never failed. */
  lemma LossOnHealthyConnection() returns (steps: seq<Step>)
    ensures Exec(steps).Some?
    ensures
      var s := Exec(steps).value;
      && s.reqs == map[0 := Leaving(ConnectionLost)] && s.past.wrote == map[0 := 1]
      && s.run == Live(1) && 1 in s.open && 1 in s.readers && s.past.lost == {0}
  {
    steps := Misses();
    ExecOne(steps, ClearConn);
    steps := steps + [ClearConn];
    ExecOne(steps, Dial);
    steps := steps + [Dial];
    ExecOne(steps, Poll(0));
    steps := steps + [Poll(0)];
    ExecOne(steps, Write(0, true));
    steps := steps + [Write(0, true)];
    ExecOne(steps, ReceiveReply(0));
    steps := steps + [ReceiveReply(0)];
  }

  const ACK := Msg(0, false)

  // A request that found the connection up is written to it.
  ghost predicate Asked(s: State) {
    && s.run == Live(0) && s.readers == {0} && s.reqs == map[0 := Written(0)]
    && s.table == Register(EMPTY, 0)
  }

  lemma Asks() returns (steps: seq<Step>)
    ensures Exec(steps).Some? && Asked(Exec(steps).value)
  {
    steps := [];
    ExecOne(steps, Dial);
    steps := steps + [Dial];
    ExecOne(steps, Begin(0));
    steps := steps + [Begin(0)];
    ExecOne(steps, Write(0, true));
    steps := steps + [Write(0, true)];
  }

  /** The server acknowledges the request, and it returns with that reply. */
  lemma RequestIsAnswered() returns (steps: seq<Step>)
    ensures Exec(steps).Some? && Exec(steps).value.reqs == map[0 := Returned(Replied(ACK))]
    ensures Exec(steps).value.table.pending == {}
  {
    steps := Asks();
    ExecOne(steps, ReadFrame(0, ACK));
    steps := steps + [ReadFrame(0, ACK)];
    ExecOne(steps, OfferReply(0));
    steps := steps + [OfferReply(0)];
    ExecOne(steps, ReceiveReply(0));
    steps := steps + [ReceiveReply(0)];
    ExecOne(steps, DeferredDelete(0));
    steps := steps + [DeferredDelete(0)];
  }
}
