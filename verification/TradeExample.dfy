/** A schedule of the authenticated client in which everything happens once: the
    connection authenticates, a request posted before that sleeps and is woken, and
    its reply comes back. The safety results are not about an empty set of runs. */
module TradeExample {
  import opened Wrappers
  import opened ReplyTable
  import opened TradeProtocol

  lemma ExecOne(steps: seq<Step>, step: Step)
    requires Exec(steps).Some?
    ensures Exec(steps + [step]) == Apply(Exec(steps).value, step)
  {
    assert (steps + [step])[..|steps|] == steps;
  }

  const REPLY0 := Msg(0, false)
  const REPLY1 := Msg(1, false)

  // The connection is up and its auth request answered; the post is asleep.
  ghost predicate AuthAnswered(s: State) {
    && s.run == Authing(0, 1) && s.conn == Some(0) && !s.authenticated && !s.closed
    && s.open == {0} && s.readers == {0}
    && s.reqs.Keys == {0, 1} && s.reqs[0] == Req(Post, Asleep, false, true)
    && s.reqs[1] == Req(Auth, Returned(Replied(REPLY1, 0)), false, false)
    && s.table.pending == {} && s.table.hands == map[] && s.table.slot.Keys == {1} && s.table.offers.Keys == {1}
  }

  // The run loop is in authenticate, about to send; the post is asleep.
  ghost predicate Connecting(s: State) {
    && s.run == Authing(0, 1) && s.conn == Some(0) && !s.authenticated && !s.closed
    && s.open == {0} && s.readers == {0}
    && s.reqs == map[0 := Req(Post, Asleep, false, true), 1 := Req(Auth, Entering, false, false)]
    && s.table == EMPTY
  }

  lemma Connects() returns (steps: seq<Step>)
    ensures Exec(steps).Some? && Connecting(Exec(steps).value)
  {
    steps := [];
    ExecOne(steps, NewRequest(Post));
    steps := steps + [NewRequest(Post)];
    ExecOne(steps, OfRequest(0, Enter));
    steps := steps + [OfRequest(0, Enter)];
    ExecOne(steps, OfRun(Dial));
    steps := steps + [OfRun(Dial)];
    ExecOne(steps, OfRun(StartAuth(true)));
    steps := steps + [OfRun(StartAuth(true))];
  }

  // The auth request is written; its reply is not there yet.
  ghost predicate AuthWritten(s: State) {
    && s.run == Authing(0, 1) && s.conn == Some(0) && !s.authenticated && !s.closed
    && s.open == {0} && s.readers == {0}
    && s.reqs == map[0 := Req(Post, Asleep, false, true), 1 := Req(Auth, Written(0), false, false)]
    && s.table == Register(EMPTY, 1)
  }

  lemma WritesAuth() returns (steps: seq<Step>)
    ensures Exec(steps).Some? && AuthWritten(Exec(steps).value)
  {
    steps := Connects();
    ExecOne(steps, OfRequest(1, Enter));
    steps := steps + [OfRequest(1, Enter)];
    ExecOne(steps, OfRequest(1, Write(true)));
    steps := steps + [OfRequest(1, Write(true))];
  }

  lemma Authenticates() returns (steps: seq<Step>)
    ensures Exec(steps).Some? && AuthAnswered(Exec(steps).value)
  {
    steps := WritesAuth();
    ExecOne(steps, OfReader(0, ReadFrame(REPLY1)));
    steps := steps + [OfReader(0, ReadFrame(REPLY1))];
    ExecOne(steps, OfReader(0, OfferReply));
    steps := steps + [OfReader(0, OfferReply)];
    ExecOne(steps, OfRequest(1, ReceiveReply));
    steps := steps + [OfRequest(1, ReceiveReply)];
  }

  // The post, woken by the broadcast, is written.
  ghost predicate PostWritten(s: State) {
    && s.reqs.Keys == {0, 1} && s.reqs[0].pc == Written(0)
    && s.readers == {0} && s.table.hands == map[]
    && s.table.pending == {0} && 0 in s.table.slot && s.table.slot[0].None? && 0 in s.table.offers
  }

  lemma WritesPost() returns (steps: seq<Step>)
    ensures Exec(steps).Some? && PostWritten(Exec(steps).value)
  {
    steps := Authenticates();
    ExecOne(steps, OfRun(AuthReturns));
    steps := steps + [OfRun(AuthReturns)];
    ExecOne(steps, OfRun(SetAuthenticated));
    steps := steps + [OfRun(SetAuthenticated)];
    ExecOne(steps, OfRequest(0, Enter));
    steps := steps + [OfRequest(0, Enter)];
    ExecOne(steps, OfRequest(0, Write(true)));
    steps := steps + [OfRequest(0, Write(true))];
  }

  /** The post that slept through the whole handshake returns its own reply. */
  lemma PostIsAnswered() returns (steps: seq<Step>)
    ensures Exec(steps).Some? && 0 in Exec(steps).value.reqs
    ensures Exec(steps).value.reqs[0].pc == Returned(Replied(REPLY0, 0))
  {
    steps := WritesPost();
    ExecOne(steps, OfReader(0, ReadFrame(REPLY0)));
    steps := steps + [OfReader(0, ReadFrame(REPLY0))];
    ExecOne(steps, OfReader(0, OfferReply));
    steps := steps + [OfReader(0, OfferReply)];
    ExecOne(steps, OfRequest(0, ReceiveReply));
    steps := steps + [OfRequest(0, ReceiveReply)];
  }
}
