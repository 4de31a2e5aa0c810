/** A short run in which a parent that closed during a submission becomes owned again. */
module ActorLedgerWitness {
  import opened ActorWire
  import opened ActorLedger
  import opened Wrappers

  const OPEN := Command(Host(1, 1, 1), 1, ZERO_GRANT, 1, 1, 0, 1, 0, NoAction, 0, (0, 0), (0, 0), 0, NoRecipient, 0,
                        NO_SELECTOR, 0, 0, 0, 3, Chat(0, 0, []))
  const TRACK := OPEN.(action := ActionKind.Track, powerId := 7, recipient := ToActor)
  const GATE := Gate(true, true, true, true)
  const QUIET := Native([], Only(Blocked))

  /** Open answers that the owner is bound. */
  const BINDING := Environment(Native([], NOT_RUN.(outcome := BoundOutcome, state := Only(Bound))), QUIET)

  /** During Submit the owner is reported released; what Submit then returns is no receipt. */
  const RELEASED := State(Closed, LocalReleased, 0, 0, 0)
  const CLOSING := Environment(Native([UpdateScope(OPEN, RELEASED, true)], NOT_RUN.(outcome := HistoryExpired)), QUIET)

  lemma OpenIsValid()
    ensures ValidRequest(OpenOwner, OPEN) && ValidRequest(Submit, TRACK) && ValidRequest(ActionStatus, TRACK) && ValidCommand(OPEN) && ValidCommand(TRACK)
  {
  }

  function BoundScope(revision: nat): Scope { Fresh(OPEN).(state := Only(Bound), revision := revision, everBound := true) }

  const OPENED := Ledger([BoundScope(1)], [], [], Some(1), None, Some(OPEN), 1, false, 1, [])

  lemma Claimed(m: Ledger)
    requires m == OPENED.(parents := [Fresh(OPEN)], parent := None)
    ensures Claim(m, true, 0, BINDING) == OPENED
  {
    var n := Point(Put(m, true, 0, At(m, true, 0).(state := Only(Blocked))), true, 0, true);
    assert n.parents == [Fresh(OPEN).(state := Only(Blocked))];
    assert Call(n, []) == n;
    assert Apply(n, true, 0, Only(Bound)).parents == [BoundScope(1)];
  }

  /** Opening from nothing leaves one bound, active parent. */
  lemma Opened()
    ensures Execute(EMPTY, OpenOwner, OPEN, GATE, BINDING).0 == OPENED
  {
    OpenIsValid();
    hide ValidRequest, ValidCommand, Reply, Claim, Apply, StopScope;
    var l := Reset(EMPTY, OPEN);
    assert Prune(l) == l;
    var m := l.(parentFloor := 1, parents := [Fresh(OPEN)]);
    assert l.parents + [Fresh(OPEN)] == m.parents;
    assert Dispatch(l, OpenOwner, OPEN, GATE, BINDING) == OwnerStep(m, OpenOwner, OPEN, 0, true, BINDING);
    assert OwnerStep(m, OpenOwner, OPEN, 0, true, BINDING).0 == Claim(m, true, 0, BINDING);
    Claimed(m);
  }

  const CLOSED := OPENED.(parents := [BoundScope(2).(state := RELEASED, actionFloor := 1)], parent := None,
                          actions := [Action(TRACK, ENTERING.(local := Settled))], log := [Submission(1, 1, 1)])

  /** The submission is made, and the parent is closed during it. */
  lemma ClosedDuring(a: Ledger)
    requires a == OPENED.(parents := [BoundScope(1).(actionFloor := 1)])
    ensures Submitted(a, TRACK, CLOSING) == CLOSED
  {
    var b := a.(actions := [Action(TRACK, ENTERING)], log := [Submission(1, 1, 1)], calling := true);
    var op := UpdateScope(OPEN, RELEASED, true);
    assert RunNested(b, [op]) == Nested(b, op) by { assert [op][1..] == []; }
    assert a.actions + [Action(TRACK, ENTERING)] == b.actions && a.log + [Submission(1, 1, 1)] == b.log;
    hide RunNested, ValidCommand;
    assert Nested(b, op) == CLOSED.(calling := true) by {
      assert Apply(b, true, 0, RELEASED) == CLOSED.(calling := true);
    }
  }

  /** Its result cannot be recorded, and the parent is blocked all the same. */
  lemma BlockedAfter()
    ensures var n := Returned(CLOSED, 0, 0, CLOSING); n.parents == [CLOSED.parents[0].(state := RELEASED.(phase := Blocked))] && n.parent == None
  {
    var result := SubmitResult(CLOSED, 0, 0, CLOSING.entry.result);
    Refused(CLOSED, CLOSED.actions[0], result);
    hide RecordAccepts, StopScope;
    assert Record(CLOSED, 0, result) == CLOSED;
  }

  lemma Refused(m: Ledger, a: Action, result: Operation)
    requires result.outcome.HistoryExpired?
    ensures !RecordAccepts(m, a, result)
  {
    hide ValidShape, ValidEvidence, ValidRefusal;
  }

  lemma Submitting()
    ensures var a := OPENED.(parents := [BoundScope(1).(actionFloor := 1)]);
            Execute(OPENED, Submit, TRACK, GATE, CLOSING).0 == Returned(Submitted(a, TRACK, CLOSING), 0, 0, CLOSING)
  {
    OpenIsValid();
    hide ValidRequest, ValidCommand, Reply, Submitted, Returned, Claim, Replay, OwnerStep, ContextStep, StopScope;
    assert Prune(OPENED) == OPENED;
    var a := OPENED.(parents := [BoundScope(1).(actionFloor := 1)]);
    assert OPENED.parents[0 := BoundScope(1).(actionFloor := 1)] == a.parents;
    assert ActionStep(OPENED, Submit, TRACK, 0, 0, GATE, CLOSING).0 == Returned(Submitted(a, TRACK, CLOSING), 0, 0, CLOSING);
  }

  /** The parent is blocked, hence owned, while no parent is active: the one case in which
      ownership and the active pointer part. */
  lemma ClosedParentReopens()
    ensures var l := Execute(Execute(EMPTY, OpenOwner, OPEN, GATE, BINDING).0, Submit, TRACK, GATE, CLOSING).0;
            && |l.parents| == 1 && l.parents[0].state.phase.Blocked? && Owned(l.parents[0].state.phase) && l.parent == None
  {
    Opened();
    Submitting();
    ClosedDuring(OPENED.(parents := [BoundScope(1).(actionFloor := 1)]));
    BlockedAfter();
    hide Execute, Submitted, Returned;
  }

  // ----- a nested reply that is no valid receipt -----

  /** Submit refuses at admission, with a typed reason. */
  const REFUSAL := NOT_RUN.(outcome := Deferred, reason := TargetOccupied)
  const REFUSING := Environment(Native([], REFUSAL), QUIET)
  const REFUSED := OPENED.(parents := [BoundScope(1).(actionFloor := 1)], actions := [Action(TRACK, REFUSAL)], log := [Submission(1, 1, 1)])

  lemma RefusalRecorded(a: Ledger)
    requires a == OPENED.(parents := [BoundScope(1).(actionFloor := 1)])
    ensures Returned(Submitted(a, TRACK, REFUSING), 0, 0, REFUSING) == REFUSED
  {
    OpenIsValid();
    var m := Submitted(a, TRACK, REFUSING);
    assert a.actions + [Action(TRACK, ENTERING)] == [Action(TRACK, ENTERING)] && a.log + [Submission(1, 1, 1)] == [Submission(1, 1, 1)];
    assert m == a.(actions := [Action(TRACK, ENTERING)], log := [Submission(1, 1, 1)]);
    hide ValidRequest, ValidCommand, StopScope, Submitted;
    assert RecordAccepts(m, m.actions[0], REFUSAL);
    hide RecordAccepts;
    assert Record(m, 0, REFUSAL).actions == REFUSED.actions;
  }

  lemma RefusalIsRetained()
    ensures Execute(OPENED, Submit, TRACK, GATE, REFUSING).0 == REFUSED
  {
    OpenIsValid();
    var a := OPENED.(parents := [BoundScope(1).(actionFloor := 1)]);
    RefusalRecorded(a);
    hide ValidRequest, ValidCommand, Reply, Submitted, Returned, Claim, Replay, OwnerStep, ContextStep, StopScope;
    assert Prune(OPENED) == OPENED;
    assert OPENED.parents[0 := BoundScope(1).(actionFloor := 1)] == a.parents;
    assert ActionStep(OPENED, Submit, TRACK, 0, 0, GATE, REFUSING).0 == Returned(Submitted(a, TRACK, REFUSING), 0, 0, REFUSING);
  }

  /** Asked for that action's status during a later native call, the controller answers
      pending with the retained reason, which a pending receipt may not carry. */
  lemma NestedReplyCanBeInvalid()
    ensures !ValidReceipt(ExecuteNested(REFUSED.(calling := true), ActionStatus, TRACK, true).1)
  {
    OpenIsValid();
    hide ValidCommand, ValidShape, ValidEvidence, ValidClosure;
    var r := ExecuteNested(REFUSED.(calling := true), ActionStatus, TRACK, true).1;
    assert r.reason.TargetOccupied? && r.outcome.Pending?;
  }
}
