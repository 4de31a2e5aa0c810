/** The legacy combat controller: one record for every request ever seen, none ever evicted,
    of which at most one still owes a native cleanup.  A native call may re-enter the
    controller; what it does there is a script of nested calls. */
module CombatLedger {
  import opened Wrappers

  const CAPACITY: nat := 4096
  const MAX_UPDATE: nat := 0xffff_ffff_ffff_ffff

  datatype Verb = Start | Status | Cancel
  datatype Outcome =
    | Observed | ClientOutboundQueued | Stale | Unavailable | Invalid | Pending
    | Uncertain | Exhausted | LocalCancelled | NativeRejected
  datatype Phase = Idle | Engaged | Cancelling | Retired | Blocked

  /** The fields every receipt repeats.  sound says that the host and the grant decode, the
      window is in range, and the request and the binding digest are not zero. */
  datatype Echo = Echo(request: nat, scene: nat, rest: nat, sound: bool)

  datatype Command = Command(echo: Echo, body: nat)

  datatype Receipt = Receipt(
    echo: Echo, outcome: Outcome, phase: Phase, cleanup: bool, queued: bool, cancelled: bool,
    mode: nat, actionState: nat, targetPresent: nat)

  datatype Record = Record(command: Command, receipt: Receipt, update: nat)

  datatype Ledger = Ledger(records: map<nat, Record>, active: Option<nat>, calling: bool)

  const EMPTY := Ledger(map[], None, false)

  function Reply(c: Command, o: Outcome): Receipt { Receipt(c.echo, o, Idle, false, false, false, 0, 0, 0) }

  predicate Valid(r: Receipt) {
    && r.echo.sound && r.targetPresent <= 1
    && (r.outcome.ClientOutboundQueued? ==> r.queued && r.phase.Engaged?)
    && (r.outcome.LocalCancelled? ==> r.cancelled && !r.cleanup && r.phase.Idle?)
    && (r.phase.Retired? ==> !r.cleanup)
  }

  predicate Correlated(c: Command, r: Receipt) { Valid(r) && r.echo == c.echo }

  predicate Finished(r: Receipt) { r.phase.Retired? || (r.outcome.LocalCancelled? && r.cancelled) }

  predicate Credible(c: Command, r: Receipt) { Correlated(c, r) && (Finished(r) || r.cleanup) }

  /** What is kept of an entered request whose native reply cannot be believed. */
  function Blocking(c: Command): Receipt { Reply(c, Uncertain).(cleanup := true, phase := Blocked) }

  function Accepted(l: Ledger, id: nat, r: Receipt): Ledger
    requires id in l.records
  {
    var k := l.records[id];
    if !Credible(k.command, r) then
      l.(records := l.records[id := k.(receipt := Blocking(k.command))], active := Some(id))
    else
      l.(records := l.records[id := k.(receipt := r)],
         active := if r.cleanup then Some(id) else if l.active == Some(id) then None else l.active)
  }

  /** A late correlated reply may still prove that something went out. */
  function Preserved(l: Ledger, id: nat, r: Receipt): Ledger
    requires id in l.records
  {
    var k := l.records[id];
    if Correlated(k.command, r) then l.(records := l.records[id := k.(receipt := k.receipt.(queued := k.receipt.queued || r.queued))])
    else l
  }

  predicate Updatable(l: Ledger, r: Receipt) {
    var id := r.echo.request;
    id in l.records && Correlated(l.records[id].command, r) && l.active == Some(id) && l.records[id].update < MAX_UPDATE
  }

  function Update(l: Ledger, r: Receipt): Ledger {
    var id := r.echo.request;
    if !Updatable(l, r) then l
    else
      var k := l.records[id];
      Accepted(l.(records := l.records[id := k.(update := k.update + 1)]), id, r)
  }

  function RetiredRecord(k: Record): Record {
    k.(update := if k.update < MAX_UPDATE then k.update + 1 else k.update,
       receipt := k.receipt.(phase := Retired, outcome := Observed, cleanup := false))
  }

  function Visited(k: Record, epoch: nat): Record { if k.command.echo.scene == epoch then RetiredRecord(k) else k }

  function Retire(l: Ledger, epoch: nat): Ledger {
    if epoch == 0 then l
    else
      l.(records := map id | id in l.records :: Visited(l.records[id], epoch),
         active := if l.active.Some? && l.active.value in l.records && l.records[l.active.value].command.echo.scene == epoch then None
                   else l.active)
  }

  /** What an Execute comes to: an answer, with the ledger after it, or a native call. */
  datatype Decision = Answer(ledger: Ledger, receipt: Receipt) | NativeStart | NativeCancel

  function Decide(l: Ledger, verb: Verb, c: Command, valid: bool, live: bool): Decision {
    var id := c.echo.request;
    if !valid then Answer(l, Reply(c, Invalid))
    else if id in l.records then
      if l.records[id].command != c then Answer(l, Reply(c, Invalid))
      else if !verb.Cancel? || l.active != Some(id) || l.calling then Answer(l, l.records[id].receipt)
      else NativeCancel
    else if verb.Status? then Answer(l, Reply(c, Unavailable))
    else if verb.Cancel? then
      if |l.records| >= CAPACITY then Answer(l, Reply(c, Exhausted))
      else
        var r := Reply(c, LocalCancelled).(cancelled := true);
        Answer(l.(records := l.records[id := Record(c, r, 0)]), r)
    else if !live then Answer(l, Reply(c, Stale))
    else if l.active.Some? || l.calling then Answer(l, Reply(c, Pending))
    else if |l.records| >= CAPACITY then Answer(l, Reply(c, Exhausted))
    else NativeStart
  }

  datatype Nested = NestedUpdate(receipt: Receipt) | NestedRetire(epoch: nat) | NestedExecute(verb: Verb, command: Command, valid: bool, live: bool)

  /** One nested call; while a native call is under way there is never a second one. */
  function Reenter(l: Ledger, n: Nested): Ledger {
    match n
    case NestedUpdate(r) => Update(l, r)
    case NestedRetire(e) => Retire(l, e)
    case NestedExecute(v, c, valid, live) => (match Decide(l, v, c, valid, live) case Answer(k, _) => k case _ => l)
  }

  function ReenterAll(l: Ledger, ns: seq<Nested>): Ledger
    decreases |ns|
  {
    if ns == [] then l else Reenter(ReenterAll(l, ns[..|ns| - 1]), ns[|ns| - 1])
  }

  /** The call on record id: the script runs inside it, then the reply is taken, unless the
      record was updated or retired meanwhile. */
  function Called(l: Ledger, id: nat, ns: seq<Nested>, reply: Receipt): Ledger
    requires id in l.records
  {
    var before := l.records[id].update;
    var m := ReenterAll(l.(calling := true), ns).(calling := false);
    if id !in m.records then m
    else
      var n := if m.records[id].update == before && !m.records[id].receipt.phase.Retired? then Accepted(m, id, reply) else m;
      Preserved(n, id, reply)
  }

  function Entered(l: Ledger, c: Command): Ledger {
    l.(records := l.records[c.echo.request := Record(c, Blocking(c), 0)], active := Some(c.echo.request))
  }

  datatype Event =
    | Execute(verb: Verb, command: Command, valid: bool, live: bool, script: seq<Nested>, reply: Receipt)
    | TopUpdate(receipt: Receipt)
    | TopRetire(epoch: nat)

  function Step(l: Ledger, e: Event): Ledger {
    match e
    case TopUpdate(r) => Update(l, r)
    case TopRetire(epoch) => Retire(l, epoch)
    case Execute(verb, c, valid, live, script, reply) =>
      (match Decide(l, verb, c, valid, live)
       case Answer(k, _) => k
       case NativeCancel => Called(l, c.echo.request, script, reply)
       case NativeStart => Called(Entered(l, c), c.echo.request, script, reply))
  }

  /** The requests the backend is asked to start. */
  function Started(l: Ledger, e: Event): seq<nat> {
    if e.Execute? && Decide(l, e.verb, e.command, e.valid, e.live).NativeStart? then [e.command.echo.request] else []
  }

  function Run(es: seq<Event>): Ledger
    decreases |es|
  {
    if es == [] then EMPTY else Step(Run(es[..|es| - 1]), es[|es| - 1])
  }

  function Starts(es: seq<Event>): seq<nat>
    decreases |es|
  {
    if es == [] then [] else Starts(es[..|es| - 1]) + Started(Run(es[..|es| - 1]), es[|es| - 1])
  }

  // ----- what every ledger keeps -----

  /** Commands accepted as valid have sound echoes. */
  predicate Sound(e: Event) {
    e.Execute? ==> (e.valid ==> e.command.echo.sound)
                   && forall n :: n in e.script ==> (n.NestedExecute? ==> n.valid ==> n.command.echo.sound)
  }

  predicate RecordOk(l: Ledger, id: nat)
    requires id in l.records
  {
    var k := l.records[id];
    k.command.echo.request == id && Correlated(k.command, k.receipt) && (k.receipt.cleanup <==> l.active == Some(id))
  }

  predicate Inv(l: Ledger) {
    && |l.records| <= CAPACITY && (l.active.Some? ==> l.active.value in l.records)
    && forall id :: id in l.records ==> RecordOk(l, id)
  }

  /** Nothing is ever forgotten, nor any command changed. */
  predicate Extends(l: Ledger, k: Ledger) {
    forall id :: id in l.records ==> id in k.records && k.records[id].command == l.records[id].command
                                     && (l.records[id].receipt.phase.Retired? ==> k.records[id].receipt.phase.Retired?)
  }

  lemma AcceptKeeps(l: Ledger, id: nat, r: Receipt)
    requires Inv(l) && id in l.records && l.active == Some(id)
    ensures Inv(Accepted(l, id, r)) && Extends(l, Accepted(l, id, r)) && Accepted(l, id, r).calling == l.calling
    ensures id in Accepted(l, id, r).records
  {
    var m := Accepted(l, id, r);
    assert RecordOk(l, id);
    assert m.records.Keys == l.records.Keys;
    forall x | x in m.records ensures RecordOk(m, x) { assert RecordOk(l, x); }
  }

  lemma UpdateKeeps(l: Ledger, r: Receipt)
    requires Inv(l)
    ensures Inv(Update(l, r)) && Extends(l, Update(l, r)) && Update(l, r).calling == l.calling
  {
    if Updatable(l, r) {
      var id := r.echo.request;
      var m := l.(records := l.records[id := l.records[id].(update := l.records[id].update + 1)]);
      assert m.records.Keys == l.records.Keys;
      forall x | x in m.records ensures RecordOk(m, x) { assert RecordOk(l, x); }
      AcceptKeeps(m, id, r);
    }
  }

  lemma RetireKeeps(l: Ledger, epoch: nat)
    requires Inv(l)
    ensures Inv(Retire(l, epoch)) && Extends(l, Retire(l, epoch)) && Retire(l, epoch).calling == l.calling
  {
    if epoch != 0 {
      var m := Retire(l, epoch);
      assert m.records.Keys == l.records.Keys;
      forall x | x in m.records ensures RecordOk(m, x) { assert RecordOk(l, x); }
    }
  }

  lemma DecideKeeps(l: Ledger, v: Verb, c: Command, valid: bool, live: bool)
    requires Inv(l) && (valid ==> c.echo.sound)
    ensures match Decide(l, v, c, valid, live)
            case Answer(k, r) => Inv(k) && Extends(l, k) && k.calling == l.calling && k.active == l.active && r.echo == c.echo && (valid ==> Valid(r))
            case _ => !l.calling
  {
    var d := Decide(l, v, c, valid, live);
    if c.echo.request in l.records { assert RecordOk(l, c.echo.request); }
    if d.Answer? {
      forall x | x in d.ledger.records ensures RecordOk(d.ledger, x) { if x in l.records { assert RecordOk(l, x); } }
    }
  }

  lemma {:induction false} ReenterKeeps(l: Ledger, ns: seq<Nested>)
    requires Inv(l) && forall n :: n in ns ==> (n.NestedExecute? ==> n.valid ==> n.command.echo.sound)
    ensures Inv(ReenterAll(l, ns)) && Extends(l, ReenterAll(l, ns)) && ReenterAll(l, ns).calling == l.calling
    decreases |ns|
  {
    if ns != [] {
      ReenterKeeps(l, ns[..|ns| - 1]);
      var m, n := ReenterAll(l, ns[..|ns| - 1]), ns[|ns| - 1];
      hide Inv;
      match n
      case NestedUpdate(r) => UpdateKeeps(m, r);
      case NestedRetire(e) => RetireKeeps(m, e);
      case NestedExecute(v, c, valid, live) => DecideKeeps(m, v, c, valid, live);
    }
  }

  /** A record that was active stays so until it is updated or retired. */
  predicate Untouched(l: Ledger, id: nat, before: nat) {
    id in l.records && l.records[id].update == before && !l.records[id].receipt.phase.Retired?
  }

  lemma {:induction false} StillActive(l: Ledger, ns: seq<Nested>, id: nat)
    requires Inv(l) && l.calling && l.active == Some(id) && id in l.records && !l.records[id].receipt.phase.Retired?
    requires forall n :: n in ns ==> (n.NestedExecute? ==> n.valid ==> n.command.echo.sound)
    ensures id in ReenterAll(l, ns).records && l.records[id].update <= ReenterAll(l, ns).records[id].update
    ensures Untouched(ReenterAll(l, ns), id, l.records[id].update) ==> ReenterAll(l, ns).active == Some(id)
    decreases |ns|
  {
    if ns != [] {
      StillActive(l, ns[..|ns| - 1], id);
      ReenterKeeps(l, ns[..|ns| - 1]);
      var m, n := ReenterAll(l, ns[..|ns| - 1]), ns[|ns| - 1];
      DecideWhileCalling(m);
      hide Inv, Extends, Decide;
      if n.NestedUpdate? && Updatable(m, n.receipt) { assert m.active == Some(n.receipt.echo.request); }
    }
  }

  lemma DecideWhileCalling(l: Ledger)
    requires Inv(l) && l.calling
    ensures forall v, c, valid, live :: Decide(l, v, c, valid, live).Answer?
    ensures forall v, c, valid, live ::
              var k := Decide(l, v, c, valid, live).ledger;
              k.active == l.active && (forall x :: x in l.records ==> x in k.records && k.records[x] == l.records[x])
  {
  }

  lemma CallingIsApart(l: Ledger, calling: bool)
    requires Inv(l)
    ensures Inv(l.(calling := calling))
  {
    var m := l.(calling := calling);
    forall x | x in m.records ensures RecordOk(m, x) { assert RecordOk(l, x); }
  }

  lemma CalledKeeps(l: Ledger, id: nat, ns: seq<Nested>, reply: Receipt)
    requires Inv(l) && !l.calling && l.active == Some(id) && id in l.records && !l.records[id].receipt.phase.Retired?
    requires forall n :: n in ns ==> (n.NestedExecute? ==> n.valid ==> n.command.echo.sound)
    ensures Inv(Called(l, id, ns, reply)) && Extends(l, Called(l, id, ns, reply)) && !Called(l, id, ns, reply).calling
  {
    hide ReenterAll, Inv, RecordOk, Accepted, Preserved;
    var a := l.(calling := true);
    CallingIsApart(l, true);
    ReenterKeeps(a, ns);
    StillActive(a, ns, id);
    var r := ReenterAll(a, ns);
    var m := r.(calling := false);
    CallingIsApart(r, false);
    if Untouched(m, id, l.records[id].update) {
      AcceptKeeps(m, id, reply);
      PreserveKeeps(Accepted(m, id, reply), id, reply);
    } else {
      PreserveKeeps(m, id, reply);
    }
  }

  lemma PreserveKeeps(l: Ledger, id: nat, r: Receipt)
    requires Inv(l) && id in l.records
    ensures Inv(Preserved(l, id, r)) && Extends(l, Preserved(l, id, r)) && Preserved(l, id, r).calling == l.calling
  {
    var m := Preserved(l, id, r);
    assert m.records.Keys == l.records.Keys;
    forall x | x in m.records ensures RecordOk(m, x) { assert RecordOk(l, x); }
  }

  lemma EnteredKeeps(l: Ledger, c: Command)
    requires Inv(l) && l.active.None? && |l.records| < CAPACITY && c.echo.request !in l.records && c.echo.sound
    ensures Inv(Entered(l, c)) && Extends(l, Entered(l, c))
  {
    var m := Entered(l, c);
    forall x | x in m.records ensures RecordOk(m, x) { if x in l.records { assert RecordOk(l, x); } }
  }

  lemma StepKeeps(l: Ledger, e: Event)
    requires Inv(l) && !l.calling && Sound(e)
    ensures Inv(Step(l, e)) && Extends(l, Step(l, e)) && !Step(l, e).calling
    ensures forall id :: id in Started(l, e) ==> id !in l.records && id in Step(l, e).records
  {
    match e
    case TopUpdate(r) => UpdateKeeps(l, r);
    case TopRetire(epoch) => RetireKeeps(l, epoch);
    case Execute(v, c, valid, live, script, reply) =>
      DecideKeeps(l, v, c, valid, live);
      var id := c.echo.request;
      if Decide(l, v, c, valid, live).NativeCancel? {
        assert RecordOk(l, id);
        CalledKeeps(l, id, script, reply);
      } else if Decide(l, v, c, valid, live).NativeStart? {
        EnteredKeeps(l, c);
        CalledKeeps(Entered(l, c), id, script, reply);
      }
      hide Inv, Called, Decide;
  }

  lemma {:induction false} RunKeeps(es: seq<Event>)
    requires forall e :: e in es ==> Sound(e)
    ensures Inv(Run(es)) && !Run(es).calling
    decreases |es|
  {
    if es != [] {
      RunKeeps(es[..|es| - 1]);
      hide Inv, Step, Started, Sound;
      StepKeeps(Run(es[..|es| - 1]), es[|es| - 1]);
    }
  }

  // ----- what is remembered, whatever the commands and replies -----

  predicate Remembers(l: Ledger, k: Ledger) {
    forall id :: id in l.records ==> id in k.records && k.records[id].command == l.records[id].command
  }

  lemma DecideRemembers(l: Ledger, v: Verb, c: Command, valid: bool, live: bool)
    ensures Decide(l, v, c, valid, live).Answer? ==> Remembers(l, Decide(l, v, c, valid, live).ledger)
    ensures Decide(l, v, c, valid, live).NativeStart? ==> c.echo.request !in l.records
    ensures Decide(l, v, c, valid, live).NativeCancel? ==> c.echo.request in l.records
  {
  }

  lemma ReenterRemembers(l: Ledger, n: Nested)
    ensures Remembers(l, Reenter(l, n))
  {
    if n.NestedExecute? { DecideRemembers(l, n.verb, n.command, n.valid, n.live); hide Decide; }
  }

  lemma {:induction false} ReenterAllRemembers(l: Ledger, ns: seq<Nested>)
    ensures Remembers(l, ReenterAll(l, ns))
    decreases |ns|
  {
    hide Reenter;
    if ns != [] {
      ReenterAllRemembers(l, ns[..|ns| - 1]);
      ReenterRemembers(ReenterAll(l, ns[..|ns| - 1]), ns[|ns| - 1]);
    }
  }

  lemma CalledRemembers(l: Ledger, id: nat, ns: seq<Nested>, reply: Receipt)
    requires id in l.records
    ensures Remembers(ReenterAll(l.(calling := true), ns), Called(l, id, ns, reply)) && Remembers(l, Called(l, id, ns, reply))
  {
    ReenterAllRemembers(l.(calling := true), ns);
    hide ReenterAll;
  }

  lemma StepRemembers(l: Ledger, e: Event)
    ensures Remembers(l, Step(l, e))
    ensures forall id :: id in Started(l, e) ==> id !in l.records && id in Step(l, e).records
  {
    match e
    case TopUpdate(r) =>
    case TopRetire(epoch) =>
    case Execute(v, c, valid, live, script, reply) =>
      DecideRemembers(l, v, c, valid, live);
      hide Called, Decide;
      var id := c.echo.request;
      if Decide(l, v, c, valid, live).NativeCancel? { CalledRemembers(l, id, script, reply); }
      else if Decide(l, v, c, valid, live).NativeStart? { CalledRemembers(Entered(l, c), id, script, reply); }
  }

  lemma {:induction false} StartedIsRecorded(es: seq<Event>)
    ensures forall id :: id in Starts(es) ==> id in Run(es).records
    decreases |es|
  {
    if es != [] {
      hide Step, Started;
      StartedIsRecorded(es[..|es| - 1]);
      StepRemembers(Run(es[..|es| - 1]), es[|es| - 1]);
    }
  }

  // ----- main results -----

  /** A record owes a cleanup exactly if it is the active one, of which there is at most one;
      and every record's receipt is a valid one for its own command. */
  lemma CleanupIsTheActiveOne(es: seq<Event>, id: nat)
    requires (forall e :: e in es ==> Sound(e)) && id in Run(es).records
    ensures Run(es).records[id].receipt.cleanup <==> Run(es).active == Some(id)
    ensures Correlated(Run(es).records[id].command, Run(es).records[id].receipt) && Run(es).records[id].command.echo.request == id
  {
    RunKeeps(es);
    assert RecordOk(Run(es), id);
    hide Run;
  }

  /** No request is ever started twice. */
  lemma {:induction false} StartedAtMostOnce(es: seq<Event>, i: nat, j: nat)
    requires i < j < |Starts(es)|
    ensures Starts(es)[i] != Starts(es)[j]
    decreases |es|
  {
    var fs, e := es[..|es| - 1], es[|es| - 1];
    StartedIsRecorded(fs);
    StepRemembers(Run(fs), e);
    if j < |Starts(fs)| {
      StartedAtMostOnce(fs, i, j);
    } else {
      assert Starts(es)[i] in Starts(fs) && Starts(es)[j] in Started(Run(fs), e);
      hide Step, Decide;
    }
  }

  /** A cancel is accepted: the request is recorded under exactly this command. */
  predicate CancelAccepted(l: Ledger, e: Event) {
    && e.Execute? && e.verb.Cancel? && e.valid
    && var id := e.command.echo.request;
       if id in l.records then l.records[id].command == e.command else |l.records| < CAPACITY
  }

  lemma {:induction false} RecordsStay(es: seq<Event>, fs: seq<Event>, id: nat)
    requires id in Run(es).records
    ensures id in Run(es + fs).records && Run(es + fs).records[id].command == Run(es).records[id].command
    ensures Starts(es) <= Starts(es + fs) && forall k :: |Starts(es)| <= k < |Starts(es + fs)| ==> Starts(es + fs)[k] != id
    decreases |fs|
  {
    if fs == [] {
      assert es + fs == es;
    } else {
      var gs := fs[..|fs| - 1];
      assert (es + fs)[..|es + fs| - 1] == es + gs;
      RecordsStay(es, gs, id);
      hide Step;
      StepRemembers(Run(es + gs), fs[|fs| - 1]);
    }
  }

  /** After an accepted cancel the request is never started, however late its start comes and
      whatever is nested in between. */
  lemma NeverStartedAfterCancel(es: seq<Event>, c: Event, fs: seq<Event>, k: nat)
    requires CancelAccepted(Run(es), c)
    requires |Starts(es)| <= k < |Starts(es + [c] + fs)|
    ensures Starts(es + [c] + fs)[k] != c.command.echo.request
  {
    var ds := es + [c];
    assert ds[..|ds| - 1] == es;
    StepRemembers(Run(es), c);
    assert Started(Run(es), c) == [];
    assert c.command.echo.request in Run(ds).records;
    RecordsStay(ds, fs, c.command.echo.request);
  }

  /** The ledger as event e's native call begins. */
  function Within(l: Ledger, e: Event): Ledger
    requires e.Execute?
  {
    (if Decide(l, e.verb, e.command, e.valid, e.live).NativeStart? then Entered(l, e.command) else l).(calling := true)
  }

  /** A cancel accepted inside a native call is as good as any. */
  lemma NestedCancelIsPinned(l: Ledger, e: Event, i: nat, live: bool, c: Command)
    requires e.Execute? && !Decide(l, e.verb, e.command, e.valid, e.live).Answer?
    requires i < |e.script| && e.script[i] == NestedExecute(Cancel, c, true, live)
    requires CancelAccepted(ReenterAll(Within(l, e), e.script[..i]), Execute(Cancel, c, true, live, [], Reply(c, Invalid)))
    ensures c.echo.request in Step(l, e).records
  {
    var a, ns, n := Within(l, e), e.script, i + 1;
    assert ns[..n][..i] == ns[..i];
    NestedCancelRecords(ReenterAll(a, ns[..i]), live, c);
    hide ReenterAll, CancelAccepted;
    ReenterOn(a, ns, n);
    DecideRemembers(l, e.verb, e.command, e.valid, e.live);
    hide Decide, Called;
    CalledRemembers(if Decide(l, e.verb, e.command, e.valid, e.live).NativeStart? then Entered(l, e.command) else l,
                    e.command.echo.request, ns, e.reply);
  }

  lemma NestedCancelRecords(l: Ledger, live: bool, c: Command)
    requires CancelAccepted(l, Execute(Cancel, c, true, live, [], Reply(c, Invalid)))
    ensures c.echo.request in Reenter(l, NestedExecute(Cancel, c, true, live)).records
  {
  }

  lemma {:induction false} ReenterOn(l: Ledger, ns: seq<Nested>, n: nat)
    requires n <= |ns|
    ensures Remembers(ReenterAll(l, ns[..n]), ReenterAll(l, ns))
    decreases |ns|
  {
    hide Reenter;
    if n == |ns| {
      assert ns[..n] == ns;
    } else {
      var ms := ns[..|ns| - 1];
      assert ms[..n] == ns[..n];
      ReenterOn(l, ms, n);
      ReenterRemembers(ReenterAll(l, ms), ns[|ns| - 1]);
    }
  }

  /** A nested call never reaches the backend. */
  lemma NestedCallsStayLocal(l: Ledger, v: Verb, c: Command, valid: bool, live: bool)
    requires l.calling
    ensures Decide(l, v, c, valid, live).Answer?
  {
  }

  /** While one request is unfinished no other is started. */
  lemma OneAtATime(es: seq<Event>, e: Event)
    requires (forall e :: e in es ==> Sound(e)) && Started(Run(es), e) != []
    ensures forall id :: id in Run(es).records ==> !Run(es).records[id].receipt.cleanup
  {
    RunKeeps(es);
    forall id | id in Run(es).records ensures !Run(es).records[id].receipt.cleanup { assert RecordOk(Run(es), id); }
    hide Run;
  }

  /** A scene's retirement leaves none of its requests owing anything, through any further run. */
  lemma {:induction false} RetiredIsFinal(es: seq<Event>, fs: seq<Event>, id: nat)
    requires (forall e :: e in es + fs ==> Sound(e)) && id in Run(es).records && Run(es).records[id].receipt.phase.Retired?
    ensures var l := Run(es + fs);
            id in l.records && l.records[id].receipt.phase.Retired? && !l.records[id].receipt.cleanup && l.active != Some(id)
    decreases |fs|
  {
    assert forall e :: e in es ==> e in es + fs;
    if fs == [] {
      assert es + fs == es;
      RunKeeps(es);
      assert RecordOk(Run(es), id);
    } else {
      var gs, e := fs[..|fs| - 1], fs[|fs| - 1];
      assert (es + fs)[..|es + fs| - 1] == es + gs && e in es + fs;
      assert forall e :: e in es + gs ==> e in es + fs;
      hide Step, Sound;
      RetiredIsFinal(es, gs, id);
      RunKeeps(es + gs);
      StepKeeps(Run(es + gs), e);
      assert RecordOk(Run(es + fs), id);
    }
  }
}
