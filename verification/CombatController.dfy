/** The legacy controller as the program keeps it: a map of records, the active one, and
    whether a native call is under way. */
module CombatController {
  import opened L = CombatLedger
  import opened Wrappers

  class Controller {
    var records: map<nat, Record>
    var active: Option<nat>
    var calling: bool

    ghost function View(): Ledger
      reads this
    {
      Ledger(records, active, calling)
    }

    constructor ()
      ensures View() == EMPTY
    {
      records, active, calling := map[], None, false;
    }

    method Accept(id: nat, receipt: Receipt)
      requires id in records
      modifies this`records, this`active
      ensures View() == Accepted(old(View()), id, receipt)
    {
      var record := records[id];
      var terminal := receipt.phase.Retired? || (receipt.outcome.LocalCancelled? && receipt.cancelled);
      if !Correlated(record.command, receipt) || (!terminal && !receipt.cleanup) {
        var blocked := Reply(record.command, Uncertain).(cleanup := true, phase := Blocked);
        records := records[id := record.(receipt := blocked)];
        active := Some(id);
        return;
      }
      records := records[id := record.(receipt := receipt)];
      if receipt.cleanup { active := Some(id); } else if active == Some(id) { active := None; }
    }

    method PreserveEvidence(id: nat, receipt: Receipt)
      requires id in records
      modifies this`records
      ensures View() == Preserved(old(View()), id, receipt)
    {
      var record := records[id];
      if Correlated(record.command, receipt) {
        records := records[id := record.(receipt := record.receipt.(queued := record.receipt.queued || receipt.queued))];
      }
    }

    method Update(receipt: Receipt) returns (ok: bool)
      modifies this
      ensures View() == L.Update(old(View()), receipt) && ok == Updatable(old(View()), receipt)
    {
      var id := receipt.echo.request;
      if id !in records || !Correlated(records[id].command, receipt) { return false; }
      if active != Some(id) { return false; }
      if records[id].update >= MAX_UPDATE { return false; }
      records := records[id := records[id].(update := records[id].update + 1)];
      Accept(id, receipt);
      return true;
    }

    method RetireRecord(id: nat, epoch: nat)
      requires id in records
      modifies this`records, this`active
      ensures records == old(records)[id := Visited(old(records)[id], epoch)]
      ensures active == if old(active) == Some(id) && old(records)[id].command.echo.scene == epoch then None else old(active)
    {
      var record := records[id];
      if record.command.echo.scene != epoch { return; }
      if record.update < MAX_UPDATE { record := record.(update := record.update + 1); }
      record := record.(receipt := record.receipt.(phase := Retired, outcome := Observed, cleanup := false));
      records := records[id := record];
      if active == Some(id) { active := None; }
    }

    /** Visit every record once, in whatever order. */
    method Retire(epoch: nat)
      modifies this
      ensures View() == L.Retire(old(View()), epoch)
    {
      if epoch == 0 { return; }
      hide Visited;
      var left := records.Keys;
      ghost var was := records;
      while left != {}
        invariant left <= records.Keys == was.Keys && calling == old(calling)
        invariant forall id :: id in left ==> records[id] == was[id]
        invariant forall id :: id in was.Keys - left ==> records[id] == Visited(was[id], epoch)
        invariant active == old(active) || active == None
        invariant active == None <==> old(active).None?
                                      || (old(active).value in was.Keys - left && was[old(active).value].command.echo.scene == epoch)
        decreases |left|
      {
        var id :| id in left;
        left := left - {id};
        RetireRecord(id, epoch);
      }
      assert records == L.Retire(old(View()), epoch).records;
    }

    /** What the backend does before it returns: calls back into the controller. */
    method Call(script: seq<Nested>)
      requires calling
      modifies this
      ensures View() == ReenterAll(old(View()), script)
      ensures calling
    {
      for i := 0 to |script|
        invariant View() == ReenterAll(old(View()), script[..i]) && calling
      {
        assert script[..i + 1][..i] == script[..i];
        match script[i] {
          case NestedUpdate(r) => var _ := Update(r);
          case NestedRetire(e) => Retire(e);
          case NestedExecute(v, c, valid, live) => var _ := Admit(v, c, valid, live);
        }
      }
      assert script[..|script|] == script;
    }

    /** Everything Execute does short of a native call; None if one is due. */
    method Admit(verb: Verb, command: Command, valid: bool, live: bool) returns (receipt: Option<Receipt>)
      modifies this
      ensures match Decide(old(View()), verb, command, valid, live)
              case Answer(l, r) => View() == l && receipt == Some(r)
              case _ => View() == old(View()) && receipt == None
      ensures calling == old(calling)
    {
      var id := command.echo.request;
      if !valid { return Some(Reply(command, Invalid)); }
      if id in records {
        if records[id].command != command { return Some(Reply(command, Invalid)); }
        if verb != Cancel || active != Some(id) || calling { return Some(records[id].receipt); }
        return None;
      }
      if verb == Status { return Some(Reply(command, Unavailable)); }
      if verb == Cancel {
        if |records| >= CAPACITY { return Some(Reply(command, Exhausted)); }
        var pinned := Reply(command, LocalCancelled).(cancelled := true);
        records := records[id := Record(command, pinned, 0)];
        return Some(pinned);
      }
      if !live { return Some(Reply(command, Stale)); }
      if active.Some? || calling { return Some(Reply(command, Pending)); }
      if |records| >= CAPACITY { return Some(Reply(command, Exhausted)); }
      return None;
    }

    /** The native call on record id, and what becomes of its reply. */
    method Native(id: nat, script: seq<Nested>, reply: Receipt) returns (receipt: Option<Receipt>)
      requires id in records && !calling
      modifies this
      ensures View() == Called(old(View()), id, script, reply)
      ensures receipt == if id in records then Some(records[id].receipt) else None
    {
      hide ReenterAll, Accepted, Preserved;
      var before := records[id].update;
      calling := true;
      Call(script);
      calling := false;
      if id !in records { return None; }
      if records[id].update == before && !records[id].receipt.phase.Retired? {
        AcceptedHas(View(), id, reply);
        Accept(id, reply);
      }
      PreserveEvidence(id, reply);
      return if id in records then Some(records[id].receipt) else None;
    }

    static lemma AcceptedHas(l: Ledger, id: nat, r: Receipt)
      ensures id in l.records ==> id in Accepted(l, id, r).records
    {
    }

    /** A start or cancel reaches the backend, which runs the script and then replies. */
    method Execute(verb: Verb, command: Command, valid: bool, live: bool, script: seq<Nested>, reply: Receipt) returns (receipt: Receipt)
      requires Inv(View()) && !calling && Sound(L.Execute(verb, command, valid, live, script, reply))
      modifies this
      ensures View() == Step(old(View()), L.Execute(verb, command, valid, live, script, reply))
      ensures match Decide(old(View()), verb, command, valid, live)
              case Answer(_, r) => receipt == r
              case _ => command.echo.request in records && receipt == records[command.echo.request].receipt
      ensures Inv(View()) && !calling && receipt.echo == command.echo && (valid ==> L.Valid(receipt))
    {
      StepKeeps(View(), L.Execute(verb, command, valid, live, script, reply));
      DecideKeeps(View(), verb, command, valid, live);
      NativeHolds(View(), L.Execute(verb, command, valid, live, script, reply));
      hide Inv, Sound, Called, Extends;
      var answer := Admit(verb, command, valid, live);
      if answer.Some? { return answer.value; }
      var id := command.echo.request;
      if id !in records {
        records := records[id := Record(command, Blocking(command), 0)];
        active := Some(id);
      }
      var returned := Native(id, script, reply);
      RecordIsSound(View(), id);
      receipt := returned.value;
    }

    /** The record a native call is about is still there after it, under the same command. */
    static lemma NativeHolds(l: Ledger, e: Event)
      requires Inv(l) && !l.calling && Sound(e) && e.Execute?
      ensures !Decide(l, e.verb, e.command, e.valid, e.live).Answer? ==>
                && e.command.echo.request in Step(l, e).records
                && Step(l, e).records[e.command.echo.request].command == e.command
    {
      var id := e.command.echo.request;
      if Decide(l, e.verb, e.command, e.valid, e.live).NativeStart? {
        DecideKeeps(l, e.verb, e.command, e.valid, e.live);
        EnteredKeeps(l, e.command);
        CalledKeeps(Entered(l, e.command), id, e.script, e.reply);
      } else {
        StepKeeps(l, e);
      }
      hide Inv, Called;
    }

    static lemma RecordIsSound(l: Ledger, id: nat)
      requires Inv(l) && id in l.records
      ensures L.Valid(l.records[id].receipt) && l.records[id].receipt.echo == l.records[id].command.echo
    {
      assert RecordOk(l, id);
    }
  }
}
