/** The activation history as the program keeps it: an array of records updated in place.
    Every method is proved to have exactly the effect of its event. */
module ActivationHistory {
  import opened A = Activation
  import T = ActivationTrail

  /** The token a step hands out: the new current one, if the step made one. */
  function Issued(before: A.History, after: A.History): Token {
    if after.mutation > before.mutation && after.current.mutation == after.mutation then after.current else NO_TOKEN
  }

  class History {
    const records: array<Record>
    var bound: Identity
    var mutation: nat
    var current: Token
    var frame: Frame
    var manual: Manual

    ghost predicate Valid()
      reads this, records
    {
      records.Length == SLOTS && current.mutation <= mutation && manual.mutation <= mutation
    }

    ghost function View(): A.History
      reads this, records
    {
      A.History(records[..], bound, mutation, current, frame, manual)
    }

    constructor ()
      ensures Valid() && fresh(records) && View() == Initial()
    {
      records := new Record[SLOTS](i => BLANK);
      bound, mutation, current, frame, manual := NOBODY, 0, NO_TOKEN, NO_FRAME, NO_MANUAL;
    }

    // ----- private steps -----

    method Advance() returns (ok: bool)
      requires Valid()
      modifies this, records
      ensures Valid() && View() == A.Advance(old(View())) && ok == MayAdvance(old(View()))
    {
      if mutation >= EXHAUSTED {
        for i := 0 to SLOTS
          invariant forall j :: 0 <= j < SLOTS ==> records[j] == if j < i then Forget(old(records[j])) else old(records[j])
          invariant bound == old(bound) && mutation == old(mutation) && current == old(current)
          invariant frame == old(frame) && manual == old(manual)
        {
          records[i] := Forget(records[i]);
        }
        return false;
      }
      mutation := mutation + 1;
      return true;
    }

    method InvalidateActive(actor: nat)
      requires Valid()
      modifies records
      ensures records[..] == Invalidated(old(records[..]), actor)
    {
      for i := 0 to SLOTS
        invariant forall j :: 0 <= j < SLOTS ==>
                    records[j] == if j < i then InvalidatedRecord(old(records[j]), actor) else old(records[j])
      {
        if records[i].identity.actor == actor && !records[i].phase.AwaitingStart? && !Terminal(records[i].phase) {
          records[i] := Forget(records[i]);
        }
      }
    }

    method RelinquishManual()
      requires Valid()
      modifies records
      ensures records[..] == Relinquished(old(records[..]), manual)
    {
      for i := 0 to SLOTS
        invariant forall j :: 0 <= j < SLOTS ==>
                    records[j] == if j < i then RelinquishedRecord(old(records[j]), manual) else old(records[j])
      {
        var r := records[i];
        if r.identity == manual.identity && r.ticket < manual.sent && r.queued && r.ownedFollowup
           && r.origin.FromSelfPower? && !Terminal(r.phase) {
          records[i] := r.(relinquished := true);
        }
      }
    }

    /** The record a token names, if the token is the latest and the record in phase p. */
    method Find(t: Token, p: Phase) returns (found: bool)
      requires Valid()
      ensures found == Current(View(), t, p)
    {
      found := t.index < SLOTS && t.ticket != 0 && records[t.index].ticket == t.ticket
               && t.mutation == mutation && records[t.index].phase == p;
    }

    method Settle(t: Token, from: Phase, to: Phase, ok: bool) returns (r: bool)
      requires Valid()
      modifies records
      ensures View() == Return(old(View()), t, from, to, ok) && r == (Current(old(View()), t, from) && ok)
    {
      var found := Find(t, from);
      if !found { return false; }
      records[t.index] := records[t.index].(phase := if ok then to else Unknown);
      assert View().records == old(View()).records[t.index := records[t.index]];
      return ok;
    }

    /** The current record enters phase p at the next mutation. */
    method Enter(p: Phase) returns (t: Token)
      requires Valid() && current.index < SLOTS
      modifies this, records
      ensures Valid() && View() == Proceed(old(View()), p)
      ensures t == if MayAdvance(old(View())) then current else NO_TOKEN
    {
      var ok := Advance();
      if !ok { return NO_TOKEN; }
      records[current.index] := records[current.index].(phase := p);
      current := current.(mutation := mutation);
      assert View().records == old(View()).records[current.index := records[current.index]];
      return current;
    }

    // ----- events -----

    method Arm(slot: nat, identity: Identity, power: nat, origin: Origin) returns (ticket: nat)
      requires Valid()
      modifies this, records
      ensures Valid() && View() == Step(old(View()), A.Arm(slot, identity, power, origin))
      ensures ticket == if mutation > old(mutation) then mutation else 0
      ensures ticket != 0 ==> slot < SLOTS && View().records[slot].ticket == ticket
    {
      if slot >= SLOTS || !A.Valid(identity) || power == 0 || (A.Valid(bound) && bound != identity) { return 0; }
      var ok := Advance();
      if !ok { return 0; }
      bound := identity;
      InvalidateActive(identity.actor);
      records[slot] := Record(identity, mutation, power, AwaitingStart, false, false, false, origin);
      return mutation;
    }

    method QueueResult(slot: nat, ticket: nat, queued: bool)
      requires Valid()
      modifies records
      ensures View() == Step(old(View()), A.QueueResult(slot, ticket, queued))
    {
      if slot >= SLOTS || ticket == 0 || records[slot].ticket != ticket { return; }
      records[slot] := records[slot].(queued := records[slot].queued || queued);
      if !records[slot].queued { records[slot] := records[slot].(phase := Unknown); }
      assert View().records == old(View()).records[slot := records[slot]];
    }

    method OwnedFollowup(slot: nat, ticket: nat, exact: bool)
      requires Valid()
      modifies records
      ensures View() == Step(old(View()), A.OwnedFollowup(slot, ticket, exact))
    {
      if slot >= SLOTS || ticket == 0 || records[slot].ticket != ticket || !records[slot].origin.FromSelfPower? { return; }
      records[slot] := records[slot].(ownedFollowup := records[slot].ownedFollowup || exact);
      assert View().records == old(View()).records[slot := records[slot]];
    }

    method BeginOwnedFollowup(slot: nat, ticket: nat) returns (t: Token)
      requires Valid()
      modifies this, records
      ensures Valid() && View() == Step(old(View()), A.BeginOwnedFollowup(slot, ticket))
      ensures t == Issued(old(View()), View())
    {
      if slot >= SLOTS || ticket == 0 || records[slot].ticket != ticket || !records[slot].origin.FromSelfPower?
         || !records[slot].queued || !records[slot].phase.AwaitingStart? { return NO_TOKEN; }
      var ok := Advance();
      if !ok { return NO_TOKEN; }
      InvalidateActive(records[slot].identity.actor);
      ghost var rs := records[..];
      records[slot] := records[slot].(phase := FollowingOwned);
      current := Token(mutation, ticket, slot);
      assert records[..] == rs[slot := rs[slot].(phase := FollowingOwned)];
      return current;
    }

    method OwnedFollowupReturned(t: Token, exact: bool, state6: bool) returns (r: bool)
      requires Valid()
      modifies records
      ensures View() == Step(old(View()), A.OwnedFollowupReturned(t, exact, state6))
      ensures r == (Current(old(View()), t, FollowingOwned) && exact)
    {
      var found := Find(t, FollowingOwned);
      if !found { return false; }
      var rec := records[t.index];
      records[t.index] := rec.(ownedFollowup := rec.ownedFollowup || exact,
                               phase := if !exact then Unknown else if state6 then Active else AwaitingStart);
      assert View().records == old(View()).records[t.index := records[t.index]];
      return exact;
    }

    method ResetExactLifetime(expected: Identity) returns (r: bool)
      requires Valid()
      modifies this, records
      ensures Valid() && View() == Step(old(View()), A.ResetExactLifetime(expected))
      ensures r == (old(bound) == expected && A.Valid(expected) && MayAdvance(old(View())))
    {
      if bound != expected || !A.Valid(expected) { return false; }
      var ok := Advance();
      if !ok { return false; }
      for i := 0 to SLOTS
        invariant forall j :: 0 <= j < i ==> records[j] == BLANK
        invariant mutation == old(mutation) + 1
      {
        records[i] := BLANK;
      }
      bound, current, manual, frame := NOBODY, NO_TOKEN, NO_MANUAL, NO_FRAME;
      return true;
    }

    method ForeignItemSend(actor: nat)
      requires Valid()
      modifies this, records
      ensures Valid() && View() == Step(old(View()), A.ForeignSend(actor))
    {
      if !(A.Valid(bound) && bound.actor == actor) { return; }
      var ok := Advance();
      if !ok { return; }
      for i := 0 to SLOTS
        invariant forall j :: 0 <= j < SLOTS ==>
                    records[j] == if j < i then SentRecord(old(records[j]), actor) else old(records[j])
        invariant bound == old(bound) && mutation == old(mutation) + 1 && current == old(current)
        invariant frame == old(frame) && manual == old(manual)
      {
        if records[i].identity.actor == actor && !Terminal(records[i].phase) { records[i] := Forget(records[i]); }
      }
    }

    method ManualSend(actor: nat, power: nat)
      requires Valid()
      modifies this, records
      ensures Valid() && View() == Step(old(View()), A.ManualSend(actor, power))
    {
      if !(A.Valid(bound) && bound.actor == actor) || power == 0 { return; }
      ForeignItemSend(actor);
      manual := Manual(bound, power, AwaitingStart, mutation, mutation, NO_FRAME);
    }

    method OtherActivity(actor: nat)
      requires Valid()
      modifies this, records
      ensures Valid() && View() == Step(old(View()), A.OtherActivity(actor))
    {
      if !(A.Valid(bound) && bound.actor == actor) { return; }
      var ok := Advance();
      if !ok { return; }
      InvalidateActive(actor);
    }

    method BeginManualStart(identity: Identity, power: nat, at: Frame) returns (m: nat)
      requires Valid()
      modifies this, records
      ensures Valid() && View() == Step(old(View()), A.BeginManualStart(identity, power, at))
      ensures m == if manual.mutation == mutation > old(mutation) then mutation else 0
    {
      if !(manual.mutation != 0 && manual.mutation == mutation && manual.phase.AwaitingStart?) { return 0; }
      if manual.identity != identity || manual.power != power || !Whole(at) { OtherActivity(identity.actor); return 0; }
      var ok := Advance();
      if !ok { return 0; }
      manual := manual.(frame := at, phase := SettingState, mutation := mutation);
      return mutation;
    }

    method ManualStateReturned(m: nat, ok: bool) returns (r: bool)
      requires Valid()
      modifies this
      ensures Valid() && View() == Step(old(View()), A.ManualStateReturned(m, ok))
      ensures r == (m == old(mutation) && ManualCurrent(old(View()), SettingState) && ok)
    {
      if m != mutation || !(manual.mutation != 0 && manual.mutation == mutation && manual.phase.SettingState?) { return false; }
      manual := manual.(phase := if ok then AwaitingAppend else Unknown);
      return ok;
    }

    method BeginManualAppend(identity: Identity, power: nat, at: Frame) returns (m: nat)
      requires Valid()
      modifies this, records
      ensures Valid() && View() == Step(old(View()), A.BeginManualAppend(identity, power, at))
      ensures m == if manual.mutation == mutation > old(mutation) then mutation else 0
    {
      if !(manual.mutation != 0 && manual.mutation == mutation && manual.phase.AwaitingAppend?)
         || manual.identity != identity || manual.power != power || manual.frame != at {
        OtherActivity(identity.actor);
        return 0;
      }
      var ok := Advance();
      if !ok { return 0; }
      manual := manual.(phase := Appending, mutation := mutation);
      return mutation;
    }

    method ManualAppendReturned(m: nat, ok: bool) returns (r: bool)
      requires Valid()
      modifies this
      ensures Valid() && View() == Step(old(View()), A.ManualAppendReturned(m, ok))
      ensures r == (m == old(mutation) && ManualCurrent(old(View()), Appending) && ok)
    {
      if m != mutation || !(manual.mutation != 0 && manual.mutation == mutation && manual.phase.Appending?) { return false; }
      manual := manual.(phase := if ok then AwaitingStartReturn else Unknown);
      return ok;
    }

    method ManualProcessReturned(m: nat, ok: bool) returns (r: bool)
      requires Valid()
      modifies this, records
      ensures Valid() && View() == Step(old(View()), A.ManualProcessReturned(m, ok))
      ensures r == (m == old(mutation) && ManualCurrent(old(View()), AwaitingStartReturn) && ok)
    {
      if m != mutation || !(manual.mutation != 0 && manual.mutation == mutation && manual.phase.AwaitingStartReturn?) { return false; }
      manual := manual.(phase := Unknown);
      if !ok { return false; }
      RelinquishManual();
      return true;
    }

    method ManualDirectReturned(identity: Identity, power: nat, ok: bool) returns (r: bool)
      requires Valid()
      modifies this, records
      ensures Valid() && View() == Step(old(View()), A.ManualDirectReturned(identity, power, ok))
      ensures r == (ok && ManualCurrent(old(View()), AwaitingStart) && old(manual).identity == identity && old(manual).power == power)
    {
      if !ok || !(manual.mutation != 0 && manual.mutation == mutation && manual.phase.AwaitingStart?)
         || manual.identity != identity || manual.power != power { return false; }
      manual := manual.(phase := Unknown);
      RelinquishManual();
      return true;
    }

    /** Scan for the one queued record the start message can belong to. */
    method Scan(identity: Identity, power: nat) returns (found: nat, ambiguous: bool)
      requires Valid()
      modifies records
      ensures records[..] == UnqueuedForgotten(old(View()), identity, power)
      ensures found == LastHit(old(View()), identity, power, SLOTS)
      ensures ambiguous == (Hits(old(View()), identity, power, SLOTS) > 1)
    {
      found, ambiguous := SLOTS, false;
      for i := 0 to SLOTS
        invariant forall j :: 0 <= j < SLOTS ==>
                    records[j] == if j < i then UnqueuedForgotten(old(View()), identity, power)[j] else old(records[j])
        invariant found == LastHit(old(View()), identity, power, i)
        invariant ambiguous == (Hits(old(View()), identity, power, i) > 1)
        invariant found == SLOTS <==> Hits(old(View()), identity, power, i) == 0
      {
        var r := records[i];
        var direct := r.phase.Active? && r.origin.FromSelfPower? && r.ownedFollowup
                      && current.index == i && current.ticket == r.ticket && current.mutation + 1 == mutation;
        if r.identity == identity && r.power == power && (r.phase.AwaitingStart? || direct) {
          if !r.queued {
            records[i] := Forget(r);
          } else {
            if found != SLOTS { ambiguous := true; }
            found := i;
          }
        }
      }
    }

    method ForgetAmbiguous(identity: Identity, power: nat)
      requires Valid()
      modifies records
      ensures records[..] == Ambiguous(old(records[..]), identity, power)
    {
      for i := 0 to SLOTS
        invariant forall j :: 0 <= j < SLOTS ==>
                    records[j] == if j < i then AmbiguousRecord(old(records[j]), identity, power) else old(records[j])
      {
        if records[i].identity == identity && records[i].power == power && !Terminal(records[i].phase) {
          records[i] := Forget(records[i]);
        }
      }
    }

    method BeginStart(identity: Identity, power: nat, at: Frame) returns (t: Token)
      requires Valid()
      modifies this, records
      ensures Valid() && View() == Step(old(View()), A.BeginStart(identity, power, at))
      ensures t == Issued(old(View()), View())
    {
      if !(A.Valid(bound) && bound.actor == identity.actor) { return NO_TOKEN; }
      var ok := Advance();
      if !ok { return NO_TOKEN; }
      hide LastHit, Hits, Hit, Startable, Invalidated, UnqueuedForgotten, Ambiguous;
      var found, ambiguous := Scan(identity, power);
      InvalidateActive(identity.actor);
      ghost var rs := records[..];
      if ambiguous {
        ForgetAmbiguous(identity, power);
        return NO_TOKEN;
      }
      if found == SLOTS || !Whole(at) { return NO_TOKEN; }
      frame := at;
      records[found] := records[found].(phase := SettingState);
      current := Token(mutation, records[found].ticket, found);
      assert records[..] == rs[found := rs[found].(phase := SettingState)];
      return current;
    }

    method StateReturned(t: Token, ok: bool) returns (r: bool)
      requires Valid()
      modifies records
      ensures View() == Step(old(View()), A.StateReturned(t, ok)) && r == (Current(old(View()), t, SettingState) && ok)
    {
      r := Settle(t, SettingState, AwaitingAppend, ok);
    }

    method BeginAppend(identity: Identity, power: nat, at: Frame) returns (t: Token)
      requires Valid()
      modifies this, records
      ensures Valid() && View() == Step(old(View()), A.BeginAppend(identity, power, at))
      ensures t == Issued(old(View()), View())
    {
      var found := Find(current, AwaitingAppend);
      if !(found && records[current.index].identity == identity && records[current.index].power == power && frame == at) {
        OtherActivity(identity.actor);
        return NO_TOKEN;
      }
      t := Enter(Appending);
    }

    method AppendReturned(t: Token, ok: bool) returns (r: bool)
      requires Valid()
      modifies records
      ensures View() == Step(old(View()), A.AppendReturned(t, ok)) && r == (Current(old(View()), t, Appending) && ok)
    {
      r := Settle(t, Appending, AwaitingStartReturn, ok);
    }

    method StartProcessReturned(t: Token, ok: bool) returns (r: bool)
      requires Valid()
      modifies records
      ensures View() == Step(old(View()), A.StartProcessReturned(t, ok)) && r == (Current(old(View()), t, AwaitingStartReturn) && ok)
    {
      r := Settle(t, AwaitingStartReturn, Active, ok);
    }

    method BeginMovement(identity: Identity) returns (t: Token)
      requires Valid()
      modifies this, records
      ensures Valid() && View() == Step(old(View()), A.BeginMovement(identity))
      ensures t == Issued(old(View()), View())
    {
      var found := Find(current, Active);
      if !(found && records[current.index].identity == identity) {
        OtherActivity(identity.actor);
        return NO_TOKEN;
      }
      t := Enter(Moving);
    }

    method MovementReturned(t: Token, ok: bool) returns (r: bool)
      requires Valid()
      modifies records
      ensures View() == Step(old(View()), A.MovementReturned(t, ok)) && r == (Current(old(View()), t, Moving) && ok)
    {
      r := Settle(t, Moving, Interrupted, ok);
    }

    method BeginCompletion(identity: Identity, power: nat, at: Frame) returns (t: Token)
      requires Valid()
      modifies this, records
      ensures Valid() && View() == Step(old(View()), A.BeginCompletion(identity, power, at))
      ensures t == Issued(old(View()), View())
    {
      var found := Find(current, Active);
      if !found || records[current.index].identity != identity || records[current.index].power != power || !Whole(at) {
        OtherActivity(identity.actor);
        return NO_TOKEN;
      }
      t := Enter(CompletingState);
      if t == NO_TOKEN { return; }
      frame := at;
    }

    method CompletionStateReturned(t: Token, ok: bool) returns (r: bool)
      requires Valid()
      modifies records
      ensures View() == Step(old(View()), A.CompletionStateReturned(t, ok)) && r == (Current(old(View()), t, CompletingState) && ok)
    {
      r := Settle(t, CompletingState, AwaitingFirstRemoval, ok);
    }

    method BeginRemoval(identity: Identity, power: nat, at: Frame, final: bool) returns (t: Token)
      requires Valid()
      modifies this, records
      ensures Valid() && View() == Step(old(View()), A.BeginRemoval(identity, power, at, final))
      ensures t == Issued(old(View()), View())
    {
      var found := Find(current, if final then AwaitingTailRemoval else AwaitingFirstRemoval);
      if !found || records[current.index].identity != identity || records[current.index].power != power || frame != at {
        OtherActivity(identity.actor);
        return NO_TOKEN;
      }
      t := Enter(if final then RemovingTail else RemovingFirst);
    }

    method RemovalReturned(t: Token, final: bool, ok: bool) returns (r: bool)
      requires Valid()
      modifies records
      ensures View() == Step(old(View()), A.RemovalReturned(t, final, ok))
      ensures r == (Current(old(View()), t, if final then RemovingTail else RemovingFirst) && ok)
    {
      if final { r := Settle(t, RemovingTail, AwaitingProcessReturn, ok); }
      else { r := Settle(t, RemovingFirst, AwaitingTailRemoval, ok); }
    }

    method CompletionProcessReturned(t: Token, ok: bool) returns (r: bool)
      requires Valid()
      modifies records
      ensures View() == Step(old(View()), A.CompletionProcessReturned(t, ok)) && r == (Current(old(View()), t, AwaitingProcessReturn) && ok)
    {
      r := Settle(t, AwaitingProcessReturn, Completed, ok);
    }

    // ----- queries -----

    /** After any run: true exactly for a power of one's own, under that ticket and identity,
        that the log shows interrupted by movement. */
    method LocalInterrupted(slot: nat, ticket: nat, identity: Identity) returns (r: bool)
      requires Valid()
      ensures r <==> InterruptedLocally(View(), slot, ticket, identity)
      ensures forall es :: View() == T.Run(Initial(), es) ==>
                (r <==> OwnPower(View(), slot, ticket, identity) && T.WasInterrupted(T.Log(Initial(), es, slot), ticket))
    {
      forall es | View() == T.Run(Initial(), es) && OwnPower(View(), slot, ticket, identity)
        ensures InterruptedLocally(View(), slot, ticket, identity) <==> T.WasInterrupted(T.Log(Initial(), es, slot), ticket)
      {
        T.InterruptedExactly(es, slot, ticket, identity);
      }
      hide T.WasInterrupted, T.Log, T.Run;
      if slot >= SLOTS || ticket == 0 { return false; }
      var rec := records[slot];
      return rec.ticket == ticket && rec.identity == identity && rec.queued && rec.phase.Interrupted?
             && rec.origin.FromSelfPower? && rec.ownedFollowup;
    }

    /** After any run: true exactly for a power of one's own, under that ticket and identity,
        that was completed or interrupted in sequence, or given up to a manual start. */
    method LocalTerminal(slot: nat, ticket: nat, identity: Identity) returns (r: bool)
      requires Valid()
      ensures r <==> OverLocally(View(), slot, ticket, identity)
      ensures forall es :: View() == T.Run(Initial(), es) ==>
                (r <==> && OwnPower(View(), slot, ticket, identity)
                        && (|| T.WasCompleted(T.Log(Initial(), es, slot), ticket)
                            || T.WasInterrupted(T.Log(Initial(), es, slot), ticket)
                            || T.GivenUp(es, slot, ticket)))
    {
      forall es | View() == T.Run(Initial(), es) && OwnPower(View(), slot, ticket, identity)
        ensures OverLocally(View(), slot, ticket, identity) <==>
                || T.WasCompleted(T.Log(Initial(), es, slot), ticket)
                || T.WasInterrupted(T.Log(Initial(), es, slot), ticket)
                || T.GivenUp(es, slot, ticket)
      {
        T.OverExactly(es, slot, ticket, identity);
      }
      hide T.WasCompleted, T.WasInterrupted, T.GivenUp, T.Log, T.Run;
      if slot >= SLOTS || ticket == 0 { return false; }
      var rec := records[slot];
      return rec.ticket == ticket && rec.identity == identity && rec.queued && rec.ownedFollowup
             && rec.origin.FromSelfPower? && (Terminal(rec.phase) || rec.relinquished);
    }
  }
}
