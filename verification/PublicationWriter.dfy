/** The writer as the program keeps it: counters and the last facts in fields, the two
    slots overwritten in place, one store at a time. */
module PublicationWriter {
  import opened PublicationFrame
  import opened P = Publication
  import opened Wrappers

  class Writer {
    var open: bool
    var active: int
    var frames: array<Slot>
    var revision: nat
    var writes: nat
    var admission: nat
    var last: Option<Slot>
    var eligibility: Option<Frame>
    var faulted: bool
    /** What a reader of the present mapping could have seen, store by store. */
    ghost var seen: seq<Memory>

    ghost predicate Valid()
      reads this
    {
      frames.Length == 2
    }

    ghost function Visible(): Memory
      reads this, frames
    {
      Memory(active, frames[..])
    }

    ghost function View(): P.Writer
      reads this, frames
    {
      P.Writer(open, Visible(), revision, writes, admission, last, eligibility, faulted)
    }

    constructor ()
      ensures Valid() && fresh(frames) && View() == INITIAL && seen == [BLANK]
    {
      frames := new Slot[2](i => Slot(0, EMPTY));
      open, active, revision, writes, admission, last, eligibility, faulted := false, -1, 0, 0, 0, None, None, false;
      seen := [BLANK];
      new;
      assert frames[..] == BLANK.slots;
    }

    method Deactivate()
      requires Valid()
      modifies this`active
      ensures active == if open then -1 else old(active)
    {
      if open { active := -1; }
    }

    method Close()
      requires Valid()
      modifies this
      ensures Valid() && frames == old(frames) && View() == Step(old(View()), P.Close)
    {
      Deactivate();
      open, last, eligibility := false, None, None;
    }

    /** A new mapping is blank; the counters start no lower than the floors. */
    method Open(mapped: bool, revisionFloor: nat, admissionFloor: nat) returns (ok: bool)
      requires Valid()
      modifies this
      ensures Valid() && View() == Step(old(View()), P.Open(mapped, revisionFloor, admissionFloor)) && ok == open
      ensures ok ==> fresh(frames) && seen == [BLANK]
    {
      if !open && !faulted && revisionFloor < LIMIT && admissionFloor < LIMIT && mapped {
        frames := new Slot[2](i => Slot(0, EMPTY));
        assert frames[..] == BLANK.slots;
        open, active := true, -1;
        seen := [BLANK];
        if revision < revisionFloor { revision := revisionFloor; }
        if admission < admissionFloor { admission := admissionFloor; }
        return true;
      }
      Close();
      return false;
    }

    method TrackAdmission(facts: Frame) returns (ok: bool)
      requires Valid()
      modifies this
      ensures Valid() && frames == old(frames) && seen == old(seen)
      ensures View() == Tracked(old(View()), facts) && ok == TrackOk(old(View()), facts)
    {
      if eligibility.None? || !SameEligibility(eligibility.value, facts) {
        if admission == LIMIT {
          faulted := true;
          Deactivate();
          return false;
        }
        admission := admission + 1;
        eligibility := Some(facts);
      }
      return true;
    }

    method ObserveAdmission(blocks: nat) returns (ok: bool)
      requires Valid()
      modifies this
      ensures Valid() && View() == Step(old(View()), P.ObserveAdmission(blocks))
      ensures ok == (old(open) && !old(faulted) && old(eligibility).Some? && old(eligibility).value.complete && 1 <= blocks <= 63
                     && TrackOk(old(View()), old(eligibility).value.(blocks := blocks)))
      ensures ok ==> !faulted && eligibility.Some? && eligibility.value.blocks == blocks
    {
      if !open || faulted || eligibility.None? || !eligibility.value.complete || blocks == 0 || blocks > 63 { return false; }
      ok := TrackAdmission(eligibility.value.(blocks := blocks));
    }

    method InvalidateAdmission() returns (ok: bool)
      requires Valid()
      modifies this
      ensures Valid() && View() == Step(old(View()), P.InvalidateAdmission)
      ensures ok == (old(open) && !old(faulted) && TrackOk(old(View()), EMPTY))
    {
      if !open || faulted { return false; }
      ok := TrackAdmission(EMPTY);
    }

    /** The four stores of a publication. */
    method Write(slot: nat, next: Slot)
      requires Valid() && slot == Target(Visible()) && next.sequence > 0
      modifies this`active, this`seen, frames
      ensures Valid() && frames == old(frames)
      ensures Visible() == Put(old(Visible()), next).(active := slot)
      ensures seen == old(seen) + Stores(old(Visible()), next, [])
    {
      frames[slot] := Slot(next.sequence - 1, frames[slot].frame);
      seen := seen + [Visible()];
      frames[slot] := Slot(next.sequence - 1, next.frame);
      seen := seen + [Visible()];
      frames[slot] := next;
      seen := seen + [Visible()];
      active := slot;
      seen := seen + [Visible()];
      ghost var m := old(Visible());
      assert frames[..] == m.slots[slot := next];
      assert m.slots[slot := Slot(next.sequence - 1, m.slots[slot].frame)][slot := Slot(next.sequence - 1, next.frame)]
          == m.slots[slot := Slot(next.sequence - 1, next.frame)];
    }

    /** The facts under a revision: the last one if they are the same, otherwise a new one. */
    method Stamp(facts: Frame, random: Option<nat>, tick: nat) returns (next: Frame, ok: bool)
      requires Valid()
      modifies this`revision
      ensures var e, u := P.Publish(facts, random, tick, []), old(View());
              && ok == (Repeats(u, facts) || (u.revision != LIMIT && random.Some?))
              && (ok ==> next == Stamped(u, e) && revision == if Repeats(u, facts) then u.revision else u.revision + 1)
              && (!ok ==> revision == u.revision)
    {
      next, ok := facts.(admission := admission), true;
      if last.None? || !Same(last.value.frame, next) {
        if revision == LIMIT || random.None? {
          ok := false;
        } else {
          revision := revision + 1;
          next := next.(revision := revision, snapshot := random.value);
        }
      } else {
        next := next.(revision := last.value.frame.revision, snapshot := last.value.frame.snapshot);
      }
      next := next.(tick := tick);
    }

    method Publish(facts: Frame, random: Option<nat>, tick: nat) returns (ok: bool)
      requires Valid()
      modifies this, frames
      ensures Valid() && frames == old(frames) && View() == Step(old(View()), P.Publish(facts, random, tick, []))
      ensures ok == (Publishable(old(View()), P.Publish(facts, random, tick, [])) && Succeeds(old(View()), P.Publish(facts, random, tick, [])))
      ensures ok ==> seen == old(seen) + Memories(old(View()), P.Publish(facts, random, tick, []))
    {
      hide Facts, Same, SameEligibility, Stores, Put;
      if !open || faulted { return false; }
      if !Facts(facts) || writes == LIMIT {
        faulted := true;
        Deactivate();
        return false;
      }
      var tracked := TrackAdmission(facts);
      ghost var e, u := P.Publish(facts, random, tick, []), View();
      assert u == Tracked(old(View()), facts) && (tracked ==> u.memory == old(Visible()) && u.writes == old(writes) && u.last == old(last));
      var next, stamped := Stamp(facts, random, tick);
      ok := tracked && stamped;
      if ok {
        hide Stamped, Repeats, Tracked;
        var slot := if active == 0 then 1 else 0;
        writes := writes + 1;
        Write(slot, Slot(2 * writes, next));
        last := Some(Slot(2 * writes, next));
      } else {
        faulted := true;
        Deactivate();
      }
    }

    /** A failed capture publishes that nothing is known, and never a zero reason. */
    method Unknown(reason: nat, random: Option<nat>, tick: nat) returns (ok: bool)
      requires Valid()
      modifies this, frames
      ensures Valid() && frames == old(frames)
      ensures reason == 0 ==> !ok && View() == old(View())
      ensures reason != 0 ==> View() == Step(old(View()), P.Publish(EMPTY.(unknown := reason), random, tick, []))
      ensures ok == (reason != 0 && var e := P.Publish(EMPTY.(unknown := reason), random, tick, []); Publishable(old(View()), e) && Succeeds(old(View()), e))
      ensures ok ==> last.Some? && !last.value.frame.complete && last.value.frame.unknown == reason && last.value.frame.readiness == []
    {
      if reason == 0 { return false; }
      hide Facts, Same, SameEligibility, Stores;
      ok := Publish(EMPTY.(unknown := reason), random, tick);
    }

    /** The frame the writer stands by, and whether a reader would accept it: after any run the
        last one published, in force under the active index. */
    method Current() returns (frame: Slot, ok: bool)
      requires Valid()
      ensures ok <==> P.Current(View()).Some? && P.Valid(P.Current(View()).value)
      ensures frame == if P.Current(View()).Some? then P.Current(View()).value else Slot(0, EMPTY)
      ensures forall es :: View() == P.Run(es) && P.Current(View()).Some? ==>
                && P.Frames(es) != [] && frame == P.Frames(es)[|P.Frames(es)| - 1] && 0 <= active <= 1 && frame == frames[active]
                && (ok <==> frame.frame.snapshot != 0 && frame.frame.tick != 0)
    {
      forall es | View() == P.Run(es) && P.Current(View()).Some?
        ensures var s, ps := P.Current(View()).value, P.Frames(es);
                && ps != [] && s == ps[|ps| - 1] && 0 <= active <= 1 && s == frames[active]
                && (P.Valid(s) <==> s.frame.snapshot != 0 && s.frame.tick != 0)
      {
        P.CurrentIsLast(es);
      }
      hide Facts, P.Run, P.Frames;
      if !open || last.None? || faulted { return Slot(0, EMPTY), false; }
      frame := last.value;
      ok := frame.sequence > 0 && frame.sequence % 2 == 0 && frame.frame.revision != 0 && frame.frame.admission != 0
            && frame.frame.snapshot != 0 && frame.frame.tick != 0 && Facts(frame.frame);
    }
  }
}
