/** The application journal of one actor lifetime: thirty-two slots, each holding what is
    known of one submitted application until both its local and its remote side are settled. */
module Journal {
  import opened Coverage
  import opened Wrappers

  const CAPACITY: nat := 32

  datatype Entry = NeverEntered | Entered | Uncertain
  datatype Progress = Nothing | Pending | Observed | Interrupted

  /** Digests are naturals here, zero being the all-zero one. */
  datatype Application = Application(
    intent: nat, command: nat, submitted: nat, observed: nat, entry: Entry, state: Progress,
    reserved: bool, settled: bool, queued: bool, covered: seq<Deadline>)

  datatype Journal = Journal(records: seq<Application>, faulted: bool)

  datatype Event =
    | Reserve(intent: nat, command: nat, revision: nat, deadlines: seq<Deadline>)
    | Record(index: nat, command: nat, entry: Entry, queued: bool, settled: bool)
    | Interrupt(index: nat, command: nat, submitted: nat, observation: nat)
    | Observe(intent: nat, revision: nat, complete: bool, present: bool, deadlines: seq<Deadline>)

  const VACANT := Application(0, 0, 0, 0, NeverEntered, Nothing, false, false, false, [])

  function Initial(): Journal { Journal(seq(CAPACITY, i => VACANT), false) }

  /** Still owed something: a local settlement, or an answer from the server. */
  predicate Owed(r: Application) { r.reserved && (!r.settled || r.state.Pending?) }

  predicate Blocks(r: Application, intent: nat, command: nat) {
    r.reserved && (r.command == command || (r.intent == intent && Owed(r)))
  }

  /** The first slot below n that may be reused, or n. */
  function Free(rs: seq<Application>): (i: nat)
    ensures i <= |rs| && (i < |rs| ==> !Owed(rs[i])) && forall j :: 0 <= j < i ==> Owed(rs[j])
  {
    if rs == [] || !Owed(rs[0]) then 0 else 1 + Free(rs[1..])
  }

  /** The slot a reservation gets, if any. */
  function Granted(j: Journal, intent: nat, command: nat, revision: nat, deadlines: seq<Deadline>): Option<nat> {
    if Baseline(deadlines).None? || j.faulted || intent == 0 || command == 0 || revision == 0 then None
    else if exists r :: r in j.records && Blocks(r, intent, command) then None
    else if Free(j.records) < |j.records| then Some(Free(j.records)) else None
  }

  predicate Exact(j: Journal, index: nat, command: nat) {
    index < |j.records| && j.records[index].reserved && j.records[index].command == command
  }

  /** A report that takes back something already recorded. */
  predicate Contradicts(r: Application, entry: Entry, queued: bool, settled: bool) {
    || (queued && !entry.Entered?) || (r.queued && !queued)
    || (!r.entry.NeverEntered? && entry.NeverEntered?) || (r.settled && !settled)
  }

  function Recorded(r: Application, entry: Entry, queued: bool, settled: bool): Application {
    r.(entry := if r.entry.Entered? then r.entry else entry,
       queued := r.queued || queued, settled := r.settled || settled,
       state := if !entry.NeverEntered? && !r.state.Observed? && !r.state.Interrupted? then Pending else r.state)
  }

  predicate Interruptible(j: Journal, index: nat, command: nat, submitted: nat, observation: nat) {
    && !j.faulted && Exact(j, index, command)
    && j.records[index].submitted == submitted < observation && j.records[index].queued && j.records[index].entry.Entered?
  }

  predicate Confirms(r: Application, intent: nat, revision: nat, deadlines: seq<Deadline>) {
    r.reserved && r.intent == intent && r.state.Pending? && revision > r.submitted && Advanced(r.covered, deadlines)
  }

  function ObservedRecord(r: Application, intent: nat, revision: nat, deadlines: seq<Deadline>): Application {
    if Confirms(r, intent, revision, deadlines) then r.(state := Observed, observed := revision) else r
  }

  function Step(j: Journal, e: Event): (k: Journal)
    ensures |k.records| == |j.records|
  {
    match e
    case Reserve(intent, command, revision, deadlines) =>
      (match Granted(j, intent, command, revision, deadlines)
       case None => j
       case Some(i) => j.(records := j.records[i := Application(intent, command, revision, 0, NeverEntered, Nothing,
                                                              true, false, false, Baseline(deadlines).value)]))
    case Record(index, command, entry, queued, settled) =>
      if !Exact(j, index, command) || Contradicts(j.records[index], entry, queued, settled) then j.(faulted := true)
      else j.(records := j.records[index := Recorded(j.records[index], entry, queued, settled)])
    case Interrupt(index, command, submitted, observation) =>
      if Interruptible(j, index, command, submitted, observation) && j.records[index].state.Pending?
      then j.(records := j.records[index := j.records[index].(state := Interrupted, observed := observation)])
      else j
    case Observe(intent, revision, complete, present, deadlines) =>
      if j.faulted || intent == 0 || revision == 0 || !complete || !present then j
      else j.(records := seq(|j.records|, i requires 0 <= i < |j.records| =>
                               ObservedRecord(j.records[i], intent, revision, deadlines)))
  }

  function Run(j: Journal, es: seq<Event>): (k: Journal)
    ensures |k.records| == |j.records|
    decreases |es|
  {
    if es == [] then j else Step(Run(j, es[..|es| - 1]), es[|es| - 1])
  }

  // ----- what every reachable journal keeps -----

  predicate RecordOk(r: Application) {
    && r.intent != 0 && r.command != 0 && r.submitted != 0
    && (r.queued ==> r.entry.Entered?)
    && (r.state.Nothing? <==> r.entry.NeverEntered?)
    && (r.state.Observed? || r.state.Interrupted? ==> r.observed > r.submitted)
    && (r.state.Interrupted? ==> r.queued)
    && (r.state.Nothing? || r.state.Pending? ==> r.observed == 0)
  }

  predicate Inv(j: Journal) {
    && |j.records| == CAPACITY
    && (forall i :: 0 <= i < CAPACITY && j.records[i].reserved ==> RecordOk(j.records[i]))
    && (forall i, k :: 0 <= i < k < CAPACITY && j.records[i].reserved && j.records[k].reserved ==>
          j.records[i].command != j.records[k].command)
  }

  lemma StepKeeps(j: Journal, e: Event)
    requires Inv(j)
    ensures Inv(Step(j, e))
  {
    hide Baseline, Advanced;
    if e.Reserve? && Granted(j, e.intent, e.command, e.revision, e.deadlines).Some? {
      assert forall i :: 0 <= i < CAPACITY ==> !Blocks(j.records[i], e.intent, e.command);
    }
  }

  lemma {:induction false} RunKeeps(j: Journal, es: seq<Event>)
    requires Inv(j)
    ensures Inv(Run(j, es))
    decreases |es|
  {
    hide Inv, Step;
    if es != [] {
      RunKeeps(j, es[..|es| - 1]);
      StepKeeps(Run(j, es[..|es| - 1]), es[|es| - 1]);
    }
  }

  // ----- the published application records -----

  /** One record as it is published: entry and progress by number. */
  datatype Published = Published(
    intent: nat, command: nat, submitted: nat, observed: nat, entry: nat, state: nat, settled: nat, queued: nat)

  function Encoded(r: Application): Published {
    Published(r.intent, r.command, r.submitted, r.observed,
      match r.entry { case NeverEntered => 0 case Entered => 1 case Uncertain => 2 },
      match r.state { case Nothing => 0 case Pending => 1 case Observed => 2 case Interrupted => 3 },
      if r.settled then 1 else 0, if r.queued then 1 else 0)
  }

  /** The reserved records, in slot order. */
  function Applications(rs: seq<Application>): seq<Published> {
    if rs == [] then []
    else Applications(rs[..|rs| - 1]) + if rs[|rs| - 1].reserved then [Encoded(rs[|rs| - 1])] else []
  }

  predicate PublishedOk(a: Published) {
    && a.intent != 0 && a.command != 0 && a.submitted != 0 && a.entry <= 2 && a.state <= 3 && a.settled <= 1 && a.queued <= 1
    && !(a.queued != 0 && a.entry != 1)
    && !(a.state == 1 && a.entry == 0)
    && !((a.state == 2 || a.state == 3) && (a.entry == 0 || a.observed <= a.submitted))
    && !(a.state == 3 && (a.queued == 0 || a.entry != 1))
    && !(a.state < 2 && a.observed != 0)
  }

  /** What the publication demands of the applications in a frame. */
  predicate ApplicationsOk(ps: seq<Published>) {
    && |ps| <= 32
    && forall i :: 0 <= i < |ps| ==> PublishedOk(ps[i]) && forall j :: 0 <= j < i ==> ps[j].command != ps[i].command
  }

  lemma {:induction false} EncodedAreOk(rs: seq<Application>)
    requires forall i :: 0 <= i < |rs| && rs[i].reserved ==> RecordOk(rs[i])
    requires forall i, k :: 0 <= i < k < |rs| && rs[i].reserved && rs[k].reserved ==> rs[i].command != rs[k].command
    ensures |Applications(rs)| <= |rs|
    ensures forall p :: p in Applications(rs) ==> exists i :: 0 <= i < |rs| && rs[i].reserved && p == Encoded(rs[i])
    ensures forall i :: 0 <= i < |Applications(rs)| ==>
              PublishedOk(Applications(rs)[i]) && forall j :: 0 <= j < i ==> Applications(rs)[j].command != Applications(rs)[i].command
    decreases |rs|
  {
    if rs != [] {
      var n := |rs| - 1;
      EncodedAreOk(rs[..n]);
      forall p | p in Applications(rs) ensures exists i :: 0 <= i < |rs| && rs[i].reserved && p == Encoded(rs[i]) {
        if p in Applications(rs[..n]) {
          var i :| 0 <= i < n && rs[..n][i].reserved && p == Encoded(rs[..n][i]);
          assert p == Encoded(rs[i]);
        } else {
          assert p == Encoded(rs[n]);
        }
      }
      if rs[n].reserved {
        var ps := Applications(rs[..n]);
        forall p | p in ps ensures p.command != rs[n].command {
          var i :| 0 <= i < n && rs[..n][i].reserved && p == Encoded(rs[..n][i]);
          assert rs[i].command != rs[n].command;
        }
        assert forall j :: 0 <= j < |ps| ==> ps[j] in ps;
        assert PublishedOk(Encoded(rs[n])) && Applications(rs) == ps + [Encoded(rs[n])];
      }
    }
  }

  /** Every journal that can be reached is publishable. */
  lemma ReachableIsPublishable(es: seq<Event>)
    ensures ApplicationsOk(Applications(Run(Initial(), es).records))
  {
    assert Inv(Initial());
    RunKeeps(Initial(), es);
    EncodedAreOk(Run(Initial(), es).records);
  }

  // ----- nothing possible is lost -----

  /** Slot i holds this command, recorded as possibly entered. */
  predicate Possible(j: Journal, i: nat, intent: nat, command: nat) {
    && i < |j.records| && j.records[i].reserved && j.records[i].command == command && j.records[i].intent == intent
    && !j.records[i].entry.NeverEntered?
  }

  /** Both sides of it are settled. */
  predicate Discharged(r: Application) { r.settled && (r.state.Observed? || r.state.Interrupted?) }

  lemma StillPossible(j: Journal, e: Event, i: nat, intent: nat, command: nat)
    requires Inv(j) && Possible(j, i, intent, command) && !Discharged(j.records[i])
    ensures Possible(Step(j, e), i, intent, command)
  {
    hide Baseline, Advanced;
    assert Owed(j.records[i]);
  }

  /** From the moment a record may have been entered, its slot keeps it through any calls
      whatever, until it has been both locally settled and observed or interrupted; and
      all that while its intent cannot be reserved again. */
  lemma {:induction false} NeverLost(j: Journal, es: seq<Event>, i: nat, intent: nat, command: nat)
    requires Inv(j) && Possible(j, i, intent, command)
    requires forall n :: 0 <= n <= |es| && Possible(Run(j, es[..n]), i, intent, command) ==> !Discharged(Run(j, es[..n]).records[i])
    ensures Possible(Run(j, es), i, intent, command)
    ensures forall c, revision, ds :: Granted(Run(j, es), intent, c, revision, ds).None?
    decreases |es|
  {
    hide Step, Inv, Discharged, Granted;
    var n := |es| - 1;
    assert es[..|es|] == es;
    if es != [] {
      var fs := es[..n];
      forall m | 0 <= m <= |fs| && Possible(Run(j, fs[..m]), i, intent, command)
        ensures !Discharged(Run(j, fs[..m]).records[i])
      {
        assert fs[..m] == es[..m];
      }
      NeverLost(j, fs, i, intent, command);
      assert fs[..n] == fs;
      RunKeeps(j, fs);
      StillPossible(Run(j, fs), es[n], i, intent, command);
    }
    RunKeeps(j, es);
    var k := Run(j, es);
    hide Run;
    PossibleBlocks(k, i, intent, command);
  }

  lemma PossibleBlocks(j: Journal, i: nat, intent: nat, command: nat)
    requires Inv(j) && Possible(j, i, intent, command) && !Discharged(j.records[i])
    ensures forall c, revision, ds :: Granted(j, intent, c, revision, ds).None?
  {
    forall c, revision, ds ensures Granted(j, intent, c, revision, ds).None? {
      hide Baseline;
      assert Blocks(j.records[i], intent, c);
      assert j.records[i] in j.records;
    }
  }

  /** What is recorded of a command only grows while its slot holds it. */
  lemma EvidenceGrows(j: Journal, e: Event, i: nat)
    requires Inv(j) && i < CAPACITY && j.records[i].reserved
    requires e.Reserve? ==> Granted(j, e.intent, e.command, e.revision, e.deadlines) != Some(i)
    ensures var r, s := j.records[i], Step(j, e).records[i];
            && s.intent == r.intent && s.command == r.command && s.submitted == r.submitted && s.covered == r.covered
            && (r.settled ==> s.settled) && (r.queued ==> s.queued)
            && (r.entry.Entered? ==> s.entry.Entered?) && (!r.entry.NeverEntered? ==> !s.entry.NeverEntered?)
            && (r.state.Observed? || r.state.Interrupted? ==> s.state == r.state && s.observed == r.observed)
            && (r.state.Pending? ==> !s.state.Nothing?)
  {
    hide Baseline, Advanced;
  }

  /** A reservation is granted exactly when nothing stands against it, and then it gets a
      slot whose record is owed nothing. */
  lemma GrantedExactly(j: Journal, intent: nat, command: nat, revision: nat, ds: seq<Deadline>)
    requires Inv(j)
    ensures Granted(j, intent, command, revision, ds).Some? <==>
            && !j.faulted && intent != 0 && command != 0 && revision != 0 && AllValid(ds) && |Descriptors(ds)| <= LIMIT
            && (forall i :: 0 <= i < CAPACITY && j.records[i].reserved ==>
                  j.records[i].command != command && (j.records[i].intent == intent ==> !Owed(j.records[i])))
            && (exists i :: 0 <= i < CAPACITY && !Owed(j.records[i]))
    ensures Granted(j, intent, command, revision, ds).Some? ==> !Owed(j.records[Granted(j, intent, command, revision, ds).value])
  {
    BaselineIsLatest(ds);
    hide Baseline, AllValid, Descriptors;
    var free := Free(j.records);
    assert free < CAPACITY <==> exists i :: 0 <= i < CAPACITY && !Owed(j.records[i]);
    if exists r :: r in j.records && Blocks(r, intent, command) {
      var r :| r in j.records && Blocks(r, intent, command);
      var i :| 0 <= i < CAPACITY && j.records[i] == r;
      assert j.records[i].reserved;
    } else {
      forall i | 0 <= i < CAPACITY && j.records[i].reserved
        ensures j.records[i].command != command && (j.records[i].intent == intent ==> !Owed(j.records[i]))
      {
        assert j.records[i] in j.records && !Blocks(j.records[i], intent, command);
      }
    }
  }

  // ----- renewals -----

  /** No call in es puts a new reservation into slot i. */
  predicate Undisturbed(j: Journal, es: seq<Event>, i: nat)
    decreases |es|
  {
    es == [] ||
    (Undisturbed(j, es[..|es| - 1], i)
     && var e, k := es[|es| - 1], Run(j, es[..|es| - 1]);
     e.Reserve? ==> Granted(k, e.intent, e.command, e.revision, e.deadlines) != Some(i))
  }

  lemma {:induction false} CoverageStands(j: Journal, es: seq<Event>, i: nat)
    requires Inv(j) && i < CAPACITY && j.records[i].reserved && Undisturbed(j, es, i)
    ensures Run(j, es).records[i].covered == j.records[i].covered && Run(j, es).records[i].reserved
    decreases |es|
  {
    if es != [] {
      var fs := es[..|es| - 1];
      CoverageStands(j, fs, i);
      RunKeeps(j, fs);
      hide Inv, Granted;
      Reservation(Run(j, fs), es[|es| - 1], i);
    }
  }

  lemma Reservation(j: Journal, e: Event, i: nat)
    requires Inv(j) && i < CAPACITY && j.records[i].reserved
    requires e.Reserve? ==> Granted(j, e.intent, e.command, e.revision, e.deadlines) != Some(i)
    ensures Step(j, e).records[i].covered == j.records[i].covered && Step(j, e).records[i].reserved
  {
    hide Baseline, Advanced;
  }

  /** An application becomes observed only by a complete, present and later observation of
      its intent in which every deadline given when it was reserved has been outlived. */
  lemma ObservedOnlyWhenRenewed(j: Journal, r: Event, es: seq<Event>, e: Event, i: nat)
    requires Inv(j) && r.Reserve? && Granted(j, r.intent, r.command, r.revision, r.deadlines) == Some(i)
    requires Undisturbed(Step(j, r), es, i)
    requires var k := Run(Step(j, r), es); !k.records[i].state.Observed? && Step(k, e).records[i].state.Observed?
    ensures e.Observe? && e.complete && e.present && e.intent == r.intent && e.revision > r.revision
    ensures forall v :: v in r.deadlines ==> Outlived(v, e.deadlines)
  {
    var a := Step(j, r);
    StepKeeps(j, r);
    assert i < CAPACITY && a.records[i].reserved && a.records[i].covered == Baseline(r.deadlines).value
           && a.records[i].intent == r.intent && a.records[i].submitted == r.revision by { hide Baseline; }
    CoverageStands(a, es, i);
    NamesStand(a, es, i);
    var k := Run(a, es);
    AdvancedIsLater(r.deadlines, if e.Observe? then e.deadlines else []);
    hide Baseline, Advanced, Run, Undisturbed, Outlived;
    assert e.Observe? && Confirms(k.records[i], e.intent, e.revision, e.deadlines);
  }

  lemma {:induction false} NamesStand(j: Journal, es: seq<Event>, i: nat)
    requires Inv(j) && i < CAPACITY && j.records[i].reserved && Undisturbed(j, es, i)
    ensures Run(j, es).records[i].intent == j.records[i].intent && Run(j, es).records[i].submitted == j.records[i].submitted
    decreases |es|
  {
    if es != [] {
      var fs := es[..|es| - 1];
      NamesStand(j, fs, i);
      CoverageStands(j, fs, i);
      RunKeeps(j, fs);
      EvidenceGrows(Run(j, fs), es[|es| - 1], i);
    }
  }
}

/** The journal as the program keeps it, its records updated in place. */
module ApplicationJournal {
  import opened Coverage
  import opened J = Journal
  import opened Wrappers

  class ApplicationJournal {
    const records: array<Application>
    var faulted: bool

    ghost predicate Valid()
      reads this
    {
      records.Length == CAPACITY
    }

    ghost function View(): J.Journal
      reads this, records
    {
      J.Journal(records[..], faulted)
    }

    constructor ()
      ensures Valid() && fresh(records) && View() == Initial()
    {
      records := new Application[CAPACITY](i => VACANT);
      faulted := false;
    }

    method Collect(deadlines: seq<Deadline>) returns (baseline: CoverageDeadlines, ok: bool)
      ensures baseline.Valid() && ok == Baseline(deadlines).Some? && (ok ==> baseline.View() == Baseline(deadlines).value)
    {
      baseline := new CoverageDeadlines();
      for i := 0 to |deadlines|
        invariant baseline.Valid() && fresh(baseline) && fresh(baseline.values)
        invariant Baseline(deadlines[..i]) == Some(baseline.View())
      {
        assert deadlines[..i + 1][..i] == deadlines[..i];
        ok := baseline.Add(deadlines[i].descriptor, deadlines[i].stamp);
        if !ok {
          RefusedStays(deadlines, i + 1);
          return;
        }
      }
      assert deadlines[..|deadlines|] == deadlines;
      ok := true;
    }

    static lemma {:induction false} RefusedStays(ds: seq<Deadline>, n: nat)
      requires n <= |ds| && Baseline(ds[..n]).None?
      ensures Baseline(ds).None?
      decreases |ds|
    {
      if n == |ds| {
        assert ds[..n] == ds;
      } else {
        assert ds[..|ds| - 1][..n] == ds[..n];
        RefusedStays(ds[..|ds| - 1], n);
      }
    }

    method Reserve(intent: nat, command: nat, revision: nat, deadlines: seq<Deadline>) returns (slot: nat)
      requires Valid()
      modifies records
      ensures View() == Step(old(View()), J.Reserve(intent, command, revision, deadlines))
      ensures match Granted(old(View()), intent, command, revision, deadlines) case None => slot == CAPACITY case Some(i) => slot == i
    {
      var baseline, ok := Collect(deadlines);
      hide Baseline;
      if !ok || faulted || intent == 0 || command == 0 || revision == 0 { return CAPACITY; }
      for i := 0 to CAPACITY
        invariant forall k :: 0 <= k < i ==> !Blocks(records[k], intent, command)
      {
        var r := records[i];
        if r.reserved && (r.command == command || (r.intent == intent && (!r.settled || r.state.Pending?))) {
          assert Blocks(records[i], intent, command) && records[i] in records[..];
          return CAPACITY;
        }
      }
      assert !exists r :: r in records[..] && Blocks(r, intent, command);
      for i := 0 to CAPACITY
        invariant forall k :: 0 <= k < i ==> Owed(records[k])
      {
        if !records[i].reserved || (records[i].settled && !records[i].state.Pending?) {
          assert Free(records[..]) == i;
          var covered := baseline.View();
          records[i] := Application(intent, command, revision, 0, NeverEntered, Nothing, true, false, false, covered);
          assert records[..] == old(records[..])[i := records[i]];
          return i;
        }
      }
      return CAPACITY;
    }

    method Record(index: nat, command: nat, entry: Entry, queued: bool, settled: bool) returns (ok: bool)
      requires Valid()
      modifies this, records
      ensures View() == Step(old(View()), J.Record(index, command, entry, queued, settled))
      ensures ok == (Exact(old(View()), index, command) && !Contradicts(old(View()).records[index], entry, queued, settled))
    {
      var exact := index < CAPACITY && records[index].reserved && records[index].command == command;
      if !exact || (queued && !entry.Entered?) || (records[index].queued && !queued)
         || (records[index].entry.Entered? && entry.NeverEntered?) || (records[index].entry.Uncertain? && entry.NeverEntered?)
         || (records[index].settled && !settled) {
        faulted := true;
        return false;
      }
      ghost var rs, r := records[..], records[index];
      if !records[index].entry.Entered? { records[index] := records[index].(entry := entry); }
      records[index] := records[index].(queued := records[index].queued || queued, settled := records[index].settled || settled);
      if !entry.NeverEntered? && !records[index].state.Observed? && !records[index].state.Interrupted? {
        records[index] := records[index].(state := Pending);
      }
      assert records[index] == Recorded(r, entry, queued, settled);
      assert records[..] == rs[index := records[index]];
      return true;
    }

    method Interrupt(index: nat, command: nat, submitted: nat, observation: nat) returns (ok: bool)
      requires Valid()
      modifies records
      ensures View() == Step(old(View()), J.Interrupt(index, command, submitted, observation))
      ensures ok == (Interruptible(old(View()), index, command, submitted, observation) && !old(records[index].state).Nothing?)
    {
      var exact := index < CAPACITY && records[index].reserved && records[index].command == command;
      if faulted || !exact || records[index].submitted != submitted || observation <= submitted
         || !records[index].queued || !records[index].entry.Entered? { return false; }
      if records[index].state.Observed? || records[index].state.Interrupted? { return true; }
      if !records[index].state.Pending? { return false; }
      records[index] := records[index].(state := Interrupted, observed := observation);
      assert records[..] == old(records[..])[index := records[index]];
      return true;
    }

    method HasAdvanced(baseline: seq<Deadline>, now: seq<Deadline>) returns (r: bool)
      ensures r == Advanced(baseline, now)
    {
      hide Binary64.Positive;
      for i := 0 to |baseline|
        invariant forall k :: 0 <= k < i ==> Renews(baseline[k], now)
      {
        var advanced := false;
        for k := 0 to |now|
          invariant !advanced
          invariant forall m :: 0 <= m < k ==>
                      !(now[m].descriptor == baseline[i].descriptor && Binary64.Positive(now[m].stamp) && now[m].stamp > baseline[i].stamp)
        {
          if now[k].descriptor == baseline[i].descriptor && Binary64.Positive(now[k].stamp) && now[k].stamp > baseline[i].stamp {
            advanced := true;
            assert now[k] in now;
            break;
          }
        }
        if !advanced {
          assert !Renews(baseline[i], now) && baseline[i] in baseline;
          return false;
        }
      }
      return true;
    }

    method Observe(intent: nat, revision: nat, complete: bool, present: bool, deadlines: seq<Deadline>) returns (ok: bool)
      requires Valid()
      modifies records
      ensures View() == Step(old(View()), J.Observe(intent, revision, complete, present, deadlines))
      ensures ok == (!faulted && intent != 0 && revision != 0)
    {
      hide Advanced;
      if faulted || intent == 0 || revision == 0 { return false; }
      if !complete || !present { return true; }
      for i := 0 to CAPACITY
        invariant forall k :: 0 <= k < CAPACITY ==>
                    records[k] == if k < i then ObservedRecord(old(records[k]), intent, revision, deadlines) else old(records[k])
      {
        if records[i].reserved && records[i].intent == intent && records[i].state.Pending? && revision > records[i].submitted {
          var advanced := HasAdvanced(records[i].covered, deadlines);
          if advanced { records[i] := records[i].(state := Observed, observed := revision); }
        }
      }
      return true;
    }

    /** An intent is pending exactly when some slot still owes something for it. */
    method IsPending(intent: nat) returns (r: bool)
      requires Valid()
      ensures r <==> exists i :: 0 <= i < CAPACITY && records[i].intent == intent && Owed(records[i])
    {
      for i := 0 to CAPACITY
        invariant forall k :: 0 <= k < i ==> !(records[k].intent == intent && Owed(records[k]))
      {
        if records[i].reserved && records[i].intent == intent && (!records[i].settled || records[i].state.Pending?) { return true; }
      }
      return false;
    }

    method LocalPending() returns (r: bool)
      requires Valid()
      ensures r <==> exists i :: 0 <= i < CAPACITY && records[i].reserved && !records[i].settled
    {
      for i := 0 to CAPACITY
        invariant forall k :: 0 <= k < i ==> !(records[k].reserved && !records[k].settled)
      {
        if records[i].reserved && !records[i].settled { return true; }
      }
      return false;
    }
  }
}
