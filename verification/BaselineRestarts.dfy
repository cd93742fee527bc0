/**
  Runs of the baseline engine across restarts. Snapshots are taken along the way; a restart starts a new engine
  from the last one and loses whatever happened since.
*/
module BaselineRestarts {
  import opened Options
  import opened BaselineModel
  import opened BaselineSpec
  import opened BaselineSnapshot
  import Accounting = BaselineAccounting
  import Reachable = BaselineReachable
  import Frozen = BaselineFrozen

  datatype LifeEvent =
    | Operate(e: Event)
    | Save(snapshot: Snapshot, at: Time)
    | Restart(at: Time)

  /** The state a snapshot was taken of, and when. */
  datatype Saved = Saved(snapshot: Snapshot, st: State, tally: Accounting.Tally, at: Time)

  /** `tally` counts what the surviving state has been through. */
  datatype Life = Life(st: State, tally: Accounting.Tally, saved: Option<Saved>)

  const BIRTH := Life(Initial(), Accounting.Tally(0, 0, 0), None)

  ghost predicate Legal(c: Config, l: Life, e: LifeEvent)
    requires ValidConfig(c)
  {
    match e
    case Operate(x) => BaselineSpec.Legal(c, l.st, x)
    case Save(snapshot, at) => IsSnapshot(c, l.st, at, snapshot)
    case Restart(_) => l.saved.Some?
  }

  ghost function Step(c: Config, l: Life, e: LifeEvent): Life
    requires ValidConfig(c)
  {
    match e
    case Operate(x) => l.(st := BaselineSpec.Step(c, l.st, x), tally := Accounting.TallyStep(c, l.st, l.tally, x))
    case Save(snapshot, at) => l.(saved := Some(Saved(snapshot, l.st, l.tally, at)))
    case Restart(at) =>
      if l.saved.None? then l
      else l.(st := Restored(c, Initial(), l.saved.value.snapshot, at), tally := l.saved.value.tally)
  }

  ghost function Run(c: Config, l: Life, es: seq<LifeEvent>): Life
    requires ValidConfig(c)
  {
    if es == [] then l else Step(c, Run(c, l, es[..|es|-1]), es[|es|-1])
  }

  ghost predicate LegalRun(c: Config, l: Life, es: seq<LifeEvent>)
    requires ValidConfig(c)
  {
    es != [] ==> LegalRun(c, l, es[..|es|-1]) && Legal(c, Run(c, l, es[..|es|-1]), es[|es|-1])
  }

  // ---------- What holds across restarts ----------

  ghost predicate Sound(c: Config, st: State, t: Accounting.Tally) {
    Reachable.Good(c, st) && Accounting.GaugesExact(st) && Accounting.Balanced(st, t) && Accounting.Bounded(c, st, t)
  }

  ghost predicate SoundLife(c: Config, l: Life)
    requires ValidConfig(c)
  {
    && Sound(c, l.st, l.tally)
    && (l.saved.Some? ==>
          Sound(c, l.saved.value.st, l.saved.value.tally) && IsSnapshot(c, l.saved.value.st, l.saved.value.at, l.saved.value.snapshot))
  }

  /** `b` holds what `a` held, except perhaps old failures. */
  ghost predicate Holds(a: State, b: State) {
    && b.shards == a.shards && b.assetShards == a.assetShards && b.candidates == a.candidates
    && (forall id :: id in b.failures ==> id in a.failures && b.failures[id] == a.failures[id])
    && b.profiles == a.profiles && b.assetProfiles == a.assetProfiles
    && b.observed == a.observed && b.dropped == a.dropped && b.excluded == a.excluded
  }

  lemma HoldsGood(c: Config, a: State, b: State)
    requires Reachable.Good(c, a) && Holds(a, b)
    ensures Reachable.Good(c, b)
  {
    hide Reachable.FlowsPlaced, Reachable.AssetsPlaced, Reachable.CandidatesGood;
  }

  lemma HoldsAccounts(c: Config, a: State, b: State, t: Accounting.Tally)
    requires Accounting.GaugesExact(a) && Accounting.Balanced(a, t) && Accounting.Bounded(c, a, t) && Holds(a, b)
    ensures Accounting.GaugesExact(b) && Accounting.Balanced(b, t) && Accounting.Bounded(c, b, t)
  {
    hide Entries, Accounting.RowsWithin, Capacity;
  }

  lemma RestoredHolds(c: Config, x: Saved, now: Time)
    requires ValidConfig(c) && Sound(c, x.st, x.tally) && IsSnapshot(c, x.st, x.at, x.snapshot)
    ensures Holds(x.st, Restored(c, Initial(), x.snapshot, now))
  {
    RestoreUndoesSnapshot(c, x.st, x.at, x.snapshot, Initial(), now);
    hide Restored, IsSnapshot, Sound, ModeAt;
  }

  lemma RestoredSound(c: Config, x: Saved, now: Time)
    requires ValidConfig(c) && Sound(c, x.st, x.tally) && IsSnapshot(c, x.st, x.at, x.snapshot)
    ensures Sound(c, Restored(c, Initial(), x.snapshot, now), x.tally)
  {
    hide Restored, IsSnapshot, Holds, Reachable.Good, Accounting.GaugesExact, Accounting.Balanced, Accounting.Bounded;
    RestoredHolds(c, x, now);
    HoldsGood(c, x.st, Restored(c, Initial(), x.snapshot, now));
    HoldsAccounts(c, x.st, Restored(c, Initial(), x.snapshot, now), x.tally);
  }

  lemma OperationSound(c: Config, st: State, t: Accounting.Tally, e: Event)
    requires ValidConfig(c) && Sound(c, st, t) && BaselineSpec.Legal(c, st, e)
    ensures Sound(c, BaselineSpec.Step(c, st, e), Accounting.TallyStep(c, st, t, e))
  {
    hide BaselineSpec.Step, BaselineSpec.Legal, Accounting.TallyStep, Reachable.Good, Accounting.GaugesExact,
         Accounting.Balanced, Accounting.Bounded;
    Reachable.StepGood(c, st, e);
    Accounting.StepGauge(c, st, e);
    Accounting.StepBalances(c, st, t, e);
    Accounting.StepBounded(c, st, t, e);
  }

  lemma BirthSound(c: Config)
    requires ValidConfig(c)
    ensures SoundLife(c, BIRTH)
  {
    hide Initial, IsSnapshot, Reachable.Good, Accounting.GaugesExact, Accounting.Balanced, Accounting.Bounded;
    Reachable.AlwaysGood(c, []);
    Accounting.GaugesAlwaysExact(c, []);
    Accounting.EveryObservationIsCounted(c, []);
    Accounting.TablesStayBounded(c, []);
  }

  /** However often the engine is restarted from its own snapshots: every profile and candidate stays consistent, both
      gauges equal their tables, every surviving observation is counted once, and the tables stay bounded. */
  lemma {:induction false} SoundAcrossRestarts(c: Config, es: seq<LifeEvent>)
    requires ValidConfig(c) && LegalRun(c, BIRTH, es)
    ensures SoundLife(c, Run(c, BIRTH, es))
  {
    hide Sound, IsSnapshot, BaselineSpec.Step, BaselineSpec.Legal, Accounting.TallyStep, Restored;
    if es == [] {
      BirthSound(c);
    } else {
      SoundAcrossRestarts(c, es[..|es|-1]);
      var l := Run(c, BIRTH, es[..|es|-1]);
      match es[|es|-1]
      case Operate(e) => OperationSound(c, l.st, l.tally, e);
      case Restart(at) => RestoredSound(c, l.saved.value, at);
      case _ =>
    }
  }

  // ---------- A frozen baseline stays frozen ----------

  predicate SameTables(a: State, b: State) { a.shards == b.shards && a.assetShards == b.assetShards }

  /** The trusted tables are those of `st`, and no time from `from` on is in learning. */
  ghost predicate FrozenAs(c: Config, st: State, now: State, from: Time)
    requires ValidConfig(c)
  {
    SameTables(st, now) && forall t :: t >= from ==> ModeAt(c, now, t) == Monitoring
  }

  /** Operations are passive, and neither they nor the snapshots are stamped before `from`. */
  predicate KeepsFrozen(e: LifeEvent, from: Time) {
    match e
    case Operate(x) => Frozen.Passive(x) && (Frozen.Timed(x) ==> from <= Frozen.TimeOf(x))
    case Save(_, at) => from <= at
    case Restart(_) => true
  }

  lemma OperationKeepsFrozen(c: Config, st: State, now: State, from: Time, e: Event)
    requires ValidConfig(c) && FrozenAs(c, st, now, from) && KeepsFrozen(Operate(e), from)
    ensures FrozenAs(c, st, BaselineSpec.Step(c, now, e), from)
  {
    hide ModeAt, BaselineSpec.Step;
    Frozen.MonitoringStepIsFrozen(c, now, e);
    var after := BaselineSpec.Step(c, now, e);
    forall t | t >= from ensures ModeAt(c, after, t) == Monitoring { Frozen.ModeFromBaseline(c, now, after, t); }
  }

  lemma RestoredFrozen(c: Config, st: State, x: Saved, from: Time, now: Time)
    requires ValidConfig(c) && Sound(c, x.st, x.tally) && IsSnapshot(c, x.st, x.at, x.snapshot)
    requires FrozenAs(c, st, x.st, from) && from <= x.at
    ensures FrozenAs(c, st, Restored(c, Initial(), x.snapshot, now), from)
  {
    RestoreUndoesSnapshot(c, x.st, x.at, x.snapshot, Initial(), now);
    hide Restored, IsSnapshot, Sound, Readiness, Ready;
  }

  /** The last snapshot, if any, is of the frozen baseline too. */
  ghost predicate SavedFrozen(c: Config, st: State, l: Life, from: Time)
    requires ValidConfig(c)
  {
    l.saved.Some? ==> FrozenAs(c, st, l.saved.value.st, from) && from <= l.saved.value.at
  }

  /** From an instant of monitoring on, operations short of promotion and reset, snapshots and restarts, in any
      order, leave the trusted profiles as they were, even though a restart forgets the times of new patterns that
      the mode was derived from. */
  lemma {:induction false} FrozenAcrossRestarts(c: Config, l: Life, es: seq<LifeEvent>, from: Time)
    requires ValidConfig(c) && SoundLife(c, l) && ModeAt(c, l.st, from) == Monitoring && SavedFrozen(c, l.st, l, from)
    requires LegalRun(c, l, es) && forall i :: 0 <= i < |es| ==> KeepsFrozen(es[i], from)
    ensures SoundLife(c, Run(c, l, es)) && FrozenAs(c, l.st, Run(c, l, es).st, from) && SavedFrozen(c, l.st, Run(c, l, es), from)
  {
    hide Sound, IsSnapshot, BaselineSpec.Step, BaselineSpec.Legal, Accounting.TallyStep, Restored, ModeAt, FrozenAs;
    if es == [] {
      MonitoringLasts(c, l.st, from);
    } else {
      FrozenAcrossRestarts(c, l, es[..|es|-1], from);
      var before := Run(c, l, es[..|es|-1]);
      assert KeepsFrozen(es[|es|-1], from);
      match es[|es|-1]
      case Operate(e) =>
        OperationSound(c, before.st, before.tally, e);
        OperationKeepsFrozen(c, l.st, before.st, from, e);
      case Restart(at) =>
        RestoredSound(c, before.saved.value, at);
        RestoredFrozen(c, l.st, before.saved.value, from, at);
      case _ =>
    }
  }

  lemma MonitoringLasts(c: Config, st: State, from: Time)
    requires ValidConfig(c) && ModeAt(c, st, from) == Monitoring
    ensures FrozenAs(c, st, st, from)
  {
    hide ModeAt;
    forall t | t >= from ensures ModeAt(c, st, t) == Monitoring { Frozen.ModeIsMonotone(c, st, from, t); }
  }

  /** A restart is what an older snapshot can undo: a flow that no restored exclusion covers and no review concerns is
      safe from being learned after it, at every timestamp, exactly if the snapshot was taken in monitoring. */
  lemma RestartFrozenExactly(c: Config, x: Saved, now: Time, v: Sample)
    requires ValidConfig(c) && Sound(c, x.st, x.tally) && IsSnapshot(c, x.st, x.at, x.snapshot)
    requires !ReviewOnly(c, v.key)
    requires forall k :: k in Restored(c, Initial(), x.snapshot, now).exclusions ==> !StoredExcludes(k, v.key)
    ensures (forall at: Time :: at > 0 ==> OutcomeOf(c, Restored(c, Initial(), x.snapshot, now), v.(at := at)) != Trusted)
        <==> ModeAt(c, x.st, x.at) == Monitoring
  {
    hide Restored, IsSnapshot, Sound, ModeAt, OutcomeOf, StoredExcludes;
    RestoredMode(c, x, now);
    Frozen.FrozenInAnyOrderExactly(c, Restored(c, Initial(), x.snapshot, now), v);
  }

  lemma RestoredMode(c: Config, x: Saved, now: Time)
    requires ValidConfig(c) && Sound(c, x.st, x.tally) && IsSnapshot(c, x.st, x.at, x.snapshot)
    ensures Restored(c, Initial(), x.snapshot, now).complete <==> ModeAt(c, x.st, x.at) == Monitoring
  {
    RestoreUndoesSnapshot(c, x.st, x.at, x.snapshot, Initial(), now);
    hide Restored, IsSnapshot, Sound, ModeAt;
  }
}
