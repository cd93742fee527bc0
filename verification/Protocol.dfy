/**
  Sensor and Central together. First a sensor that uploads its batches one at a time over a network that may
  lose, repeat and reorder; then a promotion from the operator's request to the report that retires it.
*/
module Protocol {
  import opened Options
  import opened BaselineModel
  import BaselineFrames
  import BaselineSpec
  import Telemetry
  import FlowLedger
  import Bindings

  // ---------- Stop and wait ----------

  /** The sensor is uploading `batches[current]`. `inflight` holds every batch it ever sent and `acks` every
      batch Central ever acknowledged: the network may deliver either at any time, any number of times, or never. */
  datatype System = System(
    central: Telemetry.State, current: nat, inflight: set<nat>, acks: set<nat>, applied: seq<Telemetry.Delivery>)

  datatype Event =
    | Transmit
    | Arrive(i: nat, now: int, order: seq<Bindings.Claim>)
    | Acknowledged(i: nat)
    | Local(e: Telemetry.Event)

  /** Batches the sensor builds: increasing positive sequence numbers, verifiable and storable. */
  ghost predicate Uploads(c: Telemetry.Config, batches: seq<Telemetry.Batch>) {
    && (forall i :: 0 <= i < |batches| ==> Storable(c, batches[i]))
    && (forall i, j :: 0 <= i < j < |batches| ==> batches[i].sequence < batches[j].sequence)
  }

  ghost predicate Storable(c: Telemetry.Config, b: Telemetry.Batch) {
    && Telemetry.WellFormed(c, b)
    && Telemetry.CleanEvent(c, Telemetry.Deliver(Telemetry.Delivery(b, 0, [])))
  }

  ghost predicate Enabled(c: Telemetry.Config, batches: seq<Telemetry.Batch>, s: System, e: Event) {
    match e
    case Transmit => s.current < |batches|
    case Arrive(i, _, _) => i in s.inflight
    case Acknowledged(i) => i in s.acks
    case Local(x) => !x.Deliver? && Telemetry.CleanEvent(c, x)
  }

  ghost function Next(c: Telemetry.Config, batches: seq<Telemetry.Batch>, s: System, e: Event): System {
    match e
    case Transmit => s.(inflight := s.inflight + {s.current})
    case Arrive(i, now, order) =>
      if i >= |batches| then s
      else
        var d := Telemetry.Delivery(batches[i], now, order);
        var reply := Telemetry.Decide(c, s.central, batches[i], now);
        s.(central := Telemetry.Put(c, s.central, d),
           acks := if reply == Telemetry.Stored || reply == Telemetry.Repeated then s.acks + {i} else s.acks,
           applied := if reply == Telemetry.Stored then s.applied + [d] else s.applied)
    case Acknowledged(i) => if i == s.current then s.(current := s.current + 1) else s
    case Local(x) => s.(central := Telemetry.Step(c, s.central, x))
  }

  const START := System(Telemetry.EMPTY_STATE, 0, {}, {}, [])

  ghost function Run(c: Telemetry.Config, batches: seq<Telemetry.Batch>, es: seq<Event>): System {
    if es == [] then START else Next(c, batches, Run(c, batches, es[..|es|-1]), es[|es|-1])
  }

  ghost predicate LegalRun(c: Telemetry.Config, batches: seq<Telemetry.Batch>, es: seq<Event>) {
    es != [] ==> LegalRun(c, batches, es[..|es|-1]) && Enabled(c, batches, Run(c, batches, es[..|es|-1]), es[|es|-1])
  }

  /** Central holds the first `k` batches, `k` being the sensor's position or one more. */
  ghost predicate Synchronised(c: Telemetry.Config, batches: seq<Telemetry.Batch>, s: System) {
    var k := |s.applied|;
    && s.current <= k <= s.current + 1 && k <= |batches|
    && (forall j :: 0 <= j < k ==> s.applied[j].batch == batches[j])
    && (forall i :: i in s.inflight ==> i <= s.current && i < |batches|)
    && (forall i :: i in s.acks ==> i < k)
    && (s.central.last == if k == 0 then None else Some(Telemetry.Mark(batches[k-1].sequence, batches[k-1].checksum)))
    && (k > s.current ==> s.current in s.inflight)
  }

  ghost predicate NoReset(s: System) {
    forall i :: 0 <= i < |s.central.commands| ==> !s.central.commands[i].action.ResetData?
  }

  ghost predicate Faithful(c: Telemetry.Config, s: System) {
    Telemetry.SameLedgers(s.central, Telemetry.FoldAll(c, Telemetry.EMPTY_STATE, s.applied))
  }

  /** What Central answers to one of the sensor's batches. */
  lemma ReplyToUpload(c: Telemetry.Config, batches: seq<Telemetry.Batch>, s: System, i: nat, now: int)
    requires Uploads(c, batches) && Synchronised(c, batches, s) && NoReset(s) && i in s.inflight
    ensures var k := |s.applied|; var reply := Telemetry.Decide(c, s.central, batches[i], now);
            (if i == k then reply == Telemetry.Stored
             else if i == k - 1 then reply == Telemetry.Repeated else reply.Conflict?)
  {
    var d := Telemetry.Delivery(batches[i], now, []);
    assert Storable(c, batches[i]);
    Telemetry.CleanBatchDoesNotBreak(s.central, batches[i], now);
    hide Telemetry.Breaks, Telemetry.WellFormed;
  }

  lemma RefusedArrivalKeepsSync(c: Telemetry.Config, batches: seq<Telemetry.Batch>, s: System, i: nat, now: int, order: seq<Bindings.Claim>)
    requires Synchronised(c, batches, s) && i in s.inflight
    requires var reply := Telemetry.Decide(c, s.central, batches[i], now);
             (reply == Telemetry.Repeated && i < |s.applied|) || reply.Conflict?
    ensures var t := Next(c, batches, s, Arrive(i, now, order));
            Synchronised(c, batches, t) && t.central == s.central && t.applied == s.applied
  {
    hide Telemetry.Decide, Telemetry.Ingest;
  }

  lemma StoredArrivalKeepsSync(c: Telemetry.Config, batches: seq<Telemetry.Batch>, s: System, now: int, order: seq<Bindings.Claim>)
    requires Synchronised(c, batches, s) && |s.applied| in s.inflight
    requires Telemetry.Decide(c, s.central, batches[|s.applied|], now) == Telemetry.Stored
    ensures Synchronised(c, batches, Next(c, batches, s, Arrive(|s.applied|, now, order)))
  {
    var d := Telemetry.Delivery(batches[|s.applied|], now, order);
    StoredMark(c, s.central, d);
    hide Telemetry.Decide, Telemetry.Ingest;
  }

  lemma StoredArrivalStaysFaithful(c: Telemetry.Config, batches: seq<Telemetry.Batch>, s: System, i: nat, now: int, order: seq<Bindings.Claim>)
    requires Faithful(c, s) && i < |batches| && Telemetry.Decide(c, s.central, batches[i], now) == Telemetry.Stored
    ensures Faithful(c, Next(c, batches, s, Arrive(i, now, order)))
  {
    hide Telemetry.Decide, Telemetry.Ingest, Telemetry.SameLedgers, Telemetry.FoldAll;
    var d := Telemetry.Delivery(batches[i], now, order);
    Telemetry.FoldNext(c, Telemetry.EMPTY_STATE, s.applied, d);
    Telemetry.IngestReadsLedgersOnly(c, s.central, Telemetry.FoldAll(c, Telemetry.EMPTY_STATE, s.applied), d);
  }

  lemma ArrivalQueuesNothing(c: Telemetry.Config, batches: seq<Telemetry.Batch>, s: System, i: nat, now: int, order: seq<Bindings.Claim>)
    requires NoReset(s)
    ensures NoReset(Next(c, batches, s, Arrive(i, now, order)))
  {
    hide Telemetry.Decide, Telemetry.Confirms;
  }

  lemma ArrivalKeepsSync(c: Telemetry.Config, batches: seq<Telemetry.Batch>, s: System, i: nat, now: int, order: seq<Bindings.Claim>)
    requires Uploads(c, batches) && Synchronised(c, batches, s) && NoReset(s) && Faithful(c, s) && i in s.inflight
    ensures var t := Next(c, batches, s, Arrive(i, now, order));
            Synchronised(c, batches, t) && NoReset(t) && Faithful(c, t)
  {
    ReplyToUpload(c, batches, s, i, now);
    ArrivalQueuesNothing(c, batches, s, i, now, order);
    if i == |s.applied| {
      StoredArrivalKeepsSync(c, batches, s, now, order);
      assert i < |batches|;
      StoredArrivalStaysFaithful(c, batches, s, i, now, order);
    } else {
      RefusedArrivalKeepsSync(c, batches, s, i, now, order);
      SameCentral(c, s, Next(c, batches, s, Arrive(i, now, order)));
    }
    hide Uploads, Synchronised, NoReset, Faithful, Telemetry.Decide, Telemetry.Put;
  }

  lemma StoredMark(c: Telemetry.Config, s: Telemetry.State, d: Telemetry.Delivery)
    ensures Telemetry.Ingest(c, s, d).last == Some(Telemetry.Mark(d.batch.sequence, d.batch.checksum))
  {
  }

  lemma LocalKeepsSync(c: Telemetry.Config, batches: seq<Telemetry.Batch>, s: System, e: Telemetry.Event)
    requires Synchronised(c, batches, s) && NoReset(s) && Faithful(c, s) && !e.Deliver? && Telemetry.CleanEvent(c, e)
    ensures var t := Next(c, batches, s, Local(e));
            Synchronised(c, batches, t) && NoReset(t) && Faithful(c, t)
  {
    Telemetry.NoResetQueued(c, s.central, e);
    Telemetry.OtherEventsKeepLedgers(c, s.central, e);
    hide Telemetry.Step;
    Telemetry.SameLedgersThrough(Telemetry.Step(c, s.central, e), s.central, Telemetry.FoldAll(c, Telemetry.EMPTY_STATE, s.applied));
    MarkIsLedger(Telemetry.Step(c, s.central, e), s.central);
    hide Telemetry.SameLedgers;
  }

  lemma MarkIsLedger(a: Telemetry.State, b: Telemetry.State)
    requires Telemetry.SameLedgers(a, b)
    ensures a.last == b.last
  {
  }

  lemma AckedStaysSynchronised(c: Telemetry.Config, batches: seq<Telemetry.Batch>, s: System, i: nat)
    requires Synchronised(c, batches, s) && NoReset(s) && i in s.acks
    ensures var t := Next(c, batches, s, Acknowledged(i)); Synchronised(c, batches, t) && NoReset(t)
  {
  }

  lemma SameCentral(c: Telemetry.Config, s: System, t: System)
    requires Faithful(c, s) && t.central == s.central && t.applied == s.applied
    ensures Faithful(c, t)
  {
  }

  lemma {:induction false} StaysSynchronised(c: Telemetry.Config, batches: seq<Telemetry.Batch>, es: seq<Event>)
    requires Uploads(c, batches) && LegalRun(c, batches, es)
    ensures Synchronised(c, batches, Run(c, batches, es)) && NoReset(Run(c, batches, es)) && Faithful(c, Run(c, batches, es))
  {
    if es != [] {
      hide Uploads, Faithful, Synchronised, NoReset, Telemetry.Put, Telemetry.Decide, Telemetry.Step, Telemetry.CleanEvent;
      var before, e := es[..|es|-1], es[|es|-1];
      var s := Run(c, batches, before);
      StaysSynchronised(c, batches, before);
      match e
      case Arrive(i, now, order) => ArrivalKeepsSync(c, batches, s, i, now, order);
      case Local(x) => LocalKeepsSync(c, batches, s, x);
      case Transmit =>
        SentStaysSynchronised(c, batches, s);
        SameCentral(c, s, Next(c, batches, s, e));
      case Acknowledged(i) =>
        AckedStaysSynchronised(c, batches, s, i);
        SameCentral(c, s, Next(c, batches, s, e));
    }
  }

  /** A sensor that sends the next batch only after an acknowledgement gets every batch stored exactly once and in
      order: after any run Central's ledgers are the fold of its first `k` batches, where `k` is the sensor's
      position or, while an acknowledgement is outstanding, one more. */
  lemma StopAndWaitIsExactlyOnce(c: Telemetry.Config, batches: seq<Telemetry.Batch>, es: seq<Event>)
    requires Uploads(c, batches) && LegalRun(c, batches, es)
    ensures var s := Run(c, batches, es);
            && s.current <= |s.applied| <= s.current + 1 && |s.applied| <= |batches|
            && (forall j :: 0 <= j < |s.applied| ==> s.applied[j].batch == batches[j])
            && Telemetry.SameLedgers(s.central, Telemetry.FoldAll(c, Telemetry.EMPTY_STATE, s.applied))
  {
    StaysSynchronised(c, batches, es);
    hide Run, Uploads;
  }

  /** No history can block the protocol: one undisturbed exchange always moves the sensor to its next batch. */
  lemma ExchangeAdvances(c: Telemetry.Config, batches: seq<Telemetry.Batch>, es: seq<Event>, now: int, order: seq<Bindings.Claim>)
    requires Uploads(c, batches) && LegalRun(c, batches, es) && Run(c, batches, es).current < |batches|
    ensures var s := Run(c, batches, es);
            var sent := Next(c, batches, s, Transmit);
            var arrived := Next(c, batches, sent, Arrive(s.current, now, order));
            && s.current in arrived.acks
            && Next(c, batches, arrived, Acknowledged(s.current)).current == s.current + 1
  {
    StaysSynchronised(c, batches, es);
    var s := Run(c, batches, es);
    hide Run, Uploads, Faithful, Telemetry.Decide, Telemetry.Put;
    var sent := Next(c, batches, s, Transmit);
    SentStaysSynchronised(c, batches, s);
    ReplyToUpload(c, batches, sent, s.current, now);
    assert |s.applied| == s.current || |s.applied| - 1 == s.current;
    hide Synchronised, NoReset;
  }

  lemma SentStaysSynchronised(c: Telemetry.Config, batches: seq<Telemetry.Batch>, s: System)
    requires Synchronised(c, batches, s) && NoReset(s) && s.current < |batches|
    ensures var sent := Next(c, batches, s, Transmit);
            Synchronised(c, batches, sent) && NoReset(sent) && s.current in sent.inflight && sent.applied == s.applied
  {
  }

  // ---------- A promotion, from request to report ----------

  predicate Succeeds(verdict: PromoteResult) { verdict == Promoted || verdict == AlreadyPromoted }

  /** How the sensor executes a promotion command; `flushed` says whether its state reached the disk. */
  function ApplyPromotion(c: BaselineSpec.Config, st: BaselineSpec.State, id: CandidateId, now: Time, flushed: bool): BaselineSpec.State {
    var verdict := BaselineSpec.PromoteVerdict(c, st, id);
    var after := BaselineSpec.Promote(c, st, id, now);
    if !Succeeds(verdict) then BaselineSpec.RecordFailure(after, id, verdict, now)
    else if !flushed then BaselineSpec.RecordFailure(after, id, NotPersisted, now)
    else after
  }

  /** The id is on one of the two lists that status reports carry, with a time no older than `since`. */
  predicate Listed(st: BaselineSpec.State, id: CandidateId, since: int) {
    || (id in st.promoted && st.promoted[id] >= since)
    || (id in st.failures && st.failures[id].at >= since)
  }

  /** A promotion or failure record is made at the time of the event that makes it, and the clock is past `since`. */
  predicate Later(e: BaselineSpec.Event, since: int) {
    match e
    case PromoteCandidate(_, at) => at >= since
    case RecordPromotionFailure(_, _, at) => at >= since
    case ReportStatus(at) => at <= since + BaselineSpec.RETENTION
    case ResetAll => false
    case _ => true
  }

  lemma StaysListed(c: BaselineSpec.Config, st: BaselineSpec.State, e: BaselineSpec.Event, id: CandidateId, since: int)
    requires BaselineSpec.ValidConfig(c) && Listed(st, id, since) && Later(e, since)
    ensures Listed(BaselineSpec.Step(c, st, e), id, since)
  {
    hide BaselineSpec.ModeAt, BaselineSpec.OutcomeOf, BaselineSpec.Learn, BaselineSpec.Shadow, BaselineSpec.SeedAsset,
         BaselineSpec.TrustProfile, BaselineSpec.Unlearned, BaselineSpec.CompleteVerdict;
    match e
    case Observation(v, w) => ObservedLists(c, st, v, w);
    case PromoteCandidate(x, at) => PromoteLists(c, st, x, at);
    case ApplyLearningExclusion(x, at) => ExclusionLists(c, st, x, at);
    case _ => hide BaselineSpec.Promote, BaselineSpec.Observed, BaselineSpec.ApplyExclusion;
  }

  lemma ObservedLists(c: BaselineSpec.Config, st: BaselineSpec.State, v: Sample, w: BaselineSpec.Choice)
    requires BaselineSpec.ValidConfig(c)
    ensures var s := BaselineSpec.Observed(c, st, v, w); s.promoted == st.promoted && s.failures == st.failures
  {
    var scanned := BaselineSpec.Scanned(c, st, v, w);
    hide BaselineSpec.Learn, BaselineSpec.Shadow, BaselineSpec.OutcomeOf, BaselineSpec.ModeAt;
    if BaselineSpec.OutcomeOf(c, st, v) == BaselineSpec.Trusted {
      BaselineFrames.LearnFrame(c, scanned, v, w);
    } else {
      BaselineFrames.UntrustedObservation(c, st, v, w);
      hide BaselineSpec.Observed;
    }
  }

  lemma ExclusionLists(c: BaselineSpec.Config, st: BaselineSpec.State, x: Exclusion, at: Time)
    requires BaselineSpec.ValidConfig(c)
    ensures var s := BaselineSpec.ApplyExclusion(c, st, x, at); s.promoted == st.promoted && s.failures == st.failures
  {
    BaselineFrames.ExclusionFrame(c, st, x, at);
    hide BaselineSpec.ApplyExclusion;
  }

  lemma PromoteLists(c: BaselineSpec.Config, st: BaselineSpec.State, id: CandidateId, at: Time)
    ensures var s := BaselineSpec.Promote(c, st, id, at);
            if BaselineSpec.PromoteVerdict(c, st, id) == Promoted
            then s.promoted == st.promoted[id := at] && s.failures == st.failures - {id}
            else s == st
  {
    if BaselineSpec.PromoteVerdict(c, st, id) == Promoted {
      BaselineFrames.PromoteFrame(c, st, id, at);
      hide BaselineSpec.Promote;
    }
  }

  /** Executing a promotion command lists its id, unless it finds an id promoted before and says so. */
  lemma ApplyingLists(c: BaselineSpec.Config, st: BaselineSpec.State, id: CandidateId, now: Time, flushed: bool)
    ensures Listed(ApplyPromotion(c, st, id, now, flushed), id, now) <==>
              !(BaselineSpec.PromoteVerdict(c, st, id) == AlreadyPromoted && flushed) || Listed(st, id, now)
  {
    PromoteLists(c, st, id, now);
    hide BaselineSpec.Promote;
  }

  lemma {:induction false} StaysListedOverRuns(c: BaselineSpec.Config, st: BaselineSpec.State, es: seq<BaselineSpec.Event>, id: CandidateId, since: int)
    requires BaselineSpec.ValidConfig(c) && Listed(st, id, since)
    requires forall i :: 0 <= i < |es| ==> Later(es[i], since)
    ensures Listed(BaselineSpec.Run(c, st, es), id, since)
  {
    hide BaselineSpec.Step, Listed;
    if es != [] {
      StaysListedOverRuns(c, st, es[..|es|-1], id, since);
      StaysListed(c, BaselineSpec.Run(c, st, es[..|es|-1]), es[|es|-1], id, since);
    }
  }

  /** The status carries what the engine reports at the time of capture. */
  ghost predicate ReportsAt(st: BaselineSpec.State, at: Time, status: Telemetry.Status) {
    && (set id | id in status.promoted) == BaselineSpec.Pruned(st, at).promoted.Keys
    && (set f | f in status.failures :: f.0) == BaselineSpec.Pruned(st, at).failures.Keys
  }

  lemma ListedIsReported(st: BaselineSpec.State, at: Time, status: Telemetry.Status, id: CandidateId)
    requires ReportsAt(st, at, status) && id != Foreign("")
    ensures Listed(st, id, at - BaselineSpec.RETENTION) <==>
              id in Telemetry.PromotedIds(Some(status)) || id in Telemetry.FailedIds(Some(status))
  {
    var kept := BaselineSpec.Pruned(st, at);
    assert id in (set x | x in status.promoted) <==> id in kept.promoted;
    assert id in (set f | f in status.failures :: f.0) <==> id in kept.failures;
    assert id in Telemetry.FailedIds(Some(status)) <==> id in set f | f in status.failures :: f.0;
  }

  /** After a first execution, every status captured within the retention window reports the id. */
  lemma AppliedPromotionIsReported(c: BaselineSpec.Config, st: BaselineSpec.State, id: CandidateId, now: Time, flushed: bool,
                                   es: seq<BaselineSpec.Event>, at: Time, status: Telemetry.Status)
    requires BaselineSpec.ValidConfig(c) && id !in st.promoted && id != Foreign("")
    requires forall j :: 0 <= j < |es| ==> Later(es[j], now)
    requires ReportsAt(BaselineSpec.Run(c, ApplyPromotion(c, st, id, now, flushed), es), at, status)
    requires at <= now + BaselineSpec.RETENTION
    ensures id in Telemetry.PromotedIds(Some(status)) || id in Telemetry.FailedIds(Some(status))
  {
    hide ApplyPromotion, BaselineSpec.Run, ReportsAt, Later, Telemetry.PromotedIds, Telemetry.FailedIds;
    var applied := ApplyPromotion(c, st, id, now, flushed);
    ApplyingLists(c, st, id, now, flushed);
    StaysListedOverRuns(c, applied, es, id, now);
    ListedIsReported(BaselineSpec.Run(c, applied, es), at, status, id);
  }

  /** From application to retirement. A sensor executes a promotion command whose id is not on its list of
      promoted ids; then it observes, reports and executes anything else short of a reset. Any batch whose status
      it captures within the retention window retires the command as soon as Central stores it. */
  lemma AppliedPromotionRetires(c: BaselineSpec.Config, st: BaselineSpec.State, id: CandidateId, now: Time, flushed: bool,
                                es: seq<BaselineSpec.Event>, at: Time, status: Telemetry.Status,
                                tc: Telemetry.Config, central: Telemetry.State, d: Telemetry.Delivery, i: nat)
    requires BaselineSpec.ValidConfig(c) && id !in st.promoted && id != Foreign("")
    requires forall j :: 0 <= j < |es| ==> Later(es[j], now)
    requires ReportsAt(BaselineSpec.Run(c, ApplyPromotion(c, st, id, now, flushed), es), at, status)
    requires at <= now + BaselineSpec.RETENTION
    requires d.batch.status == Some(status) && Telemetry.Stores(tc, central, Telemetry.Deliver(d))
    requires i < |central.commands| && central.commands[i].action == Telemetry.PromoteCandidate(id)
    ensures Telemetry.Step(tc, central, Telemetry.Deliver(d)).commands[i].delivered
  {
    hide ApplyPromotion, BaselineSpec.Run, ReportsAt, Later, Telemetry.Step, Telemetry.Stores, Telemetry.PromotedIds, Telemetry.FailedIds;
    AppliedPromotionIsReported(c, st, id, now, flushed, es, at, status);
    Telemetry.CommandStep(tc, central, Telemetry.Deliver(d), i);
  }

  /** An id promoted longer ago than the retention window is reported again only after a second execution: the
      first finds it still listed and records nothing, the report then drops it. */
  lemma StalePromotionNeedsTwoExecutions(c: BaselineSpec.Config, st: BaselineSpec.State, id: CandidateId, now: Time, again: Time)
    requires id !in st.candidates && id in st.promoted && id !in st.failures
    requires st.promoted[id] < now - BaselineSpec.RETENTION && now <= again
    ensures var first := BaselineSpec.Pruned(ApplyPromotion(c, st, id, now, true), now);
            && !Listed(first, id, now - BaselineSpec.RETENTION)
            && Listed(ApplyPromotion(c, first, id, again, true), id, again)
  {
    ApplyingLists(c, BaselineSpec.Pruned(ApplyPromotion(c, st, id, now, true), now), id, again, true);
  }

  // ---------- Completing learning, from command to report ----------

  lemma CompletionLasts(c: BaselineSpec.Config, st: BaselineSpec.State, e: BaselineSpec.Event)
    requires BaselineSpec.ValidConfig(c) && st.complete && !e.ResetAll?
    ensures BaselineSpec.Step(c, st, e).complete
  {
    match e
    case Observation(v, w) =>
      var scanned := BaselineSpec.Scanned(c, st, v, w);
      hide BaselineSpec.Learn, BaselineSpec.Shadow, BaselineSpec.OutcomeOf, BaselineSpec.ModeAt;
      if BaselineSpec.OutcomeOf(c, st, v) == BaselineSpec.Trusted {
        BaselineFrames.LearnFrame(c, scanned, v, w);
      } else {
        BaselineFrames.UntrustedObservation(c, st, v, w);
        hide BaselineSpec.Observed;
      }
    case PromoteCandidate(id, at) =>
      if BaselineSpec.PromoteVerdict(c, st, id) == Promoted { BaselineFrames.PromoteFrame(c, st, id, at); }
      hide BaselineSpec.SeedAsset, BaselineSpec.TrustProfile, BaselineSpec.PromoteVerdict;
    case ApplyLearningExclusion(x, at) =>
      BaselineFrames.ExclusionFrame(c, st, x, at);
      hide BaselineSpec.ApplyExclusion;
    case _ => hide BaselineSpec.Observed, BaselineSpec.Promote, BaselineSpec.ApplyExclusion, BaselineSpec.ModeAt;
  }

  lemma {:induction false} CompletionLastsOverRuns(c: BaselineSpec.Config, st: BaselineSpec.State, es: seq<BaselineSpec.Event>)
    requires BaselineSpec.ValidConfig(c) && st.complete
    requires forall i :: 0 <= i < |es| ==> !es[i].ResetAll?
    ensures BaselineSpec.Run(c, st, es).complete
  {
    hide BaselineSpec.Step;
    if es != [] {
      CompletionLastsOverRuns(c, st, es[..|es|-1]);
      CompletionLasts(c, BaselineSpec.Run(c, st, es[..|es|-1]), es[|es|-1]);
    }
  }

  /** A sensor that accepts the command to complete learning reports monitoring from then on, at any capture time
      and after anything short of a reset, so the first stored batch retires the command, provided the sensor's
      other learning engine is off or done. */
  lemma CompletedLearningRetires(c: BaselineSpec.Config, st: BaselineSpec.State, force: bool, now: Time,
                                 es: seq<BaselineSpec.Event>, at: Time, status: Telemetry.Status,
                                 tc: Telemetry.Config, central: Telemetry.State, d: Telemetry.Delivery, i: nat)
    requires BaselineSpec.ValidConfig(c) && c.enabled
    requires st.complete || (st.started != 0 && (force || now - st.started >= c.learningDuration))
    requires forall j :: 0 <= j < |es| ==> !es[j].ResetAll?
    requires status.behaviorEnabled && (status.enabled ==> status.monitoring)
    requires status.behaviorMonitoring <==>
               BaselineSpec.ModeAt(c, BaselineSpec.Run(c, BaselineSpec.CompleteLearning(c, st, force, now), es), at) == Monitoring
    requires d.batch.status == Some(status) && Telemetry.Stores(tc, central, Telemetry.Deliver(d))
    requires i < |central.commands| && central.commands[i].action == Telemetry.CompleteLearning(force)
    ensures Telemetry.Step(tc, central, Telemetry.Deliver(d)).commands[i].delivered
  {
    var done := BaselineSpec.CompleteLearning(c, st, force, now);
    assert done.complete;
    CompletionLastsOverRuns(c, done, es);
    hide BaselineSpec.Run, BaselineSpec.CompleteLearning;
    Telemetry.CommandStep(tc, central, Telemetry.Deliver(d), i);
    hide Telemetry.Step, Telemetry.Stores;
  }
}
