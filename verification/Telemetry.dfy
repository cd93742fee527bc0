/**
  Central's side of the sensor protocol for one sensor: the gate that admits telemetry batches, the ledgers a
  batch is folded into, and the command queue that telemetry acknowledges. One event is one transaction.
*/
module Telemetry {
  import opened Options
  import opened BaselineModel
  import FlowLedger
  import Bindings
  import Alerts

  datatype Config = Config(text: Bindings.Config, digest: Batch -> string)

  // ---------- Batches ----------

  datatype CandidateReport = CandidateReport(id: CandidateId, eligible: bool, ready: bool, reason: string)

  /** The baseline part of a batch: the two learning engines and what became of the shadow candidates. */
  datatype Status = Status(
    enabled: bool, monitoring: bool, behaviorEnabled: bool, behaviorMonitoring: bool,
    candidates: seq<CandidateReport>, promoted: seq<CandidateId>, failures: seq<(CandidateId, string)>)

  datatype Topology = Absent | Malformed | Present(nodes: seq<Bindings.Node>, edges: seq<FlowLedger.Report>)

  /** An unreadable status or alert list is `None`. */
  datatype Batch = Batch(
    sequence: int, batchId: string, checksum: string, capturedAt: Option<int>,
    status: Option<Status>, topology: Topology, alerts: Option<seq<Alerts.Report>>)

  // ---------- Commands ----------

  datatype Action =
    | CompleteLearning(force: bool)
    | PromoteCandidate(id: CandidateId)
    | ConfirmAsset(mac: string)
    | DeleteAsset(mac: string)
    | ResetData(operation: string)
    | OneShot(kind: string, target: string)

  /** A queued command; its position in the queue is its id. */
  datatype Command = Command(action: Action, delivered: bool)

  /** Commands whose effect telemetry reports stay pending until it does. */
  predicate StateConfirmed(a: Action) {
    a.CompleteLearning? || a.PromoteCandidate? || a.ConfirmAsset? || a.DeleteAsset?
  }

  predicate Blank(c: Config, a: Action) {
    match a
    case PromoteCandidate(id) => id == Foreign("")
    case ConfirmAsset(mac) => mac == ""
    case DeleteAsset(mac) => mac == ""
    case OneShot(_, target) => target == ""
    case _ => false
  }

  predicate Pending(commands: seq<Command>, a: Action) {
    exists i :: 0 <= i < |commands| && commands[i].action == a && !commands[i].delivered
  }

  predicate ResetPending(commands: seq<Command>) {
    exists i :: 0 <= i < |commands| && commands[i].action.ResetData? && !commands[i].delivered
  }

  function QueueAll(c: Config, commands: seq<Command>, actions: seq<Action>): seq<Command> {
    if actions == [] then commands
    else
      var before, a := QueueAll(c, commands, actions[..|actions|-1]), actions[|actions|-1];
      if Blank(c, a) then before else before + [Command(a, false)]
  }

  function QueueIfMissing(c: Config, commands: seq<Command>, a: Action): seq<Command> {
    if Blank(c, a) || Pending(commands, a) then commands else commands + [Command(a, false)]
  }

  function Downloaded(x: Command): Command { if StateConfirmed(x.action) then x else x.(delivered := true) }

  /** Every pending command is handed out; only one-shot commands count as delivered by it. */
  function AfterPop(commands: seq<Command>): (r: seq<Command>)
    ensures |r| == |commands| && forall i :: 0 <= i < |r| ==> r[i] == Downloaded(commands[i])
  {
    seq(|commands|, i requires 0 <= i < |commands| => Downloaded(commands[i]))
  }

  /** The positions handed out, in queue order. */
  function Popped(commands: seq<Command>): seq<nat> {
    if commands == [] then []
    else
      var n := |commands| - 1;
      Popped(commands[..n]) + if commands[n].delivered then [] else [n]
  }

  // ---------- Acknowledgement ----------

  predicate LearningConfirmed(status: Option<Status>) {
    status.Some? &&
    var s := status.value;
    (s.enabled || s.behaviorEnabled) && (!s.enabled || s.monitoring) && (!s.behaviorEnabled || s.behaviorMonitoring)
  }

  function PromotedIds(status: Option<Status>): set<CandidateId> {
    if status.None? then {} else set id | id in status.value.promoted && id != Foreign("")
  }

  function FailedIds(status: Option<Status>): set<CandidateId> {
    if status.None? then {} else set f | f in status.value.failures && f.0 != Foreign("") :: f.0
  }

  function PresentMacs(c: Config, t: Topology): set<string> {
    if !t.Present? then {}
    else set n | n in t.nodes && c.text.lower(c.text.trim(n.mac)) != "" :: c.text.lower(c.text.trim(n.mac))
  }

  function ConfirmedMacs(c: Config, t: Topology): set<string> {
    if !t.Present? then {}
    else set n | n in t.nodes && n.confirmed && c.text.lower(c.text.trim(n.mac)) != "" :: c.text.lower(c.text.trim(n.mac))
  }

  /** The batch reports the state the command asks for. */
  predicate Confirms(c: Config, b: Batch, a: Action) {
    match a
    case CompleteLearning(_) => LearningConfirmed(b.status)
    case PromoteCandidate(id) => id in PromotedIds(b.status) || id in FailedIds(b.status)
    case ConfirmAsset(mac) => b.topology.Present? && c.text.lower(mac) in ConfirmedMacs(c, b.topology)
    case DeleteAsset(mac) => b.topology.Present? && c.text.lower(mac) !in PresentMacs(c, b.topology)
    case _ => false
  }

  function AckOne(c: Config, b: Batch, x: Command): Command {
    if Confirms(c, b, x.action) then x.(delivered := true) else x
  }

  function Acknowledge(c: Config, b: Batch, commands: seq<Command>): (r: seq<Command>)
    ensures |r| == |commands| && forall i :: 0 <= i < |r| ==> r[i] == AckOne(c, b, commands[i])
  {
    seq(|commands|, i requires 0 <= i < |commands| => AckOne(c, b, commands[i]))
  }

  // ---------- The gate and the fold ----------

  datatype Mark = Mark(sequence: int, checksum: string)

  datatype State = State(
    last: Option<Mark>, status: Option<Status>, ledger: FlowLedger.Ledger, episodes: seq<Bindings.Episode>,
    alerts: Alerts.History, commands: seq<Command>)

  const EMPTY_STATE := State(None, None, FlowLedger.NO_LEDGER, [], Alerts.NO_HISTORY, [])

  datatype Reply = Invalid | ResetIsPending | Conflict(current: int) | Repeated | Stored | Failed

  predicate WellFormed(c: Config, b: Batch) {
    b.sequence > 0 && c.text.trim(b.batchId) != "" && c.text.trim(b.checksum) != ""
    && c.text.lower(c.digest(b.(checksum := ""))) == c.text.lower(b.checksum)
  }

  predicate SameChecksum(c: Config, a: string, b: string) {
    c.text.lower(c.text.trim(a)) == c.text.lower(c.text.trim(b))
  }

  function CaptureTime(b: Batch, now: int): int { if b.capturedAt.Some? then b.capturedAt.value else now }

  /** The database refuses the batch: unreadable parts, or two reports of one flow in one statement. */
  ghost predicate Breaks(s: State, b: Batch, now: int) {
    || b.topology.Malformed?
    || b.alerts.None?
    || (b.topology.Present? && FlowLedger.BatchFails(s.ledger, b.topology.edges, CaptureTime(b, now)))
  }

  ghost function Decide(c: Config, s: State, b: Batch, now: int): Reply {
    if !WellFormed(c, b) then Invalid
    else if ResetPending(s.commands) then ResetIsPending
    else if s.last.Some? && (b.sequence < s.last.value.sequence
                             || (b.sequence == s.last.value.sequence && !SameChecksum(c, b.checksum, s.last.value.checksum)))
    then Conflict(s.last.value.sequence)
    else if s.last.Some? && b.sequence == s.last.value.sequence then Repeated
    else if Breaks(s, b, now) then Failed
    else Stored
  }

  /** One delivery: the batch, Central's clock, and the order in which its address claims were processed. */
  datatype Delivery = Delivery(batch: Batch, now: int, order: seq<Bindings.Claim>)

  ghost predicate LegalOrder(c: Config, d: Delivery) {
    d.batch.topology.Present? ==>
      forall x :: x in d.order <==> x in Bindings.ClaimSet(c.text, d.batch.topology.nodes)
  }

  /** Folds an admitted batch into every ledger and acknowledges what it reports. */
  ghost function Ingest(c: Config, s: State, d: Delivery): State {
    var b := d.batch;
    State(Some(Mark(b.sequence, b.checksum)), b.status,
          if b.topology.Present? then FlowLedger.Batch(s.ledger, b.topology.edges, CaptureTime(b, d.now)) else s.ledger,
          if b.topology.Present? then Bindings.Snapshot(c.text, s.episodes, d.order, d.now) else s.episodes,
          if b.alerts.Some? then Alerts.Run(s.alerts, Alerts.AsEvents(b.alerts.value)) else s.alerts,
          Acknowledge(c, b, s.commands))
  }

  ghost function Put(c: Config, s: State, d: Delivery): State {
    if Decide(c, s, d.batch, d.now) == Stored then Ingest(c, s, d) else s
  }

  // ---------- Promotion requests ----------

  datatype PromotionReply = BadRequest | NoTelemetry | ReportedPromoted | Gone | Ineligible(reason: string) | StillCollecting | Queued | AlreadyQueued

  function FindCandidate(xs: seq<CandidateReport>, id: CandidateId): Option<CandidateReport> {
    if xs == [] then None else if xs[0].id == id then Some(xs[0]) else FindCandidate(xs[1..], id)
  }

  function PromotionVerdict(c: Config, s: State, id: CandidateId): PromotionReply {
    if id == Foreign("") then BadRequest
    else if s.last.None? then NoTelemetry
    else if id in PromotedIds(s.status) then ReportedPromoted
    else
      var found := if s.status.Some? then FindCandidate(s.status.value.candidates, id) else None;
      if found.None? then Gone
      else if !found.value.eligible then Ineligible(found.value.reason)
      else if !found.value.ready then StillCollecting
      else if Pending(s.commands, PromoteCandidate(id)) then AlreadyQueued
      else Queued
  }

  function RequestPromotion(c: Config, s: State, id: CandidateId): State {
    if PromotionVerdict(c, s, id) == Queued then s.(commands := QueueIfMissing(c, s.commands, PromoteCandidate(id))) else s
  }

  // ---------- Runs ----------

  datatype Event =
    | Queue(actions: seq<Action>)
    | Promotion(id: CandidateId)
    | Pop
    | Deliver(d: Delivery)

  ghost function Step(c: Config, s: State, e: Event): State {
    match e
    case Queue(actions) => s.(commands := QueueAll(c, s.commands, actions))
    case Promotion(id) => RequestPromotion(c, s, id)
    case Pop => s.(commands := AfterPop(s.commands))
    case Deliver(d) => Put(c, s, d)
  }

  ghost function Run(c: Config, s: State, es: seq<Event>): State {
    if es == [] then s else Step(c, Run(c, s, es[..|es|-1]), es[|es|-1])
  }

  /** The event is a delivery that Central stores. */
  ghost predicate Stores(c: Config, s: State, e: Event) {
    e.Deliver? && Decide(c, s, e.d.batch, e.d.now) == Reply.Stored
  }

  /** The deliveries Central stored, in order. */
  ghost function Applied(c: Config, s: State, es: seq<Event>): seq<Delivery> {
    if es == [] then []
    else
      var before, e := es[..|es|-1], es[|es|-1];
      Applied(c, s, before) + if Stores(c, Run(c, s, before), e) then [e.d] else []
  }

  // ---------- Commands over runs ----------

  lemma {:induction false} QueueAllExtends(c: Config, commands: seq<Command>, actions: seq<Action>)
    ensures commands <= QueueAll(c, commands, actions)
    ensures forall i :: |commands| <= i < |QueueAll(c, commands, actions)| ==> !QueueAll(c, commands, actions)[i].delivered
  {
    hide Blank;
    if actions != [] {
      QueueAllExtends(c, commands, actions[..|actions|-1]);
      assert commands <= QueueAll(c, commands, actions[..|actions|-1]);
    }
  }

  /** What one event does to one queued command. */
  lemma CommandStep(c: Config, s: State, e: Event, i: nat)
    requires i < |s.commands|
    ensures |Step(c, s, e).commands| >= |s.commands|
    ensures var x, y := s.commands[i], Step(c, s, e).commands[i];
            y.action == x.action
            && (y.delivered <==> (x.delivered || (e.Pop? && !StateConfirmed(x.action)) || (Stores(c, s, e) && Confirms(c, e.d.batch, x.action))))
  {
    hide Confirms, Decide, PromotionVerdict, Pending, Blank;
    match e
    case Queue(actions) => QueueAllExtends(c, s.commands, actions);
    case _ =>
  }

  /** A command that an event queues is pending. */
  lemma NewCommandsPend(c: Config, s: State, e: Event, i: nat)
    requires |s.commands| <= i < |Step(c, s, e).commands|
    ensures !Step(c, s, e).commands[i].delivered
  {
    hide Confirms, Decide, PromotionVerdict, Pending, Blank;
    match e
    case Queue(actions) => QueueAllExtends(c, s.commands, actions);
    case _ =>
  }

  lemma {:induction false} PoppedArePending(commands: seq<Command>, i: nat)
    ensures i in Popped(commands) <==> i < |commands| && !commands[i].delivered
  {
    if commands != [] {
      var n := |commands| - 1;
      PoppedArePending(commands[..n], i);
      assert i < n ==> commands[..n][i] == commands[i];
    }
  }

  /** Commands are handed out oldest first, none twice. */
  lemma {:induction false} PoppedInOrder(commands: seq<Command>)
    ensures forall j :: 0 <= j < |Popped(commands)| ==> Popped(commands)[j] < |commands|
    ensures forall j, k :: 0 <= j < k < |Popped(commands)| ==> Popped(commands)[j] < Popped(commands)[k]
  {
    if commands != [] { PoppedInOrder(commands[..|commands|-1]); }
  }

  /** How many times the run handed out the command at a position. */
  ghost function Returns(c: Config, s: State, es: seq<Event>, i: nat): nat {
    if es == [] then 0
    else
      var before := es[..|es|-1];
      Returns(c, s, before, i) + if es[|es|-1].Pop? && i in Popped(Run(c, s, before).commands) then 1 else 0
  }

  /** A one-shot command is handed out at most once, and is delivered exactly when it has been. */
  lemma {:induction false} OneShotReturnedAtMostOnce(c: Config, es: seq<Event>, i: nat)
    ensures i >= |Run(c, EMPTY_STATE, es).commands| ==> Returns(c, EMPTY_STATE, es, i) == 0
    ensures i < |Run(c, EMPTY_STATE, es).commands| && !StateConfirmed(Run(c, EMPTY_STATE, es).commands[i].action) ==>
              Returns(c, EMPTY_STATE, es, i) == if Run(c, EMPTY_STATE, es).commands[i].delivered then 1 else 0
  {
    hide Step, Popped;
    if es != [] {
      var before, e := es[..|es|-1], es[|es|-1];
      var s := Run(c, EMPTY_STATE, before);
      OneShotReturnedAtMostOnce(c, before, i);
      PoppedArePending(s.commands, i);
      if i < |s.commands| {
        CommandStep(c, s, e, i);
        if !StateConfirmed(s.commands[i].action) { OneShotNeverConfirmed(c, s.commands[i].action); }
      } else {
        CommandsOnlyGrow(c, s, e);
        if i < |Step(c, s, e).commands| { NewCommandsPend(c, s, e, i); }
      }
    }
  }

  lemma OneShotNeverConfirmed(c: Config, a: Action)
    requires !StateConfirmed(a)
    ensures forall b: Batch :: !Confirms(c, b, a)
  {
  }

  lemma CommandsOnlyGrow(c: Config, s: State, e: Event)
    ensures |Step(c, s, e).commands| >= |s.commands|
  {
    hide Confirms, Decide, PromotionVerdict, Pending, Blank;
    if e.Queue? { QueueAllExtends(c, s.commands, e.actions); }
  }

  /** Event `j` of the run stored a batch that reports the state asked for by the command at position `i`. */
  ghost predicate ConfirmedAt(c: Config, es: seq<Event>, j: nat, i: nat)
    requires j < |es|
  {
    var s := Run(c, EMPTY_STATE, es[..j]);
    i < |s.commands| && Stores(c, s, es[j]) && Confirms(c, es[j].d.batch, s.commands[i].action)
  }

  /** A state-confirmed command is pending, and so handed out by the next download whatever earlier replies were
      lost, exactly until a stored batch has reported its state since it was queued. */
  lemma {:induction false} PendingUntilReported(c: Config, es: seq<Event>, i: nat)
    requires i < |Run(c, EMPTY_STATE, es).commands| && StateConfirmed(Run(c, EMPTY_STATE, es).commands[i].action)
    ensures i in Popped(Run(c, EMPTY_STATE, es).commands) <==> !exists j :: 0 <= j < |es| && ConfirmedAt(c, es, j, i)
  {
    hide Step, Popped, Stores, Confirms;
    var n := |es| - 1;
    var before, e := es[..n], es[n];
    var s := Run(c, EMPTY_STATE, before);
    PoppedArePending(Run(c, EMPTY_STATE, es).commands, i);
    PoppedArePending(s.commands, i);
    forall j | 0 <= j < n ensures ConfirmedAt(c, es, j, i) == ConfirmedAt(c, before, j, i) {
      assert before[..j] == es[..j];
    }
    if i < |s.commands| {
      CommandStep(c, s, e, i);
      PendingUntilReported(c, before, i);
      StoresIsDelivery(c, s, e);
      assert ConfirmedAt(c, es, n, i) <==> (Stores(c, s, e) && e.Deliver? && Confirms(c, e.d.batch, s.commands[i].action));
      if exists j :: 0 <= j < n && ConfirmedAt(c, before, j, i) {
        var j :| 0 <= j < n && ConfirmedAt(c, before, j, i);
        assert ConfirmedAt(c, es, j, i);
      }
    } else {
      NewCommandsPend(c, s, e, i);
      forall j | 0 <= j < |es| ensures !ConfirmedAt(c, es, j, i) { CommandsOfPrefix(c, es, j); }
    }
  }

  lemma StoresIsDelivery(c: Config, s: State, e: Event)
    ensures Stores(c, s, e) ==> e.Deliver?
  {
  }

  lemma {:induction false} CommandsOfPrefix(c: Config, es: seq<Event>, j: nat)
    requires es != [] && j < |es|
    ensures |Run(c, EMPTY_STATE, es[..j]).commands| <= |Run(c, EMPTY_STATE, es[..|es|-1]).commands|
  {
    hide Step;
    if j < |es| - 1 {
      var before := es[..|es|-1];
      CommandsOfPrefix(c, before, j);
      assert before[..j] == es[..j];
      CommandsOnlyGrow(c, Run(c, EMPTY_STATE, before[..|before|-1]), before[|before|-1]);
    }
  }

  // ---------- Exactly once ----------

  /** Nothing was delivered that the database would refuse, and nobody asked for a reset. */
  ghost predicate Undisturbed(c: Config, es: seq<Event>) {
    forall i :: 0 <= i < |es| ==> CleanEvent(c, es[i])
  }

  ghost predicate CleanEvent(c: Config, e: Event) {
    match e
    case Queue(actions) => forall a :: a in actions ==> !a.ResetData?
    case Deliver(d) =>
      WellFormed(c, d.batch) ==>
        !d.batch.topology.Malformed? && d.batch.alerts.Some?
        && (d.batch.topology.Present? ==> FlowLedger.DistinctIds(d.batch.topology.edges))
    case _ => true
  }

  ghost predicate Readable(c: Config, e: Event) { e.Deliver? && WellFormed(c, e.d.batch) }

  /** Applied sequence numbers strictly increase and the last is Central's mark. */
  lemma {:induction false} AppliedIncrease(c: Config, es: seq<Event>)
    ensures var a, s := Applied(c, EMPTY_STATE, es), Run(c, EMPTY_STATE, es);
            (a == [] <==> s.last.None?)
            && (a != [] ==> s.last == Some(Mark(a[|a|-1].batch.sequence, a[|a|-1].batch.checksum)))
            && (forall i, j :: 0 <= i < j < |a| ==> a[i].batch.sequence < a[j].batch.sequence)
  {
    hide Step, Stores;
    if es != [] {
      var before, e := es[..|es|-1], es[|es|-1];
      AppliedIncrease(c, before);
      MarkStep(c, Run(c, EMPTY_STATE, before), e);
    }
  }

  /** Only a stored batch moves the mark, and only upwards. */
  lemma MarkStep(c: Config, s: State, e: Event)
    ensures Stores(c, s, e) ==> e.Deliver? && Step(c, s, e).last == Some(Mark(e.d.batch.sequence, e.d.batch.checksum))
    ensures Stores(c, s, e) && s.last.Some? ==> s.last.value.sequence < e.d.batch.sequence
    ensures !Stores(c, s, e) ==> Step(c, s, e).last == s.last
  {
    hide Breaks, WellFormed, SameChecksum, ResetPending, PromotionVerdict;
  }

  /** Folds deliveries without looking at the gate. */
  ghost function FoldAll(c: Config, s: State, ds: seq<Delivery>): State {
    if ds == [] then s else Ingest(c, FoldAll(c, s, ds[..|ds|-1]), ds[|ds|-1])
  }

  predicate SameLedgers(a: State, b: State) {
    a.ledger == b.ledger && a.episodes == b.episodes && a.alerts == b.alerts && a.status == b.status && a.last == b.last
  }

  lemma IngestReadsLedgersOnly(c: Config, a: State, b: State, d: Delivery)
    requires SameLedgers(a, b)
    ensures SameLedgers(Ingest(c, a, d), Ingest(c, b, d))
  {
  }

  lemma OtherEventsKeepLedgers(c: Config, s: State, e: Event)
    requires !Stores(c, s, e)
    ensures SameLedgers(Step(c, s, e), s)
  {
    hide Decide, PromotionVerdict;
  }

  lemma StoringIngests(c: Config, s: State, e: Event)
    requires Stores(c, s, e)
    ensures e.Deliver? && Step(c, s, e) == Ingest(c, s, e.d)
  {
    hide Ingest, Decide;
  }

  lemma FoldNext(c: Config, s: State, ds: seq<Delivery>, d: Delivery)
    ensures FoldAll(c, s, ds + [d]) == Ingest(c, FoldAll(c, s, ds), d)
  {
    hide Ingest;
    assert (ds + [d])[..|ds|] == ds;
  }

  lemma SameLedgersThrough(a: State, b: State, d: State)
    requires SameLedgers(a, b) && SameLedgers(b, d)
    ensures SameLedgers(a, d)
  {
  }

  /** Whatever the network loses, repeats or reorders, and whatever is queued or downloaded in between, the
      ledgers are the fold of exactly the stored batches, each once, in order. */
  lemma {:induction false} LedgersFoldStoredBatches(c: Config, es: seq<Event>)
    ensures SameLedgers(Run(c, EMPTY_STATE, es), FoldAll(c, EMPTY_STATE, Applied(c, EMPTY_STATE, es)))
  {
    if es != [] {
      hide Step, Stores, Ingest, SameLedgers, FoldAll;
      var before, e := es[..|es|-1], es[|es|-1];
      var s, a := Run(c, EMPTY_STATE, before), Applied(c, EMPTY_STATE, before);
      LedgersFoldStoredBatches(c, before);
      if Stores(c, s, e) {
        StoringIngests(c, s, e);
        FoldNext(c, EMPTY_STATE, a, e.d);
        IngestReadsLedgersOnly(c, s, FoldAll(c, EMPTY_STATE, a), e.d);
      } else {
        OtherEventsKeepLedgers(c, s, e);
        assert Applied(c, EMPTY_STATE, es) == a;
        SameLedgersThrough(Run(c, EMPTY_STATE, es), s, FoldAll(c, EMPTY_STATE, a));
      }
    }
  }

  /** A batch delivered again, at any later time, changes nothing. */
  lemma RetryChangesNothing(c: Config, es: seq<Event>, i: nat, now: int, order: seq<Bindings.Claim>)
    requires i < |Applied(c, EMPTY_STATE, es)|
    ensures var b := Applied(c, EMPTY_STATE, es)[i].batch;
            Put(c, Run(c, EMPTY_STATE, es), Delivery(b, now, order)) == Run(c, EMPTY_STATE, es)
  {
    hide Run, Breaks;
    AppliedIncrease(c, es);
  }

  lemma {:induction false} NoResetPending(c: Config, es: seq<Event>)
    requires Undisturbed(c, es)
    ensures forall i :: 0 <= i < |Run(c, EMPTY_STATE, es).commands| ==> !Run(c, EMPTY_STATE, es).commands[i].action.ResetData?
  {
    if es != [] {
      var before, e := es[..|es|-1], es[|es|-1];
      NoResetPending(c, before);
      assert CleanEvent(c, e);
      NoResetQueued(c, Run(c, EMPTY_STATE, before), e);
    }
  }

  lemma NoResetQueued(c: Config, s: State, e: Event)
    requires CleanEvent(c, e) && forall i :: 0 <= i < |s.commands| ==> !s.commands[i].action.ResetData?
    ensures forall i :: 0 <= i < |Step(c, s, e).commands| ==> !Step(c, s, e).commands[i].action.ResetData?
  {
    hide Decide, PromotionVerdict, Pending, Blank, Confirms;
    if e.Queue? { QueuedActions(c, s.commands, e.actions); }
  }

  lemma {:induction false} QueuedActions(c: Config, commands: seq<Command>, actions: seq<Action>)
    requires forall a :: a in actions ==> !a.ResetData?
    requires forall i :: 0 <= i < |commands| ==> !commands[i].action.ResetData?
    ensures forall i :: 0 <= i < |QueueAll(c, commands, actions)| ==> !QueueAll(c, commands, actions)[i].action.ResetData?
  {
    hide Blank;
    if actions != [] { QueuedActions(c, commands, actions[..|actions|-1]); }
  }

  lemma CleanBatchDoesNotBreak(s: State, b: Batch, now: int)
    requires !b.topology.Malformed? && b.alerts.Some?
    requires b.topology.Present? ==> FlowLedger.DistinctIds(b.topology.edges)
    ensures !Breaks(s, b, now)
  {
    if b.topology.Present? { FlowLedger.BatchIsFold(s.ledger, b.topology.edges, CaptureTime(b, now)); }
  }

  lemma StoredExactlyWhenNewer(c: Config, s: State, d: Delivery)
    requires CleanEvent(c, Deliver(d)) && WellFormed(c, d.batch) && !ResetPending(s.commands)
    ensures Stores(c, s, Deliver(d)) <==> (s.last.Some? ==> d.batch.sequence > s.last.value.sequence)
  {
    CleanBatchDoesNotBreak(s, d.batch, d.now);
    hide Breaks, WellFormed, ResetPending;
  }

  /** Among readable batches, Central stores exactly the strict records: a delivery is stored if and only if its
      sequence number exceeds that of every delivery before it. */
  lemma {:induction false} StoredExactlyRecords(c: Config, es: seq<Event>, i: nat)
    requires Undisturbed(c, es) && i < |es| && Readable(c, es[i])
    ensures Stores(c, Run(c, EMPTY_STATE, es[..i]), es[i]) <==>
              forall j :: 0 <= j < i && Readable(c, es[j]) ==> es[j].d.batch.sequence < es[i].d.batch.sequence
  {
    hide Stores, Run, WellFormed, CleanEvent;
    var s := Run(c, EMPTY_STATE, es[..i]);
    NoResetPending(c, es[..i]);
    StoredExactlyWhenNewer(c, s, es[i].d);
    MarkIsMaximum(c, es[..i]);
  }

  /** The mark moves exactly when a readable delivery exceeds it. */
  lemma MarkMoves(c: Config, es: seq<Event>)
    requires Undisturbed(c, es) && es != []
    ensures var e, last := es[|es|-1], Run(c, EMPTY_STATE, es[..|es|-1]).last;
            Run(c, EMPTY_STATE, es).last ==
              if Readable(c, e) && (last.Some? ==> e.d.batch.sequence > last.value.sequence)
              then Some(Mark(e.d.batch.sequence, e.d.batch.checksum)) else last
  {
    var before, e := es[..|es|-1], es[|es|-1];
    var s := Run(c, EMPTY_STATE, before);
    assert CleanEvent(c, e);
    assert Undisturbed(c, before);
    hide Step, Stores, WellFormed, CleanEvent, Undisturbed;
    MarkStep(c, s, e);
    NoResetPending(c, before);
    UnreadableIsNotStored(c, s, e);
    if Readable(c, e) { StoredExactlyWhenNewer(c, s, e.d); }
  }

  /** Central's mark is the largest sequence number ever delivered to it. */
  lemma {:induction false} MarkIsMaximum(c: Config, es: seq<Event>)
    requires Undisturbed(c, es)
    ensures var last := Run(c, EMPTY_STATE, es).last;
            (forall j :: 0 <= j < |es| && Readable(c, es[j]) ==> last.Some? && es[j].d.batch.sequence <= last.value.sequence)
            && (last.Some? ==> exists j :: 0 <= j < |es| && Readable(c, es[j]) && es[j].d.batch.sequence == last.value.sequence)
  {
    if es != [] {
      var before, e := es[..|es|-1], es[|es|-1];
      MarkIsMaximum(c, before);
      MarkMoves(c, es);
      hide Run, Readable, Undisturbed;
      var last, mark := Run(c, EMPTY_STATE, before).last, Run(c, EMPTY_STATE, es).last;
      forall j | 0 <= j < |es| && Readable(c, es[j])
        ensures mark.Some? && es[j].d.batch.sequence <= mark.value.sequence
      {
        if j < |es| - 1 { assert before[j] == es[j]; }
      }
      if mark.Some? && mark == last {
        var j :| 0 <= j < |before| && Readable(c, before[j]) && before[j].d.batch.sequence == last.value.sequence;
        assert es[j] == before[j];
      }
    }
  }

  lemma UnreadableIsNotStored(c: Config, s: State, e: Event)
    ensures Stores(c, s, e) ==> Readable(c, e)
  {
  }

  // ---------- Conservation across the network ----------

  /** Every flow report of the stored batches, in order. */
  function FlowArrivals(ds: seq<Delivery>): seq<FlowLedger.Arrival> {
    if ds == [] then []
    else
      var d := ds[|ds|-1];
      FlowArrivals(ds[..|ds|-1])
      + if d.batch.topology.Present? then FlowLedger.Arrivals(d.batch.topology.edges, match d.batch.capturedAt case Some(t) => t case None => d.now) else []
  }

  ghost predicate DistinctFlows(ds: seq<Delivery>) {
    forall i :: 0 <= i < |ds| && ds[i].batch.topology.Present? ==> FlowLedger.DistinctIds(ds[i].batch.topology.edges)
  }

  lemma {:induction false} FoldConcatenation(l: FlowLedger.Ledger, xs: seq<FlowLedger.Arrival>, ys: seq<FlowLedger.Arrival>)
    ensures FlowLedger.Fold(l, xs + ys) == FlowLedger.Fold(FlowLedger.Fold(l, xs), ys)
  {
    hide FlowLedger.Apply;
    if ys == [] {
      assert xs + ys == xs;
    } else {
      FoldConcatenation(l, xs, ys[..|ys|-1]);
      assert (xs + ys)[..|xs + ys|-1] == xs + ys[..|ys|-1];
    }
  }

  lemma {:induction false} LedgerIsFoldOfReports(c: Config, ds: seq<Delivery>)
    requires DistinctFlows(ds)
    ensures FoldAll(c, EMPTY_STATE, ds).ledger == FlowLedger.Fold(FlowLedger.NO_LEDGER, FlowArrivals(ds))
  {
    hide FlowLedger.Fold, FlowLedger.Batch, Acknowledge, Bindings.Snapshot, Alerts.Run, FlowLedger.DistinctIds;
    if ds == [] {
      EmptyFold();
    } else {
      var before, d := ds[..|ds|-1], ds[|ds|-1];
      LedgerIsFoldOfReports(c, before);
      if d.batch.topology.Present? {
        var edges, at := d.batch.topology.edges, CaptureTime(d.batch, d.now);
        FlowLedger.BatchIsFold(FoldAll(c, EMPTY_STATE, before).ledger, edges, at);
        FoldConcatenation(FlowLedger.NO_LEDGER, FlowArrivals(before), FlowLedger.Arrivals(edges, at));
      } else {
        assert FlowArrivals(ds) == FlowArrivals(before);
      }
    }
  }

  lemma EmptyFold()
    ensures FlowLedger.Fold(FlowLedger.NO_LEDGER, []) == FlowLedger.NO_LEDGER
  {
  }

  lemma {:induction false} AppliedAreClean(c: Config, es: seq<Event>)
    requires Undisturbed(c, es)
    ensures DistinctFlows(Applied(c, EMPTY_STATE, es))
  {
    if es != [] {
      var before, e := es[..|es|-1], es[|es|-1];
      AppliedAreClean(c, before);
      assert CleanEvent(c, e);
      UnreadableIsNotStored(c, Run(c, EMPTY_STATE, before), e);
      hide Run, WellFormed, FlowLedger.DistinctIds;
    }
  }

  /** However the network treats the batches, every flow's minutes add up to its last accepted counter, the
      counters just before each reset and what was posted past a counter at the epoch, all among the reports of
      the stored batches. */
  lemma NetworkConservesFlows(c: Config, es: seq<Event>, id: string, side: FlowLedger.Side)
    requires Undisturbed(c, es) && (side == FlowLedger.Packets || side == FlowLedger.Bytes)
    ensures var l, xs := Run(c, EMPTY_STATE, es).ledger, FlowArrivals(Applied(c, EMPTY_STATE, es));
            FlowLedger.Posted(l, id, side) == FlowLedger.Stored(l, id, side)
              + FlowLedger.Resets(FlowLedger.NO_LEDGER, xs, id, side) + FlowLedger.Unstored(FlowLedger.NO_LEDGER, xs, id, side)
  {
    hide Run, Applied, FoldAll, FlowArrivals, FlowLedger.Posted, FlowLedger.Stored, FlowLedger.Resets, FlowLedger.Fold,
         FlowLedger.Unstored, FlowLedger.UnstoredIn;
    LedgersFoldStoredBatches(c, es);
    AppliedAreClean(c, es);
    LedgerIsFoldOfReports(c, Applied(c, EMPTY_STATE, es));
    FlowLedger.PacketsAndBytesConserved(FlowArrivals(Applied(c, EMPTY_STATE, es)), id, side);
  }

  // ---------- One pending promotion per candidate ----------

  /** Promotions enter the queue only through promotion requests. */
  predicate PromotesByRequest(es: seq<Event>) {
    forall i :: 0 <= i < |es| && es[i].Queue? ==> forall a :: a in es[i].actions ==> !a.PromoteCandidate?
  }

  ghost predicate OnePendingEach(commands: seq<Command>) {
    forall i, j :: 0 <= i < j < |commands| && commands[i].action.PromoteCandidate? && !commands[i].delivered && !commands[j].delivered
      ==> commands[i].action != commands[j].action
  }

  /** However often an operator asks and however often replies are lost, a candidate never has two pending
      promotion commands. */
  lemma {:induction false} OnePendingPromotion(c: Config, es: seq<Event>)
    requires PromotesByRequest(es)
    ensures OnePendingEach(Run(c, EMPTY_STATE, es).commands)
  {
    if es != [] {
      OnePendingPromotion(c, es[..|es|-1]);
      OnePendingStep(c, Run(c, EMPTY_STATE, es[..|es|-1]), es[|es|-1]);
    }
  }

  lemma OnePendingStep(c: Config, s: State, e: Event)
    requires OnePendingEach(s.commands)
    requires e.Queue? ==> forall a :: a in e.actions ==> !a.PromoteCandidate?
    ensures OnePendingEach(Step(c, s, e).commands)
  {
    hide Decide, Blank, Confirms;
    match e
    case Queue(actions) =>
      QueueAllExtends(c, s.commands, actions);
      QueuedKinds(c, s.commands, actions);
    case Promotion(id) => hide PromotionVerdict;
    case _ =>
  }

  lemma {:induction false} QueuedKinds(c: Config, commands: seq<Command>, actions: seq<Action>)
    requires forall a :: a in actions ==> !a.PromoteCandidate?
    ensures forall i :: |commands| <= i < |QueueAll(c, commands, actions)| ==> !QueueAll(c, commands, actions)[i].action.PromoteCandidate?
  {
    hide Blank;
    if actions != [] {
      QueuedKinds(c, commands, actions[..|actions|-1]);
      QueueAllExtends(c, commands, actions[..|actions|-1]);
    }
  }
}
