/** Central's tables for one sensor, updated in place, and its transactions on them. */
module Central {
  import opened Options
  import opened BaselineModel
  import opened Telemetry
  import FlowLedger
  import Bindings
  import Alerts

  /** The reported promoted ids, blank ones dropped, each once. */
  method PromotedList(status: Option<Status>) returns (ids: seq<CandidateId>)
    ensures forall id :: id in ids <==> id in PromotedIds(status)
    ensures forall i, j :: 0 <= i < j < |ids| ==> ids[i] != ids[j]
  {
    ids := [];
    if status.None? { return; }
    var reported := status.value.promoted;
    for i := 0 to |reported|
      invariant forall id :: id in ids <==> id in reported[..i] && id != Foreign("")
      invariant forall j, k :: 0 <= j < k < |ids| ==> ids[j] != ids[k]
    {
      var id := reported[i];
      if id != Foreign("") && id !in ids { ids := ids + [id]; }
    }
  }

  method FailedList(status: Option<Status>) returns (failed: map<CandidateId, string>)
    ensures failed.Keys == FailedIds(status)
  {
    failed := map[];
    if status.None? { return; }
    var reported := status.value.failures;
    for i := 0 to |reported|
      invariant failed.Keys == set f | f in reported[..i] && f.0 != Foreign("") :: f.0
    {
      assert forall f :: f in reported[..i+1] <==> f in reported[..i] || f == reported[i];
      if reported[i].0 != Foreign("") { failed := failed[reported[i].0 := reported[i].1]; }
    }
    assert reported[..|reported|] == reported;
  }

  method ListMacs(c: Config, nodes: seq<Bindings.Node>, ghost t: Topology) returns (present: set<string>, confirmed: set<string>)
    requires t.Present? && t.nodes == nodes
    ensures present == PresentMacs(c, t) && confirmed == ConfirmedMacs(c, t)
  {
    present, confirmed := {}, {};
    for i := 0 to |nodes|
      invariant present == PresentMacs(c, Present(nodes[..i], []))
      invariant confirmed == ConfirmedMacs(c, Present(nodes[..i], []))
    {
      assert forall n :: n in nodes[..i+1] <==> n in nodes[..i] || n == nodes[i];
      var mac := c.text.lower(c.text.trim(nodes[i].mac));
      if mac != "" {
        present := present + {mac};
        if nodes[i].confirmed { confirmed := confirmed + {mac}; }
      }
    }
    assert nodes[..|nodes|] == nodes;
  }

  function AckStatus(c: Config, b: Batch, x: Command): Command {
    if (x.action.CompleteLearning? || x.action.PromoteCandidate?) && Confirms(c, b, x.action) then x.(delivered := true) else x
  }

  function AckAsset(c: Config, b: Batch, x: Command): Command {
    if (x.action.ConfirmAsset? || x.action.DeleteAsset?) && Confirms(c, b, x.action) then x.(delivered := true) else x
  }

  lemma AcknowledgedTwice(c: Config, b: Batch, before: seq<Command>, marked: seq<Command>, after: seq<Command>)
    requires |before| == |marked| == |after|
    requires forall i :: 0 <= i < |before| ==> marked[i] == AckStatus(c, b, before[i])
    requires if b.topology.Present? then forall i :: 0 <= i < |before| ==> after[i] == AckAsset(c, b, marked[i]) else after == marked
    ensures after == Acknowledge(c, b, before)
  {
    hide LearningConfirmed, PromotedIds, FailedIds, PresentMacs, ConfirmedMacs;
  }

  class Repository {
    const config: Config
    const flows: FlowLedger.FlowTables
    const bindings: Bindings.BindingTables
    const alertTables: Alerts.AlertTables
    var last: Option<Mark>
    var status: Option<Status>
    var commands: seq<Command>

    ghost predicate Valid() { bindings.config == config.text }

    ghost function View(): State
      reads this, flows, bindings, alertTables
    {
      State(last, status, flows.View(), bindings.rows, alertTables.View(), commands)
    }

    constructor (c: Config)
      ensures Valid() && config == c && View() == EMPTY_STATE
      ensures fresh(flows) && fresh(bindings) && fresh(alertTables)
    {
      config := c;
      flows := new FlowLedger.FlowTables();
      bindings := new Bindings.BindingTables(c.text);
      alertTables := new Alerts.AlertTables();
      last, status, commands := None, None, [];
    }

    // ---------- Commands ----------

    /** Queues a state-confirmed command unless the same one is still pending. */
    method QueueCommandIfMissing(a: Action) returns (queued: bool)
      modifies this`commands
      ensures commands == QueueIfMissing(config, old(commands), a)
      ensures queued <==> commands != old(commands)
    {
      hide Blank;
      if Blank(config, a) { return false; }
      for i := 0 to |commands|
        invariant forall j :: 0 <= j < i ==> commands[j].action != a || commands[j].delivered
      {
        if commands[i].action == a && !commands[i].delivered { return false; }
      }
      ghost var before := commands;
      commands := commands + [Command(a, false)];
      assert |commands| == |before| + 1;
      return true;
    }

    method QueueCommands(actions: seq<Action>)
      modifies this`commands
      ensures commands == QueueAll(config, old(commands), actions)
    {
      hide Blank;
      ghost var base := commands;
      for i := 0 to |actions|
        invariant commands == QueueAll(config, base, actions[..i])
      {
        assert actions[..i+1][..i] == actions[..i];
        if !Blank(config, actions[i]) { commands := commands + [Command(actions[i], false)]; }
      }
      assert actions[..|actions|] == actions;
    }

    /** Hands out every pending command in queue order; one-shot commands are delivered by it. */
    method PopCommands() returns (handed: seq<(nat, Action)>)
      modifies this`commands
      ensures commands == AfterPop(old(commands))
      ensures |handed| == |Popped(old(commands))|
      ensures forall k :: 0 <= k < |handed| ==>
                handed[k].0 == Popped(old(commands))[k] < |old(commands)| && handed[k].1 == old(commands)[handed[k].0].action
    {
      hide StateConfirmed;
      handed := [];
      var after: seq<Command> := [];
      for i := 0 to |commands|
        invariant after == AfterPop(commands[..i])
        invariant |handed| == |Popped(commands[..i])|
        invariant forall k :: 0 <= k < |handed| ==>
                    handed[k].0 == Popped(commands[..i])[k] < i && handed[k].1 == commands[handed[k].0].action
      {
        assert commands[..i+1][..i] == commands[..i];
        var x := commands[i];
        if !x.delivered {
          handed := handed + [(i, x.action)];
          if !StateConfirmed(x.action) { x := x.(delivered := true); }
        }
        after := after + [x];
      }
      assert commands[..|commands|] == commands;
      commands := after;
    }

    method PromoteBaselineCandidate(id: CandidateId) returns (reply: PromotionReply)
      modifies this`commands
      ensures reply == PromotionVerdict(config, old(View()), id)
      ensures View() == RequestPromotion(config, old(View()), id)
    {
      if id == Foreign("") { return BadRequest; }
      if last.None? { return NoTelemetry; }
      var promoted := PromotedList(status);
      if id in promoted { return ReportedPromoted; }
      var found := None;
      if status.Some? { found := Find(status.value.candidates, id); }
      if found.None? { return Gone; }
      if !found.value.eligible { return Ineligible(found.value.reason); }
      if !found.value.ready { return StillCollecting; }
      var queued := QueueCommandIfMissing(PromoteCandidate(id));
      return if queued then Queued else AlreadyQueued;
    }

    static method Find(xs: seq<CandidateReport>, id: CandidateId) returns (r: Option<CandidateReport>)
      ensures r == FindCandidate(xs, id)
    {
      for i := 0 to |xs|
        invariant FindCandidate(xs, id) == FindCandidate(xs[i..], id)
      {
        if xs[i].id == id { return Some(xs[i]); }
      }
      return None;
    }

    // ---------- Telemetry ----------

    method HasPendingDataReset() returns (pending: bool)
      ensures pending == ResetPending(commands)
    {
      for i := 0 to |commands|
        invariant forall j :: 0 <= j < i ==> !(commands[j].action.ResetData? && !commands[j].delivered)
      {
        if commands[i].action.ResetData? && !commands[i].delivered { return true; }
      }
      return false;
    }

    /** UPDATE ... SET delivered WHERE the command is pending and matches. */
    method MarkDelivered(matches: Action -> bool)
      modifies this`commands
      ensures |commands| == |old(commands)|
      ensures forall i :: 0 <= i < |commands| ==>
                commands[i] == if matches(old(commands)[i].action) then old(commands)[i].(delivered := true) else old(commands)[i]
    {
      var after: seq<Command> := [];
      for i := 0 to |commands|
        invariant |after| == i
        invariant forall j :: 0 <= j < i ==>
                    after[j] == if matches(commands[j].action) then commands[j].(delivered := true) else commands[j]
      {
        after := after + [if matches(commands[i].action) then commands[i].(delivered := true) else commands[i]];
      }
      commands := after;
    }

    method AcknowledgeStatus(b: Batch)
      modifies this`commands
      ensures |commands| == |old(commands)|
      ensures forall i :: 0 <= i < |commands| ==> commands[i] == AckStatus(config, b, old(commands)[i])
    {
      hide LearningConfirmed, PromotedIds, FailedIds;
      if LearningConfirmed(b.status) { MarkDelivered((a: Action) => a.CompleteLearning?); }
      var promoted := PromotedList(b.status);
      if |promoted| > 0 { MarkDelivered((a: Action) => a.PromoteCandidate? && a.id in promoted); }
      var failed := FailedList(b.status);
      if |failed| > 0 { MarkDelivered((a: Action) => a.PromoteCandidate? && a.id in failed); }
    }

    method AcknowledgeAssets(b: Batch)
      requires b.topology.Present?
      modifies this`commands
      ensures |commands| == |old(commands)|
      ensures forall i :: 0 <= i < |commands| ==> commands[i] == AckAsset(config, b, old(commands)[i])
    {
      hide PresentMacs, ConfirmedMacs;
      var present, confirmed := ListMacs(config, b.topology.nodes, b.topology);
      if |confirmed| > 0 { MarkDelivered((a: Action) => a.ConfirmAsset? && config.text.lower(a.mac) in confirmed); }
      MarkDelivered((a: Action) => a.DeleteAsset? && config.text.lower(a.mac) !in present);
    }

    /** Stores the snapshot row and acknowledges what its status reports. */
    method StoreSnapshot(b: Batch)
      modifies this
      ensures last == Some(Mark(b.sequence, b.checksum)) && status == b.status && |commands| == |old(commands)|
      ensures forall i :: 0 <= i < |commands| ==> commands[i] == AckStatus(config, b, old(commands)[i])
    {
      hide AckStatus;
      last, status := Some(Mark(b.sequence, b.checksum)), b.status;
      AcknowledgeStatus(b);
    }

    /** Reconciles addresses first, then folds in the flows, then acknowledges asset commands. */
    method StoreTopology(b: Batch, now: int) returns (ok: bool, ghost order: seq<Bindings.Claim>)
      requires Valid() && b.topology.Present?
      modifies this`commands, flows, bindings
      ensures Valid() && forall x :: x in order <==> x in Bindings.ClaimSet(config.text, b.topology.nodes)
      ensures ok <==> !FlowLedger.BatchFails(old(flows.View()), b.topology.edges, CaptureTime(b, now))
      ensures flows.View() == FlowLedger.Batch(old(flows.View()), b.topology.edges, CaptureTime(b, now))
      ensures bindings.rows == Bindings.Snapshot(config.text, old(bindings.rows), order, now)
      ensures |commands| == |old(commands)|
      ensures ok ==> forall i :: 0 <= i < |commands| ==> commands[i] == AckAsset(config, b, old(commands)[i])
    {
      hide AckAsset, FlowLedger.BatchFails, FlowLedger.Batch, Bindings.Snapshot, Bindings.ClaimSet, Bindings.NodesAfter;
      order := bindings.Upsert(b.topology.nodes, now);
      ok := flows.Persist(CaptureTime(b, now), b.topology.edges);
      if ok { AcknowledgeAssets(b); }
    }

    lemma FailedBatchChangesNothing(l: FlowLedger.Ledger, edges: seq<FlowLedger.Report>, at: int)
      requires FlowLedger.BatchFails(l, edges, at)
      ensures FlowLedger.Batch(l, edges, at) == l
    {
    }

    /** The writes of one transaction; on failure everything is as before. */
    method Store(b: Batch, now: int) returns (ok: bool, ghost d: Delivery)
      requires Valid()
      modifies this, flows, bindings, alertTables
      ensures Valid() && d.batch == b && d.now == now && (ok ==> LegalOrder(config, d))
      ensures ok <==> !Breaks(old(View()), b, now)
      ensures View() == if ok then Ingest(config, old(View()), d) else old(View())
    {
      hide AckStatus, AckAsset, FlowLedger.BatchFails, FlowLedger.Batch, Bindings.Snapshot, Bindings.ClaimSet, Alerts.Run;
      d := Delivery(b, now, []);
      if b.topology.Malformed? || b.alerts.None? {
        return false, d;
      }
      var savedLast, savedStatus, savedCommands, savedRows, savedNodes := last, status, commands, bindings.rows, bindings.nodes;
      StoreSnapshot(b);
      ghost var marked := commands;
      ok := true;
      if b.topology.Present? {
        ghost var order;
        ok, order := StoreTopology(b, now);
        if !ok { FailedBatchChangesNothing(old(flows.View()), b.topology.edges, CaptureTime(b, now)); }
        d := Delivery(b, now, order);
      }
      if ok {
        var _ := alertTables.Upsert(b.alerts.value);
        AcknowledgedTwice(config, b, savedCommands, marked, commands);
      } else {
        last, status, commands := savedLast, savedStatus, savedCommands;
        bindings.rows, bindings.nodes := savedRows, savedNodes;
      }
    }

    /** One telemetry upload: the gate, then the writes as one transaction. */
    method PutTelemetry(b: Batch, now: int) returns (reply: Reply, ghost d: Delivery)
      requires Valid()
      modifies this, flows, bindings, alertTables
      ensures d.batch == b && d.now == now && (reply == Stored ==> LegalOrder(config, d))
      ensures reply == Decide(config, old(View()), b, now)
      ensures View() == Put(config, old(View()), d) && Valid()
    {
      hide Breaks, Ingest, ResetPending;
      d := Delivery(b, now, []);
      if b.sequence <= 0 || config.text.trim(b.batchId) == "" || config.text.trim(b.checksum) == "" { return Invalid, d; }
      if config.text.lower(config.digest(b.(checksum := ""))) != config.text.lower(b.checksum) { return Invalid, d; }
      var pending := HasPendingDataReset();
      if pending { return ResetIsPending, d; }
      if last.Some? {
        var current := last.value;
        if b.sequence < current.sequence { return Conflict(current.sequence), d; }
        if b.sequence == current.sequence {
          return if SameChecksum(config, b.checksum, current.checksum) then Repeated else Conflict(current.sequence), d;
        }
      }
      var ok;
      ok, d := Store(b, now);
      reply := if ok then Stored else Failed;
    }
  }
}
