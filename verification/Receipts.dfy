/**
  What Central makes of what it receives, over whole runs: which reply a delivery gets, which commands a batch
  acknowledges, and which alert and address history the stored batches leave.
*/
module Receipts {
  import opened Options
  import opened BaselineModel
  import opened Telemetry
  import Bindings
  import Alerts

  // ---------- Replies ----------

  /** A queued data reset has not been handed out yet. */
  ghost predicate ResetOutstanding(c: Config, es: seq<Event>) {
    exists i :: 0 <= i < |Run(c, EMPTY_STATE, es).commands| && Run(c, EMPTY_STATE, es).commands[i].action.ResetData?
             && Returns(c, EMPTY_STATE, es, i) == 0
  }

  predicate Numbered(c: Config, b: Batch) {
    b.sequence > 0 && c.text.trim(b.batchId) != "" && c.text.trim(b.checksum) != ""
  }

  /** The checksum is that of the batch without its checksum, letter case aside. */
  predicate Genuine(c: Config, b: Batch) { c.text.lower(b.checksum) == c.text.lower(c.digest(b.(checksum := ""))) }

  /** What a delivery is told, whatever came before: invalid without number, id or a genuine checksum; to wait while a
      data reset has not been handed out; in conflict when it is older than the last stored batch or differs from it
      under its number; repeated when it is that batch; and stored otherwise, unless the database refuses it. */
  lemma RepliesFollowHistory(c: Config, es: seq<Event>, d: Delivery)
    ensures var r, a, b := Decide(c, Run(c, EMPTY_STATE, es), d.batch, d.now), Applied(c, EMPTY_STATE, es), d.batch;
            && (r == Invalid <==> !Numbered(c, b) || !Genuine(c, b))
            && (r == ResetIsPending <==> r != Invalid && ResetOutstanding(c, es))
            && (r != Invalid && r != ResetIsPending ==>
                  if a == [] || b.sequence > a[|a|-1].batch.sequence then r == Stored || r == Failed
                  else if b.sequence < a[|a|-1].batch.sequence then r == Conflict(a[|a|-1].batch.sequence)
                  else if c.text.lower(c.text.trim(b.checksum)) == c.text.lower(c.text.trim(a[|a|-1].batch.checksum)) then r == Repeated
                  else r == Conflict(b.sequence))
  {
    AppliedIncrease(c, es);
    ResetsAreOneShot(c, es);
    hide Run, Applied, Returns, Breaks;
  }

  lemma ResetsAreOneShot(c: Config, es: seq<Event>)
    ensures ResetPending(Run(c, EMPTY_STATE, es).commands) <==> ResetOutstanding(c, es)
  {
    hide Run, Returns;
    forall i | 0 <= i < |Run(c, EMPTY_STATE, es).commands| && Run(c, EMPTY_STATE, es).commands[i].action.ResetData?
      ensures Returns(c, EMPTY_STATE, es, i) == if Run(c, EMPTY_STATE, es).commands[i].delivered then 1 else 0
    {
      OneShotReturnedAtMostOnce(c, es, i);
    }
  }

  // ---------- Acknowledgements ----------

  /** A reported asset as the queue names it. */
  function NameOf(c: Config, n: Bindings.Node): string { c.text.lower(c.text.trim(n.mac)) }

  /** What a stored batch must report to retire a command: a completion, that every learning engine that is on, and at
      least one is, is monitoring; a promotion, the id as promoted or failed; a confirmation, the asset as confirmed; a
      deletion, a topology without the asset. Data resets and one-shot commands no batch retires. */
  lemma AcknowledgedExactly(c: Config, b: Batch, a: Action)
    ensures StateConfirmed(a) <==> !a.ResetData? && !a.OneShot?
    ensures Confirms(c, b, a) <==>
              match a
              case CompleteLearning(_) =>
                b.status.Some? && (b.status.value.enabled || b.status.value.behaviorEnabled)
                && !(b.status.value.enabled && !b.status.value.monitoring)
                && !(b.status.value.behaviorEnabled && !b.status.value.behaviorMonitoring)
              case PromoteCandidate(id) =>
                id != Foreign("") && b.status.Some?
                && (id in b.status.value.promoted || exists text :: (id, text) in b.status.value.failures)
              case ConfirmAsset(mac) =>
                b.topology.Present? && c.text.lower(mac) != ""
                && exists n :: n in b.topology.nodes && NameOf(c, n) == c.text.lower(mac) && n.confirmed
              case DeleteAsset(mac) =>
                b.topology.Present? && (c.text.lower(mac) == "" || forall n :: n in b.topology.nodes ==> NameOf(c, n) != c.text.lower(mac))
              case _ => false
  {
    if a.PromoteCandidate? && b.status.Some? {
      forall f | f in b.status.value.failures && f.0 == a.id ensures (a.id, f.1) in b.status.value.failures { assert f == (f.0, f.1); }
    }
    if a.ConfirmAsset? && b.topology.Present? {
      forall n | n in b.topology.nodes && n.confirmed && NameOf(c, n) != "" ensures NameOf(c, n) in ConfirmedMacs(c, b.topology) {}
    }
    if a.DeleteAsset? && b.topology.Present? {
      forall n | n in b.topology.nodes && NameOf(c, n) != "" ensures NameOf(c, n) in PresentMacs(c, b.topology) {}
    }
  }

  /** The targets that are not blank, in order. */
  function Named(c: Config, actions: seq<Action>): seq<Action> {
    if actions == [] then []
    else
      var a := actions[|actions|-1];
      Named(c, actions[..|actions|-1])
      + if a in {PromoteCandidate(Foreign("")), ConfirmAsset(""), DeleteAsset("")} || (a.OneShot? && a.target == "") then [] else [a]
  }

  /** Queuing keeps what is queued and appends one pending command for every target that is not blank, in order. */
  lemma {:induction false} QueueAppendsTargets(c: Config, commands: seq<Command>, actions: seq<Action>)
    ensures var q, named := QueueAll(c, commands, actions), Named(c, actions);
            |q| == |commands| + |named| && q[..|commands|] == commands
            && forall i :: 0 <= i < |named| ==> q[|commands| + i] == Command(named[i], false)
  {
    if actions != [] {
      QueueAppendsTargets(c, commands, actions[..|actions|-1]);
      hide Named, QueueAll;
      QueueNext(c, commands, actions);
    }
  }

  /** Asked to queue a command that is missing, the queue keeps what it holds, has the command pending afterwards, and
      grows, by one, exactly if it was not; a blank target changes nothing. */
  lemma QueuedOnceWhilePending(c: Config, commands: seq<Command>, a: Action)
    ensures var after := QueueIfMissing(c, commands, a);
            && commands <= after
            && (Blank(c, a) ==> after == commands)
            && (!Blank(c, a) ==> Pending(after, a) && (|after| == |commands| + 1 <==> !Pending(commands, a)))
            && QueueIfMissing(c, after, a) == after
  {
    if !Blank(c, a) && !Pending(commands, a) { assert (commands + [Command(a, false)])[|commands|].action == a; }
  }

  lemma QueueNext(c: Config, commands: seq<Command>, actions: seq<Action>)
    requires actions != []
    ensures var before, a := actions[..|actions|-1], actions[|actions|-1];
            if Blank(c, a) then QueueAll(c, commands, actions) == QueueAll(c, commands, before) && Named(c, actions) == Named(c, before)
            else QueueAll(c, commands, actions) == QueueAll(c, commands, before) + [Command(a, false)]
                 && Named(c, actions) == Named(c, before) + [a]
  {
  }

  /** The status offers the candidate for promotion: the first entry under its id is eligible and ready, and it is not
      listed as promoted. */
  ghost predicate Offers(status: Option<Status>, id: CandidateId) {
    && status.Some? && id !in status.value.promoted
    && exists i: nat :: FirstListed(status.value.candidates, i, id)
                     && status.value.candidates[i].eligible && status.value.candidates[i].ready
  }

  /** A promotion request queues a command exactly if the last stored status offers the candidate and no promotion of it
      is pending. */
  lemma PromotionQueuedExactly(c: Config, es: seq<Event>, id: CandidateId)
    ensures var s, a := Run(c, EMPTY_STATE, es), Applied(c, EMPTY_STATE, es);
            (RequestPromotion(c, s, id).commands != s.commands <==>
              (id != Foreign("") && a != [] && Offers(a[|a|-1].batch.status, id) && !Pending(s.commands, PromoteCandidate(id))))
  {
    AppliedIncrease(c, es);
    LatestStatus(c, es);
    hide Run, Applied;
    QueuedWhenOffered(c, Run(c, EMPTY_STATE, es), id);
    hide RequestPromotion, Offers, Pending;
  }

  lemma QueuedWhenOffered(c: Config, s: State, id: CandidateId)
    ensures RequestPromotion(c, s, id).commands != s.commands <==>
              (id != Foreign("") && s.last.Some? && Offers(s.status, id) && !Pending(s.commands, PromoteCandidate(id)))
  {
    if s.status.Some? { FoundIsFirst(s.status.value.candidates, id); }
    hide FindCandidate, FirstListed, Pending;
    assert |s.commands + [Command(PromoteCandidate(id), false)]| == |s.commands| + 1;
    if Offers(s.status, id) {
      var i: nat :| FirstListed(s.status.value.candidates, i, id) && s.status.value.candidates[i].eligible && s.status.value.candidates[i].ready;
      assert FindCandidate(s.status.value.candidates, id) == Some(s.status.value.candidates[i]);
    }
    if PromotionVerdict(c, s, id) == Queued {
      var i: nat :| FirstListed(s.status.value.candidates, i, id);
      assert FindCandidate(s.status.value.candidates, id) == Some(s.status.value.candidates[i]);
    }
  }

  predicate FirstListed(xs: seq<CandidateReport>, i: nat, id: CandidateId) {
    i < |xs| && xs[i].id == id && forall j :: 0 <= j < i ==> xs[j].id != id
  }

  lemma {:induction false} FoundIsFirst(xs: seq<CandidateReport>, id: CandidateId)
    ensures FindCandidate(xs, id).None? <==> forall i :: 0 <= i < |xs| ==> xs[i].id != id
    ensures forall i: nat :: FirstListed(xs, i, id) ==> FindCandidate(xs, id) == Some(xs[i])
    ensures FindCandidate(xs, id).Some? ==> exists i: nat :: FirstListed(xs, i, id)
  {
    if xs != [] && xs[0].id == id {
      assert FirstListed(xs, 0, id);
    } else if xs != [] {
      FoundIsFirst(xs[1..], id);
      forall i: nat | FirstListed(xs, i, id) ensures FindCandidate(xs, id) == Some(xs[i]) { assert FirstListed(xs[1..], i - 1, id); }
      if FindCandidate(xs, id).Some? {
        var i: nat :| FirstListed(xs[1..], i, id);
        assert FirstListed(xs, i + 1, id);
      }
    }
  }

  // ---------- The histories the stored batches leave ----------

  /** The alerts reported by the stored batches, in order. */
  function AlertReports(ds: seq<Delivery>): seq<Alerts.Event> {
    if ds == [] then []
    else
      var b := ds[|ds|-1].batch;
      AlertReports(ds[..|ds|-1]) + if b.alerts.Some? then Alerts.AsEvents(b.alerts.value) else []
  }

  /** The topologies among them, each at Central's time. */
  function Snapshots(ds: seq<Delivery>): seq<Bindings.Snap> {
    if ds == [] then []
    else
      var d := ds[|ds|-1];
      Snapshots(ds[..|ds|-1]) + if d.batch.topology.Present? then [Bindings.Snap(d.now, d.order)] else []
  }

  lemma {:induction false} RunConcatenation(h: Alerts.History, xs: seq<Alerts.Event>, ys: seq<Alerts.Event>)
    ensures Alerts.Run(h, xs + ys) == Alerts.Run(Alerts.Run(h, xs), ys)
  {
    hide Alerts.Step;
    if ys == [] {
      assert xs + ys == xs;
    } else {
      RunConcatenation(h, xs, ys[..|ys|-1]);
      assert (xs + ys)[..|xs + ys|-1] == xs + ys[..|ys|-1];
    }
  }

  lemma {:induction false} AlertsFold(c: Config, ds: seq<Delivery>)
    ensures FoldAll(c, EMPTY_STATE, ds).alerts == Alerts.Run(Alerts.NO_HISTORY, AlertReports(ds))
  {
    if ds != [] {
      var before, d := ds[..|ds|-1], ds[|ds|-1];
      AlertsFold(c, before);
      IngestedAlerts(c, FoldAll(c, EMPTY_STATE, before), d);
      hide Ingest, Alerts.Run;
      if d.batch.alerts.Some? { RunConcatenation(Alerts.NO_HISTORY, AlertReports(before), Alerts.AsEvents(d.batch.alerts.value)); }
      else { assert AlertReports(ds) == AlertReports(before); }
    }
  }

  lemma IngestedAlerts(c: Config, s: State, d: Delivery)
    ensures Ingest(c, s, d).alerts == if d.batch.alerts.Some? then Alerts.Run(s.alerts, Alerts.AsEvents(d.batch.alerts.value)) else s.alerts
  {
    hide Alerts.Run;
  }

  lemma {:induction false} EpisodesFold(c: Config, ds: seq<Delivery>)
    ensures FoldAll(c, EMPTY_STATE, ds).episodes == Bindings.History(c.text, Snapshots(ds))
  {
    if ds != [] {
      var before, d := ds[..|ds|-1], ds[|ds|-1];
      EpisodesFold(c, before);
      IngestedEpisodes(c, FoldAll(c, EMPTY_STATE, before), d);
      hide Ingest, Bindings.Snapshot;
      if d.batch.topology.Present? {
        assert Snapshots(ds)[..|Snapshots(ds)|-1] == Snapshots(before);
      } else {
        assert Snapshots(ds) == Snapshots(before);
      }
    }
  }

  lemma IngestedEpisodes(c: Config, s: State, d: Delivery)
    ensures Ingest(c, s, d).episodes
         == if d.batch.topology.Present? then Bindings.Snapshot(c.text, s.episodes, d.order, d.now) else s.episodes
  {
    hide Bindings.Snapshot;
  }

  /** Whatever the network does, Central's alert history is that of the alerts in the stored batches, its address
      history that of their topologies, and its status the last one stored. */
  lemma NetworkLeavesHistories(c: Config, es: seq<Event>)
    ensures var s, a := Run(c, EMPTY_STATE, es), Applied(c, EMPTY_STATE, es);
            && s.alerts == Alerts.Run(Alerts.NO_HISTORY, AlertReports(a))
            && s.episodes == Bindings.History(c.text, Snapshots(a))
            && s.status == if a == [] then None else a[|a|-1].batch.status
  {
    hide Run, Applied, FoldAll, AlertReports, Snapshots, Alerts.Run, Bindings.History;
    LedgersFoldStoredBatches(c, es);
    AlertsFold(c, Applied(c, EMPTY_STATE, es));
    EpisodesFold(c, Applied(c, EMPTY_STATE, es));
    LatestStatus(c, es);
  }

  lemma LatestStatus(c: Config, es: seq<Event>)
    ensures var a := Applied(c, EMPTY_STATE, es);
            Run(c, EMPTY_STATE, es).status == if a == [] then None else a[|a|-1].batch.status
  {
    LedgersFoldStoredBatches(c, es);
    FoldedStatus(c, Applied(c, EMPTY_STATE, es));
    hide Run, Applied, FoldAll;
  }

  lemma FoldedStatus(c: Config, ds: seq<Delivery>)
    ensures FoldAll(c, EMPTY_STATE, ds).status == if ds == [] then None else ds[|ds|-1].batch.status
  {
  }
}
