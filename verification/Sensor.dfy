/** How a sensor executes Central's state-changing commands, and what its next report then says about them. */
module Sensor {
  import opened Options
  import BaselineModel
  import BaselineSpec
  import BaselineReachable
  import BaselineEngine
  import Assets
  import AssetEngine
  import Bindings
  import Protocol
  import Telemetry

  /** `flushed` says whether the state reached the disk, `otherAllows` whether the sensor's other learning engine
      lets learning be completed. */
  class Sensor {
    const baseline: BaselineEngine.Engine
    const assets: AssetEngine.Engine

    constructor (b: BaselineEngine.Engine, a: AssetEngine.Engine)
      ensures baseline == b && assets == a
    {
      baseline, assets := b, a;
    }

    method ApplyCommand(command: Telemetry.Action, now: BaselineModel.Time, flushed: bool, otherAllows: bool)
      requires baseline.Valid()
      modifies baseline, assets
      ensures baseline.Valid()
      ensures baseline.View() ==
                match command
                case PromoteCandidate(id) => Protocol.ApplyPromotion(baseline.config, old(baseline.View()), id, now, flushed)
                case CompleteLearning(force) =>
                  if otherAllows then BaselineSpec.CompleteLearning(baseline.config, old(baseline.View()), force, now)
                  else old(baseline.View())
                case _ => old(baseline.View())
      ensures assets.View() ==
                match command
                case ConfirmAsset(mac) => Assets.Confirm(assets.config, old(assets.View()), mac)
                case DeleteAsset(mac) => Assets.Delete(assets.config, old(assets.View()), mac)
                case _ => old(assets.View())
    {
      hide BaselineReachable.Good, BaselineSpec.Promote, BaselineSpec.CompleteLearning, BaselineSpec.PromoteVerdict;
      match command {
        case PromoteCandidate(id) =>
          var verdict := baseline.PromoteCandidate(id, now);
          if !Protocol.Succeeds(verdict) {
            baseline.RecordPromotionFailure(id, verdict, now);
          } else if !flushed {
            baseline.RecordPromotionFailure(id, BaselineModel.NotPersisted, now);
          }
        case CompleteLearning(force) =>
          if otherAllows {
            var changed, result := baseline.CompleteLearning(force, now);
          }
        case ConfirmAsset(mac) =>
          var found := assets.Confirm(mac);
        case DeleteAsset(mac) =>
          var found := assets.Delete(mac);
        case _ =>
      }
    }
  }

  /** The topology part of a batch shows the inventory: one node per asset, under its hardware address. */
  ghost predicate Shows(nodes: seq<Bindings.Node>, inventory: map<string, Assets.Asset>) {
    && (forall m :: m in inventory ==> exists n :: n in nodes && n.mac == m && n.confirmed == inventory[m].confirmed)
    && (forall n :: n in nodes ==> n.mac in inventory)
  }

  /** Hardware addresses as the sensor writes them are already trimmed and lower case. */
  ghost predicate PlainMacs(tc: Telemetry.Config, inventory: map<string, Assets.Asset>, m: string) {
    && m != "" && tc.text.lower(m) == m && tc.text.lower(tc.text.trim(m)) == m
    && forall k :: k in inventory ==> tc.text.lower(tc.text.trim(k)) == k
  }

  /** A confirmed asset is reported confirmed for as long as it is reported at all, so the first stored batch that
      shows it retires the command, however long the asset was away in between. */
  lemma ConfirmedAssetRetires(ac: Assets.Config, st: Assets.State, m: string, es: seq<Assets.Event>,
                              tc: Telemetry.Config, central: Telemetry.State, d: Telemetry.Delivery, i: nat)
    requires ac.canonicalMAC(m) == Some(m) && m in st.assets && st.assets[m].mac == m
    requires forall j :: 0 <= j < |es| ==> Assets.KeepsTrust(ac, es[j], m)
    requires var inventory := Assets.Run(ac, Assets.Confirm(ac, st, m), es).assets;
             m in inventory && PlainMacs(tc, inventory, m)
             && d.batch.topology.Present? && Shows(d.batch.topology.nodes, inventory)
    requires Telemetry.Stores(tc, central, Telemetry.Deliver(d))
    requires i < |central.commands| && central.commands[i].action == Telemetry.ConfirmAsset(m)
    ensures Telemetry.Step(tc, central, Telemetry.Deliver(d)).commands[i].delivered
  {
    hide Assets.Run, Assets.Confirm, Telemetry.Step, Telemetry.Stores, Assets.KeepsTrust;
    Assets.ConfirmationHolds(ac, st, m, es, m);
    var inventory := Assets.Run(ac, Assets.Confirm(ac, st, m), es).assets;
    var n :| n in d.batch.topology.nodes && n.mac == m && n.confirmed == inventory[m].confirmed;
    assert tc.text.lower(tc.text.trim(n.mac)) in Telemetry.ConfirmedMacs(tc, d.batch.topology);
    Telemetry.CommandStep(tc, central, Telemetry.Deliver(d), i);
  }

  predicate NoSightingOf(ac: Assets.Config, e: Assets.Event, m: string) {
    e.Sighted? ==> Assets.MacOf(ac, e.s.mac) != Some(m)
  }

  lemma {:induction false} StaysDeleted(ac: Assets.Config, st: Assets.State, es: seq<Assets.Event>, m: string)
    requires m !in st.assets && forall j :: 0 <= j < |es| ==> NoSightingOf(ac, es[j], m)
    ensures m !in Assets.Run(ac, st, es).assets
  {
    if es != [] {
      StaysDeleted(ac, st, es[..|es|-1], m);
      DeletedStep(ac, Assets.Run(ac, st, es[..|es|-1]), es[|es|-1], m);
      hide Assets.Step;
    }
  }

  lemma DeletedStep(ac: Assets.Config, st: Assets.State, e: Assets.Event, m: string)
    requires m !in st.assets && NoSightingOf(ac, e, m)
    ensures m !in Assets.Step(ac, st, e).assets
  {
    hide Assets.MacOf, Assets.Owned, Assets.Recorded;
  }

  /** A deleted asset is missing from every report until it is seen again, so the first stored batch with a
      topology retires the command. */
  lemma DeletedAssetRetires(ac: Assets.Config, st: Assets.State, m: string, es: seq<Assets.Event>,
                            tc: Telemetry.Config, central: Telemetry.State, d: Telemetry.Delivery, i: nat)
    requires ac.canonicalMAC(m) == Some(m) && forall j :: 0 <= j < |es| ==> NoSightingOf(ac, es[j], m)
    requires var inventory := Assets.Run(ac, Assets.Delete(ac, st, m), es).assets;
             PlainMacs(tc, inventory, m) && d.batch.topology.Present? && Shows(d.batch.topology.nodes, inventory)
    requires Telemetry.Stores(tc, central, Telemetry.Deliver(d))
    requires i < |central.commands| && central.commands[i].action == Telemetry.DeleteAsset(m)
    ensures Telemetry.Step(tc, central, Telemetry.Deliver(d)).commands[i].delivered
  {
    hide Assets.Run, Telemetry.Step, Telemetry.Stores, NoSightingOf;
    StaysDeleted(ac, Assets.Delete(ac, st, m), es, m);
    assert m !in Telemetry.PresentMacs(tc, d.batch.topology);
    Telemetry.CommandStep(tc, central, Telemetry.Deliver(d), i);
  }
}
