/**
 * The energy-optimizer heuristic of ai_models/optimizer.py: two threshold
 * rules, each appending one set-point action, and a constant savings
 * estimate. A missing reading counts as 0.
 */
module Optimizer {
  import opened Metrics

  datatype Action = Action(loop: string, action: string, amountPercent: real)
  datatype Plan = Plan(actions: seq<Action>, estimatedSavingsPercent: real)

  const MillAction := Action("mill", "reduce_feed", 1.5)
  const FuelAction := Action("fuel", "increase_AF", 1.0)
  const EstimatedSavingsPercent := 1.2

  /**
   * `optimize_energy`: the mill action is proposed exactly when the mill
   * power strictly exceeds 4300 kW, the fuel action exactly when the AF
   * rate is strictly below 20 %, the mill action first, each at most once.
   */
  method OptimizeEnergy(latest: Snapshot) returns (plan: Plan)
    ensures MillAction in plan.actions <==> GetOr(latest, MillPowerKey, 0.0) > 4300.0
    ensures FuelAction in plan.actions <==> GetOr(latest, AfRateKey, 0.0) < 20.0
    ensures forall a :: a in plan.actions ==> a == MillAction || a == FuelAction
    ensures |plan.actions| == (if MillAction in plan.actions then 1 else 0) + (if FuelAction in plan.actions then 1 else 0)
    ensures MillAction in plan.actions ==> plan.actions[0] == MillAction
    ensures MillPowerKey !in latest ==> MillAction !in plan.actions
    ensures AfRateKey !in latest ==> FuelAction in plan.actions
    ensures plan.estimatedSavingsPercent == 1.2
  {
    var actions: seq<Action> := [];
    if GetOr(latest, MillPowerKey, 0.0) > 4300.0 {
      actions := actions + [MillAction];
    }
    if GetOr(latest, AfRateKey, 0.0) < 20.0 {
      actions := actions + [FuelAction];
    }
    plan := Plan(actions, EstimatedSavingsPercent);
  }
}
