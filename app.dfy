/** The one caller of the engine: it builds a bot from the control-panel
    settings, runs it, and hands the ledger on for display and export. */
module AviatorApp {
  import opened Aviator
  import opened AviatorProperties

  /** The control panel's profit-target input: zero (its default) means no target. */
  function ProfitTargetOption(x: real): (r: Option<real>)
    ensures r.Some? <==> x > 0.0
    ensures r.Some? ==> r.value == x
  {
    if x > 0.0 then Some(x) else None
  }

  /** The settings a run is given for the control-panel values. */
  function PanelConfig(baseBet: real, cashoutTarget: real, startingBalance: real,
                       lossStreakThreshold: int, strategyName: string, profitTarget: real): (c: Config)
    ensures TargetSet(c) <==> profitTarget > 0.0
  {
    Config(baseBet, cashoutTarget, startingBalance, lossStreakThreshold,
           ParseStrategy(strategyName), ProfitTargetOption(profitTarget))
  }

  /** Builds a bot and runs it over `data`; the ledger it returns is the
      engine's run from the initial state, with the run invariants. */
  method Simulate(data: seq<real>, baseBet: real, cashoutTarget: real, startingBalance: real,
                  lossStreakThreshold: int, strategyName: string, profitTarget: real)
    returns (results: seq<Record>)
    ensures results == [] <==> data == []
    ensures var c := PanelConfig(baseBet, cashoutTarget, startingBalance, lossStreakThreshold,
                                 strategyName, profitTarget);
            results == RunFrom(c, Initial(c), data, 0).logs
    ensures |results| <= |data|
    ensures forall k :: 0 <= k < |results| ==> results[k].round == k + 1 && results[k].crashAt == data[k]
    ensures forall k :: 0 <= k < |results| ==>
              results[k].balance == startingBalance + SumProfit(results[..k + 1])
    ensures RuinIsLast(results)
    ensures forall k :: 0 <= k < |results| && results[k].win.Some? ==>
              IsStake(PanelConfig(baseBet, cashoutTarget, startingBalance, lossStreakThreshold,
                                  strategyName, profitTarget), results[k].bet)
    ensures var c := PanelConfig(baseBet, cashoutTarget, startingBalance, lossStreakThreshold,
                                 strategyName, profitTarget);
            |results| < |data| ==>
              TargetReached(c, RunFrom(c, Initial(c), data, 0).final)
              || (results != [] && Ruined(results[|results| - 1]))
    ensures profitTarget <= 0.0 ==>
              |results| == |data| || (results != [] && Ruined(results[|results| - 1]))
  {
    var c := PanelConfig(baseBet, cashoutTarget, startingBalance, lossStreakThreshold,
                         strategyName, profitTarget);
    var bot := new AviatorBot(data, baseBet, cashoutTarget, startingBalance, lossStreakThreshold,
                              ParseStrategy(strategyName), ProfitTargetOption(profitTarget));
    results := bot.Run();
    FreshRun(c, data);
    if profitTarget <= 0.0 {
      NoTargetNoEarlyStop(c, Initial(c), data, 0);
    }
  }
}
