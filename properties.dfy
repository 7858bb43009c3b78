/** What the engine promises: the effect of each kind of round, and the
    invariants of a whole run (ledger reconciliation, one record per row in
    order, the stop conditions and the shape of the stake). */
module AviatorProperties {
  import opened Aviator

  // ---------------------------------------------------------------------
  // One round

  /** A skipped round withholds the bet and only decays the streak counter. */
  lemma SkippedRound(c: Config, s: BotState, multiplier: real, round: nat)
    requires Skips(c, s)
    ensures var r := Step(c, s, multiplier, round);
            r.rec.bet == 0.0 && r.rec.profit == 0.0 && r.rec.win == None
            && r.rec.balance == s.balance && r.rec.note == SkipNote
            && r.next.balance == s.balance && r.next.currentBet == s.currentBet
            && r.next.lossStreak == s.lossStreak - 1
  {
  }

  /** A won round pays the stake times (target - 1) and clears the streak. */
  lemma WinningRound(c: Config, s: BotState, multiplier: real, round: nat)
    requires !Skips(c, s) && multiplier >= c.cashoutTarget
    ensures var r := Step(c, s, multiplier, round);
            r.rec.profit == s.currentBet * (c.cashoutTarget - 1.0)
            && r.next.balance == s.balance + s.currentBet * (c.cashoutTarget - 1.0)
            && r.rec.win == Some(true) && r.rec.bet == s.currentBet && r.rec.note == ""
            && r.next.lossStreak == 0
            && r.next.currentBet == NextStake(c, s.currentBet, true)
  {
  }

  /** A lost round forfeits the stake placed and extends the streak. */
  lemma LosingRound(c: Config, s: BotState, multiplier: real, round: nat)
    requires !Skips(c, s) && multiplier < c.cashoutTarget
    ensures var r := Step(c, s, multiplier, round);
            r.rec.profit == -s.currentBet && r.next.balance == s.balance - s.currentBet
            && r.rec.win == Some(false) && r.rec.bet == s.currentBet && r.rec.note == ""
            && r.next.lossStreak == s.lossStreak + 1
            && r.next.currentBet == NextStake(c, s.currentBet, false)
  {
  }

  /** The stake rules of the three strategies. */
  lemma StakeAdjustment(c: Config, bet: real)
    ensures c.strategy == Martingale ==>
              NextStake(c, bet, true) == c.baseBet && NextStake(c, bet, false) == 2.0 * bet
    ensures c.strategy == AntiMartingale ==>
              NextStake(c, bet, true) == 2.0 * bet && NextStake(c, bet, false) == c.baseBet
    ensures c.strategy == Other ==>
              NextStake(c, bet, true) == bet && NextStake(c, bet, false) == bet
  {
  }

  // ---------------------------------------------------------------------
  // The shape of the stake

  function Pow2(k: nat): real {
    if k == 0 then 1.0 else 2.0 * Pow2(k - 1)
  }

  /** `bet` is the base bet doubled some number of times. */
  ghost predicate IsStake(c: Config, bet: real) {
    exists k: nat :: bet == c.baseBet * Pow2(k)
  }

  lemma BaseBetIsStake(c: Config)
    ensures IsStake(c, c.baseBet)
  {
    assert c.baseBet == c.baseBet * Pow2(0);
  }

  lemma NextStakeIsStake(c: Config, bet: real, win: bool)
    requires IsStake(c, bet)
    ensures IsStake(c, NextStake(c, bet, win))
  {
    var k: nat :| bet == c.baseBet * Pow2(k);
    assert 2.0 * bet == c.baseBet * Pow2(k + 1);
    BaseBetIsStake(c);
  }

  /** Started from a stake of that shape, every bet placed and the final
      stake are the base bet doubled some number of times. */
  lemma {:induction false} StakeShape(c: Config, s: BotState, data: seq<real>, i: nat)
    requires i <= |data| && IsStake(c, s.currentBet)
    ensures var r := RunFrom(c, s, data, i);
            IsStake(c, r.final.currentBet)
            && forall k :: 0 <= k < |r.logs| && r.logs[k].win.Some? ==> IsStake(c, r.logs[k].bet)
    decreases |data| - i
  {
    if i < |data| && !TargetReached(c, s) {
      var st := Step(c, s, data[i], i + 1);
      if st.rec.win.Some? {
        NextStakeIsStake(c, s.currentBet, st.rec.win.value);
      }
      assert IsStake(c, st.next.currentBet);
      if !Ruined(st.rec) {
        StakeShape(c, st.next, data, i + 1);
        var rest := RunFrom(c, st.next, data, i + 1);
        assert forall k :: 1 <= k < |rest.logs| + 1 ==> ([st.rec] + rest.logs)[k] == rest.logs[k - 1];
      }
    }
  }

  // ---------------------------------------------------------------------
  // The ledger

  function SumProfit(recs: seq<Record>): real {
    if recs == [] then 0.0 else recs[0].profit + SumProfit(recs[1..])
  }

  /** Every record's balance is the opening balance plus the profits of that
      record and all earlier ones; so is the final balance for the whole ledger. */
  lemma {:induction false} BalanceReconciliation(c: Config, s: BotState, data: seq<real>, i: nat)
    requires i <= |data|
    ensures var r := RunFrom(c, s, data, i);
            r.final.balance == s.balance + SumProfit(r.logs)
            && forall k :: 0 <= k < |r.logs| ==> r.logs[k].balance == s.balance + SumProfit(r.logs[..k + 1])
    decreases |data| - i
  {
    if i < |data| && !TargetReached(c, s) {
      var st := Step(c, s, data[i], i + 1);
      var logs := RunFrom(c, s, data, i).logs;
      assert logs[..1] == [st.rec];
      if !Ruined(st.rec) {
        BalanceReconciliation(c, st.next, data, i + 1);
        var rest := RunFrom(c, st.next, data, i + 1).logs;
        assert logs == [st.rec] + rest;
        forall k | 1 <= k < |logs|
          ensures logs[k].balance == s.balance + SumProfit(logs[..k + 1])
        {
          assert logs[..k + 1][1..] == rest[..k];
          assert logs[k] == rest[k - 1];
        }
        assert logs[1..] == rest;
      }
    }
  }

  /** No record follows a ruined active round. */
  predicate RuinIsLast(logs: seq<Record>) {
    forall k :: 0 <= k < |logs| && Ruined(logs[k]) ==> k == |logs| - 1
  }

  /** A ruined active round is the last record of the run. */
  lemma {:induction false} RuinEndsRun(c: Config, s: BotState, data: seq<real>, i: nat)
    requires i <= |data|
    ensures RuinIsLast(RunFrom(c, s, data, i).logs)
    decreases |data| - i
  {
    if i < |data| && !TargetReached(c, s) {
      var st := Step(c, s, data[i], i + 1);
      if !Ruined(st.rec) {
        RuinEndsRun(c, st.next, data, i + 1);
        var logs := RunFrom(c, s, data, i).logs;
        var rest := RunFrom(c, st.next, data, i + 1).logs;
        assert logs == [st.rec] + rest;
        forall k | 0 <= k < |logs| && Ruined(logs[k])
          ensures k == |logs| - 1
        {
          assert logs[k] == rest[k - 1];
        }
      }
    }
  }

  /** Every record was processed while the profit before its round was
      below the target. */
  predicate PlayedBelowTarget(c: Config, logs: seq<Record>)
    requires TargetSet(c)
  {
    forall k :: 0 <= k < |logs| ==>
      logs[k].balance - logs[k].profit - c.startingBalance < c.profitTarget.value
  }

  /** No record follows one whose balance reaches the target. */
  predicate TargetHitIsLast(c: Config, logs: seq<Record>)
    requires TargetSet(c)
  {
    forall k :: 0 <= k < |logs| && logs[k].balance - c.startingBalance >= c.profitTarget.value ==>
      k == |logs| - 1
  }

  /** With the profit target set, a row is processed only while the profit
      so far is below the target, and a record whose balance reaches the
      target is the last one. */
  lemma {:induction false} ProfitTargetStop(c: Config, s: BotState, data: seq<real>, i: nat)
    requires i <= |data|
    ensures var r := RunFrom(c, s, data, i);
            (TargetReached(c, s) ==> r.logs == [] && r.final == s)
            && (TargetSet(c) ==> PlayedBelowTarget(c, r.logs) && TargetHitIsLast(c, r.logs))
    decreases |data| - i
  {
    if i < |data| && !TargetReached(c, s) {
      var st := Step(c, s, data[i], i + 1);
      if !Ruined(st.rec) {
        ProfitTargetStop(c, st.next, data, i + 1);
        var logs := RunFrom(c, s, data, i).logs;
        var rest := RunFrom(c, st.next, data, i + 1).logs;
        assert logs == [st.rec] + rest;
        if TargetSet(c) {
          assert PlayedBelowTarget(c, rest) && TargetHitIsLast(c, rest);
          forall k | 0 <= k < |logs|
            ensures logs[k].balance - logs[k].profit - c.startingBalance < c.profitTarget.value
          {
            if k > 0 {
              assert logs[k] == rest[k - 1];
            }
          }
          forall k | 0 <= k < |logs| && logs[k].balance - c.startingBalance >= c.profitTarget.value
            ensures k == |logs| - 1
          {
            if k == 0 {
              assert TargetReached(c, st.next);
            } else {
              assert logs[k] == rest[k - 1];
            }
          }
        }
      }
    }
  }

  /** The run consumes every row unless it stops on ruin or on the profit target. */
  lemma {:induction false} StopReason(c: Config, s: BotState, data: seq<real>, i: nat)
    requires i <= |data|
    ensures var r := RunFrom(c, s, data, i);
            |r.logs| < |data| - i ==>
              TargetReached(c, r.final) || (|r.logs| > 0 && Ruined(r.logs[|r.logs| - 1]))
    decreases |data| - i
  {
    if i < |data| && !TargetReached(c, s) {
      var st := Step(c, s, data[i], i + 1);
      if !Ruined(st.rec) {
        StopReason(c, st.next, data, i + 1);
        var r := RunFrom(c, s, data, i);
        var rest := RunFrom(c, st.next, data, i + 1);
        assert r.logs == [st.rec] + rest.logs && r.final == rest.final;
        if rest.logs != [] {
          assert r.logs[|r.logs| - 1] == rest.logs[|rest.logs| - 1];
        }
      }
    }
  }

  /** Without a truthy profit target only ruin can end the run early. */
  lemma NoTargetNoEarlyStop(c: Config, s: BotState, data: seq<real>, i: nat)
    requires i <= |data| && !TargetSet(c)
    ensures var r := RunFrom(c, s, data, i);
            |r.logs| == |data| - i || (|r.logs| > 0 && Ruined(r.logs[|r.logs| - 1]))
  {
    StopReason(c, s, data, i);
  }

  /** Every record strictly between positions `lo` and `hi` is a skipped round. */
  predicate SkippedBetween(logs: seq<Record>, lo: int, hi: int) {
    forall j :: lo < j < hi && 0 <= j < |logs| ==> logs[j].win.None?
  }

  /** Skipped rounds leave the stake alone: the first active record of a run
      bets the stake the run started with. */
  lemma {:induction false} FirstActiveBet(c: Config, s: BotState, data: seq<real>, i: nat, j: nat)
    requires i <= |data|
    requires var logs := RunFrom(c, s, data, i).logs;
             j < |logs| && logs[j].win.Some? && SkippedBetween(logs, -1, j)
    ensures RunFrom(c, s, data, i).logs[j].bet == s.currentBet
    decreases |data| - i
  {
    var st := Step(c, s, data[i], i + 1);
    var logs := RunFrom(c, s, data, i).logs;
    assert logs[0] == st.rec;
    if j > 0 {
      assert st.rec.win.None?;
      var rest := RunFrom(c, st.next, data, i + 1).logs;
      assert logs == [st.rec] + rest;
      forall m | -1 < m < j - 1 && 0 <= m < |rest|
        ensures rest[m].win.None?
      {
        assert rest[m] == logs[m + 1];
      }
      FirstActiveBet(c, st.next, data, i + 1, j - 1);
    }
  }

  /** When only skipped records lie between two active records, the later
      bet is the stake the strategy derives from the earlier round. */
  lemma {:induction false} StakeCarriesOver(c: Config, s: BotState, data: seq<real>, i: nat, k: nat, k2: nat)
    requires i <= |data|
    requires var logs := RunFrom(c, s, data, i).logs;
             k < k2 < |logs| && logs[k].win.Some? && logs[k2].win.Some? && SkippedBetween(logs, k, k2)
    ensures var logs := RunFrom(c, s, data, i).logs;
            logs[k2].bet == NextStake(c, logs[k].bet, logs[k].win.value)
    decreases |data| - i
  {
    var st := Step(c, s, data[i], i + 1);
    var logs := RunFrom(c, s, data, i).logs;
    var rest := RunFrom(c, st.next, data, i + 1).logs;
    assert logs == [st.rec] + rest;
    assert logs[k2] == rest[k2 - 1];
    assert SkippedBetween(rest, k - 1, k2 - 1) by {
      forall j | k - 1 < j < k2 - 1 && 0 <= j < |rest|
        ensures rest[j].win.None?
      {
        assert rest[j] == logs[j + 1];
      }
    }
    if k == 0 {
      assert logs[0] == st.rec;
      FirstActiveBet(c, st.next, data, i + 1, k2 - 1);
    } else {
      assert logs[k] == rest[k - 1];
      StakeCarriesOver(c, st.next, data, i + 1, k - 1, k2 - 1);
    }
  }

  // ---------------------------------------------------------------------
  // A fresh run

  /** Everything above, for a run that starts from the state the bot is
      constructed with. */
  lemma FreshRun(c: Config, data: seq<real>)
    ensures var r := RunFrom(c, Initial(c), data, 0);
            |r.logs| <= |data|
            && (forall k :: 0 <= k < |r.logs| ==> r.logs[k].round == k + 1 && r.logs[k].crashAt == data[k])
            && (forall k :: 0 <= k < |r.logs| ==>
                  r.logs[k].balance == c.startingBalance + SumProfit(r.logs[..k + 1]))
            && r.final.balance == c.startingBalance + SumProfit(r.logs)
            && RuinIsLast(r.logs)
            && (forall k :: 0 <= k < |r.logs| && r.logs[k].win.Some? ==> IsStake(c, r.logs[k].bet))
            && IsStake(c, r.final.currentBet)
            && (|r.logs| < |data| ==>
                  TargetReached(c, r.final) || (|r.logs| > 0 && Ruined(r.logs[|r.logs| - 1])))
  {
    BalanceReconciliation(c, Initial(c), data, 0);
    RuinEndsRun(c, Initial(c), data, 0);
    BaseBetIsStake(c);
    StakeShape(c, Initial(c), data, 0);
    StopReason(c, Initial(c), data, 0);
  }

  /** With a threshold of 0 the first row is skipped (0 >= 0) and drives the
      streak to -1, so the second row is played: the bot does not stall. */
  lemma ThresholdZero(c: Config, data: seq<real>)
    requires c.lossStreakThreshold == 0 && |data| >= 2 && !TargetReached(c, Initial(c))
    ensures var r := RunFrom(c, Initial(c), data, 0);
            |r.logs| >= 2 && r.logs[0].win == None && r.logs[1].win.Some?
  {
    var st := Step(c, Initial(c), data[0], 1);
    assert st.next == Initial(c).(lossStreak := -1);
    var st2 := Step(c, st.next, data[1], 2);
    assert st2.rec.win.Some?;
  }

  // ---------------------------------------------------------------------
  // Worked examples

  /** Martingale on [3.0, 1.5, 2.5]: win, loss, win on a doubled stake. */
  lemma MartingaleExample()
    ensures var c := Config(10.0, 2.0, 1000.0, 3, Martingale, None);
            var r := RunFrom(c, Initial(c), [3.0, 1.5, 2.5], 0);
            r.logs == [Record(1, 10.0, 2.0, 3.0, Some(true), 10.0, 1010.0, ""),
                       Record(2, 10.0, 2.0, 1.5, Some(false), -10.0, 1000.0, ""),
                       Record(3, 20.0, 2.0, 2.5, Some(true), 20.0, 1020.0, "")]
            && r.final == BotState(1020.0, 10.0, 0)
  {
    var c := Config(10.0, 2.0, 1000.0, 3, Martingale, None);
    var data := [3.0, 1.5, 2.5];
    var s1 := BotState(1010.0, 10.0, 0);
    var s2 := BotState(1000.0, 20.0, 1);
    var s3 := BotState(1020.0, 10.0, 0);
    assert RunFrom(c, s3, data, 3) == RunResult([], s3);
    assert RunFrom(c, s2, data, 2).logs == [Record(3, 20.0, 2.0, 2.5, Some(true), 20.0, 1020.0, "")];
    assert RunFrom(c, s1, data, 1).logs == [Record(2, 10.0, 2.0, 1.5, Some(false), -10.0, 1000.0, "")]
                                           + RunFrom(c, s2, data, 2).logs;
  }

  /** Ruin: from 15 with every round lost, the second loss ends the run. */
  lemma RuinExample()
    ensures var c := Config(10.0, 2.0, 15.0, 3, Martingale, None);
            var r := RunFrom(c, Initial(c), [1.5, 1.2, 1.1], 0);
            r.logs == [Record(1, 10.0, 2.0, 1.5, Some(false), -10.0, 5.0, ""),
                       Record(2, 20.0, 2.0, 1.2, Some(false), -20.0, -15.0, "")]
  {
    var c := Config(10.0, 2.0, 15.0, 3, Martingale, None);
    var data := [1.5, 1.2, 1.1];
    var s1 := BotState(5.0, 20.0, 1);
    assert RunFrom(c, s1, data, 1).logs == [Record(2, 20.0, 2.0, 1.2, Some(false), -20.0, -15.0, "")];
  }
}
