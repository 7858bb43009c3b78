/** The betting-simulation engine of the Aviator bot: a bot that replays a
    sequence of crash multipliers, stakes a bet on every round it does not
    skip, and keeps a ledger of round records. Money and multipliers are
    exact reals. */
module Aviator {

  datatype Option<T> = None | Some(value: T)

  /** The staking rule chosen by the `strategy` setting. Any name other than
      the two the bot knows leaves the stake untouched. */
  datatype Strategy = Martingale | AntiMartingale | Other

  /** The settings of one run; they never change while the bot runs. */
  datatype Config = Config(
    baseBet: real,
    cashoutTarget: real,
    startingBalance: real,
    lossStreakThreshold: int,
    strategy: Strategy,
    profitTarget: Option<real>)

  /** The three scalars a run updates. `lossStreak` can go below zero: a
      skipped round decrements it whatever its value. */
  datatype BotState = BotState(balance: real, currentBet: real, lossStreak: int)

  /** One row of the ledger. `win` is `None` on a skipped round. */
  datatype Record = Record(
    round: nat,
    bet: real,
    cashoutTarget: real,
    crashAt: real,
    win: Option<bool>,
    profit: real,
    balance: real,
    note: string)

  datatype StepResult = StepResult(next: BotState, rec: Record)

  datatype RunResult = RunResult(logs: seq<Record>, final: BotState)

  const SkipNote: string := "Skipped due to loss streak"

  /** The strategy that the bot's string comparisons select. */
  function ParseStrategy(name: string): (s: Strategy)
    ensures s == Martingale <==> name == "martingale"
    ensures s == AntiMartingale <==> name == "anti-martingale"
    ensures s == Other <==> name != "martingale" && name != "anti-martingale"
  {
    if name == "martingale" then Martingale
    else if name == "anti-martingale" then AntiMartingale
    else Other
  }

  /** The run state right after construction. */
  function Initial(c: Config): BotState {
    BotState(c.startingBalance, c.baseBet, 0)
  }

  /** The profit target takes part only when it is truthy: present and non-zero. */
  predicate TargetSet(c: Config) {
    c.profitTarget.Some? && c.profitTarget.value != 0.0
  }

  /** The stop check made before each row. */
  predicate TargetReached(c: Config, s: BotState) {
    TargetSet(c) && s.balance - c.startingBalance >= c.profitTarget.value
  }

  /** The bet is withheld while the streak counter is at or above the threshold. */
  predicate Skips(c: Config, s: BotState) {
    s.lossStreak >= c.lossStreakThreshold
  }

  /** The stake for the next active round after a round won or lost with stake `bet`. */
  function NextStake(c: Config, bet: real, win: bool): real {
    match c.strategy
    case Martingale => if win then c.baseBet else bet * 2.0
    case AntiMartingale => if win then bet * 2.0 else c.baseBet
    case Other => bet
  }

  /** One row of the loop, after the profit-target check: a skipped round or
      an active round that is won or lost. */
  function Step(c: Config, s: BotState, multiplier: real, round: nat): (r: StepResult)
    ensures r.rec.round == round && r.rec.crashAt == multiplier
    ensures r.rec.cashoutTarget == c.cashoutTarget
    ensures r.rec.balance == r.next.balance == s.balance + r.rec.profit
    ensures r.rec.win.None? <==> Skips(c, s)
    ensures r.rec.win.Some? ==> r.rec.bet == s.currentBet
    ensures r.rec.win.None? ==> r.next.currentBet == s.currentBet
  {
    if Skips(c, s) then
      StepResult(
        s.(lossStreak := s.lossStreak - 1),
        Record(round, 0.0, c.cashoutTarget, multiplier, None, 0.0, s.balance, SkipNote))
    else if multiplier >= c.cashoutTarget then
      var profit := s.currentBet * (c.cashoutTarget - 1.0);
      StepResult(
        BotState(s.balance + profit, NextStake(c, s.currentBet, true), 0),
        Record(round, s.currentBet, c.cashoutTarget, multiplier, Some(true), profit, s.balance + profit, ""))
    else
      StepResult(
        BotState(s.balance - s.currentBet, NextStake(c, s.currentBet, false), s.lossStreak + 1),
        Record(round, s.currentBet, c.cashoutTarget, multiplier, Some(false), -s.currentBet,
               s.balance - s.currentBet, ""))
  }

  /** The ruin check: it follows active rounds only. */
  predicate Ruined(rec: Record) {
    rec.win.Some? && rec.balance <= 0.0
  }

  /** Record `k` of `logs` is the record of row `i + k` of `data`, labelled `i + k + 1`. */
  predicate InRowOrder(logs: seq<Record>, data: seq<real>, i: nat) {
    |logs| <= |data| - i
    && forall k :: 0 <= k < |logs| ==> logs[k].round == i + k + 1 && logs[k].crashAt == data[i + k]
  }

  /** The records the loop emits for rows `i..` of `data` from state `s`,
      and the state it leaves behind. */
  function RunFrom(c: Config, s: BotState, data: seq<real>, i: nat): (r: RunResult)
    requires i <= |data|
    ensures InRowOrder(r.logs, data, i)
    decreases |data| - i
  {
    if i == |data| || TargetReached(c, s) then RunResult([], s)
    else
      var st := Step(c, s, data[i], i + 1);
      if Ruined(st.rec) then RunResult([st.rec], st.next)
      else
        var rest := RunFrom(c, st.next, data, i + 1);
        RunResult([st.rec] + rest.logs, rest.final)
  }

  /** How the ledger grows by one row that passes the profit-target check:
      `prefix` followed by the rest of the run is unchanged when the row's
      record moves from the rest into the prefix. */
  lemma LedgerAdvance(c: Config, s: BotState, data: seq<real>, i: nat, prefix: seq<Record>)
    requires i < |data| && !TargetReached(c, s)
    ensures var st := Step(c, s, data[i], i + 1);
            var whole := RunFrom(c, s, data, i);
            if Ruined(st.rec) then prefix + [st.rec] == prefix + whole.logs && st.next == whole.final
            else prefix + [st.rec] + RunFrom(c, st.next, data, i + 1).logs == prefix + whole.logs
                 && RunFrom(c, st.next, data, i + 1).final == whole.final
  {
  }

  /** The bot object: its settings, its run state and its ledger. */
  class AviatorBot {
    const data: seq<real>
    const baseBet: real
    const cashoutTarget: real
    var balance: real
    const lossStreakThreshold: int
    const strategy: Strategy
    const profitTarget: Option<real>
    var currentBet: real
    var logs: seq<Record>
    var lossStreak: int
    const startingBalance: real

    function Settings(): Config {
      Config(baseBet, cashoutTarget, startingBalance, lossStreakThreshold, strategy, profitTarget)
    }

    function Snapshot(): BotState
      reads this
    {
      BotState(balance, currentBet, lossStreak)
    }

    constructor (data: seq<real>, baseBet: real, cashoutTarget: real, balance: real,
                 lossStreakThreshold: int, strategy: Strategy, profitTarget: Option<real>)
      ensures this.data == data
      ensures Settings() == Config(baseBet, cashoutTarget, balance, lossStreakThreshold, strategy, profitTarget)
      ensures Snapshot() == Initial(Settings()) && logs == []
    {
      this.data := data;
      this.baseBet := baseBet;
      this.cashoutTarget := cashoutTarget;
      this.balance := balance;
      this.lossStreakThreshold := lossStreakThreshold;
      this.strategy := strategy;
      this.profitTarget := profitTarget;
      this.currentBet := baseBet;
      this.logs := [];
      this.lossStreak := 0;
      this.startingBalance := balance;
    }

    /** An active round: settles the bet on `multiplier`, adjusts the stake
        and returns the record of the round (not yet appended to the ledger). */
    method PlayRound(multiplier: real, round: nat) returns (rec: Record)
      requires !Skips(Settings(), Snapshot())
      modifies this`balance, this`currentBet, this`lossStreak
      ensures StepResult(Snapshot(), rec) == Step(Settings(), old(Snapshot()), multiplier, round)
    {
      var bet := currentBet;
      var win: bool;
      var profit: real;
      if multiplier >= cashoutTarget {
        profit := currentBet * (cashoutTarget - 1.0);
        balance := balance + profit;
        win := true;
        lossStreak := 0;
        if strategy == Martingale {
          currentBet := baseBet;
        } else if strategy == AntiMartingale {
          currentBet := currentBet * 2.0;
        }
      } else {
        balance := balance - currentBet;
        win := false;
        profit := -currentBet;
        lossStreak := lossStreak + 1;
        if strategy == Martingale {
          currentBet := currentBet * 2.0;
        } else if strategy == AntiMartingale {
          currentBet := baseBet;
        }
      }
      rec := Record(round, bet, cashoutTarget, multiplier, Some(win), profit, balance, "");
    }

    /** Replays every row of `data` until a stop condition fires, appending
        one record per processed row, and returns the whole ledger. */
    method Run() returns (result: seq<Record>)
      modifies this
      ensures logs == old(logs) + RunFrom(Settings(), old(Snapshot()), data, 0).logs
      ensures Snapshot() == RunFrom(Settings(), old(Snapshot()), data, 0).final
      ensures result == logs
    {
      ghost var total := RunFrom(Settings(), Snapshot(), data, 0);
      ghost var earlier := logs;
      for i := 0 to |data|
        invariant logs + RunFrom(Settings(), Snapshot(), data, i).logs == earlier + total.logs
        invariant RunFrom(Settings(), Snapshot(), data, i).final == total.final
      {
        if profitTarget.Some? && profitTarget.value != 0.0
           && balance - startingBalance >= profitTarget.value
        {
          break;
        }
        var multiplier := data[i];
        ghost var before := Snapshot();
        ghost var step := Step(Settings(), before, multiplier, i + 1);
        LedgerAdvance(Settings(), before, data, i, logs);

        if lossStreak >= lossStreakThreshold {
          logs := logs + [Record(i + 1, 0.0, cashoutTarget, multiplier, None, 0.0, balance, SkipNote)];
          lossStreak := lossStreak - 1;
          assert step == StepResult(Snapshot(), logs[|logs| - 1]);
          continue;
        }

        var rec := PlayRound(multiplier, i + 1);
        assert step == StepResult(Snapshot(), rec);
        logs := logs + [rec];

        if balance <= 0.0 {
          break;
        }
      }
      result := logs;
    }
  }
}
