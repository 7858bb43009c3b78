# Aviator bot simulation engine in Dafny

This project models the `AviatorBot` simulation engine of the Aviator bot simulator. The bot replays an ordered sequence of crash multipliers. Before each row it checks the profit target. While the loss-streak counter is at or above the threshold, it skips the row: it withholds the bet, logs the row, and decrements the counter. On every other row it stakes `current_bet`. The round is won when the multiplier reaches the cashout target and lost otherwise. The stake then moves by the martingale or anti-martingale rule, and the run stops once the balance drops to zero or below. Each processed row adds one record to the ledger.

Files:

- `aviator.dfy` (module `Aviator`) holds the data model, covering the settings, the run state and the round record. It also holds the pure one-row transition `Step`, the whole-run function `RunFrom`, and the class `AviatorBot`. That class has the source's fields. Its `Run` method is the source's `for` loop with `break` and `continue`, updating `balance`, `currentBet`, `lossStreak` and `logs` in place. `Run` is proved equal to `RunFrom` by loop invariants.
- `properties.dfy` (module `AviatorProperties`) holds the lemmas about one round and about whole runs.
- `app.dfy` (module `AviatorApp`) covers the Streamlit script's call of the engine. This is the mapping of the panel's profit target, where 0 means none, followed by construction and `run()`.

Modelling choices:

- **Numbers.** Money and multipliers are exact `real`s. The loss-streak counter is an `int`, because it can go below zero.
- **Input and round labels.** The input is a `seq<real>`, and the round label of row `i` is `i + 1`, as with the default index that `iterrows` yields.
- **Strategy.** `strategy` is the datatype `Martingale | AntiMartingale | Other`. `ParseStrategy` gives the mapping that the source's string comparisons make. Under `Other`, the stake never changes.
- **Profit target.** The profit target is an `Option<real>`. It takes part only when it is truthy in Python's sense: present and non-zero. A negative target is truthy too, and it stops the run before the first row.
- **Win flag.** The record's `win` is `None` on a skipped row.
- **Threshold 0.** The code has no special case for a threshold of 0. The first row is skipped (0 >= 0) and the counter becomes -1, so the next row is played; after every played round the counter is back at 0 or above, so skipped and played rounds alternate. A threshold of 0 therefore neither disables skipping nor stalls the bot; `ThresholdZero` proves the second row is played.
- **Skip check.** The skip check has no "threshold > 0" guard in the code, and none in the model.

## Model

| member | source | states |
|---|---|---|
| `Aviator.ParseStrategy` | app.py:53-65 | The strategy is martingale exactly for the string "martingale", anti-martingale exactly for "anti-martingale", and `Other` for every other string |
| `Aviator.Initial` | app.py:17-20 | The run state after construction: balance is the starting balance, the stake is the base bet, the streak is 0 |
| `Aviator.TargetSet` | app.py:24 | The profit target takes part in the stop check exactly when it is truthy: present and non-zero |
| `Aviator.TargetReached` | app.py:24 | The stop check before a row: the target is truthy and balance minus starting balance is at or above it |
| `Aviator.Skips` | app.py:29 | A row is skipped exactly when the streak counter is at or above the threshold |
| `Aviator.NextStake` | app.py:53-56 | The stake after a round: martingale resets on a win and doubles on a loss (lines 62-65), anti-martingale the reverse, any other strategy keeps it |
| `Aviator.Ruined` | app.py:71-72 | The ruin check: an active round whose balance is at or below 0; skipped rows never count as ruin |
| `Aviator.Step` | app.py:27-69 | One row records its round label, crash value and cashout target. The record's balance equals the new balance, which is the old balance plus the record's profit. The row is skipped exactly when the streak is at or above the threshold. An active row bets the current stake, and a skipped row keeps the stake |
| `Aviator.RunFrom` | app.py:22-72 | A run from row `i` emits at most one record per remaining row. Record `k` is labelled `i + k + 1` and carries multiplier `data[i + k]`, in input order with no gaps |
| `Aviator.LedgerAdvance` | app.py:23-72 | Moving one processed row's record from the rest of the run into the ledger prefix leaves the whole ledger and final state unchanged. A ruined row ends the run |
| `Aviator.AviatorBot.constructor` | app.py:9-20 | The settings are as given, with the starting balance equal to the initial balance. The stake is the base bet, the streak is 0 and the ledger is empty |
| `Aviator.AviatorBot.PlayRound` | app.py:43-68 | An active round updates balance, stake and streak and returns the record exactly as `Step` prescribes for the state before it |
| `Aviator.AviatorBot.Run` | app.py:22-74 | The loop appends exactly the records of `RunFrom` from the state before the call to the existing ledger. It leaves the state at `RunFrom`'s final state and returns the whole ledger |
| `AviatorProperties.SkippedRound` | app.py:29-41 | A skipped round logs bet 0, profit 0, no win flag, the skip note and the current balance. Balance and stake are unchanged, and the streak drops by exactly 1 |
| `AviatorProperties.WinningRound` | app.py:47-56 | A won round's profit is stake times (cashout target - 1), and the balance rises by exactly that. The win flag is true, the record's bet is the stake before adjustment, the streak becomes 0 and the stake moves by the win rule |
| `AviatorProperties.LosingRound` | app.py:57-65 | A lost round's profit is minus the stake, and the balance falls by exactly the stake placed. The win flag is false, the record's bet is the stake before adjustment, the streak rises by 1 and the stake moves by the loss rule |
| `AviatorProperties.StakeAdjustment` | app.py:53-65 | Martingale resets to the base bet on a win and doubles on a loss. Anti-martingale doubles on a win and resets on a loss. Any other strategy leaves the stake unchanged |
| `AviatorProperties.BaseBetIsStake` | app.py:17 | The initial stake is the base bet doubled zero times |
| `AviatorProperties.NextStakeIsStake` | app.py:53-65 | If the stake is the base bet times 2^k, then after any win or loss it is the base bet times 2^j for some j |
| `AviatorProperties.StakeShape` | app.py:17-65 | In a run started from such a stake, every bet placed and the final stake are the base bet times a power of two |
| `AviatorProperties.BalanceReconciliation` | app.py:30-69 | Each record's balance equals the opening balance plus the sum of the profits of that record and all earlier ones. The final balance equals the opening balance plus the sum over the whole ledger |
| `AviatorProperties.RuinEndsRun` | app.py:71-72 | An active record with balance at or below 0 is the last record of the run |
| `AviatorProperties.ProfitTargetStop` | app.py:24-25 | With the target already reached, a run emits nothing and changes nothing. With a truthy target, every record's pre-round profit is below the target, and a record whose balance reaches the target is the last one |
| `AviatorProperties.StopReason` | app.py:23-72 | If fewer records than remaining rows are emitted, the run stopped on the profit target or its last record is a ruined active round |
| `AviatorProperties.NoTargetNoEarlyStop` | app.py:24 | Without a truthy profit target, the run consumes every row unless its last record is a ruin |
| `AviatorProperties.FirstActiveBet` | app.py:29-43 | Skipped rows leave the stake alone: the first active record of a run bets the stake the run started with |
| `AviatorProperties.StakeCarriesOver` | app.py:29-65 | For two active records with only skipped records between them, the later bet is the strategy's next stake after the earlier round. For example, under martingale it is double the earlier bet after a loss and the base bet after a win |
| `AviatorProperties.FreshRun` | app.py:9-74 | A run from the constructed state has all of the following: at most one record per row, labelled 1, 2, … in input order, the balance reconciliation, ruin as the last record, every bet a power-of-two multiple of the base bet, and early stops only on target or ruin |
| `AviatorProperties.ThresholdZero` | app.py:29-41 | With threshold 0 (and the target not yet reached), the first row is skipped and the second is played |
| `AviatorProperties.MartingaleExample` | app.py:22-72 | Martingale, base bet 10, target 2.0, balance 1000, on [3.0, 1.5, 2.5]: win +10 (1010), loss -10 (1000), win +20 on a doubled stake (1020) |
| `AviatorProperties.RuinExample` | app.py:22-72 | Martingale from balance 15 with every round lost: loss -10 (5), loss -20 (-15), and the run ends there |
| `AviatorApp.ProfitTargetOption` | app.py:110 | The panel's profit target becomes a target exactly when it is positive, and then it keeps its value |
| `AviatorApp.PanelConfig` | app.py:103-111 | The run's profit target is truthy exactly when the panel value is positive |
| `AviatorApp.Simulate` | app.py:102-112 | The ledger handed to the UI is the engine's run from the initial state. It is empty exactly when the input is, so the final-balance line of app.py:117 always has a last record to read on non-empty input. It has at most one record per row, labelled in order, reconciled balances, ruin as the last record and every active bet a power-of-two multiple of the base bet. It ends before the last row only on the profit target or a ruin, and with no positive target only on a ruin |

## Left out

- The Streamlit UI is left out because it is presentation only: sidebar inputs, buttons, info and success messages, the results table and the final-balance line (app.py:77-89, 94-96, 102, 114-117, 133-134). The panel's minimum values (base bet at least 1, target at least 1.01, balance at least 10, threshold at least 0) are therefore not preconditions of the model.
- CSV upload and CSV export are left out because they are I/O (app.py:89-93, 126-132).
- The synthetic data, exponential draws clipped to [1.01, 100] (app.py:97-100), is left out because it is random and only supplies input. The engine's model accepts any sequence of reals.
- The Matplotlib chart is left out because it is presentation (app.py:119-124).
- The pandas DataFrame wrapping of the result (app.py:74) is left out. The ledger is a `seq<Record>`. The `iterrows` row labels are taken to be the default positional index, so a frame with any other index is not modelled.
- IEEE floating-point rounding, NaN and infinities are not modelled. Money and multipliers are exact reals.
- Python's dynamic typing is not modelled. Record fields mix ints and floats: the literal 0 on skipped rows, integer bets and losses when the base bet is an integer (the panel's base bet and balance are integer inputs, app.py:80 and 82), and float profits on wins, which turn the balance into a float from the first win on. The constructor accepts fields of any type. The record fields are reals.
- A strategy given as a non-string value is not modelled. `Strategy.Other` covers every unrecognised name.
- The default arguments of the constructor (base bet 10, cashout target 2.0, balance 1000, threshold 3, strategy "martingale", no profit target) are not modelled: the only caller passes every argument (app.py:103-111), so the constructor takes every setting.
- Input validation, such as rejecting non-positive bets or a cashout target at or below 1, is not modelled. The source does none, so the model does none.
