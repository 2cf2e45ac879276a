# downage: the outage state tracker, modelled in Dafny

downage is an internet-outage monitor. Every poll it pings a shuffled list of
servers, stopping at the first one that answers, and feeds the verdict to a
small state machine. That state machine keeps a `ping` table of outage
episodes in SQLite, one row per episode: an auto-increment id, a start time, a
duration in milliseconds and a `continuing` flag.

This project models that core in three modules:

- `PingTable` (`pingtable.dfy`): the `ping` table as a sequence of rows in
  table order, with an AUTOINCREMENT counter. `Table` is a class whose
  `Insert` and `UpdateContinuingRecord` methods change the rows in place.
  The pure functions `Latest`, `SetWhereId` and `UpdateLatest` give the
  meaning of the `SELECT ... ORDER BY startTime DESC LIMIT 1` query and of the
  `UPDATE`.
- `Prober` (`prober.dfy`): `randomizeList` as an in-place Fisher-Yates
  shuffle on an `array`, and the probing loop of `someServerAvailable`. The
  ping is an uninterpreted `probe: Server -> bool` parameter. The random draws
  of `rand.Shuffle` are a `pick: nat -> nat` parameter: step `i` swaps element
  `i` with element `pick(i) % (i + 1)`.
- `Outage` (`outage.dfy`): the four-case loop body. `Observe` gives the
  meaning of one iteration on a `State` made of the tracker variables and the
  table, and `Run` gives the meaning of a finite run of samples. The class
  `Tracker` holds `continuing`, `startTime` and the table. Its methods are
  `Step` (one iteration given the sample), `Tick` (probe, then step) and
  `Poll` (the loop over a finite stretch of samples). Each is proved equal to
  `Observe` or `Run` of its old state.

Time is an integer number of nanoseconds, passed in as `now`. Durations are
stored as `Milliseconds(d)`, which is Go's `Duration.Milliseconds()`: division
by 1,000,000 truncated toward zero.

The model follows the code as written. Four consequences a reader may not expect:

- `startTime` is read once, when the process starts. The outage branch does
  not reset it. So every row a run inserts carries the process start time,
  and every duration counts from process start (`RunKeepsStartTime`,
  `NewOutageEffect`).
- `updateContinuingRecord` always writes `continuing = true`, on recovery too.
  Only the tracker's own flag becomes false. So a finished episode stays
  marked continuing in the table, and after two outages the table holds two
  rows marked continuing (`OneOutageScenario`, `TwoOutagesScenario`).
- The table is opened with whatever earlier runs left in it, but the tracker
  always starts with `continuing = false` (`Tracker.constructor`). So the
  row count grows by the number of false-to-true steps of `continuing` on top
  of the rows the table already held (`RunRowCount`).
- Every row this run inserts has the same start time, so
  `ORDER BY startTime DESC LIMIT 1` has ties to break. SQL does not say which
  tied row it returns. The model settles ties on the first such row in table
  order (`Latest`). Under that rule, updates made during a second outage land
  on the first outage's row (`TwoOutagesScenario`).

## Model

| member | source | states |
|---|---|---|
| `PingTable.Milliseconds` | downage.go:92 | the stored duration is the nanosecond duration divided by 1,000,000 and truncated toward zero: for d ≥ 0 it is the largest ms with ms·10⁶ ≤ d, and for d < 0 the symmetric bound |
| `PingTable.WellFormed` | downage.go:38 | definition: what the AUTOINCREMENT primary key guarantees, ids positive, below the counter and increasing in table order. Kept by `Table.Insert`, `UpdateLatestKeepsKeys`, `ObserveKeepsInv` and `RunKeepsInv` |
| `PingTable.LatestId` | downage.go:81-89 | definition: the id the query scans into, Go's zero value 0 on `sql.ErrNoRows`. Its meaning is stated by `UpdateLatestEffect` (an empty table is left unchanged) |
| `PingTable.SetWhereId` | downage.go:92 | definition of the `UPDATE ... WHERE id = ?` statement. Its meaning is stated by `UpdateLatestEffect` and `UpdateLatestKeepsKeys` |
| `PingTable.UpdateLatest` | downage.go:78-96 | definition: the query, then the update, on the rows. Its meaning is stated by `UpdateLatestEffect` and `UpdateLatestKeepsKeys`, and `Table.UpdateContinuingRecord` is proved equal to it |
| `PingTable.Latest` | downage.go:85 | the selected row has a start time no smaller than any row's; among tied rows it is the first in table order |
| `PingTable.UpdateLatestEffect` | downage.go:78-96 | on a well-formed table, the update keeps the row count and leaves an empty table (no row found, id 0 matches nothing) unchanged. Otherwise the table equals the old one with only the latest row's duration set to the given milliseconds and its continuing set to true |
| `PingTable.UpdateLatestKeepsKeys` | downage.go:92 | the update changes no id and no start time, so ids stay positive, increasing in table order and below the counter |
| `PingTable.Table.constructor` | downage.go:127 | the table starts with the rows and AUTOINCREMENT counter persisted by earlier runs |
| `PingTable.Table.Insert` | downage.go:180-184 | exactly one row is appended, with the given columns and an id equal to the old counter and greater than every id in use; the counter advances by one and the table stays well formed |
| `PingTable.Table.UpdateContinuingRecord` | downage.go:78-96 | the new rows are the old rows with only the latest row's duration (as milliseconds) and continuing (true) overwritten; the row count and the counter are unchanged |
| `Prober.Swap` | downage.go:50-52 | definition of the swap closure handed to `rand.Shuffle`. Its meaning is stated by `SwapIsPermutation` |
| `Prober.ShuffleDown` | downage.go:50-52 | definition of the remaining Fisher-Yates steps from index i down to 1. Its meaning is stated by `ShuffleDownIsPermutation`, and `RandomizeList`'s loop invariant is written with it |
| `Prober.Shuffled` | downage.go:50-52 | definition of `rand.Shuffle` under the draws `pick`. Its meaning is stated by `ShuffledIsPermutation`, `ShuffleKeepsAvailability` and `TwoServersOneUp`, and `RandomizeList` is proved equal to it |
| `Prober.SwapIsPermutation` | downage.go:50-52 | one swap of the shuffle keeps the length and the multiset of servers |
| `Prober.ShuffleDownIsPermutation` | downage.go:50-52 | the remaining shuffle steps keep the length and the multiset of servers, whatever the draws |
| `Prober.ShuffledIsPermutation` | downage.go:49-54 | `randomizeList` returns a permutation of its input: same length, same multiset, for every draw function |
| `Prober.PermutationKeepsAvailability` | downage.go:68-76 | two lists with the same multiset of servers have some server up in both or in neither |
| `Prober.ShuffleKeepsAvailability` | downage.go:68-76 | the shuffled list has a server that answers exactly when the original list does, so the draws never change the result |
| `Prober.TwoServersOneUp` | downage.go:68-76 | with servers A (never answers) and B (always answers), the shuffle yields [A, B] or [B, A], and some server is up in either order |
| `Prober.RandomizeList` | downage.go:49-54 | the array becomes the Fisher-Yates shuffle of its old contents under the given draws, and its multiset of servers is unchanged |
| `Prober.FirstAvailable` | downage.go:70-75 | the result is true exactly when some server answers. On true, the last server probed answered and none probed before it did, so no server is probed after the first success. On false, every server was probed |
| `Prober.SomeServerAvailable` | downage.go:68-76 | the list is shuffled in place and stays a permutation. The result is true exactly when some server of the original list answers, and probing stops at the first success in the shuffled order |
| `Outage.Classify` | downage.go:154-185 | each `(internetIsUp, continuing)` pair selects exactly one of the four branches, and each branch is selected by exactly its pair |
| `Outage.Observe` | downage.go:160-185 | definition of one iteration of the loop body on the tracker state and the table. Its meaning is stated by `ContinuingFollowsSample`, the four `...Effect` lemmas, `ObserveKeepsInv`, `DurationGrows` and `OpenExtend`, and `Tracker.Step` is proved equal to it |
| `Outage.Run` | downage.go:149-188 | definition of the loop over a finite sequence of samples. Its meaning is stated by `RunSnoc`, `RunRowCount`, `RunKeepsStartTime`, `RunKeepsInv`, `OpenEpisodeDuration`, `RunDurationGrows` and the two scenarios, and `Tracker.Poll` is proved equal to it |
| `Outage.ContinuingFollowsSample` | downage.go:161-185 | after any sample, `continuing` is the negation of `internetIsUp`, and `startTime` is unchanged |
| `Outage.RecoveredEffect` | downage.go:161-165 | up and continuing: the latest row's duration becomes ms(now − startTime) and its continuing is written true. No other row changes, no row is added, and the tracker stops continuing |
| `Outage.SteadyUpEffect` | downage.go:166-169 | up and not continuing: the state (flag, start time, table, counter) is unchanged, so a repeated up-sample is a no-op |
| `Outage.StillDownEffect` | downage.go:170-174 | down and continuing: no row is added, only the latest row's duration (ms(now − startTime)) and continuing (true) change, and the tracker stays continuing |
| `Outage.NewOutageEffect` | downage.go:175-185 | down and not continuing: exactly one row is appended: (old counter, process start time, duration 0, continuing true), its id greater than all existing ids. The tracker becomes continuing, `startTime` is unchanged, and the table stays well formed |
| `Outage.ObserveKeepsInv` | downage.go:161-185 | every branch keeps the table's ids positive, increasing in table order and below the counter |
| `Outage.DurationGrows` | downage.go:161-174 | a down-sample of an open outage at t1, then any sample at t2 ≥ t1 (still down, or the recovery), update the same row, the latest: first to ms(t1 − start), then to ms(t2 − start), so the stored duration does not shrink |
| `Outage.OpenExtend` | downage.go:161-174 | one sample while an outage is open (case 1 or case 3) keeps the table well formed, the row count, the start time and which row is latest, stores ms(now − start) in that row, and leaves `continuing` the negation of the sample |
| `Outage.OpenEpisodeDuration` | downage.go:149-174 | over any run of down-samples, optionally ended by an up-sample, of an outage already open, every update lands on the row latest at the start, which holds ms(t − start) for the time t of the last sample; no row is added and the table stays well formed |
| `Outage.RunDurationGrows` | downage.go:149-174 | along such a run with non-decreasing sample times, the duration stored after sample j is at least the one stored after any earlier sample i |
| `Outage.LatestOnStartTimes` | downage.go:85 | which row the query selects depends on the start times alone, so duration updates never move it |
| `Outage.MillisecondsMonotone` | downage.go:92 | the duration conversion is monotone: a longer duration never stores fewer milliseconds, negative durations included |
| `Outage.RunRowCount` | downage.go:149-188 | after any sequence of samples, the table has grown by the number of false-to-true steps of `continuing`, and the id counter has advanced by as many |
| `Outage.RunKeepsStartTime` | downage.go:145-146 | along any run, `startTime` never changes. Every row the run inserts carries it and stays marked continuing. Rows already present keep their id and start time |
| `Outage.RunKeepsInv` | downage.go:149-188 | the table stays well formed along any run |
| `Outage.RunSnoc` | downage.go:149-188 | running one more sample is one more iteration of the loop body |
| `Outage.OneOutageScenario` | downage.go:161-185 | from an empty table, samples down@0s and down@30s give one row (start 0, 30 000 ms, continuing) with the tracker continuing. Adding up@45s and up@75s gives 45 000 ms, the row still marked continuing, and the tracker not continuing |
| `Outage.TwoOutagesScenario` | downage.go:161-185 | samples down, up, down, down give two rows, both with the process start time and both marked continuing; the last update lands on the first row |
| `Outage.Tracker.constructor` | downage.go:145-146 | the tracker starts not continuing, with `startTime` the time at start, and the table untouched |
| `Outage.Tracker.Step` | downage.go:160-185 | one iteration changes the tracker and the table exactly as `Observe` says, and keeps the table well formed |
| `Outage.Tracker.Tick` | downage.go:151-152 | read the clock, then probe. The sample is true exactly when some configured server answers. The server array keeps its shuffled order for the next poll, and the state changes as `Observe` says for that sample |
| `Outage.Tracker.Poll` | downage.go:149-188 | running the loop over a sequence of samples leaves the tracker and the table as `Run` says |

## Left out

- SQLite plumbing (`initializeDatabase`, `sql.Open`, `Exec`, `QueryRow`, lines 29-47) is replaced by the in-memory `Table`. Driver errors and `log.Fatal` are not modelled: an operation that fails would abort the process.
- `serverAvailable` (lines 56-66) runs `ping` through `/bin/sh` and parses its output. It is the uninterpreted `probe` parameter. Within one poll, the model treats it as a function of the server, so a server listed twice gets the same answer both times.
- The randomness of `rand.Shuffle` is not modelled: the draws are the `pick` parameter, and no distribution is claimed. The model does not prove that every permutation can arise.
- `time.Now()` and `time.Sleep` (lines 146, 151, 187) are not modelled: times are integer inputs, and there is no sleeping. A clock that does not go back is assumed only by `DurationGrows` and `RunDurationGrows`, as non-decreasing sample times.
- Go's 64-bit `Duration` arithmetic saturates on overflow, and ids are `int64`. Both are unbounded integers here.
- Start times are stored as DATETIME text by the SQLite driver. The model orders them as integers.
- `dumpAllRecordsAsJson` (lines 98-116) writes JSON to standard output. In the model a dump is the `rows` sequence itself, in table order.
- CLI flag parsing, the `strings.Split` of the server list and its emptiness check (lines 119-143) are startup glue and are not modelled.
- All `fmt.Println` logging is diagnostic output only and is not modelled.
- The poll loop never terminates. `Tracker.Poll` runs it over a finite stretch of samples only.
- Outage.DurationGrows: the lemma and `RunDurationGrows` compare durations written during one open outage. They say nothing about the duration a row held before its first update by this process. A row left by an earlier run can hold a larger value, and the first update overwrites it with a smaller one. For example, the state `State(true, 0, [Row(1, 5, 1_000_000, false)], 2)` with a down-sample at time 0 stores 0 ms.
- PingTable.Latest: SQL leaves the order of rows with equal start times open; the model's choice of the first tied row in table order is one admissible answer, not the only one.
