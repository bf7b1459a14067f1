# Vote_Bot poll store

`db.py` keeps one poll in an SQLite file with two tables:

- `vote_options(option_id, label)` holds the current options.
- `votes(user_id, option_id)` holds at most one vote per user, because `user_id` is the primary key. A foreign key ties each vote's `option_id` to an existing option.

Three calls change the tables:

- `set_vote_options` cleans up the submitted labels. With fewer than two usable labels it raises `ValueError`. Otherwise it replaces the whole poll: every vote and every option is deleted, and the labels are inserted as options `1..N`.
- `cast_vote` inserts one vote. The insert is refused when the user has voted already or when the option does not exist.
- `clear_votes` empties the votes table.

Six calls read them: `list_vote_options`, `user_has_voted`, `option_exists`, `get_vote_standings`, `get_total_votes` and `get_vote_label`.

The Dafny model has four modules:

- `Labels` models the label clean-up of `set_vote_options`: Python's `str.strip()`, with the exact `str.isspace` character set, and the list comprehension that drops blank labels.
- `SortedIds` models `ORDER BY option_id ASC`: the keys of a table listed in ascending order, and the proof that this order is unique.
- `PollDb` holds the tables as maps in the class `PollStore`:
  - The three mutators are methods.
  - The readers are functions.
  - `Valid()` is the invariant the schema and the mutators keep together: option ids are exactly `1..N`, and every vote references an existing option.
  - Lemmas relate the readers to each other.
- `Scenarios` holds worked runs of the store as client methods, plus the reset-twice and clear-twice properties.

Each call is one atomic step, and calls do not overlap. `set_vote_options` runs inside one transaction, and `cast_vote` is a single `INSERT`. `clear_votes` is atomic only because calls do not overlap (see "## Left out"). A failed call leaves both tables as they were. The three failures are a datatype `StoreError`:

- `InvalidInput` is the `ValueError` of `set_vote_options`.
- `DuplicateVote` is the primary-key violation of `cast_vote`.
- `UnknownOption` is its foreign-key violation.

The source raises the same `sqlite3.IntegrityError` for both `cast_vote` failures, told apart only by its message; the model gives them two names. The primary key is checked before the foreign key, so when both problems hold, `cast_vote` fails with `DuplicateVote`, and the model keeps that order.

The model follows the code in the following places:

- The "at least two options" rule holds only after a poll has been defined. A freshly initialised store has no options, and `PollStore.constructor` models exactly that.
  - `Valid()` therefore does not require two options.
  - `SetVoteOptions` gives `|optionTable| >= 2` on success and changes nothing on failure.
  - `CastVote` and `ClearVotes` never touch `optionTable`.
- `clear_votes` drops and recreates the votes table rather than deleting rows. The only observable effect is an empty votes table with the options untouched, and that is what `ClearVotes` models.
- The vote timestamp column is `created_at`, and it is not modelled (see below).

## Model

| member | source | states |
|---|---|---|
| Labels.Strip | db.py:40 | the result of `l.strip()` neither starts nor ends with whitespace, is no longer than `l`, and is empty exactly when `l` is whitespace only |
| Labels.StripIsInfix | db.py:40 | `l.strip()` is a contiguous piece of `l` with only whitespace before and after it |
| Labels.StripPadded | db.py:40 | stripping a non-empty, unpadded label surrounded by any whitespace gives back the label itself |
| Labels.StripOfStripped | db.py:40 | a label without surrounding whitespace is unchanged by `strip()` |
| Labels.StripIdempotent | db.py:40 | stripping twice equals stripping once |
| Labels.UsableLabels | db.py:40 | the filtered list is never longer than the submitted labels |
| Labels.UsableLabelsClean | db.py:40 | every label kept by the filter is non-empty and has no surrounding whitespace |
| Labels.UsableLabelsMembers | db.py:40 | `x` is kept exactly when `x` is non-empty and is the stripped form of some submitted label |
| Labels.UsableLabelsAppend | db.py:40 | the filter works label by label and keeps submission order: filtering `a + b` gives the labels kept from `a` followed by those kept from `b`, duplicates included |
| Labels.BlankLabelDropped | db.py:40 | a whitespace-only label contributes nothing to the filtered list |
| Labels.PaddedLabelKept | db.py:40 | a padded label contributes exactly its stripped text, in its position |
| Labels.UsableLabelsOfClean | db.py:40 | labels that are already non-empty and unpadded pass the filter unchanged |
| Labels.UsableLabelsIdempotent | db.py:40 | filtering an already filtered list changes nothing |
| SortedIds.SortedKeys | db.py:64 | `ORDER BY option_id ASC` lists as many ids as the table has, strictly ascending, each of them a key of the table |
| SortedIds.SortedKeysComplete | db.py:64 | no key of the table is missing from the ascending listing |
| SortedIds.AscendingUnique | db.py:64 | two strictly ascending sequences with the same elements are equal, so the listing order is determined by the keys alone |
| SortedIds.SortedKeysOfRange | db.py:64 | when the keys are exactly `1..n`, the listing is `1, 2, ..., n` |
| PollDb.NumberedOptions | db.py:51-55 | inserting `enumerate(labels, start=1)` into an empty table gives dense ids `1..N`, with N rows, and option `i + 1` labelled `labels[i]` |
| PollDb.OptionRows | db.py:61-67 | the option listing has one row per option, in ascending id order, and each row carries that option's label |
| PollDb.StandingRows | db.py:112-128 | the LEFT JOIN has one row per option, options without votes included, in ascending id order, and each row counts exactly the votes that reference its option |
| PollDb.SumOfStandingRowsFor | db.py:112-128 | the standings rows for distinct ids count every voter for one of those ids exactly once |
| PollDb.StandingsSumToTotal | db.py:112-135 | under the foreign key, the standings counts add up to the number of rows in `votes` |
| PollDb.OptionRowsOfNumbered | db.py:51-67 | listing a freshly defined poll gives back the usable labels numbered from 1, in submission order |
| PollDb.OptionRowsOfLabelled | db.py:51-67 | any dense table whose option `i + 1` is `labels[i]` lists as `labels` numbered from 1 |
| PollDb.SortedKeysOfDense | db.py:64 | with dense ids the ascending listing of ids is `1, 2, ..., N` |
| PollDb.OptionRowsOfDense | db.py:61-67 | with dense ids the `i`-th listed row is option `i + 1` and its label |
| PollDb.StandingRowsOfDense | db.py:112-128 | with dense ids the `i`-th standings row is option `i + 1`, its label and its vote count |
| PollDb.PollStore.Valid | db.py:19-29 | the schema's constraints as kept by the operations: every vote references an existing option (the foreign key, db.py:28), at most one vote per user (the `user_id` primary key, as the keys of a map), and option ids exactly `1..N` (kept by `set_vote_options`, db.py:51-55) |
| PollDb.PollStore.constructor | db.py:33-36 | `init_db` on a new file creates both tables empty, and the invariant holds |
| PollDb.PollStore.SetVoteOptions | db.py:39-58 | with fewer than 2 usable labels: `InvalidInput`, both tables unchanged. Otherwise: returns the number N of usable labels, the options are exactly those labels under ids `1..N` in submission order, every vote is gone, and the invariant holds |
| PollDb.PollStore.CastVote | db.py:86-93 | three outcomes. A user who has voted gets `DuplicateVote`. Otherwise a missing option gives `UnknownOption`, with votes unchanged. Otherwise exactly this vote is added. Options are never changed, and the foreign key keeps holding |
| PollDb.PollStore.ClearVotes | db.py:96-109 | all votes are gone, the options are untouched, and the invariant holds |
| PollDb.PollStore.ListVoteOptions | db.py:61-67 | every option appears exactly once, with its own label, strictly ascending by id |
| PollDb.PollStore.GetVoteStandings | db.py:112-128 | every option appears exactly once, strictly ascending by id, with its label and the number of votes that reference it |
| PollDb.PollStore.UserHasVoted | db.py:70-74 | whether the user has a vote row; `VoterCountedOnce` states what it promises: it holds exactly when one standings row counts the user |
| PollDb.PollStore.OptionExists | db.py:77-83 | whether an option has that id; `OptionQueriesAgree` and `DenseOptionQueries` state what it promises: it agrees with `get_vote_label` and the listing, and holds exactly for `1..N` |
| PollDb.PollStore.GetVoteLabel | db.py:138-144 | the label of that id, or none; `OptionQueriesAgree` and `DenseOptionQueries` state that it finds a label exactly when the option exists, and the one listed at that position |
| PollDb.PollStore.GetTotalVotes | db.py:131-135 | the number of vote rows; `TotalIsSumOfStandings` states that it is the sum of the standings counts |
| PollDb.OptionQueriesAgree | db.py:61-83 | `option_exists(id)` holds exactly when `get_vote_label(id)` finds a label, exactly when `id` is listed; the label found is the one listed with `id` |
| PollDb.DenseOptionQueries | db.py:138-144 | in a valid store, `option_exists(id)` holds exactly for `1 <= id <= N`, and `get_vote_label(id)` is the label at position `id` of the listing |
| PollDb.TotalIsSumOfStandings | db.py:131-135 | in a valid store, `get_total_votes()` equals the sum of the standings counts |
| PollDb.VoterCountedOnce | db.py:70-74 | in a valid store, `user_has_voted(u)` holds exactly when some standings row counts `u`, and then no other row does |
| PollDb.VoterInOneRow | db.py:112-128 | under the foreign key, a user with a vote is counted in exactly one standings row, and a user without one in none |
| Scenarios.MessyLabels | db.py:40 | a padded label, a blank label and another padded label (such as `["  Pizza", "   ", "Tacos\t"]`) filter to the two labels without padding, in submission order, for any whitespace padding |
| Scenarios.BlankThenPadded | db.py:40 | a blank label followed by a padded label `b` filters to `[b]` |
| Scenarios.CleanPair | db.py:40-67 | two unpadded labels pass the filter unchanged and are listed as options 1 and 2 |
| Scenarios.CleanTriple | db.py:40-128 | three unpadded labels pass the filter unchanged, are listed as options 1 to 3, and have zero votes each when there are no votes |
| Scenarios.DefinePoll | db.py:33-67 | a poll defined with two labels on a new store reports 2 and lists `(1, a), (2, b)` with no votes |
| Scenarios.OneVoteStandings | db.py:112-128 | with one vote for option 1 of two, the standings read `(1, a, 1), (2, b, 0)` |
| Scenarios.VoteOnceOnly | db.py:86-135 | a user's first vote succeeds and the second is refused as a duplicate; the total is 1, and the standings are `(1, a, 1), (2, b, 0)` |
| Scenarios.RedefineDiscardsVotes | db.py:39-58 | redefining the poll with three labels reports 3, lists the new options, gives every option zero votes, and lets the earlier voter vote again |
| Scenarios.VoteForMissingOption | db.py:86-93 | a vote for option 99 of a two-option poll fails as `UnknownOption` and records nothing |
| Scenarios.StaleOptionRefused | db.py:39-93 | after redefining a poll with two options, a vote for the old option 3 fails as `UnknownOption` and records nothing |
| Scenarios.RejectedRedefinitionKeepsPoll | db.py:39-42 | an attempt to redefine with fewer than 2 usable labels fails as `InvalidInput`, and the existing options and vote survive |
| Scenarios.SetVoteOptionsTwice | db.py:39-58 | defining the same labels twice in a row returns the same result and leaves the state of the first call |
| Scenarios.ClearVotesTwice | db.py:96-109 | clearing twice leaves the state of clearing once, with the options untouched |

## Left out

- Connections, `async`/`await`, `PRAGMA foreign_keys`, `commit` and the SQL text are not modelled. Each call is one atomic step on the two tables. The foreign key is always enforced. `set_vote_options` and `cast_vote` switch it on, which matters because both can break it. `clear_votes` does not switch it on, but dropping the child table cannot break it.
- PollDb.PollStore.ClearVotes: `DROP TABLE` and `CREATE TABLE` run with no enclosing transaction and commit as two statements. A call made between them, or a failure after the drop, would find no votes table. The model treats the pair as one step.
- The `created_at` column of `votes` is not modelled: it is a clock reading and no query uses it.
- Concurrent callers and races between calls are not modelled, because each call is one atomic step.
- Storage failures are not modelled: an unreadable file, a missing table when `init_db` was not called, a locked database.
- PollDb.PollStore.constructor: models `init_db` on a new file only. On an existing file `CREATE TABLE IF NOT EXISTS` keeps the current rows, which is the state the store already has.
- PollDb.PollStore.CastVote: user and option ids are unbounded integers. Ids outside SQLite's 64-bit `INTEGER` range, which Python rejects with `OverflowError`, are not modelled.
- Labels.UsableLabels: labels are strings. Non-string items such as `None` are not modelled. For strings, the `l and` test adds nothing to `l.strip()`.
- PollDb.PollStore.ListVoteOptions: a ghost function, as is `GetVoteStandings`, because the ascending order is defined by repeatedly choosing the least id. `int(...)` and `str(...)` on the fetched columns are identities on the stored values.
- The Discord bot that calls these operations is not part of this model.
