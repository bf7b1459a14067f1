/** The poll store of `db.py`: two SQLite tables, `vote_options(option_id ->
    label)` and `votes(user_id -> option_id)`, the three operations that
    change them and the read queries over them. Each call is one atomic
    transaction; connections, pragmas, commits and timestamps are not
    modelled. */
module PollDb {
  import opened Labels
  import opened SortedIds

  /** One row of `get_vote_standings`. */
  datatype VoteStandingRow = VoteStandingRow(optionId: int, text: string, votes: nat)

  /** The ways a store call fails. A failed call leaves both tables as they were. */
  datatype StoreError =
    | InvalidInput   // the ValueError of set_vote_options: fewer than 2 usable labels
    | DuplicateVote  // the PRIMARY KEY on votes.user_id rejects the insert
    | UnknownOption  // the FOREIGN KEY from votes.option_id to vote_options rejects the insert

  datatype Result<T> = Ok(value: T) | Err(error: StoreError)

  datatype Option<T> = None | Some(value: T)

  /** The vote_options table after inserting `(idx, label)` for every
      `idx, label in enumerate(labels, start=1)`, in that order, into an
      empty table: ids 1..N, option i + 1 labelled `labels[i]`. */
  function NumberedOptions(labels: seq<string>): (optionTable: map<int, string>)
    ensures DenseIds(optionTable) && |optionTable| == |labels|
    ensures forall i :: 0 <= i < |labels| ==> optionTable[i + 1] == labels[i]
  {
    if labels == [] then map[]
    else
      var n := |labels|;
      var before := NumberedOptions(labels[..n - 1]);
      assert n !in before;
      before[n := labels[n - 1]]
  }

  /** Inserting the next label of `labels` gives it the next id. */
  lemma {:induction false} NumberedOptionsStep(labels: seq<string>, i: nat)
    requires i < |labels|
    ensures NumberedOptions(labels[..i + 1]) == NumberedOptions(labels[..i])[i + 1 := labels[i]]
  {
    assert labels[..i + 1][..i] == labels[..i];
  }

  /** `enumerate(labels, start=1)` as a list of `(option_id, label)` pairs. */
  function Enumerate(labels: seq<string>): seq<(int, string)> {
    seq(|labels|, i requires 0 <= i < |labels| => (i + 1, labels[i]))
  }

  /** Option ids are exactly `1..N`. */
  ghost predicate DenseIds(optionTable: map<int, string>) {
    forall id :: id in optionTable <==> 1 <= id <= |optionTable|
  }

  /** Every vote references an existing option (the foreign key). */
  predicate VotesReferenceOptions(optionTable: map<int, string>, votes: map<int, int>) {
    forall u :: u in votes ==> votes[u] in optionTable
  }

  /** The users whose vote references `optionId`. */
  ghost function Voters(votes: map<int, int>, optionId: int): set<int> {
    set u | u in votes && votes[u] == optionId
  }

  /** The users whose vote references one of `ids`. */
  ghost function VotersAmong(votes: map<int, int>, ids: seq<int>): set<int> {
    set u | u in votes && votes[u] in ids
  }

  /** `SELECT option_id, label FROM vote_options ORDER BY option_id ASC`. */
  ghost function OptionRows(optionTable: map<int, string>): (rows: seq<(int, string)>)
    ensures |rows| == |optionTable|
    ensures forall i :: 0 <= i < |rows| ==> rows[i].0 == SortedKeys(optionTable.Keys)[i]
    ensures forall i :: 0 <= i < |rows| ==> rows[i].0 in optionTable && rows[i].1 == optionTable[rows[i].0]
  {
    var ids := SortedKeys(optionTable.Keys);
    assert |optionTable.Keys| == |optionTable|;
    seq(|ids|, i requires 0 <= i < |ids| => (ids[i], optionTable[ids[i]]))
  }

  /** The standings rows for `ids`, in that order: the LEFT JOIN of
      vote_options with votes, grouped by option. */
  ghost function StandingRowsFor(optionTable: map<int, string>, votes: map<int, int>, ids: seq<int>): seq<VoteStandingRow>
    requires forall i :: 0 <= i < |ids| ==> ids[i] in optionTable
  {
    seq(|ids|, i requires 0 <= i < |ids| =>
      VoteStandingRow(ids[i], optionTable[ids[i]], |Voters(votes, ids[i])|))
  }

  ghost function StandingRows(optionTable: map<int, string>, votes: map<int, int>): (rows: seq<VoteStandingRow>)
    ensures |rows| == |optionTable|
    ensures forall i :: 0 <= i < |rows| ==> rows[i].optionId == SortedKeys(optionTable.Keys)[i]
    ensures forall i :: 0 <= i < |rows| ==>
      && rows[i].optionId in optionTable
      && rows[i].text == optionTable[rows[i].optionId]
      && rows[i].votes == |Voters(votes, rows[i].optionId)|
  {
    var ids := SortedKeys(optionTable.Keys);
    assert |optionTable.Keys| == |optionTable|;
    StandingRowsFor(optionTable, votes, ids)
  }

  /** The sum of the vote counts of `rows`. */
  function SumOfVotes(rows: seq<VoteStandingRow>): nat {
    if rows == [] then 0 else rows[0].votes + SumOfVotes(rows[1..])
  }

  /** The standings rows for distinct option ids count every voter for one
      of those ids exactly once. */
  lemma {:induction false} SumOfStandingRowsFor(optionTable: map<int, string>, votes: map<int, int>, ids: seq<int>)
    requires forall i :: 0 <= i < |ids| ==> ids[i] in optionTable
    requires Ascending(ids)
    ensures SumOfVotes(StandingRowsFor(optionTable, votes, ids)) == |VotersAmong(votes, ids)|
  {
    if ids == [] {
      assert VotersAmong(votes, ids) == {};
    } else {
      assert StandingRowsFor(optionTable, votes, ids)[1..] == StandingRowsFor(optionTable, votes, ids[1..]);
      SumOfStandingRowsFor(optionTable, votes, ids[1..]);
      VotersAmongSplit(votes, ids);
    }
  }

  /** The voters for distinct ids split into the voters for the first id
      and the voters for the rest, with no voter in both. */
  lemma {:induction false} VotersAmongSplit(votes: map<int, int>, ids: seq<int>)
    requires ids != [] && Ascending(ids)
    ensures |VotersAmong(votes, ids)| == |Voters(votes, ids[0])| + |VotersAmong(votes, ids[1..])|
  {
    var here, there := Voters(votes, ids[0]), VotersAmong(votes, ids[1..]);
    assert ids[0] !in ids[1..];
    assert here * there == {};
    assert VotersAmong(votes, ids) == here + there by {
      assert forall k :: k in ids <==> k == ids[0] || k in ids[1..];
    }
  }

  /** When every vote references an existing option, the standings counts
      add up to the number of votes. */
  lemma {:induction false} StandingsSumToTotal(optionTable: map<int, string>, votes: map<int, int>)
    requires VotesReferenceOptions(optionTable, votes)
    ensures SumOfVotes(StandingRows(optionTable, votes)) == |votes|
  {
    var ids := SortedKeys(optionTable.Keys);
    SumOfStandingRowsFor(optionTable, votes, ids);
    SortedKeysComplete(optionTable.Keys);
    forall u | u in votes
      ensures u in VotersAmong(votes, ids)
    {
      assert votes[u] in optionTable.Keys;
    }
    assert VotersAmong(votes, ids) == votes.Keys;
  }

  /** The rows of a table numbered by `enumerate(labels, start=1)` are the
      labels, numbered from 1, in submission order. */
  lemma {:induction false} OptionRowsOfNumbered(labels: seq<string>)
    ensures OptionRows(NumberedOptions(labels)) == Enumerate(labels)
  {
    OptionRowsOfLabelled(NumberedOptions(labels), labels);
  }

  /** A dense table whose option i + 1 is `labels[i]` lists as `labels`
      enumerated from 1. */
  lemma {:induction false} OptionRowsOfLabelled(optionTable: map<int, string>, labels: seq<string>)
    requires DenseIds(optionTable) && |optionTable| == |labels|
    requires forall i :: 0 <= i < |labels| ==> optionTable[i + 1] == labels[i]
    ensures OptionRows(optionTable) == Enumerate(labels)
  {
    var rows, expected := OptionRows(optionTable), Enumerate(labels);
    OptionRowsOfDense(optionTable);
    forall i | 0 <= i < |labels|
      ensures rows[i] == expected[i]
    {
      assert rows[i] == (i + 1, optionTable[i + 1]);
    }
    assert rows == expected;
  }

  /** With dense ids, the keys in ascending order are `1, 2, ..., N`. */
  lemma {:induction false} SortedKeysOfDense(optionTable: map<int, string>)
    requires DenseIds(optionTable)
    ensures SortedKeys(optionTable.Keys) == IdRange(|optionTable|)
  {
    assert forall id :: id in optionTable.Keys <==> 1 <= id <= |optionTable|;
    SortedKeysOfRange(optionTable.Keys, |optionTable|);
  }

  /** With dense ids, the listing's i-th row is option `i + 1`. */
  lemma {:induction false} OptionRowsOfDense(optionTable: map<int, string>)
    requires DenseIds(optionTable)
    ensures forall i :: 0 <= i < |optionTable| ==>
      OptionRows(optionTable)[i] == (i + 1, optionTable[i + 1])
  {
    var ids, rows := SortedKeys(optionTable.Keys), OptionRows(optionTable);
    SortedKeysOfDense(optionTable);
    forall i | 0 <= i < |optionTable|
      ensures rows[i] == (i + 1, optionTable[i + 1])
    {
      assert rows[i].0 == ids[i] == IdRange(|optionTable|)[i];
    }
  }

  /** With dense ids, the standings' i-th row is option `i + 1` and its voters. */
  lemma {:induction false} StandingRowsOfDense(optionTable: map<int, string>, votes: map<int, int>)
    requires DenseIds(optionTable)
    ensures forall i :: 0 <= i < |optionTable| ==>
      StandingRows(optionTable, votes)[i] == VoteStandingRow(i + 1, optionTable[i + 1], |Voters(votes, i + 1)|)
  {
    var ids, rows := SortedKeys(optionTable.Keys), StandingRows(optionTable, votes);
    SortedKeysOfDense(optionTable);
    forall i | 0 <= i < |optionTable|
      ensures rows[i] == VoteStandingRow(i + 1, optionTable[i + 1], |Voters(votes, i + 1)|)
    {
      assert rows[i].optionId == ids[i] == IdRange(|optionTable|)[i];
    }
  }

  class PollStore {
    /** vote_options: option_id -> label. */
    var optionTable: map<int, string>
    /** votes: user_id -> option_id; the map itself is the primary key on user_id. */
    var votes: map<int, int>

    /** The constraints the schema and the operations keep: dense option ids
        and the foreign key from votes to vote_options. */
    ghost predicate Valid()
      reads this
    {
      DenseIds(optionTable) && VotesReferenceOptions(optionTable, votes)
    }

    /** `init_db` on a new database file: both tables exist and are empty. */
    constructor ()
      ensures Valid()
      ensures optionTable == map[] && votes == map[]
    {
      optionTable := map[];
      votes := map[];
    }

    /** `set_vote_options`: with fewer than 2 usable labels it fails before
        opening the database; otherwise it deletes every vote and every
        option and inserts the usable labels as options 1..N. */
    method SetVoteOptions(labels: seq<string>) returns (r: Result<nat>)
      requires Valid()
      modifies this
      ensures Valid()
      ensures |UsableLabels(labels)| < 2 ==>
        r == Err(InvalidInput) && optionTable == old(optionTable) && votes == old(votes)
      ensures 2 <= |UsableLabels(labels)| ==>
        && r == Ok(|UsableLabels(labels)|)
        && optionTable == NumberedOptions(UsableLabels(labels))
        && votes == map[]
    {
      var usable := UsableLabels(labels);
      if |usable| < 2 {
        return Err(InvalidInput);
      }
      votes := map[];
      optionTable := map[];
      var i := 0;
      while i < |usable|
        invariant 0 <= i <= |usable|
        invariant optionTable == NumberedOptions(usable[..i])
        invariant votes == map[]
      {
        NumberedOptionsStep(usable, i);
        optionTable := optionTable[i + 1 := usable[i]];
        i := i + 1;
      }
      assert usable[..i] == usable;
      return Ok(|usable|);
    }

    /** `cast_vote`: the insert is rejected by the primary key when the user
        has voted, else by the foreign key when the option does not exist;
        otherwise exactly one vote is added. Options never change. */
    method CastVote(userId: int, optionId: int) returns (r: Result<()>)
      requires Valid()
      modifies this`votes
      ensures Valid()
      ensures userId in old(votes) ==> r == Err(DuplicateVote) && votes == old(votes)
      ensures userId !in old(votes) && optionId !in optionTable ==>
        r == Err(UnknownOption) && votes == old(votes)
      ensures userId !in old(votes) && optionId in optionTable ==>
        r == Ok(()) && votes == old(votes)[userId := optionId]
    {
      if userId in votes {
        return Err(DuplicateVote);
      }
      if optionId !in optionTable {
        return Err(UnknownOption);
      }
      votes := votes[userId := optionId];
      return Ok(());
    }

    /** `clear_votes`: the votes table is dropped and recreated empty; the
        options stay. */
    method ClearVotes()
      requires Valid()
      modifies this`votes
      ensures Valid()
      ensures votes == map[]
    {
      votes := map[];
    }

    /** `list_vote_options`: every option once, ascending by id. */
    ghost function ListVoteOptions(): (rows: seq<(int, string)>)
      reads this
      ensures |rows| == |optionTable|
      ensures forall i, j :: 0 <= i < j < |rows| ==> rows[i].0 < rows[j].0
      ensures forall i :: 0 <= i < |rows| ==>
        rows[i].0 in optionTable && rows[i].1 == optionTable[rows[i].0]
      ensures forall id :: id in optionTable ==> exists i :: 0 <= i < |rows| && rows[i].0 == id
    {
      SortedKeysComplete(optionTable.Keys);
      OptionRows(optionTable)
    }

    /** `user_has_voted` (VoterCountedOnce relates it to the standings). */
    function UserHasVoted(userId: int): bool
      reads this
    {
      userId in votes
    }

    /** `option_exists` (OptionQueriesAgree relates it to the other queries). */
    function OptionExists(optionId: int): bool
      reads this
    {
      optionId in optionTable
    }

    /** `get_vote_label`. */
    function GetVoteLabel(optionId: int): Option<string>
      reads this
    {
      if optionId in optionTable then Some(optionTable[optionId]) else None
    }

    /** `get_vote_standings`: one row per option, ascending by id, options
        without votes included, each counting the votes that reference it. */
    ghost function GetVoteStandings(): (rows: seq<VoteStandingRow>)
      reads this
      ensures |rows| == |optionTable|
      ensures forall i, j :: 0 <= i < j < |rows| ==> rows[i].optionId < rows[j].optionId
      ensures forall i :: 0 <= i < |rows| ==>
        && rows[i].optionId in optionTable
        && rows[i].text == optionTable[rows[i].optionId]
        && rows[i].votes == |Voters(votes, rows[i].optionId)|
      ensures forall id :: id in optionTable ==> exists i :: 0 <= i < |rows| && rows[i].optionId == id
    {
      SortedKeysComplete(optionTable.Keys);
      StandingRows(optionTable, votes)
    }

    /** `get_total_votes`: `COUNT(*)` over the votes table
        (TotalIsSumOfStandings relates it to the standings). */
    function GetTotalVotes(): nat
      reads this
    {
      |votes|
    }
  }

  /** The option queries agree: `option_exists(id)` holds exactly when
      `get_vote_label(id)` finds a label, exactly when `id` is listed by
      `list_vote_options`, and the label found is the one listed. */
  lemma {:induction false} OptionQueriesAgree(store: PollStore, optionId: int)
    ensures store.OptionExists(optionId) <==> store.GetVoteLabel(optionId).Some?
    ensures store.OptionExists(optionId) <==>
      exists i :: 0 <= i < |store.ListVoteOptions()| && store.ListVoteOptions()[i].0 == optionId
    ensures store.GetVoteLabel(optionId).Some? ==>
      (optionId, store.GetVoteLabel(optionId).value) in store.ListVoteOptions()
  {
    var rows := store.ListVoteOptions();
    if optionId in store.optionTable {
      var i :| 0 <= i < |rows| && rows[i].0 == optionId;
      assert rows[i] == (optionId, store.optionTable[optionId]);
    }
  }

  /** With dense ids, `option_exists(id)` holds exactly for the listed ids
      `1..N`, and `get_vote_label(id)` is the label at position `id`. */
  lemma {:induction false} DenseOptionQueries(store: PollStore, optionId: int)
    requires store.Valid()
    ensures store.OptionExists(optionId) <==> 1 <= optionId <= |store.ListVoteOptions()|
    ensures store.OptionExists(optionId) ==>
      store.GetVoteLabel(optionId) == Some(store.ListVoteOptions()[optionId - 1].1)
  {
    OptionRowsOfDense(store.optionTable);
  }

  /** Under the foreign key, `get_total_votes` is the sum of the standings
      counts. */
  lemma {:induction false} TotalIsSumOfStandings(store: PollStore)
    requires store.Valid()
    ensures store.GetTotalVotes() == SumOfVotes(store.GetVoteStandings())
  {
    StandingsSumToTotal(store.optionTable, store.votes);
  }

  /** `user_has_voted(u)` holds exactly when some standings row counts `u`,
      and then only one row does. */
  lemma {:induction false} VoterCountedOnce(store: PollStore, userId: int)
    requires store.Valid()
    ensures store.UserHasVoted(userId) <==>
      exists i :: 0 <= i < |store.GetVoteStandings()| && userId in Voters(store.votes, store.GetVoteStandings()[i].optionId)
    ensures forall i, j ::
      && 0 <= i < |store.GetVoteStandings()|
      && 0 <= j < |store.GetVoteStandings()|
      && userId in Voters(store.votes, store.GetVoteStandings()[i].optionId)
      && userId in Voters(store.votes, store.GetVoteStandings()[j].optionId)
      ==> i == j
  {
    assert store.GetVoteStandings() == StandingRows(store.optionTable, store.votes);
    VoterInOneRow(store.optionTable, store.votes, userId);
  }

  /** Under the foreign key, a user who has voted is counted in exactly one
      standings row, and a user who has not is counted in none. */
  lemma {:induction false} VoterInOneRow(optionTable: map<int, string>, votes: map<int, int>, userId: int)
    requires VotesReferenceOptions(optionTable, votes)
    ensures userId in votes <==>
      exists i :: 0 <= i < |StandingRows(optionTable, votes)| && userId in Voters(votes, StandingRows(optionTable, votes)[i].optionId)
    ensures forall i, j ::
      && 0 <= i < |StandingRows(optionTable, votes)|
      && 0 <= j < |StandingRows(optionTable, votes)|
      && userId in Voters(votes, StandingRows(optionTable, votes)[i].optionId)
      && userId in Voters(votes, StandingRows(optionTable, votes)[j].optionId)
      ==> i == j
  {
    var rows := StandingRows(optionTable, votes);
    var ids := SortedKeys(optionTable.Keys);
    if userId in votes {
      var o := votes[userId];
      SortedKeysComplete(optionTable.Keys);
      assert o in ids;
      var i :| 0 <= i < |ids| && ids[i] == o;
      assert userId in Voters(votes, rows[i].optionId);
    }
    forall i, j |
      && 0 <= i < |rows| && 0 <= j < |rows|
      && userId in Voters(votes, rows[i].optionId)
      && userId in Voters(votes, rows[j].optionId)
      ensures i == j
    {
      assert ids[i] == votes[userId] == ids[j];
    }
  }
}
