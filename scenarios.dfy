/** Worked runs of the poll store: a poll is defined, voted on, redefined
    and cleared, and what the queries answer along the way. The labels are
    parameters: any non-empty labels without surrounding whitespace (such
    as "Pizza" and "Tacos") behave alike. */
module Scenarios {
  import opened Labels
  import opened SortedIds
  import opened PollDb

  /** Surrounding whitespace is stripped and blank labels are dropped,
      keeping submission order: `["  Pizza", "   ", "Tacos\t"]` filters to
      `["Pizza", "Tacos"]`, and so does any other padding. */
  lemma {:induction false} MessyLabels(pre: string, a: string, post: string, blank: string,
                                       pre': string, b: string, post': string)
    requires AllSpace(pre) && AllSpace(post) && AllSpace(blank) && AllSpace(pre') && AllSpace(post')
    requires Clean(a) && Clean(b)
    ensures UsableLabels([pre + a + post, blank, pre' + b + post']) == [a, b]
  {
    var rest := [blank, pre' + b + post'];
    BlankThenPadded(blank, pre', b, post');
    PaddedLabelKept(pre, a, post, rest);
    assert [pre + a + post, blank, pre' + b + post'] == [pre + a + post] + rest;
  }

  lemma {:induction false} BlankThenPadded(blank: string, pre: string, b: string, post: string)
    requires AllSpace(blank) && AllSpace(pre) && AllSpace(post)
    requires Clean(b)
    ensures UsableLabels([blank, pre + b + post]) == [b]
  {
    var padded := pre + b + post;
    assert UsableLabels([padded]) == [b] by {
      PaddedLabelKept(pre, b, post, []);
      assert [padded] == [padded] + [];
    }
    BlankLabelDropped(blank, [padded]);
    assert [blank, padded] == [blank] + [padded];
  }

  /** A poll with two options: the call reports 2 and the options are
      listed as `(1, a), (2, b)`. */
  method DefinePoll(a: string, b: string) returns (store: PollStore, n: Result<nat>)
    requires Clean(a) && Clean(b)
    ensures fresh(store) && store.Valid()
    ensures n == Ok(2)
    ensures store.ListVoteOptions() == [(1, a), (2, b)]
    ensures store.optionTable == NumberedOptions([a, b]) && store.votes == map[]
  {
    store := new PollStore();
    CleanPair(a, b);
    n := store.SetVoteOptions([a, b]);
  }

  lemma {:induction false} CleanPair(a: string, b: string)
    requires Clean(a) && Clean(b)
    ensures UsableLabels([a, b]) == [a, b]
    ensures OptionRows(NumberedOptions([a, b])) == [(1, a), (2, b)]
  {
    UsableLabelsOfClean([a, b]);
    OptionRowsOfNumbered([a, b]);
  }

  lemma {:induction false} CleanTriple(x: string, y: string, z: string)
    requires Clean(x) && Clean(y) && Clean(z)
    ensures UsableLabels([x, y, z]) == [x, y, z]
    ensures OptionRows(NumberedOptions([x, y, z])) == [(1, x), (2, y), (3, z)]
    ensures forall i :: 0 <= i < 3 ==> StandingRows(NumberedOptions([x, y, z]), map[])[i].votes == 0
  {
    UsableLabelsOfClean([x, y, z]);
    OptionRowsOfNumbered([x, y, z]);
    assert forall id :: Voters(map[], id) == {};
  }

  /** After that, user 42 votes for option 1 and then tries option 2: the
      second vote is refused, option 1 has one vote and option 2 none. */
  method VoteOnceOnly(a: string, b: string)
    returns (store: PollStore, first: Result<()>, second: Result<()>, total: nat)
    requires Clean(a) && Clean(b)
    ensures fresh(store) && store.Valid()
    ensures first == Ok(()) && second == Err(DuplicateVote)
    ensures total == 1
    ensures store.GetVoteStandings() == [VoteStandingRow(1, a, 1), VoteStandingRow(2, b, 0)]
    ensures store.optionTable == NumberedOptions([a, b]) && store.votes == map[42 := 1]
  {
    var defined;
    store, defined := DefinePoll(a, b);
    first := store.CastVote(42, 1);
    second := store.CastVote(42, 2);
    total := store.GetTotalVotes();
    OneVoteStandings(store.optionTable, store.votes, a, b);
  }

  lemma {:induction false} OneVoteStandings(optionTable: map<int, string>, votes: map<int, int>, a: string, b: string)
    requires optionTable == NumberedOptions([a, b]) && votes == map[42 := 1]
    ensures StandingRows(optionTable, votes) == [VoteStandingRow(1, a, 1), VoteStandingRow(2, b, 0)]
  {
    assert Voters(votes, 1) == {42};
    assert Voters(votes, 2) == {};
    StandingRowsOfDense(optionTable, votes);
  }

  /** After the vote, the poll is redefined with three options: the call
      reports 3, user 42 may vote again, and every option has zero votes. */
  method RedefineDiscardsVotes(a: string, b: string, x: string, y: string, z: string)
    returns (store: PollStore, n: Result<nat>, voted: bool)
    requires Clean(a) && Clean(b) && Clean(x) && Clean(y) && Clean(z)
    ensures fresh(store) && store.Valid()
    ensures n == Ok(3)
    ensures !voted
    ensures store.ListVoteOptions() == [(1, x), (2, y), (3, z)]
    ensures |store.GetVoteStandings()| == 3
    ensures forall i :: 0 <= i < 3 ==> store.GetVoteStandings()[i].votes == 0
  {
    var first, second, total;
    store, first, second, total := VoteOnceOnly(a, b);
    CleanTriple(x, y, z);
    n := store.SetVoteOptions([x, y, z]);
    voted := store.UserHasVoted(42);
  }

  /** Voting for an option that does not exist is refused and records
      nothing. */
  method VoteForMissingOption(a: string, b: string) returns (store: PollStore, r: Result<()>, voted: bool, total: nat)
    requires Clean(a) && Clean(b)
    ensures fresh(store) && store.Valid()
    ensures r == Err(UnknownOption)
    ensures !voted && total == 0
  {
    var defined;
    store, defined := DefinePoll(a, b);
    r := store.CastVote(7, 99);
    voted := store.UserHasVoted(7);
    total := store.GetTotalVotes();
  }

  /** Option 3 of a poll goes stale when the poll is redefined with two
      options: a vote for it is then refused and nothing is recorded. */
  method StaleOptionRefused(store: PollStore, a: string, b: string)
    returns (r: Result<()>, voted: bool, total: nat)
    requires store.Valid() && store.OptionExists(3)
    requires Clean(a) && Clean(b)
    modifies store
    ensures store.Valid()
    ensures r == Err(UnknownOption)
    ensures !voted && total == 0
  {
    CleanPair(a, b);
    var n := store.SetVoteOptions([a, b]);
    r := store.CastVote(7, 3);
    voted := store.UserHasVoted(7);
    total := store.GetTotalVotes();
  }

  /** After the vote, redefining the poll with fewer than two usable labels
      is refused, and the poll and its vote stay as they were. */
  method RejectedRedefinitionKeepsPoll(a: string, b: string, labels: seq<string>)
    returns (store: PollStore, n: Result<nat>, voted: bool, total: nat)
    requires Clean(a) && Clean(b)
    requires |UsableLabels(labels)| < 2
    ensures fresh(store) && store.Valid()
    ensures n == Err(InvalidInput)
    ensures voted && total == 1
    ensures store.optionTable == NumberedOptions([a, b]) && store.votes == map[42 := 1]
  {
    var first, second;
    store, first, second, total := VoteOnceOnly(a, b);
    n := store.SetVoteOptions(labels);
    voted := store.UserHasVoted(42);
    total := store.GetTotalVotes();
  }

  /** Defining the same poll twice in a row leaves the state the first
      call left: the second call only repeats the first. */
  method SetVoteOptionsTwice(store: PollStore, labels: seq<string>)
    returns (first: Result<nat>, second: Result<nat>, ghost optionsAfterFirst: map<int, string>, ghost votesAfterFirst: map<int, int>)
    requires store.Valid()
    modifies store
    ensures store.Valid()
    ensures first == second
    ensures store.optionTable == optionsAfterFirst && store.votes == votesAfterFirst
  {
    first := store.SetVoteOptions(labels);
    optionsAfterFirst, votesAfterFirst := store.optionTable, store.votes;
    second := store.SetVoteOptions(labels);
  }

  /** Clearing the votes twice leaves the state the first call left, with
      the options untouched. */
  method ClearVotesTwice(store: PollStore)
    returns (ghost optionsAfterFirst: map<int, string>, ghost votesAfterFirst: map<int, int>)
    requires store.Valid()
    modifies store
    ensures store.Valid()
    ensures optionsAfterFirst == old(store.optionTable)
    ensures store.optionTable == optionsAfterFirst && store.votes == votesAfterFirst
  {
    store.ClearVotes();
    optionsAfterFirst, votesAfterFirst := store.optionTable, store.votes;
    store.ClearVotes();
  }
}
