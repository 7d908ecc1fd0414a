/** The vote step as the upvote and downvote endpoints are observed to take
    it (server/test/integration/facts.integration.test.js): the item's score
    moves by one and its `isShown` column is recomputed from the new score
    by the visibility policy. */
module Votes {
  import opened ContentRules

  datatype Vote = Up | Down

  /** A stored item: its kind and its row. */
  datatype Item = Item(kind: Kind, row: Content)

  /** The stored visibility flag agrees with the policy. */
  predicate Consistent(item: Item)
  {
    item.row.isShown == IsVisible(item.kind, item.row)
  }

  /** The score change one vote makes. */
  function Delta(v: Vote): int
  {
    match v
    case Up => 1
    case Down => -1
  }

  /** One vote: the score moves by one and `isShown` is re-evaluated. */
  function Cast(item: Item, v: Vote): (r: Item)
    ensures r.kind == item.kind
    ensures r.row.score == item.row.score + Delta(v)
    ensures r.row.isShown <==> r.row.score >= -5
    ensures r.row == item.row.(score := r.row.score, isShown := r.row.isShown)
  {
    var moved := item.row.(score := item.row.score + Delta(v));
    item.(row := moved.(isShown := IsVisible(item.kind, moved)))
  }

  /** A run of votes, applied in order. */
  function Replay(item: Item, votes: seq<Vote>): Item
    decreases |votes|
  {
    if votes == [] then item else Replay(Cast(item, votes[0]), votes[1..])
  }

  /** The net score change of a run of votes. */
  function NetDelta(votes: seq<Vote>): int
  {
    if votes == [] then 0 else Delta(votes[0]) + NetDelta(votes[1..])
  }

  /** A run of n downvotes. */
  function Downvotes(n: nat): (votes: seq<Vote>)
  {
    seq(n, _ => Down)
  }

  /** After any run of votes the score is the start score plus the sum of the
      single steps, the flag agrees with the policy again, and no other
      column has changed. */
  lemma {:induction false} ReplayNetScore(item: Item, votes: seq<Vote>)
    requires Consistent(item) || votes != []
    ensures Replay(item, votes).row.score == item.row.score + NetDelta(votes)
    ensures Consistent(Replay(item, votes))
    ensures Replay(item, votes).kind == item.kind
    ensures Replay(item, votes).row.id == item.row.id
    ensures Replay(item, votes).row.date == item.row.date
    ensures Replay(item, votes).row.category == item.row.category
    ensures Replay(item, votes).row.text == item.row.text
    decreases |votes|
  {
    if votes != [] {
      ReplayNetScore(Cast(item, votes[0]), votes[1..]);
    }
  }

  /** n downvotes take the score down by exactly n. */
  lemma {:induction false} DownvotesNetDelta(n: nat)
    ensures NetDelta(Downvotes(n)) == -(n as int)
  {
    if n > 0 {
      assert Downvotes(n)[1..] == Downvotes(n - 1);
      DownvotesNetDelta(n - 1);
    }
  }

  /** From score 0, n downvotes leave the item at -n, still shown through
      five downvotes and hidden from the sixth on. */
  lemma DownvoteStreak(item: Item, n: nat)
    requires item.row.score == 0 && Consistent(item)
    ensures Replay(item, Downvotes(n)).row.score == -(n as int)
    ensures Replay(item, Downvotes(n)).row.isShown <==> n <= 5
  {
    ReplayNetScore(item, Downvotes(n));
    DownvotesNetDelta(n);
  }

  /** A vote followed by the opposite vote restores the item exactly: the flag
      is recomputed from the score, so nothing of the first vote remains. */
  lemma UndoRestores(item: Item, v: Vote)
    requires Consistent(item)
    ensures Cast(Cast(item, v), if v == Up then Down else Up) == item
  {
  }

  /** The integration tests: from 0 an upvote gives 1 and a downvote -1,
      both shown; from -5 a downvote gives -6 and hides the item. */
  lemma VotesObservedByTests(item: Item)
    ensures item.row.score == 0 ==> Cast(item, Up).row.score == 1 && Cast(item, Up).row.isShown
    ensures item.row.score == 0 ==> Cast(item, Down).row.score == -1 && Cast(item, Down).row.isShown
    ensures item.row.score == -5 ==> Cast(item, Down).row.score == -6 && !Cast(item, Down).row.isShown
  {
  }
}
