/** The "Up Next" panel of ProjectorView.jsx: the first five queue entries,
    numbered from one, each with its score rendered with a sign and a
    colour class. */
module Projector {
  import opened PartyData
  import opened VoteOrder
  import opened Text

  /** How many entries the panel shows. */
  const PanelSize: nat := 5

  /** One line of the panel: its number and the entry shown. */
  datatype Row = Row(number: nat, song: Song)

  function Min(a: nat, b: nat): nat { if a <= b then a else b }

  /** `queue.slice(0, 5).map((song, index) => ... index + 1 ...)`. */
  function QueueRows(queue: seq<Song>): (rows: seq<Row>)
    ensures |rows| == Min(PanelSize, |queue|)
    ensures forall i :: 0 <= i < |rows| ==> rows[i] == Row(i + 1, queue[i])
  {
    seq(Min(PanelSize, |queue|), i requires 0 <= i < Min(PanelSize, |queue|) => Row(i + 1, queue[i]))
  }

  /** For a queue in score order the panel shows the best-scored entries:
      none of the hidden entries outscores a shown one, and the numbers run
      1, 2, ... without gaps. */
  lemma PanelShowsTopEntries(queue: seq<Song>)
    requires SortedByVotes(queue)
    ensures var rows := QueueRows(queue);
      && (forall i, j :: 0 <= i < |rows| && |rows| <= j < |queue| ==> rows[i].song.votes >= queue[j].votes)
      && (forall i :: 0 <= i < |rows| ==> rows[i].number == i + 1)
      && (|queue| >= PanelSize ==> |rows| == PanelSize)
  {
  }

  /** Every queue the backend emits is `SortByVotes` of the queue it had
      built, so the panel of an emitted queue shows entries of that queue,
      in score order, with none of the hidden ones outscoring a shown one. */
  lemma PanelOfEmittedQueue(built: seq<Song>)
    ensures var q := SortByVotes(built); var rows := QueueRows(q);
      && |rows| == Min(PanelSize, |built|)
      && (forall i :: 0 <= i < |rows| ==> rows[i].song in multiset(built) && rows[i].number == i + 1)
      && (forall i :: 0 <= i < |rows| - 1 ==> rows[i].song.votes >= rows[i + 1].song.votes)
      && (forall i, j :: 0 <= i < |rows| && |rows| <= j < |q| ==> rows[i].song.votes >= q[j].votes)
  {
    var q := SortByVotes(built);
    SortByVotesIsSorted(built);
    SortByVotesIsPermutation(built);
    PanelShowsTopEntries(q);
    var rows := QueueRows(q);
    forall i | 0 <= i < |rows| ensures rows[i].song in multiset(built) {
      assert rows[i].song == q[i];
    }
  }

  /** `{song.votes > 0 ? '+' : ''}{song.votes}`. */
  function VoteLabel(votes: int): (shown: string)
    ensures |shown| >= 1
    ensures shown[0] == '+' <==> votes > 0
    ensures shown[0] == '-' <==> votes < 0
  {
    IntTextRoundTrip(votes);
    (if votes > 0 then "+" else "") + IntText(votes)
  }

  /** The label reads back as the score. */
  lemma VoteLabelReadsBack(votes: int)
    ensures IsSignedNumeral(VoteLabel(votes)) && ParseSigned(VoteLabel(votes)) == votes
  {
    IntTextRoundTrip(votes);
    if votes > 0 {
      var shown := VoteLabel(votes);
      assert shown[1..] == IntText(votes) == Decimal(votes);
      DecimalRoundTrip(votes);
    } else {
      assert VoteLabel(votes) == IntText(votes);
    }
  }

  /** A score of zero is labelled "0". */
  lemma VoteLabelOfZero()
    ensures VoteLabel(0) == "0"
  {
    assert Decimal(0) == "0";
  }

  /** The class of the score: `positive`, `negative` or none. */
  function VoteClass(votes: int): string {
    if votes > 0 then "positive" else if votes < 0 then "negative" else ""
  }

  /** The colour class agrees with the sign the label shows. */
  lemma VoteClassMatchesLabel(votes: int)
    ensures VoteClass(votes) == "positive" <==> VoteLabel(votes)[0] == '+'
    ensures VoteClass(votes) == "negative" <==> VoteLabel(votes)[0] == '-'
    ensures VoteClass(votes) == "" <==> VoteLabel(votes) == "0"
  {
    VoteLabelReadsBack(votes);
    if VoteLabel(votes) == "0" {
      assert ParseSigned("0") == 0;
    } else if votes == 0 {
      VoteLabelOfZero();
    }
  }
}
