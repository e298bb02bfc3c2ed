/** The score and voter-list arithmetic of `vote_song` (backend/app.py),
    exactly as written: the direction of an earlier vote is not recorded, so
    a voter who is already listed is always treated as reversing a vote. */
module Voting {
  import opened Wrappers
  import opened PartyData

  /** No name is listed twice. */
  ghost predicate AtMostOnce(voters: seq<string>) {
    forall w :: multiset(voters)[w] <= 1
  }

  /** The index of the first occurrence of `x` in `s`. */
  function IndexOf(s: seq<string>, x: string): (k: nat)
    requires x in s
    ensures k < |s| && s[k] == x && x !in s[..k]
  {
    if s[0] == x then 0 else 1 + IndexOf(s[1..], x)
  }

  /** Python's `list.remove(x)`: drops the first occurrence of `x`. */
  function RemoveFirst(s: seq<string>, x: string): (r: seq<string>)
    requires x in s
    ensures exists k :: 0 <= k < |s| && s[k] == x && x !in s[..k] && r == s[..k] + s[k + 1..]
    ensures multiset(r) == multiset(s) - multiset{x}
    ensures |r| == |s| - 1
  {
    var k := IndexOf(s, x);
    assert s == s[..k] + [x] + s[k + 1..];
    s[..k] + s[k + 1..]
  }

  /** The voter list with `voter` taken off it if it is there. */
  function Unlisted(voters: seq<string>, voter: string): (r: seq<string>)
    ensures multiset(r) == multiset(voters) - multiset{voter}
    ensures |r| == if voter in voters then |voters| - 1 else |voters|
  {
    if voter in voters then RemoveFirst(voters, voter) else voters
  }

  /** The voter list after a vote: unlisted, then listed again at the end
      for an up or down vote. */
  function Relisted(voters: seq<string>, voter: string, vote: Option<string>): (r: seq<string>)
    ensures (IsUp(vote) || IsDown(vote)) && AtMostOnce(voters) ==> multiset(r)[voter] == 1
    ensures (IsUp(vote) || IsDown(vote)) ==> |r| == |voters| + (if voter in voters then 0 else 1)
    ensures !IsUp(vote) && !IsDown(vote) ==> multiset(r)[voter] == if voter in voters then multiset(voters)[voter] - 1 else 0
    ensures forall w :: w != voter ==> multiset(r)[w] == multiset(voters)[w]
    ensures AtMostOnce(voters) ==> AtMostOnce(r)
  {
    var u := Unlisted(voters, voter);
    if IsUp(vote) || IsDown(vote) then u + [voter] else u
  }

  predicate IsUp(vote: Option<string>) { vote == Some("up") }
  predicate IsDown(vote: Option<string>) { vote == Some("down") }

  /** Lines 166-176 of `vote_song` applied to one queue entry. */
  function CastVote(song: Song, voter: string, vote: Option<string>): (r: Song)
    // only the score and the voter list change
    ensures r.info == song.info && r.addedBy == song.addedBy && r.addedAt == song.addedAt
    // the score, for a voter not yet listed
    ensures voter !in song.voters && IsUp(vote) ==> r.votes == song.votes + 1
    ensures voter !in song.voters && IsDown(vote) ==> r.votes == song.votes - 1
    ensures voter !in song.voters && !IsUp(vote) && !IsDown(vote) ==> r == song
    // the score, for a voter already listed, whatever they voted before
    ensures voter in song.voters && IsUp(vote) ==> r.votes == song.votes + 2
    ensures voter in song.voters && IsDown(vote) ==> r.votes == song.votes - 2
    ensures voter in song.voters && !IsUp(vote) && !IsDown(vote) ==> r.votes == song.votes + 1
    // the voter list
    ensures (IsUp(vote) || IsDown(vote)) && AtMostOnce(song.voters) ==> multiset(r.voters)[voter] == 1
    ensures (IsUp(vote) || IsDown(vote)) ==> |r.voters| == |song.voters| + (if voter in song.voters then 0 else 1)
    ensures !IsUp(vote) && !IsDown(vote) ==> multiset(r.voters)[voter] == if voter in song.voters then multiset(song.voters)[voter] - 1 else 0
    ensures !IsUp(vote) && !IsDown(vote) && AtMostOnce(song.voters) ==> voter !in r.voters
    ensures forall w :: w != voter ==> multiset(r.voters)[w] == multiset(song.voters)[w]
    ensures AtMostOnce(song.voters) ==> AtMostOnce(r.voters)
  {
    // a voter already listed is unlisted, and the score moves one step down
    // for a "down" vote and one step up for anything else, as if an opposite
    // earlier vote were being undone
    var votes := if voter in song.voters then song.votes - (if IsDown(vote) then 1 else -1) else song.votes;
    var voters := Relisted(song.voters, voter, vote);
    // an up or down vote then moves the score and lists the voter
    if IsUp(vote) then song.(votes := votes + 1, voters := voters)
    else if IsDown(vote) then song.(votes := votes - 1, voters := voters)
    else song.(votes := votes, voters := voters)
  }

  /** A repeated vote in the same direction is not a no-op: two up-votes by a
      new voter add three, two down-votes subtract three. */
  lemma RepeatedVoteMovesScore(song: Song, voter: string)
    requires voter !in song.voters
    ensures CastVote(CastVote(song, voter, Some("up")), voter, Some("up")).votes == song.votes + 3
    ensures CastVote(CastVote(song, voter, Some("down")), voter, Some("down")).votes == song.votes - 3
  {
    var up := CastVote(song, voter, Some("up"));
    assert voter in up.voters by { assert multiset(up.voters)[voter] > 0; }
    var down := CastVote(song, voter, Some("down"));
    assert voter in down.voters by { assert multiset(down.voters)[voter] > 0; }
  }

  /** Changing one's mind: an up-vote then a down-vote by a new voter nets -1,
      and the voter stays listed once. */
  lemma ReversedVote(song: Song, voter: string)
    requires voter !in song.voters && AtMostOnce(song.voters)
    ensures var r := CastVote(CastVote(song, voter, Some("up")), voter, Some("down"));
      r.votes == song.votes - 1 && multiset(r.voters)[voter] == 1
  {
    var up := CastVote(song, voter, Some("up"));
    assert voter in up.voters by { assert multiset(up.voters)[voter] > 0; }
  }
}
