/** The request handlers of backend/app.py over the in-memory store
    `party_sessions`, with every Socket.IO emit appended to an outbox. */
module PartyServer {
  import opened Wrappers
  import opened PartyData
  import opened VoteOrder
  import opened Voting

  /** The JSON reply of `create_party`. */
  datatype CreateReply = CreateReply(partyCode: string, partyUrl: string, qrCode: string)

  /** The JSON body of an add request: the track fields and `added_by`. */
  datatype AddRequest = AddRequest(track: TrackInfo, addedBy: Option<string>)

  /** The join-page base used when FRONTEND_URL is not set. */
  const DefaultFrontendUrl: string := "http://localhost:3000"

  /** The queue entry `add_to_queue` builds from a request: no score, no voters. */
  function NewSong(req: AddRequest, addedAt: string): Song {
    Song(req.track, req.addedBy.GetOr(Anonymous), 0, [], addedAt)
  }

  /** What every stored party satisfies between requests: it is filed under
      its own code, which has the generated shape; its queue is in score
      order; and no entry lists a voter twice. */
  ghost predicate WellFormed(code: string, p: Party) {
    && p.code == code
    && IsPartyCode(code)
    && SortedByVotes(p.queue)
    && forall s :: s in p.queue ==> AtMostOnce(s.voters)
  }

  /** Replacing one entry swaps one element of the queue's multiset, and
      every entry of the result is the new one or an old one. */
  lemma ReplacedEntry(q: seq<Song>, i: nat, x: Song)
    requires i < |q|
    ensures multiset(q[i := x]) == multiset(q) - multiset{q[i]} + multiset{x}
    ensures forall s :: s in q[i := x] ==> s == x || s in q
  {
    assert q == q[..i] + [q[i]] + q[i + 1..];
    assert q[i := x] == q[..i] + [x] + q[i + 1..];
  }

  /** A vote followed by the re-sort keeps a party well formed, keeps the
      queue's length and changes exactly one entry of its multiset. */
  lemma VoteKeepsWellFormed(code: string, p: Party, i: nat, voter: string, vote: Option<string>)
    requires WellFormed(code, p) && i < |p.queue|
    ensures var voted := CastVote(p.queue[i], voter, vote);
      var q := SortByVotes(p.queue[i := voted]);
      && WellFormed(code, p.(queue := q))
      && |q| == |p.queue|
      && multiset(q) == multiset(p.queue) - multiset{p.queue[i]} + multiset{voted}
  {
    assert p.queue[i] in p.queue;
    var voted := CastVote(p.queue[i], voter, vote);
    var edited := p.queue[i := voted];
    var q := SortByVotes(edited);
    SortByVotesIsSorted(edited);
    SortByVotesIsPermutation(edited);
    ReplacedEntry(p.queue, i, voted);
    forall s | s in q ensures AtMostOnce(s.voters) {
      assert s in multiset(edited);
    }
  }

  /** Appending a fresh entry and re-sorting keeps a party well formed. */
  lemma AddKeepsWellFormed(code: string, p: Party, song: Song)
    requires WellFormed(code, p) && song.voters == []
    ensures WellFormed(code, p.(queue := SortByVotes(p.queue + [song])))
  {
    var q := SortByVotes(p.queue + [song]);
    SortByVotesIsSorted(p.queue + [song]);
    SortByVotesIsPermutation(p.queue + [song]);
    forall s | s in q ensures AtMostOnce(s.voters) {
      assert s in multiset(p.queue + [song]);
    }
  }

  /** Storing a well-formed party under its code keeps every party well formed. */
  lemma StoreKeepsWellFormed(m: map<string, Party>, code: string, p: Party, m': map<string, Party>)
    requires forall c :: c in m ==> WellFormed(c, m[c])
    requires WellFormed(code, p) && m' == m[code := p]
    ensures forall c :: c in m' ==> WellFormed(c, m'[c])
  {
  }

  class PartyStore {
    /** `party_sessions`, keyed by party code. */
    var sessions: map<string, Party>
    /** Every emit so far, oldest first. */
    var outbox: seq<Event>

    ghost predicate Valid()
      reads this
    {
      forall c :: c in sessions ==> WellFormed(c, sessions[c])
    }

    constructor ()
      ensures Valid() && sessions == map[] && outbox == []
    {
      sessions := map[];
      outbox := [];
    }

    /** `create_party`: `code` stands for `secrets.token_hex(4).upper()`,
        `createdAt` for the clock and `qrCode` for the encoded QR image. */
    method CreateParty(code: string, hostName: Option<string>, createdAt: string,
                       qrCode: string, frontendUrl: Option<string>)
      returns (reply: CreateReply)
      requires Valid() && IsPartyCode(code)
      modifies this
      ensures Valid()
      ensures sessions.Keys == old(sessions).Keys + {code}
      ensures forall c :: c in old(sessions) && c != code ==> sessions[c] == old(sessions)[c]
      ensures var p := sessions[code];
        && p.code == code && p.host == hostName.GetOr(Anonymous) && p.createdAt == createdAt
        && p.queue == [] && p.currentSong == None && p.members == [] && p.qrCode == qrCode
      ensures outbox == old(outbox)
      ensures reply.partyCode == code && reply.qrCode == qrCode
      ensures reply.partyUrl == frontendUrl.GetOr(DefaultFrontendUrl) + "/join/" + code
    {
      var partyUrl := frontendUrl.GetOr(DefaultFrontendUrl) + "/join/" + code;
      sessions := sessions[code := Party(code, hostName.GetOr(Anonymous), createdAt, [], None, [], qrCode)];
      reply := CreateReply(code, partyUrl, qrCode);
    }

    /** `get_party`: an exact-key lookup. */
    method GetParty(code: string) returns (r: Result<Party, Failure>)
      requires Valid()
      ensures r.Success? <==> code in sessions
      ensures r.Success? ==> r.value == sessions[code] && r.value.code == code
      ensures r.Success? ==> SortedByVotes(r.value.queue)
      ensures r.Failure? ==> r.error == PartyNotFound
    {
      if code in sessions {
        r := Success(sessions[code]);
      } else {
        r := Failure(PartyNotFound);
      }
    }

    /** `join_party`: appends a member record, even for a name already present. */
    method JoinParty(code: string, userName: Option<string>, joinedAt: string)
      returns (r: Result<Party, Failure>)
      requires Valid()
      modifies this
      ensures Valid()
      ensures code !in old(sessions) ==>
        r == Failure(PartyNotFound) && sessions == old(sessions) && outbox == old(outbox)
      ensures code in old(sessions) ==>
        var p := old(sessions)[code];
        var p' := p.(members := p.members + [Member(userName.GetOr(Anonymous), joinedAt)]);
        && sessions == old(sessions)[code := p']
        && outbox == old(outbox) + [PartyUpdated(code, p')]
        && r == Success(p')
    {
      if code !in sessions {
        return Failure(PartyNotFound);
      }
      var p := sessions[code];
      var member := Member(userName.GetOr(Anonymous), joinedAt);
      p := p.(members := p.members + [member]);
      sessions := sessions[code := p];
      outbox := outbox + [PartyUpdated(code, p)];
      r := Success(p);
    }

    /** `queue.sort(key=votes, reverse=True)` on a copy of the list. */
    static method SortQueue(q: seq<Song>) returns (sorted: seq<Song>)
      ensures sorted == SortByVotes(q)
    {
      var a := new Song[|q|](i requires 0 <= i < |q| => q[i]);
      assert a[..] == q;
      SortQueueInPlace(a);
      sorted := a[..];
    }

    /** `add_to_queue`: appends a fresh entry, re-sorts, emits the queue.
        `addedAt` stands for the clock. */
    method AddToQueue(code: string, req: AddRequest, addedAt: string)
      returns (r: Result<seq<Song>, Failure>)
      requires Valid()
      modifies this
      ensures Valid()
      ensures code !in old(sessions) ==>
        r == Failure(PartyNotFound) && sessions == old(sessions) && outbox == old(outbox)
      ensures code in old(sessions) ==>
        var p := old(sessions)[code];
        var song := NewSong(req, addedAt);
        var q := SortByVotes(p.queue + [song]);
        var k := InsertPos(p.queue, song);
        && sessions == old(sessions)[code := p.(queue := q)]
        && outbox == old(outbox) + [QueueUpdated(code, q)]
        && r == Success(q)
        // where the new entry lands
        && q == p.queue[..k] + [song] + p.queue[k..]
        && (forall i :: 0 <= i < k ==> p.queue[i].votes >= 0)
        && (forall i :: k <= i < |p.queue| ==> p.queue[i].votes < 0)
    {
      if code !in sessions {
        return Failure(PartyNotFound);
      }
      var p := sessions[code];
      var song := NewSong(req, addedAt);
      var q := SortQueue(p.queue + [song]);
      assert sessions == old(sessions) && outbox == old(outbox);
      AppendThenSort(p.queue, song);
      AddKeepsWellFormed(code, p, song);
      StoreKeepsWellFormed(sessions, code, p.(queue := q), sessions[code := p.(queue := q)]);
      sessions := sessions[code := p.(queue := q)];
      outbox := outbox + [QueueUpdated(code, q)];
      r := Success(q);
    }

    /** `vote_song`: applies CastVote to the entry at `index`, re-sorts and
        emits the queue. */
    method VoteSong(code: string, index: nat, voter: Option<string>, vote: Option<string>)
      returns (r: Result<seq<Song>, Failure>)
      requires Valid()
      modifies this
      ensures Valid()
      ensures code !in old(sessions) ==>
        r == Failure(PartyNotFound) && sessions == old(sessions) && outbox == old(outbox)
      ensures code in old(sessions) && index >= |old(sessions)[code].queue| ==>
        r == Failure(SongNotFound) && sessions == old(sessions) && outbox == old(outbox)
      ensures code in old(sessions) && index < |old(sessions)[code].queue| ==>
        var p := old(sessions)[code];
        var voted := CastVote(p.queue[index], voter.GetOr(Anonymous), vote);
        var q := SortByVotes(p.queue[index := voted]);
        && sessions == old(sessions)[code := p.(queue := q)]
        && outbox == old(outbox) + [QueueUpdated(code, q)]
        && r == Success(q)
        && |q| == |p.queue|
        && multiset(q) == multiset(p.queue) - multiset{p.queue[index]} + multiset{voted}
    {
      if code !in sessions {
        return Failure(PartyNotFound);
      }
      var p := sessions[code];
      if index >= |p.queue| {
        return Failure(SongNotFound);
      }
      var voted := CastVote(p.queue[index], voter.GetOr(Anonymous), vote);
      var q := SortQueue(p.queue[index := voted]);
      assert sessions == old(sessions) && outbox == old(outbox);
      VoteKeepsWellFormed(code, p, index, voter.GetOr(Anonymous), vote);
      StoreKeepsWellFormed(sessions, code, p.(queue := q), sessions[code := p.(queue := q)]);
      sessions := sessions[code := p.(queue := q)];
      outbox := outbox + [QueueUpdated(code, q)];
      r := Success(q);
    }

    /** The `update_playback` socket handler: a missing or unknown code is ignored. */
    method UpdatePlayback(code: Option<string>, currentSong: Option<TrackInfo>)
      requires Valid()
      modifies this
      ensures Valid()
      ensures !(code.Some? && code.value in old(sessions)) ==>
        sessions == old(sessions) && outbox == old(outbox)
      ensures code.Some? && code.value in old(sessions) ==>
        var p := old(sessions)[code.value];
        && sessions == old(sessions)[code.value := p.(currentSong := currentSong)]
        && outbox == old(outbox) + [PlaybackUpdated(code.value, currentSong)]
    {
      if code.Some? && code.value in sessions {
        var p := sessions[code.value];
        sessions := sessions[code.value := p.(currentSong := currentSong)];
        outbox := outbox + [PlaybackUpdated(code.value, currentSong)];
      }
    }
  }
}
