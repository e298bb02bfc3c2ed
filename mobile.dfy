/** The guest page of MobileView.jsx: searching for tracks, adding one to the
    queue and voting, with the requests it sends to the backend recorded in
    order. `alert` calls become notices. */
module Mobile {
  import opened Wrappers
  import opened PartyData
  import opened Voting
  import opened Text
  import PartyServer

  datatype Tab = QueueTab | SearchTab

  /** A request the page sends. */
  datatype Request =
    | Search(query: string)
    | Add(code: string, body: PartyServer.AddRequest)
    | Vote(code: string, index: nat, voter: string, vote: string)

  datatype Notice = SearchFailed | AddFailed

  /** `localStorage.getItem('userName') || 'Anonymous'`: a missing or empty
      stored name falls back to "Anonymous". */
  function UserName(stored: Option<string>): (name: string)
    ensures name != ""
    ensures stored.Some? && stored.value != "" ==> name == stored.value
    ensures stored.None? || stored == Some("") ==> name == Anonymous
  {
    if stored.Some? && stored.value != "" then stored.value else Anonymous
  }

  /** A search is sent only for a query with something besides white space. */
  function SearchAllowed(query: string): (allowed: bool)
    ensures allowed <==> !AllSpace(query)
  {
    TrimEmpty(query);
    Trim(query) != []
  }

  class MobileScreen {
    /** The `partyCode` route parameter. */
    const code: string
    /** What `localStorage` holds under `userName`. */
    const stored: Option<string>
    var searchQuery: string
    var searchResults: seq<TrackInfo>
    var searching: bool
    var activeTab: Tab
    var requests: seq<Request>
    var notices: seq<Notice>

    constructor (code: string, stored: Option<string>)
      ensures this.code == code && this.stored == stored
      ensures searchQuery == "" && searchResults == [] && !searching
      ensures activeTab == QueueTab && requests == [] && notices == []
    {
      this.code := code;
      this.stored := stored;
      searchQuery := "";
      searchResults := [];
      searching := false;
      activeTab := QueueTab;
      requests := [];
      notices := [];
    }

    /** The search box's `onChange`. */
    method EditQuery(query: string)
      modifies this
      ensures searchQuery == query
      ensures searchResults == old(searchResults) && searching == old(searching)
      ensures activeTab == old(activeTab) && requests == old(requests) && notices == old(notices)
    {
      searchQuery := query;
    }

    /** A tab button's `onClick`. */
    method SelectTab(tab: Tab)
      modifies this
      ensures activeTab == tab
      ensures searchQuery == old(searchQuery) && searchResults == old(searchResults)
      ensures searching == old(searching) && requests == old(requests) && notices == old(notices)
    {
      activeTab := tab;
    }

    /** The first half of `searchSongs`: a blank query does nothing; otherwise
        the page marks itself searching and sends the query as typed. */
    method BeginSearch() returns (sent: bool)
      modifies this
      ensures sent <==> SearchAllowed(old(searchQuery))
      ensures sent ==> searching && requests == old(requests) + [Search(old(searchQuery))]
      ensures !sent ==> searching == old(searching) && requests == old(requests)
      ensures searchQuery == old(searchQuery) && searchResults == old(searchResults)
      ensures activeTab == old(activeTab) && notices == old(notices)
    {
      if !SearchAllowed(searchQuery) {
        return false;
      }
      searching := true;
      requests := requests + [Search(searchQuery)];
      sent := true;
    }

    /** The second half of `searchSongs`: the tracks of a reply replace the
        results, a failure raises a notice, and either way searching ends. */
    method FinishSearch(reply: Option<seq<TrackInfo>>)
      modifies this
      ensures !searching
      ensures reply.Some? ==> searchResults == reply.value && notices == old(notices)
      ensures reply.None? ==> searchResults == old(searchResults) && notices == old(notices) + [SearchFailed]
      ensures searchQuery == old(searchQuery) && activeTab == old(activeTab) && requests == old(requests)
    {
      if reply.Some? {
        searchResults := reply.value;
      } else {
        notices := notices + [SearchFailed];
      }
      searching := false;
    }

    /** `addToQueue(track)`: posts the track with `added_by` set to the page's
        user name; on success goes back to the queue tab with the search
        cleared, on failure raises a notice. */
    method AddToQueue(track: TrackInfo, succeeded: bool)
      modifies this
      ensures requests == old(requests) + [Add(code, PartyServer.AddRequest(track, Some(UserName(stored))))]
      ensures succeeded ==> activeTab == QueueTab && searchQuery == "" && searchResults == []
      ensures succeeded ==> notices == old(notices)
      ensures !succeeded ==> activeTab == old(activeTab) && searchQuery == old(searchQuery)
      ensures !succeeded ==> searchResults == old(searchResults) && notices == old(notices) + [AddFailed]
      ensures searching == old(searching)
    {
      requests := requests + [Add(code, PartyServer.AddRequest(track, Some(UserName(stored))))];
      if succeeded {
        activeTab := QueueTab;
        searchQuery := "";
        searchResults := [];
      } else {
        notices := notices + [AddFailed];
      }
    }

    /** `voteSong(index, vote)`: posts the voter and the vote; a failure is
        only logged. */
    method VoteSong(index: nat, vote: string)
      modifies this
      ensures requests == old(requests) + [Vote(code, index, UserName(stored), vote)]
      ensures searchQuery == old(searchQuery) && searchResults == old(searchResults)
      ensures searching == old(searching) && activeTab == old(activeTab) && notices == old(notices)
    {
      requests := requests + [Vote(code, index, UserName(stored), vote)];
    }
  }

  /** The entry the backend files for a track added from this page carries
      the track as sent, the page's user name and an empty score. */
  lemma AddedEntry(track: TrackInfo, stored: Option<string>, addedAt: string)
    ensures var song := PartyServer.NewSong(PartyServer.AddRequest(track, Some(UserName(stored))), addedAt);
      && song.info == track && song.addedBy == UserName(stored) && song.addedBy != ""
      && song.votes == 0 && song.voters == [] && song.addedAt == addedAt
  {
  }

  /** The up and down buttons move a score by one for a guest who has not
      voted on the entry, and by two for one who has. */
  lemma ButtonVotes(song: Song, stored: Option<string>)
    ensures var name := UserName(stored);
      && CastVote(song, name, Some("up")).votes == song.votes + (if name in song.voters then 2 else 1)
      && CastVote(song, name, Some("down")).votes == song.votes - (if name in song.voters then 2 else 1)
  {
  }

  /** Two guests who never stored a name vote as the same voter. */
  lemma AnonymousGuestsShareAVote(song: Song)
    ensures var up := CastVote(song, UserName(None), Some("up"));
      CastVote(up, UserName(Some("")), Some("up")).votes == song.votes + (if Anonymous in song.voters then 4 else 3)
  {
    var up := CastVote(song, Anonymous, Some("up"));
    assert Anonymous in up.voters by { assert multiset(up.voters)[Anonymous] > 0; }
  }
}
