/** The records held by the backend's party store (backend/app.py) and the
    events it pushes to the clients of a party. */
module PartyData {
  import opened Wrappers

  /** The display name used wherever a request leaves a name out. */
  const Anonymous: string := "Anonymous"

  /** The track fields a client sends with an add request; each may be absent. */
  datatype TrackInfo = TrackInfo(
    id: Option<string>,
    name: Option<string>,
    artist: Option<string>,
    album: Option<string>,
    durationMs: Option<int>,
    uri: Option<string>,
    imageUrl: Option<string>)

  /** One queue entry: the track, who added it, its net score and the names
      recorded as having voted on it. */
  datatype Song = Song(
    info: TrackInfo,
    addedBy: string,
    votes: int,
    voters: seq<string>,
    addedAt: string)

  /** One entry of a party's member list. */
  datatype Member = Member(name: string, joinedAt: string)

  /** A party record as stored under its code. */
  datatype Party = Party(
    code: string,
    host: string,
    createdAt: string,
    queue: seq<Song>,
    currentSong: Option<TrackInfo>,
    members: seq<Member>,
    qrCode: string)

  /** A Socket.IO emit to the room named `room`. */
  datatype Event =
    | PartyUpdated(room: string, party: Party)
    | QueueUpdated(room: string, queue: seq<Song>)
    | PlaybackUpdated(room: string, song: Option<TrackInfo>)

  /** The error replies of the handlers; both are sent with HTTP status 404. */
  datatype Failure = PartyNotFound | SongNotFound {
    function Status(): nat { 404 }
    function Message(): string {
      match this
      case PartyNotFound => "Party not found"
      case SongNotFound => "Song not found"
    }
  }

  predicate IsUpperHexDigit(c: char) {
    ('0' <= c <= '9') || ('A' <= c <= 'F')
  }

  /** The shape of a code made by `secrets.token_hex(4).upper()`: four random
      bytes as eight upper-case hexadecimal digits. */
  predicate IsPartyCode(code: string) {
    |code| == 8 && forall i :: 0 <= i < |code| ==> IsUpperHexDigit(code[i])
  }

  /** What a client learns about a party from one event: the party it
      describes once the event's payload has been taken in. */
  function EventEffect(p: Party, e: Event): Party {
    match e
    case PartyUpdated(_, party) => party
    case QueueUpdated(_, queue) => p.(queue := queue)
    case PlaybackUpdated(_, song) => p.(currentSong := song)
  }
}
