# Spottymy party queue, modelled in Dafny

Spottymy lets a group build one music queue together. A host creates a
*party* and gets an eight-character code and a QR link. Guests join with the
code and a display name. From their phones they search for tracks, add them
to the queue and vote on queued tracks. A projector page shows the current
song and the next five entries.

This project models the core of that system:

- the Flask backend `backend/app.py`, which keeps every party in the
  in-memory map `party_sessions` and pushes Socket.IO events to the party's
  room;
- the three client pages that use the backend:
  - `ProjectorView.jsx` (the big screen),
  - `MobileView.jsx` (a guest's phone),
  - `JoinParty.jsx` (the join form).

Modules, in dependency order:

| file | module | what it holds |
|---|---|---|
| `wrappers.dfy` | `Wrappers` | `Option` and `Result` |
| `party_data.dfy` | `PartyData` | the records the store keeps (party, queue entry, member, track fields) and the three events |
| `vote_order.dfy` | `VoteOrder` | `queue.sort(key=votes, reverse=True)` as an in-place stable insertion sort on an array, proved equal to the function `SortByVotes`, which is proved sorted, a permutation and stable |
| `voting.dfy` | `Voting` | the score and voter-list update of `vote_song`, exactly as written |
| `party_server.dfy` | `PartyServer` | the class `PartyStore` with the fields `sessions` (the party map) and `outbox` (every emit, in order), one method per request handler, and the invariant `Valid` that every stored party keeps |
| `text.dfy` | `Text` | the JavaScript string operations the pages use: `String(n)`, `padStart`, `trim`, `toUpperCase` |
| `duration.dfy` | `Duration` | `formatDuration` |
| `client_sync.dfy` | `ClientSync` | the `party` state of a page and how the load reply and the three events are merged into it |
| `projector.dfy` | `Projector` | the "Up Next" panel and the score label and class |
| `mobile.dfy` | `Mobile` | the class `MobileScreen`: search, add and vote, with the requests it sends |
| `join_form.dfy` | `JoinForm` | the class `JoinScreen`: code and name fields, submit and reply handling |

## How the backend behaves

The model follows the code. The code behaves as follows in places a reader
might not expect:

- Lookup by party code is exact. A lower-case code does not find the party.
  The join form upper-cases what is typed, so typed codes still work.
- Joining is not idempotent. Every join appends a member record, even when
  that name is already listed.
- The queue is re-sorted by score on every add and on every vote. There is no
  separate display order.
- A vote does not record its direction.
  - When the voter is already listed, the code assumes the earlier vote went
    the other way. An up-vote then adds 2 and a down-vote subtracts 2.
    Two up-votes by a new voter therefore add 3 in total, not 1.
  - When the voter is listed and the vote is neither `up` nor `down`, the
    voter is removed and the score rises by 1.
- Nothing advances the queue, expires a party or removes a member. The
  current song changes only through the `update_playback` socket message.

Each handler is a method of `PartyStore`:

- Its contract gives the complete new state (`sessions` and `outbox`) and the
  reply, including the error replies. Both error replies have status 404:
  "Party not found" and "Song not found".
- Each method keeps `Valid`. Every stored party is filed under its own code,
  and that code has the `token_hex(4).upper()` shape. Its queue is in score
  order. No queue entry lists a voter twice.

The emitted events carry the new queue or party. `ClientSync` proves the
following chain. A page that loaded the party and then applied the events
in order holds exactly the snapshot of the party those events describe
(`ApplyAllMirrorsEffect`).

## Model

| member | source | states |
|---|---|---|
| `VoteOrder.InsertByVotes` | backend/app.py:142 | definition without a contract: one step of a stable insertion sort, placing an entry after every entry at least as high; its properties are the InsertByVotes lemmas below |
| `VoteOrder.SortByVotes` | backend/app.py:142 | definition without a contract: `list.sort(key=votes, reverse=True)` as insertion of each entry in turn; that it is sorted, a permutation, stable and the identity on sorted queues is stated by the SortByVotes lemmas below |
| `VoteOrder.InsertByVotesAt` | backend/app.py:142 | one insertion step places the new entry after every entry scoring at least as much and before the lower-scored tail, keeping everything else in order |
| `VoteOrder.InsertByVotesPreservesOrder` | backend/app.py:142 | inserting into a queue in score order keeps it in score order |
| `VoteOrder.SortByVotesIsSorted` | backend/app.py:142 | the sorted queue has non-increasing scores (`reverse=True`) |
| `VoteOrder.InsertByVotesMultiset` | backend/app.py:142 | one insertion adds exactly the new entry to the multiset of entries |
| `VoteOrder.SortByVotesIsPermutation` | backend/app.py:142 | sorting keeps every entry and adds none: same multiset, same length |
| `VoteOrder.InsertByVotesWithScore` | backend/app.py:142 | after one insertion, the entries with a given score are the old ones with that score, followed by the new entry if it has that score |
| `VoteOrder.SortByVotesIsStable` | backend/app.py:142 | stability of Python's sort: for every score, the entries with that score keep their relative order |
| `VoteOrder.SortByVotesOfSorted` | backend/app.py:179 | re-sorting a queue already in score order changes nothing |
| `VoteOrder.AppendThenSort` | backend/app.py:139-142 | appending an entry to a queue in order and sorting places it after every entry scoring at least as much and before every lower one |
| `VoteOrder.InsertInPlace` | backend/app.py:142 | the in-array insertion step shifts lower-scored entries right, equals the functional insertion on the prefix, and leaves the rest of the array untouched |
| `VoteOrder.SortQueueInPlace` | backend/app.py:179 | the in-place sort leaves the array holding `SortByVotes` of its old contents |
| `Voting.RemoveFirst` | backend/app.py:167 | `list.remove` cuts out the entry at the first index holding the name and keeps all others in order; so the multiset loses one copy of the name and the length drops by one |
| `Voting.Unlisted` | backend/app.py:166-167 | the voter list with the voter taken off if present: the multiset minus one copy of the name, one shorter exactly when the name was listed |
| `Voting.Relisted` | backend/app.py:166-173 | the voter list after a vote: for an up or down vote the voter ends listed once (when no one was listed twice before) and the list is one longer only for a new voter; for any other vote one copy of the voter is gone; other voters' counts are unchanged and no voter is ever listed twice |
| `Voting.CastVote` | backend/app.py:165-176 | the full score table as written: for a voter not yet listed, +1 up, -1 down, any other value changes nothing; for a voter already listed, +2 up, -2 down, any other value +1 and unlisted; a listed up or down voter is listed once; other voters' counts unchanged; track, adder and time unchanged; the no-duplicate invariant is kept |
| `Voting.RepeatedVoteMovesScore` | backend/app.py:165-176 | two up-votes by a new voter add 3 and two down-votes subtract 3, so repeating a vote is not a no-op |
| `Voting.ReversedVote` | backend/app.py:165-176 | an up-vote then a down-vote by a new voter nets -1 and leaves the voter listed once |
| `PartyData.EventEffect` | backend/app.py:113 | definition without a contract: what one emit says about a party; `party_updated` (line 113) carries the whole party, `queue_updated` (lines 145 and 182) the queue, `playback_updated` (line 238) the current song; it is the server side of `ClientSync.ApplyMirrorsEffect` |
| `PartyServer.NewSong` | backend/app.py:125-137 | definition without a contract: the new queue entry, with the track fields as sent, `added_by` or "Anonymous", score 0, no voters and the given time; its fields are stated by `Mobile.AddedEntry` and the AddToQueue row |
| `PartyServer.VoteKeepsWellFormed` | backend/app.py:163-179 | voting on an entry and re-sorting keeps a stored party well formed, keeps the queue length and swaps exactly that one entry in the multiset |
| `PartyServer.AddKeepsWellFormed` | backend/app.py:125-142 | adding a fresh entry and re-sorting keeps a stored party well formed |
| `PartyServer.StoreKeepsWellFormed` | backend/app.py:71-79 | storing a well-formed party under its code keeps every stored party well formed |
| `PartyServer.PartyStore.constructor` | backend/app.py:19 | the store starts with no parties and no emits |
| `PartyServer.PartyStore.CreateParty` | backend/app.py:54-85 | the code becomes a new key and no other party changes; the record has the host name (or "Anonymous"), an empty queue and member list, no current song and the QR text; the reply's URL is `FRONTEND_URL` (default `http://localhost:3000`) + `/join/` + code; nothing is emitted |
| `PartyServer.PartyStore.GetParty` | backend/app.py:87-94 | succeeds exactly when the code is a key and returns that party, whose queue is in score order; otherwise "Party not found" |
| `PartyServer.PartyStore.JoinParty` | backend/app.py:96-115 | an unknown code changes nothing and fails; otherwise one member record (name or "Anonymous", join time) is appended, the updated party is emitted to the room as `party_updated` and returned |
| `PartyServer.PartyStore.SortQueue` | backend/app.py:142 | the array sort applied to a copy of the queue returns `SortByVotes` of it |
| `PartyServer.PartyStore.AddToQueue` | backend/app.py:117-147 | an unknown code changes nothing and fails; otherwise the new entry (track fields, adder or "Anonymous", score 0, no voters) is added and the queue re-sorted; it lands after all entries with score at least 0 and before the negative ones; the queue is emitted as `queue_updated` and returned |
| `PartyServer.PartyStore.VoteSong` | backend/app.py:149-184 | an unknown code, or an index past the end, changes nothing and fails with the matching 404 error; otherwise the entry at the index gets `CastVote` (voter defaulting to "Anonymous") and the queue is re-sorted, keeping its length and changing only that entry in the multiset; the queue is emitted and returned |
| `PartyServer.PartyStore.UpdatePlayback` | backend/app.py:229-238 | with a known code the party's current song is replaced and `playback_updated` is emitted to it; a missing or unknown code changes nothing |
| `Text.Decimal` | frontend/src/pages/MobileView.jsx:101 | `String(n)` of a whole number: one or more digits, one digit exactly below 10, no leading zero |
| `Text.DecimalRoundTrip` | frontend/src/pages/MobileView.jsx:101 | the decimal text reads back as the number |
| `Text.PadStart` | frontend/src/pages/MobileView.jsx:101 | `padStart`: the result is the width or the input's length, whichever is more, and consists of fill characters followed by the input |
| `Text.PaddedNumeral` | frontend/src/pages/MobileView.jsx:101 | zero padding does not change the number a numeral denotes |
| `Text.IntText` | frontend/src/pages/ProjectorView.jsx:252 | definition without a contract: `String(v)` of an integer, a minus sign before the digits of a negative one; read back by `Text.IntTextRoundTrip` |
| `Text.IntTextRoundTrip` | frontend/src/pages/ProjectorView.jsx:252 | `String(v)` of a signed score reads back as the score and starts with `-` exactly when it is negative |
| `Text.LeadingSpace` | frontend/src/pages/MobileView.jsx:58 | the white space `trim` removes at the start: an all-space prefix followed by a non-space character or the end |
| `Text.TrailingStart` | frontend/src/pages/JoinParty.jsx:15 | the white space `trim` removes at the end: an all-space suffix preceded by a non-space character or the start |
| `Text.Trim` | frontend/src/pages/JoinParty.jsx:15 | definition without a contract: `s.trim()`, the part between the leading and the trailing white space; stated by `Text.TrimEmpty` and `Text.TrimShape` |
| `Text.TrimEmpty` | frontend/src/pages/JoinParty.jsx:15 | `!s.trim()` holds exactly when every character is white space |
| `Text.TrimShape` | frontend/src/pages/MobileView.jsx:58 | the trimmed text is a contiguous part of the input with only white space around it, and does not start or end with white space |
| `Text.UpperChar` | frontend/src/pages/JoinParty.jsx:60 | definition without a contract: an ASCII lower-case letter becomes its upper-case letter, every other character is kept |
| `Text.ToUpper` | frontend/src/pages/JoinParty.jsx:60 | ASCII letters upper-cased, every other character kept, length kept (narrower than JavaScript's `toUpperCase`, see the `Text.ToUpper` line under Left out) |
| `Text.ToUpperIdempotent` | frontend/src/pages/JoinParty.jsx:60 | upper-casing twice is upper-casing once |
| `Duration.Clock` | frontend/src/pages/ProjectorView.jsx:62 | definition without a contract: the minutes, a colon, and the seconds padded to two digits; read back by `Duration.ClockReadsBack` |
| `Duration.ClockReadsBack` | frontend/src/pages/ProjectorView.jsx:62 | `minutes + ":" + seconds.padStart(2, '0')` parses back to the minutes and the seconds for any seconds below 100 |
| `Duration.Seconds` | frontend/src/pages/ProjectorView.jsx:61 | `((ms % 60000) / 1000).toFixed(0)` on an integer length: the remainder rounded to the nearest second with halves up, at most 60, and 60 exactly when the remainder is at least 59 500 ms |
| `Duration.FormatDuration` | frontend/src/pages/MobileView.jsx:98-102 | definition without a contract: `Clock` of the whole minutes and of `Seconds`, the same code as frontend/src/pages/ProjectorView.jsx:59-63; its readings are stated by the FormatDuration lemmas below |
| `Duration.FormatDurationReadsBack` | frontend/src/pages/MobileView.jsx:98-102 | the text shows `floor(ms / 60000)` minutes and the rounded seconds, which together lie within half a second of the length |
| `Duration.FormatDurationShowsSixty` | frontend/src/pages/ProjectorView.jsx:59-63 | the seconds field reads 60, with no carry into the minutes, exactly when the remainder is at least 59.5 s |
| `Duration.FormatDurationOfFiftyNineAndAHalf` | frontend/src/pages/ProjectorView.jsx:59-63 | 59 500 ms is shown as "0:60" |
| `Duration.FormatDurationCarried` | frontend/src/pages/ProjectorView.jsx:59-63 | definition without a contract: the corrected rendering of the finding below, rounding the whole length to seconds before splitting it; stated by the FormatDurationCarried lemmas below |
| `Duration.FormatDurationCarriedReadsBack` | frontend/src/pages/ProjectorView.jsx:59-63 | with the carry made, the seconds field is below 60 and the text still lies within half a second of the length |
| `Duration.FormatDurationCarriedAgrees` | frontend/src/pages/ProjectorView.jsx:59-63 | below 59.5 s into a minute the carried and the written rendering are the same text |
| `Duration.FormatDurationCarriedOfFiftyNineAndAHalf` | frontend/src/pages/ProjectorView.jsx:59-63 | with the carry made, 59 500 ms is shown as "1:00" |
| `ClientSync.Snapshot` | backend/app.py:71-79 | the JSON object of a party has exactly the seven properties of the stored record, with their values |
| `ClientSync.SnapshotInjective` | backend/app.py:94 | different parties give different JSON objects, so a page's copy determines the party |
| `ClientSync.SetField` | frontend/src/pages/ProjectorView.jsx:46-52 | `{ ...prev, [key]: value }`: the keys of `prev` (none for `null`) plus the key, the new value under it, every other property unchanged |
| `ClientSync.OnQueueUpdated` | frontend/src/pages/ProjectorView.jsx:46-48 | definition without a contract: `SetField` with `queue`, so its contract is SetField's; see also `ClientSync.EventKeepsOtherFields` |
| `ClientSync.OnPlaybackUpdated` | frontend/src/pages/ProjectorView.jsx:50-52 | definition without a contract: `SetField` with `current_song`, so its contract is SetField's |
| `ClientSync.OnPartyUpdated` | frontend/src/pages/ProjectorView.jsx:54-56 | definition without a contract: the payload's snapshot replaces the state, whatever it was |
| `ClientSync.OnLoaded` | frontend/src/pages/ProjectorView.jsx:33-40 | a successful `GET /api/party/<code>` replaces the page's party, a failed one leaves it |
| `ClientSync.Apply` | frontend/src/pages/MobileView.jsx:44-54 | definition without a contract: an event goes to the handler registered for its name; stated by `ClientSync.ApplyMirrorsEffect` |
| `ClientSync.ApplyAll` | frontend/src/pages/MobileView.jsx:44-54 | definition without a contract: events handled one after another in arrival order; stated by `ClientSync.ApplyAllMirrorsEffect` |
| `ClientSync.ApplyMirrorsEffect` | frontend/src/pages/MobileView.jsx:44-54 | merging one `queue_updated`, `playback_updated` or `party_updated` event into a party's snapshot gives the snapshot of the party the event describes |
| `ClientSync.ApplyAllMirrorsEffect` | frontend/src/pages/ProjectorView.jsx:46-56 | the same over any sequence of events, in arrival order |
| `ClientSync.LoadThenEvents` | frontend/src/pages/MobileView.jsx:31-54 | a page that loaded a party and then merged the events since then holds the snapshot of the party those events lead to |
| `ClientSync.EventBeforeLoad` | frontend/src/pages/ProjectorView.jsx:46-52 | a queue or playback event that arrives before the load leaves the page with an object holding only that one property |
| `ClientSync.EventKeepsOtherFields` | frontend/src/pages/MobileView.jsx:44-50 | a queue or playback event leaves every other property of the page's party as it was |
| `ClientSync.Renderable` | frontend/src/pages/ProjectorView.jsx:65 | definition without a contract: what the page can show without reading a missing property, namely `null` (the loading screen of line 65) or an object with every property of a party |
| `ClientSync.EarlyEventIsNotRenderable` | frontend/src/pages/ProjectorView.jsx:130 | as written, a queue or playback event before the load leaves a state past the loading check (line 65) without `members`, and a playback event one without `queue` as well, which lines 130 and 133 read |
| `ClientSync.ApplyKeepsLoadedRenderable` | frontend/src/pages/MobileView.jsx:44-54 | once the page holds an object with every property of a party, any event keeps it that way |
| `ClientSync.ApplyGuarded` | frontend/src/pages/ProjectorView.jsx:46-56 | the corrected handlers of the finding below: they keep a renderable state renderable and do exactly what the written handlers do once a party is held |
| `ClientSync.GuardedStaysRenderable` | frontend/src/pages/ProjectorView.jsx:46-65 | with the corrected handlers every state reached by any sequence of events from a renderable one is renderable |
| `ClientSync.GuardedAgreesWhenLoaded` | frontend/src/pages/MobileView.jsx:44-54 | from a loaded state the corrected and the written handlers give the same state after any sequence of events |
| `ClientSync.LoadThenGuardedEvents` | frontend/src/pages/MobileView.jsx:31-54 | with the corrected handlers a page that loaded a party and merged the events since holds the snapshot of the party those events lead to |
| `Projector.QueueRows` | frontend/src/pages/ProjectorView.jsx:224-234 | the panel shows `min(5, length)` rows; row `i` is the queue entry `i`, numbered `i + 1` |
| `Projector.PanelShowsTopEntries` | frontend/src/pages/ProjectorView.jsx:224 | for a queue in score order, no hidden entry outscores a shown one, and a queue of five or more fills the panel |
| `Projector.PanelOfEmittedQueue` | frontend/src/pages/ProjectorView.jsx:224-234 | for a queue the backend emits, which is `SortByVotes` of the queue it built: the panel shows `min(5, length)` entries of that queue, numbered from one, in non-increasing score, and no hidden entry outscores a shown one |
| `Projector.VoteLabel` | frontend/src/pages/ProjectorView.jsx:252 | the label starts with `+` exactly for positive scores and with `-` exactly for negative ones |
| `Projector.VoteLabelReadsBack` | frontend/src/pages/ProjectorView.jsx:252 | the label is a signed numeral that reads back as the score |
| `Projector.VoteLabelOfZero` | frontend/src/pages/ProjectorView.jsx:252 | a zero score is labelled "0" |
| `Projector.VoteClass` | frontend/src/pages/ProjectorView.jsx:251 | definition without a contract: `positive`, `negative` or no class by the sign of the score; stated by `Projector.VoteClassMatchesLabel` |
| `Projector.VoteClassMatchesLabel` | frontend/src/pages/ProjectorView.jsx:251-252 | the class is `positive` exactly when the label shows `+`, `negative` exactly when it shows `-`, and empty exactly when the label is "0" |
| `Mobile.UserName` | frontend/src/pages/MobileView.jsx:16 | the stored name when it is present and non-empty, otherwise "Anonymous"; never empty |
| `Mobile.SearchAllowed` | frontend/src/pages/MobileView.jsx:58 | a search goes out exactly when the query has a character that is not white space |
| `Mobile.MobileScreen.constructor` | frontend/src/pages/MobileView.jsx:11-16 | empty query and results, not searching, on the queue tab, nothing sent |
| `Mobile.MobileScreen.EditQuery` | frontend/src/pages/MobileView.jsx:220 | the query becomes what was typed; nothing else changes |
| `Mobile.MobileScreen.SelectTab` | frontend/src/pages/MobileView.jsx:117-124 | the active tab becomes the chosen one; nothing else changes |
| `Mobile.MobileScreen.BeginSearch` | frontend/src/pages/MobileView.jsx:57-62 | a blank query changes nothing; otherwise the page is marked searching and the untrimmed query is sent |
| `Mobile.MobileScreen.FinishSearch` | frontend/src/pages/MobileView.jsx:61-69 | a reply's tracks replace the results, a failure keeps them and raises a notice, and searching ends either way |
| `Mobile.MobileScreen.AddToQueue` | frontend/src/pages/MobileView.jsx:72-85 | the track is posted with `added_by` set to the page's user name; success returns to the queue tab with query and results cleared; failure changes only the notices |
| `Mobile.MobileScreen.VoteSong` | frontend/src/pages/MobileView.jsx:87-96 | posts the index, the page's user name and the vote; nothing else changes |
| `Mobile.AddedEntry` | frontend/src/pages/MobileView.jsx:74-77 | the backend files a track added from the page with the track as sent, the page's (non-empty) user name, score 0 and no voters |
| `Mobile.ButtonVotes` | frontend/src/pages/MobileView.jsx:187-194 | the up and down buttons move a score by one for a guest not yet listed on the entry and by two for a listed one |
| `Mobile.AnonymousGuestsShareAVote` | frontend/src/pages/MobileView.jsx:16 | two guests without a stored name vote under the same name, so their two up-votes add 3 to an entry neither had voted on |
| `JoinForm.MobilePath` | frontend/src/pages/JoinParty.jsx:29 | the guest-page route is `/party/`, the code, then `/mobile` |
| `JoinForm.JoinScreen.constructor` | frontend/src/pages/JoinParty.jsx:10-12 | the code field starts as the route parameter (whole and not upper-cased) or empty, the name empty, not loading, nothing sent or in flight |
| `JoinForm.JoinScreen.EditCode` | frontend/src/pages/JoinParty.jsx:60-61 | the stored code is the delivered text upper-cased; a text within the field's `maxLength` of eight gives a code of at most eight characters, while a longer text, such as an edit of a long route parameter, is kept whole |
| `JoinForm.JoinScreen.EditName` | frontend/src/pages/JoinParty.jsx:71 | the name becomes what was typed; nothing else changes |
| `JoinForm.JoinScreen.BeginJoin` | frontend/src/pages/JoinParty.jsx:14-24 | the join is posted, with code and name as typed, exactly when neither is blank, the page starts loading and the request joins those in flight (any earlier ones included); otherwise only the "enter both" notice is raised; every request in flight was sent |
| `JoinForm.JoinScreen.FinishJoin` | frontend/src/pages/JoinParty.jsx:26-40 | the reply to any one request in flight removes that request and keeps the others in order; a successful reply stores that request's name and navigates to its code's guest page; a 404 raises "Party not found"; any other failure raises the generic notice; loading ends either way, even with other requests still in flight; every request still in flight was sent |
| `JoinForm.PartyCodesFitTheField` | frontend/src/pages/JoinParty.jsx:60-61 | every code the backend makes fits the eight-character field and is unchanged by upper-casing, so typing it in any letter case yields it |
| `JoinForm.StoredCodeIsUpper` | frontend/src/pages/JoinParty.jsx:60 | the stored code has no lower-case ASCII letter and upper-casing it again changes nothing |
| `JoinForm.JoinedNameIsVoter` | frontend/src/pages/JoinParty.jsx:28 | a name the form accepts is the name the guest page adds and votes under |

## Findings

| source | as written | input that shows it | evidently intended | confidence | as-written member | corrected member |
|---|---|---|---|---|---|---|
| frontend/src/pages/ProjectorView.jsx:59-63 | the seconds are rounded with `toFixed(0)` after the minutes are taken, so a remainder of 59.5 s or more shows as 60 seconds with no carry (the same code is at frontend/src/pages/MobileView.jsx:98-102) | a track of 59 500 ms | "1:00": round the whole length first, then split it into minutes and seconds | high (not executed) | `Duration.FormatDurationOfFiftyNineAndAHalf` | `Duration.FormatDurationCarriedReadsBack` |
| frontend/src/pages/ProjectorView.jsx:46-52 | the `queue_updated` and `playback_updated` handlers spread `prev` even when it is still `null`, so an event that arrives before the `GET` reply leaves `{ queue }` or `{ current_song }`; the page then passes its loading check (line 65) and reads `party.members.length` (line 130), and after a playback event also `party.queue.length` (line 133; frontend/src/pages/MobileView.jsx:44-50 and 120 likewise), a TypeError | a vote or an add by another guest while the page is loading, then the `GET` reply failing or arriving later | merge an event only into a state that holds a party, e.g. `prev ? { ...prev, queue } : prev` | medium (not executed) | `ClientSync.EarlyEventIsNotRenderable` | `ClientSync.GuardedStaysRenderable` |

`Duration.FormatDurationShowsSixty` proves the general case: the seconds
field reads 60 exactly when the remainder is at least 59.5 s. The corrected
`Duration.FormatDurationCarried` always shows seconds below 60
(`FormatDurationCarriedReadsBack`). It gives "1:00" for 59 500 ms. It agrees
with the written rendering for every other remainder
(`FormatDurationCarriedAgrees`). No other part of the model displays a
duration.

For the early event, `ClientSync.ApplyGuarded` is the corrected handler. It
keeps a renderable state renderable, and it does what the written handlers do
once a party is held (`ClientSync.GuardedAgreesWhenLoaded`). So
`ClientSync.LoadThenGuardedEvents` gives the same result as
`ClientSync.LoadThenEvents`.

## Left out

- The clock and the random code are parameters. `datetime.now()` becomes a
  time text and `secrets.token_hex(4).upper()` becomes a code argument;
  `CreateParty` requires that code to have the generated shape.
- Two derived values are also parameters.
  - The QR image and its base64 text are one given string.
  - `FRONTEND_URL` is an optional argument.
- Code collisions are not modelled. A colliding code replaces the earlier
  party, as the dictionary assignment in the source does.
- Spotify is left out. That covers the OAuth routes, `/api/search` with its
  result mapping, and its 400 and 401 errors. The guest page receives search
  results as a given list, or a failure.
- The Socket.IO transport is not modelled.
  - Rooms and the `join` and `leave` socket handlers are left out.
  - Events are appended to one outbox, tagged with their room. The pages are
    modelled as receiving their own party's events in order.
- Concurrency and request interleaving are not modelled. Each handler runs to
  completion.
- JSON is modelled only as far as the handlers read it.
  - `data.get(key, default)` is modelled with an absent key. An explicit
    JSON `null` is not distinguished from an absent key.
  - A request without a JSON body is not modelled. In the source, it fails.
  - Every track field of a queue entry may be absent.
- Only part of the React and browser behaviour is modelled.
  - Rendering, animation, the clock display, the QR corner, CreateParty,
    Home and App are left out.
  - `encodeURIComponent` and the URL building of the requests are left out.
  - `alert` calls become notices.
  - The disabled state of buttons is not modelled. The join form needs no
    such state: its Enter key ignores it, so several joins can be in flight.
  - The search and the join are each split into a send step and a reply step.
  - When a page adds a track, the reply arrives within the same call.
- `Text.ToUpper` maps only the ASCII letters, one character to one, through
  `Text.UpperChar`. JavaScript's `toUpperCase` also maps other letters and can
  change a string's length ('ß' becomes "SS"). The length bound of
  `JoinForm.JoinScreen.EditCode` depends on this narrowing: with full Unicode
  upper-casing, an eight-character input can give a longer code. Codes from the
  backend use only `0-9` and `A-F`.
- Track lengths are whole, non-negative milliseconds. Floating-point effects of
  `Math.floor(ms / 60000)` and `toFixed` on very large or fractional values are
  not modelled.
