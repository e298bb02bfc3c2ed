/** The join form of JoinParty.jsx: a party code, upper-cased as it is
    typed, and a display name; submitting posts both to the backend, and a
    successful join remembers the name and opens the guest page. `alert`
    calls become notices. */
module JoinForm {
  import opened Wrappers
  import opened PartyData
  import opened Text
  import Mobile

  /** The `maxLength` of the code field. */
  const CodeFieldLength: nat := 8

  /** `POST /api/party/<code>/join` with `{ user_name }`. */
  datatype JoinRequest = JoinRequest(code: string, userName: string)

  /** What came back: a reply body's `success` flag, or an error with the
      HTTP status of its response, if there was one. */
  datatype JoinReply = Replied(success: bool) | Failed(status: Option<nat>)

  datatype Notice = MissingFields | PartyMissing | JoinFailed

  /** The route of the guest page for a party. */
  function MobilePath(code: string): (path: string)
    ensures |path| == |code| + 14
    ensures path[..7] == "/party/" && path[7..7 + |code|] == code && path[7 + |code|..] == "/mobile"
  {
    "/party/" + code + "/mobile"
  }

  class JoinScreen {
    var partyCode: string
    var userName: string
    var loading: bool
    /** The requests posted and not yet answered, oldest first. The button is
        disabled while loading, but the Enter key in the name field is not,
        so several joins can be awaiting their replies at once. */
    var inFlight: seq<JoinRequest>
    var requests: seq<JoinRequest>
    var notices: seq<Notice>
    /** What `localStorage` holds under `userName`. */
    var stored: Option<string>
    /** The route `navigate` was sent to, if any. */
    var location: Option<string>

    /** `useState(urlPartyCode || '')`; the route parameter is taken as it is,
        without upper-casing and without the field's length limit. */
    constructor (urlCode: Option<string>, stored: Option<string>)
      ensures partyCode == urlCode.GetOr("") && userName == "" && !loading
      ensures inFlight == [] && requests == [] && notices == []
      ensures this.stored == stored && location == None
      ensures InFlightWereSent()
    {
      partyCode := urlCode.GetOr("");
      userName := "";
      loading := false;
      inFlight := [];
      requests := [];
      notices := [];
      this.stored := stored;
      location := None;
    }

    /** The code field's `onChange`: the page stores what the browser delivers,
        upper-cased. Typing adds at most up to the field's `maxLength`, but a
        longer code taken from the route is delivered in full, so an edit of it
        can be longer than the field allows. */
    method EditCode(input: string)
      modifies this
      ensures partyCode == ToUpper(input)
      ensures |input| <= CodeFieldLength ==> |partyCode| <= CodeFieldLength
      ensures userName == old(userName) && loading == old(loading) && inFlight == old(inFlight)
      ensures requests == old(requests) && notices == old(notices)
      ensures stored == old(stored) && location == old(location)
    {
      partyCode := ToUpper(input);
    }

    /** The name field's `onChange`. */
    method EditName(input: string)
      modifies this
      ensures userName == input
      ensures partyCode == old(partyCode) && loading == old(loading) && inFlight == old(inFlight)
      ensures requests == old(requests) && notices == old(notices)
      ensures stored == old(stored) && location == old(location)
    {
      userName := input;
    }

    /** The first half of `joinParty`: with a blank code or name only a
        notice is raised; otherwise the page starts loading and posts the
        code and the name as typed. */
    method BeginJoin() returns (sent: bool)
      modifies this
      ensures sent <==> !AllSpace(partyCode) && !AllSpace(userName)
      ensures sent ==> && loading && inFlight == old(inFlight) + [JoinRequest(partyCode, userName)]
                       && requests == old(requests) + [JoinRequest(partyCode, userName)]
                       && notices == old(notices)
      ensures !sent ==> && loading == old(loading) && inFlight == old(inFlight)
                        && requests == old(requests) && notices == old(notices) + [MissingFields]
      ensures partyCode == old(partyCode) && userName == old(userName)
      ensures stored == old(stored) && location == old(location)
      ensures old(InFlightWereSent()) ==> InFlightWereSent()
    {
      TrimEmpty(partyCode);
      TrimEmpty(userName);
      if Trim(partyCode) == [] || Trim(userName) == [] {
        notices := notices + [MissingFields];
        return false;
      }
      loading := true;
      var req := JoinRequest(partyCode, userName);
      inFlight := inFlight + [req];
      requests := requests + [req];
      sent := true;
    }

    /** The second half of `joinParty`, for the request `inFlight[i]`, whose
        reply may come before or after those of the others: a successful
        reply stores the name and opens the guest page of the code that was
        posted; a 404 raises the not-found notice and any other failure the
        generic one; either way loading ends, even while other requests are
        still waiting. */
    method FinishJoin(i: nat, reply: JoinReply)
      requires i < |inFlight|
      modifies this
      ensures !loading && inFlight == old(inFlight[..i] + inFlight[i + 1..])
      ensures var req := old(inFlight[i]);
        && (reply == Replied(true) ==>
              stored == Some(req.userName) && location == Some(MobilePath(req.code))
              && notices == old(notices))
        && (reply == Replied(false) ==>
              stored == old(stored) && location == old(location) && notices == old(notices))
        && (reply == Failed(Some(404)) ==>
              stored == old(stored) && location == old(location) && notices == old(notices) + [PartyMissing])
        && (reply.Failed? && reply.status != Some(404) ==>
              stored == old(stored) && location == old(location) && notices == old(notices) + [JoinFailed])
      ensures partyCode == old(partyCode) && userName == old(userName) && requests == old(requests)
      ensures old(InFlightWereSent()) ==> InFlightWereSent()
    {
      var req := inFlight[i];
      assert inFlight == inFlight[..i] + [req] + inFlight[i + 1..];
      match reply {
        case Replied(success) =>
          if success {
            stored := Some(req.userName);
            location := Some(MobilePath(req.code));
          }
        case Failed(status) =>
          if status == Some(404) {
            notices := notices + [PartyMissing];
          } else {
            notices := notices + [JoinFailed];
          }
      }
      loading := false;
      inFlight := inFlight[..i] + inFlight[i + 1..];
    }

    /** Every request in flight was also recorded as sent. */
    predicate InFlightWereSent()
      reads this
    {
      multiset(inFlight) <= multiset(requests)
    }
  }

  /** Every code the backend hands out fits the field and is left as it is
      by the upper-casing, so typing it in any letter case yields it. */
  lemma PartyCodesFitTheField(code: string, typed: string)
    requires IsPartyCode(code)
    ensures |code| <= CodeFieldLength && ToUpper(code) == code
    ensures |typed| == |code| && (forall i :: 0 <= i < |typed| ==> UpperChar(typed[i]) == code[i])
            ==> ToUpper(typed) == code
  {
    assert forall i :: 0 <= i < |code| ==> UpperChar(code[i]) == code[i];
  }

  /** Upper-casing once is enough: the stored code is never changed again by
      the upper-casing of what the field shows. */
  lemma StoredCodeIsUpper(input: string)
    ensures ToUpper(ToUpper(input)) == ToUpper(input)
    ensures forall i :: 0 <= i < |ToUpper(input)| ==> !('a' <= ToUpper(input)[i] <= 'z')
  {
    ToUpperIdempotent(input);
  }

  /** A name accepted by the form is the one the guest page votes and adds
      songs under. */
  lemma JoinedNameIsVoter(name: string)
    requires !AllSpace(name)
    ensures Mobile.UserName(Some(name)) == name
  {
  }
}
