/** The older async client, `pyHelialux.py` at the top of the component: the
    same controller as the live one, except that `get_status` has no default
    for a missing `profile`, `normalize_brightness` only clamps, and
    `set_manual_color` sends only the channels it is given and does not start
    the colour simulation first. It has no `get_profiles`. */
module LegacyClient {
  import opened Wrappers
  import opened PyValues
  import opened StatusVars
  import opened Status
  import opened Session
  import opened Requests

  /** `get_status` given the fetched `statusvars.js`. */
  function LegacyStatus(fetched: Option<string>): (r: Result<Option<map<string, Value>>, Error>)
    ensures r == Success(None) <==> !HasText(fetched)
    ensures r.Success? && r.value.Some? ==> r.value.value.Keys == StatusKeys
  {
    if !HasText(fetched) then Success(None)
    else
      var vars :- Parse(fetched.value);
      var status :- StatusDict(vars, None);
      Success(Some(status))
  }

  /** Without a `profile` variable `get_status` raises KeyError. */
  lemma LegacyStatusNeedsProfile(text: string)
    requires text != "" && Parse(text).Success? && "profile" !in Parse(text).value
    ensures LegacyStatus(Some(text)) == Failure(KeyError("profile"))
  {
  }

  /** When `get_status` succeeds its profile is the parsed `profile`. */
  lemma LegacyStatusProfile(text: string)
    requires LegacyStatus(Some(text)).Success? && text != ""
    ensures Parse(text).Success? && "profile" in Parse(text).value
    ensures LegacyStatus(Some(text)).value.value["currentProfile"] == Parse(text).value["profile"]
  {
  }

  class Controller {
    const url: string
    var session: SessionState
    /** Sessions created so far; also the identity of the next one. */
    var created: nat
    /** The form posts attempted so far, in order. */
    var posts: seq<Request>

    /** Every session handed out so far has an identity below `created`. */
    predicate Valid()
      reads this
    {
      session.NoSession? || session.id < created
    }

    constructor(url: string)
      ensures this.url == url && session == NoSession && created == 0 && posts == []
      ensures Valid()
    {
      this.url := url;
      session := NoSession;
      created := 0;
      posts := [];
    }

    /** `_get_session`. */
    method GetSession() returns (id: nat)
      requires Valid()
      modifies this
      ensures Valid()
      ensures (session, id) == Acquire(old(session), old(created))
      ensures created == old(created) + Created(old(session))
      ensures !old(session).Open? ==> id == old(created)
      ensures posts == old(posts)
    {
      if !session.Open? {
        session := Open(created);
        created := created + 1;
      }
      id := session.id;
    }

    /** `get_status`: take the session, then use the fetched text. */
    method GetStatus(fetched: Option<string>) returns (r: Result<Option<map<string, Value>>, Error>)
      requires Valid()
      modifies this
      ensures Valid()
      ensures r == LegacyStatus(fetched)
      ensures session == Acquire(old(session), old(created)).0
      ensures created == old(created) + Created(old(session)) && posts == old(posts)
    {
      var _ := GetSession();
      if fetched.Some? && fetched.value != "" {
        var parsed := ParseStatusVars(fetched.value);
        if parsed.Failure? {
          return Failure(parsed.error);
        }
        var status := StatusDict(parsed.value, None);
        if status.Failure? {
          return Failure(status.error);
        }
        return Success(Some(status.value));
      }
      return Success(None);
    }

    /** `start_manual_color_simulation(duration)`; a failed post is only logged. */
    method StartManualColorSimulation(duration: nat := 60)
      requires Valid()
      modifies this
      ensures Valid()
      ensures posts == old(posts) + [StartRequest(url, duration)]
      ensures session == Acquire(old(session), old(created)).0
      ensures created == old(created) + Created(old(session))
    {
      var _ := GetSession();
      posts := posts + [StartRequest(url, duration)];
    }

    /** `set_manual_color`: action 10 and each channel whose argument is
      not None, clamped to 0-100; no start request is sent first. */
    method SetManualColor(white: Option<int>, blue: Option<int>, green: Option<int>, red: Option<int>)
      requires Valid()
      modifies this
      ensures Valid()
      ensures |posts| == |old(posts)| + 1 && posts[..|old(posts)|] == old(posts)
      ensures var req := posts[|old(posts)|];
        && req.endpoint == StatEndpoint(url)
        && "action" in req.fields && req.fields["action"] == FInt(10)
        && ClampedChannel(req.fields, "ch1", white) && ClampedChannel(req.fields, "ch2", blue)
        && ClampedChannel(req.fields, "ch3", green) && ClampedChannel(req.fields, "ch4", red)
        && forall key :: key in req.fields ==> key == "action" || IsChannel(key)
      ensures session == Acquire(old(session), old(created)).0
      ensures created == old(created) + Created(old(session))
    {
      var _ := GetSession();
      var params := OptionalColorFields(white, blue, green, red);
      posts := posts + [Request(StatEndpoint(url), params)];
    }

    /** `stop_manual_color_simulation`: switch off, then reset the colour,
      unless the first post raised. */
    method StopManualColorSimulation(firstRaised: bool)
      requires Valid()
      modifies this
      ensures Valid()
      ensures posts == old(posts) + StopRequests(url, firstRaised)
      ensures session == Acquire(old(session), old(created)).0
      ensures created == old(created) + Created(old(session))
    {
      var _ := GetSession();
      posts := posts + [StopSwitchRequest(url)];
      if !firstRaised {
        posts := posts + [ResetRequest(url)];
      }
    }

    /** `close`. */
    method Close()
      modifies this
      ensures session == CloseSession(old(session))
      ensures created == old(created) && posts == old(posts)
      ensures old(Valid()) ==> Valid()
    {
      if session.Open? {
        session := Closed(session.id);
      }
    }
  }
}
