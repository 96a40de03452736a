/** The live client, `pyhelialux/pyHelialux.py`: an async controller with a
    lazily created, reusable session. The text of `statusvars.js` and
    `wpvars.js` is an input (None when the request failed or was not
    answered with status 200); form posts are appended to a log. */
module LiveClient {
  import opened Wrappers
  import opened PyValues
  import opened StatusVars
  import opened Status
  import opened Session
  import opened Requests

  /** The profile reported when the status has none. */
  const OfflineProfile: Value := VStr("offline")

  /** `get_status` given the fetched `statusvars.js`. */
  function LiveStatus(fetched: Option<string>): (r: Result<Option<map<string, Value>>, Error>)
    ensures r == Success(None) <==> !HasText(fetched)
    ensures r.Success? && r.value.Some? ==> r.value.value.Keys == StatusKeys
  {
    if !HasText(fetched) then Success(None)
    else
      var vars :- Parse(fetched.value);
      var status :- StatusDict(vars, Some(OfflineProfile));
      Success(Some(status))
  }

  /** `get_profiles` given the fetched `wpvars.js`. */
  function LiveProfiles(fetched: Option<string>): (r: Result<Option<map<string, Value>>, Error>)
    ensures r == Success(None) <==> !HasText(fetched)
    ensures r.Success? && r.value.Some? ==> r.value.value.Keys == {"profile_names", "profile_selection"}
  {
    if !HasText(fetched) then Success(None)
    else
      var wpvars :- Parse(fetched.value);
      Success(Some(ProfilesDict(wpvars)))
  }

  /** A status text that names no `profile` reports "offline" as the current
      profile, and the parsed values otherwise. */
  lemma LiveStatusOfText(text: string)
    requires text != "" && Parse(text).Success?
    ensures var vars := Parse(text).value;
      StatusDict(vars, Some(OfflineProfile)).Success? ==>
        && LiveStatus(Some(text)) == Success(Some(StatusDict(vars, Some(OfflineProfile)).value))
        && LiveStatus(Some(text)).value.value["currentProfile"]
           == (if "profile" in vars then vars["profile"] else VStr("offline"))
  {
  }

  /** Missing keys other than `profile` raise: a status text without
      `brightness` makes `get_status` raise KeyError. */
  lemma LiveStatusNeedsBrightness(text: string)
    requires text != "" && Parse(text).Success? && "brightness" !in Parse(text).value
    ensures LiveStatus(Some(text)) == Failure(KeyError("brightness"))
  {
  }

  /** Absent profile lists default to the empty list. */
  lemma LiveProfilesDefaults(text: string)
    requires text != "" && Parse(text).Success?
    requires "profnames" !in Parse(text).value && "profsel" !in Parse(text).value
    ensures LiveProfiles(Some(text)) == Success(Some(map["profile_names" := VList([]), "profile_selection" := VList([])]))
  {
  }

  class Controller {
    const url: string
    var session: SessionState
    /** Sessions created so far; also the identity of the next one. */
    var created: nat
    /** The form posts attempted so far, in order. */
    var posts: seq<Request>

    /** Every session handed out so far has an identity below `created`. */
    predicate Valid()
      reads this
    {
      session.NoSession? || session.id < created
    }

    constructor(url: string)
      ensures this.url == url && session == NoSession && created == 0 && posts == []
      ensures Valid()
    {
      this.url := url;
      session := NoSession;
      created := 0;
      posts := [];
    }

    /** `_get_session`. */
    method GetSession() returns (id: nat)
      requires Valid()
      modifies this
      ensures Valid()
      ensures (session, id) == Acquire(old(session), old(created))
      ensures created == old(created) + Created(old(session))
      ensures !old(session).Open? ==> id == old(created)
      ensures posts == old(posts)
    {
      if !session.Open? {
        session := Open(created);
        created := created + 1;
      }
      id := session.id;
    }

    /** `get_status`: take the session, then use the fetched text. */
    method GetStatus(fetched: Option<string>) returns (r: Result<Option<map<string, Value>>, Error>)
      requires Valid()
      modifies this
      ensures Valid()
      ensures r == LiveStatus(fetched)
      ensures session == Acquire(old(session), old(created)).0
      ensures created == old(created) + Created(old(session)) && posts == old(posts)
    {
      var _ := GetSession();
      if fetched.Some? && fetched.value != "" {
        var parsed := ParseStatusVars(fetched.value);
        if parsed.Failure? {
          return Failure(parsed.error);
        }
        var status := StatusDict(parsed.value, Some(OfflineProfile));
        if status.Failure? {
          return Failure(status.error);
        }
        return Success(Some(status.value));
      }
      return Success(None);
    }

    /** `get_profiles`: take the session, then use the fetched text. */
    method GetProfiles(fetched: Option<string>) returns (r: Result<Option<map<string, Value>>, Error>)
      requires Valid()
      modifies this
      ensures Valid()
      ensures r == LiveProfiles(fetched)
      ensures session == Acquire(old(session), old(created)).0
      ensures created == old(created) + Created(old(session)) && posts == old(posts)
    {
      var _ := GetSession();
      if fetched.Some? && fetched.value != "" {
        var parsed := ParseStatusVars(fetched.value);
        if parsed.Failure? {
          return Failure(parsed.error);
        }
        return Success(Some(ProfilesDict(parsed.value)));
      }
      return Success(None);
    }

    /** `start_manual_color_simulation(duration)`; a failed post is only logged. */
    method StartManualColorSimulation(duration: nat := 60)
      requires Valid()
      modifies this
      ensures Valid()
      ensures posts == old(posts) + [StartRequest(url, duration)]
      ensures session == Acquire(old(session), old(created)).0
      ensures created == old(created) + Created(old(session))
    {
      var _ := GetSession();
      posts := posts + [StartRequest(url, duration)];
    }

    /** `set_manual_color`: switch the colour simulation on for 60 minutes,
      then post all four channels rescaled to 0-100. */
    method SetManualColor(white: int, blue: int, green: int, red: int)
      requires Valid()
      modifies this
      ensures Valid()
      ensures posts == old(posts) + [StartRequest(url, 60), ScaledColorRequest(url, white, blue, green, red)]
      ensures session == Acquire(old(session), old(created)).0
      ensures created == old(created) + Created(old(session))
    {
      var _ := GetSession();
      StartManualColorSimulation(60);
      posts := posts + [ScaledColorRequest(url, white, blue, green, red)];
    }

    /** `stop_manual_color_simulation`: switch off, then reset the colour,
      unless the first post raised. */
    method StopManualColorSimulation(firstRaised: bool)
      requires Valid()
      modifies this
      ensures Valid()
      ensures posts == old(posts) + StopRequests(url, firstRaised)
      ensures session == Acquire(old(session), old(created)).0
      ensures created == old(created) + Created(old(session))
    {
      var _ := GetSession();
      posts := posts + [StopSwitchRequest(url)];
      if !firstRaised {
        posts := posts + [ResetRequest(url)];
      }
    }

    /** `close`. */
    method Close()
      modifies this
      ensures session == CloseSession(old(session))
      ensures created == old(created) && posts == old(posts)
      ensures old(Valid()) ==> Valid()
    {
      if session.Open? {
        session := Closed(session.id);
      }
    }
  }
}
