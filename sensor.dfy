/** The synchronous client of `sensor.py` and the two entities built on it.
    A failed fetch of `statusvars.js` falls back to a fixed offline text;
    `JuwelApiData` keeps the last five readings, and each `JuwelSensor` shows
    one of them. The outcome of the HTTP request is an input. */
module SensorClient {
  import opened Wrappers
  import opened PyValues
  import opened Clock
  import opened StatusVars
  import opened StatusScript
  import opened Status
  import opened Requests

  /** The outcome of `requests.get(...)` followed by `raise_for_status()`. */
  datatype SyncFetch =
    | Body(text: string)
    | ConnectionError
    | Timeout
    | HttpError
    | OtherRequestError

  /** The statements of the offline text, in the order the text has them. */
  function OfflineStmts(): seq<Stmt> {
    [Stmt("lang", LInt(1)), Stmt("lamp", LStr("4Ch")), Stmt("profNum", LInt(1)),
     Stmt("profile", LStr("Offline")), Stmt("tsimtime", LInt(860)), Stmt("tsimact", LInt(0)),
     Stmt("csimact", LInt(0)), Stmt("brightness", LInts([0, 0, 0, 0])),
     Stmt("times", LInts([0, 0, 705, 720, 1200, 1230, 1260, 1350, 1439])),
     Stmt("CH1", LInts([0, 0, 0, 0, 0, 0, 0, 0, 0])), Stmt("CH2", LInts([5, 0, 0, 0, 0, 0, 0, 0, 0])),
     Stmt("CH3", LInts([0, 0, 0, 0, 0, 0, 0, 0, 0])), Stmt("CH4", LInts([0, 0, 0, 0, 0, 0, 0, 0, 0]))]
  }

  /** The offline text `lang=1;lamp='4Ch';...;CH4=[0,0,0,0,0,0,0,0,0];`,
      written as the rendering of its statements. */
  const OfflineText: string := Script(OfflineStmts())

  /** `_statusvars`: the parsed body, or the parsed offline text on a
      connection error, a timeout or an HTTP error status. Any other request
      exception is not caught. */
  function SensorStatusVars(f: SyncFetch): (r: Result<map<string, Value>, Error>)
    ensures f.OtherRequestError? ==> r == Failure(RequestError)
    ensures r.Failure? ==> f.OtherRequestError? || f.Body?
    ensures (f.ConnectionError? || f.Timeout? || f.HttpError?) ==>
      r.Success? && "profile" in r.value && r.value["profile"] == VStr("Offline")
  {
    match f
    case Body(text) => Parse(text)
    case OtherRequestError => Failure(RequestError)
    case _ => OfflineVars(); Parse(OfflineText)
  }

  /** `get_status`: always a dictionary, no default for `profile`. */
  function SensorStatus(f: SyncFetch): (r: Result<map<string, Value>, Error>)
    ensures r.Success? ==> r.value.Keys == StatusKeys
  {
    var vars :- SensorStatusVars(f);
    StatusDict(vars, None)
  }

  /** The statements of the offline text are well formed. */
  lemma OfflineStmtsWellFormed()
    ensures AllWellFormed(OfflineStmts())
  {
  }

  /** The statements the status reads, and that none is assigned again later. */
  lemma OfflineStmtsShape()
    ensures |OfflineStmts()| == 13
    ensures OfflineStmts()[3] == Stmt("profile", LStr("Offline")) && OfflineStmts()[4] == Stmt("tsimtime", LInt(860))
    ensures OfflineStmts()[5] == Stmt("tsimact", LInt(0)) && OfflineStmts()[6] == Stmt("csimact", LInt(0))
    ensures OfflineStmts()[7] == Stmt("brightness", LInts([0, 0, 0, 0]))
    ensures forall i, j :: 3 <= i < j < 13 ==> OfflineStmts()[j].name != OfflineStmts()[i].name
  {
  }

  /** In a well-formed script whose statements from index 3 on all assign
      different names, each of those names is bound to its statement's value. */
  lemma ScriptLastValues(stmts: seq<Stmt>)
    requires AllWellFormed(stmts)
    requires forall i, j :: 3 <= i < j < |stmts| ==> stmts[j].name != stmts[i].name
    ensures Parse(Script(stmts)).Success?
    ensures forall i :: 3 <= i < |stmts| ==>
      stmts[i].name in Parse(Script(stmts)).value && Parse(Script(stmts)).value[stmts[i].name] == ValueOf(stmts[i].value)
  {
    RoundTrip(stmts);
    forall i | 3 <= i < |stmts|
      ensures stmts[i].name in Parse(Script(stmts)).value && Parse(Script(stmts)).value[stmts[i].name] == ValueOf(stmts[i].value)
    {
      ParsedLast(stmts, i);
    }
  }

  /** A well-formed script whose statements 3 to 7 assign the values the
      status reads, none of them assigned again later, parses to those values. */
  lemma ScriptStatusVars(stmts: seq<Stmt>)
    requires AllWellFormed(stmts) && 8 <= |stmts|
    requires stmts[3] == Stmt("profile", LStr("Offline")) && stmts[4] == Stmt("tsimtime", LInt(860))
    requires stmts[5] == Stmt("tsimact", LInt(0)) && stmts[6] == Stmt("csimact", LInt(0))
    requires stmts[7] == Stmt("brightness", LInts([0, 0, 0, 0]))
    requires forall i, j :: 3 <= i < j < |stmts| ==> stmts[j].name != stmts[i].name
    ensures Parse(Script(stmts)).Success?
    ensures var vars := Parse(Script(stmts)).value;
      && "profile" in vars && vars["profile"] == VStr("Offline")
      && "tsimtime" in vars && vars["tsimtime"] == VInt(860)
      && "tsimact" in vars && vars["tsimact"] == VInt(0)
      && "csimact" in vars && vars["csimact"] == VInt(0)
      && "brightness" in vars && vars["brightness"] == VList([VInt(0), VInt(0), VInt(0), VInt(0)])
  {
    ScriptLastValues(stmts);
    var vars := Parse(Script(stmts)).value;
    assert vars[stmts[3].name] == ValueOf(stmts[3].value);
    assert vars[stmts[4].name] == ValueOf(stmts[4].value);
    assert vars[stmts[5].name] == ValueOf(stmts[5].value);
    assert vars[stmts[6].name] == ValueOf(stmts[6].value);
    assert vars[stmts[7].name] == ValueOf(stmts[7].value);
    DarkValue();
  }

  /** The value of the brightness list `[0,0,0,0]`. */
  lemma DarkValue()
    ensures ValueOf(LInts([0, 0, 0, 0])) == VList([VInt(0), VInt(0), VInt(0), VInt(0)])
  {
  }

  /** The offline text parses to the values the status reads from it. */
  lemma OfflineVars()
    ensures Parse(OfflineText).Success?
    ensures var vars := Parse(OfflineText).value;
      && "profile" in vars && vars["profile"] == VStr("Offline")
      && "tsimtime" in vars && vars["tsimtime"] == VInt(860)
      && "tsimact" in vars && vars["tsimact"] == VInt(0)
      && "csimact" in vars && vars["csimact"] == VInt(0)
      && "brightness" in vars && vars["brightness"] == VList([VInt(0), VInt(0), VInt(0), VInt(0)])
  {
    OfflineStmtsWellFormed();
    OfflineStmtsShape();
    ScriptStatusVars(OfflineStmts());
  }

  /** Offline fallback: when the controller cannot be reached, `get_status`
      reports the Offline profile, dark channels, both simulations off and
      the device time 14:20. */
  lemma OfflineFallback(f: SyncFetch)
    requires f.ConnectionError? || f.Timeout? || f.HttpError?
    ensures SensorStatus(f) == Success(map[
      "currentProfile" := VStr("Offline"),
      "currentWhite" := VInt(0), "currentBlue" := VInt(0), "currentGreen" := VInt(0), "currentRed" := VInt(0),
      "manualColorSimulationEnabled" := VBool(false), "manualDaytimeSimulationEnabled" := VBool(false),
      "deviceTime" := VStr("14:20")])
  {
    OfflineVars();
    OfflineStatusDict(Parse(OfflineText).value);
    FormatMinutesLateExamples();
  }

  /** The status dictionary of the offline values. */
  lemma OfflineStatusDict(vars: map<string, Value>)
    requires "profile" in vars && vars["profile"] == VStr("Offline")
    requires "tsimtime" in vars && vars["tsimtime"] == VInt(860)
    requires "tsimact" in vars && vars["tsimact"] == VInt(0)
    requires "csimact" in vars && vars["csimact"] == VInt(0)
    requires "brightness" in vars && vars["brightness"] == VList([VInt(0), VInt(0), VInt(0), VInt(0)])
    ensures StatusDict(vars, None) == Success(map[
      "currentProfile" := VStr("Offline"),
      "currentWhite" := VInt(0), "currentBlue" := VInt(0), "currentGreen" := VInt(0), "currentRed" := VInt(0),
      "manualColorSimulationEnabled" := VBool(false), "manualDaytimeSimulationEnabled" := VBool(false),
      "deviceTime" := VStr(FormatMinutes(860))])
  {
  }

  class Controller {
    const url: string
    /** The form posts attempted so far, in order. */
    var posts: seq<Request>

    constructor(url: string)
      ensures this.url == url && posts == []
    {
      this.url := url;
      posts := [];
    }

    /** `_statusvars`: fetch, fall back to the offline text on the caught
        errors, and parse with the scanner. */
    method StatusVars(f: SyncFetch) returns (r: Result<map<string, Value>, Error>)
      ensures r == SensorStatusVars(f)
    {
      if f.OtherRequestError? {
        return Failure(RequestError);
      }
      var text := if f.Body? then f.text else OfflineText;
      r := ParseStatusVars(text);
    }

    /** `get_status`. */
    method GetStatus(f: SyncFetch) returns (r: Result<map<string, Value>, Error>)
      ensures r == SensorStatus(f)
    {
      var vars := StatusVars(f);
      if vars.Failure? {
        return Failure(vars.error);
      }
      r := StatusDict(vars.value, None);
    }

    /** `start_manual_color_simulation(duration)`; an exception from the
        post propagates to the caller. */
    method StartManualColorSimulation(raises: bool, duration: nat := 60) returns (raised: Option<Error>)
      modifies this
      ensures posts == old(posts) + [StartRequest(url, duration)]
      ensures raised == if raises then Some(RequestError) else None
    {
      posts := posts + [StartRequest(url, duration)];
      raised := if raises then Some(RequestError) else None;
    }

    /** `set_manual_color`: only the channels given, clamped, with action 10. */
    method SetManualColor(white: Option<int>, blue: Option<int>, green: Option<int>, red: Option<int>, raises: bool)
      returns (raised: Option<Error>)
      modifies this
      ensures |posts| == |old(posts)| + 1 && posts[..|old(posts)|] == old(posts)
      ensures var req := posts[|old(posts)|];
        && req.endpoint == StatEndpoint(url)
        && "action" in req.fields && req.fields["action"] == FInt(10)
        && ClampedChannel(req.fields, "ch1", white) && ClampedChannel(req.fields, "ch2", blue)
        && ClampedChannel(req.fields, "ch3", green) && ClampedChannel(req.fields, "ch4", red)
        && forall key :: key in req.fields ==> key == "action" || IsChannel(key)
      ensures raised == if raises then Some(RequestError) else None
    {
      var params := OptionalColorFields(white, blue, green, red);
      posts := posts + [Request(StatEndpoint(url), params)];
      raised := if raises then Some(RequestError) else None;
    }

    /** `stop_manual_color_simulation`: two posts with no handler, so an
        exception from the first one skips the second and propagates. */
    method StopManualColorSimulation(firstRaises: bool, secondRaises: bool) returns (raised: Option<Error>)
      modifies this
      ensures posts == old(posts) + StopRequests(url, firstRaises)
      ensures raised == if firstRaises || secondRaises then Some(RequestError) else None
    {
      posts := posts + [StopSwitchRequest(url)];
      if firstRaises {
        return Some(RequestError);
      }
      posts := posts + [ResetRequest(url)];
      raised := if secondRaises then Some(RequestError) else None;
    }
  }

  /** `JuwelApiData.result`: a dictionary, or the message stored after a failure. */
  datatype ApiResult = Dict(entries: map<string, Value>) | Message(text: string)

  const CouldNotRetrieve: string := "Could not retrieve data."

  /** The five readings `JuwelApiData.update` copies. */
  const SensorKeys: set<string> := {"currentProfile", "currentWhite", "currentBlue", "currentRed", "currentGreen"}

  /** The result after one `update`, given the outcome of `get_status`. The
      five readings are written into the existing dictionary one by one; a
      raised `get_status`, a missing reading, or a result that is already the
      message (which rejects item assignment) all end in the message. */
  function UpdatedResult(previous: ApiResult, status: Result<map<string, Value>, Error>): (r: ApiResult)
    ensures r.Message? ==> r.text == CouldNotRetrieve
    ensures r.Dict? <==> previous.Dict? && status.Success? && SensorKeys <= status.value.Keys
    ensures r.Dict? ==> r.entries.Keys == previous.entries.Keys + SensorKeys
    ensures r.Dict? ==> forall k :: k in SensorKeys ==> r.entries[k] == status.value[k]
    ensures r.Dict? ==> forall k :: k in previous.entries && k !in SensorKeys ==> r.entries[k] == previous.entries[k]
  {
    if status.Failure? || previous.Message? || !(SensorKeys <= status.value.Keys) then Message(CouldNotRetrieve)
    else
      var d := status.value;
      Dict(previous.entries["currentProfile" := d["currentProfile"]]["currentWhite" := d["currentWhite"]]
                           ["currentBlue" := d["currentBlue"]]["currentRed" := d["currentRed"]]
                           ["currentGreen" := d["currentGreen"]])
  }

  /** Once the result is the message it stays the message. */
  lemma UpdatedResultSticky(text: string, status: Result<map<string, Value>, Error>)
    ensures UpdatedResult(Message(text), status) == Message(CouldNotRetrieve)
  {
  }

  /** From the initial empty dictionary, a successful update stores exactly
      the five readings of the status. */
  lemma UpdatedResultFromEmpty(f: SyncFetch)
    requires SensorStatus(f).Success?
    ensures UpdatedResult(Dict(map[]), SensorStatus(f))
         == Dict(map k | k in SensorKeys :: SensorStatus(f).value[k])
  {
    var r := UpdatedResult(Dict(map[]), SensorStatus(f));
    assert r.Dict?;
    assert r.entries.Keys == SensorKeys;
  }

  class JuwelApiData {
    const host: string
    const juwel: Controller
    var result: ApiResult

    constructor(host: string)
      ensures this.host == host && fresh(juwel) && juwel.url == "http://" + host && juwel.posts == []
      ensures result == Dict(map[])
    {
      this.host := host;
      juwel := new Controller("http://" + host);
      result := Dict(map[]);
    }

    /** `update`, throttling aside: fetch the status and copy five readings. */
    method Update(f: SyncFetch)
      modifies this
      ensures result == UpdatedResult(old(result), SensorStatus(f))
    {
      var status := juwel.GetStatus(f);
      if status.Failure? || result.Message? || !(SensorKeys <= status.value.Keys) {
        result := Message(CouldNotRetrieve);
        return;
      }
      var d := status.value;
      var entries := result.entries;
      entries := entries["currentProfile" := d["currentProfile"]];
      entries := entries["currentWhite" := d["currentWhite"]];
      entries := entries["currentBlue" := d["currentBlue"]];
      entries := entries["currentRed" := d["currentRed"]];
      entries := entries["currentGreen" := d["currentGreen"]];
      result := Dict(entries);
    }
  }

  /** What a sensor shows: nothing yet, `STATE_UNKNOWN`, or a reading. */
  datatype SensorState = NoState | UnknownState | Reading(value: Value)

  /** The state `JuwelSensor.update` reads from the result: the reading when
      the result has the measurement, unknown otherwise. On the message, `in`
      is a substring test and a hit would index a string with a string. */
  function StateOf(data: ApiResult, measurement: string): (r: Result<SensorState, Error>)
    ensures data.Dict? && measurement in data.entries ==> r == Success(Reading(data.entries[measurement]))
    ensures data.Dict? && measurement !in data.entries ==> r == Success(UnknownState)
    ensures data.Message? ==> (r.Failure? <==> exists j :: 0 <= j <= |data.text| && OccursAt(measurement, data.text, j))
    ensures r.Failure? ==> r.error == TypeError
  {
    match data
    case Dict(entries) => if measurement in entries then Success(Reading(entries[measurement])) else Success(UnknownState)
    case Message(text) =>
      if Contains(VStr(text), measurement) == Success(true) then Failure(TypeError) else Success(UnknownState)
  }

  /** The name suffix, icon and unit for each of the five measurements. A
      channel sensor is named after the colour in its key: "currentWhite"
      gives " White". */
  function Presentation(measurement: string): (r: Option<(string, string, string)>)
    ensures r.Some? <==> measurement in SensorKeys
    ensures measurement == "currentProfile" ==> r == Some((" Current Profile", "mdi:fishbowl-outline", ""))
    ensures measurement in SensorKeys - {"currentProfile"} ==> r.Some? && r.value.1 == "mdi:brightness-percent" && r.value.2 == "%"
    ensures measurement in SensorKeys - {"currentProfile"} ==> |measurement| > 7 && r.value.0 == " " + measurement[7..]
  {
    if measurement == "currentProfile" then Some((" Current Profile", "mdi:fishbowl-outline", ""))
    else if measurement == "currentWhite" then Some((" White", "mdi:brightness-percent", "%"))
    else if measurement == "currentBlue" then Some((" Blue", "mdi:brightness-percent", "%"))
    else if measurement == "currentRed" then Some((" Red", "mdi:brightness-percent", "%"))
    else if measurement == "currentGreen" then Some((" Green", "mdi:brightness-percent", "%"))
    else None
  }

  /** The stored message contains no lower-case `c`, so none of the five
      measurement names occurs in it and every sensor shows unknown. */
  lemma StateOfMessage(measurement: string)
    requires measurement in SensorKeys
    ensures StateOf(Message(CouldNotRetrieve), measurement) == Success(UnknownState)
  {
    var t := CouldNotRetrieve;
    assert measurement[0] == 'c';
    forall j | 0 <= j < |t| ensures t[j] != 'c' {
    }
    forall j | 0 <= j <= |t| ensures !OccursAt(measurement, t, j) {
      if j + |measurement| <= |t| {
        assert t[j..j + |measurement|][0] != measurement[0];
      }
    }
  }

  class JuwelSensor {
    const host: string
    const tankName: string
    const juwelData: JuwelApiData
    const measurement: string
    var name: string
    var state: SensorState
    var icon: Option<string>
    var unit: Option<string>
    var measurementDate: Option<string>

    constructor(juwelData: JuwelApiData, host: string, tankName: string, measurement: string)
      ensures this.juwelData == juwelData && this.host == host && this.tankName == tankName
      ensures this.measurement == measurement && name == tankName
      ensures state == NoState && icon == None && unit == None && measurementDate == None
    {
      this.host := host;
      this.tankName := tankName;
      this.juwelData := juwelData;
      this.measurement := measurement;
      name := tankName;
      state := NoState;
      icon := None;
      unit := None;
      measurementDate := None;
    }

    /** `update`: refresh the shared data, read this sensor's value (stamped
        with `today`), then set name, icon and unit by measurement. */
    method Update(f: SyncFetch, today: string) returns (raised: Option<Error>)
      modifies this, juwelData
      ensures juwelData.result == UpdatedResult(old(juwelData.result), SensorStatus(f))
      ensures var s := StateOf(juwelData.result, measurement);
        && (s.Failure? ==> raised == Some(s.error) && state == old(state) && name == old(name)
                           && icon == old(icon) && unit == old(unit) && measurementDate == old(measurementDate))
        && (s.Success? ==> raised == None && state == s.value)
        && (s.Success? && s.value.Reading? ==> measurementDate == Some(today))
        && (s.Success? && !s.value.Reading? ==> measurementDate == old(measurementDate))
        && (s.Success? && Presentation(measurement).Some? ==>
              var p := Presentation(measurement).value;
              name == tankName + p.0 && icon == Some(p.1) && unit == Some(p.2))
        && (s.Success? && Presentation(measurement).None? ==>
              name == old(name) && icon == old(icon) && unit == old(unit))
    {
      juwelData.Update(f);
      var s := StateOf(juwelData.result, measurement);
      if s.Failure? {
        return Some(s.error);
      }
      state := s.value;
      if s.value.Reading? {
        measurementDate := Some(today);
      }
      if measurement == "currentProfile" {
        icon := Some("mdi:fishbowl-outline");
        name := tankName + " Current Profile";
        unit := Some("");
      }
      if measurement == "currentWhite" {
        icon := Some("mdi:brightness-percent");
        name := tankName + " White";
        unit := Some("%");
      }
      if measurement == "currentBlue" {
        icon := Some("mdi:brightness-percent");
        name := tankName + " Blue";
        unit := Some("%");
      }
      if measurement == "currentRed" {
        icon := Some("mdi:brightness-percent");
        name := tankName + " Red";
        unit := Some("%");
      }
      if measurement == "currentGreen" {
        icon := Some("mdi:brightness-percent");
        name := tankName + " Green";
        unit := Some("%");
      }
      raised := None;
    }
  }
}
