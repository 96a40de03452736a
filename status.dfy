/** `get_status` and `get_profiles` after parsing: the parsed variables become
    the status dictionary and the two profile lists. The three copies of the
    client build the same status dictionary, except that only the live copy
    has a default for a missing `profile`. */
module Status {
  import opened Wrappers
  import opened PyValues
  import opened Clock

  /** The keys of the status dictionary. */
  const StatusKeys: set<string> := {"currentProfile", "currentWhite", "currentBlue", "currentGreen", "currentRed",
                                    "manualColorSimulationEnabled", "manualDaytimeSimulationEnabled", "deviceTime"}

  /** The fetched text is used only when it is truthy: present and non-empty. */
  predicate HasText(fetched: Option<string>) {
    fetched.Some? && fetched.value != ""
  }

  /** Python's `v == 1`: the integer 1, or True, which equals 1. */
  predicate IsOne(v: Value) {
    v == VInt(1) || v == VBool(true)
  }

  /** `nr_mins_to_formatted(v)` on a dictionary value: a number is formatted
      (a boolean counts as 0 or 1), a string or list raises a TypeError at `v / 60`. */
  function FormatValue(v: Value): (r: Result<Value, Error>)
    ensures v.VInt? ==> r == Success(VStr(FormatMinutes(v.n)))
    ensures (v.VStr? || v.VList?) ==> r == Failure(TypeError)
  {
    match v
    case VInt(n) => Success(VStr(FormatMinutes(n)))
    case VBool(b) => Success(VStr(FormatMinutes(if b then 1 else 0)))
    case _ => Failure(TypeError)
  }

  /** `statusvars.get("profile", default)` when there is a default,
      `statusvars["profile"]` when there is none. */
  function ProfileOf(vars: map<string, Value>, profileDefault: Option<Value>): (r: Result<Value, Error>)
    ensures r.Success? <==> "profile" in vars || profileDefault.Some?
    ensures r.Success? ==> r.value == if "profile" in vars then vars["profile"] else profileDefault.value
    ensures r.Failure? ==> r.error == KeyError("profile")
  {
    if profileDefault.Some? then Success(Get(vars, "profile", profileDefault.value)) else Lookup(vars, "profile")
  }

  /** `statusvars["brightness"][k]`. */
  function BrightnessItem(vars: map<string, Value>, k: nat): (r: Result<Value, Error>)
    ensures "brightness" !in vars ==> r == Failure(KeyError("brightness"))
    ensures "brightness" in vars && vars["brightness"].VList? ==>
      (r.Success? <==> k < |vars["brightness"].items|) && (r.Success? ==> r.value == vars["brightness"].items[k])
    ensures "brightness" in vars && vars["brightness"].VStr? ==> (r.Success? <==> k < |vars["brightness"].s|)
  {
    var b :- Lookup(vars, "brightness");
    GetItem(b, k)
  }

  /** `statusvars[key] == 1`. */
  function Flag(vars: map<string, Value>, key: string): (r: Result<Value, Error>)
    ensures r.Success? <==> key in vars
    ensures r.Success? ==> r.value == VBool(IsOne(vars[key]))
    ensures r.Failure? ==> r.error == KeyError(key)
  {
    var v :- Lookup(vars, key);
    Success(VBool(IsOne(v)))
  }

  /** `nr_mins_to_formatted(statusvars["tsimtime"])`. */
  function DeviceTime(vars: map<string, Value>): (r: Result<Value, Error>)
    ensures r.Success? <==> "tsimtime" in vars && !vars["tsimtime"].VStr? && !vars["tsimtime"].VList?
    ensures "tsimtime" in vars && vars["tsimtime"].VInt? ==> r == Success(VStr(FormatMinutes(vars["tsimtime"].n)))
    ensures "tsimtime" !in vars ==> r == Failure(KeyError("tsimtime"))
  {
    var v :- Lookup(vars, "tsimtime");
    FormatValue(v)
  }

  /** A value that can be indexed at 0 to 3. */
  predicate HasFourItems(v: Value) {
    (v.VList? && 4 <= |v.items|) || (v.VStr? && 4 <= |v.s|)
  }

  /** The dictionary literal of `get_status`, evaluated entry by entry in
      source order; the first entry that raises decides the error. */
  function StatusDict(vars: map<string, Value>, profileDefault: Option<Value>): (r: Result<map<string, Value>, Error>)
    ensures r.Success? <==>
      && ("profile" in vars || profileDefault.Some?)
      && "brightness" in vars && HasFourItems(vars["brightness"])
      && "csimact" in vars && "tsimact" in vars
      && "tsimtime" in vars && !vars["tsimtime"].VStr? && !vars["tsimtime"].VList?
    ensures profileDefault.None? && "profile" !in vars ==> r == Failure(KeyError("profile"))
    ensures ("profile" in vars || profileDefault.Some?) && "brightness" !in vars ==> r == Failure(KeyError("brightness"))
    ensures r.Success? ==> r.value.Keys == StatusKeys
    ensures r.Success? ==> r.value["currentProfile"] == (if "profile" in vars then vars["profile"] else profileDefault.value)
    ensures r.Success? && vars["brightness"].VList? ==>
      var b := vars["brightness"].items;
      && r.value["currentWhite"] == b[0] && r.value["currentBlue"] == b[1]
      && r.value["currentGreen"] == b[2] && r.value["currentRed"] == b[3]
    ensures r.Success? ==> r.value["manualColorSimulationEnabled"] == VBool(IsOne(vars["csimact"]))
    ensures r.Success? ==> r.value["manualDaytimeSimulationEnabled"] == VBool(IsOne(vars["tsimact"]))
    ensures r.Success? && vars["tsimtime"].VInt? ==> r.value["deviceTime"] == VStr(FormatMinutes(vars["tsimtime"].n))
  {
    var profile :- ProfileOf(vars, profileDefault);
    var white :- BrightnessItem(vars, 0);
    var blue :- BrightnessItem(vars, 1);
    var green :- BrightnessItem(vars, 2);
    var red :- BrightnessItem(vars, 3);
    var color :- Flag(vars, "csimact");
    var daytime :- Flag(vars, "tsimact");
    var time :- DeviceTime(vars);
    Success(map["currentProfile" := profile, "currentWhite" := white, "currentBlue" := blue,
                "currentGreen" := green, "currentRed" := red,
                "manualColorSimulationEnabled" := color, "manualDaytimeSimulationEnabled" := daytime,
                "deviceTime" := time])
  }

  /** The dictionary of `get_profiles`: the two lists, each defaulting to []. */
  function ProfilesDict(wpvars: map<string, Value>): (r: map<string, Value>)
    ensures r.Keys == {"profile_names", "profile_selection"}
    ensures r["profile_names"] == if "profnames" in wpvars then wpvars["profnames"] else VList([])
    ensures r["profile_selection"] == if "profsel" in wpvars then wpvars["profsel"] else VList([])
  {
    map["profile_names" := Get(wpvars, "profnames", VList([])), "profile_selection" := Get(wpvars, "profsel", VList([]))]
  }
}
