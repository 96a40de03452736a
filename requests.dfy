/** The form posts the clients send to the controller's `/stat` endpoint,
    as records of the endpoint and the form fields. */
module Requests {
  import opened Wrappers
  import opened Clock
  import opened Brightness

  datatype Field = FInt(n: int) | FStr(s: string)

  /** A post: the endpoint and its form fields, a dictionary in the source. */
  datatype Request = Request(endpoint: string, fields: map<string, Field>)

  function StatEndpoint(url: string): string {
    url + "/stat"
  }

  /** `start_manual_color_simulation(duration)`: action 14, switch on, and the
      duration written as a clock string. */
  function StartRequest(url: string, duration: nat): (r: Request)
    ensures r.endpoint == StatEndpoint(url)
    ensures r.fields.Keys == {"action", "cswi", "ctime"}
    ensures r.fields["action"] == FInt(14) && r.fields["cswi"] == FStr("true")
    ensures r.fields["ctime"] == FStr(FormatMinutes(duration))
  {
    Request(StatEndpoint(url), map["action" := FInt(14), "cswi" := FStr("true"), "ctime" := FStr(FormatMinutes(duration))])
  }

  /** With the default duration of 60 minutes the simulation runs for "01:00". */
  lemma StartRequestDefault(url: string)
    ensures StartRequest(url, 60).fields["ctime"] == FStr("01:00")
  {
    FormatMinutesExamples();
  }

  /** The first post of the stop sequence: action 14, switch off. */
  function StopSwitchRequest(url: string): (r: Request)
    ensures r.endpoint == StatEndpoint(url)
    ensures r.fields.Keys == {"action", "cswi"}
    ensures r.fields["action"] == FInt(14) && r.fields["cswi"] == FStr("false")
  {
    Request(StatEndpoint(url), map["action" := FInt(14), "cswi" := FStr("false")])
  }

  /** The second post of the stop sequence: action 10 and nothing else. */
  function ResetRequest(url: string): (r: Request)
    ensures r.endpoint == StatEndpoint(url)
    ensures r.fields.Keys == {"action"} && r.fields["action"] == FInt(10)
  {
    Request(StatEndpoint(url), map["action" := FInt(10)])
  }

  /** The posts `stop_manual_color_simulation` attempts in the async copies:
      both in order, or only the first when posting it raised, since both
      posts share one `try`. */
  function StopRequests(url: string, firstRaised: bool): (r: seq<Request>)
    ensures 1 <= |r| <= 2 && r[0] == StopSwitchRequest(url)
    ensures |r| == 2 <==> !firstRaised
    ensures !firstRaised ==> r[1] == ResetRequest(url)
  {
    if firstRaised then [StopSwitchRequest(url)] else [StopSwitchRequest(url), ResetRequest(url)]
  }

  /** The stop sequence switches the simulation off before it resets the
      colour, and the reset carries no channel. */
  lemma StopSwitchesOffFirst(url: string)
    ensures var r := StopRequests(url, false);
      r[0].fields["action"] == FInt(14) && r[0].fields["cswi"] == FStr("false")
      && r[1].fields == map["action" := FInt(10)]
      && forall key :: IsChannel(key) ==> key !in r[0].fields && key !in r[1].fields
  {
  }

  /** The live client's colour post: action 10 and all four channels, each
      rescaled from 0-255 to 0-100. */
  function ScaledColorRequest(url: string, white: int, blue: int, green: int, red: int): (r: Request)
    ensures r.endpoint == StatEndpoint(url)
    ensures r.fields.Keys == {"action", "ch1", "ch2", "ch3", "ch4"}
    ensures r.fields["action"] == FInt(10)
    ensures r.fields["ch1"] == FInt(ScaleBrightness(white)) && r.fields["ch2"] == FInt(ScaleBrightness(blue))
    ensures r.fields["ch3"] == FInt(ScaleBrightness(green)) && r.fields["ch4"] == FInt(ScaleBrightness(red))
  {
    Request(StatEndpoint(url), map["action" := FInt(10), "ch1" := FInt(ScaleBrightness(white)), "ch2" := FInt(ScaleBrightness(blue)),
                                   "ch3" := FInt(ScaleBrightness(green)), "ch4" := FInt(ScaleBrightness(red))])
  }

  /** Every channel of the live colour post is a percentage. */
  lemma ScaledColorInRange(url: string, white: int, blue: int, green: int, red: int)
    ensures forall key :: IsChannel(key) ==> var f := ScaledColorRequest(url, white, blue, green, red).fields[key];
      f.FInt? && 0 <= f.n <= 100
  {
  }

  /** Is `key` one of the four channel names? */
  predicate IsChannel(key: string) {
    key == "ch1" || key == "ch2" || key == "ch3" || key == "ch4"
  }

  /** `key` is present exactly when the argument is, with the clamped value. */
  predicate ClampedChannel(fields: map<string, Field>, key: string, arg: Option<int>) {
    (key in fields <==> arg.Some?) && (arg.Some? ==> fields[key] == FInt(ClampBrightness(arg.value)))
  }

  /** `set_manual_color` of the two older copies: start from action 10 and
      insert each channel whose argument is not None, clamped to 0-100. */
  method OptionalColorFields(white: Option<int>, blue: Option<int>, green: Option<int>, red: Option<int>)
    returns (params: map<string, Field>)
    ensures "action" in params && params["action"] == FInt(10)
    ensures ClampedChannel(params, "ch1", white) && ClampedChannel(params, "ch2", blue)
    ensures ClampedChannel(params, "ch3", green) && ClampedChannel(params, "ch4", red)
    ensures forall key :: key in params ==> key == "action" || IsChannel(key)
  {
    params := map["action" := FInt(10)];
    if white.Some? {
      params := params["ch1" := FInt(ClampBrightness(white.value))];
    }
    if blue.Some? {
      params := params["ch2" := FInt(ClampBrightness(blue.value))];
    }
    if green.Some? {
      params := params["ch3" := FInt(ClampBrightness(green.value))];
    }
    if red.Some? {
      params := params["ch4" := FInt(ClampBrightness(red.value))];
    }
  }
}
