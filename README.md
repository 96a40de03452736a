# Juwel HeliaLux client, modelled in Dafny

This project models the HeliaLux device client of the Juwel HeliaLux Home
Assistant component, together with the deterministic data handling around it.
It proves properties of that model.

- **Controller client.** The controller serves `statusvars.js` and `wpvars.js`, texts of
  `name=value;` statements.
  - `parse_status_vars` scans them with the regular expression `STATUS_VARS_REGEX`.
    It turns every match into an integer, a string, an integer list or a string list.
  - `get_status` and `get_profiles` build dictionaries from the parsed variables.
  - Commands are form posts to the controller's `/stat` endpoint.
- **Three copies of the client.** Each has its own module:
  - the live async client (`LiveClient`);
  - the older async copy (`LegacyClient`);
  - the synchronous copy inside the sensor platform (`SensorClient`).

  They share:
  - the scanner and parser (`StatusVars`);
  - the clock formatter (`Clock`);
  - the brightness helpers (`Brightness`);
  - the status dictionary (`Status`);
  - the request records (`Requests`);
  - the three-state session (`Session`).
- **Coordinator** (`Coordinator`). It merges status and profiles into a ten-key
  snapshot and keeps the device information.
- **Profile select** (`ProfileSelect`). It checks a chosen display name, sends the
  protocol name at the same index, and records the choice only on success.

Network traffic is an input everywhere.
- A fetched text is an `Option<string>` (None when the request failed) for the async copies.
- It is a `SyncFetch` outcome for the synchronous copy.
- The undefined `device_info()` and `set_profile` calls enter as their results.

Form posts are appended to a `posts` log in each controller. Python exceptions
are `Result` failures carrying the exception kind.

The scanner `StatusVars.MatchAt` reads the one match the regular expression has
at a position. The grammar cannot backtrack usefully: every greedy repetition is
followed by a character it cannot consume. `StatusVars.Matches` is `finditer`:
- leftmost first;
- one position further after a failed attempt;
- resuming after a match.

`StatusVars.ParseStatusVars` is the scanning loop, proved equal to the
functional `StatusVars.Parse`. The main theorem, `StatusScript.RoundTrip`, is about a
script of well-formed statements:
- it is built by writing `name=value;` statements one after another;
- such a script parses back to the map that assigns the statements in order.

`StatusScript.RoundTripDistinct` specialises this to distinct names: the
result is then exactly the map from each name to its value.

Three facts about the code that the model keeps as written:
- `get_profiles` returns the raw `profnames` and `profsel` lists.
- The two simulation flags of the status are the booleans `csimact == 1` and `tsimact == 1`.
- The four channels of the status are copied from `brightness` without clamping.

## Model

| member | source | states |
|---|---|---|
| PyValues.Lookup | custom_components/juwel_helialux/pyhelialux/pyHelialux.py:104 | `d[key]` succeeds exactly when the key is present, with its value, and raises KeyError for that key otherwise |
| PyValues.Get | custom_components/juwel_helialux/pyhelialux/pyHelialux.py:103 | `d.get(key, default)` is the stored value when present and the default otherwise |
| PyValues.GetItem | custom_components/juwel_helialux/pyhelialux/pyHelialux.py:104-107 | indexing a list gives its element, a string a one-character string, out of range raises IndexError, a number or boolean raises TypeError |
| PyValues.FindFrom | custom_components/juwel_helialux/sensor.py:127 | the position found is an occurrence of the substring, the first one from the start position; None means there is no occurrence at all |
| PyValues.FirstIndex | custom_components/juwel_helialux/select.py:55 | the index found holds the element and no earlier index does; None exactly when the element is absent |
| PyValues.Contains | custom_components/juwel_helialux/select.py:46 | `x in container` is list membership, substring occurrence for a string, and TypeError for numbers and booleans |
| PyValues.IndexOf | custom_components/juwel_helialux/select.py:55 | `.index(x)` on a list is the first position of `x`, and fails with ValueError exactly when `x` is absent; on a string it is the first occurrence |
| PyValues.ContainsThenIndexOf | custom_components/juwel_helialux/select.py:46-59 | whenever `x in container` holds, `container.index(x)` succeeds |
| Decimal.DecimalDigits | custom_components/juwel_helialux/pyhelialux/pyHelialux.py:47 | `"%d" % n` is a non-empty digit string, of one digit exactly below 10 and two below 100 |
| Decimal.ParseDecimal | custom_components/juwel_helialux/pyhelialux/pyHelialux.py:18 | `int` of one digit is its value and of two digits `10 * tens + units`; `ParseDecimalOfDigits` and `ParseDecimalLeadingZero` tie it to printing |
| Decimal.ParseDecimalOfDigits | custom_components/juwel_helialux/pyhelialux/pyHelialux.py:18 | `int` of the printed numeral of `n` is `n` |
| Decimal.ParseDecimalLeadingZero | custom_components/juwel_helialux/pyhelialux/pyHelialux.py:47 | a leading `0` added by zero-padding does not change the value read back |
| Clock.Pad2 | custom_components/juwel_helialux/pyhelialux/pyHelialux.py:47 | `"%02d" % n` has at least two digits, exactly two below 100 |
| Clock.FormatMinutes | custom_components/juwel_helialux/pyhelialux/pyHelialux.py:43-47 | the clock string has at least five characters with the colon third from the end |
| Clock.ParsePad2 | custom_components/juwel_helialux/pyhelialux/pyHelialux.py:47 | a zero-padded number reads back as the number |
| Clock.FormatMinutesParts | custom_components/juwel_helialux/pyHelialux.py:41-45 | the hour part reads back as `d / 60`, the two minute digits as `d % 60 < 60`, and hours * 60 + minutes == d |
| Clock.FormatMinutesRoundTrip | custom_components/juwel_helialux/pyhelialux/pyHelialux.py:43-47 | reading the clock string back gives the duration: formatting loses nothing |
| Clock.FormatMinutesFixedWidth | custom_components/juwel_helialux/pyhelialux/pyHelialux.py:43-47 | below 6000 minutes the string is exactly `HH:MM`, five characters |
| Clock.Pad2Chars | custom_components/juwel_helialux/pyhelialux/pyHelialux.py:47 | below 100, `"%02d"` is the tens digit followed by the units digit |
| Clock.FormatMinutesChars | custom_components/juwel_helialux/pyhelialux/pyHelialux.py:43-47 | below 6000 minutes the string is, character by character, the digits of the hours, a colon and the digits of the minutes |
| Clock.FormatMinutesExamples | custom_components/juwel_helialux/pyhelialux/pyHelialux.py:43-47 | 0, 59, 60 and 90 minutes format as "00:00", "00:59", "01:00" and "01:30" |
| Clock.FormatMinutesLateExamples | custom_components/juwel_helialux/sensor.py:204-208 | 860, 1439 and 1440 minutes format as "14:20", "23:59" and "24:00" |
| Brightness.ScaleBrightness | custom_components/juwel_helialux/pyhelialux/pyHelialux.py:32-39 | the live rescaling is in [0,100], 0 below 0, 100 above 255, and in between the floor of v * 100 / 255 |
| Brightness.ScaleBrightnessEnds | custom_components/juwel_helialux/pyhelialux/pyHelialux.py:32-39 | 0 stays 0 and 255 becomes 100 |
| Brightness.ScaleBrightnessMonotone | custom_components/juwel_helialux/pyhelialux/pyHelialux.py:32-39 | the rescaling never decreases as the input grows |
| Brightness.ClampBrightness | custom_components/juwel_helialux/pyHelialux.py:32-38 | the clamp is in [0,100], the identity on [0,100], 0 below and 100 above |
| Brightness.ClampBrightnessIdempotent | custom_components/juwel_helialux/sensor.py:196-202 | clamping twice is clamping once |
| Brightness.ClampBrightnessMonotone | custom_components/juwel_helialux/sensor.py:196-202 | clamping preserves order |
| Session.Acquire | custom_components/juwel_helialux/pyhelialux/pyHelialux.py:57-61 | `_get_session` always leaves an open session and hands it out; an open session is reused, otherwise a new one is created |
| Session.CloseSession | custom_components/juwel_helialux/pyhelialux/pyHelialux.py:187-190 | `close` closes an open session and leaves no session or a closed one as it is |
| Session.Created | custom_components/juwel_helialux/pyhelialux/pyHelialux.py:59-60 | `_get_session` creates one session exactly when there is no open one |
| Session.AcquireReuses | custom_components/juwel_helialux/pyHelialux.py:55-59 | asking twice hands out the same session and creates nothing the second time |
| Session.CloseIdempotent | custom_components/juwel_helialux/pyHelialux.py:140-143 | closing twice is closing once |
| Session.AcquireAfterClose | custom_components/juwel_helialux/pyhelialux/pyHelialux.py:57-61 | after a close the next request gets a new session, never the closed one |
| Requests.StartRequest | custom_components/juwel_helialux/pyHelialux.py:94-98 | the start post goes to `/stat` with exactly action 14, cswi "true" and ctime the formatted duration |
| Requests.StartRequestDefault | custom_components/juwel_helialux/pyhelialux/pyHelialux.py:158-163 | with the default duration of 60 the ctime is "01:00" |
| Requests.StopSwitchRequest | custom_components/juwel_helialux/pyhelialux/pyHelialux.py:178 | the first stop post carries exactly action 14 and cswi "false" |
| Requests.ResetRequest | custom_components/juwel_helialux/pyhelialux/pyHelialux.py:181 | the second stop post carries only action 10 |
| Requests.StopRequests | custom_components/juwel_helialux/pyhelialux/pyHelialux.py:173-185 | the stop sequence is the switch-off post, followed by the reset post exactly when the first post did not raise |
| Requests.StopSwitchesOffFirst | custom_components/juwel_helialux/pyHelialux.py:126-136 | the stop sequence switches off before it resets, and neither post carries a channel |
| Requests.ScaledColorRequest | custom_components/juwel_helialux/pyhelialux/pyHelialux.py:139-145 | the live colour post carries action 10 and all four channels, each the rescaled argument |
| Requests.ScaledColorInRange | custom_components/juwel_helialux/pyhelialux/pyHelialux.py:139-145 | every channel of the live colour post is in [0,100] |
| Requests.OptionalColorFields | custom_components/juwel_helialux/pyHelialux.py:110-118 | the parameters hold action 10, hold `chN` exactly when its argument is not None, with the clamped value, and nothing else |
| StatusVars.SpanFrom | custom_components/juwel_helialux/pyhelialux/pyHelialux.py:9 | a greedy character-class run stops at the end of the text or at a character outside the class |
| StatusVars.SpanFromAll | custom_components/juwel_helialux/pyhelialux/pyHelialux.py:9 | every character of the run is in the class |
| StatusVars.SpanFromStops | custom_components/juwel_helialux/pyhelialux/pyHelialux.py:9 | a run of class characters bounded by a non-class character is exactly what the greedy run finds |
| StatusVars.StringItemsEnd | custom_components/juwel_helialux/pyhelialux/pyHelialux.py:9 | the repetition `("[^"]+",?)+` ends within the text, at or after where it starts |
| StatusVars.MatchNumber | custom_components/juwel_helialux/pyhelialux/pyHelialux.py:9 | a number alternative ends in the text after its `;` |
| StatusVars.MatchQuoted | custom_components/juwel_helialux/pyhelialux/pyHelialux.py:9 | a string alternative ends in the text after its `;` |
| StatusVars.MatchDigitList | custom_components/juwel_helialux/pyhelialux/pyHelialux.py:9 | a digit-list alternative ends in the text after its `;` |
| StatusVars.MatchStringList | custom_components/juwel_helialux/pyhelialux/pyHelialux.py:9 | a string-list alternative ends in the text after its `;` |
| StatusVars.MatchValue | custom_components/juwel_helialux/pyhelialux/pyHelialux.py:9 | the value part, whichever alternative applies, ends after its `;` |
| StatusVars.MatchAt | custom_components/juwel_helialux/pyhelialux/pyHelialux.py:8-10 | a match ends after a `;` at least four characters on, its name is the non-empty text at the start, and no match starts at a non-alphanumeric character |
| StatusVars.Matches | custom_components/juwel_helialux/pyhelialux/pyHelialux.py:16 | `finditer` finds at most one match per four characters, each with a non-empty name; `MatchesAfterFailure`, `MatchesAfterMatch`, `MatchesSkip` and `ScriptMatches` state its steps |
| StatusVars.Split | custom_components/juwel_helialux/pyhelialux/pyHelialux.py:22 | `split(",")` gives at least one piece and no piece contains a comma |
| StatusVars.StripEnds | custom_components/juwel_helialux/pyhelialux/pyHelialux.py:24 | `x[1:-1]` drops the first and last characters, and is empty for fewer than two |
| StatusVars.ParseInt | custom_components/juwel_helialux/pyhelialux/pyHelialux.py:18 | `int(x)` succeeds exactly on non-empty digit strings, with their decimal value, and raises ValueError otherwise |
| StatusVars.ParseInts | custom_components/juwel_helialux/pyhelialux/pyHelialux.py:22 | the list comprehension succeeds exactly when every piece is a numeral, keeping order and length |
| StatusVars.Convert | custom_components/juwel_helialux/pyhelialux/pyHelialux.py:17-24 | a number converts exactly when it is a non-empty numeral, a digit list exactly when every piece is one, a string or string list always; a number gives an int and a string a str |
| StatusVars.Collect | custom_components/juwel_helialux/pyhelialux/pyHelialux.py:15-28 | a successful fold keeps the accumulated keys and holds every matched name; `CollectKeys`, `CollectLastWins`, `CollectUntouched` and `CollectFailsOnBadMatch` state the rest |
| StatusVars.Parse | custom_components/juwel_helialux/pyhelialux/pyHelialux.py:13-29 | the empty text parses to {} and every matched name is a key of the result; `StatusScript.RoundTrip` states what a script parses to |
| StatusVars.ParseStatusVars | custom_components/juwel_helialux/pyhelialux/pyHelialux.py:13-29 | the scanning loop computes `Parse`, the fold of the typed matches over `finditer` |
| StatusVars.MatchesAfterFailure | custom_components/juwel_helialux/pyhelialux/pyHelialux.py:16 | after a failed attempt the search resumes one position further |
| StatusVars.MatchesAfterMatch | custom_components/juwel_helialux/pyhelialux/pyHelialux.py:16 | after a match the search resumes at its end |
| StatusVars.MatchesSkip | custom_components/juwel_helialux/pyhelialux/pyHelialux.py:16 | positions where no match starts are skipped |
| StatusVars.NoMatchNoKeys | custom_components/juwel_helialux/pyhelialux/pyHelialux.py:9-16 | a text in which the grammar matches nowhere parses to the empty map |
| StatusVars.NonAlnumSkipped | custom_components/juwel_helialux/pyhelialux/pyHelialux.py:9-16 | fragments without letters or digits between matches contribute nothing |
| StatusVars.CollectConvertsAll | custom_components/juwel_helialux/pyhelialux/pyHelialux.py:17-28 | a successful parse typed every match |
| StatusVars.CollectKeys | custom_components/juwel_helialux/pyhelialux/pyHelialux.py:28 | the parsed keys are exactly the matched names, both directions |
| StatusVars.CollectLastWins | custom_components/juwel_helialux/pyhelialux/pyHelialux.py:28 | a name ends up with the value of its last match |
| StatusVars.CollectUntouched | custom_components/juwel_helialux/pyhelialux/pyHelialux.py:28 | a name no match carries keeps its value |
| StatusVars.CollectFailsOnBadMatch | custom_components/juwel_helialux/pyHelialux.py:13-29 | the parse raises exactly when some match does not convert, and then raises ValueError |
| StatusVars.ConvertFailureIsValueError | custom_components/juwel_helialux/sensor.py:181-190 | typing a lexeme can only raise ValueError |
| StatusVars.ParseIntsFailure | custom_components/juwel_helialux/sensor.py:186 | the digit-list comprehension can only raise ValueError |
| StatusScript.SplitJoin | custom_components/juwel_helialux/pyhelialux/pyHelialux.py:22-24 | splitting a comma-join of comma-free pieces gives the pieces back |
| StatusScript.MatchNumberOf | custom_components/juwel_helialux/pyhelialux/pyHelialux.py:9 | a printed number followed by `;` is read as that numeral, ending after the `;` |
| StatusScript.MatchQuotedOf | custom_components/juwel_helialux/pyhelialux/pyHelialux.py:9 | a quoted non-empty string without `'` is read with its body, ending after the `;` |
| StatusScript.MatchDigitListOf | custom_components/juwel_helialux/pyhelialux/pyHelialux.py:9 | a printed non-empty digit list is read as that list's content, ending after the `;` |
| StatusScript.StringItemsEndOf | custom_components/juwel_helialux/pyhelialux/pyHelialux.py:9 | the greedy string-item repetition stops exactly at the end of a printed string list |
| StatusScript.MatchStringListOf | custom_components/juwel_helialux/pyhelialux/pyHelialux.py:9 | a printed non-empty string list is read as that list's content, ending after the `;` |
| StatusScript.MatchValueOf | custom_components/juwel_helialux/pyhelialux/pyHelialux.py:9 | each well-formed value is read in the form it was written, ending after its `;` |
| StatusScript.MatchStatement | custom_components/juwel_helialux/pyhelialux/pyHelialux.py:8-10 | a well-formed `name=value;` statement is one match, of its name and value, ending where the statement ends |
| StatusScript.ScriptMatches | custom_components/juwel_helialux/pyhelialux/pyHelialux.py:16 | `finditer` over a script reads its statements one after another and nothing else |
| StatusScript.ConvertLexemeOf | custom_components/juwel_helialux/pyhelialux/pyHelialux.py:17-24 | each value read from a well-formed literal types back to that literal's value: digits to the int, a string without quotes, int lists and quote-stripped string lists in order |
| StatusScript.CollectMatchesOf | custom_components/juwel_helialux/pyhelialux/pyHelialux.py:15-28 | folding the matches of well-formed statements assigns them in order |
| StatusScript.RoundTrip | custom_components/juwel_helialux/pyhelialux/pyHelialux.py:13-29 | a script of well-formed statements parses to the map that assigns them in order |
| StatusScript.AssignDistinct | custom_components/juwel_helialux/pyhelialux/pyHelialux.py:28 | with distinct names, assignment maps each name to its value, adds no other key and keeps untouched keys |
| StatusScript.AssignUntouched | custom_components/juwel_helialux/pyhelialux/pyHelialux.py:28 | a key no statement assigns keeps its value |
| StatusScript.AssignLast | custom_components/juwel_helialux/pyhelialux/pyHelialux.py:28 | a name gets the value of the last statement that assigns it |
| StatusScript.ParsedLast | custom_components/juwel_helialux/pyHelialux.py:13-29 | parsing a script gives each name the value of its last statement |
| StatusScript.RoundTripDistinct | custom_components/juwel_helialux/pyhelialux/pyHelialux.py:13-29 | with distinct well-formed statements, parsing gives back exactly the map from names to values |
| Status.FormatValue | custom_components/juwel_helialux/pyhelialux/pyHelialux.py:110 | a number is formatted as a clock string, a string or list raises TypeError |
| Status.ProfileOf | custom_components/juwel_helialux/pyhelialux/pyHelialux.py:103 | the profile with the live default, or `statusvars["profile"]` with none; KeyError("profile") exactly when it is missing and there is no default |
| Status.BrightnessItem | custom_components/juwel_helialux/pyhelialux/pyHelialux.py:104-107 | `statusvars["brightness"][k]`: KeyError when `brightness` is missing, the k-th element of a list exactly when it is in range |
| Status.Flag | custom_components/juwel_helialux/pyhelialux/pyHelialux.py:108-109 | `statusvars[key] == 1` succeeds exactly when the key is present, giving True for 1 or True, and raises KeyError for the key otherwise |
| Status.DeviceTime | custom_components/juwel_helialux/pyhelialux/pyHelialux.py:110 | the formatted `tsimtime`; it succeeds exactly when `tsimtime` is present and neither a string nor a list |
| Status.StatusDict | custom_components/juwel_helialux/pyhelialux/pyHelialux.py:102-111 | it succeeds exactly when profile (or its default), four brightness items, csimact, tsimact and a tsimtime that is neither a string nor a list exist. It then has the eight status keys, the profile, the channels in order white, blue, green, red, the two `== 1` flags and the formatted time. It fails first on a missing profile, then on a missing brightness |
| Status.ProfilesDict | custom_components/juwel_helialux/pyhelialux/pyHelialux.py:124-127 | exactly the two keys, each the parsed list or [] when absent |
| LiveClient.LiveStatus | custom_components/juwel_helialux/pyhelialux/pyHelialux.py:93-113 | None exactly when the text is empty or failed; a status has the eight keys |
| LiveClient.LiveProfiles | custom_components/juwel_helialux/pyhelialux/pyHelialux.py:115-129 | None exactly when the text is empty or failed; a result has the two profile keys |
| LiveClient.LiveStatusOfText | custom_components/juwel_helialux/pyhelialux/pyHelialux.py:103 | the current profile is the parsed `profile`, or "offline" when absent |
| LiveClient.LiveStatusNeedsBrightness | custom_components/juwel_helialux/pyhelialux/pyHelialux.py:104 | a text without `brightness` makes `get_status` raise KeyError |
| LiveClient.LiveProfilesDefaults | custom_components/juwel_helialux/pyhelialux/pyHelialux.py:125-126 | absent profile lists default to [] |
| LiveClient.Controller.constructor | custom_components/juwel_helialux/pyhelialux/pyHelialux.py:53-55 | a new controller has no session and an empty post log |
| LiveClient.Controller.GetSession | custom_components/juwel_helialux/pyhelialux/pyHelialux.py:57-61 | the session state moves as `Acquire` says and the creation count grows by one exactly when a session is created |
| LiveClient.Controller.GetStatus | custom_components/juwel_helialux/pyhelialux/pyHelialux.py:93-113 | returns `LiveStatus` of the fetched text, after taking the session |
| LiveClient.Controller.GetProfiles | custom_components/juwel_helialux/pyhelialux/pyHelialux.py:115-129 | returns `LiveProfiles` of the fetched text, after taking the session |
| LiveClient.Controller.StartManualColorSimulation | custom_components/juwel_helialux/pyhelialux/pyHelialux.py:158-170 | appends exactly the start post |
| LiveClient.Controller.SetManualColor | custom_components/juwel_helialux/pyhelialux/pyHelialux.py:131-156 | appends the 60-minute start post and then the rescaled colour post |
| LiveClient.Controller.StopManualColorSimulation | custom_components/juwel_helialux/pyhelialux/pyHelialux.py:173-185 | appends the stop sequence, cut after the first post when that post raised |
| LiveClient.Controller.Close | custom_components/juwel_helialux/pyhelialux/pyHelialux.py:187-190 | the session becomes `CloseSession` of the old one; nothing else changes |
| LegacyClient.LegacyStatus | custom_components/juwel_helialux/pyHelialux.py:76-92 | None exactly when the text is empty or failed; a status has the eight keys |
| LegacyClient.LegacyStatusNeedsProfile | custom_components/juwel_helialux/pyHelialux.py:82 | without `profile`, `get_status` raises KeyError |
| LegacyClient.LegacyStatusProfile | custom_components/juwel_helialux/pyHelialux.py:82 | a successful status reports the parsed `profile` |
| LegacyClient.Controller.constructor | custom_components/juwel_helialux/pyHelialux.py:51-53 | a new controller has no session and an empty post log |
| LegacyClient.Controller.GetSession | custom_components/juwel_helialux/pyHelialux.py:55-59 | the session state moves as `Acquire` says |
| LegacyClient.Controller.GetStatus | custom_components/juwel_helialux/pyHelialux.py:76-92 | returns `LegacyStatus` of the fetched text |
| LegacyClient.Controller.StartManualColorSimulation | custom_components/juwel_helialux/pyHelialux.py:94-104 | appends exactly the start post |
| LegacyClient.Controller.SetManualColor | custom_components/juwel_helialux/pyHelialux.py:106-124 | appends one post: action 10 and each given channel clamped, no other field |
| LegacyClient.Controller.StopManualColorSimulation | custom_components/juwel_helialux/pyHelialux.py:126-138 | appends the stop sequence, cut after the first post when that post raised |
| LegacyClient.Controller.Close | custom_components/juwel_helialux/pyHelialux.py:140-143 | the session becomes `CloseSession` of the old one |
| SensorClient.SensorStatusVars | custom_components/juwel_helialux/sensor.py:216-230 | an uncaught request error raises; only a body or such an error can fail; on a connection error, timeout or HTTP error the variables are those of the offline text, with profile "Offline" |
| SensorClient.OfflineStmts | custom_components/juwel_helialux/sensor.py:217 | the thirteen statements of the offline text in its order; `OfflineText` is their rendering. `OfflineStmtsWellFormed`, `OfflineStmtsShape` and `OfflineVars` state their properties |
| SensorClient.SensorStatus | custom_components/juwel_helialux/sensor.py:233-245 | a status of the synchronous copy has the eight keys |
| SensorClient.OfflineStmtsWellFormed | custom_components/juwel_helialux/sensor.py:217 | every statement of the offline text is well formed |
| SensorClient.OfflineStmtsShape | custom_components/juwel_helialux/sensor.py:217 | the offline text assigns profile, tsimtime, tsimact, csimact and brightness once each |
| SensorClient.ScriptLastValues | custom_components/juwel_helialux/sensor.py:177-194 | a script whose later statements have distinct names parses each of them to its value |
| SensorClient.ScriptStatusVars | custom_components/juwel_helialux/sensor.py:177-194 | a script shaped like the offline text parses to the offline values |
| SensorClient.DarkValue | custom_components/juwel_helialux/sensor.py:217 | `[0,0,0,0]` is the list of four zeros |
| SensorClient.OfflineVars | custom_components/juwel_helialux/sensor.py:216-227 | the offline text parses to profile "Offline", tsimtime 860, both flags 0 and four dark channels |
| SensorClient.OfflineFallback | custom_components/juwel_helialux/sensor.py:216-245 | on a connection error, a timeout or an HTTP error, `get_status` is the Offline profile, four zero channels, both flags false and device time "14:20" |
| SensorClient.OfflineStatusDict | custom_components/juwel_helialux/sensor.py:236-245 | the status dictionary of the offline values, entry by entry |
| SensorClient.Controller.constructor | custom_components/juwel_helialux/sensor.py:213-214 | a new controller has an empty post log |
| SensorClient.Controller.StatusVars | custom_components/juwel_helialux/sensor.py:216-230 | parses the body, or the offline text on the three caught errors, and raises on any other request error |
| SensorClient.Controller.GetStatus | custom_components/juwel_helialux/sensor.py:233-245 | returns the status dictionary of the parsed variables, with no profile default |
| SensorClient.Controller.StartManualColorSimulation | custom_components/juwel_helialux/sensor.py:247-248 | appends exactly the start post, and an exception propagates |
| SensorClient.Controller.SetManualColor | custom_components/juwel_helialux/sensor.py:250-260 | appends one post: action 10 and each given channel clamped, no other field |
| SensorClient.Controller.StopManualColorSimulation | custom_components/juwel_helialux/sensor.py:262-264 | appends the switch-off post and, unless it raised, the reset post; any exception propagates |
| SensorClient.UpdatedResult | custom_components/juwel_helialux/sensor.py:161-174 | a dictionary result gets exactly the five readings written in and keeps its other keys; any failure, including an earlier message, gives "Could not retrieve data." |
| SensorClient.UpdatedResultSticky | custom_components/juwel_helialux/sensor.py:166-174 | once the result is the message it stays the message |
| SensorClient.UpdatedResultFromEmpty | custom_components/juwel_helialux/sensor.py:158-170 | from the initial {} a successful update stores exactly the five readings |
| SensorClient.JuwelApiData.constructor | custom_components/juwel_helialux/sensor.py:155-158 | the client URL is "http://" + host and the result is {} |
| SensorClient.JuwelApiData.Update | custom_components/juwel_helialux/sensor.py:160-174 | the result becomes `UpdatedResult` of the old result and the status |
| SensorClient.StateOf | custom_components/juwel_helialux/sensor.py:127-131 | the reading when the dictionary has the measurement, unknown when it does not; on the message a substring hit raises TypeError |
| SensorClient.Presentation | custom_components/juwel_helialux/sensor.py:133-152 | the five measurements and only they get a suffix, icon and unit. `currentProfile` gets " Current Profile", "mdi:fishbowl-outline" and no unit. Each channel gets a space and the colour in its key (" White", " Blue", " Red", " Green"), "mdi:brightness-percent" and "%" |
| SensorClient.StateOfMessage | custom_components/juwel_helialux/sensor.py:127-128 | on the stored message every sensor shows unknown |
| SensorClient.JuwelSensor.constructor | custom_components/juwel_helialux/sensor.py:57-67 | a new sensor shows nothing yet and is named after the tank |
| SensorClient.JuwelSensor.Update | custom_components/juwel_helialux/sensor.py:116-152 | refreshes the data, shows `StateOf` (stamping the date on a reading) and sets name, icon and unit by measurement |
| Coordinator.InitialDeviceInfo | custom_components/juwel_helialux/coordinator.py:23-36 | the eight initial device keys: Juwel, Helialux, "Unknown" versions and URL protocol://host |
| Coordinator.UpdatedInfo | custom_components/juwel_helialux/coordinator.py:76-81 | a falsy info changes nothing; otherwise sw_version, hw_version and model come from the info with their defaults and every other key is untouched |
| Coordinator.UpdatedInfoIdempotent | custom_components/juwel_helialux/coordinator.py:76-81 | applying the same info twice is applying it once |
| Coordinator.SourceOf | custom_components/juwel_helialux/coordinator.py:84-95 | of the ten snapshot keys, exactly the two profile keys are read from the profile dictionary, under their own names and with default [] |
| Coordinator.Read | custom_components/juwel_helialux/coordinator.py:84-95 | `.get(key, default)` on the dictionary a source names; `MergeEntries` lists every key's source and default |
| Coordinator.Merge | custom_components/juwel_helialux/coordinator.py:84-95 | the snapshot has exactly the ten keys |
| Coordinator.MergeEntries | custom_components/juwel_helialux/coordinator.py:84-95 | each snapshot key is read from its source key with its default |
| Coordinator.MergeDefaults | custom_components/juwel_helialux/coordinator.py:84-95 | two empty dictionaries merge to the table of defaults |
| Coordinator.MergeOfLiveStatus | custom_components/juwel_helialux/coordinator.py:86-92 | a live status is copied without defaults, channels renamed one to one |
| Coordinator.MergeOfLiveProfiles | custom_components/juwel_helialux/coordinator.py:93-94 | whatever `get_profiles` returns, both profile lists merge to [] |
| Coordinator.DictOrEmpty | custom_components/juwel_helialux/coordinator.py:63-73 | a result that is not a dictionary counts as {} |
| Coordinator.Snapshot | custom_components/juwel_helialux/coordinator.py:56-102 | {} exactly when a call raised, and otherwise the merge of the two dictionaries |
| Coordinator.SnapshotInfo | custom_components/juwel_helialux/coordinator.py:76-81 | a raised call leaves the device information as it was; otherwise it is `UpdatedInfo` of the fetched info with the "0.0.0.0" version default; no key outside the three versions ever changes |
| Coordinator.JuwelHelialuxCoordinator.constructor | custom_components/juwel_helialux/coordinator.py:12-36 | empty data, the initial device information, and a live client for protocol://host |
| Coordinator.JuwelHelialuxCoordinator.ApplyInfo | custom_components/juwel_helialux/coordinator.py:77-80 | the three in-place key updates give `UpdatedInfo` |
| Coordinator.JuwelHelialuxCoordinator.UpdateData | custom_components/juwel_helialux/coordinator.py:56-102 | returns `Snapshot` and updates the device information as `SnapshotInfo` says, leaving data and posts alone; the client's session is taken once as `Acquire` says, creating one exactly when none is open |
| Coordinator.JuwelHelialuxCoordinator.Refresh | custom_components/juwel_helialux/coordinator.py:56-102 | stores the snapshot as the new data and the device information as `SnapshotInfo` says; the client's posts stay and its session is taken as `Acquire` says |
| Coordinator.JuwelHelialuxCoordinator.FirstRefresh | custom_components/juwel_helialux/coordinator.py:38-53 | a refresh, then the three-key update with "Unknown" defaults; an exception from the second `device_info()` propagates; the client's posts stay and its session is taken as `Acquire` says |
| ProfileSelect.OptionsOf | custom_components/juwel_helialux/select.py:33-36 | `available_profiles`, or [] when absent |
| ProfileSelect.CurrentOptionOf | custom_components/juwel_helialux/select.py:38-41 | `current_profile`, or "offline" when absent |
| ProfileSelect.ProfileCall | custom_components/juwel_helialux/select.py:43-56 | no call for an empty option, one not among the options, or an empty name list; TypeError when the options are a number or boolean |
| ProfileSelect.ProfileCallSendsFullName | custom_components/juwel_helialux/select.py:54-56 | the name sent is `full_profile_names[i]` for the first index `i` of the option |
| ProfileSelect.ProfileCallListed | custom_components/juwel_helialux/select.py:49-56 | a listed option reaches the device exactly when the protocol list is long enough, and otherwise raises IndexError |
| ProfileSelect.ProfileCallNoValueError | custom_components/juwel_helialux/select.py:36-59 | the ValueError branch is unreachable |
| ProfileSelect.JuwelHelialuxProfileSelect.constructor | custom_components/juwel_helialux/select.py:20-31 | the unique id is tank name + "_profile_select" and the options start as [] |
| ProfileSelect.JuwelHelialuxProfileSelect.SelectOption | custom_components/juwel_helialux/select.py:43-71 | the call is `ProfileCall`. Only a successful `set_profile` changes the data, and only its `current_profile`. The device information and stored options are unchanged |
| ProfileSelect.JuwelHelialuxProfileSelect.UpdateOptions | custom_components/juwel_helialux/select.py:91-96 | the stored options become the snapshot's `available_profiles` (default []) |
| ProfileSelect.JuwelHelialuxProfileSelect.HandleCoordinatorUpdate | custom_components/juwel_helialux/select.py:79-89 | the profile comparison never differs; only the options are refreshed |

Members without a row are proof helpers that model nothing on their own. They include:
- `Decimal.DigitChar` and `Decimal.DigitValue`;
- the rendering functions of `StatusScript` (`Numerals`, `Quotes`, `IntValues`, `StrValues`, `NumeralList`, `QuotedList`, `Texts`, `Concat`);
- its window lemmas (`At*`, `Enclosed`, `ConcatWindows`, `MatchWindow`, `MatchesChain` and the like).

## Left out

- HTTP traffic through aiohttp and requests is not modelled.
  - The fetched text, or a failure value, is an input.
  - Posts are recorded in a log.
  - The timeout values and the TLS settings are not modelled.
  - In the synchronous copy, a timeout or an HTTP error status from `raise_for_status` is the fetch outcome `Timeout` or `HttpError`, which falls back to the offline text.
  - In the async copies, a failed fetch, or one answered with a status other than 200, is `None`.
  - The status checks after a post only log, and are not modelled.
- Async scheduling is not modelled: `await`, the refresh timing of `DataUpdateCoordinator`, `Throttle`, `update_interval`, `async_write_ha_state` and `async_request_refresh`.
- Logging and the host/name checks at the start of `JuwelSensor.update` are not modelled; they only log.
- `light.py`, `switch.py`, `binary_sensor.py`, `number.py`, `helpers.py`, `__init__.py`, `config_flow.py` and the `async_setup_entry` functions are not part of this model. They are entity wiring, and `light.py` converts with floating point.
- `device_info()`, `set_profile` and `set_manual_override` are not defined in the component. Their outcomes are inputs, and their behaviour is not modelled.
- `datetime.today()` in `JuwelSensor.update` is the input `today`.
- Python dictionaries keep insertion order; Dafny maps do not. No modelled result depends on that order.
- The select entity's display attributes (icon, entity category, translation key, device information) are constants and are not modelled.
- The unreachable `assert False` branch of `parse_status_vars` is not modelled. Exactly one alternative of the grammar matches.
- StatusVars.MatchAt: `\d` in Python matches every Unicode decimal digit; the model accepts only `0`-`9`.
- PyValues.Value: integers are non-negative, because every modelled integer comes from an unsigned numeral or a constant. Negative `tsimtime` or brightness values cannot arise from parsed text.
- Clock.FormatMinutes: `int(duration / 60)` is taken as the exact quotient. Python computes it in floating point, which agrees for every duration below 2^53 minutes.
- Brightness.ScaleBrightness and Brightness.ClampBrightness take integers. Home Assistant may pass a float, which is not modelled.
- Status.StatusDict: the four channel values are stated for a list-valued `brightness`. For a string-valued one, each channel is a one-character string, as `PyValues.GetItem` states.
- SensorClient.OfflineText is written as the rendering of its statements, not as the literal string. `SensorClient.OfflineStmts` lists the statements in the literal's order.
