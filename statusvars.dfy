/** `parse_status_vars` and the grammar `STATUS_VARS_REGEX`, shared by the
    three copies of the client (and by the constant in const.py):

      name=((number)|'(string)'|[(digit_list)]|[(string_list)]);

    with name `[a-zA-Z0-9]+`, number `\d+`, string `[^']+`, digit_list
    `(\d+,?)+` and string_list `("[^"]+",?)+`.

    At a given start position the regular expression can match in at most
    one way: every greedy repetition is followed by a character it cannot
    consume, so backtracking into it never helps. `MatchAt` computes that
    one match directly; `Matches` is `finditer`: leftmost-first, retrying one
    position further after a failed attempt and resuming after a match. */
module StatusVars {
  import opened Wrappers
  import opened PyValues
  import opened Decimal

  predicate IsAlnum(c: char) { 'a' <= c <= 'z' || 'A' <= c <= 'Z' || '0' <= c <= '9' }

  /** The character classes the grammar repeats: `[a-zA-Z0-9]`, `\d`, the digits
      and commas of a digit list, `[^']`, `[^"]`, and the non-commas `split` keeps. */
  datatype CharClass = Alnum | Digit | DigitOrComma | NotSingleQuote | NotDoubleQuote | NotComma

  predicate InClass(c: char, cls: CharClass) {
    match cls
    case Alnum => IsAlnum(c)
    case Digit => IsDigit(c)
    case DigitOrComma => IsDigit(c) || c == ','
    case NotSingleQuote => c != '\''
    case NotDoubleQuote => c != '"'
    case NotComma => c != ','
  }

  /** The end of the longest run of characters of class `cls` that starts at `i`. */
  function SpanFrom(t: string, i: nat, cls: CharClass): (j: nat)
    requires i <= |t|
    ensures i <= j <= |t|
    ensures j < |t| ==> !InClass(t[j], cls)
    decreases |t| - i
  {
    if i == |t| || !InClass(t[i], cls) then i else SpanFrom(t, i + 1, cls)
  }

  /** Every character of the run is in the class. */
  lemma {:induction false} SpanFromAll(t: string, i: nat, cls: CharClass)
    requires i <= |t|
    ensures forall k :: i <= k < SpanFrom(t, i, cls) ==> InClass(t[k], cls)
    decreases |t| - i
  {
    if i < |t| && InClass(t[i], cls) {
      SpanFromAll(t, i + 1, cls);
    }
  }

  /** A run that is bounded by a character outside the class (or the end of
      the text) is exactly what `SpanFrom` finds. */
  lemma {:induction false} SpanFromStops(t: string, i: nat, j: nat, cls: CharClass)
    requires i <= j <= |t|
    requires forall k :: i <= k < j ==> InClass(t[k], cls)
    requires j < |t| ==> !InClass(t[j], cls)
    ensures SpanFrom(t, i, cls) == j
    decreases j - i
  {
    if i < j {
      SpanFromStops(t, i + 1, j, cls);
    }
  }

  /** No two adjacent commas in `t[i..j]`: what `(\d+,?)+` demands of a run of
      digits and commas that starts with a digit. */
  predicate NoDoubleComma(t: string, i: nat, j: nat)
    requires i <= j <= |t|
  {
    forall k :: i < k < j ==> t[k - 1] != ',' || t[k] != ','
  }

  /** The lexical form of a matched value: which alternative of the grammar
      matched, and the text of its named group. */
  datatype Lexeme =
    | Number(digits: string)
    | Quoted(body: string)
    | DigitList(content: string)
    | StringList(content: string)

  datatype Match = Match(name: string, lexeme: Lexeme)

  /** Where the repetition `("[^"]+",?)+` started at `i` stops, greedily. */
  function StringItemsEnd(t: string, i: nat): (j: nat)
    requires i <= |t|
    ensures i <= j <= |t|
    decreases |t| - i
  {
    if i == |t| || t[i] != '"' then i
    else
      var k := SpanFrom(t, i + 1, NotDoubleQuote);
      if k == i + 1 || k >= |t| then i
      else
        var next := if k + 1 < |t| && t[k + 1] == ',' then k + 2 else k + 1;
        StringItemsEnd(t, next)
  }

  /** The four alternatives of the value part, each with its terminating `;`,
      starting at `i`: the lexeme and the position just after the `;`. */
  predicate ValueEnd(t: string, i: nat, r: Option<(Lexeme, nat)>) {
    r.Some? ==> i + 2 <= r.value.1 <= |t| && t[r.value.1 - 1] == ';'
  }

  /** `(?P<number>\d+);` */
  function MatchNumber(t: string, i: nat): (r: Option<(Lexeme, nat)>)
    requires i < |t| && IsDigit(t[i])
    ensures ValueEnd(t, i, r)
  {
    var j := SpanFrom(t, i, Digit);
    if j < |t| && t[j] == ';' then Some((Number(t[i..j]), j + 1)) else None
  }

  /** `'(?P<string>[^']+)';` */
  function MatchQuoted(t: string, i: nat): (r: Option<(Lexeme, nat)>)
    requires i < |t| && t[i] == '\''
    ensures ValueEnd(t, i, r)
  {
    var j := SpanFrom(t, i + 1, NotSingleQuote);
    if i + 1 < j && j + 1 < |t| && t[j + 1] == ';'
    then Some((Quoted(t[i + 1..j]), j + 2)) else None
  }

  /** `\[(?P<digit_list>(\d+,?)+)\];` */
  function MatchDigitList(t: string, i: nat): (r: Option<(Lexeme, nat)>)
    requires i + 1 < |t| && t[i] == '[' && IsDigit(t[i + 1])
    ensures ValueEnd(t, i, r)
  {
    var j := SpanFrom(t, i + 1, DigitOrComma);
    if NoDoubleComma(t, i + 1, j) && j + 1 < |t| && t[j] == ']' && t[j + 1] == ';'
    then Some((DigitList(t[i + 1..j]), j + 2)) else None
  }

  /** `\[(?P<string_list>("[^"]+",?)+)\];` */
  function MatchStringList(t: string, i: nat): (r: Option<(Lexeme, nat)>)
    requires i + 1 < |t| && t[i] == '[' && t[i + 1] == '"'
    ensures ValueEnd(t, i, r)
  {
    var j := StringItemsEnd(t, i + 1);
    if i + 1 < j && j + 1 < |t| && t[j] == ']' && t[j + 1] == ';'
    then Some((StringList(t[i + 1..j]), j + 2)) else None
  }

  /** The value part: the first character decides which alternative can apply. */
  function MatchValue(t: string, i: nat): (r: Option<(Lexeme, nat)>)
    requires i <= |t|
    ensures ValueEnd(t, i, r)
  {
    if i == |t| then None
    else if IsDigit(t[i]) then MatchNumber(t, i)
    else if t[i] == '\'' then MatchQuoted(t, i)
    else if t[i] == '[' && i + 1 < |t| && IsDigit(t[i + 1]) then MatchDigitList(t, i)
    else if t[i] == '[' && i + 1 < |t| && t[i + 1] == '"' then MatchStringList(t, i)
    else None
  }

  /** An attempt to match the whole grammar at position `i` of `t`: the match
      and the position just after it. */
  function MatchAt(t: string, i: nat): (r: Option<(Match, nat)>)
    requires i <= |t|
    ensures r.Some? ==> i + 4 <= r.value.1 <= |t| && t[r.value.1 - 1] == ';'
    ensures r.Some? ==> 0 < |r.value.0.name| && i + |r.value.0.name| < r.value.1
    ensures r.Some? ==> r.value.0.name == t[i..i + |r.value.0.name|]
    ensures i == |t| || !IsAlnum(t[i]) ==> r.None?
  {
    var n := SpanFrom(t, i, Alnum);
    if n == i || n == |t| || t[n] != '=' then None
    else match MatchValue(t, n + 1)
      case None => None
      case Some((lex, e)) => Some((Match(t[i..n], lex), e))
  }

  /** `finditer` from position `i`: all matches, left to right. */
  function Matches(t: string, i: nat): (r: seq<Match>)
    requires i <= |t|
    ensures 4 * |r| <= |t| - i
    ensures forall k :: 0 <= k < |r| ==> r[k].name != []
    decreases |t| - i
  {
    if i == |t| then []
    else match MatchAt(t, i)
      case None => Matches(t, i + 1)
      case Some((m, e)) => [m] + Matches(t, e)
  }

  /** `s.split(",")`. */
  function Split(s: string): (r: seq<string>)
    ensures |r| >= 1
    ensures forall j :: 0 <= j < |r| ==> ',' !in r[j]
    decreases |s|
  {
    var i := SpanFrom(s, 0, NotComma);
    SpanFromAll(s, 0, NotComma);
    if i == |s| then [s] else [s[..i]] + Split(s[i + 1..])
  }

  /** `x[1:-1]`. */
  function StripEnds(x: string): (r: string)
    ensures |x| >= 2 ==> r == x[1..|x| - 1]
    ensures |x| < 2 ==> r == ""
  {
    if |x| >= 2 then x[1..|x| - 1] else ""
  }

  /** `int(x)`: a ValueError unless `x` is a non-empty string of digits. */
  function ParseInt(x: string): (r: Result<Value, Error>)
    ensures r.Success? <==> x != [] && AllDigits(x)
    ensures r.Success? ==> r.value == VInt(ParseDecimal(x))
    ensures r.Failure? ==> r.error == ValueError
  {
    if x != [] && AllDigits(x) then Success(VInt(ParseDecimal(x))) else Failure(ValueError)
  }

  /** `[int(x) for x in pieces]`: the first piece that is not a numeral raises. */
  function ParseInts(pieces: seq<string>): (r: Result<seq<Value>, Error>)
    ensures r.Success? <==> forall j :: 0 <= j < |pieces| ==> ParseInt(pieces[j]).Success?
    ensures r.Success? ==> |r.value| == |pieces| && forall j :: 0 <= j < |pieces| ==> r.value[j] == ParseInt(pieces[j]).value
  {
    if pieces == [] then Success([])
    else
      var head :- ParseInt(pieces[0]);
      var tail :- ParseInts(pieces[1..]);
      Success([head] + tail)
  }

  /** The typing step of `parse_status_vars`: the value a lexeme stands for. */
  function Convert(lex: Lexeme): (r: Result<Value, Error>)
    ensures lex.Number? ==> (r.Success? <==> lex.digits != [] && AllDigits(lex.digits))
    ensures lex.DigitList? && r.Success? ==> forall j :: 0 <= j < |Split(lex.content)| ==> ParseInt(Split(lex.content)[j]).Success?
    ensures lex.DigitList? && r.Failure? ==> exists j :: 0 <= j < |Split(lex.content)| && ParseInt(Split(lex.content)[j]).Failure?
    ensures lex.Quoted? || lex.StringList? ==> r.Success?
    ensures r.Success? ==> (lex.Number? <==> r.value.VInt?) && (lex.Quoted? <==> r.value.VStr?)
  {
    match lex
    case Number(d) => ParseInt(d)
    case Quoted(b) => Success(VStr(b))
    case DigitList(c) =>
      var xs :- ParseInts(Split(c));
      Success(VList(xs))
    case StringList(c) =>
      var pieces := Split(c);
      Success(VList(seq(|pieces|, j requires 0 <= j < |pieces| => VStr(StripEnds(pieces[j])))))
  }

  /** The loop body of `parse_status_vars`, as a fold: each match is typed
      and stored under its name, a later match overwriting an earlier one. */
  function Collect(ms: seq<Match>, acc: map<string, Value>): (r: Result<map<string, Value>, Error>)
    ensures r.Success? ==> acc.Keys <= r.value.Keys
    ensures r.Success? ==> forall j :: 0 <= j < |ms| ==> ms[j].name in r.value
  {
    if ms == [] then Success(acc)
    else match Convert(ms[0].lexeme)
      case Failure(e) => Failure(e)
      case Success(v) => Collect(ms[1..], acc[ms[0].name := v])
  }

  /** `parse_status_vars(text)` as a function. */
  function Parse(text: string): (r: Result<map<string, Value>, Error>)
    ensures text == "" ==> r == Success(map[])
    ensures r.Success? ==> forall m :: m in Matches(text, 0) ==> m.name in r.value
  {
    Collect(Matches(text, 0), map[])
  }

  /** `parse_status_vars`: a scan over the text that tries the grammar at
      successive positions and fills the output map from each match. */
  method ParseStatusVars(text: string) returns (r: Result<map<string, Value>, Error>)
    ensures r == Parse(text)
  {
    var output: map<string, Value> := map[];
    var pos := 0;
    while pos < |text|
      invariant 0 <= pos <= |text|
      invariant Parse(text) == Collect(Matches(text, pos), output)
    {
      match MatchAt(text, pos)
      case None =>
        pos := pos + 1;
      case Some((m, e)) =>
        match Convert(m.lexeme)
        case Failure(err) =>
          return Failure(err);
        case Success(v) =>
          output := output[m.name := v];
          pos := e;
    }
    return Success(output);
  }

  // ---------------------------------------------------------------------
  // Properties of the scanner

  /** One step of `finditer` after a failed attempt. */
  lemma MatchesAfterFailure(t: string, i: nat)
    requires i < |t| && MatchAt(t, i).None?
    ensures Matches(t, i) == Matches(t, i + 1)
  {
  }

  /** One step of `finditer` after a successful attempt. */
  lemma MatchesAfterMatch(t: string, i: nat, m: Match, e: nat)
    requires i < |t| && MatchAt(t, i) == Some((m, e))
    ensures e <= |t| && Matches(t, i) == [m] + Matches(t, e)
  {
  }

  /** Positions at which no match starts are skipped. */
  lemma {:induction false} MatchesSkip(t: string, i: nat, j: nat)
    requires i <= j <= |t|
    requires forall k :: i <= k < j ==> MatchAt(t, k).None?
    ensures Matches(t, i) == Matches(t, j)
    decreases j - i
  {
    if i < j {
      MatchesSkip(t, i + 1, j);
    }
  }

  /** A text in which the grammar matches at no position parses to the empty map. */
  lemma NoMatchNoKeys(t: string)
    requires forall k :: 0 <= k < |t| ==> MatchAt(t, k).None?
    ensures Matches(t, 0) == []
    ensures Parse(t) == Success(map[])
  {
    MatchesSkip(t, 0, |t|);
  }

  /** Separators without letters or digits (newlines, spaces, punctuation)
      are skipped: no match can start in them. */
  lemma NonAlnumSkipped(t: string, i: nat, j: nat)
    requires i <= j <= |t|
    requires forall k :: i <= k < j ==> !IsAlnum(t[k])
    ensures Matches(t, i) == Matches(t, j)
  {
    MatchesSkip(t, i, j);
  }

  /** A successful fold types every match. */
  lemma {:induction false} CollectConvertsAll(ms: seq<Match>, acc: map<string, Value>)
    requires Collect(ms, acc).Success?
    ensures forall j :: 0 <= j < |ms| ==> Convert(ms[j].lexeme).Success?
    decreases |ms|
  {
    if ms != [] {
      CollectConvertsAll(ms[1..], acc[ms[0].name := Convert(ms[0].lexeme).value]);
      assert forall j :: 0 < j < |ms| ==> ms[j] == ms[1..][j - 1];
    }
  }

  /** The parser never invents a key: the keys of a successful fold are the
      accumulated ones and the matched names, nothing else. */
  lemma {:induction false} CollectKeys(ms: seq<Match>, acc: map<string, Value>, k: string)
    requires Collect(ms, acc).Success?
    ensures k in Collect(ms, acc).value <==> k in acc || exists j :: 0 <= j < |ms| && ms[j].name == k
    decreases |ms|
  {
    if ms != [] {
      CollectKeys(ms[1..], acc[ms[0].name := Convert(ms[0].lexeme).value], k);
      if exists j :: 0 <= j < |ms| && ms[j].name == k {
        var j :| 0 <= j < |ms| && ms[j].name == k;
        if j > 0 { assert ms[1..][j - 1].name == k; }
      }
      if exists j :: 0 <= j < |ms[1..]| && ms[1..][j].name == k {
        var j :| 0 <= j < |ms[1..]| && ms[1..][j].name == k;
        assert ms[j + 1].name == k;
      }
    }
  }

  /** The last occurrence of a name wins: its value is that of the last match
      carrying the name. */
  lemma {:induction false} CollectLastWins(ms: seq<Match>, acc: map<string, Value>, j: nat)
    requires Collect(ms, acc).Success?
    requires j < |ms|
    requires forall j' :: j < j' < |ms| ==> ms[j'].name != ms[j].name
    ensures Convert(ms[j].lexeme).Success?
    ensures ms[j].name in Collect(ms, acc).value
    ensures Collect(ms, acc).value[ms[j].name] == Convert(ms[j].lexeme).value
    decreases |ms|
  {
    var acc' := acc[ms[0].name := Convert(ms[0].lexeme).value];
    if j == 0 {
      CollectUntouched(ms[1..], acc', ms[0].name);
    } else {
      assert forall j' :: j - 1 < j' < |ms[1..]| ==> ms[1..][j'] == ms[j' + 1];
      CollectLastWins(ms[1..], acc', j - 1);
    }
  }

  /** A key that no match carries keeps its accumulated value. */
  lemma {:induction false} CollectUntouched(ms: seq<Match>, acc: map<string, Value>, k: string)
    requires Collect(ms, acc).Success?
    requires k in acc
    requires forall j :: 0 <= j < |ms| ==> ms[j].name != k
    ensures k in Collect(ms, acc).value && Collect(ms, acc).value[k] == acc[k]
    decreases |ms|
  {
    if ms != [] {
      assert forall j :: 0 <= j < |ms[1..]| ==> ms[1..][j] == ms[j + 1];
      CollectUntouched(ms[1..], acc[ms[0].name := Convert(ms[0].lexeme).value], k);
    }
  }

  /** The parse fails exactly when some match does not convert (a digit list
      with a trailing comma, `int("")`). */
  lemma {:induction false} CollectFailsOnBadMatch(ms: seq<Match>, acc: map<string, Value>)
    ensures Collect(ms, acc).Failure? <==> exists j :: 0 <= j < |ms| && Convert(ms[j].lexeme).Failure?
    ensures Collect(ms, acc).Failure? ==> Collect(ms, acc).error == ValueError
    decreases |ms|
  {
    if ms != [] {
      if Convert(ms[0].lexeme).Success? {
        CollectFailsOnBadMatch(ms[1..], acc[ms[0].name := Convert(ms[0].lexeme).value]);
        assert forall j :: 0 < j < |ms| ==> ms[j] == ms[1..][j - 1];
        if exists j :: 0 <= j < |ms| && Convert(ms[j].lexeme).Failure? {
          var j :| 0 <= j < |ms| && Convert(ms[j].lexeme).Failure?;
          assert Convert(ms[1..][j - 1].lexeme).Failure?;
        }
      }
      ConvertFailureIsValueError(ms[0].lexeme);
    }
  }

  /** Typing a lexeme can only raise ValueError. */
  lemma ConvertFailureIsValueError(lex: Lexeme)
    ensures Convert(lex).Failure? ==> Convert(lex).error == ValueError
  {
    if lex.DigitList? {
      var pieces := Split(lex.content);
      ParseIntsFailure(pieces);
    }
  }

  /** The list comprehension raises only what `int` raises. */
  lemma {:induction false} ParseIntsFailure(pieces: seq<string>)
    ensures ParseInts(pieces).Failure? ==> ParseInts(pieces).error == ValueError
  {
    if pieces != [] {
      ParseIntsFailure(pieces[1..]);
    }
  }
}
