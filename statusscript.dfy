/** Status scripts: the `name=value;` text the controller serves, built from
    typed statements. A script of well-formed statements parses back, under
    `parse_status_vars`, to the map that assigns the statements in order; with
    distinct names that is the map from each name to its value. */
module StatusScript {
  import opened Wrappers
  import opened PyValues
  import opened Decimal
  import opened StatusVars

  /** A value in one of the four forms the grammar knows. */
  datatype Literal =
    | LInt(n: nat)
    | LStr(s: string)
    | LInts(xs: seq<nat>)
    | LStrs(ss: seq<string>)

  datatype Stmt = Stmt(name: string, value: Literal)

  predicate IsName(s: string) {
    s != [] && forall k :: 0 <= k < |s| ==> IsAlnum(s[k])
  }

  /** A list element of a string list: non-empty, and neither a quote, which
      ends it, nor a comma, which `split(",")` would cut it at. */
  predicate IsListString(s: string) {
    s != [] && '"' !in s && ',' !in s
  }

  predicate WellFormedLiteral(v: Literal) {
    match v
    case LInt(_) => true
    case LStr(s) => s != [] && '\'' !in s
    case LInts(xs) => xs != []
    case LStrs(ss) => ss != [] && forall k :: 0 <= k < |ss| ==> IsListString(ss[k])
  }

  predicate WellFormed(st: Stmt) {
    IsName(st.name) && WellFormedLiteral(st.value)
  }

  predicate AllWellFormed(stmts: seq<Stmt>) {
    forall k :: 0 <= k < |stmts| ==> WellFormed(stmts[k])
  }

  /** `",".join(pieces)`. */
  function Join(pieces: seq<string>): string {
    if pieces == [] then ""
    else if |pieces| == 1 then pieces[0]
    else pieces[0] + ("," + Join(pieces[1..]))
  }

  function Quote(s: string): string {
    "\"" + s + "\""
  }

  function Numerals(xs: seq<nat>): (r: seq<string>)
    ensures |r| == |xs|
    ensures forall k :: 0 <= k < |xs| ==> r[k] == DecimalDigits(xs[k])
  {
    if xs == [] then [] else [DecimalDigits(xs[0])] + Numerals(xs[1..])
  }

  function Quotes(ss: seq<string>): (r: seq<string>)
    ensures |r| == |ss|
    ensures forall k :: 0 <= k < |ss| ==> r[k] == Quote(ss[k])
  {
    if ss == [] then [] else [Quote(ss[0])] + Quotes(ss[1..])
  }

  /** The items of a digit list as the controller writes them: numerals
      separated by commas. */
  function NumeralList(xs: seq<nat>): string {
    if xs == [] then ""
    else if |xs| == 1 then DecimalDigits(xs[0])
    else DecimalDigits(xs[0]) + ("," + NumeralList(xs[1..]))
  }

  /** The items of a string list: quoted strings separated by commas. */
  function QuotedList(ss: seq<string>): string {
    if ss == [] then ""
    else if |ss| == 1 then Quote(ss[0])
    else Quote(ss[0]) + ("," + QuotedList(ss[1..]))
  }

  function IntValues(xs: seq<nat>): (r: seq<Value>)
    ensures |r| == |xs|
    ensures forall k :: 0 <= k < |xs| ==> r[k] == VInt(xs[k])
  {
    if xs == [] then [] else [VInt(xs[0])] + IntValues(xs[1..])
  }

  function StrValues(ss: seq<string>): (r: seq<Value>)
    ensures |r| == |ss|
    ensures forall k :: 0 <= k < |ss| ==> r[k] == VStr(ss[k])
  {
    if ss == [] then [] else [VStr(ss[0])] + StrValues(ss[1..])
  }

  /** The text of a value. */
  function Render(v: Literal): string {
    match v
    case LInt(n) => DecimalDigits(n)
    case LStr(s) => "'" + s + "'"
    case LInts(xs) => "[" + NumeralList(xs) + "]"
    case LStrs(ss) => "[" + QuotedList(ss) + "]"
  }

  function Statement(st: Stmt): string {
    st.name + "=" + Render(st.value) + ";"
  }

  function Script(stmts: seq<Stmt>): string {
    if stmts == [] then "" else Statement(stmts[0]) + Script(stmts[1..])
  }

  /** The Python value a literal stands for. */
  function ValueOf(v: Literal): Value {
    match v
    case LInt(n) => VInt(n)
    case LStr(s) => VStr(s)
    case LInts(xs) => VList(IntValues(xs))
    case LStrs(ss) => VList(StrValues(ss))
  }

  /** The statements assigned in order into `acc`, a later one overwriting an
      earlier one with the same name. */
  function Assign(stmts: seq<Stmt>, acc: map<string, Value>): map<string, Value> {
    if stmts == [] then acc
    else Assign(stmts[1..], acc[stmts[0].name := ValueOf(stmts[0].value)])
  }

  // ---------------------------------------------------------------------
  // Reading a text through a window

  /** The character `k` places after `p`; it names the offsets a window
      speaks of, so that a window is only read where a proof asks. */
  function CharAt(t: string, p: nat, k: nat): char
    requires p + k < |t|
  {
    t[p + k]
  }

  /** `w` occurs in `t` at position `p`. The lemmas below state a window as
      `At(..) == true`, which keeps it one fact instead of opening its
      definition at every use. */
  predicate At(t: string, p: nat, w: string) {
    p + |w| <= |t| && forall k {:trigger CharAt(t, p, k)} :: 0 <= k < |w| ==> CharAt(t, p, k) == w[k]
  }

  lemma AtIndex(t: string, p: nat, w: string, k: nat)
    requires At(t, p, w) == true && k < |w|
    ensures p + k < |t| && t[p + k] == w[k]
  {
    assert CharAt(t, p, k) == w[k];
  }

  lemma AtEnd(t: string, p: nat, w: string)
    requires At(t, p, w) == true
    ensures p + |w| <= |t|
  {
  }

  /** A window on `a + b` is a window on `a` followed by one on `b`. */
  lemma AtSplit(t: string, p: nat, a: string, b: string)
    requires At(t, p, a + b) == true
    ensures At(t, p, a) == true && At(t, p + |a|, b) == true
  {
    forall k | 0 <= k < |a| ensures CharAt(t, p, k) == a[k] {
      AtIndex(t, p, a + b, k);
    }
    forall k | 0 <= k < |b| ensures CharAt(t, p + |a|, k) == b[k] {
      AtIndex(t, p, a + b, |a| + k);
    }
  }

  lemma AtRest(t: string, p: nat)
    requires p <= |t|
    ensures At(t, p, t[p..]) == true
  {
    forall k | 0 <= k < |t| - p ensures CharAt(t, p, k) == t[p..][k] {}
  }

  lemma AtSlice(t: string, p: nat, w: string)
    requires At(t, p, w) == true
    ensures p + |w| <= |t| && t[p..p + |w|] == w
  {
    forall k | 0 <= k < |w| ensures t[p..p + |w|][k] == w[k] {
      AtIndex(t, p, w, k);
    }
  }

  /** Two adjacent windows make one. */
  lemma AtJoin(t: string, p: nat, a: string, b: string)
    requires At(t, p, a) == true && At(t, p + |a|, b) == true
    ensures At(t, p, a + b) == true
  {
    forall k | 0 <= k < |a + b| ensures CharAt(t, p, k) == (a + b)[k] {
      if k < |a| {
        AtIndex(t, p, a, k);
      } else {
        AtIndex(t, p + |a|, b, k - |a|);
      }
    }
  }

  /** A value between one-character delimiters, followed by `;`. */
  lemma Enclosed(t: string, q: nat, open: string, j: string, close: string)
    requires |open| == 1 && |close| == 1
    requires At(t, q, open + j + close + ";") == true
    ensures q + |j| + 2 < |t|
    ensures t[q] == open[0] && t[q + 1 + |j|] == close[0] && t[q + 2 + |j|] == ';'
    ensures At(t, q + 1, j) == true
  {
    AtSplit(t, q, open + j + close, ";");
    AtSplit(t, q, open + j, close);
    AtSplit(t, q, open, j);
    AtIndex(t, q, open, 0);
    AtIndex(t, q + 1 + |j|, close, 0);
    AtIndex(t, q + 2 + |j|, ";", 0);
  }

  // ---------------------------------------------------------------------
  // Lists: joining and splitting

  /** `split` stops at the first comma and goes on after it. */
  lemma SplitStep(p0: string, rest: string)
    requires ',' !in p0
    ensures Split(p0 + ("," + rest)) == [p0] + Split(rest)
  {
    var s := p0 + ("," + rest);
    assert forall k :: 0 <= k < |p0| ==> s[k] == p0[k] && p0[k] != ',';
    assert s[|p0|] == ',';
    SpanFromStops(s, 0, |p0|, NotComma);
    assert s[..|p0|] == p0;
    assert s[|p0| + 1..] == rest;
  }

  /** Splitting a join of comma-free pieces gives the pieces back. */
  lemma {:induction false} SplitJoin(pieces: seq<string>)
    requires pieces != []
    requires forall k :: 0 <= k < |pieces| ==> ',' !in pieces[k]
    ensures Split(Join(pieces)) == pieces
    decreases |pieces|
  {
    var p0 := pieces[0];
    assert ',' !in p0;
    if |pieces| == 1 {
      var s := Join(pieces);
      assert forall k :: 0 <= k < |s| ==> s[k] != ',';
      SpanFromStops(s, 0, |s|, NotComma);
    } else {
      SplitStep(p0, Join(pieces[1..]));
      SplitJoin(pieces[1..]);
    }
  }

  lemma {:induction false} NumeralListJoin(xs: seq<nat>)
    ensures NumeralList(xs) == Join(Numerals(xs))
    decreases |xs|
  {
    if |xs| > 1 {
      assert Numerals(xs)[1..] == Numerals(xs[1..]);
      NumeralListJoin(xs[1..]);
    }
  }

  lemma {:induction false} QuotedListJoin(ss: seq<string>)
    ensures QuotedList(ss) == Join(Quotes(ss))
    decreases |ss|
  {
    if |ss| > 1 {
      assert Quotes(ss)[1..] == Quotes(ss[1..]);
      QuotedListJoin(ss[1..]);
    }
  }

  /** The items of a digit list: digits and commas, starting with a digit,
      and never two commas in a row. */
  lemma {:induction false} NumeralListShape(xs: seq<nat>)
    requires xs != []
    ensures var j := NumeralList(xs);
      j != [] && IsDigit(j[0])
      && (forall k :: 0 <= k < |j| ==> IsDigit(j[k]) || j[k] == ',')
      && (forall k :: 0 < k < |j| ==> j[k - 1] != ',' || j[k] != ',')
    decreases |xs|
  {
    var d := DecimalDigits(xs[0]);
    if |xs| > 1 {
      var rest := NumeralList(xs[1..]);
      NumeralListShape(xs[1..]);
      var j := d + ("," + rest);
      assert NumeralList(xs) == j;
      assert forall k :: 0 <= k < |d| ==> j[k] == d[k];
      assert j[|d|] == ',';
      assert forall k :: |d| < k < |j| ==> j[k] == rest[k - |d| - 1];
    }
  }

  lemma NumeralsCommaFree(xs: seq<nat>)
    ensures forall k :: 0 <= k < |xs| ==> ',' !in Numerals(xs)[k]
  {
    forall k | 0 <= k < |xs| ensures ',' !in Numerals(xs)[k] {
      var d := DecimalDigits(xs[k]);
      assert forall i :: 0 <= i < |d| ==> IsDigit(d[i]);
    }
  }

  lemma QuotesCommaFree(ss: seq<string>)
    requires forall k :: 0 <= k < |ss| ==> IsListString(ss[k])
    ensures forall k :: 0 <= k < |ss| ==> ',' !in Quotes(ss)[k]
  {
    forall k | 0 <= k < |ss| ensures ',' !in Quotes(ss)[k] {
      var q := Quote(ss[k]);
      assert forall i :: 0 <= i < |q| ==> q[i] == '"' || q[i] == ss[k][i - 1];
    }
  }

  // ---------------------------------------------------------------------
  // Each statement is matched whole

  /** The lexeme the grammar reads for a literal. */
  function LexemeOf(v: Literal): Lexeme {
    match v
    case LInt(n) => Number(DecimalDigits(n))
    case LStr(s) => Quoted(s)
    case LInts(xs) => DigitList(NumeralList(xs))
    case LStrs(ss) => StringList(QuotedList(ss))
  }

  /** A printed number followed by `;` is read by the number alternative. */
  lemma MatchNumberOf(t: string, q: nat, n: nat)
    requires At(t, q, Render(LInt(n)) + ";") == true
    ensures q < |t| && IsDigit(t[q])
    ensures MatchNumber(t, q) == Some((LexemeOf(LInt(n)), q + |Render(LInt(n))| + 1))
  {
    var d := DecimalDigits(n);
    var w := Render(LInt(n)) + ";";
    assert w == d + ";";
    AtIndex(t, q, w, |d|);
    forall k | q <= k < q + |d| ensures InClass(t[k], Digit) {
      AtIndex(t, q, w, k - q);
    }
    SpanFromStops(t, q, q + |d|, Digit);
    AtSplit(t, q, d, ";");
    AtSlice(t, q, d);
  }

  /** A quoted string without `'` is read by the string alternative, body and all. */
  lemma MatchQuotedOf(t: string, q: nat, s: string)
    requires WellFormedLiteral(LStr(s))
    requires At(t, q, Render(LStr(s)) + ";") == true
    ensures q < |t| && t[q] == '\''
    ensures MatchQuoted(t, q) == Some((LexemeOf(LStr(s)), q + |Render(LStr(s))| + 1))
  {
    var j := q + 1 + |s|;
    Enclosed(t, q, "'", s, "'");
    assert forall k :: 0 <= k < |s| ==> InClass(s[k], NotSingleQuote);
    AtClass(t, q + 1, s, NotSingleQuote);
    SpanFromStops(t, q + 1, j, NotSingleQuote);
    AtSlice(t, q + 1, s);
  }

  /** Characters of a class in the window are characters of that class in `t`. */
  lemma AtClass(t: string, p: nat, w: string, cls: CharClass)
    requires At(t, p, w) == true
    requires forall k :: 0 <= k < |w| ==> InClass(w[k], cls)
    ensures p + |w| <= |t|
    ensures forall k :: p <= k < p + |w| ==> InClass(t[k], cls)
  {
    AtEnd(t, p, w);
    forall k | p <= k < p + |w| ensures InClass(t[k], cls) {
      AtIndex(t, p, w, k - p);
    }
  }

  lemma AtNoDoubleComma(t: string, p: nat, w: string)
    requires At(t, p, w) == true
    requires forall k :: 0 < k < |w| ==> w[k - 1] != ',' || w[k] != ','
    ensures p + |w| <= |t|
    ensures NoDoubleComma(t, p, p + |w|)
  {
    AtEnd(t, p, w);
    forall k | p < k < p + |w| ensures t[k - 1] != ',' || t[k] != ',' {
      AtIndex(t, p, w, k - p);
      AtIndex(t, p, w, k - p - 1);
    }
  }

  /** What the digit-list alternative reads from the window of a rendered digit list. */
  lemma DigitListWindow(t: string, q: nat, xs: seq<nat>)
    requires WellFormedLiteral(LInts(xs))
    requires At(t, q, Render(LInts(xs)) + ";") == true
    ensures var j, e := NumeralList(xs), q + 1 + |NumeralList(xs)|;
      && e + 1 < |t| && t[q] == '[' && IsDigit(t[q + 1]) && t[e] == ']' && t[e + 1] == ';'
      && SpanFrom(t, q + 1, DigitOrComma) == e && NoDoubleComma(t, q + 1, e) && t[q + 1..e] == j
  {
    var j := NumeralList(xs);
    NumeralListShape(xs);
    var e := q + 1 + |j|;
    Enclosed(t, q, "[", j, "]");
    AtIndex(t, q + 1, j, 0);
    AtClass(t, q + 1, j, DigitOrComma);
    SpanFromStops(t, q + 1, e, DigitOrComma);
    AtNoDoubleComma(t, q + 1, j);
    AtSlice(t, q + 1, j);
  }

  /** A printed digit list is read by the digit-list alternative as its items. */
  lemma MatchDigitListOf(t: string, q: nat, xs: seq<nat>)
    requires WellFormedLiteral(LInts(xs))
    requires At(t, q, Render(LInts(xs)) + ";") == true
    ensures q + 1 < |t| && t[q] == '[' && IsDigit(t[q + 1])
    ensures MatchDigitList(t, q) == Some((LexemeOf(LInts(xs)), q + |Render(LInts(xs))| + 1))
  {
    DigitListWindow(t, q, xs);
  }

  lemma QuoteChars(s: string)
    ensures |Quote(s)| == |s| + 2 && Quote(s)[0] == '"' && Quote(s)[|s| + 1] == '"'
    ensures forall i :: 0 <= i < |s| ==> Quote(s)[i + 1] == s[i]
  {
  }

  /** One quoted item: the repetition goes on past it, and past a comma
      that follows it. */
  lemma StringItemStep(t: string, p: nat, s: string)
    requires IsListString(s) && At(t, p, Quote(s)) == true && p + |s| + 2 < |t|
    ensures StringItemsEnd(t, p) ==
      StringItemsEnd(t, if t[p + |s| + 2] == ',' then p + |s| + 3 else p + |s| + 2)
  {
    var k := p + 1 + |s|;
    QuoteChars(s);
    assert forall i :: 0 <= i < |s| ==> s[i] != '"';
    AtIndex(t, p, Quote(s), 0);
    AtIndex(t, p, Quote(s), |s| + 1);
    forall i | p + 1 <= i < k ensures InClass(t[i], NotDoubleQuote) {
      AtIndex(t, p, Quote(s), i - p);
    }
    SpanFromStops(t, p + 1, k, NotDoubleQuote);
  }

  /** The string items of a well-formed string list end where the list does. */
  lemma {:induction false} StringItemsEndOf(t: string, p: nat, ss: seq<string>)
    requires ss != [] && forall k :: 0 <= k < |ss| ==> IsListString(ss[k])
    requires At(t, p, QuotedList(ss)) == true
    requires p + |QuotedList(ss)| < |t| && t[p + |QuotedList(ss)|] == ']'
    ensures StringItemsEnd(t, p) == p + |QuotedList(ss)|
    decreases |ss|
  {
    var s := ss[0];
    assert IsListString(s);
    QuoteChars(s);
    if |ss| == 1 {
      StringItemStep(t, p, s);
    } else {
      var rest := QuotedList(ss[1..]);
      assert QuotedList(ss) == Quote(s) + ("," + rest);
      AtSplit(t, p, Quote(s), "," + rest);
      AtSplit(t, p + |s| + 2, ",", rest);
      AtIndex(t, p + |s| + 2, ",", 0);
      StringItemStep(t, p, s);
      StringItemsEndOf(t, p + |s| + 3, ss[1..]);
    }
  }

  /** What the string-list alternative reads from the window of a rendered string list. */
  lemma StringListWindow(t: string, q: nat, ss: seq<string>)
    requires WellFormedLiteral(LStrs(ss))
    requires At(t, q, Render(LStrs(ss)) + ";") == true
    ensures var j, e := QuotedList(ss), q + 1 + |QuotedList(ss)|;
      && q + 1 < e && e + 1 < |t| && t[q] == '[' && t[q + 1] == '"' && t[e] == ']' && t[e + 1] == ';'
      && StringItemsEnd(t, q + 1) == e && t[q + 1..e] == j
  {
    var j := QuotedList(ss);
    QuotedListStart(ss);
    Enclosed(t, q, "[", j, "]");
    AtIndex(t, q + 1, j, 0);
    StringItemsEndOf(t, q + 1, ss);
    AtSlice(t, q + 1, j);
  }

  /** A printed string list is read by the string-list alternative as its items. */
  lemma MatchStringListOf(t: string, q: nat, ss: seq<string>)
    requires WellFormedLiteral(LStrs(ss))
    requires At(t, q, Render(LStrs(ss)) + ";") == true
    ensures q + 1 < |t| && t[q] == '[' && t[q + 1] == '"'
    ensures MatchStringList(t, q) == Some((LexemeOf(LStrs(ss)), q + |Render(LStrs(ss))| + 1))
  {
    StringListWindow(t, q, ss);
  }

  /** A string list starts with a quote and is longer than one character. */
  lemma QuotedListStart(ss: seq<string>)
    requires ss != []
    ensures |QuotedList(ss)| >= 2 && QuotedList(ss)[0] == '"'
  {
    QuoteChars(ss[0]);
    if |ss| > 1 {
      assert QuotedList(ss) == Quote(ss[0]) + ("," + QuotedList(ss[1..]));
    }
  }

  /** Each well-formed value is read in the form it was written, up to its `;`. */
  lemma MatchValueOf(t: string, q: nat, v: Literal)
    requires WellFormedLiteral(v)
    requires At(t, q, Render(v) + ";") == true
    ensures MatchValue(t, q) == Some((LexemeOf(v), q + |Render(v)| + 1))
  {
    match v
    case LInt(n) => MatchNumberOf(t, q, n);
    case LStr(s) => MatchQuotedOf(t, q, s);
    case LInts(xs) => MatchDigitListOf(t, q, xs);
    case LStrs(ss) => MatchStringListOf(t, q, ss);
  }

  /** What the name part reads from the window of a statement. */
  lemma StatementWindow(t: string, p: nat, st: Stmt)
    requires WellFormed(st) == true && At(t, p, Statement(st)) == true
    ensures var n := p + |st.name|;
      && p < n < |t| && SpanFrom(t, p, Alnum) == n && t[n] == '=' && t[p..n] == st.name
      && At(t, n + 1, Render(st.value) + ";") == true && |Statement(st)| == |st.name| + |Render(st.value)| + 2
  {
    var name, r := st.name, Render(st.value);
    var n := p + |name|;
    AtSplit(t, p, name + "=" + r, ";");
    AtSplit(t, p, name + "=", r);
    AtSplit(t, p, name, "=");
    AtIndex(t, n, "=", 0);
    AtJoin(t, n + 1, r, ";");
    AtClass(t, p, name, Alnum);
    SpanFromStops(t, p, n, Alnum);
    AtSlice(t, p, name);
  }

  /** A name run that ends at `=` followed by the window of a value is a match. */
  lemma MatchAtValue(t: string, p: nat, n: nat, v: Literal)
    requires WellFormedLiteral(v)
    requires p < n < |t| && SpanFrom(t, p, Alnum) == n && t[n] == '='
    requires At(t, n + 1, Render(v) + ";") == true
    ensures MatchAt(t, p) == Some((Match(t[p..n], LexemeOf(v)), n + |Render(v)| + 2))
  {
    MatchValueOf(t, n + 1, v);
  }

  /** A well-formed statement is matched whole where it starts. */
  lemma MatchStatement(t: string, p: nat, st: Stmt)
    requires WellFormed(st) == true && At(t, p, Statement(st)) == true
    ensures p < |t|
    ensures MatchAt(t, p) == Some((Match(st.name, LexemeOf(st.value)), p + |Statement(st)|))
  {
    StatementWindow(t, p, st);
    MatchAtValue(t, p, p + |st.name|, st.value);
  }

  /** A script is read statement by statement. */
  function MatchesOf(stmts: seq<Stmt>): seq<Match> {
    if stmts == [] then [] else [Match(stmts[0].name, LexemeOf(stmts[0].value))] + MatchesOf(stmts[1..])
  }

  /** A window on a concatenation `w` is a window on each part. */
  lemma AtParts(t: string, p: nat, w: string, a: string, b: string)
    requires At(t, p, w) == true && w == a + b
    ensures At(t, p, a) == true && At(t, p + |a|, b) == true && |w| == |a| + |b|
  {
    AtSplit(t, p, a, b);
  }

  /** The texts of the statements, one per statement. */
  function Texts(stmts: seq<Stmt>): (ws: seq<string>)
    ensures |ws| == |stmts| && forall i :: 0 <= i < |stmts| ==> ws[i] == Statement(stmts[i])
  {
    seq(|stmts|, i requires 0 <= i < |stmts| => Statement(stmts[i]))
  }

  /** Strings written one after another. */
  function Concat(ws: seq<string>): string {
    if ws == [] then "" else ws[0] + Concat(ws[1..])
  }

  /** A script is the concatenation of its statements' texts. */
  lemma {:induction false} ScriptConcat(stmts: seq<Stmt>)
    ensures Script(stmts) == Concat(Texts(stmts))
    decreases |stmts|
  {
    if stmts != [] {
      ScriptConcat(stmts[1..]);
      assert Texts(stmts)[1..] == Texts(stmts[1..]);
    }
  }

  /** The window of a concatenation is the windows of its parts, one after
      another, up to the end of the text. */
  lemma {:induction false} ConcatWindows(t: string, p: nat, ws: seq<string>) returns (ps: seq<nat>)
    requires At(t, p, Concat(ws)) == true && p + |Concat(ws)| == |t|
    ensures |ps| == |ws| + 1 && ps[0] == p && ps[|ws|] == |t|
    ensures forall i :: 0 <= i < |ws| ==> At(t, ps[i], ws[i]) == true && ps[i + 1] == ps[i] + |ws[i]|
    decreases |ws|
  {
    if ws == [] {
      ps := [p];
    } else {
      AtParts(t, p, Concat(ws), ws[0], Concat(ws[1..]));
      var rest := ConcatWindows(t, p + |ws[0]|, ws[1..]);
      ps := [p] + rest;
      assert forall i :: 0 < i < |ws| ==> ws[i] == ws[1..][i - 1] && ps[i] == rest[i - 1];
    }
  }

  /** The statement at the `i`-th window is matched up to the next window. */
  lemma MatchWindow(t: string, ps: seq<nat>, ws: seq<string>, stmts: seq<Stmt>, i: nat)
    requires i < |stmts| && |ps| == |stmts| + 1 && WellFormed(stmts[i]) == true
    requires i < |ws| && ws[i] == Statement(stmts[i])
    requires At(t, ps[i], ws[i]) == true && ps[i + 1] == ps[i] + |ws[i]|
    ensures ps[i] < |t| && MatchAt(t, ps[i]) == Some((Match(stmts[i].name, LexemeOf(stmts[i].value)), ps[i + 1]))
  {
    MatchStatement(t, ps[i], stmts[i]);
  }

  /** Reading one match after another, from the first position to the end
      of the text, gives those matches. */
  lemma {:induction false} MatchesChain(t: string, ps: seq<nat>, stmts: seq<Stmt>)
    requires |ps| == |stmts| + 1 && ps[|stmts|] == |t|
    requires forall i :: 0 <= i < |stmts| ==>
      ps[i] < |t| && MatchAt(t, ps[i]) == Some((Match(stmts[i].name, LexemeOf(stmts[i].value)), ps[i + 1]))
    ensures ps[0] <= |t| && Matches(t, ps[0]) == MatchesOf(stmts)
    decreases |stmts|
  {
    if stmts != [] {
      assert ps[0] < |t|;
      MatchesAfterMatch(t, ps[0], Match(stmts[0].name, LexemeOf(stmts[0].value)), ps[1]);
      MatchesChain(t, ps[1..], stmts[1..]);
    }
  }

  /** `finditer` over a script, up to its end, finds exactly its statements. */
  lemma ScriptMatches(t: string, p: nat, stmts: seq<Stmt>)
    requires AllWellFormed(stmts)
    requires At(t, p, Script(stmts)) == true && p + |Script(stmts)| == |t|
    ensures Matches(t, p) == MatchesOf(stmts)
  {
    ScriptConcat(stmts);
    var ws := Texts(stmts);
    var ps := ConcatWindows(t, p, ws);
    forall i | 0 <= i < |stmts|
      ensures ps[i] < |t| && MatchAt(t, ps[i]) == Some((Match(stmts[i].name, LexemeOf(stmts[i].value)), ps[i + 1]))
    {
      MatchWindow(t, ps, ws, stmts, i);
    }
    MatchesChain(t, ps, stmts);
  }

  /** Each lexeme read from a well-formed literal converts to its value. */
  lemma ConvertLexemeOf(v: Literal)
    requires WellFormedLiteral(v)
    ensures Convert(LexemeOf(v)) == Success(ValueOf(v))
  {
    match v
    case LInt(n) =>
      ParseDecimalOfDigits(n);
    case LStr(s) =>
    case LInts(xs) =>
      NumeralListJoin(xs);
      NumeralsCommaFree(xs);
      SplitJoin(Numerals(xs));
      forall k | 0 <= k < |xs| ensures ParseInt(Numerals(xs)[k]) == Success(VInt(xs[k])) {
        ParseDecimalOfDigits(xs[k]);
      }
      assert ParseInts(Numerals(xs)).value == IntValues(xs);
    case LStrs(ss) =>
      QuotedListJoin(ss);
      QuotesCommaFree(ss);
      SplitJoin(Quotes(ss));
      var pieces := Quotes(ss);
      assert forall k :: 0 <= k < |ss| ==> StripEnds(pieces[k]) == ss[k];
      assert seq(|pieces|, j requires 0 <= j < |pieces| => VStr(StripEnds(pieces[j]))) == StrValues(ss);
  }

  /** Folding the matches of well-formed statements assigns their values in order. */
  lemma {:induction false} CollectMatchesOf(stmts: seq<Stmt>, acc: map<string, Value>)
    requires AllWellFormed(stmts)
    ensures Collect(MatchesOf(stmts), acc) == Success(Assign(stmts, acc))
    decreases |stmts|
  {
    if stmts != [] {
      assert WellFormed(stmts[0]);
      ConvertLexemeOf(stmts[0].value);
      var ms := MatchesOf(stmts);
      assert ms[1..] == MatchesOf(stmts[1..]);
      CollectMatchesOf(stmts[1..], acc[stmts[0].name := ValueOf(stmts[0].value)]);
    }
  }

  // ---------------------------------------------------------------------
  // The round trip

  /** Parsing a script of well-formed statements assigns them in order. */
  lemma RoundTrip(stmts: seq<Stmt>)
    requires AllWellFormed(stmts)
    ensures Parse(Script(stmts)) == Success(Assign(stmts, map[]))
  {
    var t := Script(stmts);
    AtRest(t, 0);
    assert t[0..] == t;
    ScriptMatches(t, 0, stmts);
    CollectMatchesOf(stmts, map[]);
  }

  /** With distinct names the assignment is the map from each name to its
      value, and has no other key. */
  lemma {:induction false} AssignDistinct(stmts: seq<Stmt>, acc: map<string, Value>)
    requires forall i, j :: 0 <= i < j < |stmts| ==> stmts[i].name != stmts[j].name
    ensures forall i :: 0 <= i < |stmts| ==>
      stmts[i].name in Assign(stmts, acc) && Assign(stmts, acc)[stmts[i].name] == ValueOf(stmts[i].value)
    ensures forall k :: k in Assign(stmts, acc) <==>
      k in acc || exists i :: 0 <= i < |stmts| && stmts[i].name == k
    ensures forall k :: k in acc && (forall i :: 0 <= i < |stmts| ==> stmts[i].name != k) ==>
      Assign(stmts, acc)[k] == acc[k]
    decreases |stmts|
  {
    if stmts != [] {
      var rest := stmts[1..];
      var acc' := acc[stmts[0].name := ValueOf(stmts[0].value)];
      AssignDistinct(rest, acc');
      assert forall i :: 0 < i < |stmts| ==> stmts[i] == rest[i - 1];
      forall k ensures k in Assign(stmts, acc) <==> k in acc || exists i :: 0 <= i < |stmts| && stmts[i].name == k {
        if exists i :: 0 <= i < |rest| && rest[i].name == k {
          var i :| 0 <= i < |rest| && rest[i].name == k;
          assert stmts[i + 1].name == k;
        }
        if exists i :: 0 <= i < |stmts| && stmts[i].name == k {
          var i :| 0 <= i < |stmts| && stmts[i].name == k;
          if i > 0 { assert rest[i - 1].name == k; }
        }
      }
    }
  }

  /** A name no later statement assigns keeps its value. */
  lemma {:induction false} AssignUntouched(stmts: seq<Stmt>, acc: map<string, Value>, k: string)
    requires k in acc
    requires forall j :: 0 <= j < |stmts| ==> stmts[j].name != k
    ensures k in Assign(stmts, acc) && Assign(stmts, acc)[k] == acc[k]
    decreases |stmts|
  {
    if stmts != [] {
      AssignUntouched(stmts[1..], acc[stmts[0].name := ValueOf(stmts[0].value)], k);
    }
  }

  /** A name ends up with the value of the last statement that assigns it. */
  lemma {:induction false} AssignLast(stmts: seq<Stmt>, acc: map<string, Value>, i: nat)
    requires i < |stmts|
    requires forall j :: i < j < |stmts| ==> stmts[j].name != stmts[i].name
    ensures stmts[i].name in Assign(stmts, acc) && Assign(stmts, acc)[stmts[i].name] == ValueOf(stmts[i].value)
    decreases |stmts|
  {
    var acc' := acc[stmts[0].name := ValueOf(stmts[0].value)];
    if i == 0 {
      AssignUntouched(stmts[1..], acc', stmts[0].name);
    } else {
      AssignLast(stmts[1..], acc', i - 1);
    }
  }

  /** Parsing a script gives each name the value of its last statement. */
  lemma ParsedLast(stmts: seq<Stmt>, i: nat)
    requires AllWellFormed(stmts) && i < |stmts|
    requires forall j :: i < j < |stmts| ==> stmts[j].name != stmts[i].name
    ensures Parse(Script(stmts)).Success?
    ensures stmts[i].name in Parse(Script(stmts)).value
    ensures Parse(Script(stmts)).value[stmts[i].name] == ValueOf(stmts[i].value)
  {
    RoundTrip(stmts);
    AssignLast(stmts, map[], i);
  }

  /** With distinct names, parsing a script gives back exactly the map from
      each name to its value. */
  lemma RoundTripDistinct(stmts: seq<Stmt>)
    requires AllWellFormed(stmts)
    requires forall i, j :: 0 <= i < j < |stmts| ==> stmts[i].name != stmts[j].name
    ensures Parse(Script(stmts)).Success?
    ensures forall i :: 0 <= i < |stmts| ==>
      stmts[i].name in Parse(Script(stmts)).value
      && Parse(Script(stmts)).value[stmts[i].name] == ValueOf(stmts[i].value)
    ensures forall k :: k in Parse(Script(stmts)).value <==> exists i :: 0 <= i < |stmts| && stmts[i].name == k
  {
    RoundTrip(stmts);
    AssignDistinct(stmts, map[]);
  }
}
