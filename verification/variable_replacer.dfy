/** `VariableReplacer`: the `{...}` template tokens of query text.

    A token is `{`, one or more characters other than `}`, and the first `}`
    after them; the text is scanned left to right and tokens do not overlap.
    Each token's text is resolved in three shapes, tried in order:
    `base|±hh:mm:ss|format`, then `base|format`, then the whole text as a
    variable name. The two shaped forms apply only when the base variable
    holds a timestamp.

    The shapes are .NET regular expressions without the single-line option:
    `.` does not match a newline, and `$` also matches just before a final
    newline. Both rules are modelled. `\d` is taken to mean an ASCII digit.

    The clocks, the GUID generator, the machine name, environment variables,
    `TimeSpan.Parse` and `DateTime.ToString` are inputs. */
module VariableReplacer {
  import opened Base
  import opened Text
  import opened StateManager

  // --------------------------------------------------------------- scanning

  /** The first index at or after `from` where `s` holds `c`. */
  function IndexOf(s: string, c: char, from: nat): (r: Option<nat>)
    ensures r.Some? ==> from <= r.value < |s| && s[r.value] == c
    ensures r.Some? ==> forall k :: from <= k < r.value ==> s[k] != c
    ensures r.None? ==> forall k :: from <= k < |s| ==> s[k] != c
    decreases |s| - from
  {
    if from >= |s| then None
    else if s[from] == c then Some(from)
    else IndexOf(s, c, from + 1)
  }

  /** A character copied as it is, or the text between a token's braces. */
  datatype Piece = Lit(c: char) | Tok(name: string)

  /** The text a piece stands for in the input. */
  function PieceText(p: Piece): string {
    match p
    case Lit(c) => [c]
    case Tok(n) => "{" + n + "}"
  }

  function Unparse(ps: seq<Piece>): string
    decreases |ps|
  {
    if |ps| == 0 then "" else PieceText(ps[0]) + Unparse(ps[1..])
  }

  predicate WellFormedToken(n: string) {
    |n| >= 1 && '}' !in n
  }

  /** The tokens of `s` and the characters around them, in order. */
  function Scan(s: string): (r: seq<Piece>)
    ensures forall i :: 0 <= i < |r| && r[i].Tok? ==> WellFormedToken(r[i].name)
    decreases |s|
  {
    if |s| == 0 then []
    else
      var close := IndexOf(s, '}', 1);
      if s[0] == '{' && close.Some? && close.value >= 2 then
        [Tok(s[1..close.value])] + Scan(s[close.value + 1..])
      else
        [Lit(s[0])] + Scan(s[1..])
  }

  lemma UnparseCons(p: Piece, ps: seq<Piece>)
    ensures Unparse([p] + ps) == PieceText(p) + Unparse(ps)
  {
    assert ([p] + ps)[1..] == ps;
  }

  /** Scanning loses nothing: the pieces spell out the input. */
  lemma {:induction false} ScanRoundTrip(s: string)
    ensures Unparse(Scan(s)) == s
    decreases |s|
  {
    if |s| > 0 {
      var close := IndexOf(s, '}', 1);
      if s[0] == '{' && close.Some? && close.value >= 2 {
        var j := close.value;
        ScanRoundTrip(s[j + 1..]);
        TokenStepRoundTrip(s, j, Scan(s[j + 1..]));
      } else {
        ScanRoundTrip(s[1..]);
        UnparseCons(Lit(s[0]), Scan(s[1..]));
        assert s == [s[0]] + s[1..];
      }
    }
  }

  lemma TokenStepRoundTrip(s: string, j: nat, rest: seq<Piece>)
    requires 2 <= j < |s| && s[0] == '{' && s[j] == '}'
    requires Unparse(rest) == s[j + 1..]
    ensures Unparse([Tok(s[1..j])] + rest) == s
  {
    UnparseCons(Tok(s[1..j]), rest);
    var head := "{" + s[1..j] + "}";
    assert head == s[..j + 1] by {
      assert forall i :: 0 <= i < |head| ==> head[i] == s[i];
    }
    assert s == s[..j + 1] + s[j + 1..];
  }

  /** An opening brace followed directly by a closing one is not a token,
      and text without an opening brace has no tokens at all. */
  lemma {:induction false} NoBraceNoTokens(s: string)
    requires '{' !in s
    ensures |Scan(s)| == |s|
    ensures forall i :: 0 <= i < |Scan(s)| ==> Scan(s)[i] == Lit(s[i])
    decreases |s|
  {
    if |s| > 0 {
      NoBraceNoTokens(s[1..]);
      var rest := Scan(s[1..]);
      assert Scan(s) == [Lit(s[0])] + rest;
    }
  }

  lemma EmptyBracesAreText(s: string)
    requires |s| >= 2 && s[0] == '{' && s[1] == '}'
    ensures Scan(s)[0] == Lit('{')
  {
  }

  // ---------------------------------------------------- the token shapes

  predicate NoNewline(s: string) { '\n' !in s }

  /** The trailing `(.+)$` of a shape: the rest of the token, one or more
      characters, none of them a newline except one final newline, which is
      left out of the group. */
  function TailGroup(rest: string): (r: Option<string>)
    ensures r.Some? ==> |r.value| >= 1 && NoNewline(r.value)
    ensures r.Some? ==> rest == r.value || rest == r.value + "\n"
  {
    if |rest| >= 1 && NoNewline(rest) then Some(rest)
    else if |rest| >= 2 && rest[|rest| - 1] == '\n' && NoNewline(rest[..|rest| - 1]) then
      assert rest == rest[..|rest| - 1] + "\n";
      Some(rest[..|rest| - 1])
    else None
  }

  /** `[+-]\d{2}:\d{2}:\d{2}`. */
  predicate OffsetShape(o: string) {
    |o| == 9 && (o[0] == '+' || o[0] == '-')
    && IsDigit(o[1]) && IsDigit(o[2]) && o[3] == ':'
    && IsDigit(o[4]) && IsDigit(o[5]) && o[6] == ':'
    && IsDigit(o[7]) && IsDigit(o[8])
  }

  /** The offset shape matches with a base of the first `k` characters. */
  predicate OffsetSplitAt(v: string, k: int) {
    1 <= k && k + 11 <= |v| && NoNewline(v[..k]) && v[k] == '|'
    && OffsetShape(v[k + 1..k + 10]) && v[k + 10] == '|' && TailGroup(v[k + 11..]).Some?
  }

  /** The format shape matches with a base of the first `k` characters. */
  predicate FormatSplitAt(v: string, k: int) {
    1 <= k && k + 1 <= |v| && NoNewline(v[..k]) && v[k] == '|' && TailGroup(v[k + 1..]).Some?
  }

  /** The first position from `k` on, below `bound`, where `p` holds. */
  function FirstWhere(p: nat -> bool, k: nat, bound: nat): (r: Option<nat>)
    ensures r.Some? ==> k <= r.value < bound && p(r.value)
    ensures r.Some? ==> forall m :: k <= m < r.value ==> !p(m)
    ensures r.None? ==> forall m :: k <= m < bound ==> !p(m)
    decreases bound - k
  {
    if k >= bound then None
    else if p(k) then Some(k)
    else FirstWhere(p, k + 1, bound)
  }

  function OffsetSplits(v: string): (p: nat -> bool)
    ensures forall m: nat :: p(m) == OffsetSplitAt(v, m)
  {
    (m: nat) => OffsetSplitAt(v, m)
  }

  function FormatSplits(v: string): (p: nat -> bool)
    ensures forall m: nat :: p(m) == FormatSplitAt(v, m)
  {
    (m: nat) => FormatSplitAt(v, m)
  }

  /** The lazy `(.+?)` base: the shortest base, from `k` on, that lets the
      offset shape match. */
  function FirstOffsetSplit(v: string, k: nat): (r: Option<nat>)
    requires k >= 1
    ensures r.Some? ==> k <= r.value && OffsetSplitAt(v, r.value)
    ensures r.Some? ==> forall m :: k <= m < r.value ==> !OffsetSplitAt(v, m)
    ensures r.None? ==> forall m :: k <= m ==> !OffsetSplitAt(v, m)
  {
    FirstWhere(OffsetSplits(v), k, |v|)
  }

  function FirstFormatSplit(v: string, k: nat): (r: Option<nat>)
    requires k >= 1
    ensures r.Some? ==> k <= r.value && FormatSplitAt(v, r.value)
    ensures r.Some? ==> forall m :: k <= m < r.value ==> !FormatSplitAt(v, m)
    ensures r.None? ==> forall m :: k <= m ==> !FormatSplitAt(v, m)
  {
    FirstWhere(FormatSplits(v), k, |v|)
  }

  datatype OffsetParts = OffsetParts(base: string, offset: string, format: string)
  datatype FormatParts = FormatParts(base: string, format: string)

  /** The offset shape's groups, when it matches. */
  function MatchOffset(v: string): (r: Option<OffsetParts>)
    ensures r.Some? <==> exists k :: OffsetSplitAt(v, k)
    ensures r.Some? ==> |r.value.base| >= 1 && OffsetShape(r.value.offset) && |r.value.format| >= 1
  {
    match FirstOffsetSplit(v, 1)
    case None => None
    case Some(k) => Some(OffsetParts(v[..k], v[k + 1..k + 10], TailGroup(v[k + 11..]).value))
  }

  /** The format shape's groups, when it matches. */
  function MatchFormat(v: string): (r: Option<FormatParts>)
    ensures r.Some? <==> exists k :: FormatSplitAt(v, k)
    ensures r.Some? ==> |r.value.base| >= 1 && |r.value.format| >= 1
  {
    match FirstFormatSplit(v, 1)
    case None => None
    case Some(k) => Some(FormatParts(v[..k], TailGroup(v[k + 1..]).value))
  }

  /** A newline-free `base|format` whose base holds no bar splits at that
      bar. */
  lemma FormatSplitsAtFirstBar(b: string, f: string)
    requires |b| >= 1 && '|' !in b && NoNewline(b)
    requires |f| >= 1 && NoNewline(f)
    ensures MatchFormat(b + "|" + f) == Some(FormatParts(b, f))
  {
    var v := b + "|" + f;
    assert v[..|b|] == b && v[|b| + 1..] == f;
    assert FormatSplitAt(v, |b|);
    forall m | 1 <= m < |b| ensures !FormatSplitAt(v, m) {
      assert v[m] == b[m];
    }
  }

  /** A newline-free `base|±hh:mm:ss|format` whose base holds no bar matches
      the offset shape with exactly those groups. */
  lemma OffsetSplitsAtFirstBar(b: string, o: string, f: string)
    requires |b| >= 1 && '|' !in b && NoNewline(b)
    requires OffsetShape(o)
    requires |f| >= 1 && NoNewline(f)
    ensures MatchOffset(b + "|" + o + "|" + f) == Some(OffsetParts(b, o, f))
  {
    var v := b + "|" + o + "|" + f;
    var k := |b|;
    OffsetJoinParts(b, o, f);
    assert TailGroup(f) == Some(f);
    assert OffsetSplitAt(v, k);
    forall m | 1 <= m < k ensures !OffsetSplitAt(v, m) {
      assert v[m] == b[m];
    }
    assert FirstOffsetSplit(v, 1) == Some(k);
  }

  /** Where the pieces of `base|offset|format` sit in the joined text. */
  lemma OffsetJoinParts(b: string, o: string, f: string)
    requires |o| == 9
    ensures var v := b + "|" + o + "|" + f; var k := |b|;
      && |v| == k + 11 + |f| && v[..k] == b && v[k] == '|' && v[k + 1..k + 10] == o
      && v[k + 10] == '|' && v[k + 11..] == f
      && (forall m :: 0 <= m < k ==> v[m] == b[m])
  {
  }

  /** A token text with no bar matches neither shape. */
  lemma NoBarNoShape(v: string)
    requires '|' !in v
    ensures MatchOffset(v).None? && MatchFormat(v).None?
  {
  }

  // ------------------------------------------------------------- variables

  /** What `GetBaseVariableValue` returns: a `DateTime`, an object whose
      string form is known (a GUID, the machine name, an environment
      variable's value), or `null`. */
  datatype Value = Date(t: Time) | Text(s: string) | Null

  /** The inputs a replacement reads. `guid(i)` is the GUID drawn for the
      `i`-th token of the text. */
  datatype Inputs = Inputs(
    now: Time,
    utcNow: Time,
    guid: nat -> string,
    machineName: string,
    env: string -> Option<string>,
    showTime: Time -> string,
    formatTime: (Time, string) -> Result<string>,
    parseOffset: string -> Result<int>)

  /** The local date of a timestamp: the time of day truncated away. */
  function DateOf(t: Time): (r: Time)
    requires t >= 0
    ensures 0 <= r <= t && t - r < TicksPerDay && r % TicksPerDay == 0
  {
    t - t % TicksPerDay
  }

  /** `GetBaseVariableValue`. */
  function BaseValue(name: string, queryName: string, st: QueryState, io: Inputs, ordinal: nat): (r: Value)
    requires IsDateTime(io.now)
    ensures name == "LastRun" ==> (r.Date? <==> queryName in st.lastRunTimes)
    ensures name == "LastRun" && r.Date? ==> r.t == st.lastRunTimes[queryName]
    ensures StartsWith(name, "Env:") ==>
      r == match io.env(name[4..]) case Some(x) => Text(x) case None => Null
    ensures name !in {"DateTimeNow", "UtcNow", "DateNow", "LastRun", "Guid", "MachineName"} && !StartsWith(name, "Env:") ==> r == Null
  {
    FixedNamesAreNotEnv();
    if name == "DateTimeNow" then Date(io.now)
    else if name == "UtcNow" then Date(io.utcNow)
    else if name == "DateNow" then Date(DateOf(io.now))
    else if name == "LastRun" then
      match GetLastRun(st, queryName)
      case Some(t) => Date(t)
      case None => Null
    else if name == "Guid" then Text(io.guid(ordinal))
    else if name == "MachineName" then Text(io.machineName)
    else if StartsWith(name, "Env:") then
      match io.env(name[4..])
      case Some(x) => Text(x)
      case None => Null
    else Null
  }

  lemma FixedNamesAreNotEnv()
    ensures forall n :: n in {"DateTimeNow", "UtcNow", "DateNow", "LastRun", "Guid", "MachineName"} ==> !StartsWith(n, "Env:")
  {
    forall n | n in {"DateTimeNow", "UtcNow", "DateNow", "LastRun", "Guid", "MachineName"} ensures !StartsWith(n, "Env:") {
      assert n[0] != 'E';
    }
  }

  /** `?.ToString() ?? string.Empty`. */
  function Render(v: Value, io: Inputs): (r: string)
    ensures v.Null? ==> r == ""
    ensures v.Text? ==> r == v.s
  {
    match v
    case Date(t) => io.showTime(t)
    case Text(s) => s
    case Null => ""
  }

  /** The offset shape: the offset is parsed as soon as the shape matches
      (and may raise) even when the base turns out not to be a timestamp;
      adding it may leave the `DateTime` range and raise. */
  function OffsetForm(v: string, queryName: string, st: QueryState, io: Inputs, ordinal: nat): (r: Result<Option<string>>)
    requires IsDateTime(io.now)
    ensures MatchOffset(v).None? ==> r == Ok(None)
    ensures MatchOffset(v).Some? && io.parseOffset(MatchOffset(v).value.offset).Err? ==> r.Err?
    ensures r.Ok? && r.value.Some? ==> BaseValue(MatchOffset(v).value.base, queryName, st, io, ordinal).Date?
  {
    match MatchOffset(v)
    case None => Ok(None)
    case Some(p) =>
      var offset :- io.parseOffset(p.offset);
      match BaseValue(p.base, queryName, st, io, ordinal)
      case Date(t) =>
        var shifted :- AddTicks(t, offset);
        var text :- io.formatTime(shifted, p.format);
        Ok(Some(text))
      case _ => Ok(None)
  }

  function FormatForm(v: string, queryName: string, st: QueryState, io: Inputs, ordinal: nat): (r: Result<Option<string>>)
    requires IsDateTime(io.now)
    ensures MatchFormat(v).None? ==> r == Ok(None)
    ensures r.Ok? && r.value.Some? ==> BaseValue(MatchFormat(v).value.base, queryName, st, io, ordinal).Date?
    ensures r.Err? ==> MatchFormat(v).Some?
  {
    match MatchFormat(v)
    case None => Ok(None)
    case Some(p) =>
      match BaseValue(p.base, queryName, st, io, ordinal)
      case Date(t) =>
        var text :- io.formatTime(t, p.format);
        Ok(Some(text))
      case _ => Ok(None)
  }

  /** `ReplaceVariable`: the first shape that applies decides; when neither
      shaped form applies, the whole token text is looked up. */
  function ReplaceVariable(v: string, queryName: string, st: QueryState, io: Inputs, ordinal: nat): (r: Result<string>)
    requires IsDateTime(io.now)
    ensures OffsetForm(v, queryName, st, io, ordinal) == Ok(None) && FormatForm(v, queryName, st, io, ordinal) == Ok(None) ==>
      r == Ok(Render(BaseValue(v, queryName, st, io, ordinal), io))
    ensures OffsetForm(v, queryName, st, io, ordinal).Err? ==> r == OffsetForm(v, queryName, st, io, ordinal).PropagateFailure()
  {
    var shifted :- OffsetForm(v, queryName, st, io, ordinal);
    if shifted.Some? then Ok(shifted.value)
    else
      var formatted :- FormatForm(v, queryName, st, io, ordinal);
      if formatted.Some? then Ok(formatted.value)
      else Ok(Render(BaseValue(v, queryName, st, io, ordinal), io))
  }

  // ------------------------------------------------------------ replacing

  function TokenCount(ps: seq<Piece>): nat {
    if |ps| == 0 then 0 else (if ps[0].Tok? then 1 else 0) + TokenCount(ps[1..])
  }

  /** Two results in sequence: the first error wins, otherwise the texts
      are joined. */
  function Then(a: Result<string>, b: Result<string>): (r: Result<string>)
    ensures r.Ok? <==> a.Ok? && b.Ok?
    ensures r.Ok? ==> r.value == a.value + b.value
    ensures a.Err? ==> r == a
    ensures a.Ok? && b.Err? ==> r == b
  {
    match a
    case Err(_) => a
    case Ok(x) =>
      match b
      case Err(_) => b
      case Ok(y) => Ok(x + y)
  }

  /** The regular-expression replacement: pieces are handled left to right,
      a literal is copied and a token becomes what the callback `resolve`
      makes of its name; the first token that raises aborts the whole
      replacement. `ordinal` numbers the tokens. */
  function Substitute(ps: seq<Piece>, resolve: (string, nat) -> Result<string>, ordinal: nat): (r: Result<string>)
    ensures TokenCount(ps) == 0 ==> r == Ok(Unparse(ps))
    decreases |ps|
  {
    if |ps| == 0 then Ok("")
    else
      var head := match ps[0] case Lit(c) => Ok([c]) case Tok(n) => resolve(n, ordinal);
      Then(head, Substitute(ps[1..], resolve, if ps[0].Tok? then ordinal + 1 else ordinal))
  }

  /** The callback `Replace` hands to the substitution: `ReplaceVariable`
      for one query, state and set of inputs. */
  function TokenResolver(queryName: string, st: QueryState, io: Inputs): (string, nat) -> Result<string>
    requires IsDateTime(io.now)
  {
    (n: string, o: nat) => ReplaceVariable(n, queryName, st, io, o)
  }

  /** `Replace`: every token of the text replaced by its resolution. */
  function Replace(input: string, queryName: string, st: QueryState, io: Inputs): (r: Result<string>)
    requires IsDateTime(io.now)
    ensures TokenCount(Scan(input)) == 0 ==> r == Ok(input)
  {
    ScanRoundTrip(input);
    Substitute(Scan(input), TokenResolver(queryName, st, io), 0)
  }

  /** Text with no opening brace comes back unchanged. */
  lemma NoBraceUnchanged(input: string, queryName: string, st: QueryState, io: Inputs)
    requires IsDateTime(io.now)
    requires '{' !in input
    ensures Replace(input, queryName, st, io) == Ok(input)
  {
    NoBraceNoTokens(input);
    TokenCountOfLiterals(Scan(input));
  }

  lemma {:induction false} TokenCountOfLiterals(ps: seq<Piece>)
    requires forall i :: 0 <= i < |ps| ==> ps[i].Lit?
    ensures TokenCount(ps) == 0
    decreases |ps|
  {
    if |ps| > 0 {
      TokenCountOfLiterals(ps[1..]);
    }
  }

  /** A literal piece is copied. */
  lemma SubstituteLiteral(c: char, resolve: (string, nat) -> Result<string>, ordinal: nat)
    ensures Substitute([Lit(c)], resolve, ordinal) == Ok([c])
  {
    assert [Lit(c)][1..] == [];
    assert [c] + "" == [c];
  }

  /** A token piece becomes its resolution, or raises what the resolution
      raises. */
  lemma SubstituteToken(n: string, resolve: (string, nat) -> Result<string>, ordinal: nat)
    ensures Substitute([Tok(n)], resolve, ordinal) == resolve(n, ordinal)
  {
    assert [Tok(n)][1..] == [];
    ThenUnitRight(resolve(n, ordinal));
  }

  /** Substitution works piece by piece, left to right: the pieces of a
      concatenation are resolved in turn, the second part numbering its
      tokens after those of the first, and the first error aborts. */
  lemma {:induction false} SubstituteAppend(ps1: seq<Piece>, ps2: seq<Piece>, resolve: (string, nat) -> Result<string>, ordinal: nat)
    ensures Substitute(ps1 + ps2, resolve, ordinal) ==
            Then(Substitute(ps1, resolve, ordinal), Substitute(ps2, resolve, ordinal + TokenCount(ps1)))
    decreases |ps1|
  {
    if |ps1| == 0 {
      assert ps1 + ps2 == ps2;
      ThenUnitLeft(Substitute(ps2, resolve, ordinal));
    } else {
      var next := if ps1[0].Tok? then ordinal + 1 else ordinal;
      var head := match ps1[0] case Lit(c) => Ok([c]) case Tok(n) => resolve(n, ordinal);
      assert (ps1 + ps2)[0] == ps1[0];
      assert (ps1 + ps2)[1..] == ps1[1..] + ps2;
      SubstituteAppend(ps1[1..], ps2, resolve, next);
      ThenAssociative(head, Substitute(ps1[1..], resolve, next), Substitute(ps2, resolve, next + TokenCount(ps1[1..])));
    }
  }

  lemma ThenUnitLeft(b: Result<string>)
    ensures Then(Ok(""), b) == b
  {
    if b.Ok? { assert "" + b.value == b.value; }
  }

  lemma ThenUnitRight(a: Result<string>)
    ensures Then(a, Ok("")) == a
  {
    if a.Ok? { assert a.value + "" == a.value; }
  }

  lemma ThenAssociative(a: Result<string>, b: Result<string>, c: Result<string>)
    ensures Then(a, Then(b, c)) == Then(Then(a, b), c)
  {
    if a.Ok? && b.Ok? && c.Ok? {
      assert a.value + (b.value + c.value) == (a.value + b.value) + c.value;
    }
  }

  /** The pieces of a text without tokens: one literal per character. */
  function Literals(s: string): (r: seq<Piece>)
    ensures |r| == |s| && forall i :: 0 <= i < |s| ==> r[i] == Lit(s[i])
  {
    seq(|s|, i requires 0 <= i < |s| => Lit(s[i]))
  }

  /** Text before the first opening brace is scanned as literals. */
  lemma {:induction false} ScanAfterPlain(pre: string, rest: string)
    requires '{' !in pre
    ensures Scan(pre + rest) == Literals(pre) + Scan(rest)
    decreases |pre|
  {
    if |pre| > 0 {
      var s := pre + rest;
      assert s[0] == pre[0] && s[1..] == pre[1..] + rest;
      ScanAfterPlain(pre[1..], rest);
      assert Literals(pre) == [Lit(pre[0])] + Literals(pre[1..]);
    } else {
      assert pre + rest == rest;
    }
  }

  /** A well-formed token at the start of the text is scanned as one token. */
  lemma ScanToken(n: string, post: string)
    requires WellFormedToken(n)
    ensures Scan("{" + n + "}" + post) == [Tok(n)] + Scan(post)
  {
    var s := "{" + n + "}" + post;
    var j := |n| + 1;
    assert s[j] == '}';
    forall k | 1 <= k < j ensures s[k] != '}' {
      assert s[k] == n[k - 1];
    }
    assert IndexOf(s, '}', 1) == Some(j);
    assert s[1..j] == n;
    assert s[j + 1..] == post;
  }

  /** Literal pieces spell out their characters. */
  lemma {:induction false} UnparseLiterals(s: string)
    ensures Unparse(Literals(s)) == s
    decreases |s|
  {
    if |s| > 0 {
      assert Literals(s) == [Lit(s[0])] + Literals(s[1..]);
      UnparseCons(Lit(s[0]), Literals(s[1..]));
      UnparseLiterals(s[1..]);
      assert s == [s[0]] + s[1..];
    }
  }

  /** Literal pieces are copied by substitution, whatever the callback. */
  lemma LiteralsSubstitute(pre: string, resolve: (string, nat) -> Result<string>, ordinal: nat)
    ensures TokenCount(Literals(pre)) == 0
    ensures Substitute(Literals(pre), resolve, ordinal) == Ok(pre)
  {
    TokenCountOfLiterals(Literals(pre));
    UnparseLiterals(pre);
  }

  /** `Replace` on a text whose first token is `{n}`: the text before it is
      copied, the token becomes its resolution (the first GUID drawn), and
      the rest of the text is replaced with the following ordinals; the first
      error aborts. */
  lemma ReplaceFirstToken(pre: string, n: string, post: string, queryName: string, st: QueryState, io: Inputs)
    requires IsDateTime(io.now)
    requires '{' !in pre && WellFormedToken(n)
    ensures Replace(pre + "{" + n + "}" + post, queryName, st, io) ==
            Then(Ok(pre), Then(ReplaceVariable(n, queryName, st, io, 0), Substitute(Scan(post), TokenResolver(queryName, st, io), 1)))
  {
    var resolve := TokenResolver(queryName, st, io);
    var tail := "{" + n + "}" + post;
    assert pre + "{" + n + "}" + post == pre + tail;
    ScanAfterPlain(pre, tail);
    ScanToken(n, post);
    LiteralsThenToken(pre, n, Scan(post), resolve);
    assert resolve(n, 0) == ReplaceVariable(n, queryName, st, io, 0);
  }

  /** Literals, then a token, then any pieces. */
  lemma LiteralsThenToken(pre: string, n: string, ps: seq<Piece>, resolve: (string, nat) -> Result<string>)
    ensures Substitute(Literals(pre) + ([Tok(n)] + ps), resolve, 0) ==
            Then(Ok(pre), Then(resolve(n, 0), Substitute(ps, resolve, 1)))
  {
    LiteralsSubstitute(pre, resolve, 0);
    SubstituteAppend(Literals(pre), [Tok(n)] + ps, resolve, 0);
    assert ([Tok(n)] + ps)[0] == Tok(n);
    assert ([Tok(n)] + ps)[1..] == ps;
  }

  // ------------------------------------------------------- token behaviour

  /** An unknown plain name resolves to the empty string. */
  lemma UnknownNameIsEmpty(v: string, queryName: string, st: QueryState, io: Inputs, ordinal: nat)
    requires IsDateTime(io.now)
    requires '|' !in v
    requires v !in {"DateTimeNow", "UtcNow", "DateNow", "LastRun", "Guid", "MachineName"} && !StartsWith(v, "Env:")
    ensures ReplaceVariable(v, queryName, st, io, ordinal) == Ok("")
  {
    NoBarNoShape(v);
  }

  /** `base|format` applies the format to a timestamp base; for any other
      base, the whole text `base|format` is looked up instead, so
      `MachineName|x` resolves to the empty string. */
  lemma FormatFormBehaviour(b: string, f: string, queryName: string, st: QueryState, io: Inputs, ordinal: nat)
    requires IsDateTime(io.now)
    requires |b| >= 1 && '|' !in b && NoNewline(b)
    requires |f| >= 1 && NoNewline(f) && '|' !in f
    ensures BaseValue(b, queryName, st, io, ordinal).Date? ==>
      ReplaceVariable(b + "|" + f, queryName, st, io, ordinal) ==
      io.formatTime(BaseValue(b, queryName, st, io, ordinal).t, f)
    ensures !BaseValue(b, queryName, st, io, ordinal).Date? ==>
      ReplaceVariable(b + "|" + f, queryName, st, io, ordinal) ==
      Ok(Render(BaseValue(b + "|" + f, queryName, st, io, ordinal), io))
  {
    var v := b + "|" + f;
    FormatSplitsAtFirstBar(b, f);
    forall i | 0 <= i < |v| && i != |b| ensures v[i] != '|' {
      if i < |b| { assert v[i] == b[i]; }
      else { assert v[i] == f[i - |b| - 1]; }
    }
    SingleBarNoOffset(v, |b|);
  }

  /** The offset shape needs two bars ten characters apart. */
  lemma SingleBarNoOffset(v: string, j: int)
    requires forall i :: 0 <= i < |v| && i != j ==> v[i] != '|'
    ensures MatchOffset(v).None?
  {
    forall k ensures !OffsetSplitAt(v, k) {
      if 1 <= k && k + 11 <= |v| && v[k] == '|' {
        assert v[k + 10] != '|';
      }
    }
  }

  /** The example of the offset form: a stored last run, an offset that
      parses to `d` ticks and stays in range, and a format. */
  lemma OffsetFormBehaviour(b: string, o: string, f: string, queryName: string, st: QueryState, io: Inputs, ordinal: nat)
    requires IsDateTime(io.now)
    requires |b| >= 1 && '|' !in b && NoNewline(b)
    requires OffsetShape(o)
    requires |f| >= 1 && NoNewline(f)
    requires BaseValue(b, queryName, st, io, ordinal).Date?
    requires io.parseOffset(o).Ok?
    requires IsDateTime(BaseValue(b, queryName, st, io, ordinal).t + io.parseOffset(o).value)
    ensures ReplaceVariable(b + "|" + o + "|" + f, queryName, st, io, ordinal) ==
            io.formatTime(BaseValue(b, queryName, st, io, ordinal).t + io.parseOffset(o).value, f)
  {
    var v := b + "|" + o + "|" + f;
    OffsetSplitsAtFirstBar(b, o, f);
    var shifted := BaseValue(b, queryName, st, io, ordinal).t + io.parseOffset(o).value;
    assert AddTicks(BaseValue(b, queryName, st, io, ordinal).t, io.parseOffset(o).value) == Ok(shifted);
    match io.formatTime(shifted, f)
    case Ok(text) =>
      assert OffsetForm(v, queryName, st, io, ordinal) == Ok(Some(text));
    case Err(e) =>
      assert OffsetForm(v, queryName, st, io, ordinal) == Err(e);
  }

  /** A query that never ran renders `{LastRun}` and `{LastRun|fmt}` as the
      empty string (unless `fmt` has the offset shape and its offset does
      not parse, which raises). */
  lemma NeverRunLastRunIsEmpty(f: string, queryName: string, st: QueryState, io: Inputs, ordinal: nat)
    requires IsDateTime(io.now)
    requires queryName !in st.lastRunTimes
    requires |f| >= 1 && NoNewline(f)
    ensures ReplaceVariable("LastRun", queryName, st, io, ordinal) == Ok("")
    ensures ReplaceVariable("LastRun|" + f, queryName, st, io, ordinal).Ok? ==>
            ReplaceVariable("LastRun|" + f, queryName, st, io, ordinal) == Ok("")
    ensures '|' !in f ==> ReplaceVariable("LastRun|" + f, queryName, st, io, ordinal) == Ok("")
  {
    if '|' !in f {
      PlainFormatHasNoOffset(f);
    }
    NoBarNoShape("LastRun");
    LastRunPrefixIsNull("LastRun", queryName, st, io, ordinal);
    var v := "LastRun" + "|" + f;
    assert "LastRun|" + f == v;
    assert v[..7] == "LastRun";
    NeverRunOffsetFormIsNone(v, queryName, st, io, ordinal);
    NeverRunFormatFormIsNone(f, queryName, st, io, ordinal);
    LastRunPrefixIsNull(v, queryName, st, io, ordinal);
    if OffsetForm(v, queryName, st, io, ordinal).Ok? {
      assert ReplaceVariable(v, queryName, st, io, ordinal) == Ok(Render(Null, io));
    }
  }

  /** `LastRun|fmt` with no bar in `fmt` cannot have the offset shape. */
  lemma PlainFormatHasNoOffset(f: string)
    requires '|' !in f
    ensures MatchOffset("LastRun|" + f).None?
  {
    var v := "LastRun|" + f;
    forall i | 0 <= i < |v| && i != 7 ensures v[i] != '|' {
      if i >= 8 { assert v[i] == f[i - 8]; }
    }
    SingleBarNoOffset(v, 7);
  }

  /** For a query that never ran, `LastRun|fmt` has the format shape with
      a base that is not a timestamp, so the shape yields nothing. */
  lemma NeverRunFormatFormIsNone(f: string, queryName: string, st: QueryState, io: Inputs, ordinal: nat)
    requires IsDateTime(io.now)
    requires queryName !in st.lastRunTimes
    requires |f| >= 1 && NoNewline(f)
    ensures FormatForm("LastRun" + "|" + f, queryName, st, io, ordinal) == Ok(None)
  {
    FormatSplitsAtFirstBar("LastRun", f);
    LastRunPrefixIsNull("LastRun", queryName, st, io, ordinal);
  }

  /** For a query that never ran, the offset shape of a text that begins
      with `LastRun` yields nothing, or raises on its offset. */
  lemma NeverRunOffsetFormIsNone(v: string, queryName: string, st: QueryState, io: Inputs, ordinal: nat)
    requires IsDateTime(io.now)
    requires queryName !in st.lastRunTimes
    requires |v| >= 7 && v[..7] == "LastRun"
    ensures OffsetForm(v, queryName, st, io, ordinal).Ok? ==> OffsetForm(v, queryName, st, io, ordinal) == Ok(None)
  {
    match FirstOffsetSplit(v, 1)
    case None =>
    case Some(k) =>
      assert k >= 7 by {
        assert forall i :: 0 <= i < 7 ==> v[i] == "LastRun"[i] && v[i] != '|';
      }
      assert v[..k][..7] == "LastRun";
      LastRunPrefixIsNull(v[..k], queryName, st, io, ordinal);
  }

  /** Every text that begins with `LastRun` is `null` for a query that
      never ran: `LastRun` itself, and longer texts, which are unknown names. */
  lemma LastRunPrefixIsNull(p: string, queryName: string, st: QueryState, io: Inputs, ordinal: nat)
    requires IsDateTime(io.now)
    requires queryName !in st.lastRunTimes
    requires |p| >= 7 && p[..7] == "LastRun"
    ensures BaseValue(p, queryName, st, io, ordinal) == Null
  {
    assert p[0] == 'L';
    assert p != "MachineName" && p != "DateTimeNow" && p != "DateNow" && p != "UtcNow" && p != "Guid";
  }

  /** In the fallback lookup the text after `Env:` is the variable name, bars
      and all: `{Env:X|fmt}` reads the variable `X|fmt`. */
  lemma EnvNameIncludesFormat(queryName: string, st: QueryState, io: Inputs, ordinal: nat)
    requires IsDateTime(io.now)
    ensures ReplaceVariable("Env:X|fmt", queryName, st, io, ordinal) ==
            Ok(match io.env("X|fmt") case Some(x) => x case None => "")
  {
    FormatFormBehaviour("Env:X", "fmt", queryName, st, io, ordinal);
    assert "Env:X|fmt" == "Env:X" + "|" + "fmt";
    assert StartsWith("Env:X", "Env:");
    assert StartsWith("Env:X|fmt", "Env:");
    assert "Env:X|fmt"[4..] == "X|fmt";
  }
}
