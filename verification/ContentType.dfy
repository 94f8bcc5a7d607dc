/** The content-type header: its grammar, the parser, and the two printers. */
module ContentTypes {

  datatype Option<+T> = None | Some(value: T)

  // ---------------------------------------------------------------- characters

  predicate IsLetter(c: char) {
    'A' <= c <= 'Z' || 'a' <= c <= 'z'
  }

  /** `\w` in the classic locale. */
  predicate IsWord(c: char) {
    IsLetter(c) || '0' <= c <= '9' || c == '_'
  }

  predicate IsTypeChar(c: char) {
    IsWord(c) || c in "!#$&-^"
  }

  predicate IsParamChar(c: char) {
    IsWord(c) || c in "!#$%^&-~{}"
  }

  /** `\s`: space, and the control characters from tab to carriage return. */
  predicate IsSpace(c: char) {
    c == ' ' || '\t' <= c <= '\r'
  }

  function Lower(c: char): char {
    if 'A' <= c <= 'Z' then c + ('a' - 'A') else c
  }

  /** `boost::iequals`. */
  predicate IEquals(a: string, b: string) {
    |a| == |b| && forall i | 0 <= i < |a| :: Lower(a[i]) == Lower(b[i])
  }

  predicate All(p: char -> bool, s: string) {
    forall i | 0 <= i < |s| :: p(s[i])
  }

  // ---------------------------------------------------------------- the grammar

  const CHARSET := "charset="
  const BOUNDARY := "boundary="
  const MAX_NAME: nat := 127
  const MAX_BOUNDARY: nat := 70

  /** `;`, spaces, the keyword in any case, and the value. */
  datatype Param = Param(space: string, keyword: string, value: string)

  datatype Parts = Parts(main: string, sub: string, charset: Option<Param>, boundary: Option<Param>, tail: string)

  predicate NameOk(s: string) {
    1 <= |s| <= MAX_NAME && All(IsTypeChar, s)
  }

  predicate ParamOk(p: Param, keyword: string, limit: nat) {
    All(IsSpace, p.space) && IEquals(p.keyword, keyword) && 1 <= |p.value| <= limit && All(IsParamChar, p.value)
  }

  /** What the regular expression accepts, group by group. */
  predicate WellFormed(p: Parts) {
    && NameOk(p.main) && NameOk(p.sub)
    && (p.charset.Some? ==> ParamOk(p.charset.value, CHARSET, MAX_NAME))
    && (p.boundary.Some? ==> ParamOk(p.boundary.value, BOUNDARY, MAX_BOUNDARY))
    && All(IsSpace, p.tail)
  }

  /** A parameter, if it is there, in front of `rest`. */
  function RenderParam(p: Option<Param>, rest: string): string {
    if p.None? then rest else ";" + (p.value.space + (p.value.keyword + (p.value.value + rest)))
  }

  function Render(p: Parts): string {
    p.main + ("/" + (p.sub + RenderParam(p.charset, RenderParam(p.boundary, p.tail))))
  }

  // ---------------------------------------------------------------- the parser

  /** Where the characters of the class that begin at `i` end. */
  function RunFrom(p: char -> bool, s: string, i: nat): (n: nat)
    requires i <= |s|
    ensures i <= n <= |s| && forall k | i <= k < n :: p(s[k])
    ensures n < |s| ==> !p(s[n])
    decreases |s| - i
  {
    if i < |s| && p(s[i]) then RunFrom(p, s, i + 1) else i
  }

  /** How many characters at the start of `s` are in the class. */
  function Run(p: char -> bool, s: string): (n: nat)
    ensures n <= |s| && All(p, s[..n])
    ensures n < |s| ==> !p(s[n])
  {
    RunFrom(p, s, 0)
  }

  datatype Taken = Taken(keyword: string, value: string, rest: string)

  /** The keyword and a value at the start of `s`. */
  function TakeValue(s: string, keyword: string, limit: nat): Option<Taken> {
    if |s| < |keyword| || !IEquals(s[..|keyword|], keyword) then None
    else
      var rest := s[|keyword|..];
      var m := Run(IsParamChar, rest);
      if 1 <= m <= limit then Some(Taken(s[..|keyword|], rest[..m], rest[m..])) else None
  }

  /** A parameter at the start of `s`, and what follows it. */
  function TakeParam(s: string, keyword: string, limit: nat): (r: (Option<Param>, string)) {
    if s == [] || s[0] != ';' then (None, s)
    else
      var n := Run(IsSpace, s[1..]);
      var v := TakeValue(s[1..][n..], keyword, limit);
      if v.None? then (None, s)
      else (Some(Param(s[1..][..n], v.value.keyword, v.value.value)), v.value.rest)
  }

  function TakeParams(s: string): (Option<Param>, Option<Param>, string) {
    var (c, after) := TakeParam(s, CHARSET, MAX_NAME);
    var (b, tail) := TakeParam(after, BOUNDARY, MAX_BOUNDARY);
    (c, b, tail)
  }

  /** The string cut after `n` characters, at the slash, and after `m` more. */
  function PartsAt(s: string, n: nat, m: nat): Parts
    requires n < |s| && m <= |s[n + 1..]|
  {
    var (c, b, tail) := TakeParams(s[n + 1..][m..]);
    Parts(s[..n], s[n + 1..][..m], c, b, tail)
  }

  function TakeCut(s: string, n: nat, m: nat): Option<Parts>
    requires n < |s| && m <= |s[n + 1..]|
  {
    var p := PartsAt(s, n, m);
    if 1 <= n <= MAX_NAME && 1 <= m <= MAX_NAME && All(IsSpace, p.tail) then Some(p) else None
  }

  function TakeParts(s: string): Option<Parts> {
    var n := Run(IsTypeChar, s);
    if n == |s| || s[n] != '/' then None else TakeCut(s, n, Run(IsTypeChar, s[n + 1..]))
  }

  // ---------------------------------------------------------------- it takes what it should

  /** A run of the class followed by something else, or nothing, is taken whole. */
  lemma RunOf(p: char -> bool, a: string, b: string)
    requires All(p, a) && (b != [] ==> !p(b[0]))
    ensures Run(p, a + b) == |a| && (a + b)[..|a|] == a && (a + b)[|a|..] == b
  {
    assert forall i | 0 <= i < |a| :: (a + b)[i] == a[i];
    assert b != [] ==> (a + b)[|a|] == b[0];
    assert forall i | 0 <= i < Run(p, a + b) :: (a + b)[..Run(p, a + b)][i] == (a + b)[i];
  }

  /** What can follow a value: the next parameter, spaces, or the end. */
  predicate Stops(s: string) {
    s == [] || s[0] == ';' || IsSpace(s[0])
  }

  lemma TakesValue(p: Param, keyword: string, limit: nat, rest: string)
    requires ParamOk(p, keyword, limit) && Stops(rest)
    ensures TakeValue(p.keyword + (p.value + rest), keyword, limit) == Some(Taken(p.keyword, p.value, rest))
  {
    var s := p.keyword + (p.value + rest);
    assert s[..|keyword|] == p.keyword && s[|keyword|..] == p.value + rest;
    RunOf(IsParamChar, p.value, rest);
  }

  /** No space begins with a letter of either keyword. */
  lemma KeywordStarts(k: string, keyword: string)
    requires IEquals(k, keyword) && (keyword == CHARSET || keyword == BOUNDARY)
    ensures k != [] && !IsSpace(k[0]) && (Lower(k[0]) == 'c' <==> keyword == CHARSET)
  {
    assert Lower(k[0]) == Lower(keyword[0]);
  }

  lemma TakesParam(p: Param, keyword: string, limit: nat, rest: string)
    requires ParamOk(p, keyword, limit) && Stops(rest) && (keyword == CHARSET || keyword == BOUNDARY)
    ensures TakeParam(RenderParam(Some(p), rest), keyword, limit) == (Some(p), rest)
  {
    var after := p.keyword + (p.value + rest);
    KeywordStarts(p.keyword, keyword);
    RunOf(IsSpace, p.space, after);
    assert (";" + (p.space + after))[1..] == p.space + after;
    TakesValue(p, keyword, limit, rest);
  }

  /** The keyword of the boundary is not that of the charset. */
  lemma SkipsBoundary(p: Param, rest: string)
    requires ParamOk(p, BOUNDARY, MAX_BOUNDARY)
    ensures TakeParam(RenderParam(Some(p), rest), CHARSET, MAX_NAME).0 == None
  {
    var after := p.keyword + (p.value + rest);
    KeywordStarts(p.keyword, BOUNDARY);
    RunOf(IsSpace, p.space, after);
    assert (";" + (p.space + after))[1..] == p.space + after;
    assert after[0] == p.keyword[0];
    if IEquals(after[..|CHARSET|], CHARSET) {
      KeywordStarts(after[..|CHARSET|], CHARSET);
    }
  }

  lemma TakesParams(c: Option<Param>, b: Option<Param>, tail: string)
    requires c.Some? ==> ParamOk(c.value, CHARSET, MAX_NAME)
    requires b.Some? ==> ParamOk(b.value, BOUNDARY, MAX_BOUNDARY)
    requires All(IsSpace, tail)
    ensures TakeParams(RenderParam(c, RenderParam(b, tail))) == (c, b, tail)
  {
    var after := RenderParam(b, tail);
    if c.Some? {
      TakesParam(c.value, CHARSET, MAX_NAME, after);
    } else if b.Some? {
      SkipsBoundary(b.value, tail);
    }
    if b.Some? {
      TakesParam(b.value, BOUNDARY, MAX_BOUNDARY, tail);
    }
  }

  /** A name in front of a slash is taken whole. */
  lemma RunsToSlash(name: string, rest: string)
    requires All(IsTypeChar, name)
    ensures var s := name + ("/" + rest);
            Run(IsTypeChar, s) == |name| && s[..|name|] == name && s[|name|] == '/' && s[|name| + 1..] == rest
  {
    RunOf(IsTypeChar, name, "/" + rest);
  }

  lemma ParamsStop(p: Parts)
    requires WellFormed(p)
    ensures Stops(RenderParam(p.charset, RenderParam(p.boundary, p.tail)))
  {
  }

  lemma CutTakes(s: string, p: Parts, params: string)
    requires WellFormed(p) && params == RenderParam(p.charset, RenderParam(p.boundary, p.tail))
    requires |p.main| < |s| && s[..|p.main|] == p.main && s[|p.main| + 1..] == p.sub + params
    ensures Run(IsTypeChar, s[|p.main| + 1..]) == |p.sub| && TakeCut(s, |p.main|, |p.sub|) == Some(p)
  {
    ParamsStop(p);
    RunOf(IsTypeChar, p.sub, params);
    TakesParams(p.charset, p.boundary, p.tail);
  }

  lemma TakesFrom(s: string, p: Parts, params: string)
    requires WellFormed(p) && params == RenderParam(p.charset, RenderParam(p.boundary, p.tail))
    requires |p.main| < |s| && s[|p.main|] == '/' && s[..|p.main|] == p.main && s[|p.main| + 1..] == p.sub + params
    requires Run(IsTypeChar, s) == |p.main|
    ensures TakeParts(s) == Some(p)
  {
    CutTakes(s, p, params);
  }

  /** Completeness: every string that decomposes by the grammar is taken apart that way. */
  lemma TakesAll(p: Parts)
    requires WellFormed(p)
    ensures TakeParts(Render(p)) == Some(p)
  {
    var params := RenderParam(p.charset, RenderParam(p.boundary, p.tail));
    RunsToSlash(p.main, p.sub + params);
    TakesFrom(Render(p), p, params);
  }

  // ---------------------------------------------------------------- and nothing else

  lemma SplitAt(s: string, n: nat)
    requires n <= |s|
    ensures s[..n] + s[n..] == s
  {
  }

  lemma ValueTaken(s: string, keyword: string, limit: nat)
    requires TakeValue(s, keyword, limit).Some?
    ensures var v := TakeValue(s, keyword, limit).value;
            && s == v.keyword + (v.value + v.rest)
            && IEquals(v.keyword, keyword) && 1 <= |v.value| <= limit && All(IsParamChar, v.value)
  {
    var rest := s[|keyword|..];
    SplitAt(s, |keyword|);
    SplitAt(rest, Run(IsParamChar, rest));
  }

  lemma ParamTaken(s: string, keyword: string, limit: nat)
    ensures var (p, rest) := TakeParam(s, keyword, limit);
            s == RenderParam(p, rest) && (p.Some? ==> ParamOk(p.value, keyword, limit))
  {
    if s != [] && s[0] == ';' {
      var n := Run(IsSpace, s[1..]);
      assert s == ";" + s[1..] && s[1..] == s[1..][..n] + s[1..][n..];
      if TakeValue(s[1..][n..], keyword, limit).Some? {
        ValueTaken(s[1..][n..], keyword, limit);
      }
    }
  }

  lemma ParamsTaken(s: string)
    ensures var (c, b, tail) := TakeParams(s);
            && s == RenderParam(c, RenderParam(b, tail))
            && (c.Some? ==> ParamOk(c.value, CHARSET, MAX_NAME))
            && (b.Some? ==> ParamOk(b.value, BOUNDARY, MAX_BOUNDARY))
  {
    ParamTaken(s, CHARSET, MAX_NAME);
    ParamTaken(TakeParam(s, CHARSET, MAX_NAME).1, BOUNDARY, MAX_BOUNDARY);
  }

  lemma CutAt(s: string, n: nat)
    requires n < |s|
    ensures s == s[..n] + ([s[n]] + s[n + 1..])
  {
  }

  lemma Rejoins(s: string, n: nat, m: nat)
    requires n < |s| && s[n] == '/' && m <= |s[n + 1..]|
    ensures Render(PartsAt(s, n, m)) == s
  {
    ParamsTaken(s[n + 1..][m..]);
    CutAt(s, n);
    SplitAt(s[n + 1..], m);
  }

  lemma CutIsWellFormed(s: string, n: nat, m: nat, r: Option<Parts>)
    requires n < |s| && s[n] == '/' && m <= |s[n + 1..]| && r.Some? && r == TakeCut(s, n, m)
    requires All(IsTypeChar, s[..n]) && All(IsTypeChar, s[n + 1..][..m])
    ensures WellFormed(r.value) && Render(r.value) == s
  {
    ParamsTaken(s[n + 1..][m..]);
    Rejoins(s, n, m);
  }

  /** Where the string was cut, and that both names are made of the right characters. */
  lemma TakenByCut(s: string) returns (n: nat, m: nat)
    requires TakeParts(s).Some?
    ensures n < |s| && s[n] == '/' && m <= |s[n + 1..]| && TakeParts(s) == TakeCut(s, n, m)
    ensures All(IsTypeChar, s[..n]) && All(IsTypeChar, s[n + 1..][..m])
  {
    n := Run(IsTypeChar, s);
    m := Run(IsTypeChar, s[n + 1..]);
  }

  /** Soundness: what was taken apart is a decomposition by the grammar. */
  lemma TakenIsWellFormed(s: string)
    requires TakeParts(s).Some?
    ensures WellFormed(TakeParts(s).value) && Render(TakeParts(s).value) == s
  {
    var n, m := TakenByCut(s);
    CutIsWellFormed(s, n, m, TakeParts(s));
  }

  // ---------------------------------------------------------------- content types

  datatype ContentType = ContentType(kind: string, charset: string, boundary: string)

  function ValueOf(p: Option<Param>): string {
    if p.None? then "" else p.value.value
  }

  /** The three captures. */
  function Captures(p: Parts): ContentType {
    ContentType(p.main + "/" + p.sub, ValueOf(p.charset), ValueOf(p.boundary))
  }

  /** `content_type::parse`; `None` is the exception. */
  function Parse(s: string): Option<ContentType> {
    var p := TakeParts(s);
    if p.None? then None else Some(Captures(p.value))
  }

  /** The string matches with these captures. */
  ghost predicate Matches(s: string, ct: ContentType) {
    exists p :: WellFormed(p) && Render(p) == s && Captures(p) == ct
  }

  /** `parse` accepts exactly the strings of the grammar, with the captures of their one
      decomposition; so it does not matter that the quantifiers are lazy. */
  lemma ParseIsMatch(s: string, ct: ContentType)
    ensures Parse(s) == Some(ct) <==> Matches(s, ct)
  {
    if Parse(s).Some? {
      TakenIsWellFormed(s);
    }
    forall p | WellFormed(p) && Render(p) == s ensures Parse(s) == Some(Captures(p)) {
      TakesAll(p);
    }
  }

  lemma DecompositionIsUnique(p: Parts, q: Parts)
    requires WellFormed(p) && WellFormed(q) && Render(p) == Render(q)
    ensures p == q
  {
    TakesAll(p);
    TakesAll(q);
  }

  /** The comparison of the library. */
  predicate Same(a: ContentType, b: ContentType) {
    IEquals(a.kind, b.kind) && IEquals(a.charset, b.charset) && a.boundary == b.boundary
  }

  /** The values that can be written in a header at all. */
  ghost predicate Printable(ct: ContentType) {
    && (exists main, sub :: NameOk(main) && NameOk(sub) && ct.kind == main + "/" + sub)
    && (ct.charset != "" ==> |ct.charset| <= MAX_NAME && All(IsParamChar, ct.charset))
    && (ct.boundary != "" ==> |ct.boundary| <= MAX_BOUNDARY && All(IsParamChar, ct.boundary))
  }

  /** `to_string` as written: the concatenations are computed and dropped. */
  function ToString(ct: ContentType): string {
    ct.kind
  }

  /** `to_string` as it was evidently meant. */
  function FullString(ct: ContentType): string {
    ct.kind +
    (if ct.charset == "" then "" else "; charset=" + ct.charset) +
    (if ct.boundary == "" then "" else "; boundary=" + ct.boundary)
  }

  function ParamFor(keyword: string, value: string): Option<Param> {
    if value == "" then None else Some(Param(" ", keyword, value))
  }

  lemma Assoc(a: string, b: string, c: string)
    ensures (a + b) + c == a + (b + c)
  {
  }

  lemma PrintsParam(keyword: string, value: string, rest: string)
    requires value != ""
    ensures RenderParam(ParamFor(keyword, value), rest) == (";" + (" " + keyword)) + value + rest
  {
    Assoc(";" + (" " + keyword), value, rest);
    Assoc(";", " " + keyword, value + rest);
    Assoc(" ", keyword, value + rest);
  }

  /** The two parameters as the printer appends them. */
  function Label(keyword: string, value: string): string {
    if value == "" then "" else (";" + (" " + keyword)) + value
  }

  lemma PrintsParams(charset: string, boundary: string)
    ensures RenderParam(ParamFor(CHARSET, charset), RenderParam(ParamFor(BOUNDARY, boundary), ""))
            == Label(CHARSET, charset) + Label(BOUNDARY, boundary)
  {
    if boundary != "" {
      PrintsParam(BOUNDARY, boundary, "");
      assert Label(BOUNDARY, boundary) + "" == Label(BOUNDARY, boundary);
    }
    if charset != "" {
      PrintsParam(CHARSET, charset, Label(BOUNDARY, boundary));
    }
  }

  /** The printer's texts are these labels. */
  lemma Labels(charset: string, boundary: string)
    ensures (if charset == "" then "" else "; charset=" + charset) == Label(CHARSET, charset)
    ensures (if boundary == "" then "" else "; boundary=" + boundary) == Label(BOUNDARY, boundary)
  {
    assert "; charset=" == ";" + (" " + CHARSET) && "; boundary=" == ";" + (" " + BOUNDARY);
  }

  lemma Regroups(a: string, b: string, c: string, d: string, e: string)
    ensures a + (b + (c + (d + e))) == a + b + c + d + e
  {
    Assoc(a, b, c + (d + e));
    Assoc(a + b, c, d + e);
    Assoc(a + b + c, d, e);
  }

  lemma Prints(main: string, sub: string, charset: string, boundary: string)
    ensures Render(Parts(main, sub, ParamFor(CHARSET, charset), ParamFor(BOUNDARY, boundary), ""))
            == FullString(ContentType(main + "/" + sub, charset, boundary))
  {
    PrintsParams(charset, boundary);
    Labels(charset, boundary);
    Regroups(main, "/", sub, Label(CHARSET, charset), Label(BOUNDARY, boundary));
  }

  /** Only values that can be written in a header come out of the parser. */
  lemma ParsedIsPrintable(s: string)
    requires Parse(s).Some?
    ensures Printable(Parse(s).value)
  {
    TakenIsWellFormed(s);
    var p := TakeParts(s).value;
    assert NameOk(p.main) && NameOk(p.sub);
  }

  lemma PrintedParses(main: string, sub: string, ct: ContentType)
    requires Printable(ct) && NameOk(main) && NameOk(sub) && ct.kind == main + "/" + sub
    ensures Parse(FullString(ct)) == Some(ct)
  {
    Prints(main, sub, ct.charset, ct.boundary);
    TakesAll(Parts(main, sub, ParamFor(CHARSET, ct.charset), ParamFor(BOUNDARY, ct.boundary), ""));
  }

  /** Parsing the full string gives the value back, exactly for the values that can be written
      in a header. */
  lemma FullStringRoundTrips(ct: ContentType)
    ensures Parse(FullString(ct)) == Some(ct) <==> Printable(ct)
  {
    if Parse(FullString(ct)) == Some(ct) {
      ParsedIsPrintable(FullString(ct));
    }
    if Printable(ct) {
      var main, sub :| NameOk(main) && NameOk(sub) && ct.kind == main + "/" + sub;
      PrintedParses(main, sub, ct);
    }
  }

  /** What is printed keeps the type and nothing else. */
  lemma ToStringKeepsType(ct: ContentType)
    requires Printable(ct)
    ensures Parse(ToString(ct)) == Some(ContentType(ct.kind, "", ""))
  {
    var bare := ContentType(ct.kind, "", "");
    FullStringRoundTrips(bare);
    assert FullString(bare) == ToString(ct);
  }

  /** A string that is as long as its own type has no parameters. */
  lemma BareType(s: string)
    requires Parse(s).Some? && |Parse(s).value.kind| == |s|
    ensures Parse(s) == Some(ContentType(s, "", ""))
  {
    TakenIsWellFormed(s);
    var p := TakeParts(s).value;
    var params := RenderParam(p.charset, RenderParam(p.boundary, p.tail));
    assert |s| == |p.main| + 1 + |p.sub| + |params|;
    assert params == "" && p.charset.None? && p.boundary.None?;
    assert s == p.main + ("/" + (p.sub + "")) == p.main + "/" + p.sub;
  }

  /** So printing and parsing give back an equal value exactly when the value can be written
      in a header and has neither charset nor boundary. */
  lemma ToStringRoundTripsIff(ct: ContentType)
    ensures (Parse(ToString(ct)).Some? && Same(Parse(ToString(ct)).value, ct)) <==>
              Printable(ct) && ct.charset == "" && ct.boundary == ""
  {
    var r := Parse(ToString(ct));
    if r.Some? && Same(r.value, ct) {
      BareType(ct.kind);
      ParsedIsPrintable(ct.kind);
      assert r.value == ct;
    }
    if Printable(ct) && ct.charset == "" && ct.boundary == "" {
      ToStringKeepsType(ct);
    }
  }

  // ---------------------------------------------------------------- letters of either case

  /** The same character, or the same letter in the other case. */
  predicate SameLetter(c: char, d: char) {
    c == d || (IsLetter(c) && IsLetter(d) && (c as int - d as int == 32 || d as int - c as int == 32))
  }

  predicate SameLetters(a: string, b: string) {
    |a| == |b| && forall i | 0 <= i < |a| :: SameLetter(a[i], b[i])
  }

  lemma LowerIff(c: char, d: char)
    ensures Lower(c) == Lower(d) <==> SameLetter(c, d)
  {
  }

  /** Two content types are equal exactly if their types and charsets differ at most in the case
      of letters, and their boundaries not at all. */
  lemma SameIff(a: ContentType, b: ContentType)
    ensures Same(a, b) <==>
              SameLetters(a.kind, b.kind) && SameLetters(a.charset, b.charset) && a.boundary == b.boundary
  {
    forall c, d ensures Lower(c) == Lower(d) <==> SameLetter(c, d) {
      LowerIff(c, d);
    }
  }

  /** The keyword of a parameter written in another case. */
  predicate Rewritten(p: Option<Param>, q: Option<Param>) {
    match (p, q)
    case (None, None) => true
    case (Some(x), Some(y)) => SameLetters(x.keyword, y.keyword) && x.value == y.value && All(IsSpace, y.space)
    case _ => false
  }

  lemma SameKeyword(k: string, other: string, keyword: string)
    requires IEquals(k, keyword) && SameLetters(k, other)
    ensures IEquals(other, keyword)
  {
    forall i | 0 <= i < |k| ensures Lower(other[i]) == Lower(keyword[i]) {
      LowerIff(k[i], other[i]);
    }
  }

  lemma RewrittenIsOk(p: Option<Param>, q: Option<Param>, keyword: string, limit: nat)
    requires Rewritten(p, q) && (p.Some? ==> ParamOk(p.value, keyword, limit))
    ensures q.Some? ==> ParamOk(q.value, keyword, limit)
    ensures ValueOf(q) == ValueOf(p)
  {
    if p.Some? {
      SameKeyword(p.value.keyword, q.value.keyword, keyword);
    }
  }

  /** Parsing depends neither on the case of the keywords nor on the spaces. */
  lemma ParseIgnoresKeywordCase(p: Parts, q: Parts)
    requires WellFormed(p) && q.main == p.main && q.sub == p.sub && All(IsSpace, q.tail)
    requires Rewritten(p.charset, q.charset) && Rewritten(p.boundary, q.boundary)
    ensures Parse(Render(q)) == Parse(Render(p)) == Some(Captures(p))
  {
    RewrittenIsOk(p.charset, q.charset, CHARSET, MAX_NAME);
    RewrittenIsOk(p.boundary, q.boundary, BOUNDARY, MAX_BOUNDARY);
    TakesAll(p);
    TakesAll(q);
  }

  // ---------------------------------------------------------------- the alphabets

  /** ALPHA and DIGIT, appendix B.1 of RFC 5234. */
  predicate AlphaOrDigit(c: char) {
    var n := c as int;
    0x41 <= n <= 0x5A || 0x61 <= n <= 0x7A || 0x30 <= n <= 0x39
  }

  /** The characters of a type or subtype name, section 4.2 of RFC 6838. */
  predicate RestrictedNameChar(c: char) {
    AlphaOrDigit(c) || c in "!#$&-^_.+"
  }

  /** The characters of a charset name, section 2.3 of RFC 2978. */
  predicate CharsetChar(c: char) {
    AlphaOrDigit(c) || c in "!#$%&'+-^_`{}~"
  }

  /** The classes of the regular expression are those of the standards, short of a few
      characters: a type with a dot or a plus in it, as in `image/svg+xml`, is not accepted. */
  lemma AlphabetsOfStandards(c: char)
    ensures IsTypeChar(c) <==> RestrictedNameChar(c) && c != '.' && c != '+'
    ensures IsParamChar(c) <==> CharsetChar(c) && c != '\'' && c != '+' && c != '`'
    ensures IsSpace(c) <==> c as int == 0x20 || 0x09 <= c as int <= 0x0D
  {
  }

  lemma SlashAt(a: string, x: string, b: string, y: string)
    requires |a| < |b| && '/' !in b
    ensures a + ("/" + x) != b + ("/" + y)
  {
    assert (a + ("/" + x))[|a|] == '/';
    assert (b + ("/" + y))[|a|] == b[|a|];
  }

  lemma SplitAtFirstSlash(a: string, x: string, b: string, y: string)
    requires a + ("/" + x) == b + ("/" + y) && '/' !in a && '/' !in b
    ensures a == b && x == y
  {
    var s, t := a + ("/" + x), b + ("/" + y);
    assert |a| == |b| by {
      if |a| < |b| {
        SlashAt(a, x, b, y);
      }
      if |b| < |a| {
        SlashAt(b, y, a, x);
      }
    }
    assert s[..|a|] == a && t[..|b|] == b;
    assert s[|a| + 1..] == x && t[|b| + 1..] == y;
  }

  /** No parameter begins inside a name. */
  lemma StopsAtEnd(name: string, rest: string)
    requires All(RestrictedNameChar, name + rest) && Stops(rest)
    ensures rest == ""
  {
    assert rest != "" ==> RestrictedNameChar((name + rest)[|name|]);
  }

  lemma AcceptedNames(main: string, sub: string)
    requires All(RestrictedNameChar, main) && All(RestrictedNameChar, sub) && Parse(main + ("/" + sub)).Some?
    ensures NameOk(main) && NameOk(sub)
  {
    var s := main + ("/" + sub);
    TakenIsWellFormed(s);
    var p := TakeParts(s).value;
    var params := RenderParam(p.charset, RenderParam(p.boundary, p.tail));
    ParamsStop(p);
    SplitAtFirstSlash(main, sub, p.main, p.sub + params);
    StopsAtEnd(p.sub, params);
  }

  /** Of the types that the standard allows, those are accepted whose names are short enough and
      have no dot and no plus in them. */
  lemma TypeIsAcceptedIff(main: string, sub: string)
    requires All(RestrictedNameChar, main) && All(RestrictedNameChar, sub)
    ensures Parse(main + ("/" + sub)).Some? <==>
              1 <= |main| <= 127 && 1 <= |sub| <= 127 && All(c => c != '.' && c != '+', main + sub)
  {
    if Parse(main + ("/" + sub)).Some? {
      AcceptedNames(main, sub);
    }
    if 1 <= |main| <= 127 && 1 <= |sub| <= 127 && All(c => c != '.' && c != '+', main + sub) {
      NamesAreOk(main, sub);
      var p := Parts(main, sub, None, None, "");
      assert sub + "" == sub;
      TakesAll(p);
    }
  }

  lemma NamesAreOk(main: string, sub: string)
    requires All(RestrictedNameChar, main) && All(RestrictedNameChar, sub)
    requires 1 <= |main| <= 127 && 1 <= |sub| <= 127 && All(c => c != '.' && c != '+', main + sub)
    ensures NameOk(main) && NameOk(sub)
  {
    forall i | 0 <= i < |main| ensures IsTypeChar(main[i]) {
      assert (main + sub)[i] == main[i];
    }
    forall i | 0 <= i < |sub| ensures IsTypeChar(sub[i]) {
      assert (main + sub)[|main| + i] == sub[i];
    }
  }

  /** A charset and a boundary made of the right characters are read back if they are at most
      127 and 70 characters long (for the boundary, section 5.1.1 of RFC 2046), and only then. */
  lemma LengthsOfStandards(main: string, sub: string, charset: string, boundary: string)
    requires NameOk(main) && NameOk(sub) && All(IsParamChar, charset) && All(IsParamChar, boundary)
    ensures var ct := ContentType(main + "/" + sub, charset, boundary);
            Parse(FullString(ct)) == Some(ct) <==> |charset| <= 127 && |boundary| <= 70
  {
    var ct := ContentType(main + "/" + sub, charset, boundary);
    FullStringRoundTrips(ct);
    assert ct.kind == main + "/" + sub;
  }
}
