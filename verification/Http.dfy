/** The incremental HTTP request parser (mymuduo/http/HttpContext.cc, HttpRequest.h). */
module Http {
  import opened Common
  import opened Buffer
  import LogStream

  type Text = seq<Octet>

  datatype Method = Invalid | Get | Post | Head | Put | Delete
  datatype Version = Unknown | Http10 | Http11

  datatype Request = Request(
    verb: Method, version: Version, path: Text, query: Text, body: Text, headers: map<Text, Text>)

  const EMPTY_REQUEST := Request(Invalid, Unknown, [], [], [], map[])

  datatype ParseState = ExpectRequestLine | ExpectHeaders | ExpectBody | GotAll

  datatype Context = Context(state: ParseState, request: Request)

  const INITIAL := Context(ExpectRequestLine, EMPTY_REQUEST)

  const CRLF: Text := ['\r', '\n']
  const CONTENT_LENGTH: Text := "Content-Length"

  // ---------- Lines ----------

  /** `std::find`: the first position of `c`, or the end. */
  function Find(s: Text, c: Octet): (i: nat)
    ensures i <= |s| && (i < |s| ==> s[i] == c) && forall k :: 0 <= k < i ==> s[k] != c
  {
    if s == [] || s[0] == c then 0 else 1 + Find(s[1..], c)
  }

  function MethodOf(name: Text): Method {
    if name == "GET" then Get
    else if name == "POST" then Post
    else if name == "HEAD" then Head
    else if name == "PUT" then Put
    else if name == "DELETE" then Delete
    else Invalid
  }

  function SetVersion(r: Request, text: Text): (bool, Request) {
    if |text| == 8 && text[..7] == "HTTP/1." then
      if text[7] == '1' then (true, r.(version := Http11))
      else if text[7] == '0' then (true, r.(version := Http10))
      else (false, r)
    else (false, r)
  }

  function SetUrl(r: Request, url: Text): Request {
    var question := Find(url, '?');
    if question < |url| then r.(path := url[..question], query := url[question..]) else r.(path := url)
  }

  /** Method, URL and version; a rejected line may leave some fields assigned. */
  function ProcessRequestLine(r: Request, line: Text): (bool, Request) {
    var space := Find(line, ' ');
    if space == |line| then (false, r)
    else
      var r1 := r.(verb := MethodOf(line[..space]));
      if r1.verb.Invalid? then (false, r1)
      else
        var rest := line[space + 1..];
        var space2 := Find(rest, ' ');
        if space2 == |rest| then (false, r1)
        else SetVersion(SetUrl(r1, rest[..space2]), rest[space2 + 1..])
  }

  predicate IsSpace(c: Octet) {
    c == ' ' || 9 <= c as int <= 13
  }

  function TrimFront(s: Text): Text {
    if s != [] && IsSpace(s[0]) then TrimFront(s[1..]) else s
  }

  function TrimBack(s: Text): Text {
    if s != [] && IsSpace(s[|s| - 1]) then TrimBack(s[..|s| - 1]) else s
  }

  function WithHeader(r: Request, line: Text, colon: nat): Request
    requires colon < |line|
  {
    r.(headers := r.headers[line[..colon] := TrimBack(TrimFront(line[colon + 1..]))])
  }

  /** The value of a header is the stretch of text between its first and last characters that are not white space. */
  lemma {:induction false} TrimSplits(s: Text) returns (i: nat, j: nat)
    ensures i <= j <= |s| && TrimBack(TrimFront(s)) == s[i..j]
    ensures forall k :: 0 <= k < i || j <= k < |s| ==> IsSpace(s[k])
    ensures i < j ==> !IsSpace(s[i]) && !IsSpace(s[j - 1])
  {
    if s == [] {
      i, j := 0, 0;
    } else if IsSpace(s[0]) {
      var i', j' := TrimSplits(s[1..]);
      i, j := i' + 1, j' + 1;
      assert s[1..][i'..j'] == s[i..j];
      assert forall k :: 0 < k < |s| ==> s[k] == s[1..][k - 1];
    } else {
      i := 0;
      j := TrimBackLength(s);
    }
  }

  lemma {:induction false} TrimBackLength(s: Text) returns (j: nat)
    ensures j <= |s| && TrimBack(s) == s[..j]
    ensures forall k :: j <= k < |s| ==> IsSpace(s[k])
    ensures j > 0 ==> !IsSpace(s[j - 1])
  {
    j := |s|;
    if s != [] && IsSpace(s[|s| - 1]) {
      j := TrimBackLength(s[..|s| - 1]);
      assert s[..|s| - 1][..j] == s[..j];
    }
  }

  function GetHeader(r: Request, field: Text): Text {
    if field in r.headers then r.headers[field] else []
  }

  // ---------- The request line and the headers ----------

  datatype HeadEnd = HeadNeedMore | HeadBad | HeadDone

  datatype HeadResult = HeadResult(ctx: Context, rest: Text, end: HeadEnd)

  predicate InHead(state: ParseState) {
    state.ExpectRequestLine? || state.ExpectHeaders?
  }

  /** One complete line, without its CR LF: `None` when the request line is rejected. */
  function TakeLine(ctx: Context, line: Text): (bool, Context)
    requires InHead(ctx.state)
  {
    if ctx.state.ExpectRequestLine? then
      var r := ProcessRequestLine(ctx.request, line);
      (r.0, Context(if r.0 then ExpectHeaders else ExpectRequestLine, r.1))
    else
      var colon := Find(line, ':');
      if colon < |line| then (true, ctx.(request := WithHeader(ctx.request, line, colon)))
      else (true, ctx.(state := ExpectBody))
  }

  /** The loop of `parseRequest` while it works line by line. */
  function ParseHead(ctx: Context, buf: Text): (r: HeadResult)
    requires InHead(ctx.state)
    ensures r.end.HeadNeedMore? ==> InHead(r.ctx.state) && FirstCrlf(r.rest).None?
    ensures r.end.HeadDone? ==> r.ctx.state.ExpectBody?
    ensures |r.rest| <= |buf|
    decreases |buf|
  {
    var crlf := FirstCrlf(buf);
    if crlf.None? then HeadResult(ctx, buf, HeadNeedMore)
    else
      var t := TakeLine(ctx, buf[..crlf.value]);
      if !t.0 then HeadResult(t.1, buf, HeadBad)
      else if InHead(t.1.state) then ParseHead(t.1, buf[crlf.value + 2..])
      else HeadResult(t.1, buf[crlf.value + 2..], HeadDone)
  }

  // ---------- The body ----------

  /** How a call of `parseRequest` ends: it returns true or false, or does not return. */
  datatype End = NeedMore | Complete | BadRequest | Spins | AssertFails | Throws

  datatype Result = Result(ctx: Context, rest: Text, end: End)

  function DigitOf(c: Octet): int { c as int - '0' as int }

  /** The digits at the front of a text, as a number, and how many there are. */
  function LeadingNumber(s: Text, acc: nat): (nat, nat) {
    if s != [] && 0 <= DigitOf(s[0]) <= 9 then
      var r := LeadingNumber(s[1..], acc * 10 + DigitOf(s[0]));
      (r.0, r.1 + 1)
    else (acc, 0)
  }

  /** `std::stoll`: leading white space, a sign, digits; it throws without digits or outside 64 bits. */
  function Stoll(s: Text): Option<int> {
    var t := TrimFront(s);
    var signed := t != [] && (t[0] == '-' || t[0] == '+');
    var n := LeadingNumber(if signed then t[1..] else t, 0);
    var value: int := if signed && t[0] == '-' then -(n.0 as int) else n.0;
    if n.1 == 0 || !(-0x8000_0000_0000_0000 <= value <= 0x7fff_ffff_ffff_ffff) then None else Some(value)
  }

  /** The declared length as `size_t`; `None` without a Content-Length, `Some(None)` when it cannot be read. */
  function DeclaredLength(r: Request): Option<Option<nat>> {
    var lenstr := GetHeader(r, CONTENT_LENGTH);
    if lenstr == [] then None
    else
      var v := Stoll(lenstr);
      if v.None? then Some(None) else Some(Some(v.value % 0x1_0000_0000_0000_0000))
  }

  function ParseBody(ctx: Context, buf: Text): Result {
    match DeclaredLength(ctx.request)
    case None => Result(ctx.(state := GotAll), buf, Complete)
    case Some(None) => Result(ctx, buf, Throws)
    case Some(Some(len)) =>
      if len > |buf| then Result(ctx, buf, AssertFails)   // retrieve past the readable bytes
      else if len == |buf| then Result(Context(GotAll, ctx.request.(body := buf)), [], Complete)
      else Result(ctx, buf, Spins)                        // nothing changes and the loop goes on
  }

  function Parse(ctx: Context, buf: Text): Result {
    if ctx.state.GotAll? then Result(ctx, buf, Spins)
    else if ctx.state.ExpectBody? then ParseBody(ctx, buf)
    else
      var h := ParseHead(ctx, buf);
      match h.end
      case HeadNeedMore => Result(h.ctx, h.rest, NeedMore)
      case HeadBad => Result(h.ctx, h.rest, BadRequest)
      case HeadDone => ParseBody(h.ctx, h.rest)
  }

  // ---------- Arbitrary fragmentation ----------

  /** The stream arrives in chunks, `parseRequest` being called after each, until a request or an error; what follows
      stays unread. */
  function Feed(ctx: Context, unread: Text, chunks: seq<Text>): Result
    decreases |chunks|
  {
    if chunks == [] then Result(ctx, unread, NeedMore)
    else
      var r := Parse(ctx, unread + chunks[0]);
      if r.end.NeedMore? then Feed(r.ctx, r.rest, chunks[1..])
      else r.(rest := r.rest + Join(chunks[1..]))
  }

  function Join(chunks: seq<Text>): Text {
    if chunks == [] then [] else chunks[0] + Join(chunks[1..])
  }

  lemma CrlfInPrefix(a: Text, b: Text)
    ensures FirstCrlf(a).Some? ==> FirstCrlf(a + b) == FirstCrlf(a)
    ensures FirstCrlf(a + b).Some? && FirstCrlf(a + b).value + 2 <= |a| ==> FirstCrlf(a) == FirstCrlf(a + b)
  {
    var s := a + b;
    assert forall k :: k + 1 < |a| ==> (CrlfAt(s, k) <==> CrlfAt(a, k));
  }

  /** More bytes after a finished head change nothing but the remainder; after an unfinished one, the parse goes on
      from where it stopped. */
  lemma {:induction false} HeadExtends(ctx: Context, a: Text, b: Text)
    requires InHead(ctx.state)
    ensures var h := ParseHead(ctx, a);
            ParseHead(ctx, a + b) ==
            if h.end.HeadNeedMore? then ParseHead(h.ctx, h.rest + b) else h.(rest := h.rest + b)
    decreases |a|
  {
    hide TakeLine, FirstCrlf;
    CrlfInPrefix(a, b);
    var crlf := FirstCrlf(a);
    if crlf.Some? {
      var i := crlf.value;
      assert (a + b)[..i] == a[..i];
      assert (a + b)[i + 2..] == a[i + 2..] + b;
      var t := TakeLine(ctx, a[..i]);
      if t.0 && InHead(t.1.state) {
        HeadExtends(t.1, a[i + 2..], b);
      }
    }
  }

  /** The declared length, if any, never lets the outcome depend on how much of the remainder has arrived. */
  predicate BodyIndependent(ctx: Context, rest: Text) {
    var d := DeclaredLength(ctx.request);
    !(d.Some? && d.value.Some? && d.value.value <= |rest| && |rest| > 0)
  }

  lemma BodyExtends(ctx: Context, a: Text, b: Text)
    requires BodyIndependent(ctx, a + b)
    ensures ParseBody(ctx, a + b) == ParseBody(ctx, a).(rest := ParseBody(ctx, a).rest + b)
    ensures !ParseBody(ctx, a).end.NeedMore?
  {
    hide DeclaredLength;
    if |a + b| == 0 {
      assert a == [] && b == [] && a + b == a;
      assert [] + b == [];
    }
  }

  /** Cutting the stream anywhere gives what feeding it whole gives: same outcome, same request, same unread bytes. */
  lemma {:induction false} FeedIsParse(ctx: Context, unread: Text, chunks: seq<Text>)
    requires InHead(ctx.state) && FirstCrlf(unread).None?
    requires var h := ParseHead(ctx, unread + Join(chunks)); h.end.HeadDone? ==> BodyIndependent(h.ctx, h.rest)
    ensures Feed(ctx, unread, chunks) == Parse(ctx, unread + Join(chunks))
    decreases |chunks|
  {
    hide ParseBody, BodyIndependent, ParseHead;
    if chunks == [] {
      assert unread + Join(chunks) == unread;
      HeadWaits(ctx, unread);
    } else {
      var s, b := unread + chunks[0], Join(chunks[1..]);
      assert unread + Join(chunks) == s + b;
      HeadExtends(ctx, s, b);
      var h := ParseHead(ctx, s);
      if h.end.HeadNeedMore? {
        FeedIsParse(h.ctx, h.rest, chunks[1..]);
      } else if h.end.HeadDone? {
        BodyExtends(h.ctx, h.rest, b);
      }
    }
  }

  lemma HeadWaits(ctx: Context, unread: Text)
    requires InHead(ctx.state) && FirstCrlf(unread).None?
    ensures ParseHead(ctx, unread) == HeadResult(ctx, unread, HeadNeedMore)
  {
  }

  /** The bytes up to the remainder are exactly what the head needs. */
  lemma {:induction false} HeadExact(ctx: Context, s: Text)
    requires InHead(ctx.state) && ParseHead(ctx, s).end.HeadDone?
    ensures var h := ParseHead(ctx, s);
            var n := |s| - |h.rest|;
            && s[n..] == h.rest
            && ParseHead(ctx, s[..n]) == HeadResult(h.ctx, [], HeadDone)
    decreases |s|
  {
    hide TakeLine, ParseHead, FirstCrlf, CrlfAt;
    HeadStep(ctx, s);
    var h := ParseHead(ctx, s);
    var n := |s| - |h.rest|;
    var i := FirstCrlf(s).value;
    var t := TakeLine(ctx, s[..i]);
    var tail := s[i + 2..];
    if InHead(t.1.state) {
      HeadExact(t.1, tail);
    }
    PrefixSteps(ctx, s, n);
  }

  /** One turn of the head loop. */
  lemma HeadStep(ctx: Context, s: Text)
    requires InHead(ctx.state) && ParseHead(ctx, s).end.HeadDone?
    ensures FirstCrlf(s).Some? && FirstCrlf(s).value + 2 <= |s|
    ensures var i := FirstCrlf(s).value;
            var t := TakeLine(ctx, s[..i]);
            t.0 && ParseHead(ctx, s) ==
                   if InHead(t.1.state) then ParseHead(t.1, s[i + 2..]) else HeadResult(t.1, s[i + 2..], HeadDone)
  {
    hide TakeLine;
  }

  /** The same turn on a prefix that contains the line. */
  lemma PrefixSteps(ctx: Context, s: Text, n: nat)
    requires InHead(ctx.state) && n <= |s|
    requires FirstCrlf(s).Some? && FirstCrlf(s).value + 2 <= n
    ensures var i := FirstCrlf(s).value;
            var t := TakeLine(ctx, s[..i]);
            && s[n..] == s[i + 2..][n - (i + 2)..]
            && (t.0 ==> ParseHead(ctx, s[..n]) ==
                        if InHead(t.1.state) then ParseHead(t.1, s[i + 2..][..n - (i + 2)])
                        else HeadResult(t.1, s[i + 2..][..n - (i + 2)], HeadDone))
  {
    hide TakeLine, FirstCrlf;
    var i := FirstCrlf(s).value;
    assert s[..n] + s[n..] == s;
    CrlfInPrefix(s[..n], s[n..]);
    assert s[..n][..i] == s[..i];
    assert s[..n][i + 2..] == s[i + 2..][..n - (i + 2)];
  }

  /** Fragmentation is harmless exactly for requests without a body: of the streams whose headers are complete, those
      whose outcome depends on the cuts are the ones that carry bytes and declare a length that fits in them. */
  lemma FragmentationIff(ctx: Context, s: Text)
    requires InHead(ctx.state) && ParseHead(ctx, s).end.HeadDone?
    ensures var h := ParseHead(ctx, s);
            (forall chunks :: Join(chunks) == s ==> Feed(ctx, [], chunks) == Parse(ctx, s)) <==>
            BodyIndependent(h.ctx, h.rest)
  {
    hide ParseHead, Feed, Parse, BodyIndependent, FirstCrlf;
    var h := ParseHead(ctx, s);
    if BodyIndependent(h.ctx, h.rest) {
      NothingHasNoCrlf();
      forall chunks | Join(chunks) == s ensures Feed(ctx, [], chunks) == Parse(ctx, s) {
        assert [] + Join(chunks) == s;
        FeedIsParse(ctx, [], chunks);
      }
    } else {
      CutAfterHead(ctx, s);
    }
  }

  lemma NothingHasNoCrlf()
    ensures FirstCrlf([]).None?
  {
  }

  lemma CutAfterHead(ctx: Context, s: Text)
    requires InHead(ctx.state) && ParseHead(ctx, s).end.HeadDone?
    requires !BodyIndependent(ParseHead(ctx, s).ctx, ParseHead(ctx, s).rest)
    ensures var n := |s| - |ParseHead(ctx, s).rest|;
            Join([s[..n], s[n..]]) == s && Feed(ctx, [], [s[..n], s[n..]]).end != Parse(ctx, s).end
  {
    hide ParseHead, DeclaredLength;
    HeadExact(ctx, s);
    var n := |s| - |ParseHead(ctx, s).rest|;
    var chunks := [s[..n], s[n..]];
    assert chunks[1..] == [s[n..]] && Join([s[n..]]) == s[n..] by { assert [s[n..]][1..] == []; }
    assert s[..n] + s[n..] == s;
    assert [] + chunks[0] == s[..n];
  }

  // ---------- Requests as they should be written ----------

  datatype Header = Header(name: Text, value: Text)

  function MethodText(m: Method): Text {
    match m
    case Get => "GET" case Post => "POST" case Head => "HEAD" case Put => "PUT" case Delete => "DELETE"
    case Invalid => ""
  }

  function VersionText(v: Version): Text {
    if v.Http11? then "HTTP/1.1" else "HTTP/1.0"
  }

  function RequestLine(verb: Method, path: Text, query: Text, version: Version): Text {
    MethodText(verb) + [' '] + (path + query) + [' '] + VersionText(version)
  }

  function HeaderLine(h: Header): Text {
    h.name + [':', ' '] + h.value
  }

  function HeaderLines(hs: seq<Header>): Text {
    if hs == [] then CRLF else HeaderLine(hs[0]) + CRLF + HeaderLines(hs[1..])
  }

  predicate Lacks(s: Text, c: Octet) {
    forall k :: 0 <= k < |s| ==> s[k] != c
  }

  predicate SplitTarget(path: Text, query: Text) {
    Lacks(path, ' ') && Lacks(path, '?') && Lacks(query, ' ') && (query != [] ==> query[0] == '?')
  }

  predicate WellFormedTarget(path: Text, query: Text) {
    SplitTarget(path, query) && Lacks(path, '\r') && Lacks(query, '\r')
  }

  predicate Trimmed(s: Text) {
    s != [] ==> !IsSpace(s[0]) && !IsSpace(s[|s| - 1])
  }

  predicate WellFormedHeader(h: Header) {
    Lacks(h.name, ':') && Lacks(h.name, '\r') && Lacks(h.value, '\r') && Trimmed(h.value)
  }

  /** Later fields replace earlier ones of the same name. */
  function HeaderMap(m: map<Text, Text>, hs: seq<Header>): map<Text, Text>
    decreases |hs|
  {
    if hs == [] then m else HeaderMap(m[hs[0].name := hs[0].value], hs[1..])
  }

  lemma {:induction false} FindIs(s: Text, c: Octet, i: nat)
    requires i < |s| && s[i] == c && forall k :: 0 <= k < i ==> s[k] != c
    ensures Find(s, c) == i
  {
    if i > 0 { FindIs(s[1..], c, i - 1); }
  }

  lemma FindNone(s: Text, c: Octet)
    requires Lacks(s, c)
    ensures Find(s, c) == |s|
  {
  }

  lemma CrlfAfterLine(line: Text, more: Text)
    requires Lacks(line, '\r')
    ensures FirstCrlf(line + CRLF + more) == Some(|line|)
  {
    var s := line + CRLF + more;
    assert CrlfAt(s, |line|);
    assert forall k :: 0 <= k < |line| ==> s[k] == line[k] != '\r';
  }

  lemma HeadTakesLine(ctx: Context, line: Text, more: Text)
    requires InHead(ctx.state) && Lacks(line, '\r') && TakeLine(ctx, line).0
    ensures var t := TakeLine(ctx, line).1;
            ParseHead(ctx, line + CRLF + more) ==
            if InHead(t.state) then ParseHead(t, more) else HeadResult(t, more, HeadDone)
  {
    hide TakeLine;
    CrlfAfterLine(line, more);
    var s := line + CRLF + more;
    assert s[..|line|] == line && s[|line| + 2..] == more;
  }

  lemma MethodRead(verb: Method)
    requires !verb.Invalid?
    ensures MethodOf(MethodText(verb)) == verb && Lacks(MethodText(verb), ' ') && Lacks(MethodText(verb), '\r')
  {
  }

  lemma RequestLineLacksCr(verb: Method, path: Text, query: Text, version: Version)
    requires !verb.Invalid? && !version.Unknown? && WellFormedTarget(path, query)
    ensures Lacks(RequestLine(verb, path, query, version), '\r')
  {
    hide MethodText;
    MethodRead(verb);
  }

  /** Splitting a line at its first two spaces. */
  lemma SplitLine(m: Text, url: Text, v: Text)
    requires Lacks(m, ' ') && Lacks(url, ' ')
    ensures var line := m + [' '] + url + [' '] + v;
            && Find(line, ' ') == |m| < |line| && line[..|m|] == m
            && var rest := line[|m| + 1..];
               Find(rest, ' ') == |url| < |rest| && rest[..|url|] == url && rest[|url| + 1..] == v
  {
    var line := m + [' '] + url + [' '] + v;
    FindIs(line, ' ', |m|);
    var rest := line[|m| + 1..];
    assert rest == url + [' '] + v;
    FindIs(rest, ' ', |url|);
  }

  lemma RequestLineRead(r: Request, verb: Method, path: Text, query: Text, version: Version)
    requires !verb.Invalid? && !version.Unknown? && SplitTarget(path, query)
    ensures ProcessRequestLine(r, RequestLine(verb, path, query, version)) ==
            (true, r.(verb := verb, version := version, path := path, query := if query == [] then r.query else query))
  {
    hide SetUrl, SetVersion, MethodOf, MethodText, VersionText, Find;
    var url := path + query;
    MethodRead(verb);
    SplitLine(MethodText(verb), url, VersionText(version));
    var r1 := r.(verb := verb);
    UrlRead(r1, path, query);
    VersionRead(SetUrl(r1, url), version);
  }

  lemma UrlRead(r: Request, path: Text, query: Text)
    requires SplitTarget(path, query)
    ensures SetUrl(r, path + query) == r.(path := path, query := if query == [] then r.query else query)
  {
    var url := path + query;
    if query == [] {
      assert url == path;
      FindNone(url, '?');
    } else {
      FindIs(url, '?', |path|);
      assert url[..|path|] == path && url[|path|..] == query;
    }
  }

  lemma VersionRead(r: Request, version: Version)
    requires !version.Unknown?
    ensures SetVersion(r, VersionText(version)) == (true, r.(version := version))
  {
    var v := VersionText(version);
    assert v[..7] == "HTTP/1.";
  }

  /** The five method names, and no other text. */
  lemma MethodOfIff(name: Text, verb: Method)
    requires !verb.Invalid?
    ensures MethodOf(name) == verb <==> name == MethodText(verb)
  {
  }

  lemma VersionIff(r: Request, text: Text)
    ensures SetVersion(r, text).0 <==> text == VersionText(Http10) || text == VersionText(Http11)
    ensures !SetVersion(r, text).0 ==> SetVersion(r, text).1 == r
  {
    if |text| == 8 && text[..7] == "HTTP/1." {
      assert text == text[..7] + [text[7]];
    }
    assert VersionText(Http10) == "HTTP/1." + ['0'] && VersionText(Http11) == "HTTP/1." + ['1'];
  }

  predicate IsRequestLine(line: Text, verb: Method, path: Text, query: Text, version: Version) {
    && !verb.Invalid? && !version.Unknown? && SplitTarget(path, query)
    && line == RequestLine(verb, path, query, version)
  }

  lemma FindCuts(s: Text, c: Octet)
    requires Find(s, c) < |s|
    ensures s == s[..Find(s, c)] + [c] + s[Find(s, c) + 1..]
    ensures Lacks(s[..Find(s, c)], c)
  {
  }

  /** A line is accepted if and only if it is a known method, a target without spaces and a known version, separated by
      single spaces; then `RequestLineRead` says what is stored. A rejected line stores no version. */
  lemma RequestLineIff(r: Request, line: Text)
    ensures ProcessRequestLine(r, line).0 <==>
            exists verb, path: Text, query: Text, version :: IsRequestLine(line, verb, path, query, version)
    ensures !ProcessRequestLine(r, line).0 ==> ProcessRequestLine(r, line).1.version == r.version
    ensures ProcessRequestLine(r, line).1.headers == r.headers && ProcessRequestLine(r, line).1.body == r.body
  {
    hide RequestLine, SetVersion, MethodOf, MethodText, VersionText;
    if verb, path: Text, query: Text, version :| IsRequestLine(line, verb, path, query, version) {
      RequestLineRead(r, verb, path, query, version);
    } else {
      LineRejected(r, line);
    }
  }

  lemma LineRejected(r: Request, line: Text)
    requires forall verb, path: Text, query: Text, version :: !IsRequestLine(line, verb, path, query, version)
    ensures !ProcessRequestLine(r, line).0
    ensures var t := ProcessRequestLine(r, line).1;
            t.version == r.version && t.headers == r.headers && t.body == r.body
  {
    hide RequestLine, SetVersion, MethodOf, MethodText, VersionText, IsRequestLine, SetUrl;
    var space := Find(line, ' ');
    if space < |line| {
      var verb, rest := MethodOf(line[..space]), line[space + 1..];
      var space2 := Find(rest, ' ');
      if !verb.Invalid? && space2 < |rest| {
        UrlKeeps(r.(verb := verb), rest[..space2]);
        VersionIff(SetUrl(r.(verb := verb), rest[..space2]), rest[space2 + 1..]);
        if rest[space2 + 1..] == VersionText(Http10) {
          var verb', path, query := LineIsRequest(line, Http10);
        } else if rest[space2 + 1..] == VersionText(Http11) {
          var verb', path, query := LineIsRequest(line, Http11);
        }
      }
    }
  }

  lemma UrlKeeps(r: Request, url: Text)
    ensures var t := SetUrl(r, url); t.version == r.version && t.headers == r.headers && t.body == r.body
  {
  }

  /** The parts found between the spaces make up a request line. */
  lemma LineIsRequest(line: Text, version: Version) returns (verb: Method, path: Text, query: Text)
    requires Find(line, ' ') < |line| && !MethodOf(line[..Find(line, ' ')]).Invalid? && !version.Unknown?
    requires var rest := line[Find(line, ' ') + 1..];
             Find(rest, ' ') < |rest| && rest[Find(rest, ' ') + 1..] == VersionText(version)
    ensures IsRequestLine(line, verb, path, query, version)
  {
    hide MethodOf, MethodText, VersionText, Find;
    var space := Find(line, ' ');
    verb := MethodOf(line[..space]);
    var rest := line[space + 1..];
    var space2 := Find(rest, ' ');
    var url := rest[..space2];
    MethodOfIff(line[..space], verb);
    FindCuts(line, ' ');
    FindCuts(rest, ' ');
    UrlSplits(url);
    path, query := url[..Find(url, '?')], url[Find(url, '?')..];
    LineAssembles(line, rest, verb, path, query, version);
  }

  lemma UrlSplits(url: Text)
    requires Lacks(url, ' ')
    ensures var question := Find(url, '?');
            url[..question] + url[question..] == url && SplitTarget(url[..question], url[question..])
  {
    FindFinds(url, '?');
  }

  lemma LineAssembles(line: Text, rest: Text, verb: Method, path: Text, query: Text, version: Version)
    requires line == MethodText(verb) + [' '] + rest && rest == path + query + [' '] + VersionText(version)
    ensures line == RequestLine(verb, path, query, version)
  {
    hide MethodText, VersionText;
  }

  /** A header line is stored as its name and the stretch behind the colon without the white space around it. */
  lemma HeaderStored(r: Request, line: Text, colon: nat) returns (i: nat, j: nat)
    requires colon < |line|
    ensures colon < i <= j <= |line|
    ensures WithHeader(r, line, colon) == r.(headers := r.headers[line[..colon] := line[i..j]])
    ensures forall k :: colon < k < i || j <= k < |line| ==> IsSpace(line[k])
    ensures i < j ==> !IsSpace(line[i]) && !IsSpace(line[j - 1])
  {
    hide TrimBack, TrimFront;
    var text := line[colon + 1..];
    i, j := TrimSplits(text);
    assert forall k :: 0 <= k < |text| ==> text[k] == line[colon + 1 + k];
    assert text[i..j] == line[colon + 1 + i..colon + 1 + j];
    forall k | colon < k < colon + 1 + i || colon + 1 + j <= k < |line| ensures IsSpace(line[k]) {
      assert text[k - colon - 1] == line[k];
    }
    i, j := colon + 1 + i, colon + 1 + j;
  }

  lemma TrimValue(v: Text)
    requires Trimmed(v)
    ensures TrimBack(TrimFront([' '] + v)) == v
  {
    assert ([' '] + v)[1..] == v;
    assert TrimFront(v) == v;
    assert TrimBack(v) == v;
  }

  lemma HeaderLineRead(r: Request, h: Header)
    requires WellFormedHeader(h)
    ensures Lacks(HeaderLine(h), '\r')
    ensures var line := HeaderLine(h);
            && Find(line, ':') == |h.name| < |line|
            && WithHeader(r, line, |h.name|) == r.(headers := r.headers[h.name := h.value])
  {
    var line := HeaderLine(h);
    FindIs(line, ':', |h.name|);
    assert line[..|h.name|] == h.name;
    assert line[|h.name| + 1..] == [' '] + h.value;
    TrimValue(h.value);
  }

  lemma {:induction false} HeadersRead(r: Request, hs: seq<Header>, more: Text)
    requires forall i :: 0 <= i < |hs| ==> WellFormedHeader(hs[i])
    ensures ParseHead(Context(ExpectHeaders, r), HeaderLines(hs) + more) ==
            HeadResult(Context(ExpectBody, r.(headers := HeaderMap(r.headers, hs))), more, HeadDone)
    decreases |hs|
  {
    hide ParseHead, Find, WellFormedHeader, HeaderLine;
    var ctx := Context(ExpectHeaders, r);
    if hs == [] {
      FindNone([], ':');
      HeadTakesLine(ctx, [], more);
      assert HeaderLines(hs) + more == [] + CRLF + more;
    } else {
      HeaderLineRead(r, hs[0]);
      HeadTakesLine(ctx, HeaderLine(hs[0]), HeaderLines(hs[1..]) + more);
      assert HeaderLines(hs) + more == HeaderLine(hs[0]) + CRLF + (HeaderLines(hs[1..]) + more);
      HeadersRead(r.(headers := r.headers[hs[0].name := hs[0].value]), hs[1..], more);
    }
  }

  lemma TargetSplits(path: Text, query: Text)
    requires WellFormedTarget(path, query)
    ensures SplitTarget(path, query)
  {
  }

  lemma HeadRead(verb: Method, path: Text, query: Text, version: Version, hs: seq<Header>, tail: Text)
    requires !verb.Invalid? && !version.Unknown? && WellFormedTarget(path, query)
    requires forall i :: 0 <= i < |hs| ==> WellFormedHeader(hs[i])
    ensures ParseHead(INITIAL, RequestLine(verb, path, query, version) + CRLF + (HeaderLines(hs) + tail)) ==
            HeadResult(Context(ExpectBody, Request(verb, version, path, query, [], HeaderMap(map[], hs))), tail,
                       HeadDone)
  {
    hide ParseHead, HeaderLines, RequestLine, ProcessRequestLine, HeaderMap, WellFormedTarget, WellFormedHeader, Lacks;
    var line := RequestLine(verb, path, query, version);
    TargetSplits(path, query);
    RequestLineRead(EMPTY_REQUEST, verb, path, query, version);
    RequestLineLacksCr(verb, path, query, version);
    HeadTakesLine(INITIAL, line, HeaderLines(hs) + tail);
    HeadersRead(EMPTY_REQUEST.(verb := verb, version := version, path := path, query := query), hs, tail);
  }

  lemma NoLengthIsComplete(ctx: Context, buf: Text)
    requires InHead(ctx.state) && ParseHead(ctx, buf).end.HeadDone?
    requires CONTENT_LENGTH !in ParseHead(ctx, buf).ctx.request.headers
    ensures var h := ParseHead(ctx, buf);
            BodyIndependent(h.ctx, h.rest) && Parse(ctx, buf) == Result(h.ctx.(state := GotAll), h.rest, Complete)
  {
    hide ParseHead, Stoll;
  }

  /** A request written out and parsed gives itself back, in whatever chunks it arrives and whatever follows it. */
  lemma RequestRoundTrip(verb: Method, path: Text, query: Text, version: Version, hs: seq<Header>, tail: Text,
                         chunks: seq<Text>)
    requires !verb.Invalid? && !version.Unknown? && WellFormedTarget(path, query)
    requires forall i :: 0 <= i < |hs| ==> WellFormedHeader(hs[i])
    requires CONTENT_LENGTH !in HeaderMap(map[], hs)
    requires Join(chunks) == RequestLine(verb, path, query, version) + CRLF + HeaderLines(hs) + tail
    ensures Feed(INITIAL, [], chunks) ==
            Result(Context(GotAll, Request(verb, version, path, query, [], HeaderMap(map[], hs))), tail, Complete)
  {
    hide ParseHead, HeaderLines, RequestLine, HeaderMap, Feed, Parse, BodyIndependent, WellFormedTarget, FirstCrlf;
    hide Join;
    Regroup(RequestLine(verb, path, query, version), HeaderLines(hs), tail);
    HeadRead(verb, path, query, version, hs, tail);
    FeedWholeHead(chunks, Request(verb, version, path, query, [], HeaderMap(map[], hs)), tail);
  }

  lemma Regroup(line: Text, lines: Text, tail: Text)
    ensures line + CRLF + lines + tail == line + CRLF + (lines + tail)
  {
  }

  lemma FeedWholeHead(chunks: seq<Text>, r: Request, tail: Text)
    requires ParseHead(INITIAL, Join(chunks)) == HeadResult(Context(ExpectBody, r), tail, HeadDone)
    requires CONTENT_LENGTH !in r.headers
    ensures Feed(INITIAL, [], chunks) == Result(Context(GotAll, r), tail, Complete)
  {
    hide ParseHead, Feed, FirstCrlf, Join, Parse, BodyIndependent;
    assert [] + Join(chunks) == Join(chunks);
    NothingHasNoCrlf();
    NoLengthIsComplete(INITIAL, Join(chunks));
    FeedIsParse(INITIAL, [], chunks);
  }

  // ---------- Where the headers and the body end ----------

  /** A header line ends the headers, leaving what follows, if and only if it has no colon; it need not be empty. */
  lemma EndsHeadersIff(r: Request, line: Text, more: Text)
    requires Lacks(line, '\r')
    ensures var h := ParseHead(Context(ExpectHeaders, r), line + CRLF + more);
            h == HeadResult(Context(ExpectBody, r), more, HeadDone) <==> Lacks(line, ':')
  {
    hide ParseHead;
    var ctx := Context(ExpectHeaders, r);
    HeadTakesLine(ctx, line, more);
    if Lacks(line, ':') {
      FindNone(line, ':');
    } else {
      FindFinds(line, ':');
      var t := TakeLine(ctx, line).1;
      if ParseHead(t, more).end.HeadDone? { HeadStep(t, more); HeadConsumes(t, more); }
    }
  }

  lemma {:induction false} HeadersNeverBad(ctx: Context, s: Text)
    requires ctx.state.ExpectHeaders?
    ensures !ParseHead(ctx, s).end.HeadBad?
    decreases |s|
  {
    hide FirstCrlf, WithHeader;
    var crlf := FirstCrlf(s);
    if crlf.Some? {
      var t := TakeLine(ctx, s[..crlf.value]).1;
      if InHead(t.state) {
        HeadersNeverBad(t, s[crlf.value + 2..]);
      }
    }
  }

  /** A stream is rejected if and only if its first line is not a request line, and then it stays unread whole. */
  lemma RejectedIff(r: Request, line: Text, more: Text)
    requires Lacks(line, '\r')
    ensures var p := Parse(Context(ExpectRequestLine, r), line + CRLF + more);
            && (p.end.BadRequest? <==>
                  !exists verb, path: Text, query: Text, version :: IsRequestLine(line, verb, path, query, version))
            && (p.end.BadRequest? ==> p.rest == line + CRLF + more && p.ctx.state.ExpectRequestLine?)
  {
    hide ParseHead, IsRequestLine, ProcessRequestLine, DeclaredLength;
    var ctx := Context(ExpectRequestLine, r);
    RequestLineIff(r, line);
    if ProcessRequestLine(r, line).0 {
      HeadTakesLine(ctx, line, more);
      HeadersNeverBad(TakeLine(ctx, line).1, more);
    } else {
      HeadRejectsLine(ctx, line, more);
    }
  }

  lemma HeadRejectsLine(ctx: Context, line: Text, more: Text)
    requires InHead(ctx.state) && Lacks(line, '\r') && !TakeLine(ctx, line).0
    ensures ParseHead(ctx, line + CRLF + more) == HeadResult(TakeLine(ctx, line).1, line + CRLF + more, HeadBad)
  {
    hide TakeLine;
    CrlfAfterLine(line, more);
    assert (line + CRLF + more)[..|line|] == line;
  }

  lemma FindFinds(s: Text, c: Octet)
    ensures Find(s, c) < |s| <==> !Lacks(s, c)
    ensures Lacks(s[..Find(s, c)], c) && (Find(s, c) < |s| ==> s[Find(s, c)] == c)
  {
    if !Lacks(s, c) {
      var k :| 0 <= k < |s| && s[k] == c;
    }
  }

  lemma HeadConsumes(ctx: Context, s: Text)
    requires InHead(ctx.state) && ParseHead(ctx, s).end.HeadDone?
    ensures |ParseHead(ctx, s).rest| < |s|
  {
    hide TakeLine, FirstCrlf;
    HeadStep(ctx, s);
  }

  lemma {:induction false} LeadingSnoc(s: Text, c: Octet, acc: nat)
    requires forall k :: 0 <= k < |s| ==> 0 <= DigitOf(s[k]) <= 9
    requires 0 <= DigitOf(c) <= 9
    ensures LeadingNumber(s, acc).1 == |s|
    ensures LeadingNumber(s + [c], acc) == (LeadingNumber(s, acc).0 * 10 + DigitOf(c), |s| + 1)
  {
    if s == [] {
      assert s + [c] == [c] && [c][1..] == [];
    } else {
      assert (s + [c])[1..] == s[1..] + [c];
      LeadingSnoc(s[1..], c, acc * 10 + DigitOf(s[0]));
    }
  }

  lemma LastDigit(s: Text, n: nat)
    requires s == LogStream.Digits(n, LogStream.Decimal)
    ensures 0 <= DigitOf(s[|s| - 1]) <= 9 && DigitOf(s[|s| - 1]) == n % 10
    ensures if n < 10 then s[..|s| - 1] == [] else s[..|s| - 1] == LogStream.Digits(n / 10, LogStream.Decimal)
  {
  }

  /** Reading back the decimal text of a number. */
  lemma {:induction false} LeadingDigits(s: Text, n: nat)
    requires s == LogStream.Digits(n, LogStream.Decimal)
    ensures forall k :: 0 <= k < |s| ==> 0 <= DigitOf(s[k]) <= 9
    ensures LeadingNumber(s, 0) == (n, |s|)
  {
    hide LogStream.Digits, DigitOf;
    var front, last := s[..|s| - 1], s[|s| - 1];
    LastDigit(s, n);
    if n >= 10 {
      LeadingDigits(front, n / 10);
    }
    assert s == front + [last];
    LeadingSnoc(front, last, 0);
  }

  const MAX_LENGTH := 0x7fff_ffff_ffff_ffff

  lemma {:induction false} LeadingParsed(s: Text, rest: Text)
    requires forall k :: 0 <= k < |s| ==> 0 <= DigitOf(s[k]) <= 9
    requires rest != [] ==> !(0 <= DigitOf(rest[0]) <= 9)
    ensures LogStream.ParseDigits(s, LogStream.Decimal) >= 0
    ensures LeadingNumber(s, 0) == (LogStream.ParseDigits(s, LogStream.Decimal), |s|)
    ensures LeadingNumber(s + rest, 0) == LeadingNumber(s, 0)
  {
    LeadingStops(s, rest, 0);
    if s != [] {
      var front, last := s[..|s| - 1], s[|s| - 1];
      LeadingParsed(front, []);
      LeadingSnoc(front, last, 0);
      assert s == front + [last];
    }
  }

  lemma {:induction false} LeadingStops(s: Text, rest: Text, acc: nat)
    requires forall k :: 0 <= k < |s| ==> 0 <= DigitOf(s[k]) <= 9
    requires rest != [] ==> !(0 <= DigitOf(rest[0]) <= 9)
    ensures LeadingNumber(s + rest, acc) == LeadingNumber(s, acc)
  {
    if s == [] {
      assert s + rest == rest;
    } else {
      assert (s + rest)[1..] == s[1..] + rest;
      LeadingStops(s[1..], rest, acc * 10 + DigitOf(s[0]));
    }
  }

  lemma {:induction false} TrimFrontPad(pad: Text, s: Text)
    requires (forall k :: 0 <= k < |pad| ==> IsSpace(pad[k])) && (s != [] ==> !IsSpace(s[0]))
    ensures TrimFront(pad + s) == s
  {
    if pad == [] {
      assert pad + s == s;
    } else {
      assert (pad + s)[1..] == pad[1..] + s;
      TrimFrontPad(pad[1..], s);
    }
  }

  predicate IsSign(c: Octet) {
    c == '-' || c == '+'
  }

  /** White space, a sign or none, digits, and what does not go on with another digit: every text is of this form. */
  lemma StollIs(pad: Text, sign: Text, digits: Text, rest: Text)
    requires forall k :: 0 <= k < |pad| ==> IsSpace(pad[k])
    requires sign == [] || (|sign| == 1 && IsSign(sign[0]))
    requires forall k :: 0 <= k < |digits| ==> 0 <= DigitOf(digits[k]) <= 9
    requires digits + rest != [] ==> !IsSpace((digits + rest)[0]) && !IsSign((digits + rest)[0])
    requires rest != [] ==> !(0 <= DigitOf(rest[0]) <= 9)
    ensures var n := LogStream.ParseDigits(digits, LogStream.Decimal);
            var value := if sign == ['-'] then -n else n;
            Stoll(pad + (sign + (digits + rest))) ==
            if digits == [] || !(-0x8000_0000_0000_0000 <= value <= 0x7fff_ffff_ffff_ffff) then None else Some(value)
  {
    hide LeadingNumber, LogStream.ParseDigits, TrimFront, DigitOf, IsSpace;
    var text := digits + rest;
    SignedFront(sign, text);
    TrimFrontPad(pad, sign + text);
    LeadingParsed(digits, rest);
  }

  lemma SignedFront(sign: Text, text: Text)
    requires sign == [] || (|sign| == 1 && IsSign(sign[0]))
    requires text != [] ==> !IsSpace(text[0]) && !IsSign(text[0])
    ensures var t := sign + text;
            && (t != [] ==> !IsSpace(t[0]))
            && (t != [] && IsSign(t[0]) <==> sign != [])
            && (if sign == [] then t == text else t[0] == sign[0] && t[1..] == text)
  {
    if sign == [] {
      assert sign + text == text;
    } else {
      assert (sign + text)[0] == sign[0] && (sign + text)[1..] == text;
    }
  }

  lemma StollReads(s: Text, n: nat)
    requires s == LogStream.Digits(n, LogStream.Decimal) && n <= MAX_LENGTH
    ensures Stoll(s) == Some(n)
  {
    hide LeadingNumber, LogStream.Digits;
    LeadingDigits(s, n);
    assert s != [] && 0 <= DigitOf(s[0]) <= 9;
    assert TrimFront(s) == s;
  }

  /** A well-formed request that declares its length: parsed whole, it ends well if and only if the length is exactly
      the number of bytes behind the headers. With more declared the assert in `retrieve` fails, with less the loop
      never ends. */
  lemma BodyEndsIff(verb: Method, path: Text, query: Text, version: Version, hs: seq<Header>, n: nat, body: Text)
    requires !verb.Invalid? && !version.Unknown? && WellFormedTarget(path, query)
    requires forall i :: 0 <= i < |hs| ==> WellFormedHeader(hs[i])
    requires CONTENT_LENGTH in HeaderMap(map[], hs) && n <= MAX_LENGTH
    requires HeaderMap(map[], hs)[CONTENT_LENGTH] == LogStream.Digits(n, LogStream.Decimal)
    ensures var r := Parse(INITIAL, RequestLine(verb, path, query, version) + CRLF + HeaderLines(hs) + body);
            && (r.end.AssertFails? <==> |body| < n)
            && (r.end.Spins? <==> |body| > n)
            && (r.end.Complete? <==> |body| == n)
            && (|body| == n ==> r == Result(Context(GotAll, Request(verb, version, path, query, body,
                                                                    HeaderMap(map[], hs))), [], Complete))
  {
    hide ParseHead, HeaderLines, RequestLine, HeaderMap, WellFormedTarget, WellFormedHeader, Stoll;
    Regroup(RequestLine(verb, path, query, version), HeaderLines(hs), body);
    HeadRead(verb, path, query, version, hs, body);
    StollReads(HeaderMap(map[], hs)[CONTENT_LENGTH], n);
  }

  /** In general: of the streams with a complete head, exactly those end well that declare no length or the length of
      what follows, and exactly those with a length that `stoll` cannot read end in its exception. */
  lemma EndsWellIff(ctx: Context, s: Text)
    requires InHead(ctx.state) && ParseHead(ctx, s).end.HeadDone?
    ensures var h := ParseHead(ctx, s);
            var text := GetHeader(h.ctx.request, CONTENT_LENGTH);
            && (Parse(ctx, s).end.Complete? <==>
                  text == [] || (Stoll(text).Some? && Stoll(text).value % 0x1_0000_0000_0000_0000 == |h.rest|))
            && (Parse(ctx, s).end.Throws? <==> text != [] && Stoll(text).None?)
  {
    hide ParseHead, Stoll;
  }

  // ---------- The objects ----------

  class HttpRequest {
    var verb: Method
    var version: Version
    var path: Text
    var query: Text
    var body: Text
    var headers: map<Text, Text>

    function View(): Request
      reads this
    {
      Request(verb, version, path, query, body, headers)
    }

    constructor ()
      ensures View() == EMPTY_REQUEST
    {
      verb, version, path, query, body, headers := Invalid, Unknown, [], [], [], map[];
    }

    /** `addHeader`, with its two trimming loops; `line[colon]` is the colon. */
    method AddHeader(line: Text, colon: nat)
      requires colon < |line|
      modifies this
      ensures View() == WithHeader(old(View()), line, colon)
    {
      var field := line[..colon];
      var start := colon + 1;
      while start < |line| && IsSpace(line[start])
        invariant start <= |line| && TrimFront(line[start..]) == TrimFront(line[colon + 1..])
      {
        assert line[start..][1..] == line[start + 1..];
        start := start + 1;
      }
      var value := line[start..];
      while value != [] && IsSpace(value[|value| - 1])
        invariant TrimBack(value) == TrimBack(TrimFront(line[colon + 1..]))
        decreases |value|
      {
        value := value[..|value| - 1];
      }
      headers := headers[field := value];
    }

    /** `setMethod`, with its assert. */
    method SetMethod(name: Text) returns (ok: bool)
      requires verb.Invalid?
      modifies this`verb
      ensures verb == MethodOf(name) && (ok <==> !verb.Invalid?)
    {
      assert verb.Invalid?;
      verb := MethodOf(name);
      ok := !verb.Invalid?;
    }
  }

  class HttpContext {
    var state: ParseState
    const request: HttpRequest

    ghost function View(): Context
      reads this, request
    {
      Context(state, request.View())
    }

    constructor ()
      ensures View() == INITIAL && fresh(request)
    {
      state := ExpectRequestLine;
      request := new HttpRequest();
    }

    /** `processRequestLine`; the assert in `setMethod` needs a request that no line was parsed into before. */
    method ReadRequestLine(line: Text) returns (succeed: bool)
      requires request.verb.Invalid?
      modifies request
      ensures (succeed, request.View()) == ProcessRequestLine(old(request.View()), line)
    {
      hide Find, MethodOf;
      succeed := false;
      var space := Find(line, ' ');
      if space != |line| {
        var ok := request.SetMethod(line[..space]);
        if ok {
          var rest := line[space + 1..];
          space := Find(rest, ' ');
          if space != |rest| {
            var question := Find(rest[..space], '?');
            if question != space {
              request.path := rest[..space][..question];
              request.query := rest[..space][question..];
            } else {
              request.path := rest[..space];
            }
            var version := rest[space + 1..];
            succeed := |version| == 8 && version[..7] == "HTTP/1.";
            if succeed {
              if version[7] == '1' {
                request.version := Http11;
              } else if version[7] == '0' {
                request.version := Http10;
              } else {
                succeed := false;
              }
            }
          }
        }
      }
    }

    /** `parseRequest`: one call on the readable bytes. A turn that would repeat for ever, fail an assert or throw ends
        the method with that verdict. */
    method ParseRequest(buf: Buffer) returns (end: End)
      requires buf.Valid()
      requires state.ExpectRequestLine? ==> request.verb.Invalid?
      modifies this, request, buf
      ensures buf.Valid()
      ensures Result(View(), buf.Readable(), end) == Parse(old(View()), old(buf.Readable()))
    {
      hide ParseHead, ParseBody;
      ghost var goal := Parse(View(), buf.Readable());
      while true
        invariant buf.Valid()
        invariant state.ExpectRequestLine? ==> request.verb.Invalid?
        invariant Parse(View(), buf.Readable()) == goal
        decreases |buf.Readable()|
      {
        if InHead(state) {
          var last := ReadLine(buf);
          if last.Some? {
            return last.value;
          }
        } else if state.ExpectBody? {
          end := ReadBody(buf);
          return;
        } else {
          return Spins;
        }
      }
    }

    /** A turn of the loop that looks for a line: either it is the last turn, or it consumed the line. */
    method ReadLine(buf: Buffer) returns (end: Option<End>)
      requires buf.Valid() && InHead(state)
      requires state.ExpectRequestLine? ==> request.verb.Invalid?
      modifies this, request, buf
      ensures buf.Valid()
      ensures end.Some? ==> Result(View(), buf.Readable(), end.value) == Parse(old(View()), old(buf.Readable()))
      ensures end.None? ==>
                && Parse(View(), buf.Readable()) == Parse(old(View()), old(buf.Readable()))
                && |buf.Readable()| < |old(buf.Readable())|
                && !state.ExpectRequestLine?
    {
      hide FirstCrlf, ProcessRequestLine, WithHeader, ParseBody, Find;
      var crlf := buf.FindCrlf();
      if crlf.None? {
        return Some(NeedMore);
      }
      var line := buf.Readable()[..crlf.value];
      if state.ExpectRequestLine? {
        var ok := ReadRequestLine(line);
        if !ok {
          return Some(BadRequest);
        }
        state := ExpectHeaders;
      } else {
        var colon := Find(line, ':');
        if colon != |line| {
          request.AddHeader(line, colon);
        } else {
          state := ExpectBody;
        }
      }
      buf.Retrieve(crlf.value + 2);
      return None;
    }

    /** The turn of the loop that deals with the body, which is always the last. */
    method ReadBody(buf: Buffer) returns (end: End)
      requires buf.Valid() && state.ExpectBody?
      modifies this`state, request`body, buf
      ensures buf.Valid()
      ensures Result(View(), buf.Readable(), end) == ParseBody(old(View()), old(buf.Readable()))
    {
      hide DeclaredLength;
      var length := DeclaredLength(request.View());
      match length
      case None =>
        state := GotAll;
        return Complete;
      case Some(None) => return Throws;
      case Some(Some(len)) =>
        if len > |buf.Readable()| {
          return AssertFails;
        } else if len == |buf.Readable()| {
          request.body := buf.Readable();
          buf.Retrieve(len);
          state := GotAll;
          return Complete;
        } else {
          return Spins;
        }
    }
  }
}
