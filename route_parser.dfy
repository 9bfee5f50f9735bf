/**
 * The pattern-table route parser: five call-site patterns tried in table order over a
 * file's text, one route per match, every route labelled with the framework sniffed from
 * the same text; plus the `:name` placeholder extractor and the path check.
 */
module RouteParsing {
  import opened Wrappers
  import opened Text
  import opened Regex
  import opened Model

  const LowerVerbs: seq<string> := ["get", "post", "put", "delete", "patch"]
  const CapitalVerbs: seq<string> := ["Get", "Post", "Put", "Delete", "Patch"]

  /** One entry of the pattern table: `<receiver>(v1|…)\(['"`]([^'"`]+)['"`]`, with a
      closing `\)` when `closeParen`. */
  datatype CallPattern = CallPattern(receiver: string, verbs: seq<string>, closeParen: bool) {
    function Regex(): Pattern {
      CallSite(receiver, verbs, closeParen)
    }
  }

  /** `supportedPatterns`: Express `app.`, `router.`, Fastify `fastify.`, Koa `router.`
      (the same pattern a second time) and the NestJS decorators. */
  const SupportedPatterns: seq<CallPattern> := [
    CallPattern("app.", LowerVerbs, false),
    CallPattern("router.", LowerVerbs, false),
    CallPattern("fastify.", LowerVerbs, false),
    CallPattern("router.", LowerVerbs, false),
    CallPattern("@", CapitalVerbs, true)]

  // ---------------------------------------------------------------------------------------
  // Framework sniffing

  /** `detectFrameworkFromContent`: the ordered substring tests. */
  function DetectFrameworkFromContent(content: string): (r: string)
    ensures r in ["nestjs", "express", "fastify", "koa", "unknown"]
  {
    if Contains(content, "@Controller") || Contains(content, "@Get") || Contains(content, "@Post") then "nestjs"
    else if Contains(content, "express") || Contains(content, "app.get") || Contains(content, "app.post") then "express"
    else if Contains(content, "fastify") || Contains(content, "fastify.get") || Contains(content, "fastify.post") then "fastify"
    else if Contains(content, "koa") || Contains(content, "router.get") || Contains(content, "router.post") then "koa"
    else "unknown"
  }

  /** The same tests as a table: a label and the substrings any one of which selects it. */
  const ContentMarkers: seq<(string, seq<string>)> := [
    ("nestjs", ["@Controller", "@Get", "@Post"]),
    ("express", ["express", "app.get", "app.post"]),
    ("fastify", ["fastify", "fastify.get", "fastify.post"]),
    ("koa", ["koa", "router.get", "router.post"])]

  predicate AnyMarker(content: string, markers: seq<string>) {
    exists k :: 0 <= k < |markers| && Contains(content, markers[k])
  }

  /** The label of the first table entry with a marker in `content`, else `"unknown"`. */
  function FirstMarked(table: seq<(string, seq<string>)>, content: string): string
    decreases |table|
  {
    if table == [] then "unknown"
    else if AnyMarker(content, table[0].1) then table[0].0
    else FirstMarked(table[1..], content)
  }

  /** The first-hit search returns the label of an entry that has a marker while no earlier
      entry has one, or `"unknown"` when no entry has one. */
  lemma {:induction false} FirstMarkedIsFirstHit(table: seq<(string, seq<string>)>, content: string)
    ensures var r := FirstMarked(table, content);
      (r == "unknown" && forall j :: 0 <= j < |table| ==> !AnyMarker(content, table[j].1)) ||
      (exists i :: 0 <= i < |table| && table[i].0 == r && AnyMarker(content, table[i].1) &&
         forall j :: 0 <= j < i ==> !AnyMarker(content, table[j].1))
    decreases |table|
  {
    if table != [] && !AnyMarker(content, table[0].1) {
      var rest := table[1..];
      FirstMarkedIsFirstHit(rest, content);
      var r := FirstMarked(table, content);
      if r == "unknown" && forall j :: 0 <= j < |rest| ==> !AnyMarker(content, rest[j].1) {
        forall j | 0 <= j < |table| ensures !AnyMarker(content, table[j].1) {
          if j > 0 { assert table[j] == rest[j - 1]; }
        }
      } else {
        var i :| 0 <= i < |rest| && rest[i].0 == r && AnyMarker(content, rest[i].1) &&
          forall j :: 0 <= j < i ==> !AnyMarker(content, rest[j].1);
        assert table[i + 1] == rest[i];
        forall j | 0 <= j < i + 1 ensures !AnyMarker(content, table[j].1) {
          if j > 0 { assert table[j] == rest[j - 1]; }
        }
      }
    }
  }

  lemma AnyMarkerOfThree(content: string, a: string, b: string, c: string)
    ensures AnyMarker(content, [a, b, c]) <==> Contains(content, a) || Contains(content, b) || Contains(content, c)
  {
    var ms := [a, b, c];
    if Contains(content, a) { assert Contains(content, ms[0]); }
    if Contains(content, b) { assert Contains(content, ms[1]); }
    if Contains(content, c) { assert Contains(content, ms[2]); }
  }

  /** `detectFrameworkFromContent` is the first-hit search over `ContentMarkers`: nestjs,
      express, fastify, koa in that order, else `"unknown"`. */
  lemma DetectFrameworkFirstHit(content: string)
    ensures DetectFrameworkFromContent(content) == FirstMarked(ContentMarkers, content)
  {
    AnyMarkerOfThree(content, "@Controller", "@Get", "@Post");
    AnyMarkerOfThree(content, "express", "app.get", "app.post");
    AnyMarkerOfThree(content, "fastify", "fastify.get", "fastify.post");
    AnyMarkerOfThree(content, "koa", "router.get", "router.post");
    var t := ContentMarkers;
    assert t[1..][1..][1..][1..] == [];
  }

  /** A text that mentions `fastify.get` or `fastify.post` already mentions `fastify`, so
      the last two Fastify tests never decide anything. */
  lemma FastifyCallsImplyName(content: string)
    ensures Contains(content, "fastify.get") || Contains(content, "fastify.post") ==> Contains(content, "fastify")
  {
    ContainsWitness(content, "fastify.get");
    ContainsWitness(content, "fastify.post");
    ContainsWitness(content, "fastify");
    if Contains(content, "fastify.get") {
      var k: nat :| StartsAt(content, k, "fastify.get");
      assert content[k..k + 7] == content[k..k + 11][..7];
      assert StartsAt(content, k, "fastify");
    } else if Contains(content, "fastify.post") {
      var k: nat :| StartsAt(content, k, "fastify.post");
      assert content[k..k + 7] == content[k..k + 12][..7];
      assert StartsAt(content, k, "fastify");
    }
  }

  // ---------------------------------------------------------------------------------------
  // Routes

  /** A call-site match: a verb of the alternation and a non-empty path without quotes. */
  predicate CallMatch(m: Match, verbs: seq<string>) {
    |m.groups| == 2 && m.groups[0] in verbs && |m.groups[1]| > 0 &&
    forall c :: c in m.groups[1] ==> !IsQuote(c, true)
  }

  predicate CallMatches(ms: seq<Match>, verbs: seq<string>) {
    forall k :: 0 <= k < |ms| ==> CallMatch(ms[k], verbs)
  }

  lemma CallMatchesShape(cp: CallPattern, content: string, from: nat)
    ensures CallMatches(AllFrom(cp.Regex(), content, from), cp.verbs)
  {
    var ms := AllFrom(cp.Regex(), content, from);
    forall k | 0 <= k < |ms| ensures CallMatch(ms[k], cp.verbs) {
      assert MatchAt(cp.Regex(), content, ms[k].start) == Some(Attempt(ms[k].end, ms[k].groups));
      assert CallSiteAt(cp.receiver, cp.verbs, cp.closeParen, content, ms[k].start) == Some(Attempt(ms[k].end, ms[k].groups));
    }
  }

  /** The route pushed for one match: `match[1] ? match[1].toLowerCase() : 'get'` and
      `match[2] || '/'`. */
  function RouteOfMatch(m: Match, filePath: string, framework: string): Route
    requires |m.groups| == 2
  {
    Route(if m.groups[0] != "" then Lower(m.groups[0]) else "get",
          if m.groups[1] != "" then m.groups[1] else "/",
          None, filePath, None, None, Some(framework))
  }

  function RoutesOfMatches(ms: seq<Match>, verbs: seq<string>, filePath: string, framework: string): (r: seq<Route>)
    requires CallMatches(ms, verbs)
    ensures |r| == |ms|
    decreases |ms|
  {
    if ms == [] then []
    else RoutesOfMatches(ms[..|ms| - 1], verbs, filePath, framework) + [RouteOfMatch(ms[|ms| - 1], filePath, framework)]
  }

  lemma RoutesOfMatchesStep(done: seq<Match>, m: Match, verbs: seq<string>, filePath: string, framework: string)
    requires CallMatches(done, verbs) && CallMatch(m, verbs)
    ensures CallMatches(done + [m], verbs)
    ensures RoutesOfMatches(done + [m], verbs, filePath, framework) ==
      RoutesOfMatches(done, verbs, filePath, framework) + [RouteOfMatch(m, filePath, framework)]
  {
    assert (done + [m])[..|done|] == done;
  }

  /** The k-th route comes from the k-th match. */
  lemma {:induction false} RoutesOfMatchesIndex(ms: seq<Match>, verbs: seq<string>, filePath: string, framework: string)
    requires CallMatches(ms, verbs)
    ensures forall k :: 0 <= k < |ms| ==> RoutesOfMatches(ms, verbs, filePath, framework)[k] == RouteOfMatch(ms[k], filePath, framework)
    decreases |ms|
  {
    if ms != [] {
      var prefix := ms[..|ms| - 1];
      RoutesOfMatchesIndex(prefix, verbs, filePath, framework);
      forall k | 0 <= k < |ms| ensures RoutesOfMatches(ms, verbs, filePath, framework)[k] == RouteOfMatch(ms[k], filePath, framework) {
        if k < |prefix| { assert ms[k] == prefix[k]; }
      }
    }
  }

  /** The routes one table entry contributes: one per match, in text order. */
  function PatternRoutes(cp: CallPattern, content: string, filePath: string): seq<Route> {
    CallMatchesShape(cp, content, 0);
    RoutesOfMatches(All(cp.Regex(), content), cp.verbs, filePath, DetectFrameworkFromContent(content))
  }

  /** The routes of the table entries `ps`, entry after entry. */
  function TableRoutes(ps: seq<CallPattern>, content: string, filePath: string): seq<Route>
    decreases |ps|
  {
    if ps == [] then []
    else TableRoutes(ps[..|ps| - 1], content, filePath) + PatternRoutes(ps[|ps| - 1], content, filePath)
  }

  lemma TableRoutesStep(ps: seq<CallPattern>, i: nat, content: string, filePath: string)
    requires i < |ps|
    ensures TableRoutes(ps[..i + 1], content, filePath) == TableRoutes(ps[..i], content, filePath) + PatternRoutes(ps[i], content, filePath)
  {
    assert ps[..i + 1][..i] == ps[..i];
  }

  lemma TableOfFive(ps: seq<CallPattern>, content: string, filePath: string)
    requires |ps| == 5
    ensures TableRoutes(ps, content, filePath) ==
      PatternRoutes(ps[0], content, filePath) + PatternRoutes(ps[1], content, filePath) +
      PatternRoutes(ps[2], content, filePath) + PatternRoutes(ps[3], content, filePath) +
      PatternRoutes(ps[4], content, filePath)
  {
    assert ps[..5] == ps;
    TableRoutesStep(ps, 0, content, filePath);
    TableRoutesStep(ps, 1, content, filePath);
    TableRoutesStep(ps, 2, content, filePath);
    TableRoutesStep(ps, 3, content, filePath);
    TableRoutesStep(ps, 4, content, filePath);
    assert ps[..0] == [];
    assert [] + PatternRoutes(ps[0], content, filePath) == PatternRoutes(ps[0], content, filePath);
  }

  /** The output is the five entries' routes in table order; the `router.` entry is there
      twice. */
  lemma ParseRoutesInTableOrder(content: string, filePath: string)
    ensures var r := PatternRoutes(SupportedPatterns[1], content, filePath);
      SupportedPatterns[1] == SupportedPatterns[3] &&
      TableRoutes(SupportedPatterns, content, filePath) ==
        PatternRoutes(SupportedPatterns[0], content, filePath) + r +
        PatternRoutes(SupportedPatterns[2], content, filePath) + r +
        PatternRoutes(SupportedPatterns[4], content, filePath)
  {
    TableOfFive(SupportedPatterns, content, filePath);
  }

  /** Every `router.<verb>('…')` route is emitted at least twice. */
  lemma RouterRoutesTwice(content: string, filePath: string)
    ensures forall r :: r in PatternRoutes(SupportedPatterns[1], content, filePath) ==>
      multiset(TableRoutes(SupportedPatterns, content, filePath))[r] >= 2
  {
    ParseRoutesInTableOrder(content, filePath);
    var a := PatternRoutes(SupportedPatterns[0], content, filePath);
    var r := PatternRoutes(SupportedPatterns[1], content, filePath);
    var f := PatternRoutes(SupportedPatterns[2], content, filePath);
    var n := PatternRoutes(SupportedPatterns[4], content, filePath);
    assert multiset(a + r + f + r + n) == multiset(a) + multiset(r) + multiset(f) + multiset(r) + multiset(n);
  }

  lemma LowerVerb(v: string)
    requires v in LowerVerbs || v in CapitalVerbs
    ensures Lower(v) in LowerVerbs
  {
    if v in CapitalVerbs {
      if v == "Get" { assert Lower(v) == "get"; }
      else if v == "Post" { assert Lower(v) == "post"; }
      else if v == "Put" { assert Lower(v) == "put"; }
      else if v == "Delete" { assert Lower(v) == "delete"; }
      else { assert Lower(v) == "patch"; }
    } else {
      if v == "get" { assert Lower(v) == "get"; }
      else if v == "post" { assert Lower(v) == "post"; }
      else if v == "put" { assert Lower(v) == "put"; }
      else if v == "delete" { assert Lower(v) == "delete"; }
      else { assert Lower(v) == "patch"; }
    }
  }

  /** What every emitted route looks like: a lower-case method of the five, the matched
      non-empty quote-free path (so neither `'get'` nor `'/'` is ever a default), the file,
      and the one framework label of the whole text. */
  predicate EmittedRoute(r: Route, content: string, filePath: string) {
    r.httpMethod in LowerVerbs && r.path != "" && (forall c :: c in r.path ==> !IsQuote(c, true)) &&
    r.file == filePath && r.framework == Some(DetectFrameworkFromContent(content)) &&
    r.controller.None? && r.methodName.None? && r.parameters.None?
  }

  lemma PatternRoutesEmitted(cp: CallPattern, content: string, filePath: string)
    requires cp.verbs == LowerVerbs || cp.verbs == CapitalVerbs
    ensures forall r :: r in PatternRoutes(cp, content, filePath) ==> EmittedRoute(r, content, filePath)
  {
    var ms := All(cp.Regex(), content);
    CallMatchesShape(cp, content, 0);
    var fw := DetectFrameworkFromContent(content);
    RoutesOfMatchesIndex(ms, cp.verbs, filePath, fw);
    var rs := PatternRoutes(cp, content, filePath);
    forall r | r in rs ensures EmittedRoute(r, content, filePath) {
      var k :| 0 <= k < |rs| && rs[k] == r;
      LowerVerb(ms[k].groups[0]);
    }
  }

  lemma {:induction false} TableRoutesEmitted(ps: seq<CallPattern>, content: string, filePath: string)
    requires forall i :: 0 <= i < |ps| ==> ps[i].verbs == LowerVerbs || ps[i].verbs == CapitalVerbs
    ensures forall r :: r in TableRoutes(ps, content, filePath) ==> EmittedRoute(r, content, filePath)
    decreases |ps|
  {
    if ps != [] {
      TableRoutesEmitted(ps[..|ps| - 1], content, filePath);
      PatternRoutesEmitted(ps[|ps| - 1], content, filePath);
    }
  }

  /** Every route `parseRoutes` emits is an `EmittedRoute`; in particular all routes of one
      text carry the same framework label. */
  lemma ParseRoutesEmitted(content: string, filePath: string)
    ensures forall r :: r in TableRoutes(SupportedPatterns, content, filePath) ==> EmittedRoute(r, content, filePath)
  {
    TableRoutesEmitted(SupportedPatterns, content, filePath);
  }

  /** A decorator whose argument list is empty, `@Get()`, or an empty quoted string,
      `@Get('')`, is not matched by the table's decorator pattern. */
  lemma NoEmptyArgumentDecorator(s: string, i: nat, v: string, q: char)
    requires v in CapitalVerbs && IsQuote(q, true)
    requires StartsAt(s, i, "@" + v + "()") || StartsAt(s, i, "@" + v + "(" + [q, q])
    ensures MatchAt(SupportedPatterns[4].Regex(), s, i).None?
  {
    EmptyArgumentAt(s, i, v, q);
    EmptyArgumentNotQuoted(s, i + 1 + |v| + 1);
    OnlyVerbAt(s, i + 1, v);
    CallSiteNone(s, i, "@", CapitalVerbs, true, v);
  }

  lemma EmptyArgumentAt(s: string, i: nat, v: string, q: char)
    requires IsQuote(q, true)
    requires StartsAt(s, i, "@" + v + "()") || StartsAt(s, i, "@" + v + "(" + [q, q])
    ensures StartsAt(s, i, "@") && StartsAt(s, i + 1, v + "(")
    ensures var j := i + |v| + 2;
      j < |s| && (s[j] == ')' || (IsQuote(s[j], true) && j + 1 < |s| && IsQuote(s[j + 1], true)))
  {
    var prefix := if StartsAt(s, i, "@" + v + "()") then "@" + v + "()" else "@" + v + "(" + [q, q];
    assert prefix[..|v| + 2] == "@" + v + "(";
    StartsAtPrefix(s, i, prefix, |v| + 2);
    StartsAtTail(s, i, "@" + v + "(");
    StartsAtChar(s, i, prefix, |v| + 2);
    if prefix != "@" + v + "()" {
      StartsAtChar(s, i, prefix, |v| + 3);
    }
  }

  lemma StartsAtPrefix(s: string, i: nat, p: string, n: nat)
    requires StartsAt(s, i, p) && n <= |p|
    ensures StartsAt(s, i, p[..n])
  {
    assert s[i..i + n] == s[i..i + |p|][..n];
  }

  /** `@` then `v(` at `i` means `v(` at `i + 1`. */
  lemma StartsAtTail(s: string, i: nat, p: string)
    requires |p| > 0 && StartsAt(s, i, p)
    ensures StartsAt(s, i + 1, p[1..]) && StartsAt(s, i, p[..1])
  {
    assert s[i + 1..i + |p|] == s[i..i + |p|][1..];
    assert s[i..i + 1] == s[i..i + |p|][..1];
  }

  /** `)` or two quotes in a row where the quoted argument should start: no non-empty quoted
      argument there. */
  lemma EmptyArgumentNotQuoted(s: string, j: nat)
    requires j < |s|
    requires s[j] == ')' || (IsQuote(s[j], true) && j + 1 < |s| && IsQuote(s[j + 1], true))
    ensures QuotedAt(s, j, true, true, true).None?
  {
  }

  lemma CallSiteNone(s: string, i: nat, receiver: string, verbs: seq<string>, closeParen: bool, v: string)
    requires StartsAt(s, i, receiver)
    requires forall w :: w in verbs && w != v ==> !StartsAt(s, i + |receiver|, w + "(")
    requires StartsAt(s, i + |receiver|, v + "(") ==> QuotedAt(s, i + |receiver| + |v| + 1, true, true, closeParen).None?
    ensures MatchAt(CallSite(receiver, verbs, closeParen), s, i).None?
  {
    CallAltNone(s, i + |receiver|, verbs, closeParen, v);
  }

  /** At a position where `v(` starts, no other verb of the decorator list followed by `(`
      starts. */
  lemma OnlyVerbAt(s: string, j: nat, v: string)
    requires v in CapitalVerbs && StartsAt(s, j, v + "(")
    ensures forall w :: w in CapitalVerbs && w != v ==> !StartsAt(s, j, w + "(")
  {
    forall w | w in CapitalVerbs && w != v && StartsAt(s, j, w + "(") ensures false {
      var n := if |v| < |w| then |v| else |w|;
      StartsAtChar(s, j, v + "(", 0);
      StartsAtChar(s, j, w + "(", 0);
      StartsAtChar(s, j, v + "(", 1);
      StartsAtChar(s, j, w + "(", 1);
      StartsAtChar(s, j, v + "(", 2);
      StartsAtChar(s, j, w + "(", 2);
      StartsAtChar(s, j, v + "(", 3);
      StartsAtChar(s, j, w + "(", 3);
    }
  }

  lemma {:induction false} CallAltNone(s: string, j: nat, verbs: seq<string>, closeParen: bool, v: string)
    requires forall w :: w in verbs && w != v ==> !StartsAt(s, j, w + "(")
    requires StartsAt(s, j, v + "(") ==> QuotedAt(s, j + |v| + 1, true, true, closeParen).None?
    ensures CallAltAt(s, j, verbs, closeParen).None?
    decreases |verbs|
  {
    if verbs != [] {
      assert verbs[0] in verbs;
      forall w | w in verbs[1..] && w != v ensures !StartsAt(s, j, w + "(") {
        assert w in verbs;
      }
      CallAltNone(s, j, verbs[1..], closeParen, v);
    }
  }

  // ---------------------------------------------------------------------------------------
  // Placeholders and path checks

  predicate NameMatches(ms: seq<Match>) {
    forall k :: 0 <= k < |ms| ==> |ms[k].groups| == 1
  }

  function Names(ms: seq<Match>): (r: seq<string>)
    requires NameMatches(ms)
    ensures |r| == |ms|
    decreases |ms|
  {
    if ms == [] then [] else Names(ms[..|ms| - 1]) + [ms[|ms| - 1].groups[0]]
  }

  lemma NamesStep(done: seq<Match>, m: Match)
    requires NameMatches(done) && |m.groups| == 1
    ensures NameMatches(done + [m])
    ensures Names(done + [m]) == Names(done) + [m.groups[0]]
  {
    assert (done + [m])[..|done|] == done;
  }

  lemma {:induction false} NamesIndex(ms: seq<Match>)
    requires NameMatches(ms)
    ensures forall k :: 0 <= k < |ms| ==> Names(ms)[k] == ms[k].groups[0]
    decreases |ms|
  {
    if ms != [] {
      NamesIndex(ms[..|ms| - 1]);
      forall k | 0 <= k < |ms| ensures Names(ms)[k] == ms[k].groups[0] {
        if k < |ms| - 1 { assert ms[k] == ms[..|ms| - 1][k]; }
      }
    }
  }

  /** `parseParameters(path)`: the capture of every `:([^/]+)` match, in order. */
  function PlaceholderNames(path: string): seq<string> {
    PatternGroups();
    AllFromGroups(Placeholder, path, 0, 1);
    Names(All(Placeholder, path))
  }

  /** How many times `c` occurs in `s` from position `from` on. */
  function CountFrom(s: string, c: char, from: nat): nat
    decreases |s| - from
  {
    if from >= |s| then 0 else (if s[from] == c then 1 else 0) + CountFrom(s, c, from + 1)
  }

  lemma {:induction false} CountFromMono(s: string, c: char, a: nat, b: nat)
    requires a <= b
    ensures CountFrom(s, c, a) >= CountFrom(s, c, b)
    decreases b - a
  {
    if a < b {
      CountFromMono(s, c, a + 1, b);
    }
  }

  /** Matches of `:([^/]+)` from `from` on never outnumber the colons there. */
  lemma {:induction false} PlaceholdersBoundedByColons(path: string, from: nat)
    ensures |AllFrom(Placeholder, path, from)| <= CountFrom(path, ':', from)
    decreases |path| + 1 - from
  {
    var next := FirstFrom(Placeholder, path, from);
    if next.Some? {
      var m := next.value;
      AllFromStep(Placeholder, path, from);
      assert PlaceholderAt(path, m.start) == Some(Attempt(m.end, m.groups));
      PlaceholdersBoundedByColons(path, m.end);
      CountFromMono(path, ':', from, m.start);
      CountFromMono(path, ':', m.start + 1, m.end);
    } else {
      AllFromDone(Placeholder, path, from);
    }
  }

  /** `name` is the non-empty, slash-free text after one of the colons of `path`, running
      up to the next `/` or the end. */
  predicate PlaceholderName(path: string, name: string) {
    |name| > 0 && '/' !in name &&
    exists i :: 0 <= i < |path| && path[i] == ':' && i + 1 + |name| <= |path| &&
      path[i + 1..i + 1 + |name|] == name &&
      (i + 1 + |name| == |path| || path[i + 1 + |name|] == '/')
  }

  lemma PlaceholderMatchName(path: string, m: Match)
    requires MatchAt(Placeholder, path, m.start) == Some(Attempt(m.end, m.groups))
    ensures |m.groups| == 1 && PlaceholderName(path, m.groups[0])
  {
    assert PlaceholderAt(path, m.start) == Some(Attempt(m.end, m.groups));
    var i := m.start;
    assert m.groups[0] == path[i + 1..m.end];
  }

  /** Every name is a `PlaceholderName` of the path, and there are at most as many names as
      colons. */
  lemma PlaceholderNamesShape(path: string)
    ensures |PlaceholderNames(path)| <= CountFrom(path, ':', 0)
    ensures forall k :: 0 <= k < |PlaceholderNames(path)| ==> PlaceholderName(path, PlaceholderNames(path)[k])
  {
    var ms := All(Placeholder, path);
    PatternGroups();
    AllFromGroups(Placeholder, path, 0, 1);
    PlaceholdersBoundedByColons(path, 0);
    NamesIndex(ms);
    var names := PlaceholderNames(path);
    forall k | 0 <= k < |names| ensures PlaceholderName(path, names[k]) {
      PlaceholderMatchName(path, ms[k]);
    }
  }

  /** `isValidPath(path)` for a string argument: truthy exactly for a non-empty string that
      starts with `/`. */
  function IsValidPath(path: string): (valid: bool)
    ensures valid <==> |path| > 0 && path[0] == '/'
  {
    path != "" && StartsAt(path, 0, "/")
  }

  /** `parseNextJSRoutes`: a placeholder that finds nothing. */
  function ParseNextJSRoutes(filePath: string): (routes: seq<Route>)
    ensures routes == []
  {
    []
  }

  // ---------------------------------------------------------------------------------------
  // The parser object

  class RouteParser {
    const supportedPatterns: seq<CallPattern>

    constructor ()
      ensures supportedPatterns == SupportedPatterns
    {
      supportedPatterns := SupportedPatterns;
    }

    /** `parseRoutes`: for each table entry in order, a `while (exec)` loop that pushes one
        route per match. */
    method ParseRoutes(content: string, filePath: string) returns (routes: seq<Route>)
      ensures routes == TableRoutes(supportedPatterns, content, filePath)
    {
      routes := [];
      for i := 0 to |supportedPatterns|
        invariant routes == TableRoutes(supportedPatterns[..i], content, filePath)
      {
        var pattern := supportedPatterns[i];
        var found := ExecPattern(pattern, content, filePath);
        routes := routes + found;
        TableRoutesStep(supportedPatterns, i, content, filePath);
      }
      assert supportedPatterns[..|supportedPatterns|] == supportedPatterns;
    }

    /** The `while (exec)` loop of one table entry. */
    static method ExecPattern(pattern: CallPattern, content: string, filePath: string) returns (found: seq<Route>)
      ensures found == PatternRoutes(pattern, content, filePath)
    {
      var regex := pattern.Regex();
      found := [];
      var from: nat := 0;
      var next := FirstFrom(regex, content, from);
      ghost var done: seq<Match> := [];
      CallMatchesShape(pattern, content, 0);
      while next.Some?
        invariant next == FirstFrom(regex, content, from)
        invariant done + AllFrom(regex, content, from) == All(regex, content)
        invariant CallMatches(done, pattern.verbs)
        invariant found == RoutesOfMatches(done, pattern.verbs, filePath, DetectFrameworkFromContent(content))
        decreases |content| + 1 - from
      {
        var m := next.value;
        ExecStep(regex, content, from, done);
        assert CallMatch(m, pattern.verbs) by {
          assert (done + [m] + AllFrom(regex, content, m.end))[|done|] == m;
        }
        var method_ := if m.groups[0] != "" then Lower(m.groups[0]) else "get";
        var path := if m.groups[1] != "" then m.groups[1] else "/";
        RoutesOfMatchesStep(done, m, pattern.verbs, filePath, DetectFrameworkFromContent(content));
        found := found + [Route(method_, path, None, filePath, None, None, Some(DetectFrameworkFromContent(content)))];
        done := done + [m];
        from := m.end;
        next := FirstFrom(regex, content, from);
      }
      ExecDone(regex, content, from, done);
    }

    /** `parseFile`: the routes of the file's text, or none when it cannot be read. The
        `framework` argument plays no part. */
    method ParseFile(filePath: string, framework: string, fs: FileSystem) returns (routes: seq<Route>)
      ensures filePath in fs ==> routes == TableRoutes(supportedPatterns, fs[filePath], filePath)
      ensures filePath !in fs ==> routes == []
    {
      if filePath in fs {
        routes := ParseRoutes(fs[filePath], filePath);
      } else {
        routes := [];
      }
    }

    /** `parseParameters`: a `while (exec)` loop collecting each placeholder's name. */
    method ParseParameters(path: string) returns (params: seq<string>)
      ensures params == PlaceholderNames(path)
    {
      var paramRegex := Placeholder;
      params := [];
      var from: nat := 0;
      var next := FirstFrom(paramRegex, path, from);
      ghost var done: seq<Match> := [];
      PatternGroups();
      AllFromGroups(paramRegex, path, 0, 1);
      while next.Some?
        invariant next == FirstFrom(paramRegex, path, from)
        invariant done + AllFrom(paramRegex, path, from) == All(paramRegex, path)
        invariant NameMatches(done)
        invariant params == Names(done)
        decreases |path| + 1 - from
      {
        var m := next.value;
        ExecStep(paramRegex, path, from, done);
        FirstFromGroups(paramRegex, path, from, 1);
        NamesStep(done, m);
        params := params + [m.groups[0]];
        done := done + [m];
        from := m.end;
        next := FirstFrom(paramRegex, path, from);
      }
      ExecDone(paramRegex, path, from, done);
    }
  }
}
