/**
 * The fixed regular expressions of the scanners and the formatter, each written out as a
 * matcher that tries the pattern at one position with the engine's leftmost, greedy,
 * backtracking semantics. `FirstFrom` is `RegExp.prototype.exec` from a `lastIndex`,
 * `AllFrom` the sequence of matches a `while (exec)` loop or `matchAll` visits, and
 * `ReplaceAllFrom`/`ReplaceFirst` are `String.prototype.replace` with a global or a
 * non-global pattern. Capture groups are numbered from 0 here (JavaScript's `match[1]`
 * is `groups[0]`).
 */
module Regex {
  import opened Wrappers
  import opened Text

  /** A successful attempt at one position: where the match ends and its capture groups. */
  datatype Attempt = Attempt(end: nat, groups: seq<string>)

  /** A match found by a search: where it starts, where it ends, its capture groups. */
  datatype Match = Match(start: nat, end: nat, groups: seq<string>)

  /** A compiled pattern: the outcome of one attempt at exactly position `i` of `s`. */
  type Pattern = (string, nat) -> Option<Attempt>

  /** `['"`]` when `backtick`, `['"]` otherwise. */
  predicate IsQuote(c: char, backtick: bool) {
    c == '\'' || c == '"' || (backtick && c == '`')
  }

  predicate NotQuote3(c: char) { !IsQuote(c, true) }
  predicate NotQuote2(c: char) { !IsQuote(c, false) }
  predicate NotCloseParen(c: char) { c != ')' }
  predicate NotGreater(c: char) { c != '>' }
  predicate NotOpenBrace(c: char) { c != '{' }
  predicate NotSemicolon(c: char) { c != ';' }
  predicate NotSlash(c: char) { c != '/' }

  /** `[a-zA-Z0-9_$<>[\],\s]`, the continuation class of a parameter's type. */
  predicate IsTypeChar(c: char) {
    IsIdentChar(c) || c == '<' || c == '>' || c == '[' || c == ']' || c == ',' || IsSpace(c)
  }

  /** A quoted argument at `j`: an opening quote, a run of non-quotes (non-empty when
      `nonEmpty`), a closing quote, then `)` when `closeParen`. Yields the end and the run. */
  function QuotedAt(s: string, j: nat, backtick: bool, nonEmpty: bool, closeParen: bool): (r: Option<(nat, string)>)
    ensures r.Some? ==> j < r.value.0 <= |s|
    ensures r.Some? ==> forall c :: c in r.value.1 ==> !IsQuote(c, backtick)
    ensures r.Some? && nonEmpty ==> |r.value.1| > 0
    ensures r.Some? ==> StartsAt(s, j + 1, r.value.1)
  {
    if j >= |s| || !IsQuote(s[j], backtick) then None
    else
      var k := SpanEnd(s, j + 1, if backtick then NotQuote3 else NotQuote2);
      if k >= |s| || (nonEmpty && k == j + 1) || (closeParen && (k + 1 >= |s| || s[k + 1] != ')')) then None
      else Some((if closeParen then k + 2 else k + 1, s[j + 1..k]))
  }

  function ControllerAt(s: string, i: nat): (r: Option<Attempt>)
    ensures r.Some? ==> i < r.value.end <= |s|
    ensures r.Some? ==> |r.value.groups| == 1
  {
    if !StartsAt(s, i, "@Controller(") then None
    else
      match QuotedAt(s, i + 12, true, false, true)
      case Some((e, arg)) => Some(Attempt(e, [arg]))
      case None => None
  }

  function VerbDecoratorAt(verb: string, s: string, i: nat): (r: Option<Attempt>)
    ensures r.Some? ==> i < r.value.end <= |s|
    ensures r.Some? ==> |r.value.groups| == 1
    ensures r.Some? ==> StartsAt(s, i, "@" + verb + "(")
    ensures r.Some? ==> i + |verb| + 2 < |s| && IsQuote(s[i + |verb| + 2], false)
  {
    if !StartsAt(s, i, "@" + verb + "(") then None
    else
      match QuotedAt(s, i + |verb| + 2, false, false, true)
      case Some((e, arg)) => Some(Attempt(e, [arg]))
      case None => None
  }

  /** The end of the identifier that starts at `k`. */
  function IdentEnd(s: string, k: nat): (e: nat)
    requires k < |s| && IsIdentStart(s[k])
    ensures k < e <= |s| && IsIdentifier(s[k..e])
    ensures e < |s| ==> !IsIdentChar(s[e])
  {
    SpanEnd(s, k + 1, IsIdentChar)
  }

  /** `\s*:\s*` after the `)` at `c`, then `Promise<[^>]*>` (`promise`) or `([^{]+)`:
      yields the end and the groups the return annotation contributes. */
  function ReturnAnnotationAt(s: string, c: nat, promise: bool): (r: Option<(nat, seq<string>)>)
    requires c < |s|
    ensures r.Some? ==> c < r.value.0 <= |s|
    ensures r.Some? ==> |r.value.1| == (if promise then 0 else 1)
  {
    var d := SkipSpaces(s, c + 1);
    if d >= |s| || s[d] != ':' then None
    else
      var t := SkipSpaces(s, d + 1);
      if promise then
        if !StartsAt(s, t, "Promise<") then None
        else
          var g := SpanEnd(s, t + 8, NotGreater);
          if g >= |s| then None else Some((g + 1, []))
      else if t < |s| && s[t] != '{' then
        var g := SpanEnd(s, t, NotOpenBrace);
        Some((g, [s[t..g]]))
      else if t > d + 1 then
        // `\s*` gives back one blank so that `[^{]+` can match it
        Some((t, [s[t - 1..t]]))
      else None
  }

  /** The part of a handler signature after the optional `async\s+`: identifier, parameter
      list, then the return annotation. */
  function SignatureRest(s: string, k: nat, promise: bool): (r: Option<Attempt>)
    requires k <= |s|
    ensures r.Some? ==> k < r.value.end <= |s|
    ensures r.Some? ==> |r.value.groups| == (if promise then 2 else 3) && IsIdentifier(r.value.groups[0])
    ensures r.Some? ==> ')' !in r.value.groups[1]
  {
    if k >= |s| || !IsIdentStart(s[k]) then None
    else
      var e := IdentEnd(s, k);
      var o := SkipSpaces(s, e);
      if o >= |s| || s[o] != '(' then None
      else
        var c := SpanEnd(s, o + 1, NotCloseParen);
        if c >= |s| then None
        else
          var params := s[o + 1..c];
          assert forall x :: x in params ==> x != ')';
          match ReturnAnnotationAt(s, c, promise)
          case None => None
          case Some((end, rest)) => Some(Attempt(end, [s[k..e], params] + rest))
  }

  /** `\s*(?:async\s+)?` followed by `SignatureRest`; the optional group is tried first. */
  function SignatureAt(s: string, i: nat, promise: bool): (r: Option<Attempt>)
    requires i <= |s|
    ensures r.Some? ==> i < r.value.end <= |s|
    ensures r.Some? ==> |r.value.groups| == (if promise then 2 else 3) && IsIdentifier(r.value.groups[0])
    ensures r.Some? ==> ')' !in r.value.groups[1]
  {
    var j := SkipSpaces(s, i);
    var viaAsync :=
      if StartsAt(s, j, "async") && j + 5 < |s| && IsSpace(s[j + 5])
      then SignatureRest(s, SkipSpaces(s, j + 5), promise)
      else None;
    if viaAsync.Some? then viaAsync else SignatureRest(s, j, promise)
  }

  /** `\s+(ident)\s*:\s*([a-zA-Z_$][a-zA-Z0-9_$<>[\],\s]*)` at `j`: end, name, type. */
  function BindingAt(s: string, j: nat): (r: Option<(nat, string, string)>)
    ensures r.Some? ==> j < r.value.0 <= |s|
    ensures r.Some? ==> IsIdentifier(r.value.1) && |r.value.2| > 0 && IsIdentStart(r.value.2[0])
  {
    if j >= |s| || !IsSpace(s[j]) then None
    else
      var k := SkipSpaces(s, j);
      if k >= |s| || !IsIdentStart(s[k]) then None
      else
        var e := IdentEnd(s, k);
        var d := SkipSpaces(s, e);
        if d >= |s| || s[d] != ':' then None
        else
          var t := SkipSpaces(s, d + 1);
          if t >= |s| || !IsIdentStart(s[t]) then None
          else
            var g := SpanEnd(s, t + 1, IsTypeChar);
            Some((g, s[k..e], s[t..g]))
  }

  function BodyAt(s: string, i: nat): (r: Option<Attempt>)
    ensures r.Some? ==> i < r.value.end <= |s|
    ensures r.Some? ==> |r.value.groups| == 2
    ensures r.Some? ==> StartsAt(s, i, "@Body()")
  {
    if !StartsAt(s, i, "@Body()") then None
    else
      match BindingAt(s, i + 7)
      case Some((g, name, ty)) => Some(Attempt(g, [name, ty]))
      case None => None
  }

  function KeyedAt(decorator: string, s: string, i: nat): (r: Option<Attempt>)
    ensures r.Some? ==> i < r.value.end <= |s|
    ensures r.Some? ==> |r.value.groups| == 3
    ensures r.Some? ==> StartsAt(s, i, "@" + decorator + "(")
    ensures r.Some? ==> exists k :: i <= k < r.value.end && s[k] == ')'
  {
    var j := i + |decorator| + 2;
    if !StartsAt(s, i, "@" + decorator + "(") || j >= |s| || !IsQuote(s[j], true) then None
    else
      var k := SpanEnd(s, j + 1, NotQuote3);
      if k >= |s| then None
      else
        var m := SkipSpaces(s, k + 1);
        if m >= |s| || s[m] != ')' then None
        else
          match BindingAt(s, m + 1)
          case Some((g, name, ty)) =>
            assert i <= m < g && s[m] == ')';
            Some(Attempt(g, [s[j + 1..k], name, ty]))
          case None => None
  }

  function ExportClassAt(s: string, i: nat): (r: Option<Attempt>)
    ensures r.Some? ==> i < r.value.end <= |s|
    ensures r.Some? ==> |r.value.groups| == 1 && IsIdentifier(r.value.groups[0])
  {
    if !StartsAt(s, i, "export") || i + 6 >= |s| || !IsSpace(s[i + 6]) then None
    else
      var k := SkipSpaces(s, i + 6);
      if !StartsAt(s, k, "class") || k + 5 >= |s| || !IsSpace(s[k + 5]) then None
      else
        var n := SkipSpaces(s, k + 5);
        if n >= |s| || !IsIdentStart(s[n]) then None
        else
          var e := IdentEnd(s, n);
          Some(Attempt(e, [s[n..e]]))
  }

  /** `\s*\n\s*(ident)\s*:\s*([^;]+)` after the `)` at `c`: end, property name, type. */
  function PropertyLineAt(s: string, c: nat): (r: Option<(nat, string, string)>)
    requires c < |s|
    ensures r.Some? ==> c < r.value.0 <= |s| && IsIdentifier(r.value.1)
    ensures r.Some? ==> var w := SkipSpaces(s, c + 1);
      w < |s| && '\n' in s[c + 1..w] && StartsAt(s, w, r.value.1)
  {
    var w := SkipSpaces(s, c + 1);
    // `\s*\n\s*`: the blank run after `)` must hold a line feed
    if '\n' !in s[c + 1..w] || w >= |s| || !IsIdentStart(s[w]) then None
    else
      var e := IdentEnd(s, w);
      var d := SkipSpaces(s, e);
      if d >= |s| || s[d] != ':' then None
      else
        var t := SkipSpaces(s, d + 1);
        if t < |s| && s[t] != ';' then
          var g := SpanEnd(s, t, NotSemicolon);
          Some((g, s[w..e], s[t..g]))
        else if t > d + 1 then
          // `\s*` gives back one blank so that `[^;]+` can match it
          Some((t, s[w..e], s[t - 1..t]))
        else None
  }

  /** `@(\w+)\s*\([^)]*\)` at `i`: the end of the decorator's name and the position of its
      closing parenthesis. */
  function DecoratorAt(s: string, i: nat): (r: Option<(nat, nat)>)
    ensures r.Some? ==> i + 1 < r.value.0 < r.value.1 < |s| && s[r.value.1] == ')'
    ensures r.Some? ==> s[i] == '@' && IsIdentifier(s[i + 1..r.value.0])
  {
    if i + 1 >= |s| || s[i] != '@' || !IsIdentStart(s[i + 1]) then None
    else
      var e := IdentEnd(s, i + 1);
      var o := SkipSpaces(s, e);
      if o >= |s| || s[o] != '(' then None
      else
        var c := SpanEnd(s, o + 1, NotCloseParen);
        if c >= |s| then None else Some((e, c))
  }

  function DecoratedPropertyAt(s: string, i: nat): (r: Option<Attempt>)
    ensures r.Some? ==> i < r.value.end <= |s|
    ensures r.Some? ==> |r.value.groups| == 3
    ensures r.Some? ==> IsIdentifier(r.value.groups[0]) && IsIdentifier(r.value.groups[1])
    ensures r.Some? ==> s[i] == '@' && StartsAt(s, i + 1, r.value.groups[0])
    ensures r.Some? ==>
      exists c :: i < c < |s| && s[c] == ')' &&
        PropertyLineAt(s, c) == Some((r.value.end, r.value.groups[1], r.value.groups[2]))
  {
    var d := DecoratorAt(s, i);
    if d.None? then None
    else
      var line := PropertyLineAt(s, d.value.1);
      if line.None? then None
      else
        var name := s[i + 1..d.value.0];
        assert StartsAt(s, i + 1, name);
        Some(Attempt(line.value.0, [name, line.value.1, line.value.2]))
  }

  /** The alternation `(v1|v2|…)\(` followed by a non-empty quoted path, alternatives in order. */
  function CallAltAt(s: string, j: nat, verbs: seq<string>, closeParen: bool): (r: Option<Attempt>)
    ensures r.Some? ==> j < r.value.end <= |s|
    ensures r.Some? ==> |r.value.groups| == 2 && r.value.groups[0] in verbs
    ensures r.Some? ==> |r.value.groups[1]| > 0 && forall c :: c in r.value.groups[1] ==> !IsQuote(c, true)
    decreases |verbs|
  {
    if verbs == [] then None
    else
      var v := verbs[0];
      var q := if StartsAt(s, j, v + "(") then QuotedAt(s, j + |v| + 1, true, true, closeParen) else None;
      if q.Some? then Some(Attempt(q.value.0, [v, q.value.1]))
      else CallAltAt(s, j, verbs[1..], closeParen)
  }

  function CallSiteAt(receiver: string, verbs: seq<string>, closeParen: bool, s: string, i: nat): (r: Option<Attempt>)
    ensures r.Some? ==> i < r.value.end <= |s|
    ensures r.Some? ==> |r.value.groups| == 2 && r.value.groups[0] in verbs
    ensures r.Some? ==> |r.value.groups[1]| > 0 && forall c :: c in r.value.groups[1] ==> !IsQuote(c, true)
  {
    if !StartsAt(s, i, receiver) then None else CallAltAt(s, i + |receiver|, verbs, closeParen)
  }

  function PlaceholderAt(s: string, i: nat): (r: Option<Attempt>)
    ensures r.Some? ==> i < r.value.end <= |s|
    ensures r.Some? ==> s[i] == ':' && r.value.groups == [s[i + 1..r.value.end]]
    ensures r.Some? ==> |r.value.groups[0]| > 0 && '/' !in r.value.groups[0]
    ensures r.Some? ==> r.value.end == |s| || s[r.value.end] == '/'
  {
    if i + 1 >= |s| || s[i] != ':' || s[i + 1] == '/' then None
    else
      var g := SpanEnd(s, i + 1, NotSlash);
      var name := s[i + 1..g];
      assert forall x :: x in name ==> x != '/';
      Some(Attempt(g, [name]))
  }

  /** `<[^>]*>` at `i`; the match runs to the first `>` after the `<`. */
  function AngleGroupAt(s: string, i: nat): (r: Option<Attempt>)
    ensures r.Some? ==> i < r.value.end <= |s|
    ensures r.Some? <==> i < |s| && s[i] == '<' && exists k :: i < k < |s| && s[k] == '>'
    ensures r.Some? ==> s[r.value.end - 1] == '>' && r.value.groups == []
  {
    if i >= |s| || s[i] != '<' then None
    else
      var g := SpanEnd(s, i + 1, NotGreater);
      if g >= |s| then None else Some(Attempt(g + 1, []))
  }

  function PromiseTypeAt(s: string, i: nat): (r: Option<Attempt>)
    ensures r.Some? ==> i < r.value.end <= |s|
  {
    if !StartsAt(s, i, "Promise<") then None
    else
      var g := SpanEnd(s, i + 8, NotGreater);
      if g >= |s| then None else Some(Attempt(g + 1, []))
  }

  function BarAt(s: string, i: nat): (r: Option<Attempt>)
    ensures r.Some? ==> i < r.value.end <= |s| && s[i] == '|' && r.value.groups == []
  {
    if i < |s| && s[i] == '|' then Some(Attempt(i + 1, [])) else None
  }

  function EmptyBracketsAt(s: string, i: nat): (r: Option<Attempt>)
    ensures r.Some? ==> i < r.value.end <= |s| && r.value.groups == []
  {
    if StartsAt(s, i, "[]") then Some(Attempt(i + 2, [])) else None
  }

  /** `/@Controller\(['"`]([^'"`]*)['"`]\)/` */
  const ControllerDecorator: Pattern := ControllerAt

  /** `@<verb>\(['"]([^'"]*)['"]\)` as built for each verb of the annotation scanner */
  function VerbDecorator(verb: string): Pattern {
    (s: string, i: nat) => VerbDecoratorAt(verb, s, i)
  }

  /** `\s*(?:async\s+)?(ident)\s*\(([^)]*)\)\s*:\s*Promise<[^>]*>` */
  const PromiseSignature: Pattern := (s: string, i: nat) => if i <= |s| then SignatureAt(s, i, true) else None

  /** `\s*(?:async\s+)?(ident)\s*\(([^)]*)\)\s*:\s*([^{]+)` */
  const PlainSignature: Pattern := (s: string, i: nat) => if i <= |s| then SignatureAt(s, i, false) else None

  /** `@Body\(\)\s+(ident)\s*:\s*(type)` */
  const BodyBinding: Pattern := BodyAt

  /** `@<decorator>\(['"`]([^'"`]*)['"`]\s*\)\s+(ident)\s*:\s*(type)` for Query, Param, Headers */
  function KeyedBinding(decorator: string): Pattern {
    (s: string, i: nat) => KeyedAt(decorator, s, i)
  }

  /** `export\s+class\s+(ident)` */
  const ExportClass: Pattern := ExportClassAt

  /** `@(ident)\s*\([^)]*\)\s*\n\s*(ident)\s*:\s*([^;]+)` */
  const DecoratedProperty: Pattern := DecoratedPropertyAt

  /** `<receiver>(v1|v2|…)\(['"`]([^'"`]+)['"`]`, followed by `\)` when `closeParen` */
  function CallSite(receiver: string, verbs: seq<string>, closeParen: bool): Pattern {
    (s: string, i: nat) => CallSiteAt(receiver, verbs, closeParen, s, i)
  }

  /** `:([^/]+)` */
  const Placeholder: Pattern := PlaceholderAt

  /** `<[^>]*>` */
  const AngleGroup: Pattern := AngleGroupAt

  /** `Promise<[^>]*>` */
  const PromiseType: Pattern := PromiseTypeAt

  /** `\|` */
  const Bar: Pattern := BarAt

  /** `\[\]` */
  const EmptyBrackets: Pattern := EmptyBracketsAt

  /** One attempt of `p` at position `i` of `s`; every pattern above ends a successful
      attempt inside `s` and after `i`, so the bound only records that fact. */
  function MatchAt(p: Pattern, s: string, i: nat): (r: Option<Attempt>)
    ensures r.Some? ==> i < r.value.end <= |s|
  {
    var a := p(s, i);
    if a.Some? && i < a.value.end <= |s| then a else None
  }

  /** Every successful attempt of `p` reports `n` capture groups. */
  ghost predicate Reports(p: Pattern, n: nat) {
    forall s: string, i: nat :: p(s, i).Some? ==> |p(s, i).value.groups| == n
  }

  /** The number of groups each pattern reports. */
  lemma PatternGroups()
    ensures Reports(ControllerDecorator, 1) && Reports(PromiseSignature, 2) && Reports(PlainSignature, 3)
    ensures Reports(BodyBinding, 2) && Reports(ExportClass, 1) && Reports(DecoratedProperty, 3)
    ensures Reports(Placeholder, 1) && Reports(AngleGroup, 0) && Reports(Bar, 0) && Reports(EmptyBrackets, 0)
    ensures forall verb :: Reports(VerbDecorator(verb), 1)
    ensures forall decorator :: Reports(KeyedBinding(decorator), 3)
    ensures forall receiver, verbs, closeParen :: Reports(CallSite(receiver, verbs, closeParen), 2)
  {
  }

  /** `exec` with `lastIndex == from`: the leftmost match starting at or after `from`. */
  function FirstFrom(p: Pattern, s: string, from: nat): (r: Option<Match>)
    ensures r.Some? ==> from <= r.value.start < r.value.end <= |s|
    ensures r.Some? ==> MatchAt(p, s, r.value.start) == Some(Attempt(r.value.end, r.value.groups))
    decreases |s| + 1 - from
  {
    if from > |s| then None
    else
      var a := MatchAt(p, s, from);
      if a.Some? then Some(Match(from, a.value.end, a.value.groups)) else FirstFrom(p, s, from + 1)
  }

  /** The match `exec` finds is the leftmost one: no attempt between `from` and its start
      succeeds, and when there is none, no attempt from `from` on succeeds. */
  lemma {:induction false} FirstFromLeftmost(p: Pattern, s: string, from: nat)
    ensures FirstFrom(p, s, from).Some? ==>
      forall k :: from <= k < FirstFrom(p, s, from).value.start ==> MatchAt(p, s, k).None?
    ensures FirstFrom(p, s, from).None? ==> forall k :: from <= k ==> MatchAt(p, s, k).None?
    decreases |s| + 1 - from
  {
    if from <= |s| && MatchAt(p, s, from).None? {
      FirstFromLeftmost(p, s, from + 1);
    }
  }

  /** The matches a global pattern visits from `from` on: each search resumes where the
      previous match ended. */
  function AllFrom(p: Pattern, s: string, from: nat): (ms: seq<Match>)
    ensures forall k :: 0 <= k < |ms| ==> from <= ms[k].start < ms[k].end <= |s|
    ensures forall k :: 0 <= k < |ms| ==> MatchAt(p, s, ms[k].start) == Some(Attempt(ms[k].end, ms[k].groups))
    ensures forall k :: 0 <= k < |ms| - 1 ==> ms[k].end <= ms[k + 1].start
    decreases |s| + 1 - from
  {
    match FirstFrom(p, s, from)
    case None => []
    case Some(m) => [m] + AllFrom(p, s, m.end)
  }

  /** One step of a `while (exec)` loop: the found match, then the matches after it. */
  lemma AllFromStep(p: Pattern, s: string, from: nat)
    requires FirstFrom(p, s, from).Some?
    ensures AllFrom(p, s, from) == [FirstFrom(p, s, from).value] + AllFrom(p, s, FirstFrom(p, s, from).value.end)
  {
  }

  /** The loop stops when `exec` finds nothing: no matches are left. */
  lemma AllFromDone(p: Pattern, s: string, from: nat)
    requires FirstFrom(p, s, from).None?
    ensures AllFrom(p, s, from) == []
  {
  }

  /** A `while (exec)` loop that has visited `done` and finds another match has visited
      `done` and that match. */
  lemma ExecStep(p: Pattern, s: string, from: nat, done: seq<Match>)
    requires FirstFrom(p, s, from).Some?
    requires done + AllFrom(p, s, from) == All(p, s)
    ensures done + [FirstFrom(p, s, from).value] + AllFrom(p, s, FirstFrom(p, s, from).value.end) == All(p, s)
  {
    var m := FirstFrom(p, s, from).value;
    AllFromStep(p, s, from);
    assert done + [m] + AllFrom(p, s, m.end) == done + ([m] + AllFrom(p, s, m.end));
  }

  /** When `exec` finds nothing more, the loop has visited every match. */
  lemma ExecDone(p: Pattern, s: string, from: nat, done: seq<Match>)
    requires FirstFrom(p, s, from).None?
    requires done + AllFrom(p, s, from) == All(p, s)
    ensures done == All(p, s)
  {
    AllFromDone(p, s, from);
    assert done + [] == done;
  }

  lemma FirstFromGroups(p: Pattern, s: string, from: nat, n: nat)
    requires Reports(p, n)
    ensures FirstFrom(p, s, from).Some? ==> |FirstFrom(p, s, from).value.groups| == n
  {
  }

  lemma AllFromGroups(p: Pattern, s: string, from: nat, n: nat)
    requires Reports(p, n)
    ensures forall k :: 0 <= k < |AllFrom(p, s, from)| ==> |AllFrom(p, s, from)[k].groups| == n
  {
    var ms := AllFrom(p, s, from);
    forall k | 0 <= k < |ms| ensures |ms[k].groups| == n {
      assert MatchAt(p, s, ms[k].start) == Some(Attempt(ms[k].end, ms[k].groups));
    }
  }

  /** `s.match(p)` / `s.matchAll(p)` as used by the source, from the start of `s`. */
  function First(p: Pattern, s: string): Option<Match> { FirstFrom(p, s, 0) }
  function All(p: Pattern, s: string): seq<Match> { AllFrom(p, s, 0) }

  /** `s.replace(p, rep)` with a global pattern, from position `from` on. */
  function ReplaceAllFrom(p: Pattern, s: string, from: nat, rep: string): string
    requires from <= |s|
    decreases |s| - from
  {
    match FirstFrom(p, s, from)
    case None => s[from..]
    case Some(m) => s[from..m.start] + rep + ReplaceAllFrom(p, s, m.end, rep)
  }

  function ReplaceAll(p: Pattern, s: string, rep: string): string {
    ReplaceAllFrom(p, s, 0, rep)
  }

  /** `s.replace(p, rep)` with a non-global pattern: only the leftmost match is replaced. */
  function ReplaceFirst(p: Pattern, s: string, rep: string): string {
    match FirstFrom(p, s, 0)
    case None => s
    case Some(m) => s[..m.start] + rep + s[m.end..]
  }
}
