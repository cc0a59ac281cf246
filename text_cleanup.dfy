/**
 * `clean_html_for_telegram` (src/utils/text.py, and its copy in
 * src/workers/ai_worker.py): a fixed sequence of `re.sub` calls that turns the
 * web HTML an LLM writes into the subset of HTML Telegram shows, then `strip()`.
 *
 * Each regular expression used there is one `Pattern` below; `MatchAt` is what
 * `re.match` of that pattern says at one position and `Sub` is `re.sub`'s
 * left-to-right scan: at each position try the pattern, replace a match and go
 * on after it, otherwise keep the character and move on by one.
 */
module TextCleanup {
  import opened Wrappers
  import opened Strings

  /** The patterns of the cleanup, by shape. */
  datatype Pattern =
    | Literal(text: string, ignoreCase: bool)  // a fixed string
    | OpenTag(name: string)                     // `<name[^>]*>`, ignoring case
    | HeadingOpen                               // `<h[1-6][^>]*>`, ignoring case
    | HeadingClose                              // `</h[1-6]>`, ignoring case
    | LineBreak                                 // `<br\s*/?>`, ignoring case
    | HeadBlock                                 // `<head>.*?</head>`, ignoring case, `.` matching newlines
    | NewlineRun                                // `\n{3,}`

  datatype Rule = Rule(pattern: Pattern, replacement: string)

  /** ASCII case folding: the only letters the patterns contain are ASCII. */
  function FoldAscii(c: char): char
  {
    if 'A' <= c <= 'Z' then (c as int + 32) as char else c
  }

  predicate Same(c: char, p: char, ignoreCase: bool)
  {
    if ignoreCase then FoldAscii(c) == FoldAscii(p) else c == p
  }

  /** `t[k..]` occurs in `s` at position `j + k`. */
  predicate LitAt(s: string, j: nat, t: string, k: nat, ignoreCase: bool)
    decreases |t| - k
  {
    k >= |t| || (j + k < |s| && Same(s[j + k], t[k], ignoreCase) && LitAt(s, j, t, k + 1, ignoreCase))
  }

  lemma {:induction false} LitAtBounds(s: string, j: nat, t: string, k: nat, ignoreCase: bool)
    requires k <= |t| && j + k <= |s| && LitAt(s, j, t, k, ignoreCase)
    ensures j + |t| <= |s|
    decreases |t| - k
  {
    if k < |t| {
      LitAtBounds(s, j, t, k + 1, ignoreCase);
    }
  }

  /** The first `c` at or after `i`. */
  function FindChar(s: string, c: char, i: nat): (r: Option<nat>)
    ensures r.Some? ==> i <= r.value < |s| && s[r.value] == c
    decreases |s| - i
  {
    if i >= |s| then None else if s[i] == c then Some(i) else FindChar(s, c, i + 1)
  }

  /** The first occurrence of `t` at or after `i` (the lazy `.*?` in front of it). */
  function FindLit(s: string, t: string, i: nat, ignoreCase: bool): (r: Option<nat>)
    ensures r.Some? ==> i <= r.value && r.value + |t| <= |s| && LitAt(s, r.value, t, 0, ignoreCase)
    decreases |s| - i
  {
    if i >= |s| then None
    else if LitAt(s, i, t, 0, ignoreCase) then LitAtBounds(s, i, t, 0, ignoreCase); Some(i)
    else FindLit(s, t, i + 1, ignoreCase)
  }

  /** The first position at or after `i` that is not whitespace (`\s*`). */
  function SkipSpaces(s: string, i: nat): (r: nat)
    ensures i <= r
    ensures i <= |s| ==> r <= |s|
    decreases |s| - i
  {
    if i < |s| && IsSpace(s[i]) then SkipSpaces(s, i + 1) else i
  }

  /** Number of newlines at the start of `s`. */
  function LeadNewlines(s: string): (n: nat)
    ensures n <= |s|
    ensures forall k :: 0 <= k < n ==> s[k] == '\n'
    ensures n < |s| ==> s[n] != '\n'
  {
    if |s| > 0 && s[0] == '\n' then 1 + LeadNewlines(s[1..]) else 0
  }

  /** The character every match of `p` starts with. */
  function Lead(p: Pattern): char
  {
    match p
    case Literal(t, _) => if |t| > 0 then t[0] else '<'
    case NewlineRun => '\n'
    case _ => '<'
  }

  /**
   * The length of the match of `p` at the start of `s`, if any. The first
   * character of a literal is compared exactly: in every rule here it is `<` or
   * a backtick, which have no case.
   */
  function MatchAt(p: Pattern, s: string): (r: Option<nat>)
    ensures r.Some? ==> 0 < r.value <= |s| && s[0] == Lead(p)
  {
    if s == [] || s[0] != Lead(p) then None else MatchFrom(p, s)
  }

  /** `MatchAt` once the first character is known to fit. */
  function MatchFrom(p: Pattern, s: string): (r: Option<nat>)
    requires s != [] && s[0] == Lead(p)
    ensures r.Some? ==> 0 < r.value <= |s|
  {
    match p
    case Literal(t, ic) =>
      if |t| > 0 && |s| > 0 && s[0] == t[0] && LitAt(s, 0, t, 1, ic) then
        LitAtBounds(s, 0, t, 1, ic); Some(|t|)
      else None
    case OpenTag(name) =>
      if |s| > 0 && s[0] == '<' && LitAt(s, 1, name, 0, true) then
        match FindChar(s, '>', 1 + |name|)
        case Some(j) => Some(j + 1)
        case None => None
      else None
    case HeadingOpen =>
      if |s| >= 3 && s[0] == '<' && Same(s[1], 'h', true) && '1' <= s[2] <= '6' then
        match FindChar(s, '>', 3)
        case Some(j) => Some(j + 1)
        case None => None
      else None
    case HeadingClose =>
      if |s| >= 5 && s[0] == '<' && s[1] == '/' && Same(s[2], 'h', true) && '1' <= s[3] <= '6' && s[4] == '>'
      then Some(5)
      else None
    case LineBreak =>
      if |s| >= 3 && s[0] == '<' && LitAt(s, 1, "br", 0, true) then
        var k := SkipSpaces(s, 3);
        var k' := if k < |s| && s[k] == '/' then k + 1 else k;
        if k' < |s| && s[k'] == '>' then Some(k' + 1) else None
      else None
    case HeadBlock =>
      if |s| > 0 && s[0] == '<' && LitAt(s, 1, "head>", 0, true) then
        LitAtBounds(s, 1, "head>", 0, true);
        match FindLit(s, "</head>", 6, true)
        case Some(j) => Some(j + 7)
        case None => None
      else None
    case NewlineRun =>
      var n := LeadNewlines(s);
      if n >= 3 then Some(n) else None
  }

  /** What a pattern says at the start of a text: the length of its match, if any. */
  type Matcher = string -> Option<nat>

  /**
   * `re.sub`'s scan with the matcher `m`: at each position try `m`, replace a
   * match and go on after it, otherwise keep the character and move on by one.
   * A matcher that reports an empty or overlong match is ignored there
   * (`MatchAt` never does).
   */
  function Scan(m: Matcher, rep: string, s: string): string
    decreases |s|
  {
    if s == [] then []
    else
      var r := m(s);
      if r.Some? && 0 < r.value <= |s| then rep + Scan(m, rep, s[r.value..])
      else [s[0]] + Scan(m, rep, s[1..])
  }

  function MatcherOf(p: Pattern): Matcher
  {
    s => MatchAt(p, s)
  }

  /** `re.sub(p, rep, s)`. */
  function Sub(p: Pattern, rep: string, s: string): string
  {
    Scan(MatcherOf(p), rep, s)
  }

  // The rules of src/utils/text.py, in the order of its sections.

  /** Markdown code fences. */
  const FenceRules: seq<Rule> := [
    Rule(Literal("```html", true), ""),
    Rule(Literal("```", false), "")
  ]

  /** Document-level tags. */
  const DocumentRules: seq<Rule> := [
    Rule(OpenTag("!doctype"), ""),
    Rule(OpenTag("html"), ""),
    Rule(Literal("</html>", true), ""),
    Rule(HeadBlock, ""),
    Rule(OpenTag("body"), ""),
    Rule(Literal("</body>", true), "")
  ]

  /** Lists: the list tags go, each item starts an indented bullet line. */
  const ListRules: seq<Rule> := [
    Rule(OpenTag("ul"), ""),
    Rule(Literal("</ul>", true), ""),
    Rule(OpenTag("ol"), ""),
    Rule(Literal("</ol>", true), ""),
    Rule(OpenTag("li"), "\n   • "),
    Rule(Literal("</li>", true), "")
  ]

  /** Line breaks, paragraphs and divisions become newlines. */
  const ParagraphRules: seq<Rule> := [
    Rule(LineBreak, "\n"),
    Rule(Literal("</p>", true), "\n\n"),
    Rule(OpenTag("p"), ""),
    Rule(Literal("</div>", true), "\n"),
    Rule(OpenTag("div"), "")
  ]

  /** Headings become bold text on a line of its own. */
  const HeadingRules: seq<Rule> := [
    Rule(HeadingOpen, "\n<b>"),
    Rule(HeadingClose, "</b>\n")
  ]

  /** Spans go. */
  const SpanRules: seq<Rule> := [
    Rule(OpenTag("span"), ""),
    Rule(Literal("</span>", true), "")
  ]

  const TagRules: seq<Rule> := FenceRules + DocumentRules + ListRules + ParagraphRules + HeadingRules + SpanRules

  /** The rules of the copy in src/workers/ai_worker.py, in order. */
  const WorkerTagRules: seq<Rule> := [
    Rule(Literal("```html", true), ""),
    Rule(Literal("```", false), ""),
    Rule(OpenTag("!doctype"), ""),
    Rule(OpenTag("html"), ""),
    Rule(Literal("</html>", true), ""),
    Rule(HeadBlock, ""),
    Rule(OpenTag("body"), ""),
    Rule(Literal("</body>", true), ""),
    Rule(OpenTag("ul"), ""),
    Rule(Literal("</ul>", true), ""),
    Rule(OpenTag("ol"), ""),
    Rule(Literal("</ol>", true), ""),
    Rule(OpenTag("li"), "\n   • "),
    Rule(Literal("</li>", true), ""),
    Rule(LineBreak, "\n"),
    Rule(Literal("</p>", true), "\n\n"),
    Rule(OpenTag("p"), ""),
    Rule(Literal("</div>", true), "\n"),
    Rule(OpenTag("div"), ""),
    Rule(HeadingOpen, "\n<b>"),
    Rule(HeadingClose, "</b>\n"),
    Rule(OpenTag("span"), ""),
    Rule(Literal("</span>", true), "")
  ]

  function ApplyRules(rules: seq<Rule>, s: string): string
    decreases |rules|
  {
    if rules == [] then s else ApplyRules(rules[1..], Sub(rules[0].pattern, rules[0].replacement, s))
  }

  /** The last substitution: runs of three or more newlines become one blank line. */
  function Collapse(s: string): string
  {
    Sub(NewlineRun, "\n\n", s)
  }

  /** No three newlines in a row. */
  predicate NoTriple(s: string)
  {
    forall k :: 0 <= k < |s| - 2 ==> !(s[k] == '\n' && s[k + 1] == '\n' && s[k + 2] == '\n')
  }

  /** `clean_html_for_telegram(text)`. */
  function Clean(text: string): (r: string)
    // the result has no surrounding whitespace ...
    ensures r == [] || (!IsSpace(r[0]) && !IsSpace(r[|r| - 1]))
    // ... and no run of three newlines
    ensures NoTriple(r)
  {
    var t := Collapse(ApplyRules(TagRules, text));
    CollapseNoTriple(ApplyRules(TagRules, text));
    StripNoTriple(t);
    Strip(t)
  }

  /**
   * `clean_html_for_telegram` of src/workers/ai_worker.py, its own copy of
   * the rules applied the same way, computes `Clean`: the worker uses `Clean`.
   */
  lemma WorkerCleanIsClean(text: string)
    ensures Strip(Collapse(ApplyRules(WorkerTagRules, text))) == Clean(text)
  {
    assert WorkerTagRules == TagRules;
  }

  // ---------------------------------------------------------------------------
  // The scan

  lemma {:induction false} ApplyRulesAppend(a: seq<Rule>, b: seq<Rule>, s: string)
    ensures ApplyRules(a + b, s) == ApplyRules(b, ApplyRules(a, s))
    decreases |a|
  {
    if a == [] {
      assert a + b == b;
    } else {
      assert (a + b)[0] == a[0];
      assert (a + b)[1..] == a[1..] + b;
      ApplyRulesAppend(a[1..], b, Sub(a[0].pattern, a[0].replacement, s));
    }
  }

  /** Every match of `m` starts with `c`. */
  ghost predicate StartsWith(m: Matcher, c: char)
  {
    forall t :: m(t).Some? ==> |t| > 0 && t[0] == c
  }

  lemma StartsWithLead(p: Pattern)
    ensures StartsWith(MatcherOf(p), Lead(p))
  {
    forall t | MatcherOf(p)(t).Some? ensures |t| > 0 && t[0] == Lead(p) {
      assert MatcherOf(p)(t) == MatchAt(p, t);
    }
  }

  /** Where `m` does not match at the start, the first character stays. */
  lemma ScanFirst(m: Matcher, rep: string, s: string)
    requires s != [] && m(s).None?
    ensures Scan(m, rep, s) == [s[0]] + Scan(m, rep, s[1..])
  {
  }

  /** A match at the start is replaced and the scan goes on after it. */
  lemma ScanMatch(m: Matcher, rep: string, a: string, b: string)
    requires a != [] && m(a + b) == Some(|a|)
    ensures Scan(m, rep, a + b) == rep + Scan(m, rep, b)
  {
    assert (a + b)[|a|..] == b;
  }

  /** Text without the character every match starts with passes through untouched. */
  lemma {:induction false} ScanPrefix(m: Matcher, rep: string, c: char, a: string, b: string)
    requires StartsWith(m, c) && c !in a
    ensures Scan(m, rep, a + b) == a + Scan(m, rep, b)
    decreases |a|
  {
    if a != [] {
      var s := a + b;
      var t := a[1..] + b;
      assert s[0] == a[0] && s[1..] == t;
      assert m(s).None?;
      assert c !in a[1..] by { assert a == [a[0]] + a[1..]; }
      ScanPrefix(m, rep, c, a[1..], b);
      calc {
        Scan(m, rep, s);
        [a[0]] + Scan(m, rep, t);
        [a[0]] + (a[1..] + Scan(m, rep, b));
        { assert [a[0]] + a[1..] == a; }
        a + Scan(m, rep, b);
      }
    } else {
      assert a + b == b;
    }
  }

  /**
   * `open + x + close` passes through a matcher that matches at neither end
   * and whose first character occurs nowhere else.
   */
  lemma ScanWrapped(m: Matcher, rep: string, c: char, open: string, x: string, close: string)
    requires StartsWith(m, c)
    requires open != [] && close != []
    requires m(open + x + close).None? && m(close).None?
    requires c !in open[1..] && c !in x && c !in close[1..]
    ensures Scan(m, rep, open + x + close) == open + x + close
  {
    var s := open + x + close;
    assert Scan(m, rep, s) == [s[0]] + Scan(m, rep, s[1..]) by {
      ScanFirst(m, rep, s);
    }
    assert Scan(m, rep, s[1..]) == open[1..] + (x + Scan(m, rep, close)) by {
      assert s[1..] == open[1..] + (x + close);
      ScanPrefix(m, rep, c, open[1..], x + close);
      ScanPrefix(m, rep, c, x, close);
    }
    assert Scan(m, rep, close) == close by {
      ScanFirst(m, rep, close);
      ScanPrefix(m, rep, c, close[1..], []);
      assert close[1..] + [] == close[1..];
      assert [close[0]] + close[1..] == close;
    }
    assert s == [s[0]] + open[1..] + x + close by {
      assert s[0] == open[0];
      assert open == [open[0]] + open[1..];
    }
  }

  lemma SubPrefix(p: Pattern, rep: string, a: string, b: string)
    requires Lead(p) !in a
    ensures Sub(p, rep, a + b) == a + Sub(p, rep, b)
  {
    StartsWithLead(p);
    ScanPrefix(MatcherOf(p), rep, Lead(p), a, b);
  }

  lemma SubNoLead(p: Pattern, rep: string, s: string)
    requires Lead(p) !in s
    ensures Sub(p, rep, s) == s
  {
    StartsWithLead(p);
    ScanPrefix(MatcherOf(p), rep, Lead(p), s, []);
    assert s + [] == s;
  }

  // ---------------------------------------------------------------------------
  // Newline runs

  /** `m` is the matcher of `\n{3,}`. */
  ghost predicate IsNewlineRun(m: Matcher)
  {
    forall t :: m(t) == if LeadNewlines(t) >= 3 then Some(LeadNewlines(t)) else None
  }

  lemma NewlineRunMatcher()
    ensures IsNewlineRun(MatcherOf(NewlineRun))
  {
    forall t ensures MatcherOf(NewlineRun)(t) == if LeadNewlines(t) >= 3 then Some(LeadNewlines(t)) else None {
      assert MatcherOf(NewlineRun)(t) == MatchAt(NewlineRun, t);
    }
  }

  /** Line 39 leaves no triple newline and at most two at the front. */
  lemma CollapseNoTriple(s: string)
    ensures NoTriple(Collapse(s))
    ensures LeadNewlines(Collapse(s)) == if LeadNewlines(s) < 2 then LeadNewlines(s) else 2
  {
    NewlineRunMatcher();
    ScanNoTriple(MatcherOf(NewlineRun), s);
  }

  lemma {:induction false} ScanNoTriple(m: Matcher, s: string)
    requires IsNewlineRun(m)
    ensures NoTriple(Scan(m, "\n\n", s))
    ensures LeadNewlines(Scan(m, "\n\n", s)) == if LeadNewlines(s) < 2 then LeadNewlines(s) else 2
    decreases |s|
  {
    if s != [] {
      var n := LeadNewlines(s);
      assert m(s) == if n >= 3 then Some(n) else None;
      if n >= 3 {
        ScanNoTriple(m, s[n..]);
        assert LeadNewlines(s[n..]) == 0;
        RunThenText(Scan(m, "\n\n", s[n..]));
      } else {
        ScanNoTriple(m, s[1..]);
        assert LeadNewlines(s[1..]) == if s[0] == '\n' then n - 1 else LeadNewlines(s[1..]);
        CharThenText(s[0], Scan(m, "\n\n", s[1..]));
      }
    }
  }

  /** A blank line followed by text that does not start with a newline. */
  lemma RunThenText(t: string)
    requires NoTriple(t) && LeadNewlines(t) == 0
    ensures NoTriple("\n\n" + t) && LeadNewlines("\n\n" + t) == 2
  {
    var r := "\n\n" + t;
    assert t == [] || t[0] != '\n';
    forall k | 0 <= k < |r| - 2 ensures !(r[k] == '\n' && r[k + 1] == '\n' && r[k + 2] == '\n') {
      if k >= 2 {
        assert r[k] == t[k - 2] && r[k + 1] == t[k - 1] && r[k + 2] == t[k];
      } else {
        assert r[2] == t[0];
      }
    }
    LeadNewlinesExact(r, 2);
  }

  /** One character in front of text with at most one leading newline, or in front of any text if it is not a newline. */
  lemma CharThenText(c: char, t: string)
    requires NoTriple(t)
    requires c == '\n' ==> LeadNewlines(t) <= 1
    ensures NoTriple([c] + t)
    ensures LeadNewlines([c] + t) == if c == '\n' then 1 + LeadNewlines(t) else 0
  {
    var r := [c] + t;
    assert r[1..] == t;
    forall k | 0 <= k < |r| - 2 ensures !(r[k] == '\n' && r[k + 1] == '\n' && r[k + 2] == '\n') {
      if k >= 1 {
        assert r[k] == t[k - 1] && r[k + 1] == t[k] && r[k + 2] == t[k + 1];
      } else if c == '\n' {
        assert r[1] == t[0] && r[2] == t[1];
      }
    }
  }

  lemma LeadNewlinesExact(r: string, n: nat)
    requires n <= |r|
    requires forall k :: 0 <= k < n ==> r[k] == '\n'
    requires n == |r| || r[n] != '\n'
    ensures LeadNewlines(r) == n
  {
  }

  /** Text without a triple newline is left alone by line 39. */
  lemma CollapseIdentity(s: string)
    requires NoTriple(s)
    ensures Collapse(s) == s
  {
    NewlineRunMatcher();
    ScanIdentity(MatcherOf(NewlineRun), s);
  }

  lemma {:induction false} ScanIdentity(m: Matcher, s: string)
    requires IsNewlineRun(m)
    requires NoTriple(s)
    ensures Scan(m, "\n\n", s) == s
    decreases |s|
  {
    if s != [] {
      assert |s| >= 3 ==> !(s[0] == '\n' && s[1] == '\n' && s[2] == '\n');
      assert m(s).None?;
      assert NoTriple(s[1..]) by {
        forall k | 0 <= k < |s[1..]| - 2 ensures !(s[1..][k] == '\n' && s[1..][k + 1] == '\n' && s[1..][k + 2] == '\n') {
          assert s[1..][k] == s[k + 1] && s[1..][k + 1] == s[k + 2] && s[1..][k + 2] == s[k + 3];
        }
      }
      ScanIdentity(m, s[1..]);
      assert [s[0]] + s[1..] == s;
    }
  }

  /** A slice of text without a triple newline has none either ... */
  lemma NoTripleSlice(s: string, i: nat, j: nat)
    requires NoTriple(s) && i <= j <= |s|
    ensures NoTriple(s[i..j])
  {
    var r := s[i..j];
    forall k | 0 <= k < |r| - 2 ensures !(r[k] == '\n' && r[k + 1] == '\n' && r[k + 2] == '\n') {
      assert r[k] == s[i + k] && r[k + 1] == s[i + k + 1] && r[k + 2] == s[i + k + 2];
    }
  }

  /** ... so neither has its strip. */
  lemma StripNoTriple(s: string)
    requires NoTriple(s)
    ensures NoTriple(Strip(s))
  {
    var a, n := LeadSpaces(s), |Strip(s)|;
    assert a + n <= |s| && Strip(s) == s[a..a + n];
    NoTripleSlice(s, a, a + n);
  }

  lemma NoTripleConcat(a: string, b: string)
    requires NoTriple(a) && NoTriple(b)
    requires (|a| > 0 && a[|a| - 1] != '\n') || (|b| > 0 && b[0] != '\n')
    ensures NoTriple(a + b)
  {
    var s := a + b;
    forall k | 0 <= k < |s| - 2 ensures !(s[k] == '\n' && s[k + 1] == '\n' && s[k + 2] == '\n') {
      if k + 2 < |a| {
        assert s[k] == a[k] && s[k + 1] == a[k + 1] && s[k + 2] == a[k + 2];
      } else if k >= |a| {
        assert s[k] == b[k - |a|] && s[k + 1] == b[k - |a| + 1] && s[k + 2] == b[k - |a| + 2];
      } else if |a| > 0 && a[|a| - 1] != '\n' {
        assert s[|a| - 1] == a[|a| - 1];
      } else {
        assert s[|a|] == b[0];
      }
    }
  }

  // ---------------------------------------------------------------------------
  // What the cleanup does to particular inputs

  predicate MarkupLead(r: Rule)
  {
    Lead(r.pattern) == '<' || Lead(r.pattern) == '`'
  }

  /** Every tag rule starts with `<` or a backtick. */
  lemma TagRulesLead()
    ensures forall r :: r in TagRules ==> MarkupLead(r)
  {
    assert forall r :: r in FenceRules ==> MarkupLead(r);
    assert forall r :: r in DocumentRules ==> MarkupLead(r);
    assert forall r :: r in ListRules ==> MarkupLead(r);
    assert forall r :: r in ParagraphRules ==> MarkupLead(r);
    assert forall r :: r in HeadingRules ==> MarkupLead(r);
    assert forall r :: r in SpanRules ==> MarkupLead(r);
  }

  /** Rules that each leave `s` as it is leave it as it is together. */
  lemma {:induction false} ApplyRulesIdentity(rules: seq<Rule>, s: string)
    requires forall r :: r in rules ==> Sub(r.pattern, r.replacement, s) == s
    ensures ApplyRules(rules, s) == s
    decreases |rules|
  {
    if rules != [] {
      assert rules[0] in rules;
      assert forall r :: r in rules[1..] ==> r in rules;
      ApplyRulesIdentity(rules[1..], s);
    }
  }

  /**
   * Plain text (no `<`, no backtick, no triple newline, no surrounding
   * whitespace) comes back unchanged: every pattern but the last starts with
   * `<` or a backtick.
   */
  lemma CleanPlainText(s: string)
    requires '<' !in s && '`' !in s
    requires NoTriple(s)
    requires s == [] || (!IsSpace(s[0]) && !IsSpace(s[|s| - 1]))
    ensures Clean(s) == s
  {
    TagRulesLead();
    forall r | r in TagRules ensures Sub(r.pattern, r.replacement, s) == s {
      SubNoLead(r.pattern, r.replacement, s);
    }
    ApplyRulesIdentity(TagRules, s);
    CollapseIdentity(s);
    StripFixed(s);
  }

  /** `ApplyRules(TagRules, s)`, section by section. */
  lemma TagRulesSections(s: string)
    ensures ApplyRules(TagRules, s)
         == ApplyRules(SpanRules, ApplyRules(HeadingRules, ApplyRules(ParagraphRules,
              ApplyRules(ListRules, ApplyRules(DocumentRules, ApplyRules(FenceRules, s))))))
  {
    var a := FenceRules;
    var b := a + DocumentRules;
    var c := b + ListRules;
    var d := c + ParagraphRules;
    var e := d + HeadingRules;
    ApplyRulesAppend(e, SpanRules, s);
    ApplyRulesAppend(d, HeadingRules, s);
    ApplyRulesAppend(c, ParagraphRules, s);
    ApplyRulesAppend(b, ListRules, s);
    ApplyRulesAppend(a, DocumentRules, s);
  }

  /** A heading becomes bold text, and the strip removes the line breaks around it. */
  lemma CleanHeading(x: string)
    requires '<' !in x && '`' !in x
    requires NoTriple(x)
    requires |x| > 0 && !IsSpace(x[0]) && !IsSpace(x[|x| - 1])
    ensures Clean("<h2>" + x + "</h2>") == "<b>" + x + "</b>"
  {
    var s := "<h2>" + x + "</h2>";
    var s1 := "\n<b>" + x + "</b>\n";
    assert ApplyRules(TagRules, s) == s1 by {
      TagRulesSections(s);
      HeadingSkipsEarlyRules(x);
      HeadingRulesOnHeading(x);
      SpanRulesRejectBold();
      forall r | r in SpanRules ensures Sub(r.pattern, r.replacement, s1) == s1 {
        BoldUntouched(r, x);
      }
      ApplyRulesIdentity(SpanRules, s1);
    }
    assert Collapse(s1) == s1 by {
      assert NoTriple("\n<b>") && NoTriple("</b>\n");
      NoTripleConcat("\n<b>", x);
      NoTripleConcat("\n<b>" + x, "</b>\n");
      CollapseIdentity(s1);
    }
    assert Strip(s1) == "<b>" + x + "</b>" by {
      BoldLine(x);
      StripSurround("\n", "<b>" + x + "</b>", "\n");
    }
  }

  lemma BoldLine(x: string)
    ensures "\n<b>" + x + "</b>\n" == "\n" + ("<b>" + x + "</b>") + "\n"
  {
  }

  /** `t[k..]` cannot occur at `j` in any text that starts with `w`. */
  predicate Clash(w: string, j: nat, t: string, k: nat, ignoreCase: bool)
    decreases |t| - k
  {
    k < |t| && j + k < |w| && (!Same(w[j + k], t[k], ignoreCase) || Clash(w, j, t, k + 1, ignoreCase))
  }

  lemma {:induction false} ClashNotLitAt(w: string, s: string, j: nat, t: string, k: nat, ignoreCase: bool)
    requires w <= s && Clash(w, j, t, k, ignoreCase)
    ensures !LitAt(s, j, t, k, ignoreCase)
    decreases |t| - k
  {
    assert s[j + k] == w[j + k];
    if Same(w[j + k], t[k], ignoreCase) {
      ClashNotLitAt(w, s, j, t, k + 1, ignoreCase);
    }
  }

  /** No match of `p` starts with `w`. */
  predicate Rejects(p: Pattern, w: string)
  {
    |w| > 0 &&
    match p
    case Literal(t, ic) => |t| > 0 && (w[0] != t[0] || Clash(w, 0, t, 1, ic))
    case OpenTag(name) => w[0] != '<' || Clash(w, 1, name, 0, true)
    case HeadingOpen => w[0] != '<' || (|w| > 1 && !Same(w[1], 'h', true)) || (|w| > 2 && !('1' <= w[2] <= '6'))
    case HeadingClose => w[0] != '<' || (|w| > 1 && w[1] != '/') || (|w| > 2 && !Same(w[2], 'h', true))
    case LineBreak => w[0] != '<' || Clash(w, 1, "br", 0, true)
    case HeadBlock => w[0] != '<' || Clash(w, 1, "head>", 0, true)
    case NewlineRun => w[0] != '\n' || (|w| > 1 && w[1] != '\n') || (|w| > 2 && w[2] != '\n')
  }

  lemma RejectsNoMatch(p: Pattern, w: string, s: string)
    requires w <= s && Rejects(p, w)
    ensures MatchAt(p, s).None?
  {
    assert s[0] == w[0];
    match p
    case Literal(t, ic) =>
      if w[0] == t[0] { ClashNotLitAt(w, s, 0, t, 1, ic); }
    case OpenTag(name) =>
      if w[0] == '<' { ClashNotLitAt(w, s, 1, name, 0, true); }
    case HeadingOpen =>
      if |w| > 2 { assert s[1] == w[1] && s[2] == w[2]; }
      else if |w| > 1 { assert s[1] == w[1]; }
    case HeadingClose =>
      if |w| > 2 { assert s[1] == w[1] && s[2] == w[2]; }
      else if |w| > 1 { assert s[1] == w[1]; }
    case LineBreak =>
      if w[0] == '<' { ClashNotLitAt(w, s, 1, "br", 0, true); }
    case HeadBlock =>
      if w[0] == '<' { ClashNotLitAt(w, s, 1, "head>", 0, true); }
    case NewlineRun =>
      if |w| > 2 { assert s[1] == w[1] && s[2] == w[2]; }
      else if |w| > 1 { assert s[1] == w[1]; }
  }

  /**
   * `open + x + close` passes through a pattern that matches at neither end
   * and whose first character occurs nowhere else.
   */
  lemma SubWrapped(p: Pattern, rep: string, open: string, x: string, close: string)
    requires Rejects(p, open) && Rejects(p, close)
    requires Lead(p) !in open[1..] && Lead(p) !in x && Lead(p) !in close[1..]
    ensures Sub(p, rep, open + x + close) == open + x + close
  {
    var m := MatcherOf(p);
    assert m(open + x + close).None? by {
      RejectsNoMatch(p, open, open + x + close);
    }
    assert m(close).None? by {
      RejectsNoMatch(p, close, close);
    }
    StartsWithLead(p);
    ScanWrapped(m, rep, Lead(p), open, x, close);
  }

  /** Where the pattern does not match at the start, the first character stays. */
  lemma SubFirst(p: Pattern, rep: string, s: string)
    requires s != [] && MatchAt(p, s).None?
    ensures Sub(p, rep, s) == [s[0]] + Sub(p, rep, s[1..])
  {
    assert MatcherOf(p)(s) == MatchAt(p, s);
    ScanFirst(MatcherOf(p), rep, s);
  }

  /** A match at the start is replaced and the scan goes on after it. */
  lemma SubMatch(p: Pattern, rep: string, a: string, b: string)
    requires a != [] && MatchAt(p, a + b) == Some(|a|)
    ensures Sub(p, rep, a + b) == rep + Sub(p, rep, b)
  {
    assert MatcherOf(p)(a + b) == MatchAt(p, a + b);
    ScanMatch(MatcherOf(p), rep, a, b);
  }

  /** `r` matches neither `<h2>` nor `</h2>` and starts with `<` or a backtick. */
  predicate PassesHeading(r: Rule)
  {
    Rejects(r.pattern, "<h2>") && Rejects(r.pattern, "</h2>") && MarkupLead(r)
  }

  lemma FenceRulesPassHeading()
    ensures forall r :: r in FenceRules ==> PassesHeading(r)
  {
  }

  lemma DocumentRulesPassHeading()
    ensures forall r :: r in DocumentRules ==> PassesHeading(r)
  {
  }

  lemma ListRulesPassHeading()
    ensures forall r :: r in ListRules ==> PassesHeading(r)
  {
  }

  lemma ParagraphRulesPassHeading()
    ensures forall r :: r in ParagraphRules ==> PassesHeading(r)
  {
  }

  lemma HeadingIdentity(rules: seq<Rule>, x: string)
    requires forall r :: r in rules ==> PassesHeading(r)
    requires '<' !in x && '`' !in x
    ensures ApplyRules(rules, "<h2>" + x + "</h2>") == "<h2>" + x + "</h2>"
  {
    var s := "<h2>" + x + "</h2>";
    forall r | r in rules ensures Sub(r.pattern, r.replacement, s) == s {
      assert PassesHeading(r);
      assert Lead(r.pattern) !in "h2>" && Lead(r.pattern) !in "/h2>";
      SubWrapped(r.pattern, r.replacement, "<h2>", x, "</h2>");
    }
    ApplyRulesIdentity(rules, s);
  }

  /** The sections before the headings find nothing in a heading. */
  lemma HeadingSkipsEarlyRules(x: string)
    requires '<' !in x && '`' !in x
    ensures ApplyRules(ParagraphRules, ApplyRules(ListRules, ApplyRules(DocumentRules, ApplyRules(FenceRules,
              "<h2>" + x + "</h2>")))) == "<h2>" + x + "</h2>"
  {
    FenceRulesPassHeading();
    HeadingIdentity(FenceRules, x);
    DocumentRulesPassHeading();
    HeadingIdentity(DocumentRules, x);
    ListRulesPassHeading();
    HeadingIdentity(ListRules, x);
    ParagraphRulesPassHeading();
    HeadingIdentity(ParagraphRules, x);
  }

  /** Lines 33 and 34 on a heading. */
  lemma HeadingRulesOnHeading(x: string)
    requires '<' !in x
    ensures ApplyRules(HeadingRules, "<h2>" + x + "</h2>") == "\n<b>" + x + "</b>\n"
  {
    HeadingOpenOnHeading(x);
    HeadingCloseOnHeading(x);
    assert HeadingRules[0] == Rule(HeadingOpen, "\n<b>") && HeadingRules[1] == Rule(HeadingClose, "</b>\n");
    assert HeadingRules[1..][1..] == [];
  }

  lemma HeadingOpenOnHeading(x: string)
    requires '<' !in x
    ensures Sub(HeadingOpen, "\n<b>", "<h2>" + x + "</h2>") == "\n<b>" + x + "</h2>"
  {
    var p, rep := HeadingOpen, "\n<b>";
    var rest := x + "</h2>";
    assert Sub(p, rep, "<h2>" + rest) == rep + Sub(p, rep, rest) by {
      HeadingOpenMatches(rest);
      SubMatch(p, rep, "<h2>", rest);
    }
    assert Sub(p, rep, rest) == x + "</h2>" by {
      SubPrefix(p, rep, x, "</h2>");
      assert Rejects(p, "</h2>") && Lead(p) !in "/h2>";
      SubRejected(p, rep, "</h2>");
    }
    assert "<h2>" + x + "</h2>" == "<h2>" + rest;
    assert rep + (x + "</h2>") == "\n<b>" + x + "</h2>";
  }

  lemma HeadingOpenMatches(rest: string)
    ensures MatchAt(HeadingOpen, "<h2>" + rest) == Some(4)
  {
    var s := "<h2>" + rest;
    assert s[0] == '<' && s[1] == 'h' && s[2] == '2' && s[3] == '>';
    assert FindChar(s, '>', 3) == Some(3);
  }

  /** A text the pattern cannot match at its start and whose other characters are not its first. */
  lemma SubRejected(p: Pattern, rep: string, w: string)
    requires Rejects(p, w) && Lead(p) !in w[1..]
    ensures Sub(p, rep, w) == w
  {
    RejectsNoMatch(p, w, w);
    SubFirst(p, rep, w);
    SubNoLead(p, rep, w[1..]);
    assert [w[0]] + w[1..] == w;
  }

  lemma HeadingCloseOnHeading(x: string)
    requires '<' !in x
    ensures Sub(HeadingClose, "</b>\n", "\n<b>" + x + "</h2>") == "\n<b>" + x + "</b>\n"
  {
    var p, rep := HeadingClose, "</b>\n";
    var u := "b>" + x;
    var t := ['<'] + u + "</h2>";
    assert Sub(p, rep, t) == ['<'] + u + rep by {
      assert Rejects(p, "<b>");
      assert "<b>" <= t;
      RejectsNoMatch(p, "<b>", t);
      HeadingCloseMatches();
      ConsSkipThenMatch(p, rep, '<', u, "</h2>");
    }
    assert Sub(p, rep, "\n" + t) == "\n" + Sub(p, rep, t) by {
      SubPrefix(p, rep, "\n", t);
    }
    assert "\n<b>" + x + "</h2>" == "\n" + t;
    assert "\n" + (['<'] + u + rep) == "\n<b>" + x + "</b>\n";
  }

  /** One character where the pattern does not match, text it cannot start in, then a whole match. */
  lemma ConsSkipThenMatch(p: Pattern, rep: string, c: char, u: string, w: string)
    requires MatchAt(p, [c] + u + w).None?
    requires Lead(p) !in u
    requires w != [] && MatchAt(p, w + []) == Some(|w|)
    ensures Sub(p, rep, [c] + u + w) == [c] + u + rep
  {
    var t := [c] + u + w;
    assert Sub(p, rep, t) == [c] + Sub(p, rep, u + w) by {
      SubFirst(p, rep, t);
      assert t[1..] == u + w;
    }
    assert Sub(p, rep, u + w) == u + Sub(p, rep, w) by {
      SubPrefix(p, rep, u, w);
    }
    assert Sub(p, rep, w) == rep by {
      SubMatch(p, rep, w, []);
      assert w + [] == w;
    }
  }

  lemma HeadingCloseMatches()
    ensures MatchAt(HeadingClose, "</h2>" + []) == Some(5)
  {
    var close := "</h2>" + [];
    assert close[0] == '<' && close[1] == '/' && close[2] == 'h' && close[3] == '2' && close[4] == '>';
  }

  /** `r` matches neither `<b>` nor `</b>` and starts with `<`. */
  predicate PassesBold(r: Rule)
  {
    Rejects(r.pattern, "<b>") && Rejects(r.pattern, "</b>\n") && Lead(r.pattern) == '<'
  }

  lemma SpanRulesRejectBold()
    ensures forall r :: r in SpanRules ==> PassesBold(r)
  {
  }

  /** The span rules find nothing in bold text. */
  lemma BoldUntouched(r: Rule, x: string)
    requires PassesBold(r)
    requires '<' !in x
    ensures Sub(r.pattern, r.replacement, "\n<b>" + x + "</b>\n") == "\n<b>" + x + "</b>\n"
  {
    var p, rep := r.pattern, r.replacement;
    var t := "<b>" + x + "</b>\n";
    assert Sub(p, rep, t) == t by {
      assert Lead(p) !in "b>" && Lead(p) !in "/b>\n";
      SubWrapped(p, rep, "<b>", x, "</b>\n");
    }
    SubPrefix(p, rep, "\n", t);
    assert "\n" + t == "\n<b>" + x + "</b>\n";
  }

  // ---------------------------------------------------------------------------
  // Code fences

  /** `t[k..]` sits in `s` at `j + k` character for character. */
  lemma {:induction false} LitAtEmbedded(s: string, j: nat, t: string, k: nat, ignoreCase: bool)
    requires k <= |t| && j + |t| <= |s|
    requires forall i :: k <= i < |t| ==> s[j + i] == t[i]
    ensures LitAt(s, j, t, k, ignoreCase)
    decreases |t| - k
  {
    if k < |t| {
      LitAtEmbedded(s, j, t, k + 1, ignoreCase);
    }
  }

  /** A literal matches itself, whatever follows. */
  lemma LiteralMatches(t: string, ic: bool, rest: string)
    requires |t| > 0
    ensures MatchAt(Literal(t, ic), t + rest) == Some(|t|)
  {
    LitAtEmbedded(t + rest, 0, t, 1, ic);
  }

  /** A text shorter than a literal holds no match of it. */
  lemma {:induction false} ShortLiteral(t: string, ic: bool, rep: string, s: string)
    requires |s| < |t|
    ensures Sub(Literal(t, ic), rep, s) == s
    decreases |s|
  {
    if s != [] {
      var p := Literal(t, ic);
      assert MatchAt(p, s).Some? ==> MatchAt(p, s) == Some(|t|);
      SubFirst(p, rep, s);
      ShortLiteral(t, ic, rep, s[1..]);
      assert [s[0]] + s[1..] == s;
    }
  }

  /** Lines 8 and 9 on an `html` fence: both fence marks go, the body stays. */
  lemma FenceRulesOnFence(y: string)
    requires '`' !in y
    ensures ApplyRules(FenceRules, "```html" + y + "```") == y
  {
    var p1, p2 := Literal("```html", true), Literal("```", false);
    var s := "```html" + (y + "```");
    assert Sub(p1, "", s) == y + "```" by {
      LiteralMatches("```html", true, y + "```");
      SubMatch(p1, "", "```html", y + "```");
      SubPrefix(p1, "", y, "```");
      ShortLiteral("```html", true, "", "```");
    }
    assert Sub(p2, "", y + "```") == y by {
      SubPrefix(p2, "", y, "```");
      LiteralMatches("```", false, []);
      SubMatch(p2, "", "```", []);
      assert "```" + [] == "```" && y + [] == y;
    }
    assert FenceRules[0] == Rule(p1, "") && FenceRules[1] == Rule(p2, "");
    assert FenceRules[1..][1..] == [];
    assert "```html" + y + "```" == s;
  }

  /** Every rule after the fences starts with `<` or a backtick. */
  lemma LaterRulesLead()
    ensures TagRules == FenceRules + (DocumentRules + ListRules + ParagraphRules + HeadingRules + SpanRules)
    ensures forall r :: r in DocumentRules + ListRules + ParagraphRules + HeadingRules + SpanRules ==> MarkupLead(r)
  {
    TagRulesLead();
    var later := DocumentRules + ListRules + ParagraphRules + HeadingRules + SpanRules;
    assert TagRules == FenceRules + later;
    forall r | r in later ensures MarkupLead(r) {
      assert r in TagRules;
    }
  }

  /** The tag rules remove the fence marks around a body with no markup. */
  lemma FenceTagsCleaned(y: string)
    requires '<' !in y && '`' !in y
    ensures ApplyRules(TagRules, "```html" + y + "```") == y
  {
    var later := DocumentRules + ListRules + ParagraphRules + HeadingRules + SpanRules;
    LaterRulesLead();
    ApplyRulesAppend(FenceRules, later, "```html" + y + "```");
    FenceRulesOnFence(y);
    forall r | r in later ensures Sub(r.pattern, r.replacement, y) == y {
      SubNoLead(r.pattern, r.replacement, y);
    }
    ApplyRulesIdentity(later, y);
  }

  /** An answer wrapped in an `html` code fence comes back as the answer alone. */
  lemma CleanFence(x: string)
    requires '<' !in x && '`' !in x
    requires NoTriple(x)
    requires |x| > 0 && !IsSpace(x[0]) && !IsSpace(x[|x| - 1])
    ensures Clean("```html\n" + x + "\n```") == x
  {
    var y := "\n" + x + "\n";
    assert "```html\n" + x + "\n```" == "```html" + y + "```";
    FenceTagsCleaned(y);
    assert Collapse(y) == y by {
      NoTripleConcat("\n", x);
      NoTripleConcat("\n" + x, "\n");
      CollapseIdentity(y);
    }
    StripSurround("\n", x, "\n");
  }

  // ---------------------------------------------------------------------------
  // Lists: a text as tags and plain runs

  /** A piece of a text: a whole tag, or a run holding neither `<` nor a backtick. */
  datatype Piece = Tag(w: string) | Plain(y: string)

  function PieceText(pc: Piece): string
  {
    match pc
    case Tag(w) => w
    case Plain(y) => y
  }

  function Text(ps: seq<Piece>): string
    decreases |ps|
  {
    if ps == [] then [] else PieceText(ps[0]) + Text(ps[1..])
  }

  lemma TextUnfold(ps: seq<Piece>, i: nat)
    requires i < |ps|
    ensures Text(ps[i..]) == PieceText(ps[i]) + Text(ps[i + 1..])
  {
    assert ps[i..][1..] == ps[i + 1..];
  }

  /** `w` is a whole match of `p` whatever text follows it. */
  predicate FullMatch(p: Pattern, w: string)
  {
    match p
    case Literal(t, _) => |t| > 0 && w == t
    case OpenTag(name) => '>' !in name && w == "<" + name + ">"
    case _ => false
  }

  lemma FullMatchAt(p: Pattern, w: string, rest: string)
    requires FullMatch(p, w)
    ensures w != [] && MatchAt(p, w + rest) == Some(|w|)
  {
    match p
    case Literal(t, ic) =>
      LiteralMatches(t, ic, rest);
    case OpenTag(name) =>
      var s := w + rest;
      assert s[0] == '<' && s[1 + |name|] == '>';
      LitAtEmbedded(s, 1, name, 0, true);
      assert FindChar(s, '>', 1 + |name|) == Some(1 + |name|);
  }

  /** What one substitution does to a piece: a tag it matches becomes its replacement. */
  function Step(p: Pattern, rep: string, pc: Piece): Piece
  {
    if pc.Tag? && FullMatch(p, pc.w) then Plain(rep) else pc
  }

  function SubPieces(p: Pattern, rep: string, ps: seq<Piece>): (r: seq<Piece>)
    ensures |r| == |ps| && forall k :: 0 <= k < |ps| ==> r[k] == Step(p, rep, ps[k])
  {
    seq(|ps|, k requires 0 <= k < |ps| => Step(p, rep, ps[k]))
  }

  /** `p` cannot start a match inside the piece, and at a tag it matches all of it or nothing. */
  predicate PieceFits(p: Pattern, pc: Piece)
  {
    match pc
    case Plain(y) => Lead(p) !in y
    case Tag(w) => FullMatch(p, w) || (|w| > 0 && Rejects(p, w) && Lead(p) !in w[1..])
  }

  /** `re.sub` over one piece and the text after it. */
  lemma SubOnPiece(p: Pattern, rep: string, pc: Piece, rest: string)
    requires PieceFits(p, pc)
    ensures Sub(p, rep, PieceText(pc) + rest) == PieceText(Step(p, rep, pc)) + Sub(p, rep, rest)
  {
    match pc
    case Plain(y) =>
      SubPrefix(p, rep, y, rest);
    case Tag(w) =>
      if FullMatch(p, w) {
        FullMatchAt(p, w, rest);
        SubMatch(p, rep, w, rest);
      } else {
        RejectsNoMatch(p, w, w + rest);
        SubFirst(p, rep, w + rest);
        assert (w + rest)[1..] == w[1..] + rest;
        SubPrefix(p, rep, w[1..], rest);
        assert [w[0]] + w[1..] == w;
      }
  }

  /** `re.sub` on a text made of pieces works piece by piece. */
  lemma {:induction false} SubOnPieces(p: Pattern, rep: string, ps: seq<Piece>)
    requires forall k :: 0 <= k < |ps| ==> PieceFits(p, ps[k])
    ensures Sub(p, rep, Text(ps)) == Text(SubPieces(p, rep, ps))
    decreases |ps|
  {
    if ps != [] {
      SubOnPieces(p, rep, ps[1..]);
      SubOnPiece(p, rep, ps[0], Text(ps[1..]));
      var qs := SubPieces(p, rep, ps);
      assert qs[1..] == SubPieces(p, rep, ps[1..]);
      assert Text(qs) == PieceText(qs[0]) + Text(qs[1..]);
    }
  }

  /** A piece after a sequence of substitutions. */
  function PieceAfter(rules: seq<Rule>, pc: Piece): Piece
    decreases |rules|
  {
    if rules == [] then pc else PieceAfter(rules[1..], Step(rules[0].pattern, rules[0].replacement, pc))
  }

  function PiecesAfter(rules: seq<Rule>, ps: seq<Piece>): (r: seq<Piece>)
    ensures |r| == |ps| && forall k :: 0 <= k < |ps| ==> r[k] == PieceAfter(rules, ps[k])
  {
    seq(|ps|, k requires 0 <= k < |ps| => PieceAfter(rules, ps[k]))
  }

  lemma {:induction false} PlainStays(rules: seq<Rule>, y: string)
    ensures PieceAfter(rules, Plain(y)) == Plain(y)
    decreases |rules|
  {
    if rules != [] {
      PlainStays(rules[1..], y);
    }
  }

  /** Plain runs hold no markup, and every tag is one of `tags`. */
  predicate PiecesWithin(ps: seq<Piece>, tags: seq<string>)
  {
    forall k :: 0 <= k < |ps| ==> if ps[k].Plain? then '<' !in ps[k].y && '`' !in ps[k].y else ps[k].w in tags
  }

  /** Every rule fits every tag, and a tag it matches becomes plain text. */
  predicate TagFits(r: Rule, w: string)
  {
    PieceFits(r.pattern, Tag(w)) && (FullMatch(r.pattern, w) ==> '<' !in r.replacement && '`' !in r.replacement)
  }

  predicate RulesFit(rules: seq<Rule>, tags: seq<string>)
  {
    && (forall r :: r in rules ==> MarkupLead(r))
    && (forall r, w :: r in rules && w in tags ==> TagFits(r, w))
  }

  /** The cleanup on a text made of pieces works piece by piece. */
  lemma {:induction false} ApplyOnPieces(rules: seq<Rule>, ps: seq<Piece>, tags: seq<string>)
    requires PiecesWithin(ps, tags) && RulesFit(rules, tags)
    ensures ApplyRules(rules, Text(ps)) == Text(PiecesAfter(rules, ps))
    decreases |rules|
  {
    if rules == [] {
      assert PiecesAfter(rules, ps) == ps;
    } else {
      var r := rules[0];
      assert r in rules && MarkupLead(r);
      forall k | 0 <= k < |ps| ensures PieceFits(r.pattern, ps[k]) {
        if ps[k].Tag? {
          assert TagFits(r, ps[k].w);
        }
      }
      SubOnPieces(r.pattern, r.replacement, ps);
      var ps' := SubPieces(r.pattern, r.replacement, ps);
      forall k | 0 <= k < |ps'| ensures if ps'[k].Plain? then '<' !in ps'[k].y && '`' !in ps'[k].y else ps'[k].w in tags {
        if ps[k].Tag? {
          assert TagFits(r, ps[k].w);
        }
      }
      assert forall q :: q in rules[1..] ==> q in rules;
      ApplyOnPieces(rules[1..], ps', tags);
      assert PiecesAfter(rules[1..], ps') == PiecesAfter(rules, ps);
    }
  }

  const ListTags: seq<string> := ["<ul>", "<li>", "</li>", "</ul>"]

  /** Every rule of `rules` fits the tag `w`. */
  predicate FitsTag(rules: seq<Rule>, w: string)
  {
    forall r :: r in rules ==> TagFits(r, w)
  }

  /** A literal that starts with another character than the tag. */
  lemma LeadMisses(t: string, ic: bool, rep: string, w: string)
    requires |t| > 0 && |w| > 0 && w[0] != t[0] && t[0] !in w[1..]
    ensures TagFits(Rule(Literal(t, ic), rep), w)
  {
  }

  /** A literal that clashes with the tag after their common first character. */
  lemma LiteralMisses(t: string, ic: bool, rep: string, w: string)
    requires |t| > 0 && |w| > 0 && w != t && Clash(w, 0, t, 1, ic) && t[0] !in w[1..]
    ensures TagFits(Rule(Literal(t, ic), rep), w)
  {
  }

  /** A literal that is the tag itself, replaced by plain text. */
  lemma LiteralHits(t: string, ic: bool, rep: string, w: string)
    requires |t| > 0 && w == t && '<' !in rep && '`' !in rep
    ensures TagFits(Rule(Literal(t, ic), rep), w)
  {
  }

  /** An opening tag whose name starts with another letter than the tag's. */
  lemma OpenTagMisses(name: string, rep: string, w: string)
    requires |name| > 0 && |w| > 1 && w[0] == '<' && !Same(w[1], name[0], true) && '<' !in w[1..]
    ensures TagFits(Rule(OpenTag(name), rep), w)
  {
  }

  /** An opening tag that is the tag itself, replaced by plain text. */
  lemma OpenTagHits(name: string, rep: string, w: string)
    requires '>' !in name && w == "<" + name + ">" && '<' !in rep && '`' !in rep
    ensures TagFits(Rule(OpenTag(name), rep), w)
  {
  }

  /** `<h1>`, `<br>` and `<head>` patterns against a tag whose second character is neither `h` nor `b`. */
  lemma AngleMisses(p: Pattern, rep: string, w: string)
    requires p == HeadingOpen || p == HeadBlock || p == LineBreak
    requires |w| > 1 && w[0] == '<' && !Same(w[1], 'h', true) && !Same(w[1], 'b', true) && '<' !in w[1..]
    ensures TagFits(Rule(p, rep), w)
  {
  }

  /** The closing-heading pattern against a tag that is not `</h…`. */
  lemma HeadingCloseMisses(rep: string, w: string)
    requires |w| > 2 && w[0] == '<' && (w[1] != '/' || !Same(w[2], 'h', true)) && '<' !in w[1..]
    ensures TagFits(Rule(HeadingClose, rep), w)
  {
  }

  lemma UlOpenFitsFence()
    ensures FitsTag(FenceRules + HeadingRules + SpanRules, "<ul>")
  {
    var w := "<ul>";
    LeadMisses("```html", true, "", w);
    LeadMisses("```", false, "", w);
    AngleMisses(HeadingOpen, "\n<b>", w);
    HeadingCloseMisses("</b>\n", w);
    OpenTagMisses("span", "", w);
    LiteralMisses("</span>", true, "", w);
  }

  lemma UlOpenFitsDocument()
    ensures FitsTag(DocumentRules, "<ul>")
  {
    var w := "<ul>";
    OpenTagMisses("!doctype", "", w);
    OpenTagMisses("html", "", w);
    LiteralMisses("</html>", true, "", w);
    AngleMisses(HeadBlock, "", w);
    OpenTagMisses("body", "", w);
    LiteralMisses("</body>", true, "", w);
  }

  lemma UlOpenFitsList()
    ensures FitsTag(ListRules, "<ul>")
  {
    var w := "<ul>";
    OpenTagHits("ul", "", w);
    LiteralMisses("</ul>", true, "", w);
    OpenTagMisses("ol", "", w);
    LiteralMisses("</ol>", true, "", w);
    OpenTagMisses("li", "\n   • ", w);
    LiteralMisses("</li>", true, "", w);
  }

  lemma UlOpenFitsParagraph()
    ensures FitsTag(ParagraphRules, "<ul>")
  {
    var w := "<ul>";
    AngleMisses(LineBreak, "\n", w);
    LiteralMisses("</p>", true, "\n\n", w);
    OpenTagMisses("p", "", w);
    LiteralMisses("</div>", true, "\n", w);
    OpenTagMisses("div", "", w);
  }

  lemma LiOpenFitsFence()
    ensures FitsTag(FenceRules + HeadingRules + SpanRules, "<li>")
  {
    var w := "<li>";
    LeadMisses("```html", true, "", w);
    LeadMisses("```", false, "", w);
    AngleMisses(HeadingOpen, "\n<b>", w);
    HeadingCloseMisses("</b>\n", w);
    OpenTagMisses("span", "", w);
    LiteralMisses("</span>", true, "", w);
  }

  lemma LiOpenFitsDocument()
    ensures FitsTag(DocumentRules, "<li>")
  {
    var w := "<li>";
    OpenTagMisses("!doctype", "", w);
    OpenTagMisses("html", "", w);
    LiteralMisses("</html>", true, "", w);
    AngleMisses(HeadBlock, "", w);
    OpenTagMisses("body", "", w);
    LiteralMisses("</body>", true, "", w);
  }

  /** `<li>` becomes the bullet. */
  lemma ItemOpenFits()
    ensures TagFits(Rule(OpenTag("li"), "\n   • "), "<li>")
  {
    OpenTagHits("li", "\n   • ", "<li>");
  }

  lemma LiOpenFitsList()
    ensures FitsTag(ListRules, "<li>")
  {
    var w := "<li>";
    OpenTagMisses("ul", "", w);
    LiteralMisses("</ul>", true, "", w);
    OpenTagMisses("ol", "", w);
    LiteralMisses("</ol>", true, "", w);
    ItemOpenFits();
    LiteralMisses("</li>", true, "", w);
  }

  lemma LiOpenFitsParagraph()
    ensures FitsTag(ParagraphRules, "<li>")
  {
    var w := "<li>";
    AngleMisses(LineBreak, "\n", w);
    LiteralMisses("</p>", true, "\n\n", w);
    OpenTagMisses("p", "", w);
    LiteralMisses("</div>", true, "\n", w);
    OpenTagMisses("div", "", w);
  }

  lemma LiCloseFitsFence()
    ensures FitsTag(FenceRules + HeadingRules + SpanRules, "</li>")
  {
    var w := "</li>";
    LeadMisses("```html", true, "", w);
    LeadMisses("```", false, "", w);
    AngleMisses(HeadingOpen, "\n<b>", w);
    HeadingCloseMisses("</b>\n", w);
    OpenTagMisses("span", "", w);
    LiteralMisses("</span>", true, "", w);
  }

  lemma LiCloseFitsDocument()
    ensures FitsTag(DocumentRules, "</li>")
  {
    var w := "</li>";
    OpenTagMisses("!doctype", "", w);
    OpenTagMisses("html", "", w);
    LiteralMisses("</html>", true, "", w);
    AngleMisses(HeadBlock, "", w);
    OpenTagMisses("body", "", w);
    LiteralMisses("</body>", true, "", w);
  }

  lemma LiCloseFitsList()
    ensures FitsTag(ListRules, "</li>")
  {
    var w := "</li>";
    OpenTagMisses("ul", "", w);
    LiteralMisses("</ul>", true, "", w);
    OpenTagMisses("ol", "", w);
    LiteralMisses("</ol>", true, "", w);
    OpenTagMisses("li", "\n   • ", w);
    LiteralHits("</li>", true, "", w);
  }

  lemma LiCloseFitsParagraph()
    ensures FitsTag(ParagraphRules, "</li>")
  {
    var w := "</li>";
    AngleMisses(LineBreak, "\n", w);
    LiteralMisses("</p>", true, "\n\n", w);
    OpenTagMisses("p", "", w);
    LiteralMisses("</div>", true, "\n", w);
    OpenTagMisses("div", "", w);
  }

  lemma UlCloseFitsFence()
    ensures FitsTag(FenceRules + HeadingRules + SpanRules, "</ul>")
  {
    var w := "</ul>";
    LeadMisses("```html", true, "", w);
    LeadMisses("```", false, "", w);
    AngleMisses(HeadingOpen, "\n<b>", w);
    HeadingCloseMisses("</b>\n", w);
    OpenTagMisses("span", "", w);
    LiteralMisses("</span>", true, "", w);
  }

  lemma UlCloseFitsDocument()
    ensures FitsTag(DocumentRules, "</ul>")
  {
    var w := "</ul>";
    OpenTagMisses("!doctype", "", w);
    OpenTagMisses("html", "", w);
    LiteralMisses("</html>", true, "", w);
    AngleMisses(HeadBlock, "", w);
    OpenTagMisses("body", "", w);
    LiteralMisses("</body>", true, "", w);
  }

  lemma UlCloseFitsList()
    ensures FitsTag(ListRules, "</ul>")
  {
    var w := "</ul>";
    OpenTagMisses("ul", "", w);
    LiteralHits("</ul>", true, "", w);
    OpenTagMisses("ol", "", w);
    LiteralMisses("</ol>", true, "", w);
    OpenTagMisses("li", "\n   • ", w);
    LiteralMisses("</li>", true, "", w);
  }

  lemma UlCloseFitsParagraph()
    ensures FitsTag(ParagraphRules, "</ul>")
  {
    var w := "</ul>";
    AngleMisses(LineBreak, "\n", w);
    LiteralMisses("</p>", true, "\n\n", w);
    OpenTagMisses("p", "", w);
    LiteralMisses("</div>", true, "\n", w);
    OpenTagMisses("div", "", w);
  }

  lemma SectionsFitTag(w: string)
    requires FitsTag(FenceRules + HeadingRules + SpanRules, w) && FitsTag(DocumentRules, w)
    requires FitsTag(ListRules, w) && FitsTag(ParagraphRules, w)
    ensures FitsTag(TagRules, w)
  {
    forall r | r in TagRules ensures TagFits(r, w) {
      if r in FenceRules || r in HeadingRules || r in SpanRules {
        assert r in FenceRules + HeadingRules + SpanRules;
      }
    }
  }

  /** Every rule of the cleanup fits the list tags. */
  lemma TagRulesFitList()
    ensures RulesFit(TagRules, ListTags)
  {
    TagRulesLead();
    UlOpenFitsFence(); UlOpenFitsDocument(); UlOpenFitsList(); UlOpenFitsParagraph();
    SectionsFitTag("<ul>");
    LiOpenFitsFence(); LiOpenFitsDocument(); LiOpenFitsList(); LiOpenFitsParagraph();
    SectionsFitTag("<li>");
    LiCloseFitsFence(); LiCloseFitsDocument(); LiCloseFitsList(); LiCloseFitsParagraph();
    SectionsFitTag("</li>");
    UlCloseFitsFence(); UlCloseFitsDocument(); UlCloseFitsList(); UlCloseFitsParagraph();
    SectionsFitTag("</ul>");
  }

  lemma PieceAfterAppend(a: seq<Rule>, b: seq<Rule>, pc: Piece)
    ensures PieceAfter(a + b, pc) == PieceAfter(b, PieceAfter(a, pc))
    decreases |a|
  {
    if a == [] {
      assert a + b == b;
    } else {
      assert (a + b)[1..] == a[1..] + b;
      PieceAfterAppend(a[1..], b, Step(a[0].pattern, a[0].replacement, pc));
    }
  }

  /** A tag no rule matches whole stays a tag. */
  lemma {:induction false} NoFullMatchStays(rules: seq<Rule>, w: string)
    requires forall r :: r in rules ==> !FullMatch(r.pattern, w)
    ensures PieceAfter(rules, Tag(w)) == Tag(w)
    decreases |rules|
  {
    if rules != [] {
      assert rules[0] in rules;
      assert forall r :: r in rules[1..] ==> r in rules;
      NoFullMatchStays(rules[1..], w);
    }
  }

  /** A tag becomes the replacement of the first rule that matches it whole. */
  lemma {:induction false} FirstFullMatch(rules: seq<Rule>, w: string, i: nat)
    requires i < |rules| && FullMatch(rules[i].pattern, w)
    requires forall j :: 0 <= j < i ==> !FullMatch(rules[j].pattern, w)
    ensures PieceAfter(rules, Tag(w)) == Plain(rules[i].replacement)
    decreases i
  {
    if i == 0 {
      PlainStays(rules[1..], rules[0].replacement);
    } else {
      FirstFullMatch(rules[1..], w, i - 1);
    }
  }

  /** Rules before the section that turns a tag into text leave it a tag; rules after it keep the text. */
  lemma ThroughSections(early: seq<Rule>, mid: seq<Rule>, late: seq<Rule>, w: string, i: nat)
    requires forall r :: r in early ==> !FullMatch(r.pattern, w)
    requires i < |mid| && FullMatch(mid[i].pattern, w)
    requires forall j :: 0 <= j < i ==> !FullMatch(mid[j].pattern, w)
    ensures PieceAfter(early + mid + late, Tag(w)) == Plain(mid[i].replacement)
  {
    PieceAfterAppend(early + mid, late, Tag(w));
    PieceAfterAppend(early, mid, Tag(w));
    NoFullMatchStays(early, w);
    FirstFullMatch(mid, w, i);
    PlainStays(late, mid[i].replacement);
  }

  lemma TagRulesSplit()
    ensures TagRules == (FenceRules + DocumentRules) + ListRules + (ParagraphRules + HeadingRules + SpanRules)
  {
  }

  /** No rule before the list section matches `w` whole. */
  predicate EarlyMisses(w: string)
  {
    forall r :: r in FenceRules + DocumentRules ==> !FullMatch(r.pattern, w)
  }

  /** Rule `i` is the first rule of the list section that matches `w` whole. */
  predicate ListFirst(w: string, i: nat)
  {
    i < |ListRules| && FullMatch(ListRules[i].pattern, w) && forall j :: 0 <= j < i ==> !FullMatch(ListRules[j].pattern, w)
  }

  lemma UlOpenMisses()
    ensures EarlyMisses("<ul>")
  {
  }

  lemma UlOpenFirst()
    ensures ListFirst("<ul>", 0)
  {
  }

  lemma UlCloseMisses()
    ensures EarlyMisses("</ul>")
  {
  }

  lemma UlCloseFirst()
    ensures ListFirst("</ul>", 1)
  {
    forall j | 0 <= j < 1 ensures !FullMatch(ListRules[j].pattern, "</ul>") {
      assert j == 0;
    }
  }

  lemma LiOpenMisses()
    ensures EarlyMisses("<li>")
  {
  }

  lemma LiOpenFirst()
    ensures ListFirst("<li>", 4)
  {
    forall j | 0 <= j < 4 ensures !FullMatch(ListRules[j].pattern, "<li>") {
      assert j == 0 || j == 1 || j == 2 || j == 3;
      assert "<li>"[1] == 'l';
      if j == 0 || j == 2 {
        assert ListRules[j].pattern.OpenTag? && ("<" + ListRules[j].pattern.name + ">")[1] != 'l';
      }
    }
  }

  lemma LiCloseMisses()
    ensures EarlyMisses("</li>")
  {
  }

  lemma LiCloseFirst()
    ensures ListFirst("</li>", 5)
  {
    forall j | 0 <= j < 5 ensures !FullMatch(ListRules[j].pattern, "</li>") {
      assert j == 0 || j == 1 || j == 2 || j == 3 || j == 4;
    }
  }

  /** A list tag goes through the cleanup as the list section's first rule that matches it says. */
  lemma ListTagCleaned(w: string, i: nat)
    requires EarlyMisses(w) && ListFirst(w, i)
    ensures PieceAfter(TagRules, Tag(w)) == Plain(ListRules[i].replacement)
  {
    TagRulesSplit();
    ThroughSections(FenceRules + DocumentRules, ListRules, ParagraphRules + HeadingRules + SpanRules, w, i);
  }
}
