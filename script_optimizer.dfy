/**
 * optimize_scripts.py: the line-by-line rewriter that adds `defer` or `async`
 * to the `<script` tags of an HTML page, with its head/body state and its
 * statistics counters.
 *
 * The texts the rewriter looks for and writes are gathered in a `Rules`
 * record; `Page` holds the ones of the script, and the definitions and
 * lemmas are stated for any rules, which keeps the literals out of the proofs.
 */
module ScriptOptimizer {
  import opened Wrappers
  import opened Text
  import opened Lists
  import opened Scan
  import Transits

  /** A text to search for that is never empty. */
  type Needle = s: String | |s| > 0 witness "<"

  /** The texts the rewriter looks for and the texts it writes. */
  datatype Rules = Rules(
    external: seq<String>,   // EXTERNAL_PATTERNS, each a literal once its escaped dots are read as dots
    critical: seq<String>,   // CRITICAL_SCRIPTS
    scriptTag: String,       // "<script"
    comment: String,         // "<!--"
    deferWord: String,       // "defer"
    asyncWord: String,       // "async"
    srcAttr: Needle,         // "src="
    maps: String,            // "maps.googleapis.com"
    head: String,            // "<head>"
    headEnd: String,         // "</head>"
    opening: Needle,         // "<script ", the text that is replaced
    asyncOpening: String,    // its replacement for an external script
    asyncDeferOpening: String, // its replacement for Google Maps
    deferOpening: String)    // its replacement for a local script

  const Page: Rules := Rules(
    ["maxi-booking.ru", "googleapis.com", "google-analytics.com", "yandex.ru/metrika", "cdn.", "cloudflare.com"],
    ["CONFIG"],
    "<script", "<!--", "defer", "async", "src=", "maps.googleapis.com", "<head>", "</head>",
    "<script ", "<script async ", "<script async defer ", "<script defer ")

  // ---------------------------------------------------------------- the two predicates

  /** Some external pattern occurs in `src`, letters compared without case. */
  predicate External(src: String, r: Rules) {
    exists k :: 0 <= k < |r.external| && Contains(Lower(src), Lower(r.external[k]))
  }

  /** Some critical marker occurs in `content`. */
  predicate Critical(content: String, r: Rules) {
    exists k :: 0 <= k < |r.critical| && Contains(content, r.critical[k])
  }

  /** `is_external_script`: the loop over the patterns that returns at the first one found. */
  method IsExternalScript(src: String, r: Rules) returns (b: bool)
    ensures b <==> External(src, r)
  {
    var i := 0;
    while i < |r.external|
      invariant 0 <= i <= |r.external|
      invariant forall k :: 0 <= k < i ==> !Contains(Lower(src), Lower(r.external[k]))
    {
      if Contains(Lower(src), Lower(r.external[i])) {
        return true;
      }
      i := i + 1;
    }
    return false;
  }

  /** `is_critical_script`. */
  method IsCriticalScript(content: String, r: Rules) returns (b: bool)
    ensures b <==> Critical(content, r)
  {
    var i := 0;
    while i < |r.critical|
      invariant 0 <= i <= |r.critical|
      invariant forall k :: 0 <= k < i ==> !Contains(content, r.critical[k])
    {
      if Contains(content, r.critical[i]) {
        return true;
      }
      i := i + 1;
    }
    return false;
  }

  // ---------------------------------------------------------------- the src attribute

  predicate IsQuote(c: char) { c == '"' || c == '\'' }

  predicate NotQuote(c: char) { !IsQuote(c) }

  /**
   * `src=["\']([^"\']+)["\']` tried at `p`: the attribute, a quote, a
   * non-empty run of non-quotes and a quote of either kind; the run is the
   * capture. The run is greedy and what ends it is a quote or the end of the
   * line, so giving characters back never helps.
   */
  function SrcAt(s: String, p: nat, attr: Needle): (c: Option<String>)
    ensures c.Some? ==> OccursAt(s, attr, p) && p + |attr| < |s| && IsQuote(s[p + |attr|])
    ensures c.Some? ==> var q := p + |attr| + 1 + |c.value|;
      q < |s| && s[p + |attr| + 1..q] == c.value && IsQuote(s[q])
    ensures c.Some? ==> c.value != [] && forall k :: 0 <= k < |c.value| ==> NotQuote(c.value[k])
  {
    if OccursAt(s, attr, p) && p + |attr| < |s| && IsQuote(s[p + |attr|]) then
      var q := RunEnd(s, p + |attr| + 1, NotQuote);
      if p + |attr| + 1 < q < |s| then Some(s[p + |attr| + 1..q]) else None
    else None
  }

  /** The pattern as a matcher over start positions. */
  function SrcMatcher(s: String, attr: Needle): nat -> Option<String> {
    (p: nat) => SrcAt(s, p, attr)
  }

  /** `re.search` of the src pattern: the capture at the first position where it matches. */
  function SrcOf(s: String, attr: Needle): (c: Option<String>)
    ensures c.Some? ==> exists p: nat :: p <= |s| && SrcAt(s, p, attr) == c
                                         && (forall q: nat :: q < p ==> SrcAt(s, q, attr).None?)
    ensures c.None? ==> forall p :: 0 <= p <= |s| ==> SrcAt(s, p, attr).None?
  {
    match Search(s, SrcMatcher(s, attr))
    case None =>
      forall p: nat | p <= |s|
        ensures SrcAt(s, p, attr).None?
      {
        assert SrcMatcher(s, attr)(p) == SrcAt(s, p, attr);
      }
      None
    case Some(h) =>
      assert SrcMatcher(s, attr)(h.pos) == SrcAt(s, h.pos, attr);
      forall q: nat | q < h.pos
        ensures SrcAt(s, q, attr).None?
      {
        assert SrcMatcher(s, attr)(q) == SrcAt(s, q, attr);
      }
      Some(h.val)
  }

  /**
   * A line whose first src attribute is written with a quoted, quote-free,
   * non-empty value yields that value, whatever follows it.
   */
  lemma SrcOfWritten(pre: String, attr: Needle, q1: char, v: String, q2: char, post: String)
    requires Transits.Unbordered(attr) && !Contains(pre, attr)
    requires IsQuote(q1) && IsQuote(q2) && v != [] && forall k :: 0 <= k < |v| ==> NotQuote(v[k])
    ensures SrcOf(pre + attr + [q1] + v + [q2] + post, attr) == Some(v)
  {
    var rest := [q1] + v + [q2] + post;
    var s := pre + attr + rest;
    assert s == pre + attr + [q1] + v + [q2] + post;
    SrcAtWritten(pre, attr, q1, v, q2, post);
    assert forall j: nat :: j < |pre| ==> !OccursAt(s, attr, j) by {
      Transits.FirstAt(pre, attr, rest);
    }
    SrcOfAt(s, |pre|, attr);
  }

  /** The pattern tried where the attribute is written matches and captures the value. */
  lemma SrcAtWritten(pre: String, attr: Needle, q1: char, v: String, q2: char, post: String)
    requires IsQuote(q1) && IsQuote(q2) && v != [] && forall k :: 0 <= k < |v| ==> NotQuote(v[k])
    ensures SrcAt(pre + attr + [q1] + v + [q2] + post, |pre|, attr) == Some(v)
  {
    var s := pre + attr + [q1] + v + [q2] + post;
    var p := |pre|;
    assert s[p + |attr|] == q1;
    var e := p + |attr| + 1 + |v|;
    forall k | p + |attr| + 1 <= k < e
      ensures s[k] == v[k - (p + |attr| + 1)] && NotQuote(s[k])
    {
    }
    assert s[e] == q2;
    RunEndAt(s, p + |attr| + 1, e);
    assert |s[p + |attr| + 1..e]| == |v|;
    forall k | 0 <= k < |v|
      ensures s[p + |attr| + 1..e][k] == v[k]
    {
      assert s[p + |attr| + 1..e][k] == s[p + |attr| + 1 + k];
    }
    assert s[p + |attr| + 1..e] == v;
    assert s[p..p + |attr|] == attr;
  }

  /** A match with none before it is the one `re.search` finds. */
  lemma SrcOfAt(s: String, p: nat, attr: Needle)
    requires SrcAt(s, p, attr).Some? && forall j: nat :: j < p ==> !OccursAt(s, attr, j)
    ensures SrcOf(s, attr) == SrcAt(s, p, attr)
  {
    var c := SrcOf(s, attr);
    assert p <= |s|;
    var p': nat :| p' <= |s| && SrcAt(s, p', attr) == c && (forall q: nat :: q < p' ==> SrcAt(s, q, attr).None?);
    if p' != p {
      assert false;
    }
  }

  /** A run of non-quotes ending at a quote ends there. */
  lemma {:induction false} RunEndAt(s: String, i: nat, e: nat)
    requires i <= e < |s| && IsQuote(s[e]) && forall k :: i <= k < e ==> NotQuote(s[k])
    ensures RunEnd(s, i, NotQuote) == e
    decreases e - i
  {
    if i < e {
      RunEndAt(s, i + 1, e);
    }
  }

  // ---------------------------------------------------------------- one line

  /** What the loop does with a line. */
  datatype Action =
    | Untouched        // no script tag, or a comment: copied, not counted
    | SkippedAlready   // already has `defer` or `async`
    | SkippedCritical  // inline and critical, or inline in the head
    | Async            // external src
    | AsyncDefer       // an external src on Google Maps
    | Defer            // any other quoted src
    | Inline           // counted, but no quoted src: copied unchanged

  /** The line opens a script outside a comment. */
  predicate Tagged(line: String, r: Rules) {
    Contains(line, r.scriptTag) && !Contains(line, r.comment)
  }

  /** The line already asks for deferred or asynchronous loading. */
  predicate Marked(line: String, r: Rules) {
    Contains(line, r.deferWord) || Contains(line, r.asyncWord)
  }

  /**
   * The decision the body of the loop takes for `line`, with `in_head`
   * already updated for it; each outcome is stated in terms of the line, in
   * both directions.
   */
  function Classify(line: String, inHead: bool, r: Rules): (a: Action)
    ensures a == Untouched <==> !Tagged(line, r)
    ensures a == SkippedAlready <==> Tagged(line, r) && Marked(line, r)
    ensures a == SkippedCritical <==>
      Tagged(line, r) && !Marked(line, r) && !Contains(line, r.srcAttr) && (Critical(line, r) || inHead)
    ensures a == Inline <==>
      Tagged(line, r) && !Marked(line, r) && (Contains(line, r.srcAttr) || (!Critical(line, r) && !inHead))
      && SrcOf(line, r.srcAttr).None?
  {
    if !Tagged(line, r) then Untouched
    else if Marked(line, r) then SkippedAlready
    else if !Contains(line, r.srcAttr) && Critical(line, r) then SkippedCritical
    else if !Contains(line, r.srcAttr) && inHead then SkippedCritical
    else SrcAction(line, r)
  }

  /** What happens to a script that reaches the src extraction. */
  function SrcAction(line: String, r: Rules): Action {
    match SrcOf(line, r.srcAttr)
    case None => Inline
    case Some(src) =>
      if External(src, r) then (if Contains(src, r.maps) then AsyncDefer else Async)
      else Defer
  }

  /** A script with a quoted src gets `async` exactly when the src is external, `async defer` on Google Maps. */
  lemma ClassifySrc(line: String, inHead: bool, r: Rules)
    requires Tagged(line, r) && !Marked(line, r) && (Contains(line, r.srcAttr) || (!Critical(line, r) && !inHead))
    requires SrcOf(line, r.srcAttr).Some?
    ensures var a, src := Classify(line, inHead, r), SrcOf(line, r.srcAttr).value;
      && (a == Async <==> External(src, r) && !Contains(src, r.maps))
      && (a == AsyncDefer <==> External(src, r) && Contains(src, r.maps))
      && (a == Defer <==> !External(src, r))
  {
  }

  /** `s.replace(target, with)`: every occurrence of `target`, left to right, replaced. */
  function Replace(s: String, target: Needle, with: String): (out: String)
    ensures with == target ==> out == s
  {
    JoinSplit(s, target);
    Join(Split(s, target), with)
  }

  /** Replacing a text that does not occur leaves the line as it is. */
  lemma ReplaceAbsent(s: String, target: Needle, with: String)
    requires !Contains(s, target)
    ensures Replace(s, target, with) == s
  {
    SplitHead(s, target);
  }

  /** Where the target occurs, the replaced text holds the replacement. */
  lemma ReplaceInserts(s: String, target: Needle, with: String)
    requires Contains(s, target)
    ensures Contains(Replace(s, target, with), with)
  {
    var parts := Split(s, target);
    SplitHead(s, target);
    var rest := Join(parts[1..], with);
    assert Replace(s, target, with) == parts[0] + (with + rest);
    ContainsSuffix(parts[0], with + rest);
    assert (with + rest)[0..|with|] == with;
    ContainsSlice(with + rest, 0, |with|);
    ContainsTrans(Replace(s, target, with), with + rest, with);
  }

  /** The text that replaces the opening for an action, where it is replaced. */
  function Replacement(a: Action, r: Rules): Option<String> {
    match a
    case Async => Some(r.asyncOpening)
    case AsyncDefer => Some(r.asyncDeferOpening)
    case Defer => Some(r.deferOpening)
    case _ => None
  }

  /** The output line. */
  function Rewrite(line: String, a: Action, r: Rules): (out: String)
    ensures Replacement(a, r).None? ==> out == line
    ensures Replacement(a, r).Some? ==> out == Replace(line, r.opening, Replacement(a, r).value)
  {
    match Replacement(a, r)
    case None => line
    case Some(with) => Replace(line, r.opening, with)
  }

  /** `in_head` after the tracking at the top of the loop: a line with both tags leaves it set. */
  function HeadAfter(line: String, inHead: bool, r: Rules): (h: bool)
    ensures h <==> Contains(Lower(line), r.head) || (inHead && !Contains(Lower(line), r.headEnd))
  {
    if Contains(Lower(line), r.head) then true
    else if Contains(Lower(line), r.headEnd) then false
    else inHead
  }

  /**
   * The body of the loop for one line, after the head tracking: the checks
   * in their order, each `continue` a return.
   */
  method ProcessLine(line: String, inHead: bool, r: Rules) returns (out: String, a: Action)
    ensures a == Classify(line, inHead, r) && out == Rewrite(line, a, r)
  {
    if !(Contains(line, r.scriptTag) && !Contains(line, r.comment)) {
      return line, Untouched;
    }
    if Contains(line, r.deferWord) || Contains(line, r.asyncWord) {
      return line, SkippedAlready;
    }
    var critical := IsCriticalScript(line, r);
    if !Contains(line, r.srcAttr) && critical {
      return line, SkippedCritical;
    }
    if !Contains(line, r.srcAttr) && inHead {
      return line, SkippedCritical;
    }
    out, a := RewriteSrc(line, r);
  }

  /** The src extraction and the rewrite it chooses. */
  method RewriteSrc(line: String, r: Rules) returns (out: String, a: Action)
    ensures a == SrcAction(line, r) && out == Rewrite(line, a, r)
  {
    var srcMatch := SrcOf(line, r.srcAttr);
    if srcMatch.Some? {
      var src := srcMatch.value;
      var external := IsExternalScript(src, r);
      if external {
        if Contains(src, r.maps) {
          out, a := Replace(line, r.opening, r.asyncDeferOpening), AsyncDefer;
        } else {
          out, a := Replace(line, r.opening, r.asyncOpening), Async;
        }
      } else {
        out, a := Replace(line, r.opening, r.deferOpening), Defer;
      }
    } else {
      out, a := line, Inline;
    }
  }

  // ---------------------------------------------------------------- the whole page

  /** The `stats` dict. */
  datatype Stats = Stats(total: nat, deferAdded: nat, asyncAdded: nat, skippedCritical: nat, skippedAlready: nat)

  /** The counters after one more line. */
  function Tick(st: Stats, a: Action): Stats {
    match a
    case Untouched => st
    case SkippedAlready => st.(total := st.total + 1, skippedAlready := st.skippedAlready + 1)
    case SkippedCritical => st.(total := st.total + 1, skippedCritical := st.skippedCritical + 1)
    case Async => st.(total := st.total + 1, asyncAdded := st.asyncAdded + 1)
    case AsyncDefer => st.(total := st.total + 1, asyncAdded := st.asyncAdded + 1)
    case Defer => st.(total := st.total + 1, deferAdded := st.deferAdded + 1)
    case Inline => st.(total := st.total + 1)
  }

  /** `in_head` once the first `n` lines are processed. */
  function HeadState(lines: seq<String>, n: nat, r: Rules): bool
    requires n <= |lines|
  {
    if n == 0 then false else HeadAfter(lines[n - 1], HeadState(lines, n - 1, r), r)
  }

  /** The action taken on line `i`. */
  function ActionAt(lines: seq<String>, i: nat, r: Rules): Action
    requires i < |lines|
  {
    Classify(lines[i], HeadState(lines, i + 1, r), r)
  }

  /** The actions taken on the lines, in order. */
  function Actions(lines: seq<String>, r: Rules): (acts: seq<Action>)
    ensures |acts| == |lines|
  {
    seq(|lines|, i requires 0 <= i < |lines| => ActionAt(lines, i, r))
  }

  /** `optimized_lines`. */
  function Output(lines: seq<String>, r: Rules): (out: seq<String>)
    ensures |out| == |lines|
  {
    seq(|lines|, i requires 0 <= i < |lines| => Rewrite(lines[i], Actions(lines, r)[i], r))
  }

  /** The counters after a run of actions. */
  function Tally(acts: seq<Action>): Stats {
    if acts == [] then Stats(0, 0, 0, 0, 0) else Tick(Tally(acts[..|acts| - 1]), acts[|acts| - 1])
  }

  /** The head tracking at the top of the loop. */
  method TrackHead(line: String, inHead: bool, r: Rules) returns (h: bool)
    ensures h == HeadAfter(line, inHead, r)
  {
    h := inHead;
    if Contains(Lower(line), r.head) {
      h := true;
    } else if Contains(Lower(line), r.headEnd) {
      h := false;
    }
  }

  /** The loop of `optimize_html` over the lines of the page. */
  method OptimizeLines(lines: seq<String>, r: Rules) returns (optimized: seq<String>, stats: Stats)
    ensures optimized == Output(lines, r) && stats == Tally(Actions(lines, r))
  {
    optimized := [];
    stats := Stats(0, 0, 0, 0, 0);
    var inHead := false;
    var i := 0;
    while i < |lines|
      invariant 0 <= i <= |lines|
      invariant inHead == HeadState(lines, i, r)
      invariant stats == Tally(Actions(lines, r)[..i])
      invariant optimized == Output(lines, r)[..i]
    {
      inHead := TrackHead(lines[i], inHead, r);
      var out, a := ProcessAt(lines, i, inHead, r);
      PrefixSnoc(Output(lines, r), i);
      TallySnoc(Actions(lines, r), i);
      optimized := optimized + [out];
      stats := Tick(stats, a);
      i := i + 1;
    }
    WholePrefix(Actions(lines, r), i);
    WholePrefix(Output(lines, r), i);
  }

  /** The body of the loop for line `i`, once `in_head` is tracked. */
  method ProcessAt(lines: seq<String>, i: nat, inHead: bool, r: Rules) returns (out: String, a: Action)
    requires i < |lines| && inHead == HeadState(lines, i + 1, r)
    ensures a == Actions(lines, r)[i] && out == Output(lines, r)[i]
  {
    out, a := ProcessLine(lines[i], inHead, r);
  }

  /** The counters after one more action. */
  lemma TallySnoc(acts: seq<Action>, i: nat)
    requires i < |acts|
    ensures Tally(acts[..i + 1]) == Tick(Tally(acts[..i]), acts[i])
  {
    PrefixOfPrefix(acts, i);
  }

  /** `optimize_html`: the rewritten page and its counters. */
  method OptimizeHtml(html: String) returns (result: String, stats: Stats)
    ensures result == Join(Output(Split(html, "\n"), Page), "\n")
    ensures stats == Tally(Actions(Split(html, "\n"), Page))
  {
    var optimized;
    optimized, stats := OptimizeLines(Split(html, "\n"), Page);
    result := Join(optimized, "\n");
  }

  // ---------------------------------------------------------------- properties

  /** None of the replacement texts holds a newline. */
  predicate SingleLine(r: Rules) {
    Free(r.asyncOpening, '\n') && Free(r.asyncDeferOpening, '\n') && Free(r.deferOpening, '\n')
  }

  lemma PageSingleLine()
    ensures SingleLine(Page)
  {
  }

  /** A rewrite puts no newline into a line. */
  lemma RewriteFree(line: String, a: Action, r: Rules)
    requires SingleLine(r) && Free(line, '\n')
    ensures Free(Rewrite(line, a, r), '\n')
  {
    match Replacement(a, r)
    case None =>
    case Some(with) =>
      SplitKeepsFree(line, r.opening, '\n');
      JoinFree(Split(line, r.opening), with, '\n');
  }

  /** The rewritten page splits back into exactly the output lines, one for each line of the page. */
  lemma SameLines(html: String, r: Rules)
    requires SingleLine(r)
    ensures Split(Join(Output(Split(html, "\n"), r), "\n"), "\n") == Output(Split(html, "\n"), r)
    ensures |Output(Split(html, "\n"), r)| == |Split(html, "\n")|
  {
    var lines := Split(html, "\n");
    var out := Output(lines, r);
    SplitFree(html, '\n');
    forall k | 0 <= k < |out|
      ensures Free(out[k], '\n')
    {
      RewriteFree(lines[k], Actions(lines, r)[k], r);
    }
    SplitJoinChar(out, '\n');
  }

  /** The page's own rules keep its line structure. */
  lemma PageSameLines(html: String)
    ensures Split(Join(Output(Split(html, "\n"), Page), "\n"), "\n") == Output(Split(html, "\n"), Page)
  {
    PageSingleLine();
    SameLines(html, Page);
  }

  /** Lines left out of the count are copied unchanged. */
  lemma UntaggedUnchanged(lines: seq<String>, i: nat, r: Rules)
    requires i < |lines| && !Tagged(lines[i], r)
    ensures Output(lines, r)[i] == lines[i] && Actions(lines, r)[i] == Untouched
  {
  }

  /** A line changes only when it gets one of the three replacements, and only where the opening occurs. */
  lemma ChangedLines(lines: seq<String>, i: nat, r: Rules)
    requires i < |lines| && Output(lines, r)[i] != lines[i]
    ensures Contains(lines[i], r.opening)
    ensures Replacement(Actions(lines, r)[i], r).Some?
    ensures Contains(Output(lines, r)[i], Replacement(Actions(lines, r)[i], r).value)
  {
    var a := Actions(lines, r)[i];
    var line := lines[i];
    if !Contains(line, r.opening) {
      match Replacement(a, r)
      case None =>
      case Some(with) => ReplaceAbsent(line, r.opening, with);
    } else {
      ReplaceInserts(line, r.opening, Replacement(a, r).value);
    }
  }

  /** Each replacement text holds the word that marks a script as already handled. */
  predicate MarksAll(r: Rules) {
    Contains(r.asyncOpening, r.asyncWord) && Contains(r.asyncDeferOpening, r.asyncWord)
    && Contains(r.deferOpening, r.deferWord)
  }

  /** The page's three replacement openings each carry the marker of the step that wrote them. */
  lemma PageMarksAll()
    ensures MarksAll(Page)
  {
    MarkedAt(Page.asyncOpening, Page.asyncWord, 8);
    MarkedAt(Page.asyncDeferOpening, Page.asyncWord, 8);
    MarkedAt(Page.deferOpening, Page.deferWord, 8);
  }

  /** A word found at offset `i` is contained in the text. */
  lemma MarkedAt(s: String, w: String, i: nat)
    requires i + |w| <= |s| && s[i..i + |w|] == w
    ensures Contains(s, w)
  {
    ContainsSlice(s, i, i + |w|);
  }

  /** A line the rewriter changed is skipped as already handled by a second pass. */
  lemma ChangedLinesMarked(lines: seq<String>, i: nat, r: Rules)
    requires MarksAll(r) && i < |lines| && Output(lines, r)[i] != lines[i]
    ensures Marked(Output(lines, r)[i], r)
  {
    ChangedLines(lines, i, r);
    var out, with := Output(lines, r)[i], Replacement(Actions(lines, r)[i], r).value;
    ContainsTrans(out, with, r.asyncWord);
    ContainsTrans(out, with, r.deferWord);
  }

  /** The src attribute of the page cannot overlap itself, so the value after its first occurrence is the one taken. */
  lemma PageSrcUnbordered()
    ensures Transits.Unbordered(Page.srcAttr)
  {
  }

  /**
   * A script whose tag is not written as the opening text (say
   * `<script\tsrc=...>`) is left as it is, even when it is counted as
   * deferred or asynchronous.
   */
  lemma CountedButUnchanged(lines: seq<String>, i: nat, r: Rules)
    requires i < |lines| && !Contains(lines[i], r.opening)
    ensures Output(lines, r)[i] == lines[i]
  {
    match Replacement(Actions(lines, r)[i], r)
    case None =>
    case Some(with) => ReplaceAbsent(lines[i], r.opening, with);
  }

  /** The number of lines that open a script outside a comment, among the first `n`. */
  function TaggedCount(lines: seq<String>, n: nat, r: Rules): nat
    requires n <= |lines|
  {
    if n == 0 then 0 else TaggedCount(lines, n - 1, r) + (if Tagged(lines[n - 1], r) then 1 else 0)
  }

  /** `total` counts exactly the lines that open a script outside a comment. */
  lemma {:induction false} TotalIsTagged(lines: seq<String>, n: nat, r: Rules)
    requires n <= |lines|
    ensures Tally(Actions(lines, r)[..n]).total == TaggedCount(lines, n, r)
  {
    if n > 0 {
      var acts := Actions(lines, r);
      TotalIsTagged(lines, n - 1, r);
      assert acts[..n][..n - 1] == acts[..n - 1];
    }
  }

  /** The four outcome counters together. */
  function Outcomes(st: Stats): nat {
    st.deferAdded + st.asyncAdded + st.skippedCritical + st.skippedAlready
  }

  /**
   * The four outcome counters never exceed `total`, and they fall short of it
   * exactly when some counted line was a script without a quoted src that
   * was neither critical nor in the head.
   */
  lemma {:induction false} CountersBound(acts: seq<Action>)
    ensures Outcomes(Tally(acts)) <= Tally(acts).total
    ensures Outcomes(Tally(acts)) < Tally(acts).total <==> Inline in acts
  {
    if acts != [] {
      var init, last := acts[..|acts| - 1], acts[|acts| - 1];
      CountersBound(init);
      if Inline in acts {
        var j :| 0 <= j < |acts| && acts[j] == Inline;
        if j < |init| {
          assert init[j] == Inline;
        }
      }
      if Inline in init {
        var j :| 0 <= j < |init| && init[j] == Inline;
        assert acts[j] == Inline;
      }
      var st := Tally(init);
      assert Tally(acts) == Tick(st, last);
      TickOutcomes(st, last);
    }
  }

  /** One more action adds one to `total` and to at most one outcome counter, to none exactly for an inline script. */
  lemma TickOutcomes(st: Stats, a: Action)
    ensures a != Untouched ==> Tick(st, a).total == st.total + 1
    ensures a != Untouched && a != Inline ==> Outcomes(Tick(st, a)) == Outcomes(st) + 1
    ensures a == Untouched || a == Inline ==> Outcomes(Tick(st, a)) == Outcomes(st)
    ensures a == Untouched ==> Tick(st, a) == st
  {
  }
}
