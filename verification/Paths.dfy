/** Path matches, the Sozu rules they compile to, and which request targets those rules take.

    A `char` of a path, pattern or target stands for one byte, so `|s|` is the source's `len()`.
    The metacharacters are ASCII, so escaping byte by byte and char by char agree. */
module Paths {
  import opened Base

  datatype PathMatch = Prefix(value: string) | Exact(value: string) | Regex(value: string)

  /** What a `PathMatch` compiles to. */
  datatype SozuRule = RawPrefix(text: string) | RegexRule(text: string)

  const REMAINDER := "(?-u:.*)"
  const EXACT_TAIL := "(?:" + "\\?" + REMAINDER + ")?$"
  const PREFIX_TAIL := "(?:" + "[/?]" + REMAINDER + ")?$"

  predicate IsMeta(c: char) {
    || c == '\\' || c == '.' || c == '+' || c == '*' || c == '?' || c == '(' || c == ')'
    || c == '|' || c == '[' || c == ']' || c == '{' || c == '}' || c == '^' || c == '$'
  }

  function EscapedChar(c: char): string {
    if IsMeta(c) then ['\\', c] else [c]
  }

  function Escaped(literal: string): string {
    if literal == [] then [] else EscapedChar(literal[0]) + Escaped(literal[1..])
  }

  lemma EscapedStep(literal: string, i: nat)
    requires i < |literal|
    ensures Escaped(literal[i..]) == EscapedChar(literal[i]) + Escaped(literal[i + 1..])
  {
    assert literal[i..][1..] == literal[i + 1..];
  }

  /** The source's escaping loop. */
  method RegexEscape(literal: string) returns (out: string)
    ensures out == Escaped(literal)
  {
    out := [];
    for i := 0 to |literal|
      invariant out + Escaped(literal[i..]) == Escaped(literal)
    {
      hide Escaped;
      var c := literal[i];
      ghost var before := out;
      if IsMeta(c) {
        out := out + ['\\'];
      }
      out := out + [c];
      assert out == before + EscapedChar(c);
      EscapedStep(literal, i);
      Associate(before, EscapedChar(c), Escaped(literal[i + 1..]));
    }
  }

  /** A prefix without its insignificant trailing slashes; the root is empty. */
  function PrefixBody(prefix: string): (body: string)
    ensures body <= prefix
    ensures body != [] ==> body[|body| - 1] != '/'
    ensures forall i :: |body| <= i < |prefix| ==> prefix[i] == '/'
  {
    if prefix != [] && prefix[|prefix| - 1] == '/' then PrefixBody(prefix[..|prefix| - 1]) else prefix
  }

  function CompiledRule(path: PathMatch): SozuRule {
    match path
    case Regex(v) => RegexRule(v)
    case Exact(v) => RegexRule("^" + Escaped(v) + EXACT_TAIL)
    case Prefix(v) =>
      var body := PrefixBody(v);
      if body == [] then RawPrefix("/") else RegexRule("^" + Escaped(body) + PREFIX_TAIL)
  }

  // ---- regex patterns ----------------------------------------------------------

  /** The regex fragment the compiled rules are written in. `Boundary` is `[/?]`, `AnyTail` is
      `(?-u:.*)`. */
  datatype Pattern =
    | Empty
    | Lit(c: char)
    | Boundary
    | AnyTail
    | Start
    | End
    | Cat(first: Pattern, rest: Pattern)
    | Optional(inner: Pattern)

  /** Reads a pattern of the fragment up to the end or an unmatched `)`; `None` outside it. */
  function ParseFrom(s: string): (r: Option<(Pattern, string)>)
    ensures r.Some? ==> |r.value.1| <= |s|
    decreases |s|, 1
  {
    if s == [] || s[0] == ')' then Some((Empty, s))
    else match s[0]
      case '^' => Prepend(Start, ParseFrom(s[1..]))
      case '$' => Prepend(End, ParseFrom(s[1..]))
      case '\\' => if |s| >= 2 && IsMeta(s[1]) then Prepend(Lit(s[1]), ParseFrom(s[2..])) else None
      case '[' => if "[/?]" <= s then Prepend(Boundary, ParseFrom(s[4..])) else None
      case '(' => if REMAINDER <= s then Prepend(AnyTail, ParseFrom(s[|REMAINDER|..])) else ParseGroup(s)
      case c => if IsMeta(c) then None else Prepend(Lit(c), ParseFrom(s[1..]))
  }

  /** A group `(?:...)`, optional when a `?` follows it, and the rest. */
  function ParseGroup(s: string): (r: Option<(Pattern, string)>)
    ensures r.Some? ==> |r.value.1| <= |s|
    decreases |s|, 0
  {
    if !("(?:" <= s) then None
    else match ParseFrom(s[3..])
      case None => None
      case Some((inner, rest)) =>
        if rest == [] then None
        else if |rest| >= 2 && rest[1] == '?' then Prepend(Optional(inner), ParseFrom(rest[2..]))
        else Prepend(inner, ParseFrom(rest[1..]))
  }

  function Prepend(first: Pattern, parsed: Option<(Pattern, string)>): Option<(Pattern, string)> {
    match parsed
    case None => None
    case Some((rest, left)) => Some((Cat(first, rest), left))
  }

  function Parse(s: string): Option<Pattern> {
    match ParseFrom(s)
    case Some((p, rest)) => if rest == [] then Some(p) else None
    case None => None
  }

  /** `p` matches `s` from `i` up to `j`. */
  ghost predicate Spans(p: Pattern, s: string, i: nat, j: nat)
    requires i <= j <= |s|
  {
    match p
    case Empty => i == j
    case Lit(c) => j == i + 1 && s[i] == c
    case Boundary => j == i + 1 && (s[i] == '/' || s[i] == '?')
    case AnyTail => forall k :: i <= k < j ==> s[k] != '\n'
    case Start => i == j == 0
    case End => i == j == |s|
    case Cat(first, rest) => exists k :: i <= k <= j && Spans(first, s, i, k) && Spans(rest, s, k, j)
    case Optional(inner) => i == j || Spans(inner, s, i, j)
  }

  /** How Sozu 2.3 reads a regex rule: `\A(?:...)\z`. */
  ghost predicate WholeSpan(p: Pattern, s: string) {
    Spans(p, s, 0, |s|)
  }

  /** How Sozu 2.2 reads it: `is_match`, anywhere in the target. */
  ghost predicate Unanchored(p: Pattern, s: string) {
    exists i, j :: 0 <= i <= j <= |s| && Spans(p, s, i, j)
  }

  // ---- the targets a rule takes ------------------------------------------------------

  predicate LfFree(s: string) {
    '\n' !in s
  }

  /** `target` is `path`, or `path` followed by one of `marks` and anything without LF. */
  predicate AtBoundary(path: string, marks: string, target: string) {
    target == path || (path < target && target[|path|] in marks && LfFree(target[|path| + 1..]))
  }

  /** What the code takes from its libraries: whether a path regex outside the fragment matches a
      target, whether a header regex matches a value, and which characters `Debug` spells as a
      Unicode escape. */
  datatype Platform = Platform(
    path: (string, string) -> bool,
    header: (string, string) -> bool,
    escapes: char -> bool)

  ghost predicate Accepts(os: Platform, pattern: string, target: string) {
    match Parse(pattern)
    case Some(p) => WholeSpan(p, target)
    case None => os.path(pattern, target)
  }

  ghost predicate RuleMatches(os: Platform, rule: SozuRule, target: string) {
    match rule
    case RawPrefix(text) => text <= target
    case RegexRule(text) => Accepts(os, text, target)
  }

  ghost predicate PathMatches(os: Platform, path: PathMatch, target: string) {
    RuleMatches(os, CompiledRule(path), target)
  }

  /** The literal `text` followed by `tail`. */
  function Literally(text: string, tail: Pattern): Pattern {
    if text == [] then tail else Cat(Lit(text[0]), Literally(text[1..], tail))
  }

  function Tail(mark: Pattern): Pattern {
    Cat(Optional(Cat(mark, Cat(AnyTail, Empty))), Cat(End, Empty))
  }

  lemma {:induction false} ParseEscaped(text: string, tail: string, t: Pattern)
    requires ParseFrom(tail) == Some((t, []))
    ensures ParseFrom(Escaped(text) + tail) == Some((Literally(text, t), []))
  {
    if text == [] {
      assert Escaped(text) + tail == tail;
    } else {
      var c, rest := text[0], Escaped(text[1..]) + tail;
      ParseEscaped(text[1..], tail, t);
      if IsMeta(c) {
        assert EscapedChar(c) + Escaped(text[1..]) + tail == EscapedChar(c) + rest;
        ParseEscape(c, rest);
      } else {
        assert EscapedChar(c) + Escaped(text[1..]) + tail == EscapedChar(c) + rest;
        assert ([c] + rest)[1..] == rest;
      }
    }
  }

  lemma ParseEscape(c: char, rest: string)
    requires IsMeta(c)
    ensures ParseFrom(['\\', c] + rest) == Prepend(Lit(c), ParseFrom(rest))
  {
    assert (['\\', c] + rest)[2..] == rest;
  }

  lemma ParseRemainder(rest: string)
    ensures ParseFrom(REMAINDER + rest) == Prepend(AnyTail, ParseFrom(rest))
  {
    assert (REMAINDER + rest)[|REMAINDER|..] == rest;
  }

  lemma ParseBoundary(rest: string)
    ensures ParseFrom("[/?]" + rest) == Prepend(Boundary, ParseFrom(rest))
  {
    assert ("[/?]" + rest)[4..] == rest;
  }

  lemma ParseOptional(inside: string, inner: Pattern, rest: string)
    requires ParseFrom(inside + ")?" + rest) == Some((inner, ")?" + rest))
    ensures ParseFrom("(?:" + inside + ")?" + rest) == Prepend(Optional(inner), ParseFrom(rest))
  {
    var s := "(?:" + inside + ")?" + rest;
    assert s[3..] == inside + ")?" + rest;
    assert (")?" + rest)[2..] == rest;
    assert s[0] == '(' && s[2] == ':' && REMAINDER[2] == '-';
  }

  lemma ParseMarkedTail(m: string, mark: Pattern)
    requires ParseFrom(m + (REMAINDER + ")?$")) == Prepend(mark, ParseFrom(REMAINDER + ")?$"))
    ensures ParseFrom("(?:" + m + REMAINDER + ")?$") == Some((Tail(mark), []))
  {
    var close := ")?$";
    assert close == ")?" + "$" && close[0] == ')';
    ParseRemainder(close);
    var inside := m + REMAINDER;
    assert m + (REMAINDER + close) == inside + ")?" + "$";
    ParseOptional(inside, Cat(mark, Cat(AnyTail, Empty)), "$");
    assert "(?:" + m + REMAINDER + close == "(?:" + inside + ")?" + "$";
    assert "$"[1..] == [];
  }

  lemma ParseTails()
    ensures ParseFrom(EXACT_TAIL) == Some((Tail(Lit('?')), []))
    ensures ParseFrom(PREFIX_TAIL) == Some((Tail(Boundary), []))
  {
    ParseEscape('?', REMAINDER + ")?$");
    ParseMarkedTail(['\\', '?'], Lit('?'));
    ParseBoundary(REMAINDER + ")?$");
    ParseMarkedTail("[/?]", Boundary);
  }

  lemma ParseCompiled(text: string, tail: string, mark: Pattern)
    requires ParseFrom(tail) == Some((Tail(mark), []))
    ensures Parse("^" + Escaped(text) + tail) == Some(Cat(Start, Literally(text, Tail(mark))))
  {
    ParseEscaped(text, tail, Tail(mark));
    assert "^" + Escaped(text) + tail == ['^'] + (Escaped(text) + tail);
    assert (['^'] + (Escaped(text) + tail))[1..] == Escaped(text) + tail;
  }

  lemma {:induction false} SpansLiterally(text: string, t: Pattern, s: string, i: nat, j: nat)
    requires i <= j <= |s|
    ensures Spans(Literally(text, t), s, i, j) <==>
            i + |text| <= j && s[i..i + |text|] == text && Spans(t, s, i + |text|, j)
  {
    if text != [] {
      if i < j {
        SpansLiterally(text[1..], t, s, i + 1, j);
        if i + |text| <= j {
          assert s[i..i + |text|] == [s[i]] + s[i + 1..i + |text|];
          assert text == [text[0]] + text[1..];
          assert Spans(Lit(text[0]), s, i, i + 1) <==> s[i] == text[0];
        }
      }
    }
  }

  /** `mark` spans exactly one character of `marks`. */
  ghost predicate Marks(mark: Pattern, marks: string) {
    forall s: string, i: nat, j: nat :: i <= j <= |s| ==>
                                        (Spans(mark, s, i, j) <==> j == i + 1 && s[i] in marks)
  }

  lemma SpansTail(mark: Pattern, marks: string, s: string, i: nat, j: nat)
    requires Marks(mark, marks) && i <= j <= |s|
    ensures Spans(Tail(mark), s, i, j) <==>
            j == |s| && (i == |s| || (s[i] in marks && LfFree(s[i + 1..])))
  {
    var rest := Cat(AnyTail, Empty);
    var marked := Cat(mark, rest);
    var close := Cat(End, Empty);
    forall k | i <= k <= j ensures Spans(close, s, k, j) <==> k == j == |s| {
      if k == j == |s| {
        assert Spans(End, s, k, k) && Spans(Empty, s, k, j);
      }
    }
    forall k | i <= k <= j ensures Spans(rest, s, k, j) <==> LfFree(s[k..j]) {
      if Spans(AnyTail, s, k, j) {
        assert Spans(Empty, s, j, j);
      }
      if LfFree(s[k..j]) {
        forall m | k <= m < j ensures s[m] != '\n' {
          assert s[k..j][m - k] == s[m];
        }
      }
    }
    assert Spans(marked, s, i, j) <==> i < j && s[i] in marks && LfFree(s[i + 1..j]) by {
      if i < j && s[i] in marks && LfFree(s[i + 1..j]) {
        assert Spans(mark, s, i, i + 1);
      }
    }
    assert i < j == |s| ==> s[i + 1..j] == s[i + 1..];
    if j == |s| && (i == |s| || (s[i] in marks && LfFree(s[i + 1..]))) {
      assert Spans(Optional(marked), s, i, j) && Spans(close, s, j, j);
    }
  }

  /** Both readings of a compiled pattern take the same targets: the element-boundary set. */
  lemma CompiledSpans(text: string, mark: Pattern, marks: string, s: string)
    requires Marks(mark, marks)
    ensures var p := Cat(Start, Literally(text, Tail(mark)));
            && (WholeSpan(p, s) <==> AtBoundary(text, marks, s))
            && (Unanchored(p, s) <==> AtBoundary(text, marks, s))
  {
    var body := Literally(text, Tail(mark));
    var p := Cat(Start, body);
    forall i: nat, j: nat | i <= j <= |s|
      ensures Spans(p, s, i, j) <==> i == 0 && j == |s| && AtBoundary(text, marks, s)
    {
      SpansLiterally(text, Tail(mark), s, 0, j);
      if |text| <= j {
        SpansTail(mark, marks, s, |text|, j);
      }
      if i == 0 && Spans(body, s, 0, j) {
        assert Spans(Start, s, 0, 0);
      }
    }
    if AtBoundary(text, marks, s) {
      assert Spans(p, s, 0, |s|);
    }
  }

  lemma MarksHold()
    ensures Marks(Lit('?'), "?") && Marks(Boundary, "/?")
  {
  }

  /** A compiled Exact rule takes its path, query string allowed, read either way. */
  lemma ExactRule(os: Platform, path: string, target: string)
    ensures PathMatches(os, Exact(path), target) <==> AtBoundary(path, "?", target)
    ensures var p := Parse(CompiledRule(Exact(path)).text);
            p.Some? && (Unanchored(p.value, target) <==> WholeSpan(p.value, target))
  {
    ParseTails();
    ParseCompiled(path, EXACT_TAIL, Lit('?'));
    MarksHold();
    CompiledSpans(path, Lit('?'), "?", target);
  }

  /** A compiled Prefix rule takes its element-boundary set, read either way; the root takes every
      target that starts with `/`. */
  lemma PrefixRule(os: Platform, prefix: string, target: string)
    ensures var body := PrefixBody(prefix);
            PathMatches(os, Prefix(prefix), target) <==>
            if body == [] then "/" <= target else AtBoundary(body, "/?", target)
    ensures var rule := CompiledRule(Prefix(prefix));
            rule.RegexRule? ==>
              var p := Parse(rule.text);
              p.Some? && (Unanchored(p.value, target) <==> WholeSpan(p.value, target))
  {
    ParseTails();
    var body := PrefixBody(prefix);
    ParseCompiled(body, PREFIX_TAIL, Boundary);
    MarksHold();
    CompiledSpans(body, Boundary, "/?", target);
  }

  // ---- coverage and meeting -----------------------------------------------------------

  /** Whether element-boundary prefix `prefix` matches `target`, as the planner decides it. */
  predicate PrefixCovers(prefix: string, target: string) {
    var body := PrefixBody(prefix);
    body == [] || body == target || (body < target && target[|body|] in "/?")
  }

  predicate Queried(target: string, exact: string) {
    exact < target && target[|exact|] == '?'
  }

  /** The decision procedure for a common target; it never rules a regex out. */
  predicate PathsMeet(a: PathMatch, b: PathMatch) {
    match (a, b)
    case (Regex(_), _) => true
    case (_, Regex(_)) => true
    case (Prefix(x), Prefix(y)) => PrefixCovers(x, PrefixBody(y)) || PrefixCovers(y, PrefixBody(x))
    case (Exact(e), Prefix(p)) => PrefixCovers(p, e) || Queried(PrefixBody(p), e)
    case (Prefix(p), Exact(e)) => PrefixCovers(p, e) || Queried(PrefixBody(p), e)
    case (Exact(x), Exact(y)) => x == y || Queried(x, y) || Queried(y, x)
  }

  /** What `PrefixCovers` decides is what the compiled rule takes. */
  lemma PrefixCoversRule(os: Platform, prefix: string, target: string)
    requires LfFree(target) && "/" <= target
    ensures PathMatches(os, Prefix(prefix), target) <==> PrefixCovers(prefix, target)
  {
    PrefixRule(os, prefix, target);
    var body := PrefixBody(prefix);
    if body < target {
      assert target[..|body|] + target[|body|..] == target;
    }
  }

  /** A target two paths both match makes them meet, whatever the target. */
  lemma MeetingIsNeverMissed(os: Platform, a: PathMatch, b: PathMatch, target: string)
    requires PathMatches(os, a, target) && PathMatches(os, b, target)
    ensures PathsMeet(a, b)
  {
    if !a.Regex? && !b.Regex? {
      PathTargets(os, a, target);
      PathTargets(os, b, target);
      MeetingText(a, b, target);
    }
  }

  lemma MeetingText(a: PathMatch, b: PathMatch, target: string)
    requires !a.Regex? && !b.Regex? && Spelled(a) <= target && Spelled(b) <= target
    requires Spelled(a) < target && a.Exact? ==> target[|Spelled(a)|] == '?'
    requires Spelled(a) < target && a.Prefix? && Spelled(a) != [] ==> target[|Spelled(a)|] in "/?"
    requires Spelled(b) < target && b.Exact? ==> target[|Spelled(b)|] == '?'
    requires Spelled(b) < target && b.Prefix? && Spelled(b) != [] ==> target[|Spelled(b)|] in "/?"
    ensures PathsMeet(a, b)
  {
    var x, y := Spelled(a), Spelled(b);
    if |x| == |y| {
      assert x == target[..|x|] == y;
    } else if |x| < |y| {
      assert x < y && y[|x|] == target[|x|];
    } else {
      assert y < x && x[|y|] == target[|y|];
    }
  }

  /** The literal text a non-regex path starts every target with. */
  function Spelled(path: PathMatch): string {
    if path.Prefix? then PrefixBody(path.value) else path.value
  }

  lemma PathTargets(os: Platform, path: PathMatch, target: string)
    requires !path.Regex? && PathMatches(os, path, target)
    ensures Spelled(path) <= target
    ensures Spelled(path) < target && path.Exact? ==> target[|Spelled(path)|] == '?'
    ensures Spelled(path) < target && path.Prefix? && Spelled(path) != [] ==> target[|Spelled(path)|] in "/?"
  {
    if path.Exact? {
      ExactRule(os, path.value, target);
    } else {
      PrefixRule(os, path.value, target);
    }
  }

  predicate Plain(path: PathMatch) {
    !path.Regex? && "/" <= path.value && LfFree(path.value)
  }

  /** A target both of two meeting paths match. */
  function Witness(a: PathMatch, b: PathMatch): string {
    var x, y := Spelled(a), Spelled(b);
    if x == [] && y == [] then "/" else if |x| < |y| then y else x
  }

  lemma MatchesLonger(os: Platform, path: PathMatch, target: string)
    requires Plain(path) && LfFree(target) && "/" <= target
    requires if path.Prefix? then PrefixCovers(path.value, target)
             else path.value == target || Queried(target, path.value)
    ensures PathMatches(os, path, target)
  {
    if path.Prefix? {
      PrefixCoversRule(os, path.value, target);
    } else {
      ExactRule(os, path.value, target);
    }
  }

  lemma WitnessMatches(os: Platform, a: PathMatch, b: PathMatch)
    requires Plain(a) && Plain(b) && PathsMeet(a, b)
    ensures PathMatches(os, a, Witness(a, b)) && PathMatches(os, b, Witness(a, b))
  {
    var w := Witness(a, b);
    assert LfFree(w) && "/" <= w;
    MatchesLonger(os, a, w);
    MatchesLonger(os, b, w);
  }

  /** `PathsMeet` on two non-regex paths holds exactly when some target matches both. */
  lemma PathsMeetExactly(os: Platform, a: PathMatch, b: PathMatch)
    requires Plain(a) && Plain(b)
    ensures PathsMeet(a, b) <==>
            exists target :: PathMatches(os, a, target) && PathMatches(os, b, target)
  {
    if PathsMeet(a, b) {
      WitnessMatches(os, a, b);
    }
    forall target | PathMatches(os, a, target) && PathMatches(os, b, target)
      ensures PathsMeet(a, b)
    {
      MeetingIsNeverMissed(os, a, b, target);
    }
  }
}
