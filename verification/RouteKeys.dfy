/** The key Sozu files a frontend under, an unescaped `;`-joined string, and when two frontends
    share one. */
module RouteKeys {
  import opened Base
  import opened Paths
  import opened Frontends

  // ---- canonical header conjunctions -------------------------------------------------

  function CompareHeader(a: HeaderMatch, b: HeaderMatch): Ordering {
    CompareString(a.name, b.name)
    .Then(CompareBool(a.kind.RegexValue?, b.kind.RegexValue?))
    .Then(CompareString(a.kind.value, b.kind.value))
  }

  predicate HeaderLe(a: HeaderMatch, b: HeaderMatch) {
    !CompareHeader(a, b).Greater?
  }

  lemma CompareHeaderLaws(a: HeaderMatch, b: HeaderMatch)
    ensures CompareHeader(a, b).Equal? <==> a == b
    ensures CompareHeader(b, a) == CompareHeader(a, b).Reverse()
  {
    CompareStringEqual(a.name, b.name);
    CompareStringEqual(a.kind.value, b.kind.value);
    CompareStringReverse(a.name, b.name);
    CompareStringReverse(a.kind.value, b.kind.value);
  }

  lemma HeaderLeTransitive(a: HeaderMatch, b: HeaderMatch, c: HeaderMatch)
    requires HeaderLe(a, b) && HeaderLe(b, c)
    ensures HeaderLe(a, c)
  {
    CompareStringTransitive(a.name, b.name, c.name);
    CompareStringEqual(a.name, b.name);
    CompareStringEqual(b.name, c.name);
    CompareStringEqual(a.name, c.name);
    if a.name == b.name == c.name && a.kind.RegexValue? == b.kind.RegexValue? == c.kind.RegexValue? {
      CompareStringTransitive(a.kind.value, b.kind.value, c.kind.value);
    }
  }

  lemma HeaderLeIsTotal()
    ensures TotalOrder(HeaderLe)
  {
    forall a, b ensures (HeaderLe(a, b) || HeaderLe(b, a)) && (HeaderLe(a, b) && HeaderLe(b, a) ==> a == b) {
      CompareHeaderLaws(a, b);
    }
    forall a, b, c | HeaderLe(a, b) && HeaderLe(b, c) ensures HeaderLe(a, c) {
      HeaderLeTransitive(a, b, c);
    }
  }

  function Lowered(ms: seq<HeaderMatch>): seq<HeaderMatch> {
    seq(|ms|, i requires 0 <= i < |ms| => ms[i].(name := Lower(ms[i].name)))
  }

  function Canonical(ms: seq<HeaderMatch>): seq<HeaderMatch> {
    Dedup(SortBy(Itself<HeaderMatch>, HeaderLe, Lowered(ms)))
  }

  ghost predicate Ascending(s: seq<HeaderMatch>) {
    forall i, j :: 0 <= i < j < |s| ==> CompareHeader(s[i], s[j]).Less?
  }

  lemma {:induction false} DedupSorted(s: seq<HeaderMatch>)
    requires SortedBy(Itself<HeaderMatch>, HeaderLe, s)
    ensures Ascending(Dedup(s))
    ensures forall x :: x in Dedup(s) <==> x in s
    ensures s != [] ==> Dedup(s) != [] && Dedup(s)[0] == s[0]
  {
    HeaderLeIsTotal();
    if |s| >= 2 {
      DedupSorted(s[1..]);
      assert s == [s[0]] + s[1..];
      var rest := Dedup(s[1..]);
      if s[0] != s[1] {
        forall j | 0 <= j < |rest| ensures CompareHeader(s[0], rest[j]).Less? {
          assert rest[j] in s[1..];
          assert HeaderLe(s[0], s[1]) && HeaderLe(s[1], rest[j]);
          CompareHeaderLaws(s[0], s[1]);
          CompareHeaderLaws(s[0], rest[j]);
        }
      }
    }
  }

  /** The canonical form is strictly ascending and holds exactly the lowercased conditions. */
  lemma CanonicalShape(ms: seq<HeaderMatch>)
    ensures Ascending(Canonical(ms))
    ensures forall x :: x in Canonical(ms) <==> x in Lowered(ms)
  {
    HeaderLeIsTotal();
    var sorted := SortBy(Itself<HeaderMatch>, HeaderLe, Lowered(ms));
    SortSorted(Itself<HeaderMatch>, HeaderLe, Lowered(ms));
    SortContents(Itself<HeaderMatch>, HeaderLe, Lowered(ms));
    assert forall x :: x in sorted <==> x in multiset(sorted);
    assert forall x :: x in Lowered(ms) <==> x in multiset(Lowered(ms));
    DedupSorted(sorted);
  }

  lemma {:induction false} AscendingOfKey(s: seq<HeaderMatch>, k: HeaderMatch)
    requires Ascending(s)
    ensures OfKey(Itself<HeaderMatch>, k, s) == if k in s then [k] else []
  {
    if s != [] {
      AscendingOfKey(s[1..], k);
      assert s == [s[0]] + s[1..];
      CompareHeaderLaws(s[0], s[0]);
    }
  }

  /** Two spellings of one conjunction have one canonical form, and no two conjunctions share it. */
  lemma CanonicalDecides(a: seq<HeaderMatch>, b: seq<HeaderMatch>)
    ensures Canonical(a) == Canonical(b) <==> (forall x :: x in Lowered(a) <==> x in Lowered(b))
  {
    CanonicalShape(a);
    CanonicalShape(b);
    if forall x :: x in Lowered(a) <==> x in Lowered(b) {
      HeaderLeIsTotal();
      forall k ensures OfKey(Itself<HeaderMatch>, k, Canonical(a)) == OfKey(Itself<HeaderMatch>, k, Canonical(b)) {
        AscendingOfKey(Canonical(a), k);
        AscendingOfKey(Canonical(b), k);
      }
      SortedDetermined(Itself<HeaderMatch>, HeaderLe, Canonical(a), Canonical(b));
    }
  }

  lemma CanonicalEmpty(ms: seq<HeaderMatch>)
    ensures Canonical(ms) == [] <==> ms == []
  {
    CanonicalShape(ms);
    if ms != [] {
      assert Lowered(ms)[0] in Lowered(ms);
    }
  }

  /** Equal canonical forms hold for the same requests. */
  lemma CanonicalHolds(os: Platform, a: seq<HeaderMatch>, b: seq<HeaderMatch>, q: Request)
    requires Canonical(a) == Canonical(b)
    requires forall h :: h in a ==> HeaderHolds(os, h, q)
    ensures forall h :: h in b ==> HeaderHolds(os, h, q)
  {
    CanonicalDecides(a, b);
    forall h | h in b ensures HeaderHolds(os, h, q) {
      var j :| 0 <= j < |b| && b[j] == h;
      assert Lowered(b)[j] in Lowered(a);
      var i :| 0 <= i < |a| && Lowered(a)[i] == Lowered(b)[j];
      assert HeaderHolds(os, a[i], q);
    }
  }

  // ---- the key ------------------------------------------------------------------------

  function HexDigit(n: int): (c: char)
    requires 0 <= n < 16
    ensures c != '}'
  {
    "0123456789abcdef"[n]
  }

  function Hex(n: nat): string {
    if n < 16 then [HexDigit(n)] else Hex(n / 16) + [HexDigit(n % 16)]
  }

  /** One character as `Debug` writes it inside quotes. */
  function QuotedChar(os: Platform, c: char): string {
    match c
    case '"' => "\\\""
    case '\\' => "\\\\"
    case '\n' => "\\n"
    case '\r' => "\\r"
    case '\t' => "\\t"
    case '\0' => "\\0"
    case _ => if os.escapes(c) then "\\u{" + Hex(c as int) + "}" else [c]
  }

  function QuotedBody(os: Platform, s: string): string {
    if s == [] then [] else QuotedChar(os, s[0]) + QuotedBody(os, s[1..])
  }

  function Quoted(os: Platform, s: string): string {
    "\"" + QuotedBody(os, s) + "\""
  }

  function KindText(h: HeaderMatch): string {
    if h.kind.ExactValue? then ";H0:" else ";H1:"
  }

  function HeaderText(os: Platform, h: HeaderMatch): string {
    KindText(h) + Quoted(os, h.name) + "=" + Quoted(os, h.kind.value)
  }

  function HeadersText(os: Platform, hs: seq<HeaderMatch>): string {
    if hs == [] then [] else HeaderText(os, hs[0]) + HeadersText(os, hs[1..])
  }

  function RuleText(rule: SozuRule): string {
    (if rule.RawPrefix? then "P" else "R") + rule.text
  }

  function VerbText(verb: Option<string>): string {
    if verb.Some? then ";" + verb.value else []
  }

  datatype RouteKey = RouteKey(https: bool, key: string)

  function RouteKeyOf(os: Platform, f: Frontend): RouteKey {
    RouteKey(
      f.tls,
      f.listener.address + ";" + (f.hostname + ";" + (RuleText(CompiledRule(f.path)) +
                                                      (VerbText(f.verb) + HeadersText(os, Canonical(f.headers))))))
  }

  /** The source's key builder, pushing the method and then one predicate at a time. */
  method SozuRouteKey(os: Platform, f: Frontend) returns (r: RouteKey)
    ensures r == RouteKeyOf(os, f)
  {
    hide RouteKeyOf, CompiledRule, RuleText, Canonical, HeaderText;
    var key := f.listener.address + ";" + (f.hostname + ";" + RuleText(CompiledRule(f.path)));
    var hs := Canonical(f.headers);
    ghost var all := key + VerbText(f.verb) + HeadersText(os, hs);
    KeyAssembled(os, f);
    if f.verb.Some? {
      Associate(key, ";", f.verb.value);
      key := key + ";";
      key := key + f.verb.value;
    }
    for i := 0 to |hs|
      invariant key + HeadersText(os, hs[i..]) == all
    {
      assert hs[i..][1..] == hs[i + 1..];
      Associate(key, HeaderText(os, hs[i]), HeadersText(os, hs[i + 1..]));
      key := key + HeaderText(os, hs[i]);
    }
    r := RouteKey(f.tls, key);
  }

  lemma KeyAssembled(os: Platform, f: Frontend)
    ensures var head := f.listener.address + ";" + (f.hostname + ";" + RuleText(CompiledRule(f.path)));
            RouteKeyOf(os, f) == RouteKey(f.tls, head + VerbText(f.verb) + HeadersText(os, Canonical(f.headers)))
  {
    var v, h := VerbText(f.verb), HeadersText(os, Canonical(f.headers));
    var rule := RuleText(CompiledRule(f.path));
    Associate(f.listener.address + ";", f.hostname + ";" + rule, v + h);
    Associate(f.hostname + ";", rule, v + h);
    Associate(f.listener.address + ";" + (f.hostname + ";" + rule), v, h);
  }

  predicate Printable(s: string) {
    forall c :: c in s ==> ' ' <= c <= '~'
  }

  predicate PrintsAll(os: Platform) {
    forall c :: ' ' <= c <= '~' ==> !os.escapes(c)
  }

  lemma QuotedStep(os: Platform, c: char, rest: string)
    ensures QuotedBody(os, [c] + rest) == QuotedChar(os, c) + QuotedBody(os, rest)
  {
    assert ([c] + rest)[1..] == rest;
  }

  lemma {:induction false} QuotedPlainly(os: Platform, s: string)
    requires PrintsAll(os) && Printable(s) && '"' !in s && '\\' !in s
    ensures QuotedBody(os, s) == s
  {
    if s != [] {
      assert s[0] in s && forall c :: c in s[1..] ==> c in s;
      QuotedPlainly(os, s[1..]);
      assert QuotedChar(os, s[0]) == [s[0]];
    }
  }

  lemma HeaderSpelled(os: Platform, h: HeaderMatch, quoted: string)
    requires PrintsAll(os) && Printable(h.name) && '"' !in h.name && '\\' !in h.name
    requires QuotedBody(os, h.kind.value) == quoted
    ensures HeaderText(os, h) ==
        (if h.kind.ExactValue? then ";H0:\"" else ";H1:\"") + h.name + "\"=\"" + quoted + "\""
  {
    QuotedPlainly(os, h.name);
    hide QuotedBody;
    assert KindText(h) == (if h.kind.ExactValue? then ";H0:" else ";H1:");
    assert (if h.kind.ExactValue? then ";H0:\"" else ";H1:\"") == KindText(h) + "\"";
    assert Quoted(os, h.name) == "\"" + h.name + "\"";
    assert Quoted(os, h.kind.value) == "\"" + quoted + "\"";
    Joined(KindText(h), h.name, quoted);
  }

  lemma Joined(k: string, name: string, value: string)
    ensures k + ("\"" + name + "\"") + "=" + ("\"" + value + "\"") == k + "\"" + name + "\"=\"" + value + "\""
  {
    assert "\"=\"" == "\"" + "=" + "\"";
  }

  lemma ValueSpelled(os: Platform)
    requires PrintsAll(os)
    ensures QuotedBody(os, "a\"b") == "a\\\"b" && QuotedBody(os, "v;1") == "v;1"
  {
    QuotedPlainly(os, "v;1");
    QuotedPlainly(os, "b");
    assert "a\"b" == ['a'] + (['"'] + "b");
    QuotedStep(os, 'a', ['"'] + "b");
    QuotedStep(os, '"', "b");
    assert QuotedChar(os, 'a') == ['a'];
  }

  lemma TwoHeadersText(os: Platform, a: HeaderMatch, b: HeaderMatch)
    ensures HeadersText(os, [a, b]) == HeaderText(os, a) + HeaderText(os, b)
  {
    hide HeaderText;
    var hs := [a, b];
    assert hs[1..] == [b] && [b][1..] == [];
    assert HeadersText(os, [b]) == HeaderText(os, b) + [];
  }

  lemma HeadersSpelled(os: Platform, hs: seq<HeaderMatch>)
    requires PrintsAll(os)
    requires hs == [HeaderMatch("X-B", RegexValue("a\"b")), HeaderMatch("x-A", ExactValue("v;1"))]
    ensures HeadersText(os, Canonical(hs)) == ";H0:\"x-a\"=\"v;1\"" + ";H1:\"x-b\"=\"a\\\"b\""
  {
    hide Canonical, HeaderText, HeadersText, QuotedBody, CompareHeader;
    var a, b := HeaderMatch("x-a", ExactValue("v;1")), HeaderMatch("x-b", RegexValue("a\"b"));
    NamesInOrder(a, b);
    CanonicalOfTwo(hs, b, a);
    ValueSpelled(os);
    HeaderSpelled(os, a, "v;1");
    HeaderSpelled(os, b, "a\\\"b");
    TwoHeadersText(os, a, b);
    assert HeaderText(os, a) == ";H0:\"x-a\"=\"v;1\"";
    assert HeaderText(os, b) == ";H1:\"x-b\"=\"a\\\"b\"";
  }

  lemma RootSpelled(path: PathMatch)
    requires path == Prefix("/")
    ensures RuleText(CompiledRule(path)) == "P/"
  {
    assert "/"[..0] == [];
    assert CompiledRule(path) == RawPrefix("/");
  }

  /** One key to the letter: the rule after its kind, the method, then the conditions in order of their lowercased
      names, each under its own kind, a quote in a value escaped. */
  lemma KeySpelled(os: Platform, f: Frontend)
    requires PrintsAll(os)
    requires f.hostname == "h.example.com" && f.path == Prefix("/") && f.verb == Some("GET") && !f.tls
    requires f.listener.address == "0.0.0.0:80"
    requires f.headers == [HeaderMatch("X-B", RegexValue("a\"b")), HeaderMatch("x-A", ExactValue("v;1"))]
    ensures RouteKeyOf(os, f) == RouteKey(false, "0.0.0.0:80;" + "h.example.com;" + "P/" + ";GET" +
                                                 (";H0:\"x-a\"=\"v;1\"" + ";H1:\"x-b\"=\"a\\\"b\""))
  {
    hide Canonical, HeadersText, RouteKeyOf, RuleText, CompiledRule;
    KeyAssembled(os, f);
    HeadersSpelled(os, f.headers);
    RootSpelled(f.path);
    HeadSpelled();
    assert VerbText(f.verb) == ";GET";
  }

  /** Conditions are ordered by name, then an exact value before a regex, then by value. */
  lemma HeaderOrder(a: HeaderMatch, b: HeaderMatch)
    ensures CompareHeader(a, b).Less? <==>
            || Earlier(a.name, b.name)
            || (a.name == b.name && a.kind.ExactValue? && b.kind.RegexValue?)
            || (a.name == b.name && (a.kind.ExactValue? <==> b.kind.ExactValue?) && Earlier(a.kind.value, b.kind.value))
  {
    CompareStringIsOrder(a.name, b.name);
    CompareStringIsOrder(a.kind.value, b.kind.value);
    CompareStringEqual(a.name, b.name);
  }

  lemma HeadSpelled()
    ensures "0.0.0.0:80" + ";" + ("h.example.com" + ";" + "P/") == "0.0.0.0:80;" + "h.example.com;" + "P/"
  {
    assert "0.0.0.0:80" + ";" == "0.0.0.0:80;" && "h.example.com" + ";" == "h.example.com;";
    Associate("0.0.0.0:80;", "h.example.com;", "P/");
  }

  lemma NamesInOrder(a: HeaderMatch, b: HeaderMatch)
    requires a.name == "x-a" && b.name == "x-b"
    ensures CompareHeader(a, b).Less?
  {
    CompareStringIsOrder(a.name, b.name);
    assert EarlierAt(a.name, b.name, 2);
  }

  lemma CanonicalOfTwo(ms: seq<HeaderMatch>, x: HeaderMatch, y: HeaderMatch)
    requires |ms| == 2 && ms[0].kind == x.kind && ms[1].kind == y.kind
    requires Lower(ms[0].name) == x.name && Lower(ms[1].name) == y.name && CompareHeader(y, x).Less?
    ensures Canonical(ms) == [y, x]
  {
    hide CompareHeader;
    CompareHeaderLaws(x, y);
    assert Lowered(ms) == [x, y];
    var s := [x, y];
    assert s[1..] == [y] && [y][1..] == [];
    assert SortBy(Itself<HeaderMatch>, HeaderLe, [y]) == [y];
    assert [y][1..] == [];
    assert InsertBy(Itself<HeaderMatch>, HeaderLe, x, [y]) == [y] + InsertBy(Itself<HeaderMatch>, HeaderLe, x, []);
    var t := [y, x];
    assert t[1..] == [x];
    assert Dedup(t) == [y] + Dedup([x]);
  }

  // ---- unique decoding ------------------------------------------------------------------

  lemma SplitOnce(a: string, x: string, b: string, y: string, sep: char)
    requires a + [sep] + x == b + [sep] + y && sep !in a && sep !in b
    ensures a == b && x == y
  {
    var s := a + [sep] + x;
    assert s[|a|] == sep && s[|b|] == sep;
    assert (forall i :: 0 <= i < |a| ==> s[i] == a[i]) && (forall i :: 0 <= i < |b| ==> s[i] == b[i]);
    assert |a| == |b|;
    assert a == s[..|a|] && b == s[..|b|];
    assert x == s[|a| + 1..] && y == s[|b| + 1..];
  }

  lemma {:induction false} HexInjective(m: nat, n: nat)
    requires Hex(m) == Hex(n)
    ensures m == n
  {
    HexParts(m);
    HexParts(n);
    hide Hex;
    if m >= 16 {
      HexInjective(m / 16, n / 16);
    }
  }

  lemma HexParts(n: nat)
    ensures Hex(n) != [] && Hex(n)[|Hex(n)| - 1] == HexDigit(n % 16) && (|Hex(n)| == 1 <==> n < 16)
    ensures n >= 16 ==> Hex(n)[..|Hex(n)| - 1] == Hex(n / 16)
  {
    if n >= 16 {
      assert |Hex(n / 16)| >= 1;
    }
  }

  lemma {:induction false} HexIsBraceFree(n: nat)
    ensures '}' !in Hex(n)
  {
    if n >= 16 {
      HexIsBraceFree(n / 16);
    }
  }

  lemma UnicodeDecodes(c: char, x: string, d: char, y: string)
    requires "\\u{" + Hex(c as int) + "}" + x == "\\u{" + Hex(d as int) + "}" + y
    ensures c == d && x == y
  {
    hide Hex;
    var s, t := "\\u{" + Hex(c as int) + "}" + x, "\\u{" + Hex(d as int) + "}" + y;
    HexIsBraceFree(c as int);
    HexIsBraceFree(d as int);
    assert s[3..] == Hex(c as int) + ['}'] + x && t[3..] == Hex(d as int) + ['}'] + y;
    SplitOnce(Hex(c as int), x, Hex(d as int), y, '}');
    HexInjective(c as int, d as int);
  }

  lemma QuotedCharDecodes(os: Platform, c: char, x: string, d: char, y: string)
    requires QuotedChar(os, c) + x == QuotedChar(os, d) + y
    ensures c == d && x == y
  {
    var s, t := QuotedChar(os, c), QuotedChar(os, d);
    assert (s + x)[0] == s[0] && (t + y)[0] == t[0];
    if s[0] == '\\' {
      assert (s + x)[1] == s[1] && (t + y)[1] == t[1];
      if s[1] == 'u' {
        assert s == "\\u{" + Hex(c as int) + "}" && t == "\\u{" + Hex(d as int) + "}";
        UnicodeDecodes(c, x, d, y);
      } else {
        assert (s + x)[2..] == x && (t + y)[2..] == y;
      }
    } else {
      assert (s + x)[1..] == x && (t + y)[1..] == y;
    }
  }

  lemma QuotedStart(os: Platform, a: string, x: string)
    requires a != []
    ensures QuotedBody(os, a) + x == QuotedChar(os, a[0]) + (QuotedBody(os, a[1..]) + x)
    ensures (QuotedBody(os, a) + x)[0] != '"'
  {
    assert QuotedChar(os, a[0]) != [] && QuotedChar(os, a[0])[0] != '"';
    assert QuotedBody(os, a) == QuotedChar(os, a[0]) + QuotedBody(os, a[1..]);
    hide QuotedChar, QuotedBody;
    Associate(QuotedChar(os, a[0]), QuotedBody(os, a[1..]), x);
  }

  /** `Debug` quoting is self-delimiting. */
  lemma {:induction false} QuotedDecodes(os: Platform, a: string, x: string, b: string, y: string)
    requires QuotedBody(os, a) + ("\"" + x) == QuotedBody(os, b) + ("\"" + y)
    ensures a == b && x == y
    decreases |a|
  {
    if a != [] { QuotedStart(os, a, "\"" + x); }
    if b != [] { QuotedStart(os, b, "\"" + y); }
    if a == [] && b == [] {
      assert x == (QuotedBody(os, a) + ("\"" + x))[1..] && y == (QuotedBody(os, b) + ("\"" + y))[1..];
    } else if a != [] && b != [] {
      QuotedCharDecodes(os, a[0], QuotedBody(os, a[1..]) + ("\"" + x), b[0], QuotedBody(os, b[1..]) + ("\"" + y));
      QuotedDecodes(os, a[1..], x, b[1..], y);
      assert a == [a[0]] + a[1..] && b == [b[0]] + b[1..];
    }
  }

  lemma QuotedThen(os: Platform, a: string, x: string)
    ensures Quoted(os, a) + x == "\"" + (QuotedBody(os, a) + ("\"" + x))
  {
  }

  lemma QuotedUnique(os: Platform, a: string, x: string, b: string, y: string)
    requires Quoted(os, a) + x == Quoted(os, b) + y
    ensures a == b && x == y
  {
    var ra, rb := QuotedBody(os, a) + ("\"" + x), QuotedBody(os, b) + ("\"" + y);
    QuotedThen(os, a, x);
    QuotedThen(os, b, y);
    assert ra == ("\"" + ra)[1..] && rb == ("\"" + rb)[1..];
    QuotedDecodes(os, a, x, b, y);
  }

  lemma HeaderTextThen(os: Platform, h: HeaderMatch, x: string)
    ensures HeaderText(os, h) + x ==
            KindText(h) + (Quoted(os, h.name) + ("=" + (Quoted(os, h.kind.value) + x)))
  {
    var n, v := Quoted(os, h.name), Quoted(os, h.kind.value);
    Associate(KindText(h), n, "=" + (v + x));
    Associate(KindText(h) + n, "=", v + x);
    Associate(KindText(h) + n + "=", v, x);
  }

  lemma HeaderTextDecodes(os: Platform, g: HeaderMatch, x: string, h: HeaderMatch, y: string)
    requires HeaderText(os, g) + x == HeaderText(os, h) + y
    ensures g == h && x == y
  {
    HeaderTextThen(os, g, x);
    HeaderTextThen(os, h, y);
    var gv, hv := Quoted(os, g.kind.value) + x, Quoted(os, h.kind.value) + y;
    var gn, hn := Quoted(os, g.name) + ("=" + gv), Quoted(os, h.name) + ("=" + hv);
    assert (KindText(g) + gn)[2] == KindText(g)[2] && (KindText(h) + hn)[2] == KindText(h)[2];
    assert gn == (KindText(g) + gn)[4..] && hn == (KindText(h) + hn)[4..];
    QuotedUnique(os, g.name, "=" + gv, h.name, "=" + hv);
    assert gv == ("=" + gv)[1..] && hv == ("=" + hv)[1..];
    QuotedUnique(os, g.kind.value, x, h.kind.value, y);
  }

  lemma {:induction false} HeadersTextDecodes(os: Platform, gs: seq<HeaderMatch>, hs: seq<HeaderMatch>)
    requires HeadersText(os, gs) == HeadersText(os, hs)
    ensures gs == hs
  {
    if gs != [] && hs != [] {
      HeaderTextDecodes(os, gs[0], HeadersText(os, gs[1..]), hs[0], HeadersText(os, hs[1..]));
      HeadersTextDecodes(os, gs[1..], hs[1..]);
    }
  }

  /** A method spelling that cannot be mistaken for the rest of a key: any token is. */
  predicate VerbIsToken(verb: Option<string>) {
    verb.Some? ==> ';' !in verb.value && ':' !in verb.value
  }

  lemma HeadersTextStart(os: Platform, hs: seq<HeaderMatch>)
    ensures hs != [] ==> |HeadersText(os, hs)| > 3
    ensures hs != [] ==> HeadersText(os, hs)[0] == ';' && HeadersText(os, hs)[1] == 'H' && HeadersText(os, hs)[3] == ':'
    ensures hs != [] ==> HeadersText(os, hs)[2] != ';'
  {
  }

  lemma VerbDecodes(os: Platform, v: Option<string>, gs: seq<HeaderMatch>, w: Option<string>, hs: seq<HeaderMatch>)
    requires VerbIsToken(v) && VerbIsToken(w)
    requires VerbText(v) + HeadersText(os, gs) == VerbText(w) + HeadersText(os, hs)
    ensures v == w && gs == hs
  {
    HeadersTextStart(os, gs);
    HeadersTextStart(os, hs);
    if v.Some? && w.Some? {
      TwoVerbs(v.value, HeadersText(os, gs), w.value, HeadersText(os, hs));
      HeadersTextDecodes(os, gs, hs);
    } else if v.None? && w.None? {
      assert VerbText(v) + HeadersText(os, gs) == HeadersText(os, gs);
      assert VerbText(w) + HeadersText(os, hs) == HeadersText(os, hs);
      HeadersTextDecodes(os, gs, hs);
    } else if v.Some? {
      VerbIsNoHeader(v.value, HeadersText(os, gs), HeadersText(os, hs));
    } else {
      VerbIsNoHeader(w.value, HeadersText(os, hs), HeadersText(os, gs));
    }
  }

  lemma TwoVerbs(v: string, x: string, w: string, y: string)
    requires ";" + v + x == ";" + w + y && ';' !in v && ';' !in w
    requires (x != [] ==> x[0] == ';') && (y != [] ==> y[0] == ';')
    ensures v == w && x == y
  {
    var s := v + x;
    assert s == (";" + v + x)[1..] && s == w + y;
    assert (forall i :: 0 <= i < |v| ==> s[i] == v[i]) && (forall i :: 0 <= i < |w| ==> s[i] == w[i]);
    assert (|v| < |s| ==> s[|v|] == ';') && (|w| < |s| ==> s[|w|] == ';');
    assert |v| == |w|;
    assert v == s[..|v|] && w == s[..|w|];
    assert x == s[|v|..] && y == s[|w|..];
  }

  lemma VerbIsNoHeader(v: string, x: string, y: string)
    requires ';' !in v && ':' !in v
    requires x != [] ==> x[0] == ';'
    requires y == [] || (|y| > 3 && y[0] == ';' && y[1] == 'H' && y[2] != ';' && y[3] == ':')
    ensures ";" + v + x != y
  {
    var s := ";" + v + x;
    assert |v| >= 3 ==> s[3] == v[2];
    assert |s| > 1 + |v| ==> s[1 + |v|] == x[0];
  }

  lemma EscapedStart(a: string, x: string)
    requires a != []
    ensures Escaped(a) + x == EscapedChar(a[0]) + (Escaped(a[1..]) + x)
    ensures (Escaped(a) + x)[0] != '('
  {
    Associate(EscapedChar(a[0]), Escaped(a[1..]), x);
  }

  lemma EscapedCharDecodes(c: char, x: string, d: char, y: string)
    requires EscapedChar(c) + x == EscapedChar(d) + y
    ensures c == d && x == y
  {
    var s, t := EscapedChar(c), EscapedChar(d);
    assert (s + x)[0] == s[0] && (t + y)[0] == t[0];
    assert IsMeta(c) ==> (s + x)[1] == c;
    assert IsMeta(d) ==> (t + y)[1] == d;
    assert x == (s + x)[|s|..] && y == (t + y)[|t|..];
  }

  /** Escaped text is read off without ambiguity up to the `(` that ends it. */
  lemma {:induction false} EscapedDecodes(a: string, x: string, b: string, y: string)
    requires Escaped(a) + ("(" + x) == Escaped(b) + ("(" + y)
    ensures a == b && x == y
    decreases |a|
  {
    if a != [] { EscapedStart(a, "(" + x); }
    if b != [] { EscapedStart(b, "(" + y); }
    if a == [] && b == [] {
      assert x == (Escaped(a) + ("(" + x))[1..] && y == (Escaped(b) + ("(" + y))[1..];
    } else if a != [] && b != [] {
      EscapedCharDecodes(a[0], Escaped(a[1..]) + ("(" + x), b[0], Escaped(b[1..]) + ("(" + y));
      EscapedDecodes(a[1..], x, b[1..], y);
      assert a == [a[0]] + a[1..] && b == [b[0]] + b[1..];
    }
  }

  lemma RuleTextThen(p: PathMatch, x: string)
    requires !p.Regex? && CompiledRule(p).RegexRule?
    ensures RuleText(CompiledRule(p)) + x == "R^" + (Escaped(Spelled(p)) + ("(" + (TailText(p)[1..] + x)))
  {
    var e, t := Escaped(Spelled(p)), TailText(p);
    assert RuleText(CompiledRule(p)) == "R^" + (e + t);
    assert t == "(" + t[1..];
    hide Escaped, TailText, RuleText, CompiledRule, Spelled;
    Associate("(", t[1..], x);
    Associate(e, t, x);
    Associate("R^", e + t, x);
  }

  /** A compiled rule, wherever it stands in a key, is read off without ambiguity. */
  lemma RuleDecodes(p: PathMatch, x: string, q: PathMatch, y: string)
    requires !p.Regex? && !q.Regex?
    requires RuleText(CompiledRule(p)) + x == RuleText(CompiledRule(q)) + y
    ensures CompiledRule(p) == CompiledRule(q) && x == y
  {
    var a, b := RuleText(CompiledRule(p)), RuleText(CompiledRule(q));
    assert (a + x)[0] == a[0] && (b + y)[0] == b[0];
    if CompiledRule(p).RawPrefix? {
      assert x == (a + x)[2..] && y == (b + y)[2..];
    } else {
      RuleTextThen(p, x);
      RuleTextThen(q, y);
      var ra := Escaped(Spelled(p)) + ("(" + (TailText(p)[1..] + x));
      var rb := Escaped(Spelled(q)) + ("(" + (TailText(q)[1..] + y));
      assert ra == ("R^" + ra)[2..] && rb == ("R^" + rb)[2..];
      EscapedDecodes(Spelled(p), TailText(p)[1..] + x, Spelled(q), TailText(q)[1..] + y);
      TailDecodes(p, x, q, y);
    }
  }

  function TailText(p: PathMatch): string {
    if p.Exact? then EXACT_TAIL else PREFIX_TAIL
  }

  lemma TailDecodes(p: PathMatch, x: string, q: PathMatch, y: string)
    requires TailText(p)[1..] + x == TailText(q)[1..] + y
    ensures TailText(p) == TailText(q) && x == y
  {
    assert EXACT_TAIL[3] == '\\' && PREFIX_TAIL[3] == '[';
    assert (TailText(p)[1..] + x)[2] == TailText(p)[3];
    assert (TailText(q)[1..] + y)[2] == TailText(q)[3];
    var n := |TailText(p)[1..]|;
    assert (TailText(p)[1..] + x)[n..] == x;
    assert TailText(p) == TailText(q);
    assert (TailText(q)[1..] + y)[n..] == y;
  }

  // ---- matches and keys -------------------------------------------------------------------

  /** Whether two frontends match the same requests for the same reason. */
  predicate SameMatch(a: Frontend, b: Frontend) {
    && a.tls == b.tls
    && a.listener == b.listener
    && a.hostname == b.hostname
    && CompiledRule(a.path) == CompiledRule(b.path)
    && a.verb == b.verb
    && Canonical(a.headers) == Canonical(b.headers)
  }

  predicate Keyable(f: Frontend) {
    ';' !in f.listener.address && ';' !in f.hostname && VerbIsToken(f.verb)
  }

  lemma SameMatchSameKey(os: Platform, a: Frontend, b: Frontend)
    requires SameMatch(a, b)
    ensures RouteKeyOf(os, a) == RouteKeyOf(os, b)
  {
  }

  /** Off user regex paths the key is injective on everything a match is made of. */
  lemma KeyDecodes(os: Platform, a: Frontend, b: Frontend)
    requires Keyable(a) && Keyable(b) && !a.path.Regex? && !b.path.Regex?
    requires RouteKeyOf(os, a) == RouteKeyOf(os, b)
    ensures a.listener.address == b.listener.address
    ensures SameMatch(a, b.(listener := a.listener))
  {
    var va := VerbText(a.verb) + HeadersText(os, Canonical(a.headers));
    var vb := VerbText(b.verb) + HeadersText(os, Canonical(b.headers));
    var ra, rb := RuleText(CompiledRule(a.path)) + va, RuleText(CompiledRule(b.path)) + vb;
    SplitOnce(a.listener.address, a.hostname + ";" + ra, b.listener.address, b.hostname + ";" + rb, ';');
    SplitOnce(a.hostname, ra, b.hostname, rb, ';');
    RuleDecodes(a.path, va, b.path, vb);
    VerbDecodes(os, a.verb, Canonical(a.headers), b.verb, Canonical(b.headers));
  }

  /** Off regexes, exactly which keys are equal: those of one match, on listeners that differ in zone at most. */
  lemma KeysCollideExactly(os: Platform, a: Frontend, b: Frontend)
    requires Keyable(a) && Keyable(b) && !a.path.Regex? && !b.path.Regex?
    ensures RouteKeyOf(os, a) == RouteKeyOf(os, b) <==>
            a.listener.address == b.listener.address && SameMatch(a, b.(listener := a.listener))
  {
    if a.listener.address == b.listener.address && SameMatch(a, b.(listener := a.listener)) {
      SameMatchSameKey(os, a, b.(listener := a.listener));
      assert RouteKeyOf(os, b.(listener := a.listener)) == RouteKeyOf(os, b);
    }
    if RouteKeyOf(os, a) == RouteKeyOf(os, b) {
      KeyDecodes(os, a, b);
    }
  }

  /** Whatever the paths, a key names its listener's address and its hostname. */
  lemma KeyNamesGroup(os: Platform, a: Frontend, b: Frontend)
    requires Keyable(a) && Keyable(b) && RouteKeyOf(os, a) == RouteKeyOf(os, b)
    ensures a.tls == b.tls && a.listener.address == b.listener.address && a.hostname == b.hostname
  {
    var ra := RuleText(CompiledRule(a.path)) + (VerbText(a.verb) + HeadersText(os, Canonical(a.headers)));
    var rb := RuleText(CompiledRule(b.path)) + (VerbText(b.verb) + HeadersText(os, Canonical(b.headers)));
    SplitOnce(a.listener.address, a.hostname + ";" + ra, b.listener.address, b.hostname + ";" + rb, ';');
    SplitOnce(a.hostname, ra, b.hostname, rb, ';');
  }

  /** Off user regex paths and on one listener, one key is one match. */
  lemma KeyIsMatch(os: Platform, a: Frontend, b: Frontend)
    requires Keyable(a) && Keyable(b) && !a.path.Regex? && !b.path.Regex? && a.listener == b.listener
    ensures RouteKeyOf(os, a) == RouteKeyOf(os, b) <==> SameMatch(a, b)
  {
    if SameMatch(a, b) {
      SameMatchSameKey(os, a, b);
    }
    if RouteKeyOf(os, a) == RouteKeyOf(os, b) {
      KeyDecodes(os, a, b);
      assert b.(listener := a.listener) == b;
    }
  }

  /** A user regex can spell another route's method: one key, two matches. */
  lemma RegexSpellsMethod(os: Platform, a: Frontend) returns (x: Frontend, y: Frontend)
    ensures x == a.(path := Regex("/x;GET"), verb := None, headers := [])
    ensures y == a.(path := Regex("/x"), verb := Some("GET"), headers := [])
    ensures RouteKeyOf(os, x) == RouteKeyOf(os, y) && !SameMatch(x, y)
  {
    x := a.(path := Regex("/x;GET"), verb := None, headers := []);
    y := a.(path := Regex("/x"), verb := Some("GET"), headers := []);
    CanonicalEmpty([]);
    assert "/x;GET" == "/x" + ";GET";
    assert "R" + "/x;GET" == ("R" + "/x") + (";" + "GET");
  }

  /** Two frontends with one compiled rule, method and canonical conjunction match alike. */
  lemma SameMatchMatches(os: Platform, a: Frontend, b: Frontend, q: Request)
    requires SameMatch(a, b)
    ensures Matches(os, a, q) <==> Matches(os, b, q)
  {
    if Matches(os, a, q) {
      CanonicalHolds(os, a.headers, b.headers, q);
    }
    if Matches(os, b, q) {
      CanonicalHolds(os, b.headers, a.headers, q);
    }
  }
}
