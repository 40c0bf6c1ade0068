/** Frontends, the requests they match and Gateway API precedence between them. */
module Frontends {
  import opened Base
  import opened Paths

  datatype HeaderKind = ExactValue(value: string) | RegexValue(value: string)

  /** One request-header condition. Header names and values are compared and quoted, never
      measured: a `char` of theirs is a Unicode scalar. */
  datatype HeaderMatch = HeaderMatch(name: string, kind: HeaderKind)

  /** A socket address: its `ip:port` spelling and the IPv6 flow label and scope id, which a Sozu
      route key drops. */
  datatype Listener = Listener(address: string, zone: nat)

  /** A route. `filters` stands for the whole filter record, which is only compared. */
  datatype Frontend = Frontend(
    hostname: string,
    path: PathMatch,
    verb: Option<string>,
    cluster: Option<string>,
    tls: bool,
    listener: Listener,
    filters: string,
    headers: seq<HeaderMatch>)

  /** A request: `headers` maps each lowercased header name to its first value, trimmed. */
  datatype Request = Request(target: string, verb: string, headers: map<string, string>)

  function LowerChar(c: char): char {
    if 'A' <= c <= 'Z' then c - 'A' + 'a' else c
  }

  function Lower(s: string): string {
    seq(|s|, i requires 0 <= i < |s| => LowerChar(s[i]))
  }

  predicate SameEffect(a: Frontend, b: Frontend) {
    a.cluster == b.cluster && a.filters == b.filters
  }

  ghost predicate HeaderHolds(os: Platform, h: HeaderMatch, q: Request) {
    var name := Lower(h.name);
    && name in q.headers
    && match h.kind
       case ExactValue(v) => q.headers[name] == v
       case RegexValue(r) => os.header(r, q.headers[name])
  }

  predicate MethodHolds(verb: Option<string>, q: Request) {
    verb.None? || verb.value == q.verb
  }

  ghost predicate Matches(os: Platform, f: Frontend, q: Request) {
    && PathMatches(os, f.path, q.target)
    && MethodHolds(f.verb, q)
    && forall h :: h in f.headers ==> HeaderHolds(os, h, q)
  }

  // ---- precedence -----------------------------------------------------------------

  /** Rank by path, method and number of conditions; frontend order decides the rest. */
  function GwPrecedence(a: Frontend, b: Frontend): Ordering {
    var path := match (a.path, b.path)
      case (Regex(_), _) => CompareBool(b.headers == [], a.headers == [])
      case (_, Regex(_)) => CompareBool(b.headers == [], a.headers == [])
      case (Exact(_), Prefix(_)) => Greater
      case (Prefix(_), Exact(_)) => Less
      case (Prefix(x), Prefix(y)) => CompareInt(|PrefixBody(x)|, |PrefixBody(y)|)
      case (Exact(_), Exact(_)) => Equal;
    path
    .Then(CompareBool(a.verb.Some?, b.verb.Some?))
    .Then(CompareInt(|a.headers|, |b.headers|))
  }

  predicate MethodsMeet(a: Frontend, b: Frontend) {
    a.verb.None? || b.verb.None? || a.verb == b.verb
  }

  /** `u` and `p` can meet on path and method, and `u` ranks higher. */
  predicate Outranks(u: Frontend, p: Frontend) {
    MethodsMeet(u, p) && PathsMeet(u.path, p.path) && GwPrecedence(u, p).Greater?
  }

  predicate ValuesMeet(os: Platform, x: HeaderKind, y: HeaderKind) {
    match (x, y)
    case (ExactValue(v), ExactValue(w)) => v == w
    case (ExactValue(v), RegexValue(r)) => os.header(r, v)
    case (RegexValue(r), ExactValue(v)) => os.header(r, v)
    case (RegexValue(_), RegexValue(_)) => true
  }

  /** Whether one request can match both: `true` wherever this cannot be ruled out. */
  predicate CanMeet(os: Platform, a: Frontend, b: Frontend) {
    && MethodsMeet(a, b)
    && PathsMeet(a.path, b.path)
    && forall i, j :: 0 <= i < |a.headers| && 0 <= j < |b.headers| && a.headers[i].name == b.headers[j].name
                      ==> ValuesMeet(os, a.headers[i].kind, b.headers[j].kind)
  }

  /** No request both frontends match is ever ruled out. */
  lemma CanMeetIsSound(os: Platform, a: Frontend, b: Frontend, q: Request)
    requires Matches(os, a, q) && Matches(os, b, q)
    ensures CanMeet(os, a, b)
  {
    MeetingIsNeverMissed(os, a.path, b.path, q.target);
    forall i, j | 0 <= i < |a.headers| && 0 <= j < |b.headers| && a.headers[i].name == b.headers[j].name
      ensures ValuesMeet(os, a.headers[i].kind, b.headers[j].kind)
    {
      assert HeaderHolds(os, a.headers[i], q) && HeaderHolds(os, b.headers[j], q);
    }
  }

  /** Conditions on one header, one of them an exact value, meet exactly when a request can meet both. */
  lemma ValuesMeetExactly(os: Platform, name: string, x: HeaderKind, y: HeaderKind)
    requires x.ExactValue? || y.ExactValue?
    ensures ValuesMeet(os, x, y) <==>
            exists q :: HeaderHolds(os, HeaderMatch(name, x), q) && HeaderHolds(os, HeaderMatch(name, y), q)
  {
    if ValuesMeet(os, x, y) {
      var q := Request("/", "GET", map[Lower(name) := if x.ExactValue? then x.value else y.value]);
      assert HeaderHolds(os, HeaderMatch(name, x), q) && HeaderHolds(os, HeaderMatch(name, y), q);
    }
  }

  /** The path alone ranks `a` over `b`: an Exact path over a prefix, a longer prefix over a shorter; next to a
      regex, a frontend with header conditions over one without. */
  predicate PathOver(a: Frontend, b: Frontend) {
    if a.path.Regex? || b.path.Regex? then a.headers != [] && b.headers == []
    else b.path.Prefix? && (a.path.Exact? || |PrefixBody(a.path.value)| > |PrefixBody(b.path.value)|)
  }

  /** Precedence is the Gateway API's: the path first, then a method over none, then the more conditions. */
  lemma PrecedenceInTurn(a: Frontend, b: Frontend)
    ensures GwPrecedence(a, b).Greater? <==>
            || PathOver(a, b)
            || (!PathOver(b, a) && a.verb.Some? && b.verb.None?)
            || (!PathOver(b, a) && (a.verb.Some? <==> b.verb.Some?) && |a.headers| > |b.headers|)
    ensures GwPrecedence(a, b).Less? <==> GwPrecedence(b, a).Greater?
  {
  }

  lemma GwReverse(a: Frontend, b: Frontend)
    ensures GwPrecedence(b, a) == GwPrecedence(a, b).Reverse()
  {
  }

  predicate AtLeast(a: Frontend, b: Frontend) {
    !GwPrecedence(a, b).Less?
  }

  /** Off regex paths, precedence is a total preorder. */
  lemma GwTransitive(a: Frontend, b: Frontend, c: Frontend)
    requires !a.path.Regex? && !b.path.Regex? && !c.path.Regex?
    requires AtLeast(a, b) && AtLeast(b, c)
    ensures AtLeast(a, c)
    ensures GwPrecedence(a, b).Greater? || GwPrecedence(b, c).Greater? ==> GwPrecedence(a, c).Greater?
  {
  }

  /** With regex paths it is not transitive: a header-matched regex stands above a plain Exact
      path, a longer-conditioned header-matched root above the regex, and the plain Exact path
      above the root. */
  lemma GwNotTransitiveWithRegex() returns (root: Frontend, regex: Frontend, exact: Frontend)
    ensures GwPrecedence(root, regex).Greater? && GwPrecedence(regex, exact).Greater?
    ensures GwPrecedence(exact, root).Greater?
  {
    var h := HeaderMatch("x", ExactValue("1"));
    var base := Frontend("a.example", Exact("/a"), None, None, false, Listener("0.0.0.0:80", 0), "", []);
    exact := base;
    regex := base.(path := Regex("/a.*"), headers := [h]);
    root := base.(path := Prefix("/"), headers := [h, h]);
  }

  // ---- lifted copies ----------------------------------------------------------------

  /** `u`'s route under `p`'s conditions, and under `p`'s method if `u` names none. */
  function LiftedCopy(u: Frontend, p: Frontend): Frontend {
    u.(headers := p.headers, verb := if u.verb.Some? then u.verb else p.verb)
  }

  /** A copy takes the requests its plain route takes that meet its header match's method and
      header conditions. */
  lemma CopyMatches(os: Platform, u: Frontend, p: Frontend, q: Request)
    requires u.headers == [] && MethodsMeet(u, p)
    ensures Matches(os, LiftedCopy(u, p), q) <==>
            && Matches(os, u, q)
            && MethodHolds(p.verb, q)
            && forall h :: h in p.headers ==> HeaderHolds(os, h, q)
  {
  }

  /** The header match's path goes on from the plain route's Exact path with a query string. */
  predicate ExtendsQuery(u: PathMatch, p: PathMatch) {
    u.Exact? && Queried(Spelled(p), u.value)
  }

  lemma OutrankingTarget(os: Platform, u: Frontend, p: Frontend, target: string)
    requires Outranks(u, p) && u.headers == [] && p.headers != []
    requires !u.path.Regex? && !p.path.Regex? && !ExtendsQuery(u.path, p.path)
    requires PathMatches(os, u.path, target) && LfFree(target) && "/" <= target
    ensures PathMatches(os, p.path, target)
  {
    var x, y := Spelled(u.path), Spelled(p.path);
    PathTargets(os, u.path, target);
    if p.path.Exact? {
      assert u.path.Exact?;
      ExactRule(os, y, target);
      if x != y {
        assert Queried(x, y);
        assert target[|y|] == x[|y|];
      }
    } else {
      PrefixCoversRule(os, p.path.value, target);
      if |y| < |x| {
        assert target[|y|] == x[|y|];
      }
    }
  }

  /** The request a copy matches where its header match does not, when the header match's path
      goes on from the copied Exact path with a query string. */
  lemma QueryEscapes(os: Platform, u: PathMatch, p: PathMatch)
    requires ExtendsQuery(u, p)
    ensures PathMatches(os, u, u.value) && (p.Regex? || !PathMatches(os, p, u.value))
  {
    ExactRule(os, u.value, u.value);
    if p.Exact? {
      ExactRule(os, p.value, u.value);
    } else if p.Prefix? {
      PrefixRule(os, p.value, u.value);
    }
  }

  /** Exactly when every target of an outranking plain route is one of its header match's. */
  lemma CopyStaysWithin(os: Platform, u: Frontend, p: Frontend)
    requires Outranks(u, p) && u.headers == [] && p.headers != []
    requires Plain(u.path) && Plain(p.path)
    ensures !ExtendsQuery(u.path, p.path) <==>
            forall target :: LfFree(target) && "/" <= target && PathMatches(os, u.path, target)
                             ==> PathMatches(os, p.path, target)
  {
    if ExtendsQuery(u.path, p.path) {
      QueryEscapes(os, u.path, p.path);
    } else {
      forall target | LfFree(target) && "/" <= target && PathMatches(os, u.path, target)
        ensures PathMatches(os, p.path, target)
      {
        OutrankingTarget(os, u, p, target);
      }
    }
  }
}
