/** Nothing is skipped without need: a conflict is one Sozu can really show. */
module Necessity {
  import opened Base
  import opened Paths
  import opened Frontends
  import opened Sozu
  import opened Tier

  /** A predicated rule whose path is no regex, with one exact value for each lowercased header name. */
  ghost predicate Exactly(f: Frontend) {
    && Plain(f.path) && f.headers != []
    && (forall h :: h in f.headers ==> h.kind.ExactValue? && Lower(h.name) == h.name)
    && (forall g, h :: g in f.headers && h in f.headers && g.name == h.name ==> g == h)
  }

  // ---- a request both match --------------------------------------------------------------------------------

  function Names(hs: seq<HeaderMatch>): set<string> {
    set h | h in hs :: h.name
  }

  /** The header values a conjunction of exact conditions asks for. */
  ghost function Values(hs: seq<HeaderMatch>): map<string, string> {
    map n | n in Names(hs) :: var h :| h in hs && h.name == n; h.kind.value
  }

  function VerbFor(a: Frontend, b: Frontend): string {
    if a.verb.Some? then a.verb.value else if b.verb.Some? then b.verb.value else "GET"
  }

  ghost function Meeting(a: Frontend, b: Frontend): Request {
    Request(Witness(a.path, b.path), VerbFor(a, b), Values(a.headers + b.headers))
  }

  lemma OneValue(os: Platform, a: Frontend, b: Frontend)
    requires Exactly(a) && Exactly(b) && CanMeet(os, a, b)
    ensures forall g, h :: g in a.headers + b.headers && h in a.headers + b.headers && g.name == h.name ==>
        g.kind == h.kind
  {
    hide PathsMeet;
    forall g, h | g in a.headers && h in b.headers && g.name == h.name ensures g.kind == h.kind {
      var i :| 0 <= i < |a.headers| && a.headers[i] == g;
      var j :| 0 <= j < |b.headers| && b.headers[j] == h;
      assert ValuesMeet(os, a.headers[i].kind, b.headers[j].kind);
    }
  }

  /** Two exact rules that are not ruled out do meet. */
  lemma MeetingIsMatched(os: Platform, a: Frontend, b: Frontend)
    requires Exactly(a) && Exactly(b) && CanMeet(os, a, b)
    ensures Matches(os, a, Meeting(a, b)) && Matches(os, b, Meeting(a, b))
  {
    WitnessMatches(os, a.path, b.path);
    OneValue(os, a, b);
    var q, all := Meeting(a, b), a.headers + b.headers;
    hide PathMatches, PathsMeet, Witness;
    forall h | h in all ensures HeaderHolds(os, h, q) {
      assert h.name in Names(all);
      assert Lower(h.name) == h.name && h.kind.ExactValue?;
    }
  }

  // ---- two rules -------------------------------------------------------------------------------------------

  function Picked(hostname: string, a: Frontend, b: Frontend, targetLength: nat): Frontend {
    var first := Offer(NOTHING, a, targetLength);
    if hostname == "*" || first.exact then a
    else
      var last := Offer(first, b, targetLength).matched;
      if last.Some? then last.value else a
  }

  lemma TwoServed(os: Platform, hostname: string, a: Frontend, b: Frontend, q: Request)
    requires a.headers != [] && b.headers != [] && Matches(os, a, q) && Matches(os, b, q)
    ensures Serves(os, hostname, [a, b], q) == Some(Picked(hostname, a, b, |q.target|))
  {
    hide Matches, CompiledRule;
    assert [a, b][1..] == [b] && [b][1..] == [];
    var first := Offer(NOTHING, a, |q.target|);
    assert TreeSelect(os, true, [a, b], q, NOTHING) == TreeSelect(os, true, [b], q, first);
    assert TreeSelect(os, true, [b], q, first) == if first.exact then first else Offer(first, b, |q.target|);
  }

  /** The root prefix, which compiles to no regex. */
  predicate IsRoot(f: Frontend) {
    f.path.Prefix? && forall i :: 0 <= i < |f.path.value| ==> f.path.value[i] == '/'
  }

  /** Two matching rules, in the order held: without a hostname the first is served. Else a regex that names a
      method decides as soon as it is met; a later regex takes over from whatever was chosen, a later root from a
      root, and from a regex only on a target of one character. */
  lemma TwoRulesServed(os: Platform, hostname: string, a: Frontend, b: Frontend, q: Request)
    requires a.headers != [] && b.headers != [] && Matches(os, a, q) && Matches(os, b, q)
    ensures Serves(os, hostname, [a, b], q) == Some(
            if hostname == "*" || (!IsRoot(a) && a.verb.Some?) then a
            else if !IsRoot(b) || IsRoot(a) || |q.target| <= 1 then b
            else a)
  {
    hide Serves, Matches;
    TwoServed(os, hostname, a, b, q);
    RootIsRaw(a.path);
    RootIsRaw(b.path);
  }

  lemma RootIsRaw(path: PathMatch)
    ensures CompiledRule(path).RawPrefix? <==>
            path.Prefix? && forall i :: 0 <= i < |path.value| ==> path.value[i] == '/'
    ensures CompiledRule(path).RawPrefix? ==> |CompiledRule(path).text| == 1
  {
    if path.Prefix? && PrefixBody(path.value) != [] {
      var body := PrefixBody(path.value);
      assert path.value[|body| - 1] == body[|body| - 1];
    }
  }

  lemma RootIsSlash(path: PathMatch)
    ensures CompiledRule(path).RawPrefix? ==> CompiledRule(path).text == "/" && path.Prefix? && Spelled(path) == []
  {
  }

  /** Only Exact `/` compiles to a regex that matches a target as short as `/`. */
  lemma ShortestRegex(path: PathMatch)
    requires Plain(path) && CompiledRule(path).RegexRule? && |Spelled(path)| <= 1
    ensures path == Exact("/")
  {
  }

  /** An unsettled pair: in one of the two orders, a request both match is served by the lower. */
  lemma UnsettledShows(os: Platform, hostname: string, high: Frontend, low: Frontend)
    requires Exactly(high) && Exactly(low) && CanMeet(os, high, low)
        && Unsettled(hostname, OfferOf(high), OfferOf(low)).Some?
    ensures var q := Meeting(high, low);
            || Serves(os, hostname, [high, low], q) == Some(low)
            || Serves(os, hostname, [low, high], q) == Some(low)
  {
    var q := Meeting(high, low);
    MeetingIsMatched(os, high, low);
    TwoServed(os, hostname, high, low, q);
    TwoServed(os, hostname, low, high, q);
    RootIsSlash(high.path);
    RootIsSlash(low.path);
    if OfferOf(high).RegexOffer? && OfferOf(low).RootPrefix? && hostname != "*" {
      ShortestRegex(high.path);
      assert q.target == "/";
    }
    hide Matches, CompiledRule, CanMeet, Exactly, Serves, Meeting;
  }

  /** The reason given for an unsettled pair, by what the two rules are. */
  lemma ReasonByShapes(high: Frontend, low: Frontend)
    requires Unsettled(high.hostname, OfferOf(high), OfferOf(low)).Some?
    ensures var why := Unsettled(high.hostname, OfferOf(high), OfferOf(low)).value;
            if high.hostname == "*" then why.FirstMatchList?
            else if !IsRoot(low) && low.verb.Some? then
              (why.BothNameMethod? <==> !IsRoot(high) && high.verb.Some?)
                  && (why.BothNameMethod? || why.LowNamesMethod?)
            else if IsRoot(high) && IsRoot(low) then why.TwoRoots?
            else if !IsRoot(high) && !IsRoot(low) then why.TwoRegexes?
            else if IsRoot(low) then why.RootOnShortTarget?
            else why.RootOnShortTarget? || why.RegexOverRoot?
  {
    RootIsRaw(high.path);
    RootIsRaw(low.path);
  }

  /** A conflict is exact: the two have different effects, the Gateway API serves the higher first, and some
      request both match is served by the lower in one of the orders Sozu may hold the two in. */
  lemma ConflictExactly(os: Platform, fs: seq<Frontend>, high: Predicated, low: Predicated)
    requires InRange(fs, high) && InRange(fs, low) && Exactly(high.rule) && Exactly(low.rule)
    requires high.rule.hostname == low.rule.hostname
    ensures Conflict(os, fs, high, low).Some? <==>
            && !SameEffect(high.rule, low.rule) && ServesFirst(fs, high, low)
            && exists q :: && Matches(os, high.rule, q) && Matches(os, low.rule, q)
                           && (|| Serves(os, low.rule.hostname, [high.rule, low.rule], q) == Some(low.rule)
                               || Serves(os, low.rule.hostname, [low.rule, high.rule], q) == Some(low.rule))
  {
    var hostname, h, l := low.rule.hostname, high.rule, low.rule;
    UnsettledIsUnsettled(hostname, OfferOf(h), OfferOf(l));
    hide Matches, CanMeet, Exactly, Serves, OfferOf, ServesFirst, Settles, Unsettled;
    if Conflict(os, fs, high, low).Some? {
      MeetingIsMatched(os, h, l);
      UnsettledShows(os, hostname, h, l);
    }
    forall q | Matches(os, h, q) && Matches(os, l, q) && !SameEffect(h, l)
      ensures CanMeet(os, h, l)
      ensures Settles(hostname, OfferOf(h), OfferOf(l)) ==>
                Serves(os, hostname, [h, l], q) != Some(l) && Serves(os, hostname, [l, h], q) != Some(l)
    {
      CanMeetIsSound(os, h, l, q);
      if Settles(hostname, OfferOf(h), OfferOf(l)) {
        SettledServes(os, hostname, h, l, q, [h, l]);
        SettledServes(os, hostname, h, l, q, [l, h]);
      }
    }
  }

  lemma SettledServes(os: Platform, hostname: string, h: Frontend, l: Frontend, q: Request, held: seq<Frontend>)
    requires Exactly(h) && Exactly(l) && Matches(os, h, q) && h in held
    requires Settles(hostname, OfferOf(h), OfferOf(l))
    ensures Serves(os, hostname, held, q) != Some(l)
  {
    hide Matches, OfferOf, ClassServes, Settles;
    ClassServesMatch(os, hostname, true, held, q);
    assert InClass(os, true, h, q);
  }
}
