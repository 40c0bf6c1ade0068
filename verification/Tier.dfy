/** Tiers: the predicated rules planned for a hostname, their conflicts, and what a tier without conflicts
    guarantees in every order. */
module Tier {
  import opened Base
  import opened Paths
  import opened Frontends
  import opened Sozu

  /** One rule of the class. It ranks as frontend `ranksAs` (a header match as itself, a copy as its
      plain route) and stands or falls with header match `owner`. */
  datatype Predicated = Predicated(rule: Frontend, ranksAs: nat, owner: nat, copy: bool) {
    function Id(): (nat, nat) { (ranksAs, owner) }
  }

  datatype Reason =
    | FirstMatchList
    | BothNameMethod
    | LowNamesMethod
    | RootOnShortTarget
    | RegexOverRoot
    | TwoRoots
    | TwoRegexes

  /** Why Sozu does not rank `high` over `low` in every order; `None` when it does. */
  function Unsettled(hostname: string, high: TreeOffer, low: TreeOffer): Option<Reason> {
    if hostname == "*" then Some(FirstMatchList)
    else match (high, low)
      case (RegexWithMethod, RegexWithMethod) => Some(BothNameMethod)
      case (RegexWithMethod, _) => None
      case (_, RegexWithMethod) => Some(LowNamesMethod)
      case (RegexOffer(shortest), RootPrefix) => if shortest > 1 then None else Some(RootOnShortTarget)
      case (RootPrefix, RegexOffer(shortest)) => if shortest <= 1 then Some(RootOnShortTarget) else Some(RegexOverRoot)
      case (RootPrefix, RootPrefix) => Some(TwoRoots)
      case (RegexOffer(_), RegexOffer(_)) => Some(TwoRegexes)
  }

  predicate InRange(fs: seq<Frontend>, e: Predicated) {
    e.ranksAs < |fs| && e.owner < |fs|
  }

  /** `a` ranks before `b`: by precedence of what each stands for, then by frontend, then by owner. */
  predicate ServesFirst(fs: seq<Frontend>, a: Predicated, b: Predicated)
    requires InRange(fs, a) && InRange(fs, b)
  {
    GwPrecedence(fs[a.ranksAs], fs[b.ranksAs])
    .Then(CompareInt(b.ranksAs, a.ranksAs))
    .Then(CompareInt(b.owner, a.owner)).Greater?
  }

  /** The reason not to hold both: `high` ranks before `low` with another effect, they may meet, and their shapes
      leave the order open. */
  function Conflict(os: Platform, fs: seq<Frontend>, high: Predicated, low: Predicated): Option<Reason>
    requires InRange(fs, high) && InRange(fs, low)
  {
    if SameEffect(high.rule, low.rule) then None
    else if !ServesFirst(fs, high, low) then None
    else
      match Unsettled(high.rule.hostname, OfferOf(high.rule), OfferOf(low.rule))
      case None => None
      case Some(why) => if CanMeet(os, high.rule, low.rule) then Some(why) else None
  }

  predicate IdInRange(fs: seq<Frontend>, id: (nat, nat)) {
    id.0 < |fs| && id.1 < |fs|
  }

  /** Ids name entries once for all rounds: equal indices a header match, different ones a copy. */
  function EntryOf(fs: seq<Frontend>, id: (nat, nat)): Predicated
    requires IdInRange(fs, id)
  {
    if id.0 == id.1 then Predicated(fs[id.0], id.0, id.1, false)
    else Predicated(LiftedCopy(fs[id.0], fs[id.1]), id.0, id.1, true)
  }

  ghost predicate TierShape(fs: seq<Frontend>, hostname: string, tier: seq<Predicated>) {
    && (forall e :: e in tier ==> InRange(fs, e) && e.rule.hostname == hostname && e.rule.headers != [])
    && (forall a, b :: a in tier && b in tier && a.Id() == b.Id() ==> a == b)
  }

  ghost predicate ConflictFree(os: Platform, fs: seq<Frontend>, tier: seq<Predicated>)
    requires forall e :: e in tier ==> InRange(fs, e)
  {
    forall a, b :: a in tier && b in tier ==> Conflict(os, fs, a, b).None?
  }

  /** `held` lists the rules of the tier in any order, beside any plain rules. */
  ghost predicate HoldsTier(held: seq<Frontend>, tier: seq<Predicated>) {
    && (forall e :: e in tier ==> e.rule in held)
    && (forall f :: f in held && f.headers != [] ==> exists e :: e in tier && e.rule == f)
  }

  lemma UnsettledIsUnsettled(hostname: string, high: TreeOffer, low: TreeOffer)
    ensures Unsettled(hostname, high, low).None? <==> Settles(hostname, high, low)
  {
  }

  /** The tier theorem: whatever the order, the served entry of a conflict-free tier has the effect of every
      other matching entry, or ranks before it. */
  lemma ConflictFreeTierServes(
      os: Platform, fs: seq<Frontend>, hostname: string, tier: seq<Predicated>,
      held: seq<Frontend>, q: Request, served: Predicated, other: Predicated)
    requires TierShape(fs, hostname, tier) && ConflictFree(os, fs, tier) && HoldsTier(held, tier)
    requires served in tier && Serves(os, hostname, held, q) == Some(served.rule)
    requires other in tier && Matches(os, other.rule, q)
    ensures Matches(os, served.rule, q)
    ensures SameEffect(served.rule, other.rule) || ServesFirst(fs, served, other)
  {
    ClassServesMatch(os, hostname, true, held, q);
    assert InClass(os, true, other.rule, q);
    assert ClassServes(os, hostname, true, held, q) == Some(served.rule);
    assert Conflict(os, fs, other, served).None?;
    if !SameEffect(served.rule, other.rule) && !ServesFirst(fs, served, other) {
      GwReverse(fs[served.ranksAs], fs[other.ranksAs]);
      assert served.Id() != other.Id();
      assert ServesFirst(fs, other, served);
      CanMeetIsSound(os, other.rule, served.rule, q);
    }
  }

  /** A request some rule of the tier matches is served by one of them. */
  lemma TierServesItsRequests(
      os: Platform, hostname: string, tier: seq<Predicated>, held: seq<Frontend>, q: Request, e: Predicated)
      returns (served: Predicated)
    requires HoldsTier(held, tier) && e in tier && e.rule.headers != [] && Matches(os, e.rule, q)
    ensures served in tier && Serves(os, hostname, held, q) == Some(served.rule)
    ensures Matches(os, served.rule, q)
  {
    ClassServesMatch(os, hostname, true, held, q);
    assert InClass(os, true, e.rule, q);
    var r := ClassServes(os, hostname, true, held, q).value;
    served :| served in tier && served.rule == r;
  }

  // ---- the order conflicts are resolved in -----------------------------------------------------

  datatype PrecedenceKey = PrecedenceKey(kind: nat, length: nat, verb: bool, headers: nat, id: (nat, nat))

  function KeyOf(fs: seq<Frontend>, e: Predicated): PrecedenceKey
    requires InRange(fs, e)
  {
    var f := fs[e.ranksAs];
    var (kind, length) := match f.path
      case Exact(path) => (2, |path|)
      case Prefix(prefix) => (1, |PrefixBody(prefix)|)
      case Regex(_) => (0, 0);
    PrecedenceKey(kind, length, f.verb.Some?, |f.headers|, e.Id())
  }

  function CompareKeys(a: PrecedenceKey, b: PrecedenceKey): Ordering {
    CompareInt(a.kind, b.kind)
    .Then(CompareInt(a.length, b.length))
    .Then(CompareBool(a.verb, b.verb))
    .Then(CompareInt(a.headers, b.headers))
    .Then(CompareInt(b.id.0, a.id.0))
    .Then(CompareInt(b.id.1, a.id.1))
  }

  /** Highest precedence first. */
  predicate KeyFirst(a: PrecedenceKey, b: PrecedenceKey) {
    !CompareKeys(a, b).Less?
  }

  lemma KeyFirstIsTotal()
    ensures TotalOrder(KeyFirst)
  {
    hide CompareKeys;
    forall a, b ensures (KeyFirst(a, b) || KeyFirst(b, a)) && (KeyFirst(a, b) && KeyFirst(b, a) ==> a == b) {
      CompareKeysReverse(a, b);
    }
    forall a, b, c | KeyFirst(a, b) && KeyFirst(b, c) ensures KeyFirst(a, c) {
      CompareKeysTransitive(a, b, c);
    }
  }

  lemma CompareKeysReverse(a: PrecedenceKey, b: PrecedenceKey)
    ensures CompareKeys(b, a) == CompareKeys(a, b).Reverse() && (CompareKeys(a, b).Equal? <==> a == b)
  {
  }

  lemma CompareKeysTransitive(a: PrecedenceKey, b: PrecedenceKey, c: PrecedenceKey)
    requires !CompareKeys(a, b).Less? && !CompareKeys(b, c).Less?
    ensures !CompareKeys(a, c).Less?
  {
  }

  /** The key is documented to follow `gw_precedence`. Off regex paths it does, except exactly where
      the outranking one of two Exact paths is the shorter. */
  lemma KeyFollowsPrecedence(fs: seq<Frontend>, a: Predicated, b: Predicated)
    requires InRange(fs, a) && InRange(fs, b)
    requires !fs[a.ranksAs].path.Regex? && !fs[b.ranksAs].path.Regex?
    requires GwPrecedence(fs[a.ranksAs], fs[b.ranksAs]).Greater?
    ensures CompareKeys(KeyOf(fs, a), KeyOf(fs, b)).Greater? <==>
            !(fs[a.ranksAs].path.Exact? && fs[b.ranksAs].path.Exact? &&
              |fs[a.ranksAs].path.value| < |fs[b.ranksAs].path.value|)
  {
  }

  /** Of entries that stand for frontends alike in path kind and length, method and number of conditions, the
      one of the earlier frontend is resolved first, and of two for one frontend the earlier header match's. */
  lemma TiesByOrder(fs: seq<Frontend>, a: Predicated, b: Predicated)
    requires InRange(fs, a) && InRange(fs, b)
    requires var x, y := fs[a.ranksAs], fs[b.ranksAs];
             && (x.verb.Some? <==> y.verb.Some?) && |x.headers| == |y.headers|
             && match (x.path, y.path)
                case (Exact(p), Exact(q)) => |p| == |q|
                case (Prefix(p), Prefix(q)) => |PrefixBody(p)| == |PrefixBody(q)|
                case (Regex(_), Regex(_)) => true
                case _ => false
    ensures CompareKeys(KeyOf(fs, a), KeyOf(fs, b)).Greater? <==>
            a.ranksAs < b.ranksAs || (a.ranksAs == b.ranksAs && a.owner < b.owner)
  {
  }

  /** A header match on a regex path is resolved after any other. */
  lemma RegexResolvedLast(fs: seq<Frontend>, a: Predicated, b: Predicated)
    requires InRange(fs, a) && InRange(fs, b) && !fs[a.ranksAs].path.Regex? && fs[b.ranksAs].path.Regex?
    ensures CompareKeys(KeyOf(fs, a), KeyOf(fs, b)).Greater?
  {
  }

  /** Two Exact paths one request can match, in opposite orders for the two. */
  lemma KeyLeavesPrecedence(os: Platform) returns (fs: seq<Frontend>, a: Predicated, b: Predicated, q: Request)
    ensures InRange(fs, a) && InRange(fs, b) && a.rule == fs[a.ranksAs] && b.rule == fs[b.ranksAs]
    ensures Matches(os, a.rule, q) && Matches(os, b.rule, q)
    ensures GwPrecedence(a.rule, b.rule).Greater? && CompareKeys(KeyOf(fs, a), KeyOf(fs, b)).Less?
  {
    var h := HeaderMatch("x", ExactValue("1"));
    var base := Frontend("a.example", Exact("/a?b"), None, None, false, Listener("0.0.0.0:80", 0), "", [h]);
    fs := [base.(path := Exact("/a"), verb := Some("GET")), base];
    a, b := Predicated(fs[0], 0, 0, false), Predicated(fs[1], 1, 1, false);
    q := Request("/a?b", "GET", map["x" := "1"]);
    assert LfFree("b");
    assert "/a?b"[|"/a"| + 1..] == "b";
    ExactRule(os, "/a", q.target);
    ExactRule(os, "/a?b", q.target);
    assert Lower("x") == "x";
  }
}
