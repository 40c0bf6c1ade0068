/** How Sozu picks one rule of a hostname for a request, in whatever order it holds them. */
module Sozu {
  import opened Base
  import opened Paths
  import opened Frontends

  /** What a rule's shape means for the selection. */
  datatype TreeOffer = RootPrefix | RegexWithMethod | RegexOffer(shortest: nat)

  function OfferOf(f: Frontend): TreeOffer {
    if CompiledRule(f.path).RawPrefix? then RootPrefix
    else if f.verb.Some? then RegexWithMethod
    else RegexOffer(if f.path.Regex? then 0 else |Spelled(f.path)|)
  }

  datatype Selection = Selection(bar: nat, matched: Option<Frontend>, exact: bool)

  const NOTHING := Selection(0, None, false)

  function Offer(sel: Selection, f: Frontend, targetLength: nat): Selection {
    match CompiledRule(f.path)
    case RegexRule(_) =>
      if f.verb.Some? then sel.(matched := Some(f), exact := true)
      else sel.(matched := Some(f), bar := targetLength)
    case RawPrefix(text) =>
      if |text| >= sel.bar then sel.(matched := Some(f), bar := |text|) else sel
  }

  ghost predicate InClass(os: Platform, predicated: bool, f: Frontend, q: Request) {
    (f.headers != []) == predicated && Matches(os, f, q)
  }

  /** One class of a hostname leaf: every matching rule is offered in the order held, until one
      decides. */
  ghost function TreeSelect(os: Platform, predicated: bool, held: seq<Frontend>, q: Request,
                            sel: Selection): Selection {
    if held == [] then sel
    else
      var next := if !sel.exact && InClass(os, predicated, held[0], q) then Offer(sel, held[0], |q.target|) else sel;
      TreeSelect(os, predicated, held[1..], q, next)
  }

  /** One class of the hostname-less list: the first match. */
  ghost function ListSelect(os: Platform, predicated: bool, held: seq<Frontend>, q: Request): Option<Frontend> {
    if held == [] then None
    else if InClass(os, predicated, held[0], q) then Some(held[0])
    else ListSelect(os, predicated, held[1..], q)
  }

  ghost function ClassServes(os: Platform, hostname: string, predicated: bool, held: seq<Frontend>,
                             q: Request): Option<Frontend> {
    if hostname == "*" then ListSelect(os, predicated, held, q)
    else TreeSelect(os, predicated, held, q, NOTHING).matched
  }

  /** The outcome for `q`: the predicated class decides, and the plain one where it has no match. */
  ghost function Serves(os: Platform, hostname: string, held: seq<Frontend>, q: Request): Option<Frontend> {
    var first := ClassServes(os, hostname, true, held, q);
    if first.Some? then first else ClassServes(os, hostname, false, held, q)
  }

  // ---- what no order changes ----------------------------------------------------------------

  /** A rule other than the root prefix is chosen, and no later root prefix can replace it. */
  predicate Raised(sel: Selection) {
    sel.matched.Some? && !OfferOf(sel.matched.value).RootPrefix? && (sel.exact || sel.bar > 1)
  }

  predicate Consistent(sel: Selection, targetLength: nat) {
    && (sel.exact ==> sel.matched.Some? && OfferOf(sel.matched.value).RegexWithMethod?)
    && (sel.bar > 1 ==> targetLength > 1)
  }

  lemma OfferKeeps(os: Platform, sel: Selection, f: Frontend, q: Request)
    requires Consistent(sel, |q.target|) && !sel.exact && Matches(os, f, q)
    ensures var next := Offer(sel, f, |q.target|);
            && Consistent(next, |q.target|)
            && (Raised(sel) ==> Raised(next))
            && (OfferOf(f).RegexWithMethod? ==> next.exact)
            && (OfferOf(f).RegexOffer? && OfferOf(f).shortest > 1 ==> Raised(next))
            && (next.matched == sel.matched || next.matched == Some(f))
            && (sel == NOTHING ==> next.matched == Some(f))
            && (sel.matched.Some? ==> next.matched.Some?)
  {
    if !f.path.Regex? {
      PathTargets(os, f.path, q.target);
    }
    if CompiledRule(f.path).RawPrefix? {
      assert CompiledRule(f.path).text == "/";
    }
  }

  /** The facts a selection keeps over the rest of the rules, whatever their order. */
  lemma {:induction false} TreeSelectKeeps(os: Platform, predicated: bool, held: seq<Frontend>, q: Request,
                                           sel: Selection)
    requires Consistent(sel, |q.target|) && (sel.matched.None? ==> sel == NOTHING)
    ensures var r := TreeSelect(os, predicated, held, q, sel);
            && Consistent(r, |q.target|)
            && (sel.exact ==> r == sel)
            && (Raised(sel) ==> Raised(r))
            && (r.matched == sel.matched ||
                (r.matched.Some? && r.matched.value in held && InClass(os, predicated, r.matched.value, q)))
            && (sel.matched.Some? ==> r.matched.Some?)
            && forall f :: f in held && InClass(os, predicated, f, q) ==>
                             && r.matched.Some?
                             && (OfferOf(f).RegexWithMethod? ==> r.exact)
                             && (OfferOf(f).RegexOffer? && OfferOf(f).shortest > 1 ==> Raised(r) || r.exact)
  {
    if held != [] {
      var f := held[0];
      assert held == [f] + held[1..];
      var next := if !sel.exact && InClass(os, predicated, f, q) then Offer(sel, f, |q.target|) else sel;
      if !sel.exact && InClass(os, predicated, f, q) {
        OfferKeeps(os, sel, f, q);
      }
      TreeSelectKeeps(os, predicated, held[1..], q, next);
    }
  }

  lemma {:induction false} ListSelectKeeps(os: Platform, predicated: bool, held: seq<Frontend>, q: Request)
    ensures var r := ListSelect(os, predicated, held, q);
            && (r.Some? ==> r.value in held && InClass(os, predicated, r.value, q))
            && forall f :: f in held && InClass(os, predicated, f, q) ==> r.Some?
  {
    if held != [] {
      ListSelectKeeps(os, predicated, held[1..], q);
      assert held == [held[0]] + held[1..];
    }
  }

  /** Whether Sozu ranks a matching `high` over a matching `low` of one class on its own rules,
      whatever order it holds them in. */
  predicate Settles(hostname: string, high: TreeOffer, low: TreeOffer) {
    && hostname != "*"
    && (|| (high.RegexWithMethod? && !low.RegexWithMethod?)
        || (high.RegexOffer? && high.shortest > 1 && low.RootPrefix?))
  }

  /** A class serves one of its matching rules when it has any, and never one that another
      matching rule is settled over. */
  lemma ClassServesMatch(os: Platform, hostname: string, predicated: bool, held: seq<Frontend>, q: Request)
    ensures var r := ClassServes(os, hostname, predicated, held, q);
            && (r.Some? <==> exists f :: f in held && InClass(os, predicated, f, q))
            && (r.Some? ==> r.value in held && InClass(os, predicated, r.value, q))
            && forall f :: f in held && InClass(os, predicated, f, q) && r.Some? ==>
                             !Settles(hostname, OfferOf(f), OfferOf(r.value))
  {
    ListSelectKeeps(os, predicated, held, q);
    TreeSelectKeeps(os, predicated, held, q, NOTHING);
  }

  /** A request no predicated rule matches is served as if only the plain rules were held. */
  lemma {:induction false} PlainClassAlone(os: Platform, hostname: string, held: seq<Frontend>, q: Request)
    requires forall f :: f in held && f.headers != [] ==> !Matches(os, f, q)
    ensures Serves(os, hostname, held, q) == Serves(os, hostname, Filter((f: Frontend) => f.headers == [], held), q)
  {
    var plain := Filter((f: Frontend) => f.headers == [], held);
    ClassServesMatch(os, hostname, true, held, q);
    ClassServesMatch(os, hostname, true, plain, q);
    PlainListAlone(os, held, q);
    PlainTreeAlone(os, held, q, NOTHING);
  }

  lemma {:induction false} PlainListAlone(os: Platform, held: seq<Frontend>, q: Request)
    ensures ListSelect(os, false, held, q) == ListSelect(os, false, Filter((f: Frontend) => f.headers == [], held), q)
  {
    if held != [] {
      PlainListAlone(os, held[1..], q);
      var rest := Filter((f: Frontend) => f.headers == [], held[1..]);
      assert ([held[0]] + rest)[1..] == rest;
    }
  }

  lemma {:induction false} PlainTreeAlone(os: Platform, held: seq<Frontend>, q: Request, sel: Selection)
    ensures TreeSelect(os, false, held, q, sel) ==
        TreeSelect(os, false, Filter((f: Frontend) => f.headers == [], held), q, sel)
  {
    if held != [] {
      var next := if !sel.exact && InClass(os, false, held[0], q) then Offer(sel, held[0], |q.target|) else sel;
      PlainTreeAlone(os, held[1..], q, next);
      var rest := Filter((f: Frontend) => f.headers == [], held[1..]);
      assert ([held[0]] + rest)[1..] == rest;
    }
  }
}
