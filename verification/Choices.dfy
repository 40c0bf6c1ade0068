/** What the choice of copies establishes: every plain route that outranks a kept header match has
    its requests served above it, by a copy or by a header match of the very same conditions. */
module Choices {
  import opened Base
  import opened Paths
  import opened Frontends
  import opened RouteKeys
  import opened Tier
  import opened Planner

  /** A kept frontend of the group has the key. */
  predicate Taken(held: map<RouteKey, nat>, skipped: set<nat>, key: RouteKey) {
    key in held && held[key] !in skipped
  }

  /** A kept frontend has the very match of `u`'s copy above `p`. */
  predicate StandsIn(os: Platform, fs: seq<Frontend>, held: map<RouteKey, nat>, skipped: set<nat>, u: nat, p: nat)
    requires u < |fs| && p < |fs|
  {
    var key := CopyKey(os, fs, u, p);
    Taken(held, skipped, key) && held[key] < |fs| && SameMatch(fs[held[key]], LiftedCopy(fs[u], fs[p]))
  }

  /** Among `p`'s copies is one filed where `u`'s would be, of a route ranking at least as high. */
  ghost predicate Covers(os: Platform, fs: seq<Frontend>, routes: seq<nat>, u: nat, p: nat)
    requires u < |fs| && p < |fs| && InGroup(fs, routes)
  {
    exists i :: 0 <= i < |routes| && CopyKey(os, fs, routes[i], p) == CopyKey(os, fs, u, p)
        && AtLeast(fs[routes[i]], fs[u])
  }

  /** `p`'s copies are filed apart from each other, from earlier copies and from kept frontends. */
  ghost predicate FiledApart(os: Platform, fs: seq<Frontend>, held: map<RouteKey, nat>, skipped: set<nat>, p: nat,
                             brought: set<RouteKey>, routes: seq<nat>)
    requires p < |fs| && InGroup(fs, routes)
  {
    && (forall i :: 0 <= i < |routes| ==> CopyKey(os, fs, routes[i], p) !in brought &&
                                          !Taken(held, skipped, CopyKey(os, fs, routes[i], p)))
    && (forall i, j :: 0 <= i < j < |routes| ==> CopyKey(os, fs, routes[i], p) != CopyKey(os, fs, routes[j], p))
  }

  ghost predicate OffRegex(fs: seq<Frontend>, routes: seq<nat>) {
    forall i :: 0 <= i < |routes| ==> routes[i] < |fs| && !fs[routes[i]].path.Regex?
  }

  lemma {:induction false} ChooseFacts(
      os: Platform, fs: seq<Frontend>, held: map<RouteKey, nat>, skipped: set<nat>, p: nat,
      left: seq<nat>, brought: set<RouteKey>, added: seq<nat>)
    requires p < |fs| && OffRegex(fs, left) && OffRegex(fs, added) && HeldInRange(fs, held)
    requires FiledApart(os, fs, held, skipped, p, brought, added)
    requires |brought| + |added| <= MAX_LIFTED_PER_HOSTNAME
    requires Choose(os, fs, held, skipped, p, left, brought, added).Done?
    ensures var routes := Choose(os, fs, held, skipped, p, left, brought, added).value;
            && OffRegex(fs, routes)
            && FiledApart(os, fs, held, skipped, p, brought, routes)
            && |brought| + |routes| <= MAX_LIFTED_PER_HOSTNAME
            && (forall u :: u in routes ==> u in added || u in left)
            && (forall u :: u in added ==> Covers(os, fs, routes, u, p))
            && (forall u :: u in left ==> StandsIn(os, fs, held, skipped, u, p) ||
                                          CopyKey(os, fs, u, p) in brought || Covers(os, fs, routes, u, p))
  {
    hide CopyKey, SameMatch, LiftedCopy, GwPrecedence;
    if left != [] {
      var u, rest := left[0], left[1..];
      assert left == [u] + rest;
      var key := CopyKey(os, fs, u, p);
      var at := FindKey(os, fs, p, added, key);
      if Taken(held, skipped, key) || key in brought {
        ChooseFacts(os, fs, held, skipped, p, rest, brought, added);
      } else if at.Some? {
        var was := added[at.value];
        if GwPrecedence(fs[u], fs[was]).Greater? {
          var kept := added[at.value := u];
          ChooseFacts(os, fs, held, skipped, p, rest, brought, kept);
          var routes := Choose(os, fs, held, skipped, p, rest, brought, kept).value;
          assert kept[at.value] in kept;
          CoversLower(os, fs, routes, u, was, p);
          forall v | v in added ensures Covers(os, fs, routes, v, p) {
            var i :| 0 <= i < |added| && added[i] == v;
            assert i != at.value ==> kept[i] == v;
          }
        } else {
          ChooseFacts(os, fs, held, skipped, p, rest, brought, added);
          var routes := Choose(os, fs, held, skipped, p, rest, brought, added).value;
          GwReverse(fs[u], fs[was]);
          CoversLower(os, fs, routes, was, u, p);
        }
      } else {
        ChooseFacts(os, fs, held, skipped, p, rest, brought, added + [u]);
        assert u in added + [u];
      }
    } else {
      forall v | v in added ensures Covers(os, fs, added, v, p) {
        var i :| 0 <= i < |added| && added[i] == v;
        GwReflexive(fs[v]);
      }
    }
  }

  /** While later candidates are weighed, a copy keeps its place and key among its header match's. */
  lemma {:induction false} ChoicesKeepPlaces(
      os: Platform, fs: seq<Frontend>, held: map<RouteKey, nat>, skipped: set<nat>, p: nat,
      left: seq<nat>, brought: set<RouteKey>, added: seq<nat>)
    requires p < |fs| && InGroup(fs, left) && InGroup(fs, added) && HeldInRange(fs, held)
    requires Choose(os, fs, held, skipped, p, left, brought, added).Done?
    ensures var routes := Choose(os, fs, held, skipped, p, left, brought, added).value;
            && |added| <= |routes| && InGroup(fs, routes)
            && forall i :: 0 <= i < |added| ==> CopyKey(os, fs, routes[i], p) == CopyKey(os, fs, added[i], p)
  {
    hide CopyKey, SameMatch, LiftedCopy, GwPrecedence;
    if left != [] {
      var u, rest := left[0], left[1..];
      var key := CopyKey(os, fs, u, p);
      var at := FindKey(os, fs, p, added, key);
      if Taken(held, skipped, key) || key in brought {
        ChoicesKeepPlaces(os, fs, held, skipped, p, rest, brought, added);
      } else if at.Some? {
        var kept := if GwPrecedence(fs[u], fs[added[at.value]]).Greater? then added[at.value := u] else added;
        ChoicesKeepPlaces(os, fs, held, skipped, p, rest, brought, kept);
        assert forall i :: 0 <= i < |added| ==> CopyKey(os, fs, kept[i], p) == CopyKey(os, fs, added[i], p);
      } else {
        ChoicesKeepPlaces(os, fs, held, skipped, p, rest, brought, added + [u]);
        assert forall i :: 0 <= i < |added| ==> (added + [u])[i] == added[i];
      }
    }
  }

  lemma GwReflexive(f: Frontend)
    ensures AtLeast(f, f)
  {
  }

  lemma CoversLower(os: Platform, fs: seq<Frontend>, routes: seq<nat>, u: nat, lower: nat, p: nat)
    requires u < |fs| && lower < |fs| && p < |fs| && OffRegex(fs, routes)
    requires !fs[u].path.Regex? && !fs[lower].path.Regex?
    requires Covers(os, fs, routes, u, p) && AtLeast(fs[u], fs[lower])
    requires CopyKey(os, fs, lower, p) == CopyKey(os, fs, u, p)
    ensures Covers(os, fs, routes, lower, p)
  {
    hide CopyKey, GwPrecedence;
    var i :| 0 <= i < |routes| && CopyKey(os, fs, routes[i], p) == CopyKey(os, fs, u, p)
        && AtLeast(fs[routes[i]], fs[u]);
    GwTransitive(fs[routes[i]], fs[u], fs[lower]);
  }

  // ---- over all header matches of a round ---------------------------------------------------------

  /** Each plain route that outranks header match `i` is stood in for, copied above it, or filed
      where an earlier header match's copy is. */
  ghost predicate AllCovered(os: Platform, fs: seq<Frontend>, plain: seq<nat>, held: map<RouteKey, nat>,
                             skipped: set<nat>, chosen: seq<Chosen>, i: nat)
    requires InGroup(fs, plain) && WellChosen(fs, chosen) && i < |chosen|
  {
    forall u :: u in Candidates(fs, plain, chosen[i].owner) ==>
                  || StandsIn(os, fs, held, skipped, u, chosen[i].owner)
                  || Covers(os, fs, chosen[i].routes, u, chosen[i].owner)
                  || exists k :: 0 <= k < i && CopyKey(os, fs, u, chosen[i].owner) in CopyKeys(os, fs, chosen[k])
  }

  ghost predicate EntryFacts(os: Platform, fs: seq<Frontend>, plain: seq<nat>, held: map<RouteKey, nat>,
                             skipped: set<nat>, chosen: seq<Chosen>, i: nat)
    requires InGroup(fs, plain) && WellChosen(fs, chosen) && i < |chosen|
  {
    && chosen[i].owner !in skipped
    && (forall u :: u in chosen[i].routes ==> u in Candidates(fs, plain, chosen[i].owner))
    && FiledApart(os, fs, held, skipped, chosen[i].owner, {}, chosen[i].routes)
    && AllCovered(os, fs, plain, held, skipped, chosen, i)
  }

  /** The facts every round's choice keeps, header match by header match. */
  ghost predicate ChosenFacts(os: Platform, fs: seq<Frontend>, plain: seq<nat>, held: map<RouteKey, nat>,
                              skipped: set<nat>, brought: set<RouteKey>, chosen: seq<Chosen>)
  {
    && InGroup(fs, plain) && WellChosen(fs, chosen)
    && Brings(os, fs, brought, chosen)
    && |brought| <= MAX_LIFTED_PER_HOSTNAME
    && CopyCount(chosen) == |brought|
    && (forall i :: 0 <= i < |chosen| ==> EntryFacts(os, fs, plain, held, skipped, chosen, i))
    && KeysApart(os, fs, chosen)
  }

  /** `brought` is the route keys of all the copies. */
  ghost predicate Brings(os: Platform, fs: seq<Frontend>, brought: set<RouteKey>, chosen: seq<Chosen>)
    requires WellChosen(fs, chosen)
  {
    && (forall i, key :: 0 <= i < |chosen| && key in CopyKeys(os, fs, chosen[i]) ==> key in brought)
    && (forall key :: key in brought ==> exists i :: 0 <= i < |chosen| && key in CopyKeys(os, fs, chosen[i]))
  }

  ghost predicate KeysApart(os: Platform, fs: seq<Frontend>, chosen: seq<Chosen>)
    requires WellChosen(fs, chosen)
  {
    forall i, j :: 0 <= i < j < |chosen| ==> CopyKeys(os, fs, chosen[i]) !! CopyKeys(os, fs, chosen[j])
  }

  function CopyCount(chosen: seq<Chosen>): nat {
    if chosen == [] then 0 else CopyCount(chosen[..|chosen| - 1]) + |chosen[|chosen| - 1].routes|
  }

  lemma {:induction false} CountKeys(os: Platform, fs: seq<Frontend>, p: nat, routes: seq<nat>)
    requires p < |fs| && InGroup(fs, routes)
    requires forall i, j :: 0 <= i < j < |routes| ==> CopyKey(os, fs, routes[i], p) != CopyKey(os, fs, routes[j], p)
    ensures |CopyKeys(os, fs, Chosen(p, routes))| == |routes|
  {
    hide CopyKey;
    if routes != [] {
      var n := |routes| - 1;
      var most := routes[..n];
      CountKeys(os, fs, p, most);
      assert forall i :: 0 <= i < n ==> most[i] == routes[i];
      assert CopyKeys(os, fs, Chosen(p, routes)) == CopyKeys(os, fs, Chosen(p, most)) + {CopyKey(os, fs, routes[n], p)};
    }
  }

  lemma ChosenFactsExtend(os: Platform, fs: seq<Frontend>, plain: seq<nat>, held: map<RouteKey, nat>, skipped: set<nat>,
                          brought: set<RouteKey>, chosen: seq<Chosen>, c: Chosen)
    requires InGroup(fs, plain) && WellChosen(fs, chosen) && c.owner < |fs| && InGroup(fs, c.routes)
        && HeldInRange(fs, held)
    requires ChosenFacts(os, fs, plain, held, skipped, brought, chosen)
    requires c.owner !in skipped && OffRegex(fs, Candidates(fs, plain, c.owner))
    requires Choose(os, fs, held, skipped, c.owner, Candidates(fs, plain, c.owner), brought, []) == Done(c.routes)
    ensures ChosenFacts(os, fs, plain, held, skipped, brought + CopyKeys(os, fs, c), chosen + [c])
  {
    hide CopyKey, CopyKeys, EntryFacts, Candidates, Choose;
    var all := chosen + [c];
    var n := |chosen|;
    NewEntryFacts(os, fs, plain, held, skipped, brought, chosen, c);
    forall i | 0 <= i < n ensures EntryFacts(os, fs, plain, held, skipped, all, i) {
      OldEntryFacts(os, fs, plain, held, skipped, chosen, c, i);
    }
    assert all[..n] == chosen && all[n] == c;
    var after := brought + CopyKeys(os, fs, c);
    assert WellChosen(fs, all);
    BringsExtends(os, fs, brought, chosen, c);
    hide Brings, KeysApart;
    assert CopyCount(all) == CopyCount(chosen) + |c.routes|;
    assert |after| == |brought| + |c.routes|;
    assert EntryFacts(os, fs, plain, held, skipped, all, n);
    forall i | 0 <= i < |all| ensures EntryFacts(os, fs, plain, held, skipped, all, i) {
      if i == n { } else { }
    }
  }

  lemma BringsExtends(os: Platform, fs: seq<Frontend>, brought: set<RouteKey>, chosen: seq<Chosen>, c: Chosen)
    requires WellChosen(fs, chosen) && c.owner < |fs| && InGroup(fs, c.routes)
    requires Brings(os, fs, brought, chosen) && KeysApart(os, fs, chosen) && CopyKeys(os, fs, c) !! brought
    ensures WellChosen(fs, chosen + [c])
    ensures Brings(os, fs, brought + CopyKeys(os, fs, c), chosen + [c]) && KeysApart(os, fs, chosen + [c])
  {
    hide CopyKeys;
    var all, n, after := chosen + [c], |chosen|, brought + CopyKeys(os, fs, c);
    assert all[n] == c && forall i :: 0 <= i < n ==> all[i] == chosen[i];
    forall key | key in after ensures exists i :: 0 <= i < |all| && key in CopyKeys(os, fs, all[i]) {
      if key in brought {
        var i :| 0 <= i < n && key in CopyKeys(os, fs, chosen[i]);
        assert key in CopyKeys(os, fs, all[i]);
      } else {
        assert key in CopyKeys(os, fs, all[n]);
      }
    }
    forall i, j | 0 <= i < j < |all| ensures CopyKeys(os, fs, all[i]) !! CopyKeys(os, fs, all[j]) {
      if j == n {
        assert CopyKeys(os, fs, all[i]) <= brought;
      } else {
        assert CopyKeys(os, fs, chosen[i]) !! CopyKeys(os, fs, chosen[j]);
      }
    }
  }

  lemma OldEntryFacts(os: Platform, fs: seq<Frontend>, plain: seq<nat>, held: map<RouteKey, nat>, skipped: set<nat>,
                      chosen: seq<Chosen>, c: Chosen, i: nat)
    requires InGroup(fs, plain) && WellChosen(fs, chosen) && c.owner < |fs| && InGroup(fs, c.routes) && i < |chosen|
    requires EntryFacts(os, fs, plain, held, skipped, chosen, i)
    ensures EntryFacts(os, fs, plain, held, skipped, chosen + [c], i)
  {
    hide CopyKey, CopyKeys, StandsIn, Covers, Taken, Candidates, FiledApart;
    var all := chosen + [c];
    assert all[i] == chosen[i] && forall k :: 0 <= k < i ==> all[k] == chosen[k];
  }

  lemma NewEntryFacts(os: Platform, fs: seq<Frontend>, plain: seq<nat>, held: map<RouteKey, nat>, skipped: set<nat>,
                      brought: set<RouteKey>, chosen: seq<Chosen>, c: Chosen)
    requires InGroup(fs, plain) && WellChosen(fs, chosen) && c.owner < |fs| && InGroup(fs, c.routes)
        && HeldInRange(fs, held)
    requires Brings(os, fs, brought, chosen)
    requires c.owner !in skipped && OffRegex(fs, Candidates(fs, plain, c.owner)) && |brought| <= MAX_LIFTED_PER_HOSTNAME
    requires Choose(os, fs, held, skipped, c.owner, Candidates(fs, plain, c.owner), brought, []) == Done(c.routes)
    ensures EntryFacts(os, fs, plain, held, skipped, chosen + [c], |chosen|)
    ensures CopyKeys(os, fs, c) !! brought
    ensures |CopyKeys(os, fs, c)| == |c.routes| && |brought| + |c.routes| <= MAX_LIFTED_PER_HOSTNAME
  {
    hide CopyKey, StandsIn, Covers, Taken, Candidates, Choose;
    ChooseFacts(os, fs, held, skipped, c.owner, Candidates(fs, plain, c.owner), brought, []);
    CountKeys(os, fs, c.owner, c.routes);
    var all, n := chosen + [c], |chosen|;
    assert all[n] == c && forall k :: 0 <= k < n ==> all[k] == chosen[k];
  }

  /** The header matches not skipped, in order. */
  function Kept(slots: seq<nat>, skipped: set<nat>): seq<nat> {
    Filter((p: nat) => p !in skipped, slots)
  }

  function Owners(chosen: seq<Chosen>): seq<nat> {
    seq(|chosen|, i requires 0 <= i < |chosen| => chosen[i].owner)
  }

  lemma {:induction false} ChooseAllFacts(
      os: Platform, fs: seq<Frontend>, plain: seq<nat>, held: map<RouteKey, nat>, skipped: set<nat>,
      slots: seq<nat>, brought: set<RouteKey>, chosen: seq<Chosen>) returns (all: set<RouteKey>)
    requires OffRegex(fs, plain) && InGroup(fs, slots) && WellChosen(fs, chosen) && HeldInRange(fs, held)
    requires ChosenFacts(os, fs, plain, held, skipped, brought, chosen)
    requires ChooseAll(os, fs, plain, held, skipped, slots, brought, chosen).Done?
    ensures var r := ChooseAll(os, fs, plain, held, skipped, slots, brought, chosen).value;
            && ChosenFacts(os, fs, plain, held, skipped, all, r)
            && Owners(r) == Owners(chosen) + Kept(slots, skipped)
  {
    hide Choose, ChosenFacts, CopyKeys, Candidates;
    if slots == [] {
      all := brought;
    } else if slots[0] in skipped {
      all := ChooseAllFacts(os, fs, plain, held, skipped, slots[1..], brought, chosen);
    } else {
      var p := slots[0];
      ChooseInRange(os, fs, held, skipped, p, Candidates(fs, plain, p), brought, []);
      var c := Chosen(p, Choose(os, fs, held, skipped, p, Candidates(fs, plain, p), brought, []).value);
      CandidatesOffRegex(fs, plain, p);
      ChosenFactsExtend(os, fs, plain, held, skipped, brought, chosen, c);
      all := ChooseAllFacts(os, fs, plain, held, skipped, slots[1..], brought + CopyKeys(os, fs, c), chosen + [c]);
      assert Owners(chosen + [c]) == Owners(chosen) + [p];
    }
  }

  lemma CandidatesOffRegex(fs: seq<Frontend>, plain: seq<nat>, p: nat)
    requires OffRegex(fs, plain) && p < |fs|
    ensures OffRegex(fs, Candidates(fs, plain, p))
  {
  }

  // ---- the best route for a key -------------------------------------------------------------------

  /** The frontends of one (listener, hostname), as collision resolution leaves them: one listener
      and hostname, in order, no two under one route key. */
  ghost predicate Group(os: Platform, fs: seq<Frontend>, members: seq<nat>) {
    && InGroup(fs, members)
    && (forall i, j :: 0 <= i < j < |members| ==> members[i] < members[j])
    && (forall i, j :: i in members && j in members && i != j ==> RouteKeyOf(os, fs[i]) != RouteKeyOf(os, fs[j]))
    && (forall i :: i in members ==> Keyable(fs[i]))
    && (forall i, j :: i in members && j in members ==> GroupOf(fs[i]) == GroupOf(fs[j]))
  }

  function GroupOf(f: Frontend): (bool, Listener, string) {
    (f.tls, f.listener, f.hostname)
  }

  lemma RuleIsPath(p: PathMatch, q: PathMatch)
    requires !p.Regex? && !q.Regex? && CompiledRule(p) == CompiledRule(q)
    ensures p.Exact? == q.Exact? && Spelled(p) == Spelled(q)
  {
    if CompiledRule(p).RegexRule? {
      RuleTextThen(p, []);
      RuleTextThen(q, []);
      var tp, tq := TailText(p)[1..] + [], TailText(q)[1..] + [];
      var ra, rb := Escaped(Spelled(p)) + ("(" + tp), Escaped(Spelled(q)) + ("(" + tq);
      assert ra == ("R^" + ra)[2..] && rb == ("R^" + rb)[2..];
      EscapedDecodes(Spelled(p), tp, Spelled(q), tq);
      assert EXACT_TAIL[3] == '\\' && PREFIX_TAIL[3] == '[';
      assert TailText(p)[1..] == tp && TailText(q)[1..] == tq;
      assert TailText(p)[3] == TailText(p)[1..][2] && TailText(q)[3] == TailText(q)[1..][2];
    }
  }

  lemma CopyKeyable(u: Frontend, p: Frontend)
    requires Keyable(u) && Keyable(p)
    ensures Keyable(LiftedCopy(u, p))
  {
  }

  /** Two plain routes filed under one key above header matches share path and listener, and are
      told apart by precedence unless they are one. */
  lemma SharedCopyKey(os: Platform, fs: seq<Frontend>, members: seq<nat>, u: nat, p: nat, v: nat, q: nat)
    requires Group(os, fs, members) && u in members && v in members && p in members && q in members
    requires fs[u].headers == [] && fs[v].headers == [] && !fs[u].path.Regex? && !fs[v].path.Regex?
    requires CopyKey(os, fs, u, p) == CopyKey(os, fs, v, q)
    ensures SameMatch(LiftedCopy(fs[u], fs[p]), LiftedCopy(fs[v], fs[q]))
    ensures fs[u].path.Exact? == fs[v].path.Exact? && Spelled(fs[u].path) == Spelled(fs[v].path)
    ensures fs[u].verb == fs[v].verb ==> u == v
    ensures u != v && AtLeast(fs[u], fs[v]) ==> GwPrecedence(fs[u], fs[v]).Greater?
  {
    hide RouteKeyOf, Canonical, CompiledRule;
    var a, b := LiftedCopy(fs[u], fs[p]), LiftedCopy(fs[v], fs[q]);
    CopyKeyable(fs[u], fs[p]);
    CopyKeyable(fs[v], fs[q]);
    assert GroupOf(fs[u]) == GroupOf(fs[v]);
    KeyIsMatch(os, a, b);
    RuleIsPath(fs[u].path, fs[v].path);
    if fs[u].verb == fs[v].verb {
      assert SameMatch(fs[u], fs[v]);
      SameMatchSameKey(os, fs[u], fs[v]);
    }
  }
}
