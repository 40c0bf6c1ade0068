/** A header match whose path spells a query string: the one kind of build in which planning changes what a request
    of no header match is served with. */
module Queries {
  import opened Base
  import opened Paths
  import opened Frontends
  import opened RouteKeys
  import opened Sozu
  import opened Tier
  import opened Admissions
  import opened Planner
  import opened Choices
  import opened Precedence
  import opened Planning
  import opened Lifting
  import opened Programmed
  import opened Routing
  import opened SmallPlans

  const CONDITION := HeaderMatch("x", ExactValue("1"))

  const GROUP: GroupKey := (false, Listener("0.0.0.0:80", 0), "a.example")

  function At(path: PathMatch, verb: Option<string>, cluster: string, headers: seq<HeaderMatch>): Frontend {
    Frontend(GROUP.2, path, verb, Some(cluster), GROUP.0, GROUP.1, "", headers)
  }

  /** Plain GET routes on a prefix and on an Exact path, and a header match on that path with a query. */
  function Spelling(): seq<Frontend> {
    [At(Prefix("/a"), Some("GET"), "D", []), At(Exact("/a"), Some("GET"), "A", []),
     At(Prefix("/a?b"), None, "B", [CONDITION])]
  }

  function Copy(): Frontend {
    At(Exact("/a"), Some("GET"), "A", [CONDITION])
  }

  const REQUEST := Request("/a", "GET", map["x" := "1"])

  lemma Bodies()
    ensures PrefixBody("/a") == "/a" && PrefixBody("/a?b") == "/a?b"
    ensures CompiledRule(Prefix("/a")).RegexRule? && CompiledRule(Prefix("/a?b")).RegexRule?
        && CompiledRule(Exact("/a")).RegexRule?
  {
  }

  lemma SpellingMembers()
    ensures MembersOf(Spelling(), GROUP) == [0, 1, 2] && GroupsOf(Spelling()) == {GROUP}
    ensures |Spelling()| == 3 && forall f :: f in Spelling() || f == Copy() ==> GroupOf(f) == GROUP
  {
    var fs := Spelling();
    assert GroupOf(fs[0]) == GroupOf(fs[1]) == GroupOf(fs[2]) == GroupOf(Copy()) == GROUP;
    assert MembersUpTo(fs, GROUP, 0) == [];
    MembersStep(fs, GROUP, 0);
    MembersStep(fs, GROUP, 1);
    MembersStep(fs, GROUP, 2);
    hide MembersUpTo, At;
    assert [] + [0] + [1] + [2] == [0, 1, 2];
    assert GroupsOf(fs) == {GroupOf(fs[0]), GroupOf(fs[1]), GroupOf(fs[2])};
  }

  lemma FilterThree(f: nat -> bool)
    ensures Filter(f, [0, 1, 2]) ==
            (if f(0) then [0] else []) + (if f(1) then [1] else []) + (if f(2) then [2] else [])
  {
    FilterOne(f, 0);
    FilterOne(f, 1);
    FilterOne(f, 2);
    hide Filter;
    FilterAppend(f, [0], [1]);
    FilterAppend(f, [0] + [1], [2]);
    assert [0] + [1] + [2] == [0, 1, 2];
  }

  lemma SpellingSplit(fs: seq<Frontend>)
    requires |fs| == 3 && fs[0].headers == [] && fs[1].headers == [] && fs[2].headers != []
    requires !fs[0].path.Regex? && !fs[1].path.Regex?
    ensures HeaderMatches(fs, [0, 1, 2]) == [2] && PlainRoutes(fs, [0, 1, 2]) == [0, 1]
  {
    var header := (p: nat) => p < |fs| && fs[p].headers != [];
    var plain := (u: nat) => u < |fs| && fs[u].headers == [] && !fs[u].path.Regex?;
    FilterThree(header);
    FilterThree(plain);
    hide Filter;
    assert [0] + [1] + [] == [0, 1] && [] + [] + [2] == [2];
  }

  lemma SpellingMeets()
    ensures PathsMeet(Exact("/a"), Prefix("/a?b")) && ExtendsQuery(Exact("/a"), Prefix("/a?b"))
  {
    Bodies();
    assert "/a" <= "/a?b" && "/a?b"[2] == '?';
  }

  lemma SpellingRanks()
    ensures Outranks(Spelling()[1], Spelling()[2]) && !Outranks(Spelling()[0], Spelling()[2])
    ensures LiftedCopy(Spelling()[1], Spelling()[2]) == Copy()
  {
    Bodies();
    SpellingMeets();
    hide PathsMeet;
  }

  lemma SpellingSettled(os: Platform)
    ensures var fs := Spelling();
            && Conflict(os, fs, CopyEntry(fs, 1, 2), HeaderEntry(fs, 2)).None?
            && Conflict(os, fs, HeaderEntry(fs, 2), CopyEntry(fs, 1, 2)).None?
  {
    Bodies();
    hide PathsMeet, CompiledRule, CanMeet;
    var fs := Spelling();
    assert OfferOf(CopyEntry(fs, 1, 2).rule) == RegexWithMethod && !OfferOf(fs[2]).RegexWithMethod?;
    assert GwPrecedence(fs[2], fs[1]).Less?;
  }

  lemma SpellingCandidates()
    ensures Candidates(Spelling(), [0, 1], 2) == [1]
  {
    SpellingRanks();
    var fs := Spelling();
    assert !fs[2].path.Regex? && |fs| == 3;
    hide Outranks, Spelling;
    var above := (u: nat) => u < |fs| && Outranks(fs[u], fs[2]);
    FilterOne(above, 0);
    FilterOne(above, 1);
    FilterAppend(above, [0], [1]);
    assert [0] + [1] == [0, 1] && [] + [1] == [1];
  }

  lemma SpellingRules()
    ensures CompiledRule(Prefix("/a")) != CompiledRule(Exact("/a"))
    ensures CompiledRule(Prefix("/a?b")) != CompiledRule(Exact("/a"))
    ensures CompiledRule(Prefix("/a?b")) != CompiledRule(Prefix("/a"))
  {
    if CompiledRule(Prefix("/a")) == CompiledRule(Exact("/a")) {
      RuleIsPath(Prefix("/a"), Exact("/a"));
    }
    if CompiledRule(Prefix("/a?b")) == CompiledRule(Exact("/a")) {
      RuleIsPath(Prefix("/a?b"), Exact("/a"));
    }
    if CompiledRule(Prefix("/a?b")) == CompiledRule(Prefix("/a")) {
      Bodies();
      RuleIsPath(Prefix("/a?b"), Prefix("/a"));
    }
  }

  ghost predicate OfSpelling(path: PathMatch, verb: Option<string>, headers: seq<HeaderMatch>) {
    && path in {Exact("/a"), Prefix("/a"), Prefix("/a?b")} && verb in {None, Some("GET")}
    && headers in {[], [CONDITION]}
  }

  lemma AtKeys(os: Platform, p: PathMatch, v: Option<string>, c: string, a: seq<HeaderMatch>,
               q: PathMatch, w: Option<string>, d: string, b: seq<HeaderMatch>)
    requires OfSpelling(p, v, a) && OfSpelling(q, w, b)
    ensures RouteKeyOf(os, At(p, v, c, a)) == RouteKeyOf(os, At(q, w, d, b)) <==> p == q && v == w && a == b
    ensures Keyable(At(p, v, c, a)) && Keyable(At(q, w, d, b))
  {
    SpellingRules();
    CanonicalEmpty(a);
    CanonicalEmpty(b);
    hide RouteKeyOf, CompiledRule, Canonical;
    KeyIsMatch(os, At(p, v, c, a), At(q, w, d, b));
  }

  lemma SpellingKeys(os: Platform)
    ensures Resolved(os, Spelling())
    ensures forall f :: f in Spelling() ==> RouteKeyOf(os, f) != RouteKeyOf(os, Copy())
  {
    hide RouteKeyOf, Keyable, At;
    var get := Some("GET");
    AtKeys(os, Prefix("/a"), get, "D", [], Exact("/a"), get, "A", []);
    AtKeys(os, Prefix("/a"), get, "D", [], Prefix("/a?b"), None, "B", [CONDITION]);
    AtKeys(os, Exact("/a"), get, "A", [], Prefix("/a?b"), None, "B", [CONDITION]);
    AtKeys(os, Prefix("/a"), get, "D", [], Exact("/a"), get, "A", [CONDITION]);
    AtKeys(os, Exact("/a"), get, "A", [], Exact("/a"), get, "A", [CONDITION]);
    AtKeys(os, Prefix("/a?b"), None, "B", [CONDITION], Exact("/a"), get, "A", [CONDITION]);
  }

  lemma SpellingPlan(os: Platform)
    ensures IsPlan(os, Spelling(), MembersOf(Spelling(), GROUP), [], [Chosen(2, [1])])
  {
    hide RouteKeyOf, HeaderMatches, PlainRoutes, HeldBy, Conflict, MembersOf, IsPlan, LiftedCopy, Resolved, Candidates;
    var fs := Spelling();
    SpellingMembers();
    SpellingSplit(fs);
    SpellingKeys(os);
    SpellingRanks();
    SpellingSettled(os);
    SpellingCandidates();
    HeldInGroup(os, fs, [0, 1, 2]);
    assert CopyKey(os, fs, 1, 2) !in HeldBy(os, fs, [0, 1, 2]);
    assert Lone(os, fs, [0, 1, 2], 2, [0, 1], [1]);
    LonePlan(os, fs, [0, 1, 2], 2, [0, 1], [1]);
  }

  lemma SpellingMatch(os: Platform)
    ensures var fs := Spelling();
            Matches(os, fs[0], REQUEST) && Matches(os, fs[1], REQUEST) && !Matches(os, fs[2], REQUEST)
    ensures Matches(os, Copy(), REQUEST)
  {
    Bodies();
    ExactRule(os, "/a", "/a");
    PrefixRule(os, "/a", "/a");
    PrefixRule(os, "/a?b", "/a");
    hide PathMatches;
    assert Lower("x") == "x";
    assert HeaderHolds(os, CONDITION, REQUEST);
  }

  lemma SpellingServes(os: Platform)
    ensures Serves(os, GROUP.2, Spelling() + [Copy()], REQUEST) == Some(Copy())
    ensures Serves(os, GROUP.2, Spelling()[..2], REQUEST) == Some(Spelling()[0])
  {
    SpellingMatch(os);
    Bodies();
    hide Matches, CompiledRule;
    var fs, copy, q := Spelling(), Copy(), REQUEST;
    var all, plain := fs + [copy], fs[..2];
    assert all[1..] == [fs[1], fs[2], copy] && [fs[1], fs[2], copy][1..] == [fs[2], copy];
    assert [fs[2], copy][1..] == [copy] && [copy][1..] == [] && plain[1..] == [fs[1]] && [fs[1]][1..] == [];
    assert TreeSelect(os, true, all, q, NOTHING) == TreeSelect(os, true, [fs[1], fs[2], copy], q, NOTHING);
    assert TreeSelect(os, true, [fs[1], fs[2], copy], q, NOTHING) == TreeSelect(os, true, [fs[2], copy], q, NOTHING);
    assert TreeSelect(os, true, [fs[2], copy], q, NOTHING) == TreeSelect(os, true, [copy], q, NOTHING);
    assert TreeSelect(os, true, [copy], q, NOTHING) == Selection(0, Some(copy), true);
    assert TreeSelect(os, true, plain, q, NOTHING) == TreeSelect(os, true, [fs[1]], q, NOTHING);
    assert TreeSelect(os, true, [fs[1]], q, NOTHING) == NOTHING;
    var first := Selection(0, Some(fs[0]), true);
    assert TreeSelect(os, false, plain, q, NOTHING) == TreeSelect(os, false, [fs[1]], q, first);
    assert TreeSelect(os, false, [fs[1]], q, first) == first;
  }

  /** However this input is planned, everything is kept and one copy is added; and a request the header match does
      not take, on which every plain route is as before, goes to the copy's backend instead of theirs. */
  lemma CopyTakesMore(os: Platform, kept: seq<Frontend>, copies: seq<(int, Frontend)>, skips: seq<Skip>,
                      plans: map<GroupKey, Plan>) returns (held: seq<Frontend>)
    requires Lifted(os, Spelling(), kept, copies, skips, plans)
    ensures Resolved(os, Spelling()) && Unzoned(Spelling()) && kept == Spelling()
    ensures forall f :: f in kept && f.headers != [] ==> !Matches(os, f, REQUEST)
    ensures LfFree(REQUEST.target) && "/" <= REQUEST.target
        && !NoQueryExtension(Spelling(), MembersOf(Spelling(), GROUP))
    ensures Leaf(kept, copies, LeafOf(GROUP), held)
    ensures var alone := Serves(os, GROUP.2, Filter(IsPlain, held), REQUEST);
            var served := Serves(os, GROUP.2, held, REQUEST);
            alone.Some? && served.Some? && !SameEffect(alone.value, served.value)
  {
    hide Lifted, RouteKeyOf, Matches, Serves, Resolved, Spelling, Copy, SameEffect, Leaf, NoQueryExtension, Unzoned,
        MembersOf,
      Filter, LeafOf, LfFree;
    SpellingShape();
    SpellingKeys(os);
    SpellingExtends();
    SpellingLifted(os, kept, copies, skips, plans);
    held := Spelling() + [Copy()];
    SpellingLeaf(kept, copies);
    SpellingUntaken(os);
    SpellingDiffers(os);
  }

  lemma SpellingUntaken(os: Platform)
    ensures forall f :: f in Spelling() && f.headers != [] ==> !Matches(os, f, REQUEST)
    ensures LfFree(REQUEST.target) && "/" <= REQUEST.target
  {
    SpellingMatch(os);
    SpellingShape();
    hide Matches, Spelling;
  }

  lemma SpellingDiffers(os: Platform)
    ensures var held := Spelling() + [Copy()];
            var alone := Serves(os, GROUP.2, Filter(IsPlain, held), REQUEST);
            var served := Serves(os, GROUP.2, held, REQUEST);
            alone.Some? && served.Some? && !SameEffect(alone.value, served.value)
  {
    SpellingServes(os);
    SpellingShape();
    hide Serves, Spelling, Copy, SameEffect;
    var held := Spelling() + [Copy()];
    PlainOfFour(held);
    assert Spelling()[..2] == [held[0], held[1]];
  }

  lemma SpellingShape()
    ensures |Spelling()| == 3 && Unzoned(Spelling()) && !SameEffect(Spelling()[0], Copy()) && Copy().headers != []
    ensures Spelling()[0].headers == [] && Spelling()[1].headers == [] && Spelling()[2].headers != []
  {
  }

  lemma SpellingExtends()
    ensures !NoQueryExtension(Spelling(), MembersOf(Spelling(), GROUP))
  {
    SpellingMeets();
    SpellingMembers();
    hide ExtendsQuery, MembersOf;
    var fs := Spelling();
    assert ExtendsQuery(fs[1].path, fs[2].path);
    assert 1 in MembersOf(fs, GROUP) && 2 in MembersOf(fs, GROUP);
  }

  lemma SpellingLeaf(kept: seq<Frontend>, copies: seq<(int, Frontend)>)
    requires kept == Spelling() && forall c :: c in copies <==> c == (2, Copy())
    ensures Leaf(kept, copies, LeafOf(GROUP), Spelling() + [Copy()])
  {
    hide Spelling, Copy, GroupOf, LeafOf;
    SpellingMembers();
    OneCopyLeaf(kept, copies, 2, Copy(), LeafOf(GROUP));
  }

  lemma OneCopyLeaf(kept: seq<Frontend>, copies: seq<(int, Frontend)>, owner: int, copy: Frontend, leaf: LeafKey)
    requires forall f :: f in kept ==> LeafOf(GroupOf(f)) == leaf
    requires LeafOf(GroupOf(copy)) == leaf && forall c :: c in copies <==> c == (owner, copy)
    ensures Leaf(kept, copies, leaf, kept + [copy])
  {
    hide GroupOf, LeafOf;
    assert (owner, copy) in copies;
    assert forall f :: f in kept + [copy] <==> f in kept || f == copy;
  }

  lemma PlainOfFour(held: seq<Frontend>)
    requires |held| == 4 && held[0].headers == [] && held[1].headers == [] && held[2].headers != []
        && held[3].headers != []
    ensures Filter(IsPlain, held) == [held[0], held[1]]
  {
    assert held == [held[0]] + [held[1]] + [held[2]] + [held[3]];
    FilterOne(IsPlain, held[0]);
    FilterOne(IsPlain, held[1]);
    FilterOne(IsPlain, held[2]);
    FilterOne(IsPlain, held[3]);
    hide Filter;
    FilterAppend(IsPlain, [held[0]] + [held[1]] + [held[2]], [held[3]]);
    FilterAppend(IsPlain, [held[0]] + [held[1]], [held[2]]);
    FilterAppend(IsPlain, [held[0]], [held[1]]);
  }

  lemma SpellingLifted(os: Platform, kept: seq<Frontend>, copies: seq<(int, Frontend)>, skips: seq<Skip>,
                       plans: map<GroupKey, Plan>)
    requires Lifted(os, Spelling(), kept, copies, skips, plans)
    ensures kept == Spelling() && forall c :: c in copies <==> c == (2, Copy())
  {
    hide Lifted, IsPlan, MembersOf, Spelling, Copy, GroupsOf, GroupOf, CopiesOfPlans, CopiesIn, KeptFrontends,
        LiftedCopy;
    var fs := Spelling();
    SpellingMembers();
    SpellingRanks();
    SpellingPlan(os);
    PlanOf(os, fs, kept, copies, skips, plans, GROUP);
    PlanDetermined(os, fs, MembersOf(fs, GROUP), plans[GROUP], Plan([], [Chosen(2, [1])]));
    KeptAre(os, fs, kept, copies, skips, plans);
    forall i: nat | i < |fs| ensures i !in Indices(skips) {
      assert fs[i] in fs;
      SkippedInGroup(os, fs, kept, copies, skips, plans, i);
    }
    KeepsAll(fs, Indices(skips));
    SpellingBrought(os, kept, copies, skips, plans);
  }

  lemma SpellingBrought(os: Platform, kept: seq<Frontend>, copies: seq<(int, Frontend)>, skips: seq<Skip>,
                        plans: map<GroupKey, Plan>)
    requires Lifted(os, Spelling(), kept, copies, skips, plans) && GROUP in plans
    requires plans[GROUP] == Plan([], [Chosen(2, [1])])
    ensures forall c :: c in copies <==> c == (2, Copy())
  {
    hide Lifted, Spelling, Copy, GroupsOf, GroupOf, CopiesIn;
    SpellingMembers();
    SpellingIn(plans);
    OneCopyListed(os, Spelling(), kept, copies, skips, plans, GROUP, (2, Copy()));
  }

  lemma OneCopyListed(os: Platform, fs: seq<Frontend>, kept: seq<Frontend>, copies: seq<(int, Frontend)>,
                      skips: seq<Skip>, plans: map<GroupKey, Plan>, g: GroupKey, one: (int, Frontend))
    requires Lifted(os, fs, kept, copies, skips, plans) && GroupsOf(fs) == {g} && GroupOf(one.1) == g
    requires CopiesIn(fs, plans, g) == [one]
    ensures forall c :: c in copies <==> c == one
  {
    hide Lifted, GroupsOf, GroupOf, CopiesIn, CopiesOfPlans, TierOf, IsPlan;
    PlanOf(os, fs, kept, copies, skips, plans, g);
    forall c ensures c in copies <==> c == one {
      CopiesHold(fs, plans, copies, c);
      if c in copies {
        var k, e := CopyOrigin(os, fs, kept, copies, skips, plans, c);
      }
    }
  }

  lemma SpellingIn(plans: map<GroupKey, Plan>)
    requires GROUP in plans && plans[GROUP] == Plan([], [Chosen(2, [1])])
    ensures CopiesIn(Spelling(), plans, GROUP) == [(2, Copy())]
  {
    SpellingRanks();
    SpellingShape();
    hide Spelling, Copy, LiftedCopy, TierOf, Brought;
    LoneBrought(Spelling(), 2, [1]);
  }
}
