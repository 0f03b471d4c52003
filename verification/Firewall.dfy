/** The crate-dependency firewall: transitive reachability by a worklist, and the rule check. */
module Firewall {

  type Graph = map<string, set<string>>

  function Dependencies(g: Graph, n: string): set<string> {
    if n in g then g[n] else {}
  }

  /** A non-empty chain of dependencies: `p` lists its nodes from the start to the end. */
  ghost predicate IsPath(g: Graph, p: seq<string>, from: string, to: string) {
    && |p| >= 2 && p[0] == from && p[|p| - 1] == to
    && forall i | 0 <= i < |p| - 1 :: p[i + 1] in Dependencies(g, p[i])
  }

  ghost predicate Reaches(g: Graph, from: string, to: string) {
    exists p :: IsPath(g, p, from, to)
  }

  lemma EdgeReaches(g: Graph, from: string, to: string)
    requires to in Dependencies(g, from)
    ensures Reaches(g, from, to)
  {
    assert IsPath(g, [from, to], from, to);
  }

  lemma ReachesExtends(g: Graph, from: string, mid: string, to: string)
    requires Reaches(g, from, mid) && to in Dependencies(g, mid)
    ensures Reaches(g, from, to)
  {
    var p :| IsPath(g, p, from, mid);
    assert IsPath(g, p + [to], from, to);
  }

  /** A set that holds the direct dependencies of `from` and of its own members holds all that is
      reachable from `from`. */
  lemma {:induction false} ClosedContainsPath(g: Graph, s: set<string>, p: seq<string>, from: string, to: string)
    requires IsPath(g, p, from, to)
    requires Dependencies(g, from) <= s && forall n | n in s :: Dependencies(g, n) <= s
    ensures to in s
  {
    if |p| > 2 {
      var init := p[..|p| - 1];
      assert IsPath(g, init, from, init[|init| - 1]);
      ClosedContainsPath(g, s, init, from, init[|init| - 1]);
      assert p[|p| - 2 + 1] in Dependencies(g, p[|p| - 2]);
    } else {
      assert p[0 + 1] in Dependencies(g, p[0]);
    }
  }

  /** Every name that occurs as a dependency: what bounds the search. */
  ghost function Names(g: Graph): set<string> {
    set n, m | n in g && m in g[n] :: m
  }

  lemma DependenciesAreNames(g: Graph, n: string)
    ensures Dependencies(g, n) <= Names(g)
  {
  }

  /** Lists a set in some order. */
  method Listed(s: set<string>) returns (r: seq<string>)
    ensures forall x :: x in r <==> x in s
  {
    r := [];
    var left := s;
    while left != {}
      invariant left <= s && forall x :: x in r <==> x in s && x !in left
      decreases left
    {
      var x :| x in left;
      left := left - {x};
      r := r + [x];
    }
  }

  /** The crates joined to `start` by a non-empty chain of dependencies. Terminates on cyclic graphs, and
      includes `start` itself when it lies on a cycle. */
  method Reachable(g: Graph, start: string) returns (seen: set<string>)
    ensures forall n :: n in seen <==> Reaches(g, start, n)
  {
    seen := {};
    var stack := Listed(Dependencies(g, start));
    DependenciesAreNames(g, start);
    forall n | n in stack ensures Reaches(g, start, n) {
      EdgeReaches(g, start, n);
    }
    while stack != []
      invariant seen <= Names(g) && forall n | n in stack :: n in Names(g)
      invariant forall n | n in seen || n in stack :: Reaches(g, start, n)
      invariant forall n | n in Dependencies(g, start) :: n in seen || n in stack
      invariant forall m, n | m in seen && n in Dependencies(g, m) :: n in seen || n in stack
      decreases Names(g) - seen, |stack|
    {
      var node := stack[|stack| - 1];
      ghost var before := stack;
      stack := stack[..|stack| - 1];
      assert before == stack + [node];
      if node !in seen {
        assert Names(g) - (seen + {node}) < Names(g) - seen by {
          assert node in Names(g) - seen;
        }
        seen := seen + {node};
        var next := Listed(Dependencies(g, node));
        DependenciesAreNames(g, node);
        forall n | n in next ensures Reaches(g, start, n) {
          ReachesExtends(g, start, node, n);
        }
        stack := stack + next;
      }
    }
    forall n | Reaches(g, start, n) ensures n in seen {
      var p :| IsPath(g, p, start, n);
      ClosedContainsPath(g, seen, p, start, n);
    }
  }

  datatype FirewallRule = FirewallRule(upstream: string, forbidden: seq<string>)

  datatype Violation = Violation(upstream: string, forbidden: string)

  ghost predicate Breaches(g: Graph, rule: FirewallRule, v: Violation) {
    v.upstream == rule.upstream && v.forbidden in rule.forbidden && Reaches(g, rule.upstream, v.forbidden)
  }

  /** The breaches of the first `n` forbidden crates of a rule, in the order the rule lists them. */
  ghost function BreachesOf(g: Graph, rule: FirewallRule, n: nat): seq<Violation>
    requires n <= |rule.forbidden|
  {
    if n == 0 then []
    else
      BreachesOf(g, rule, n - 1)
        + if Reaches(g, rule.upstream, rule.forbidden[n - 1]) then [Violation(rule.upstream, rule.forbidden[n - 1])] else []
  }

  /** The breaches of the first `n` rules, rule by rule. */
  ghost function AllBreaches(g: Graph, rules: seq<FirewallRule>, n: nat): seq<Violation>
    requires n <= |rules|
  {
    if n == 0 then [] else AllBreaches(g, rules, n - 1) + BreachesOf(g, rules[n - 1], |rules[n - 1].forbidden|)
  }

  lemma {:induction false} BreachesOfIff(g: Graph, rule: FirewallRule, n: nat, v: Violation)
    requires n <= |rule.forbidden|
    ensures v in BreachesOf(g, rule, n) <==>
            v.upstream == rule.upstream && v.forbidden in rule.forbidden[..n] && Reaches(g, rule.upstream, v.forbidden)
  {
    if n > 0 {
      BreachesOfIff(g, rule, n - 1, v);
      assert rule.forbidden[..n] == rule.forbidden[..n - 1] + [rule.forbidden[n - 1]];
    }
  }

  lemma {:induction false} AllBreachesIff(g: Graph, rules: seq<FirewallRule>, n: nat, v: Violation)
    requires n <= |rules|
    ensures v in AllBreaches(g, rules, n) <==> exists i :: 0 <= i < n && Breaches(g, rules[i], v)
  {
    if n > 0 {
      AllBreachesIff(g, rules, n - 1, v);
      var rule := rules[n - 1];
      BreachesOfIff(g, rule, |rule.forbidden|, v);
      assert rule.forbidden[..|rule.forbidden|] == rule.forbidden;
    }
  }

  /** Every breach, direct or transitive, once for each listing, in listing order, and nothing else: empty
      exactly when the firewall holds. */
  method CheckFirewall(g: Graph, rules: seq<FirewallRule>) returns (violations: seq<Violation>)
    ensures violations == AllBreaches(g, rules, |rules|)
    ensures forall v :: v in violations <==> exists i :: 0 <= i < |rules| && Breaches(g, rules[i], v)
    ensures violations == [] <==>
              forall i, f | 0 <= i < |rules| && f in rules[i].forbidden :: !Reaches(g, rules[i].upstream, f)
  {
    violations := [];
    for i := 0 to |rules|
      invariant violations == AllBreaches(g, rules, i)
    {
      var rule := rules[i];
      var reach := Reachable(g, rule.upstream);
      for j := 0 to |rule.forbidden|
        invariant violations == AllBreaches(g, rules, i) + BreachesOf(g, rule, j)
      {
        if rule.forbidden[j] in reach {
          violations := violations + [Violation(rule.upstream, rule.forbidden[j])];
        }
      }
    }
    forall v ensures v in violations <==> exists i :: 0 <= i < |rules| && Breaches(g, rules[i], v) {
      AllBreachesIff(g, rules, |rules|, v);
    }
    assert violations != [] ==> violations[0] in violations;
    forall i, f | 0 <= i < |rules| && f in rules[i].forbidden && Reaches(g, rules[i].upstream, f)
      ensures violations != []
    {
      var v := Violation(rules[i].upstream, f);
      assert Breaches(g, rules[i], v) && v in violations;
    }
  }

  /** The start is among the crates it reaches exactly when it lies on a cycle. */
  lemma StartOnCycleIff(g: Graph, start: string)
    ensures Reaches(g, start, start) <==>
            exists next :: next in Dependencies(g, start) && (next == start || Reaches(g, next, start))
  {
    if Reaches(g, start, start) {
      var p :| IsPath(g, p, start, start);
      assert p[0 + 1] in Dependencies(g, p[0]);
      if p[1] != start {
        assert IsPath(g, p[1..], p[1], start);
      }
    }
    if next :| next in Dependencies(g, start) && (next == start || Reaches(g, next, start)) {
      StartOnCycle(g, start, next);
    }
  }

  lemma StartOnCycle(g: Graph, start: string, next: string)
    requires next in Dependencies(g, start) && (next == start || Reaches(g, next, start))
    ensures Reaches(g, start, start)
  {
    EdgeReaches(g, start, next);
    if next != start {
      var p :| IsPath(g, p, next, start);
      var q := [start] + p;
      forall i | 0 <= i < |q| - 1 ensures q[i + 1] in Dependencies(g, q[i]) {
        assert i > 0 ==> q[i] == p[i - 1] && q[i + 1] == p[i - 1 + 1];
      }
      assert IsPath(g, q, start, start);
    }
  }

  /** A crate that lists itself as a dependency is reported as reachable from itself. */
  lemma StartCanBeReached()
    ensures Reaches(map["a" := {"a"}], "a", "a")
  {
    EdgeReaches(map["a" := {"a"}], "a", "a");
  }

  /** Adding dependencies can only add violations: a graph with fewer edges reaches less. */
  lemma FewerEdgesReachLess(g: Graph, bigger: Graph, from: string, to: string)
    requires forall n :: Dependencies(g, n) <= Dependencies(bigger, n)
    requires Reaches(g, from, to)
    ensures Reaches(bigger, from, to)
  {
    var p :| IsPath(g, p, from, to);
    assert IsPath(bigger, p, from, to);
  }
}
