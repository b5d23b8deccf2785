/** The depth-first search that refuses cyclic or too deeply nested tool dependencies. */
module Dependencies {
  import opened Common

  type Name = Id

  /** Required tools of each configured tool; any other known tool requires nothing. */
  type Graph = map<Name, seq<Name>>

  const MAX_DEPTH := 32

  function Requires(g: Graph, name: Name): seq<Name> { if name in g then g[name] else [] }

  /** The search from one tool, as a function of what is open and what is done; None is a refusal. */
  function Visit(g: Graph, name: Name, depth: nat, visiting: set<Name>, visited: set<Name>): Option<set<Name>>
    decreases if depth > MAX_DEPTH then 0 else MAX_DEPTH + 1 - depth, 0
  {
    if name in visiting || depth > MAX_DEPTH then None
    else if name in visited then Some(visited)
    else
      match VisitAll(g, Requires(g, name), depth + 1, visiting + {name}, visited)
      case None => None
      case Some(done) => Some(done + {name})
  }

  function VisitAll(g: Graph, names: seq<Name>, depth: nat, visiting: set<Name>, visited: set<Name>): Option<set<Name>>
    decreases if depth > MAX_DEPTH then 0 else MAX_DEPTH + 1 - depth, |names| + 1
  {
    if names == [] then Some(visited)
    else
      match VisitAll(g, names[..|names| - 1], depth, visiting, visited)
      case None => None
      case Some(done) => Visit(g, names[|names| - 1], depth, visiting, done)
  }

  /** Validation visits the configured tools in some order. */
  predicate Accepts(g: Graph, roots: seq<Name>) {
    VisitAll(g, roots, 0, {}, {}).Some?
  }

  /** The search as it runs, with its two maps updated in place. */
  class Resolver {
    const graph: Graph
    var visiting: set<Name>
    var visited: set<Name>

    constructor (g: Graph)
      ensures graph == g && visiting == {} && visited == {}
    {
      graph := g;
      visiting, visited := {}, {};
    }

    method VisitTool(name: Name, depth: nat) returns (ok: bool)
      modifies this
      ensures ok <==> Visit(graph, name, depth, old(visiting), old(visited)).Some?
      ensures ok ==> visiting == old(visiting) && visited == Visit(graph, name, depth, old(visiting), old(visited)).value
      decreases if depth > MAX_DEPTH then 0 else MAX_DEPTH + 1 - depth
    {
      if name in visiting || depth > MAX_DEPTH {
        return false;
      }
      if name in visited {
        return true;
      }
      ghost var open, done := visiting, visited;
      visiting := visiting + {name};
      var required := Requires(graph, name);
      var i := 0;
      while i < |required|
        invariant 0 <= i <= |required| && visiting == open + {name}
        invariant VisitAll(graph, required[..i], depth + 1, open + {name}, done) == Some(visited)
      {
        assert required[..i + 1][..i] == required[..i];
        var one := VisitTool(required[i], depth + 1);
        if !one {
          RefusalPropagates(graph, required, i + 1, depth + 1, open + {name}, done);
          return false;
        }
        i := i + 1;
      }
      assert required[..|required|] == required;
      visiting := visiting - {name};
      visited := visited + {name};
      return true;
    }

    /** Validates all tools in the given iteration order. */
    method Validate(roots: seq<Name>) returns (ok: bool)
      requires visiting == {} && visited == {}
      modifies this
      ensures ok <==> Accepts(graph, roots)
      ensures ok ==> Acyclic(graph, roots)
    {
      var i := 0;
      while i < |roots|
        invariant 0 <= i <= |roots| && visiting == {}
        invariant VisitAll(graph, roots[..i], 0, {}, {}) == Some(visited)
      {
        assert roots[..i + 1][..i] == roots[..i];
        var one := VisitTool(roots[i], 0);
        if !one {
          RefusalPropagates(graph, roots, i + 1, 0, {}, {});
          return false;
        }
        i := i + 1;
      }
      assert roots[..|roots|] == roots;
      AcceptedIsAcyclic(graph, roots);
      return true;
    }
  }

  lemma {:induction false} RefusalPropagates(g: Graph, names: seq<Name>, i: nat, depth: nat, visiting: set<Name>, visited: set<Name>)
    requires i <= |names| && VisitAll(g, names[..i], depth, visiting, visited).None?
    ensures VisitAll(g, names, depth, visiting, visited).None?
    decreases |names|
  {
    if i == |names| {
      assert names[..i] == names;
    } else {
      assert names[..|names| - 1][..i] == names[..i];
      RefusalPropagates(g, names[..|names| - 1], i, depth, visiting, visited);
    }
  }

  // ----- what acceptance means -----

  ghost predicate Path(g: Graph, p: seq<Name>) {
    p != [] && forall i :: 0 <= i < |p| - 1 ==> p[i + 1] in Requires(g, p[i])
  }

  ghost predicate Simple(p: seq<Name>) {
    forall i, j :: 0 <= i < j < |p| ==> p[i] != p[j]
  }

  /** No chain of requirements from a configured tool repeats a tool. */
  ghost predicate Acyclic(g: Graph, roots: seq<Name>) {
    forall p :: Path(g, p) && p[0] in roots ==> Simple(p)
  }

  ghost predicate ClosedSet(g: Graph, done: set<Name>) {
    forall n, k :: n in done && k in Requires(g, n) ==> k in done
  }

  /** Everything a done tool requires is done, and no chain of requirements repeats a tool. */
  ghost predicate Sound(g: Graph, done: set<Name>) {
    ClosedSet(g, done) && forall p :: Path(g, p) && p[0] in done ==> Simple(p)
  }

  lemma {:induction false} StaysInside(g: Graph, done: set<Name>, p: seq<Name>, i: nat)
    requires ClosedSet(g, done) && Path(g, p) && p[0] in done && i < |p|
    ensures p[i] in done
  {
    if i > 0 {
      StaysInside(g, done, p, i - 1);
    }
  }

  lemma SoundGrows(g: Graph, done: set<Name>, name: Name)
    requires Sound(g, done) && name !in done && forall k :: k in Requires(g, name) ==> k in done
    ensures Sound(g, done + {name})
  {
    forall p | Path(g, p) && p[0] in done + {name} ensures Simple(p) {
      if p[0] in done {
      } else if |p| > 1 {
        var tail := p[1..];
        assert p[1] in Requires(g, p[0]);
        assert Path(g, tail) && tail[0] in done;
        assert Simple(tail);
        forall j | 1 <= j < |p| ensures p[j] != p[0] {
          StaysInside(g, done, tail, j - 1);
        }
        forall i, j | 0 <= i < j < |p| ensures p[i] != p[j] {
          if i > 0 { assert tail[i - 1] != tail[j - 1]; }
        }
      }
    }
  }

  lemma {:induction false} VisitSound(g: Graph, name: Name, depth: nat, visiting: set<Name>, visited: set<Name>)
    requires Sound(g, visited) && visiting !! visited && Visit(g, name, depth, visiting, visited).Some?
    ensures var done := Visit(g, name, depth, visiting, visited).value;
            Sound(g, done) && visiting !! done && visited <= done && name in done
    decreases if depth > MAX_DEPTH then 0 else MAX_DEPTH + 1 - depth, 0
  {
    if name !in visited {
      VisitAllSound(g, Requires(g, name), depth + 1, visiting + {name}, visited);
      SoundGrows(g, VisitAll(g, Requires(g, name), depth + 1, visiting + {name}, visited).value, name);
    }
  }

  lemma {:induction false} VisitAllSound(g: Graph, names: seq<Name>, depth: nat, visiting: set<Name>, visited: set<Name>)
    requires Sound(g, visited) && visiting !! visited && VisitAll(g, names, depth, visiting, visited).Some?
    ensures var done := VisitAll(g, names, depth, visiting, visited).value;
            Sound(g, done) && visiting !! done && visited <= done && forall k :: k in names ==> k in done
    decreases if depth > MAX_DEPTH then 0 else MAX_DEPTH + 1 - depth, |names| + 1
  {
    if names != [] {
      var init := names[..|names| - 1];
      VisitAllSound(g, init, depth, visiting, visited);
      VisitSound(g, names[|names| - 1], depth, visiting, VisitAll(g, init, depth, visiting, visited).value);
    }
  }

  /** Acceptance means that everything reachable from the configured tools is free of cycles. */
  lemma AcceptedIsAcyclic(g: Graph, roots: seq<Name>)
    requires Accepts(g, roots)
    ensures Acyclic(g, roots)
  {
    VisitAllSound(g, roots, 0, {}, {});
  }

  // ----- what is accepted -----

  /** No chain of requirements from a configured tool repeats a tool or has more than 32 links. */
  ghost predicate Shallow(g: Graph, roots: seq<Name>) {
    forall p :: Path(g, p) && p[0] in roots ==> Simple(p) && |p| - 1 <= 32
  }

  lemma ElementsAppend(q: seq<Name>, x: Name)
    ensures Elements(q + [x]) == Elements(q) + {x}
  {
    var p := q + [x];
    assert forall i :: 0 <= i < |q| ==> p[i] == q[i];
    assert p[|q|] == x;
  }

  lemma PathAppend(g: Graph, p: seq<Name>, x: Name)
    requires Path(g, p) && x in Requires(g, p[|p| - 1])
    ensures Path(g, p + [x])
  {
    var q := p + [x];
    forall i | 0 <= i < |q| - 1 ensures q[i + 1] in Requires(g, q[i]) {
      if i < |p| - 1 { assert p[i + 1] in Requires(g, p[i]); }
    }
  }

  lemma {:induction false} VisitSucceeds(g: Graph, roots: seq<Name>, q: seq<Name>, name: Name, visited: set<Name>)
    requires Shallow(g, roots) && Path(g, q + [name]) && (q + [name])[0] in roots
    ensures Visit(g, name, |q|, Elements(q), visited).Some?
    decreases MAX_DEPTH + 1 - |q|, 0
  {
    var p := q + [name];
    assert Simple(p) && |q| <= MAX_DEPTH;
    assert name !in Elements(q) by {
      forall i | 0 <= i < |q| ensures q[i] != name { assert p[i] != p[|q|]; }
    }
    if name !in visited {
      ElementsAppend(q, name);
      RequirementsSucceed(g, roots, p, Requires(g, name), visited);
    }
  }

  lemma {:induction false} RequirementsSucceed(g: Graph, roots: seq<Name>, p: seq<Name>, names: seq<Name>, visited: set<Name>)
    requires Shallow(g, roots) && Path(g, p) && p[0] in roots
    requires forall k :: k in names ==> k in Requires(g, p[|p| - 1])
    ensures VisitAll(g, names, |p|, Elements(p), visited).Some?
    decreases MAX_DEPTH + 1 - |p|, |names| + 1
  {
    if names != [] {
      var init, last := names[..|names| - 1], names[|names| - 1];
      forall k | k in init ensures k in Requires(g, p[|p| - 1]) { assert k in names; }
      assert last in names;
      RequirementsSucceed(g, roots, p, init, visited);
      PathAppend(g, p, last);
      VisitSucceeds(g, roots, p, last, VisitAll(g, init, |p|, Elements(p), visited).value);
    }
  }

  lemma {:induction false} RootsSucceed(g: Graph, roots: seq<Name>, names: seq<Name>)
    requires Shallow(g, roots) && forall k :: k in names ==> k in roots
    ensures Accepts(g, names)
  {
    if names != [] {
      var init, last := names[..|names| - 1], names[|names| - 1];
      assert names == init + [last];
      RootsSucceed(g, roots, init);
      assert Path(g, [] + [last]) && Elements([]) == {};
      VisitSucceeds(g, roots, [], last, VisitAll(g, init, 0, {}, {}).value);
    }
  }

  /** When no simple chain has more than 32 links, validation accepts exactly the acyclic graphs, in
      whatever order the tools are visited. */
  lemma AcceptsExactlyAcyclic(g: Graph, roots: seq<Name>)
    requires forall p :: Path(g, p) && p[0] in roots && Simple(p) ==> |p| - 1 <= 32
    ensures Accepts(g, roots) <==> Acyclic(g, roots)
  {
    if Accepts(g, roots) {
      AcceptedIsAcyclic(g, roots);
    }
    if Acyclic(g, roots) {
      assert Shallow(g, roots);
      RootsSucceed(g, roots, roots);
    }
  }

  // ----- when the order matters -----

  /** A search that starts from closed ground stays on it. */
  lemma {:induction false} VisitWithin(g: Graph, name: Name, depth: nat, visiting: set<Name>, visited: set<Name>, more: set<Name>)
    requires visited <= more && ClosedSet(g, more) && name in more && Visit(g, name, depth, visiting, visited).Some?
    ensures Visit(g, name, depth, visiting, visited).value <= more
    decreases if depth > MAX_DEPTH then 0 else MAX_DEPTH + 1 - depth, 0
  {
    if name !in visited {
      VisitAllWithin(g, Requires(g, name), depth + 1, visiting + {name}, visited, more);
    }
  }

  lemma {:induction false} VisitAllWithin(g: Graph, names: seq<Name>, depth: nat, visiting: set<Name>, visited: set<Name>, more: set<Name>)
    requires visited <= more && ClosedSet(g, more) && (forall k :: k in names ==> k in more)
    requires VisitAll(g, names, depth, visiting, visited).Some?
    ensures VisitAll(g, names, depth, visiting, visited).value <= more
    decreases if depth > MAX_DEPTH then 0 else MAX_DEPTH + 1 - depth, |names| + 1
  {
    if names != [] {
      var init := names[..|names| - 1];
      VisitAllWithin(g, init, depth, visiting, visited, more);
      VisitWithin(g, names[|names| - 1], depth, visiting, VisitAll(g, init, depth, visiting, visited).value, more);
    }
  }

  /** What was done before only helps: a search that succeeds succeeds when more is done already. */
  lemma {:induction false} VisitMonotone(g: Graph, name: Name, depth: nat, visiting: set<Name>, visited: set<Name>, more: set<Name>)
    requires visited <= more && Sound(g, more) && visiting !! more && Visit(g, name, depth, visiting, visited).Some?
    ensures Visit(g, name, depth, visiting, more).Some?
    ensures Visit(g, name, depth, visiting, visited).value <= Visit(g, name, depth, visiting, more).value
    decreases if depth > MAX_DEPTH then 0 else MAX_DEPTH + 1 - depth, 0
  {
    if name in more {
      VisitWithin(g, name, depth, visiting, visited, more);
    } else {
      VisitAllMonotone(g, Requires(g, name), depth + 1, visiting + {name}, visited, more);
    }
  }

  lemma {:induction false} VisitAllMonotone(g: Graph, names: seq<Name>, depth: nat, visiting: set<Name>, visited: set<Name>, more: set<Name>)
    requires visited <= more && Sound(g, more) && visiting !! more && VisitAll(g, names, depth, visiting, visited).Some?
    ensures VisitAll(g, names, depth, visiting, more).Some?
    ensures VisitAll(g, names, depth, visiting, visited).value <= VisitAll(g, names, depth, visiting, more).value
    decreases if depth > MAX_DEPTH then 0 else MAX_DEPTH + 1 - depth, |names| + 1
  {
    if names != [] {
      var init := names[..|names| - 1];
      VisitAllMonotone(g, init, depth, visiting, visited, more);
      VisitAllSound(g, init, depth, visiting, more);
      VisitMonotone(g, names[|names| - 1], depth, visiting, VisitAll(g, init, depth, visiting, visited).value,
        VisitAll(g, init, depth, visiting, more).value);
    }
  }

  lemma OneRequirement(g: Graph, name: Name, depth: nat, visiting: set<Name>, visited: set<Name>)
    ensures VisitAll(g, [name], depth, visiting, visited) == Visit(g, name, depth, visiting, visited)
  {
    assert [name][..0] == [];
    assert VisitAll(g, [], depth, visiting, visited) == Some(visited);
  }

  lemma {:induction false} EachAlone(g: Graph, names: seq<Name>)
    requires forall r :: r in names ==> Accepts(g, [r])
    ensures Accepts(g, names)
  {
    if names != [] {
      var init, last := names[..|names| - 1], names[|names| - 1];
      assert names == init + [last];
      EachAlone(g, init);
      VisitAllSound(g, init, 0, {}, {});
      assert last in names;
      OneRequirement(g, last, 0, {}, {});
      VisitMonotone(g, last, 0, {}, {}, VisitAll(g, init, 0, {}, {}).value);
    }
  }

  lemma FirstAlone(g: Graph, names: seq<Name>)
    requires names != [] && Accepts(g, names)
    ensures Accepts(g, [names[0]])
  {
    assert names[..1] == [names[0]];
    if !Accepts(g, [names[0]]) { RefusalPropagates(g, names, 1, 0, {}, {}); }
  }

  lemma SameMembers(a: seq<Name>, b: seq<Name>)
    requires multiset(a) == multiset(b)
    ensures forall k :: k in a <==> k in b
  {
    assert forall k :: k in a <==> k in multiset(a);
  }

  /** Exactly when the verdict is acceptance in every iteration order: when every tool is accepted alone. */
  lemma EveryOrderExactly(g: Graph, roots: seq<Name>)
    ensures (forall p: seq<Name> :: multiset(p) == multiset(roots) ==> Accepts(g, p)) <==> (forall r :: r in roots ==> Accepts(g, [r]))
  {
    if forall p: seq<Name> :: multiset(p) == multiset(roots) ==> Accepts(g, p) {
      forall r | r in roots ensures Accepts(g, [r]) {
        var i :| 0 <= i < |roots| && roots[i] == r;
        var p := [r] + (roots[..i] + roots[i + 1..]);
        assert roots == roots[..i] + [r] + roots[i + 1..];
        assert multiset(p) == multiset(roots);
        FirstAlone(g, p);
      }
    }
    if forall r :: r in roots ==> Accepts(g, [r]) {
      forall p: seq<Name> | multiset(p) == multiset(roots) ensures Accepts(g, p) {
        SameMembers(p, roots);
        EachAlone(g, p);
      }
    }
  }

  lemma {:induction false} SimpleCard(p: seq<Name>, s: set<Name>)
    requires Simple(p) && forall i :: 0 <= i < |p| ==> p[i] in s
    ensures |p| <= |s|
  {
    if p != [] {
      var init, last := p[..|p| - 1], p[|p| - 1];
      forall i, j | 0 <= i < j < |init| ensures init[i] != init[j] { assert p[i] != p[j]; }
      SimpleCard(init, s - {last});
    }
  }

  /** Among the tools that remain one requires none of the others: follow requirements until they leave. */
  lemma {:induction false} Leaf(g: Graph, roots: seq<Name>, rest: set<Name>, p: seq<Name>) returns (x: Name)
    requires Acyclic(g, roots) && Path(g, p) && p[0] in roots && forall i :: 0 <= i < |p| ==> p[i] in rest
    ensures x in rest && forall k :: k in Requires(g, x) ==> k !in rest
    decreases |rest| + 1 - |p|
  {
    assert Simple(p);
    SimpleCard(p, rest);
    x := p[|p| - 1];
    if k :| k in Requires(g, x) && k in rest {
      PathAppend(g, p, k);
      x := Leaf(g, roots, rest, p + [k]);
    }
  }

  /** Requirements that are done, or require nothing, are no obstacle. */
  lemma {:induction false} EasyRequirements(g: Graph, names: seq<Name>, x: Name, done: set<Name>)
    requires forall k :: k in names ==> k != x && (k in done || Requires(g, k) == [])
    ensures VisitAll(g, names, 1, {x}, done).Some? && done <= VisitAll(g, names, 1, {x}, done).value
  {
    if names != [] {
      var init, last := names[..|names| - 1], names[|names| - 1];
      forall k | k in init ensures k != x && (k in done || Requires(g, k) == []) { assert k in names; }
      EasyRequirements(g, init, x, done);
      assert last in names;
    }
  }

  /** A tool can come next once all that it requires is done or requires nothing. */
  lemma ComesNext(g: Graph, names: seq<Name>, x: Name)
    requires Accepts(g, names) && forall k :: k in Requires(g, x) ==> k != x && (k in names || Requires(g, k) == [])
    ensures Accepts(g, names + [x])
  {
    VisitAllSound(g, names, 0, {}, {});
    var done := VisitAll(g, names, 0, {}, {}).value;
    EasyRequirements(g, Requires(g, x), x, done);
    assert {} + {x} == {x};
    assert (names + [x])[..|names|] == names;
  }

  /** Taking a tool whose requirements are all done, again and again, gives an order that is accepted. */
  lemma {:induction false} BottomUp(g: Graph, roots: seq<Name>, names: seq<Name>, rest: seq<Name>) returns (order: seq<Name>)
    requires Acyclic(g, roots) && Accepts(g, names) && forall k :: k in g ==> k in roots
    requires forall k :: k in roots ==> k in names || k in rest
    requires forall k :: k in rest ==> k in roots
    ensures multiset(order) == multiset(names) + multiset(rest) && Accepts(g, order)
    decreases |rest|
  {
    hide Acyclic, Accepts;
    order := names;
    if rest != [] {
      assert Path(g, [rest[0]]) && rest[0] in rest;
      var x := Leaf(g, roots, Elements(rest), [rest[0]]);
      var i :| 0 <= i < |rest| && rest[i] == x;
      var rest' := rest[..i] + rest[i + 1..];
      assert rest == rest[..i] + [x] + rest[i + 1..];
      forall k | k in Requires(g, x) ensures k != x && (k in names || Requires(g, k) == []) {
        assert k !in Elements(rest);
        assert k !in rest;
      }
      ComesNext(g, names, x);
      order := BottomUp(g, roots, names + [x], rest');
    }
  }

  /** Exactly when the verdict is acceptance in some iteration order: when nothing that is reachable repeats. */
  lemma SomeOrderExactly(g: Graph, roots: seq<Name>)
    requires forall k :: k in g ==> k in roots
    ensures (exists p: seq<Name> :: multiset(p) == multiset(roots) && Accepts(g, p)) <==> Acyclic(g, roots)
  {
    if p: seq<Name> :| multiset(p) == multiset(roots) && Accepts(g, p) {
      AcceptedIsAcyclic(g, p);
      SameMembers(p, roots);
    }
    if Acyclic(g, roots) {
      var order := BottomUp(g, roots, [], roots);
      assert multiset(order) == multiset(roots);
    }
  }

  // ----- longer chains -----

  /** A chain of `n` tools, each requiring the next. */
  function Chain(n: nat): Graph {
    map i: Name | i in Elements(Upto(n)) :: if i + 1 < n then [i + 1] else []
  }

  function Upto(n: nat): seq<Name> { if n == 0 then [] else Upto(n - 1) + [n - 1] }

  lemma ChainAt(n: nat, i: Name)
    requires i < n
    ensures Requires(Chain(n), i) == if i + 1 < n then [i + 1] else []
  {
    UptoElements(n, i);
  }

  function Downfrom(n: nat, k: nat): seq<Name>
    requires k <= n
  {
    if k == 0 then [] else Downfrom(n, k - 1) + [n - k]
  }

  lemma {:induction false} UptoElements(n: nat, x: Name)
    ensures x in Elements(Upto(n)) <==> x < n
  {
    if n > 0 {
      UptoElements(n - 1, x);
      ElementsAppend(Upto(n - 1), n - 1);
    }
  }

  lemma {:induction false} DescentFails(n: nat, i: nat)
    requires n > MAX_DEPTH + 1 && i <= MAX_DEPTH + 1
    ensures Visit(Chain(n), i, i, Elements(Upto(i)), {}).None?
    decreases MAX_DEPTH + 1 - i
  {
    if i <= MAX_DEPTH {
      DescentFails(n, i + 1);
      UptoElements(i, i);
      ElementsAppend(Upto(i), i);
      ChainAt(n, i);
      OneRequirement(Chain(n), i + 1, i + 1, Elements(Upto(i + 1)), {});
    }
  }

  lemma {:induction false} TopFirstFails(n: nat, k: nat)
    requires n > MAX_DEPTH + 1 && 1 <= k <= n
    ensures !Accepts(Chain(n), Upto(k))
  {
    if k == 1 {
      DescentFails(n, 0);
      assert Elements(Upto(0)) == {};
      assert Upto(1) == [0];
      OneRequirement(Chain(n), 0, 0, {}, {});
    } else {
      TopFirstFails(n, k - 1);
      assert Upto(k)[..|Upto(k)| - 1] == Upto(k - 1);
    }
  }

  lemma {:induction false} BottomFirstSucceeds(n: nat, k: nat)
    requires k <= n
    ensures VisitAll(Chain(n), Downfrom(n, k), 0, {}, {}) == Some(Elements(Downfrom(n, k)))
    ensures forall x: Name :: x in Elements(Downfrom(n, k)) <==> n - k <= x < n
  {
    if k == 0 {
      assert Elements(Downfrom(n, 0)) == {};
    } else {
      BottomFirstSucceeds(n, k - 1);
      var names, i := Downfrom(n, k), (n - k) as nat;
      assert names[..|names| - 1] == Downfrom(n, k - 1) && names[|names| - 1] == i;
      var done := Elements(Downfrom(n, k - 1));
      ElementsAppend(Downfrom(n, k - 1), i);
      VisitDone(n, i, done);
    }
  }

  /** A chain's tool whose successor is done already is accepted. */
  lemma VisitDone(n: nat, i: Name, done: set<Name>)
    requires i < n && i !in done && (i + 1 < n ==> i + 1 in done)
    ensures Visit(Chain(n), i, 0, {}, done) == Some(done + {i})
  {
    ChainAt(n, i);
    assert {} + {i} == {i};
    if i + 1 < n {
      OneRequirement(Chain(n), i + 1, 1, {i}, done);
    }
  }

  /** An acyclic graph whose verdict depends on the iteration order: a chain of more than 32 links is refused
      from the top and accepted from the bottom. */
  lemma LongChainsDependOnOrder(n: nat)
    requires n > 33
    ensures !Accepts(Chain(n), Upto(n)) && Accepts(Chain(n), Downfrom(n, n))
  {
    TopFirstFails(n, n);
    BottomFirstSucceeds(n, n);
  }
}
