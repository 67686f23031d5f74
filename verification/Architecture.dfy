/** The module dependency check: depth-first search over the declared dependencies (tools/check_architecture.py). */
module Architecture {
  import opened Common

  type Name = string
  /** What each registered module declares it depends on, in declaration order. */
  type Rules = map<Name, seq<Name>>

  datatype Outcome = Done | Cyclic(at: Name) | Missing(name: Name)

  // ---- what the search is about ----

  ghost predicate Edge(rules: Rules, a: Name, b: Name) {
    a in rules && b in rules[a]
  }

  ghost predicate IsPath(rules: Rules, p: seq<Name>) {
    |p| >= 1 && forall i :: 0 <= i < |p| - 1 ==> Edge(rules, p[i], p[i + 1])
  }

  ghost predicate IsCycle(rules: Rules, p: seq<Name>) {
    |p| >= 2 && IsPath(rules, p) && p[0] == p[|p| - 1]
  }

  ghost predicate Acyclic(rules: Rules) {
    forall p :: !IsCycle(rules, p)
  }

  /** Every declared dependency is itself registered. */
  ghost predicate Closed(rules: Rules) {
    forall a, b :: Edge(rules, a, b) ==> b in rules
  }

  /** Each module comes after everything it depends on. */
  ghost predicate Topological(rules: Rules, order: seq<Name>) {
    forall i :: 0 <= i < |order| ==> order[i] in rules && forall b :: b in rules[order[i]] ==> b in order[..i]
  }

  ghost predicate StackOk(rules: Rules, stack: seq<Name>, visiting: set<Name>) {
    Elements(stack) == visiting && Distinct(stack) && (stack != [] ==> IsPath(rules, stack))
  }

  ghost predicate OrderOk(rules: Rules, order: seq<Name>, visited: set<Name>) {
    Elements(order) == visited && Distinct(order) && Topological(rules, order)
  }

  // ---- the search ----

  class Visitor {
    const rules: Rules
    var visiting: set<Name>
    var visited: set<Name>
    /** The modules being visited, outermost first, and the modules in the order they were completed. */
    ghost var stack: seq<Name>
    ghost var order: seq<Name>

    ghost predicate Valid() reads this {
      StackOk(rules, stack, visiting) && OrderOk(rules, order, visited) && visiting !! visited
    }

    constructor (rules: Rules)
      ensures Valid() && this.rules == rules && stack == [] && order == []
    {
      this.rules := rules;
      visiting, visited, stack, order := {}, {}, [], [];
    }

    method Visit(name: Name) returns (o: Outcome)
      requires Valid() && visiting <= rules.Keys
      requires stack != [] ==> Edge(rules, stack[|stack| - 1], name)
      modifies this
      decreases rules.Keys - visiting
      ensures o.Done? ==> Valid() && stack == old(stack) && old(order) <= order && name in visited
      ensures o.Cyclic? ==> exists p :: IsCycle(rules, p) && p[0] == o.at
      ensures o.Missing? ==> o.name !in rules && (o.name == name || exists a :: Edge(rules, a, o.name))
    {
      if name in visiting {
        StackCloses(rules, stack, name);
        return Cyclic(name);
      }
      if name in visited { return Done; }
      Push(rules, stack, visiting, name);
      visiting, stack := visiting + {name}, stack + [name];
      if name !in rules { return Missing(name); }
      var i := 0;
      while i < |rules[name]|
        invariant 0 <= i <= |rules[name]|
        invariant Valid() && stack == old(stack) + [name] && visiting == old(visiting) + {name} && old(order) <= order
        invariant forall j :: 0 <= j < i ==> rules[name][j] in visited
      {
        assert Edge(rules, name, rules[name][i]);
        o := Visit(rules[name][i]);
        if !o.Done? { return; }
        i := i + 1;
      }
      Pop(rules, stack, visiting, name);
      Complete(rules, order, visited, name);
      visiting, stack := visiting - {name}, stack[..|stack| - 1];
      visited, order := visited + {name}, order + [name];
      o := Done;
    }
  }

  /** Visits every registered module, in the manifest's order. */
  method Check(rules: Rules, names: seq<Name>) returns (o: Outcome, ghost order: seq<Name>)
    requires Elements(names) == rules.Keys
    ensures o.Done? <==> Closed(rules) && Acyclic(rules)
    ensures Closed(rules) ==> !o.Missing?
    ensures o.Done? ==> Topological(rules, order) && Distinct(order) && Elements(order) == rules.Keys
    ensures o.Cyclic? ==> exists p :: IsCycle(rules, p) && p[0] == o.at
    ensures o.Missing? ==> o.name !in rules && exists a :: Edge(rules, a, o.name)
  {
    var visitor := new Visitor(rules);
    order := [];
    var i := 0;
    while i < |names|
      invariant 0 <= i <= |names|
      invariant visitor.Valid() && visitor.stack == [] && visitor.rules == rules
      invariant forall j :: 0 <= j < i ==> names[j] in visitor.visited
    {
      assert names[i] in Elements(names);
      o := visitor.Visit(names[i]);
      if !o.Done? { return; }
      i := i + 1;
    }
    o, order := Done, visitor.order;
    assert forall name :: name in rules ==> name in Elements(names);
    TopologicalIsAcyclic(rules, order);
  }

  // ---- lemmas ----

  /** Meeting a module on the stack again closes a cycle. */
  lemma StackCloses(rules: Rules, stack: seq<Name>, name: Name)
    requires name in stack && IsPath(rules, stack) && Edge(rules, stack[|stack| - 1], name)
    ensures exists p :: IsCycle(rules, p) && p[0] == name
  {
    var i :| 0 <= i < |stack| && stack[i] == name;
    var p := stack[i..] + [name];
    assert IsCycle(rules, p);
  }

  lemma Push(rules: Rules, stack: seq<Name>, visiting: set<Name>, name: Name)
    requires StackOk(rules, stack, visiting) && name !in visiting
    requires stack != [] ==> Edge(rules, stack[|stack| - 1], name)
    ensures StackOk(rules, stack + [name], visiting + {name})
  {
  }

  lemma Pop(rules: Rules, stack: seq<Name>, visiting: set<Name>, name: Name)
    requires StackOk(rules, stack, visiting) && stack != [] && stack[|stack| - 1] == name
    ensures StackOk(rules, stack[..|stack| - 1], visiting - {name})
  {
    assert stack == stack[..|stack| - 1] + [name];
  }

  lemma Complete(rules: Rules, order: seq<Name>, visited: set<Name>, name: Name)
    requires OrderOk(rules, order, visited) && name !in visited && name in rules
    requires forall j :: 0 <= j < |rules[name]| ==> rules[name][j] in visited
    ensures OrderOk(rules, order + [name], visited + {name})
  {
    var more := order + [name];
    forall i | 0 <= i < |more| ensures more[i] in rules && forall b :: b in rules[more[i]] ==> b in more[..i] {
      assert more[..i] == order[..i];
      if i == |order| {
        forall b | b in rules[name] ensures b in order { assert b in Elements(order); }
        assert order[..i] == order;
      }
    }
  }

  /** Along a path inside a topological order, positions only go down. */
  lemma {:induction false} PathDescends(rules: Rules, order: seq<Name>, p: seq<Name>, i: nat)
    requires Topological(rules, order) && Distinct(order) && IsPath(rules, p) && i < |order| && p[0] == order[i]
    ensures p[|p| - 1] in order[..i + 1] && (|p| >= 2 ==> p[|p| - 1] in order[..i])
  {
    if |p| >= 2 {
      assert Edge(rules, p[0], p[1]);
      var j :| 0 <= j < i && order[j] == p[1];
      PathDescends(rules, order, p[1..], j);
    }
  }

  lemma TopologicalIsAcyclic(rules: Rules, order: seq<Name>)
    requires Topological(rules, order) && Distinct(order) && Elements(order) == rules.Keys
    ensures Acyclic(rules) && Closed(rules)
  {
    forall p | IsCycle(rules, p) ensures false {
      assert Edge(rules, p[0], p[1]);
      assert p[0] in Elements(order);
      var i :| 0 <= i < |order| && order[i] == p[0];
      PathDescends(rules, order, p, i);
    }
    forall a, b | Edge(rules, a, b) ensures b in rules {
      assert a in Elements(order);
      var i :| 0 <= i < |order| && order[i] == a;
      assert b in order[..i];
      assert b in Elements(order);
    }
  }
}
