/** Expansion of references in the product contract (tools/check_contract.py). */
module Contract {
  import opened Common
  import opened JsonPointer

  datatype Json = Null | Bool(b: bool) | Num(n: int) | Str(s: string) | Arr(items: seq<Json>)
                | Obj(fields: map<string, Json>)

  /** The keys an expansion leaves out. */
  const Prose: set<string> := {"title", "description", "examples", "example"}

  // ---- order on strings, by character code ----

  predicate Le(a: string, b: string) {
    a == "" || (b != "" && (a[0] < b[0] || (a[0] == b[0] && Le(a[1..], b[1..]))))
  }

  // ---- resolution ----

  /** Follows the keys from the top of the document; None where a key is missing or the value is no object. */
  function Walk(at: Json, keys: seq<string>): Option<Json> {
    if keys == [] then Some(at)
    else if !at.Obj? || keys[0] !in at.fields then None
    else Walk(at.fields[keys[0]], keys[1..])
  }

  function Unescaped(tokens: seq<string>): seq<string> {
    seq(|tokens|, i requires 0 <= i < |tokens| => Unescape(tokens[i]))
  }

  /** The value a local reference names. */
  function Resolve(spec: Json, ref: string): Option<Json>
    requires |ref| >= 2
  {
    Walk(spec, Unescaped(Split(ref[2..], '/')))
  }

  ghost function Strings(j: Json): set<string> {
    match j
    case Str(s) => {s}
    case Arr(items) => set i, s | 0 <= i < |items| && s in Strings(items[i]) :: s
    case Obj(fields) => set k, s | k in fields && s in Strings(fields[k]) :: s
    case _ => {}
  }

  // ---- the specification of an expansion; None when the source raises ----

  /** Succeeds when every part does. */
  function Gathered(parts: map<string, Option<Json>>): Option<map<string, Json>> {
    if exists k :: k in parts && parts[k].None? then None else Some(map k | k in parts :: parts[k].value)
  }

  function GatheredItems(parts: seq<Option<Json>>): Option<seq<Json>> {
    if exists i :: 0 <= i < |parts| && parts[i].None? then None
    else Some(seq(|parts|, i requires 0 <= i < |parts| => parts[i].value))
  }

  /** The target's fields, overridden by the reference's siblings. */
  function Merged(fields: map<string, Json>, spec: Json): Option<Json>
    requires "$ref" in fields
  {
    var ref := fields["$ref"];
    if !ref.Str? || |ref.s| < 2 || ref.s[..2] != "#/" then None
    else
      var target := Resolve(spec, ref.s);
      if target.None? || !target.value.Obj? then None
      else Some(Obj(target.value.fields + (fields - {"$ref"})))
  }

  function Expand(node: Json, spec: Json, visited: set<string>): Option<Json>
    decreases Strings(spec) + Strings(node) - visited, node, 1
  {
    match node
    case Obj(fields) =>
      if "$ref" in fields then
        var merged := Merged(fields, spec);
        if merged.None? || fields["$ref"].s in visited then None
        else
          MergedStrings(fields, spec);
          Expand(merged.value, spec, visited + {fields["$ref"].s})
      else
        var gathered := Gathered(Keywords(fields, spec, visited));
        if gathered.None? then None else Normalised(gathered.value)
    case Arr(items) =>
      var gathered := GatheredItems(Items(items, spec, visited));
      if gathered.None? then None else Some(Arr(gathered.value))
    case _ => Some(node)
  }

  function Keywords(fields: map<string, Json>, spec: Json, visited: set<string>): map<string, Option<Json>>
    requires "$ref" !in fields
    decreases Strings(spec) + Strings(Obj(fields)) - visited, Obj(fields), 0
  {
    map k | k in fields && k !in Prose :: ExpandField(k, fields[k], spec, visited)
  }

  function Properties(fields: map<string, Json>, spec: Json, visited: set<string>): map<string, Option<Json>>
    decreases Strings(spec) + Strings(Obj(fields)) - visited, Obj(fields), 0
  {
    map n | n in fields :: Expand(fields[n], spec, visited)
  }

  function Items(items: seq<Json>, spec: Json, visited: set<string>): seq<Option<Json>>
    decreases Strings(spec) + Strings(Arr(items)) - visited, Arr(items), 0
  {
    seq(|items|, i requires 0 <= i < |items| => Expand(items[i], spec, visited))
  }

  /** The names under "properties" are not keywords. */
  function ExpandField(k: string, value: Json, spec: Json, visited: set<string>): Option<Json>
    decreases Strings(spec) + Strings(value) - visited, value, 2
  {
    if k != "properties" then Expand(value, spec, visited)
    else if !value.Obj? then None
    else
      var gathered := Gathered(Properties(value.fields, spec, visited));
      if gathered.None? then None else Some(Obj(gathered.value))
  }

  /** A constant becomes a one-element enumeration. */
  function Enumerated(fields: map<string, Json>): map<string, Json> {
    if "const" in fields then (fields - {"const"})["enum" := Arr([fields["const"]])] else fields
  }

  /** Then the required names are sorted. */
  function Normalised(fields: map<string, Json>): Option<Json> {
    var result := Enumerated(fields);
    if "required" in result && result["required"].Arr? then
      var sorted := SortedRequired(result["required"].items);
      if sorted.None? then None else Some(Obj(result["required" := Arr(sorted.value)]))
    else Some(Obj(result))
  }

  predicate Texts(items: seq<Json>) {
    forall i :: 0 <= i < |items| ==> items[i].Str?
  }

  function SortedRequired(items: seq<Json>): Option<seq<Json>> {
    if |items| <= 1 then Some(items) else if Texts(items) then Some(Sorted(items)) else None
  }

  function Sorted(items: seq<Json>): seq<Json>
    requires Texts(items)
    ensures Texts(Sorted(items))
  {
    if items == [] then [] else Inserted(Sorted(items[..|items| - 1]), items[|items| - 1])
  }

  function Inserted(sorted: seq<Json>, x: Json): (r: seq<Json>)
    requires Texts(sorted) && x.Str?
    ensures Texts(r)
  {
    if sorted == [] || Le(sorted[|sorted| - 1].s, x.s) then sorted + [x]
    else Inserted(sorted[..|sorted| - 1], x) + [sorted[|sorted| - 1]]
  }

  lemma MergedStrings(fields: map<string, Json>, spec: Json)
    requires "$ref" in fields && Merged(fields, spec).Some?
    ensures fields["$ref"].Str? && fields["$ref"].s in Strings(Obj(fields))
    ensures Strings(Merged(fields, spec).value) <= Strings(spec) + Strings(Obj(fields))
  {
    var ref := fields["$ref"].s;
    WalkStrings(spec, Unescaped(Split(ref[2..], '/')));
    var target := Resolve(spec, ref).value;
    var merged := Merged(fields, spec).value;
    assert ref in Strings(fields["$ref"]);
    forall s | s in Strings(merged) ensures s in Strings(spec) + Strings(Obj(fields)) {
      var k :| k in merged.fields && s in Strings(merged.fields[k]);
      if k in fields && k != "$ref" {
        assert s in Strings(Obj(fields));
      } else {
        assert merged.fields[k] == target.fields[k];
        assert s in Strings(target);
      }
    }
  }

  lemma {:induction false} WalkStrings(at: Json, keys: seq<string>)
    requires Walk(at, keys).Some?
    ensures Strings(Walk(at, keys).value) <= Strings(at)
  {
    if keys != [] {
      WalkStrings(at.fields[keys[0]], keys[1..]);
    }
  }

  // ---- the form every expansion has ----

  predicate Ascending(items: seq<Json>)
    requires Texts(items)
  {
    forall i, j :: 0 <= i < j < |items| ==> Le(items[i].s, items[j].s)
  }

  predicate RequiredOk(items: seq<Json>) {
    |items| <= 1 || (Texts(items) && Ascending(items))
  }

  /** No reference, prose or constant in schema position, and required names in order. */
  predicate Canonical(j: Json)
    decreases j, 0
  {
    match j
    case Obj(fields) =>
      && "$ref" !in fields && "const" !in fields && fields.Keys !! Prose
      && ("required" in fields && fields["required"].Arr? ==> RequiredOk(fields["required"].items))
      && forall k :: k in fields ==> CanonicalField(k, fields[k])
    case Arr(items) => forall i :: 0 <= i < |items| ==> Canonical(items[i])
    case _ => true
  }

  predicate CanonicalField(k: string, value: Json)
    decreases value, 1
  {
    if k != "properties" then Canonical(value) else value.Obj? && forall n :: n in value.fields ==>
        Canonical(value.fields[n])
  }

  // ---- sorting ----

  lemma {:induction false} LeTotal(a: string, b: string)
    ensures Le(a, b) || Le(b, a)
    ensures Le(a, b) && Le(b, a) ==> a == b
  {
    if a != "" && b != "" {
      LeTotal(a[1..], b[1..]);
      assert a == [a[0]] + a[1..] && b == [b[0]] + b[1..];
    }
  }

  lemma {:induction false} LeTransitive(a: string, b: string, c: string)
    requires Le(a, b) && Le(b, c)
    ensures Le(a, c)
  {
    if a != "" && a[0] == b[0] && b[0] == c[0] {
      LeTransitive(a[1..], b[1..], c[1..]);
    }
  }

  lemma {:induction false} InsertedAscends(sorted: seq<Json>, x: Json)
    requires Texts(sorted) && Ascending(sorted) && x.Str?
    ensures Ascending(Inserted(sorted, x)) && multiset(Inserted(sorted, x)) == multiset(sorted) + multiset{x}
  {
    if sorted == [] {
    } else {
      var init, last := sorted[..|sorted| - 1], sorted[|sorted| - 1];
      assert sorted == init + [last];
      if Le(last.s, x.s) {
        forall i | 0 <= i < |sorted| ensures Le(sorted[i].s, x.s) {
          if i < |sorted| - 1 { LeTransitive(sorted[i].s, last.s, x.s); }
        }
      } else {
        InsertedAscends(init, x);
        LeTotal(last.s, x.s);
        var r := Inserted(init, x);
        forall i | 0 <= i < |r| ensures Le(r[i].s, last.s) {
          assert r[i] in multiset(r);
          if r[i] != x { assert r[i] in init; }
        }
      }
    }
  }

  lemma {:induction false} SortedAscends(items: seq<Json>)
    requires Texts(items)
    ensures Ascending(Sorted(items)) && multiset(Sorted(items)) == multiset(items)
  {
    if items != [] {
      assert items == items[..|items| - 1] + [items[|items| - 1]];
      SortedAscends(items[..|items| - 1]);
      InsertedAscends(Sorted(items[..|items| - 1]), items[|items| - 1]);
    }
  }

  lemma {:induction false} AscendingFixed(items: seq<Json>)
    requires Texts(items) && Ascending(items)
    ensures Sorted(items) == items
  {
    if items != [] {
      assert items == items[..|items| - 1] + [items[|items| - 1]];
      AscendingFixed(items[..|items| - 1]);
    }
  }

  lemma DropLast(xs: seq<Json>)
    requires xs != [] && Texts(xs) && Ascending(xs)
    ensures Texts(xs[..|xs| - 1]) && Ascending(xs[..|xs| - 1])
    ensures multiset(xs[..|xs| - 1]) == multiset(xs) - multiset{xs[|xs| - 1]}
    ensures xs == xs[..|xs| - 1] + [xs[|xs| - 1]]
  {
    assert xs == xs[..|xs| - 1] + [xs[|xs| - 1]];
  }

  lemma LastIsGreatest(xs: seq<Json>, x: Json)
    requires Texts(xs) && Ascending(xs) && x in xs
    ensures x.Str? && Le(x.s, xs[|xs| - 1].s)
  {
    LeTotal(x.s, x.s);
  }

  /** Two ascending lists with the same elements are the same list. */
  lemma {:induction false} AscendingUnique(xs: seq<Json>, ys: seq<Json>)
    requires Texts(xs) && Texts(ys) && Ascending(xs) && Ascending(ys) && multiset(xs) == multiset(ys)
    ensures xs == ys
  {
    if xs == [] {
      assert |multiset(ys)| == 0;
    } else {
      LastsAgree(xs, ys);
      DropLast(xs);
      DropLast(ys);
      AscendingUnique(xs[..|xs| - 1], ys[..|ys| - 1]);
    }
  }

  lemma LastsAgree(xs: seq<Json>, ys: seq<Json>)
    requires Texts(xs) && Texts(ys) && Ascending(xs) && Ascending(ys) && multiset(xs) == multiset(ys) && xs != []
    ensures ys != [] && xs[|xs| - 1] == ys[|ys| - 1]
  {
    var x := xs[|xs| - 1];
    assert x in multiset(ys);
    var y := ys[|ys| - 1];
    assert y in multiset(xs);
    LastIsGreatest(ys, x);
    LastIsGreatest(xs, y);
    LeTotal(x.s, y.s);
  }

  lemma SortedRequiredUnique(xs: seq<Json>, ys: seq<Json>)
    requires Texts(xs) && Texts(ys) && multiset(xs) == multiset(ys)
    ensures SortedRequired(xs) == SortedRequired(ys)
  {
    assert |xs| == |multiset(xs)| && |ys| == |multiset(ys)|;
    SortedAscends(xs);
    SortedAscends(ys);
    AscendingUnique(Sorted(xs), Sorted(ys));
    if |xs| == 1 {
      LastsAgree(xs, ys);
      assert xs == [xs[0]] && ys == [ys[0]];
    }
  }

  /** The order in which required names are listed never matters. */
  lemma RequiredOrderIrrelevant(fields: map<string, Json>, xs: seq<Json>, ys: seq<Json>)
    requires Texts(xs) && Texts(ys) && multiset(xs) == multiset(ys)
    ensures Normalised(fields["required" := Arr(xs)]) == Normalised(fields["required" := Arr(ys)])
  {
    SortedRequiredUnique(xs, ys);
    var a, b := Enumerated(fields["required" := Arr(xs)]), Enumerated(fields["required" := Arr(ys)]);
    forall r: seq<Json> ensures a["required" := Arr(r)] == b["required" := Arr(r)] {
    }
  }

  // ---- every expansion is canonical ----

  lemma EnumeratedCanonical(fields: map<string, Json>)
    requires "$ref" !in fields && fields.Keys !! Prose && forall k :: k in fields ==> CanonicalField(k, fields[k])
    ensures var r := Enumerated(fields);
        "$ref" !in r && "const" !in r && r.Keys !! Prose && forall k :: k in r ==> CanonicalField(k, r[k])
  {
    if "const" in fields {
      assert CanonicalField("const", fields["const"]);
      assert Canonical(Arr([fields["const"]]));
      assert CanonicalField("enum", Arr([fields["const"]]));
    }
  }

  lemma NormalisedCanonical(fields: map<string, Json>)
    requires "$ref" !in fields && fields.Keys !! Prose && forall k :: k in fields ==> CanonicalField(k, fields[k])
    requires Normalised(fields).Some?
    ensures Canonical(Normalised(fields).value)
  {
    EnumeratedCanonical(fields);
    var result := Enumerated(fields);
    if "required" in result && result["required"].Arr? {
      var items := result["required"].items;
      assert CanonicalField("required", result["required"]);
      if |items| > 1 {
        SortedAscends(items);
        assert Canonical(Arr(Sorted(items)));
        assert CanonicalField("required", Arr(Sorted(items)));
      }
    }
  }

  lemma {:induction false} ExpandCanonical(node: Json, spec: Json, visited: set<string>)
    requires Expand(node, spec, visited).Some?
    ensures Canonical(Expand(node, spec, visited).value)
    decreases Strings(spec) + Strings(node) - visited, node, 1
  {
    match node
    case Obj(fields) =>
      if "$ref" in fields {
        MergedStrings(fields, spec);
        ExpandCanonical(Merged(fields, spec).value, spec, visited + {fields["$ref"].s});
      } else {
        var parts := Keywords(fields, spec, visited);
        forall k | k in parts ensures parts[k].Some? && CanonicalField(k, parts[k].value) {
          assert parts[k].Some?;
          FieldCanonical(k, fields[k], spec, visited);
        }
        NormalisedCanonical(Gathered(parts).value);
      }
    case Arr(items) =>
      var parts := Items(items, spec, visited);
      forall i | 0 <= i < |items| ensures parts[i].Some? && Canonical(parts[i].value) {
        assert parts[i].Some?;
        ExpandCanonical(items[i], spec, visited);
      }
    case _ =>
  }

  lemma {:induction false} FieldCanonical(k: string, value: Json, spec: Json, visited: set<string>)
    requires ExpandField(k, value, spec, visited).Some?
    ensures CanonicalField(k, ExpandField(k, value, spec, visited).value)
    decreases Strings(spec) + Strings(value) - visited, value, 2
  {
    if k != "properties" {
      ExpandCanonical(value, spec, visited);
    } else {
      var parts := Properties(value.fields, spec, visited);
      forall n | n in parts ensures parts[n].Some? && Canonical(parts[n].value) {
        assert parts[n].Some?;
        ExpandCanonical(value.fields[n], spec, visited);
      }
    }
  }

  // ---- canonical values are fixed points ----

  lemma GatheredIs(parts: map<string, Option<Json>>, whole: map<string, Json>)
    requires parts.Keys == whole.Keys && forall k :: k in whole ==> parts[k] == Some(whole[k])
    ensures Gathered(parts) == Some(whole)
  {
    assert (map k | k in parts :: parts[k].value) == whole;
  }

  lemma {:induction false} CanonicalFixed(node: Json, spec: Json, visited: set<string>)
    requires Canonical(node)
    ensures Expand(node, spec, visited) == Some(node)
    decreases node, 0
  {
    match node
    case Obj(fields) =>
      var parts := Keywords(fields, spec, visited);
      forall k | k in fields ensures k in parts && parts[k] == Some(fields[k]) {
        assert CanonicalField(k, fields[k]);
        FieldFixed(k, fields[k], spec, visited);
      }
      GatheredIs(parts, fields);
      if "required" in fields && fields["required"].Arr? && |fields["required"].items| > 1 {
        AscendingFixed(fields["required"].items);
      }
      assert Enumerated(fields) == fields;
      assert "required" in fields ==> fields["required" := fields["required"]] == fields;
    case Arr(items) =>
      var parts := Items(items, spec, visited);
      forall i | 0 <= i < |items| ensures parts[i] == Some(items[i]) {
        CanonicalFixed(items[i], spec, visited);
      }
      assert GatheredItems(parts).value == items;
    case _ =>
  }

  lemma {:induction false} FieldFixed(k: string, value: Json, spec: Json, visited: set<string>)
    requires CanonicalField(k, value)
    ensures ExpandField(k, value, spec, visited) == Some(value)
    decreases value, 1
  {
    if k != "properties" {
      CanonicalFixed(value, spec, visited);
    } else {
      var parts := Properties(value.fields, spec, visited);
      forall n | n in value.fields ensures parts[n] == Some(value.fields[n]) {
        CanonicalFixed(value.fields[n], spec, visited);
      }
      GatheredIs(parts, value.fields);
    }
  }

  /** Expanding twice changes nothing, whatever document and path the second expansion starts from. */
  lemma ExpansionIsStable(node: Json, spec: Json, visited: set<string>, other: Json, path: set<string>)
    requires Expand(node, spec, visited).Some?
    ensures Expand(Expand(node, spec, visited).value, other, path) == Expand(node, spec, visited)
  {
    ExpandCanonical(node, spec, visited);
    CanonicalFixed(Expand(node, spec, visited).value, other, path);
  }

  // ---- the path only decides whether an expansion is refused ----

  lemma {:induction false} PathIndependent(node: Json, spec: Json, visited: set<string>, fewer: set<string>)
    requires Expand(node, spec, visited).Some? && fewer <= visited
    ensures Expand(node, spec, fewer) == Expand(node, spec, visited)
    decreases Strings(spec) + Strings(node) - visited, node, 1
  {
    match node
    case Obj(fields) =>
      if "$ref" in fields {
        MergedStrings(fields, spec);
        var ref := fields["$ref"].s;
        PathIndependent(Merged(fields, spec).value, spec, visited + {ref}, fewer + {ref});
      } else {
        var parts := Keywords(fields, spec, visited);
        var others := Keywords(fields, spec, fewer);
        forall k | k in parts ensures others[k] == parts[k] {
          assert parts[k].Some?;
          FieldPathIndependent(k, fields[k], spec, visited, fewer);
        }
        assert others == parts;
      }
    case Arr(items) =>
      var parts := Items(items, spec, visited);
      var others := Items(items, spec, fewer);
      forall i | 0 <= i < |items| ensures others[i] == parts[i] {
        assert parts[i].Some?;
        PathIndependent(items[i], spec, visited, fewer);
      }
      assert others == parts;
    case _ =>
  }

  lemma {:induction false} FieldPathIndependent(k: string, value: Json, spec: Json, visited: set<string>,
      fewer: set<string>)
    requires ExpandField(k, value, spec, visited).Some? && fewer <= visited
    ensures ExpandField(k, value, spec, fewer) == ExpandField(k, value, spec, visited)
    decreases Strings(spec) + Strings(value) - visited, value, 2
  {
    if k != "properties" {
      PathIndependent(value, spec, visited, fewer);
    } else {
      var parts := Properties(value.fields, spec, visited);
      var others := Properties(value.fields, spec, fewer);
      forall n | n in parts ensures others[n] == parts[n] {
        assert parts[n].Some?;
        PathIndependent(value.fields[n], spec, visited, fewer);
      }
      assert others == parts;
    }
  }

  /** Expansion solves the unguarded equation: a reference expands to its target with the siblings on top, from an
      empty path. */
  lemma ReferenceMeansMerge(fields: map<string, Json>, spec: Json, visited: set<string>)
    requires "$ref" in fields && Expand(Obj(fields), spec, visited).Some?
    ensures Merged(fields, spec).Some?
    ensures Expand(Obj(fields), spec, visited) == Expand(Merged(fields, spec).value, spec, {})
  {
    MergedStrings(fields, spec);
    PathIndependent(Merged(fields, spec).value, spec, visited + {fields["$ref"].s}, {});
  }

  /** Without siblings it expands to the expansion of what it names. */
  lemma ReferenceMeansTarget(ref: string, spec: Json, visited: set<string>)
    requires Expand(Obj(map["$ref" := Str(ref)]), spec, visited).Some?
    ensures |ref| >= 2 && Resolve(spec, ref).Some?
    ensures Expand(Obj(map["$ref" := Str(ref)]), spec, visited) == Expand(Resolve(spec, ref).value, spec, {})
  {
    var fields := map["$ref" := Str(ref)];
    var target := Resolve(spec, ref).value;
    assert target.fields + (fields - {"$ref"}) == target.fields;
    ReferenceMeansMerge(fields, spec, visited);
  }

  /** Prose around a schema never changes its expansion. */
  lemma ProseIrrelevant(fields: map<string, Json>, spec: Json, visited: set<string>)
    requires "$ref" !in fields
    ensures Expand(Obj(fields), spec, visited) == Expand(Obj(fields - Prose), spec, visited)
  {
    assert Keywords(fields, spec, visited) == Keywords(fields - Prose, spec, visited);
  }

  /** Pointers built from keys resolve to the value at those keys, whatever characters the keys hold. */
  lemma PointerResolves(spec: Json, keys: seq<string>)
    requires |keys| >= 1
    ensures var tokens := seq(|keys|, i requires 0 <= i < |keys| => Encoded(keys[i]));
      Resolve(spec, "#/" + Joined(tokens, '/')) == Walk(spec, keys)
  {
    var tokens := seq(|keys|, i requires 0 <= i < |keys| => Encoded(keys[i]));
    forall i | 0 <= i < |keys| ensures '/' !in tokens[i] && Unescape(tokens[i]) == keys[i] {
      EncodedHasNoSlash(keys[i]);
      DecodeEncode(keys[i]);
      UnescapeIsDecoded(tokens[i]);
    }
    SplitJoined(tokens, '/');
    assert ("#/" + Joined(tokens, '/'))[2..] == Joined(tokens, '/');
    assert Unescaped(tokens) == keys;
  }

  // ---- the expander itself ----

  /** `visited` lists the references on the way here, as in the source. */
  method ExpandNode(node: Json, spec: Json, visited: seq<string>) returns (r: Option<Json>)
    ensures r == Expand(node, spec, Elements(visited))
    decreases Strings(spec) + Strings(node) - Elements(visited), node, 1
  {
    match node {
      case Obj(fields) =>
        if "$ref" in fields {
          var merged := Merged(fields, spec);
          if merged.None? { return None; }
          if fields["$ref"].s in visited { return None; }
          MergedStrings(fields, spec);
          assert Elements(visited + [fields["$ref"].s]) == Elements(visited) + {fields["$ref"].s};
          r := ExpandNode(merged.value, spec, visited + [fields["$ref"].s]);
          return;
        }
        var result := ExpandKeywords(fields, spec, visited);
        if result.None? { return None; }
        r := Normalised(result.value);
      case Arr(items) =>
        var result: seq<Json> := [];
        ghost var parts := Items(items, spec, Elements(visited));
        while |result| < |items|
          invariant |result| <= |items| && forall i :: 0 <= i < |result| ==> parts[i] == Some(result[i])
        {
          var one := ExpandNode(items[|result|], spec, visited);
          assert one == parts[|result|];
          if one.None? { return None; }
          result := result + [one.value];
        }
        assert GatheredItems(parts).value == result;
        r := Some(Arr(result));
      case _ => r := Some(node);
    }
  }

  method ExpandKeywords(fields: map<string, Json>, spec: Json, visited: seq<string>)
    returns (r: Option<map<string, Json>>)
    requires "$ref" !in fields
    ensures r == Gathered(Keywords(fields, spec, Elements(visited)))
    decreases Strings(spec) + Strings(Obj(fields)) - Elements(visited), Obj(fields), 0
  {
    var result: map<string, Json> := map[];
    var keys := fields.Keys - Prose;
    ghost var parts := Keywords(fields, spec, Elements(visited));
    while keys != {}
      invariant keys + result.Keys == parts.Keys
      invariant forall k :: k in result ==> parts[k] == Some(result[k])
      decreases keys
    {
      var k :| k in keys;
      assert k in parts;
      var one := ExpandKeyword(k, fields[k], spec, visited);
      if one.None? { return None; }
      result, keys := result[k := one.value], keys - {k};
    }
    GatheredIs(parts, result);
    r := Some(result);
  }

  method ExpandKeyword(k: string, value: Json, spec: Json, visited: seq<string>) returns (r: Option<Json>)
    ensures r == ExpandField(k, value, spec, Elements(visited))
    decreases Strings(spec) + Strings(value) - Elements(visited), value, 2
  {
    if k != "properties" {
      r := ExpandNode(value, spec, visited);
      return;
    }
    if !value.Obj? { return None; }
    var result: map<string, Json> := map[];
    var names := value.fields.Keys;
    ghost var parts := Properties(value.fields, spec, Elements(visited));
    while names != {}
      invariant names + result.Keys == parts.Keys
      invariant forall n :: n in result ==> parts[n] == Some(result[n])
      decreases names
    {
      var n :| n in names;
      assert n in parts;
      var one := ExpandNode(value.fields[n], spec, visited);
      if one.None? { return None; }
      result, names := result[n := one.value], names - {n};
    }
    GatheredIs(parts, result);
    r := Some(Obj(result));
  }
}
