/** Emission of wire models in dependency order (tools/generate_http_models.py). */
module Generator {
  import opened Common
  import opened Architecture

  datatype Kind = NoKind | One(kind: string) | Many(kinds: seq<string>)

  /** A keyword holding a list of schemas. */
  datatype List = Absent | Listed(all: seq<Schema>)

  /** The keywords of a schema that the generator reads. */
  datatype Schema = Schema(
    ref: Option<string>, anyOf: List, constant: bool, enumeration: bool, kind: Kind, items: Option<Schema>,
    binary: bool, format: string, limited: bool, oneOf: List, discriminator: bool,
    properties: seq<(Name, Schema)>, required: set<Name>)

  /** The type expressions written into the generated file. */
  datatype Annotation =
    | Named(name: Name)
    | Union(variants: seq<Annotation>)
    | Literal
    | Nullable(base: Annotation)
    | ListOf(item: Annotation)
    | Scalar(text: string)
    | Constrained(base: Annotation)
    | Omittable(base: Annotation)

  datatype Field = Field(name: Name, annotation: Annotation, defaulted: bool)

  datatype Block = Variants(name: Name, union: Annotation) | Model(name: Name, fields: seq<Field>)

  datatype Failure = Recursive(at: Name) | Unknown(missing: Name) | Malformed

  datatype Attempt<+T> = Made(value: T) | Failed(failure: Failure)

  // ---- which names a schema or an annotation mentions ----

  /** What follows the last slash, or everything when there is none. */
  function LastSegment(ref: string): string {
    if '/' in ref then LastSegment(ref[1..]) else ref
  }

  /** The last segment is the one suffix without a slash that starts the text or follows a slash. */
  lemma {:induction false} LastSegmentIsSuffix(ref: string)
    ensures var last := LastSegment(ref);
      && '/' !in last && |last| <= |ref| && ref[|ref| - |last|..] == last
      && (|last| < |ref| ==> ref[|ref| - |last| - 1] == '/')
  {
    if '/' in ref {
      LastSegmentIsSuffix(ref[1..]);
      assert ref == [ref[0]] + ref[1..];
    }
  }

  /** The type keyword that decides the annotation: the first one that is not "null" when several are listed. */
  function Chosen(kind: Kind): Option<string> {
    match kind
    case NoKind => None
    case One(k) => Some(k)
    case Many(ks) => FirstNonNull(ks)
  }

  function FirstNonNull(ks: seq<string>): Option<string> {
    if ks == [] then None else if ks[0] != "null" then Some(ks[0]) else FirstNonNull(ks[1..])
  }

  function Refs(s: Schema): seq<Name> {
    if s.ref.Some? then [LastSegment(s.ref.value)]
    else if s.anyOf.Listed? then RefsAll(s.anyOf.all)
    else if s.constant || s.enumeration then []
    else if Chosen(s.kind) == Some("array") && s.items.Some? then Refs(s.items.value)
    else []
  }

  function RefsAll(ss: seq<Schema>): seq<Name> {
    if ss == [] then [] else RefsAll(ss[..|ss| - 1]) + Refs(ss[|ss| - 1])
  }

  function PropertyRefs(ps: seq<(Name, Schema)>): seq<Name> {
    if ps == [] then [] else PropertyRefs(ps[..|ps| - 1]) + Refs(ps[|ps| - 1].1)
  }

  function TopRefs(s: Schema): seq<Name> {
    if s.oneOf.Listed? then RefsAll(s.oneOf.all) else PropertyRefs(s.properties)
  }

  function Names(a: Annotation): seq<Name> {
    match a
    case Named(n) => [n]
    case Union(vs) => NamesAll(vs)
    case Nullable(b) => Names(b)
    case ListOf(b) => Names(b)
    case Constrained(b) => Names(b)
    case Omittable(b) => Names(b)
    case _ => []
  }

  function NamesAll(vs: seq<Annotation>): seq<Name> {
    if vs == [] then [] else NamesAll(vs[..|vs| - 1]) + Names(vs[|vs| - 1])
  }

  function FieldNames(fs: seq<Field>): seq<Name> {
    if fs == [] then [] else FieldNames(fs[..|fs| - 1]) + Names(fs[|fs| - 1].annotation)
  }

  function BlockNames(b: Block): seq<Name> {
    match b case Variants(_, u) => Names(u) case Model(_, fs) => FieldNames(fs)
  }

  /** The generator finds every keyword it needs to annotate this schema. */
  predicate Annotable(s: Schema) {
    if s.ref.Some? then true
    else if s.anyOf.Listed? then AllAnnotable(s.anyOf.all)
    else if s.constant || s.enumeration then true
    else
      match Chosen(s.kind)
      case None => false
      case Some(k) =>
        if k == "array" then s.items.Some? && Annotable(s.items.value)
        else k in {"null", "string", "integer", "number", "boolean"}
  }

  predicate AllAnnotable(ss: seq<Schema>) {
    forall i :: 0 <= i < |ss| ==> Annotable(ss[i])
  }

  predicate PropertiesAnnotable(ps: seq<(Name, Schema)>) {
    forall i :: 0 <= i < |ps| ==> Annotable(ps[i].1)
  }

  predicate Emittable(s: Schema) {
    if s.oneOf.Listed? then s.discriminator && AllAnnotable(s.oneOf.all) else PropertiesAnnotable(s.properties)
  }

  // ---- the dependency graph between the schemas to emit ----

  function Without(names: seq<Name>, known: set<Name>): (kept: seq<Name>)
    ensures forall n :: n in kept <==> n in names && n !in known
  {
    if names == [] then [] else
      var rest := Without(names[..|names| - 1], known);
      var last := names[|names| - 1];
      assert names == names[..|names| - 1] + [last];
      if last in known then rest else rest + [last]
  }

  /** Schemas already written by hand are neither emitted nor followed. */
  function Graph(schemas: map<Name, Schema>, known: set<Name>): Rules {
    map n | n in schemas && n !in known :: Without(TopRefs(schemas[n]), known)
  }

  function Order(blocks: seq<Block>): (order: seq<Name>)
    ensures |order| == |blocks| && forall i :: 0 <= i < |blocks| ==> order[i] == blocks[i].name
  {
    seq(|blocks|, i requires 0 <= i < |blocks| => blocks[i].name)
  }

  ghost predicate Explained(schemas: map<Name, Schema>, known: set<Name>, f: Failure) {
    match f
    case Recursive(at) => exists p :: IsCycle(Graph(schemas, known), p) && p[0] == at
    case Unknown(n) => n !in schemas && exists a :: Edge(Graph(schemas, known), a, n)
    case Malformed => exists n :: n in Graph(schemas, known) && !Emittable(schemas[n])
  }

  /** A written block mentions exactly its schema's references; the hand-written ones among them are imported. */
  ghost predicate BlockOk(schemas: map<Name, Schema>, known: set<Name>, imports: set<Name>, b: Block) {
    && b.name in schemas && b.name !in known && Emittable(schemas[b.name])
    && BlockNames(b) == TopRefs(schemas[b.name])
    && forall n :: n in BlockNames(b) && n in known ==> n in imports
  }

  ghost predicate BlocksOk(schemas: map<Name, Schema>, known: set<Name>, imports: set<Name>, blocks: seq<Block>) {
    forall i :: 0 <= i < |blocks| ==> BlockOk(schemas, known, imports, blocks[i])
  }

  /** Nothing is imported without need. */
  ghost predicate ImportsOk(schemas: map<Name, Schema>, known: set<Name>, imports: set<Name>) {
    forall n :: n in imports ==> n in known && exists a :: a in Graph(schemas, known) && n in TopRefs(schemas[a])
  }

  /** The references have been handled: emitted or imported. */
  ghost predicate Ready(known: set<Name>, done: set<Name>, imports: set<Name>, names: seq<Name>) {
    forall n :: n in names ==> n in done && (n in known ==> n in imports)
  }

  datatype State = State(done: set<Name>, visiting: set<Name>, imports: set<Name>, blocks: seq<Block>, stack: seq<Name>)

  ghost predicate Grown(a: State, b: State) {
    a.visiting == b.visiting && a.stack == b.stack && a.done <= b.done && a.imports <= b.imports && a.blocks <= b.blocks
  }

  ghost predicate Consistent(schemas: map<Name, Schema>, known: set<Name>, s: State) {
    && StackOk(Graph(schemas, known), s.stack, s.visiting) && s.visiting <= Graph(schemas, known).Keys
    && OrderOk(Graph(schemas, known), Order(s.blocks), s.done - known) && known <= s.done
    && s.visiting !! s.done
    && BlocksOk(schemas, known, s.imports, s.blocks) && ImportsOk(schemas, known, s.imports)
  }

  /** From state a to state b these names were handled and nothing else was disturbed. */
  ghost predicate Handled(schemas: map<Name, Schema>, known: set<Name>, a: State, b: State, names: seq<Name>) {
    Consistent(schemas, known, b) && Grown(a, b) && Ready(known, b.done, b.imports, names)
  }

  /** The schema being emitted mentions all of these names. */
  ghost predicate Mentions(schemas: map<Name, Schema>, known: set<Name>, stack: seq<Name>, names: seq<Name>) {
    && stack != [] && stack[|stack| - 1] in Graph(schemas, known)
    && forall n :: n in names ==> n in TopRefs(schemas[stack[|stack| - 1]])
  }

  // ---- lemmas about one step ----

  lemma HandledBoth(schemas: map<Name, Schema>, known: set<Name>, a: State, b: State, c: State, first: seq<Name>,
                    next: seq<Name>)
    requires Handled(schemas, known, a, b, first) && Handled(schemas, known, b, c, next)
    ensures Handled(schemas, known, a, c, first + next)
  {
  }

  lemma HandledNone(schemas: map<Name, Schema>, known: set<Name>, a: State)
    requires Consistent(schemas, known, a)
    ensures Handled(schemas, known, a, a, [])
  {
  }

  lemma {:induction false} RefsAllHas(items: seq<Schema>, i: nat)
    requires i < |items|
    ensures forall n :: n in Refs(items[i]) ==> n in RefsAll(items)
    ensures RefsAll(items[..i + 1]) == RefsAll(items[..i]) + Refs(items[i])
  {
    assert items[..i + 1][..i] == items[..i];
    if i < |items| - 1 {
      RefsAllHas(items[..|items| - 1], i);
    }
  }

  lemma {:induction false} PropertyRefsHas(ps: seq<(Name, Schema)>, i: nat)
    requires i < |ps|
    ensures forall n :: n in Refs(ps[i].1) ==> n in PropertyRefs(ps)
    ensures PropertyRefs(ps[..i + 1]) == PropertyRefs(ps[..i]) + Refs(ps[i].1)
  {
    assert ps[..i + 1][..i] == ps[..i];
    if i < |ps| - 1 {
      PropertyRefsHas(ps[..|ps| - 1], i);
    }
  }

  lemma AllAnnotableNext(items: seq<Schema>, i: nat)
    requires i < |items| && AllAnnotable(items[..i]) && Annotable(items[i])
    ensures AllAnnotable(items[..i + 1])
  {
    assert forall j :: 0 <= j < i ==> items[..i][j] == items[j];
  }

  lemma PropertiesAnnotableNext(ps: seq<(Name, Schema)>, i: nat)
    requires i < |ps| && PropertiesAnnotable(ps[..i]) && Annotable(ps[i].1)
    ensures PropertiesAnnotable(ps[..i + 1])
  {
    assert forall j :: 0 <= j < i ==> ps[..i][j] == ps[j];
  }

  lemma NamesAppend(made: seq<Annotation>, a: Annotation)
    ensures NamesAll(made + [a]) == NamesAll(made) + Names(a)
  {
    assert (made + [a])[..|made|] == made;
  }

  lemma FieldsAppend(made: seq<Field>, f: Field)
    ensures FieldNames(made + [f]) == FieldNames(made) + Names(f.annotation)
  {
    assert (made + [f])[..|made|] == made;
  }

  lemma Enter(schemas: map<Name, Schema>, known: set<Name>, s: State, name: Name)
    requires Consistent(schemas, known, s) && name in schemas && name !in s.done && name !in s.visiting
    requires s.stack != [] ==> Edge(Graph(schemas, known), s.stack[|s.stack| - 1], name)
    ensures Consistent(schemas, known, Entered(s, name))
  {
    Push(Graph(schemas, known), s.stack, s.visiting, name);
  }

  /** Writing the block of the schema on top of the stack. */
  lemma Leave(schemas: map<Name, Schema>, known: set<Name>, s: State, block: Block)
    requires Consistent(schemas, known, s) && s.stack != [] && s.stack[|s.stack| - 1] == block.name
        && block.name in schemas
    requires Emittable(schemas[block.name]) && BlockNames(block) == TopRefs(schemas[block.name])
    requires Ready(known, s.done, s.imports, TopRefs(schemas[block.name]))
    ensures Consistent(schemas, known, Written(s, block))
  {
    var name := block.name;
    assert name in Elements(s.stack);
    Pop(Graph(schemas, known), s.stack, s.visiting, name);
    LeaveOrder(schemas, known, s, block);
    BlocksAppend(schemas, known, s.imports, s.blocks, block);
  }

  lemma LeaveOrder(schemas: map<Name, Schema>, known: set<Name>, s: State, block: Block)
    requires OrderOk(Graph(schemas, known), Order(s.blocks), s.done - known)
    requires block.name in Graph(schemas, known) && block.name !in s.done
        && Ready(known, s.done, s.imports, TopRefs(schemas[block.name]))
    ensures OrderOk(Graph(schemas, known), Order(s.blocks + [block]), s.done + {block.name} - known)
  {
    Complete(Graph(schemas, known), Order(s.blocks), s.done - known, block.name);
    assert Order(s.blocks + [block]) == Order(s.blocks) + [block.name];
    assert s.done + {block.name} - known == (s.done - known) + {block.name};
  }

  lemma BlocksAppend(schemas: map<Name, Schema>, known: set<Name>, imports: set<Name>, blocks: seq<Block>, block: Block)
    requires BlocksOk(schemas, known, imports, blocks) && BlockOk(schemas, known, imports, block)
    ensures BlocksOk(schemas, known, imports, blocks + [block])
  {
  }

  function Entered(s: State, name: Name): State {
    s.(visiting := s.visiting + {name}, stack := s.stack + [name])
  }

  function Written(s: State, block: Block): State
    requires s.stack != []
  {
    State(s.done + {block.name}, s.visiting - {block.name}, s.imports, s.blocks + [block], s.stack[..|s.stack| - 1])
  }

  /** A schema entered, its block made, and the block written: one more schema done and the stack as before. */
  lemma Emitted(schemas: map<Name, Schema>, known: set<Name>, s: State, made: State, block: Block)
    requires Consistent(schemas, known, s) && block.name in schemas && block.name !in s.visiting
        && block.name !in s.done
    requires Handled(schemas, known, Entered(s, block.name), made, TopRefs(schemas[block.name]))
    requires Emittable(schemas[block.name]) && BlockNames(block) == TopRefs(schemas[block.name])
    ensures made.stack != [] && Handled(schemas, known, s, Written(made, block), [])
  {
    TopIs(schemas, known, Entered(s, block.name), made, block.name);
    Leave(schemas, known, made, block);
    GrownWritten(s, made, block);
  }

  lemma TopIs(schemas: map<Name, Schema>, known: set<Name>, s: State, made: State, name: Name)
    requires name in schemas && Handled(schemas, known, s, made, TopRefs(schemas[name])) && s.stack != []
        && s.stack[|s.stack| - 1] == name
    ensures Consistent(schemas, known, made) && made.stack != [] && made.stack[|made.stack| - 1] == name
    ensures Ready(known, made.done, made.imports, TopRefs(schemas[name])) && Grown(s, made)
  {
  }

  lemma GrownWritten(s: State, made: State, block: Block)
    requires Grown(Entered(s, block.name), made) && block.name !in s.visiting
    ensures Grown(s, Written(made, block)) && block.name in Written(made, block).done
  {
    assert made.stack[..|made.stack| - 1] == s.stack;
    assert made.visiting - {block.name} == s.visiting;
  }

  lemma MentionsPart(schemas: map<Name, Schema>, known: set<Name>, stack: seq<Name>, all: seq<Name>, part: seq<Name>)
    requires Mentions(schemas, known, stack, all) && forall n :: n in part ==> n in all
    ensures Mentions(schemas, known, stack, part)
  {
  }

  /** What asking for a schema may lead to: an error with its reason, or a consistent state with the schema entered. */
  ghost predicate MayEnter(schemas: map<Name, Schema>, known: set<Name>, s: State, name: Name) {
    if name in s.visiting then Explained(schemas, known, Recursive(name))
    else if name !in schemas then Explained(schemas, known, Unknown(name))
    else Consistent(schemas, known, Entered(s, name))
  }

  ghost predicate Asked(schemas: map<Name, Schema>, known: set<Name>, s: State, name: Name) {
    name !in known ==> if s.stack == [] then name in schemas
        else Edge(Graph(schemas, known), s.stack[|s.stack| - 1], name)
  }

  lemma AskedMayEnter(schemas: map<Name, Schema>, known: set<Name>, s: State, name: Name)
    requires Consistent(schemas, known, s) && Asked(schemas, known, s, name) && name !in s.done
    ensures MayEnter(schemas, known, s, name)
  {
    assert name !in known;
    if name in s.visiting {
      assert name in s.stack;
      StackCloses(Graph(schemas, known), s.stack, name);
    } else if name in schemas {
      Enter(schemas, known, s, name);
    }
  }

  function Imported(s: State, known: set<Name>, name: Name): State {
    if name in known then s.(imports := s.imports + {name}) else s
  }

  lemma MentionedAsked(schemas: map<Name, Schema>, known: set<Name>, s: State, name: Name)
    requires Mentions(schemas, known, s.stack, [name])
    ensures Asked(schemas, known, s, name)
  {
    assert name in [name];
  }

  lemma MentionedImports(schemas: map<Name, Schema>, known: set<Name>, s: State, name: Name)
    requires Consistent(schemas, known, s) && Mentions(schemas, known, s.stack, [name]) && name in known
    ensures Consistent(schemas, known, s.(imports := s.imports + {name}))
  {
    assert name in [name];
    MoreImports(schemas, known, s.imports, s.blocks, name, s.stack[|s.stack| - 1]);
  }

  lemma MoreImports(schemas: map<Name, Schema>, known: set<Name>, imports: set<Name>, blocks: seq<Block>, name: Name,
                    user: Name)
    requires BlocksOk(schemas, known, imports, blocks) && ImportsOk(schemas, known, imports)
    requires name in known && user in Graph(schemas, known) && name in TopRefs(schemas[user])
    ensures BlocksOk(schemas, known, imports + {name}, blocks) && ImportsOk(schemas, known, imports + {name})
  {
    forall i | 0 <= i < |blocks| ensures BlockOk(schemas, known, imports + {name}, blocks[i]) {
      assert BlockOk(schemas, known, imports, blocks[i]);
    }
  }

  lemma MentionedHandled(schemas: map<Name, Schema>, known: set<Name>, s: State, after: State, name: Name)
    requires Handled(schemas, known, Imported(s, known, name), after, []) && name in after.done
    ensures Handled(schemas, known, s, after, [name])
  {
  }

  // ---- the generator ----

  class Generator {
    const schemas: map<Name, Schema>
    const known: set<Name>
    var done: set<Name>
    var visiting: set<Name>
    var imports: set<Name>
    var blocks: seq<Block>
    /** The schemas being emitted, outermost first. */
    ghost var stack: seq<Name>

    ghost function View(): State reads this { State(done, visiting, imports, blocks, stack) }

    ghost predicate Valid() reads this { Consistent(schemas, known, View()) }

    constructor (schemas: map<Name, Schema>, known: set<Name>)
      ensures Valid() && this.schemas == schemas && this.known == known && stack == [] && blocks == [] && done == known
    {
      this.schemas, this.known := schemas, known;
      done, visiting, imports, blocks, stack := known, {}, {}, [], [];
    }

    method Emit(name: Name) returns (f: Option<Failure>)
      requires Valid() && Asked(schemas, known, View(), name)
      modifies this
      decreases Graph(schemas, known).Keys - visiting, 1
      ensures f.None? ==> Handled(schemas, known, old(View()), View(), []) && name in done
      ensures f.Some? ==> Explained(schemas, known, f.value)
    {
      if name in done {
        HandledNone(schemas, known, View());
        return None;
      }
      AskedMayEnter(schemas, known, View(), name);
      if name in visiting { return Some(Recursive(name)); }
      if name !in schemas { return Some(Unknown(name)); }
      f := EmitNew(name);
    }

    method EmitNew(name: Name) returns (f: Option<Failure>)
      requires Valid() && Consistent(schemas, known, Entered(View(), name)) && name in schemas && name !in done
          && name !in visiting
      modifies this
      decreases Graph(schemas, known).Keys - visiting, 0
      ensures f.None? ==> Handled(schemas, known, old(View()), View(), []) && name in done
      ensures f.Some? ==> Explained(schemas, known, f.value)
    {
      ghost var start := View();
      Visit(name);
      var block := MakeBlock(name);
      if block.Failed? { return Some(block.failure); }
      ghost var made := View();
      Emitted(schemas, known, start, made, block.value);
      Write(block.value);
      f := None;
    }

    method Visit(name: Name)
      modifies this`visiting, this`stack
      ensures View() == Entered(old(View()), name)
    {
      visiting, stack := visiting + {name}, stack + [name];
    }

    method Write(block: Block)
      requires stack != []
      modifies this`blocks, this`visiting, this`done, this`stack
      ensures View() == Written(old(View()), block)
    {
      blocks := blocks + [block];
      visiting, stack := visiting - {block.name}, stack[..|stack| - 1];
      done := done + {block.name};
    }

    method MakeBlock(name: Name) returns (r: Attempt<Block>)
      requires Valid() && stack != [] && stack[|stack| - 1] == name && name in Graph(schemas, known)
      modifies this
      decreases Graph(schemas, known).Keys - visiting, 5
      ensures r.Made? ==>
          && Handled(schemas, known, old(View()), View(), TopRefs(schemas[name])) && r.value.name == name
          && BlockNames(r.value) == TopRefs(schemas[name]) && Emittable(schemas[name])
      ensures r.Failed? ==> Explained(schemas, known, r.failure)
    {
      var schema := schemas[name];
      if schema.oneOf.Listed? {
        var union := AnnotateAll(schema.oneOf.all);
        if union.Failed? { return Failed(union.failure); }
        if !schema.discriminator { return Failed(Malformed); }
        r := Made(Variants(name, Union(union.value)));
      } else {
        var fields := AnnotateFields(schema);
        if fields.Failed? { return Failed(fields.failure); }
        r := Made(Model(name, fields.value));
      }
    }

    method Reference(name: Name) returns (r: Attempt<Annotation>)
      requires Valid() && Mentions(schemas, known, stack, [name])
      modifies this
      decreases Graph(schemas, known).Keys - visiting, 2
      ensures r.Made? ==> Handled(schemas, known, old(View()), View(), [name]) && Names(r.value) == [name]
      ensures r.Failed? ==> Explained(schemas, known, r.failure)
    {
      ghost var start := View();
      MentionedAsked(schemas, known, start, name);
      if name in known {
        MentionedImports(schemas, known, start, name);
        imports := imports + {name};
      }
      assert View() == Imported(start, known, name);
      var f := Emit(name);
      if f.Some? { return Failed(f.value); }
      MentionedHandled(schemas, known, start, View(), name);
      r := Made(Named(name));
    }

    method AnnotateAll(items: seq<Schema>) returns (r: Attempt<seq<Annotation>>)
      requires Valid() && Mentions(schemas, known, stack, RefsAll(items))
      modifies this
      decreases Graph(schemas, known).Keys - visiting, 3, items, 0
      ensures r.Made? ==>
          && Handled(schemas, known, old(View()), View(), RefsAll(items)) && NamesAll(r.value) == RefsAll(items)
          && AllAnnotable(items)
      ensures r.Failed? ==> Explained(schemas, known, r.failure) || (r.failure.Malformed? && !AllAnnotable(items))
    {
      var made: seq<Annotation> := [];
      var i := 0;
      HandledNone(schemas, known, View());
      while i < |items|
        invariant 0 <= i <= |items| && stack == old(stack) && visiting == old(visiting)
        invariant Handled(schemas, known, old(View()), View(), RefsAll(items[..i]))
            && NamesAll(made) == RefsAll(items[..i])
        invariant AllAnnotable(items[..i])
      {
        RefsAllHas(items, i);
        MentionsPart(schemas, known, stack, RefsAll(items), Refs(items[i]));
        ghost var before := View();
        var one := Annotate(items[i]);
        if one.Failed? { return Failed(one.failure); }
        HandledBoth(schemas, known, old(View()), before, View(), RefsAll(items[..i]), Refs(items[i]));
        NamesAppend(made, one.value);
        AllAnnotableNext(items, i);
        made := made + [one.value];
        i := i + 1;
      }
      assert items[..i] == items;
      r := Made(made);
    }

    method AnnotateFields(schema: Schema) returns (r: Attempt<seq<Field>>)
      requires Valid() && Mentions(schemas, known, stack, PropertyRefs(schema.properties))
      modifies this
      decreases Graph(schemas, known).Keys - visiting, 4
      ensures r.Made? ==>
          && Handled(schemas, known, old(View()), View(), PropertyRefs(schema.properties))
          && FieldNames(r.value) == PropertyRefs(schema.properties) && PropertiesAnnotable(schema.properties)
      ensures r.Failed? ==>
          || Explained(schemas, known, r.failure)
          || (r.failure.Malformed? && !PropertiesAnnotable(schema.properties))
    {
      var ps := schema.properties;
      var made: seq<Field> := [];
      var i := 0;
      HandledNone(schemas, known, View());
      while i < |ps|
        invariant 0 <= i <= |ps| && stack == old(stack) && visiting == old(visiting)
        invariant Handled(schemas, known, old(View()), View(), PropertyRefs(ps[..i]))
            && FieldNames(made) == PropertyRefs(ps[..i])
        invariant PropertiesAnnotable(ps[..i])
      {
        PropertyRefsHas(ps, i);
        MentionsPart(schemas, known, stack, PropertyRefs(ps), Refs(ps[i].1));
        ghost var before := View();
        var one := Annotated(ps[i].1);
        if one.Failed? { return Failed(one.failure); }
        HandledBoth(schemas, known, old(View()), before, View(), PropertyRefs(ps[..i]), Refs(ps[i].1));
        var field := MakeField(ps[i].0, ps[i].1, one.value, schema.required);
        FieldsAppend(made, field);
        PropertiesAnnotableNext(ps, i);
        made := made + [field];
        i := i + 1;
      }
      assert ps[..i] == ps;
      r := Made(made);
    }

    method Annotated(schema: Schema) returns (r: Attempt<Annotation>)
      requires Valid() && Mentions(schemas, known, stack, Refs(schema))
      modifies this
      decreases Graph(schemas, known).Keys - visiting, 3, schema, 2
      ensures r.Made? ==>
          && Handled(schemas, known, old(View()), View(), Refs(schema))
          && Names(r.value) == Refs(schema) && Annotable(schema)
      ensures r.Failed? ==> Explained(schemas, known, r.failure) || (r.failure.Malformed? && !Annotable(schema))
    {
      r := Annotate(schema);
      if r.Made? && (schema.binary || schema.limited) {
        r := Made(Constrained(r.value));
      }
    }

    method Annotate(schema: Schema) returns (r: Attempt<Annotation>)
      requires Valid() && Mentions(schemas, known, stack, Refs(schema))
      modifies this
      decreases Graph(schemas, known).Keys - visiting, 3, schema, 1
      ensures r.Made? ==>
          && Handled(schemas, known, old(View()), View(), Refs(schema))
          && Names(r.value) == Refs(schema) && Annotable(schema)
      ensures r.Failed? ==> Explained(schemas, known, r.failure) || (r.failure.Malformed? && !Annotable(schema))
    {
      if schema.ref.Some? {
        r := Reference(LastSegment(schema.ref.value));
        return;
      }
      if schema.anyOf.Listed? {
        var union := AnnotateAll(schema.anyOf.all);
        return if union.Failed? then Failed(union.failure) else Made(Union(union.value));
      }
      if schema.constant || schema.enumeration {
        HandledNone(schemas, known, View());
        return Made(Literal);
      }
      var kind := Chosen(schema.kind);
      if kind.None? { return Failed(Malformed); }
      r := AnnotateKind(schema, kind.value);
      if r.Made? && schema.kind.Many? {
        r := Made(Nullable(r.value));
      }
    }

    method AnnotateKind(schema: Schema, kind: string) returns (r: Attempt<Annotation>)
      requires Valid() && Mentions(schemas, known, stack, Refs(schema))
      requires schema.ref.None? && schema.anyOf.Absent? && !schema.constant && !schema.enumeration
          && Chosen(schema.kind) == Some(kind)
      modifies this
      decreases Graph(schemas, known).Keys - visiting, 3, schema, 0
      ensures r.Made? ==>
          && Handled(schemas, known, old(View()), View(), Refs(schema))
          && Names(r.value) == Refs(schema) && Annotable(schema)
      ensures r.Failed? ==> Explained(schemas, known, r.failure) || (r.failure.Malformed? && !Annotable(schema))
    {
      if kind == "array" {
        if schema.items.None? { return Failed(Malformed); }
        var item := Annotated(schema.items.value);
        return if item.Failed? then Failed(item.failure) else Made(ListOf(item.value));
      }
      HandledNone(schemas, known, View());
      if kind == "null" { return Made(Scalar("None")); }
      if kind == "string" { return Made(Scalar(StringType(schema))); }
      if kind in {"integer", "number", "boolean"} {
        return Made(Scalar(if kind == "integer" then "int" else if kind == "number" then "float" else "bool"));
      }
      r := Failed(Malformed);
    }
  }

  /** A property that may be absent but not null is wrapped to refuse an explicit null. */
  function MakeField(name: Name, s: Schema, a: Annotation, required: set<Name>): (f: Field)
    ensures Names(f.annotation) == Names(a) && f.name == name && (f.defaulted <==> name !in required)
  {
    Field(name, if name !in required && !NullAllowed(s) then Omittable(a) else a, name !in required)
  }

  function StringType(s: Schema): string {
    if s.binary then "UploadFile"
    else if s.format == "uuid" then "UUID"
    else if s.format == "date" then "date"
    else if s.format == "date-time" then "datetime"
    else "str"
  }

  predicate NullAllowed(s: Schema) {
    (s.kind.Many? && "null" in s.kind.kinds)
        || (s.anyOf.Listed? && exists i :: 0 <= i < |s.anyOf.all| && s.anyOf.all[i].kind == One("null"))
  }

  /** Every schema not written by hand has exactly one block, after the blocks it mentions; imports are what the
      blocks need and no more. */
  ghost predicate Whole(schemas: map<Name, Schema>, known: set<Name>, blocks: seq<Block>, imports: set<Name>) {
    && Distinct(Order(blocks)) && Elements(Order(blocks)) == schemas.Keys - known
    && BlocksOk(schemas, known, imports, blocks) && ImportsOk(schemas, known, imports)
    && forall i, n :: 0 <= i < |blocks| && n in BlockNames(blocks[i]) ==>
        if n in known then n in imports else n in Order(blocks)[..i]
  }

  lemma Finished(schemas: map<Name, Schema>, known: set<Name>, s: State)
    requires Consistent(schemas, known, s) && s.stack == [] && schemas.Keys <= s.done
    ensures Whole(schemas, known, s.blocks, s.imports)
    ensures Closed(Graph(schemas, known)) && Acyclic(Graph(schemas, known))
    ensures forall n :: n in Graph(schemas, known) ==> Emittable(schemas[n])
  {
    var rules, order := Graph(schemas, known), Order(s.blocks);
    assert Elements(order) == rules.Keys by {
      assert forall n :: n in order ==> n in rules;
    }
    TopologicalIsAcyclic(rules, order);
    forall i, n | 0 <= i < |s.blocks| && n in BlockNames(s.blocks[i])
      ensures if n in known then n in s.imports else n in order[..i]
    {
      assert BlockOk(schemas, known, s.imports, s.blocks[i]);
      if n !in known { assert n in rules[order[i]]; }
    }
    forall n | n in rules ensures Emittable(schemas[n]) {
      assert n in Elements(order);
      var i :| 0 <= i < |order| && order[i] == n;
      assert BlockOk(schemas, known, s.imports, s.blocks[i]);
    }
  }

  /** Emits every schema, in the document's order. */
  method Render(schemas: map<Name, Schema>, names: seq<Name>, known: set<Name>)
    returns (f: Option<Failure>, blocks: seq<Block>, imports: set<Name>)
    requires Elements(names) == schemas.Keys
    ensures f.None? <==>
        && Closed(Graph(schemas, known)) && Acyclic(Graph(schemas, known))
        && forall n :: n in Graph(schemas, known) ==> Emittable(schemas[n])
    ensures f.Some? ==> Explained(schemas, known, f.value)
    ensures f.None? ==> Whole(schemas, known, blocks, imports)
  {
    var g := new Generator(schemas, known);
    var i := 0;
    while i < |names|
      invariant 0 <= i <= |names| && g.Valid() && g.stack == [] && g.schemas == schemas && g.known == known
      invariant forall j :: 0 <= j < i ==> names[j] in g.done
    {
      assert names[i] in Elements(names);
      f := g.Emit(names[i]);
      if f.Some? { return f, [], {}; }
      i := i + 1;
    }
    assert forall n :: n in schemas ==> n in Elements(names);
    Finished(schemas, known, g.View());
    f, blocks, imports := None, g.blocks, g.imports;
  }
}
