/** Keyset pagination: cursors and the listings they walk (infrastructure/pagination.py,
    modules/training/service.py). */
module Pagination {
  import opened Common
  import opened Base64

  /** Rows are listed by creation time, then identifier. */
  datatype Key = Key(created: int, id: nat)

  predicate Less(a: Key, b: Key) {
    a.created < b.created || (a.created == b.created && a.id < b.id)
  }

  // ---- cursor text ----

  datatype JsonValue = Text(text: string) | Nothing | Other

  datatype Loaded = Fields(fields: map<string, JsonValue>) | NotObject

  /** The library conversions between texts and values; a loader returns None where the library raises ValueError. */
  datatype Library = Library(
    dumps: map<string, string> -> seq<Byte>, loads: seq<Byte> -> Option<Loaded>,
    isoformat: int -> string, fromiso: string -> Option<Stamp>, idText: nat -> string, parseId: string -> Option<nat>)

  datatype Stamp = Aware(time: int) | Naive

  /** Loading is the inverse of writing, on the texts the program writes. */
  ghost predicate Faithful(lib: Library) {
    && (forall m: map<string, string> :: lib.loads(lib.dumps(m)) == Some(Fields(map k | k in m :: Text(m[k]))))
    && (forall t: int :: lib.fromiso(lib.isoformat(t)) == Some(Aware(t)))
    && (forall i: nat :: lib.parseId(lib.idText(i)) == Some(i))
  }

  function EncodeCursor(lib: Library, k: Key, scope: string): string {
    Stripped(Encode(lib.dumps(map["s" := scope, "t" := lib.isoformat(k.created), "i" := lib.idText(k.id)])))
  }

  function InvalidCursor(): AppError { AppError(400, "INVALID_CURSOR") }

  /** An identifier that is neither text nor null escapes the handler. */
  function Unhandled(): AppError { AppError(500, "UNHANDLED") }

  function DecodeCursor(lib: Library, value: Option<string>, scope: string): Result<Option<Key>> {
    if value.None? then Ok(None)
    else
      var bytes := Decode(Restored(value.value));
      var raw := if bytes.None? then None else lib.loads(bytes.value);
      if raw.None? || raw.value.NotObject? || raw.value.fields.Keys != {"s", "t", "i"} then Err(InvalidCursor())
      else
        var fields := raw.value.fields;
        if fields["s"] != Text(scope) || !fields["t"].Text? then Err(InvalidCursor())
        else
          var stamp := lib.fromiso(fields["t"].text);
          if stamp.None? || stamp.value.Naive? then Err(InvalidCursor())
          else if fields["i"].Other? then Err(Unhandled())
          else if fields["i"].Nothing? then Err(InvalidCursor())
          else
            var id := lib.parseId(fields["i"].text);
            if id.None? then Err(InvalidCursor()) else Ok(Some(Key(stamp.value.time, id.value)))
  }

  lemma LoadedCursor(lib: Library, k: Key, scope: string)
    requires Faithful(lib)
    ensures Decode(Restored(EncodeCursor(lib, k, scope))).Some?
    ensures lib.loads(Decode(Restored(EncodeCursor(lib, k, scope))).value)
      == Some(Fields(map["s" := Text(scope), "t" := Text(lib.isoformat(k.created)), "i" := Text(lib.idText(k.id))]))
  {
    var m := map["s" := scope, "t" := lib.isoformat(k.created), "i" := lib.idText(k.id)];
    RoundTrip(lib.dumps(m));
    assert (map x | x in m :: Text(m[x]))
      == map["s" := Text(scope), "t" := Text(lib.isoformat(k.created)), "i" := Text(lib.idText(k.id))];
  }

  /** A cursor reads back under its own scope and is refused under any other. */
  lemma CursorRoundTrip(lib: Library, k: Key, scope: string, other: string)
    requires Faithful(lib)
    ensures DecodeCursor(lib, Some(EncodeCursor(lib, k, scope)), other)
      == if other == scope then Ok(Some(k)) else Err(InvalidCursor())
  {
    LoadedCursor(lib, k, scope);
  }

  /** Distinct positions or scopes have distinct cursors. */
  lemma CursorInjective(lib: Library, k: Key, scope: string, l: Key, other: string)
    requires Faithful(lib) && EncodeCursor(lib, k, scope) == EncodeCursor(lib, l, other)
    ensures k == l && scope == other
  {
    CursorRoundTrip(lib, k, scope, scope);
    CursorRoundTrip(lib, l, other, scope);
  }

  /** What the source answers for a cursor it did not write: always 400, except for an identifier that is neither
      text nor null. */
  ghost predicate BadIdentifier(lib: Library, value: string, scope: string) {
    var bytes := Decode(Restored(value));
    && bytes.Some? && lib.loads(bytes.value).Some? && lib.loads(bytes.value).value.Fields?
    && var fields := lib.loads(bytes.value).value.fields;
      && fields.Keys == {"s", "t", "i"} && fields["s"] == Text(scope) && fields["i"].Other?
      && fields["t"].Text? && lib.fromiso(fields["t"].text).Some? && lib.fromiso(fields["t"].text).value.Aware?
  }

  lemma RefusalIs400(lib: Library, value: string, scope: string)
    requires DecodeCursor(lib, Some(value), scope).Err?
    ensures DecodeCursor(lib, Some(value), scope) == Err(InvalidCursor()) <==> !BadIdentifier(lib, value, scope)
  {
  }

  /** The exception is reachable: the program's own cursor with a number in place of the identifier escapes the
      handler. */
  lemma UnhandledCursor(lib: Library, bytes: seq<Byte>, scope: string, created: int)
    requires Faithful(lib)
    requires lib.loads(bytes) == Some(Fields(map["s" := Text(scope), "t" := Text(lib.isoformat(created)),
        "i" := Other]))
    ensures var cursor := Stripped(Encode(bytes));
      BadIdentifier(lib, cursor, scope) && DecodeCursor(lib, Some(cursor), scope) == Err(Unhandled())
  {
    RoundTrip(bytes);
  }

  // ---- listings ----

  ghost predicate Descending(ks: seq<Key>) {
    forall i, j :: 0 <= i < j < |ks| ==> Less(ks[j], ks[i])
  }

  ghost predicate Greatest(rows: set<Key>, top: Key) {
    top in rows && forall k :: k in rows ==> k == top || Less(k, top)
  }

  lemma GreatestExists(rows: set<Key>)
    requires rows != {}
    ensures exists top :: Greatest(rows, top)
  {
    var x :| x in rows;
    if rows == {x} {
      assert Greatest(rows, x);
    } else {
      GreatestExists(rows - {x});
      var best :| Greatest(rows - {x}, best);
      assert rows == rows - {x} + {x};
      assert Greatest(rows, if Less(best, x) then x else best);
    }
  }

  /** ORDER BY created_at DESC, id DESC. */
  ghost function Listing(rows: set<Key>): (ks: seq<Key>)
    ensures Descending(ks) && Elements(ks) == rows
  {
    if rows == {} then []
    else
      GreatestExists(rows);
      var top :| Greatest(rows, top);
      var rest := Listing(rows - {top});
      assert forall k :: k in rest ==> k in Elements(rest);
      assert Elements([top] + rest) == {top} + Elements(rest);
      [top] + rest
  }

  /** There is only one descending listing of a set of rows. */
  lemma {:induction false} ListingUnique(xs: seq<Key>, ys: seq<Key>)
    requires Descending(xs) && Descending(ys) && Elements(xs) == Elements(ys)
    ensures xs == ys
  {
    if xs == [] {
      assert forall i :: 0 <= i < |ys| ==> ys[i] in Elements(ys);
    } else {
      assert xs[0] in Elements(ys);
      assert ys[0] in Elements(xs);
      assert xs[0] == ys[0];
      forall k ensures k in Elements(xs[1..]) <==> k in Elements(ys[1..]) {
        assert k in xs[1..] <==> k in Elements(xs) && k != xs[0];
        assert k in ys[1..] <==> k in Elements(ys) && k != ys[0];
      }
      ListingUnique(xs[1..], ys[1..]);
    }
  }

  // ---- one page ----

  function Matching(rows: set<Key>, after: Option<Key>): set<Key> {
    set k | k in rows && (after.None? || Less(k, after.value))
  }

  datatype Answer = Answer(items: seq<Key>, next: Option<Key>)

  /** One query for a row more than the page holds: its presence alone decides whether there is a next page. */
  ghost function Page(rows: set<Key>, after: Option<Key>, limit: nat): Answer
    requires limit >= 1
  {
    var all := Listing(Matching(rows, after));
    var found := if |all| > limit + 1 then all[..limit + 1] else all;
    if |found| > limit then Answer(found[..limit], Some(found[limit - 1])) else Answer(found, None)
  }

  /** What remains after a row of a listing is the rest of that listing. */
  lemma MatchingAfter(rows: set<Key>, after: Option<Key>, i: nat)
    requires i < |Listing(Matching(rows, after))|
    ensures var all := Listing(Matching(rows, after)); Listing(Matching(rows, Some(all[i]))) == all[i + 1..]
  {
    var all := Listing(Matching(rows, after));
    var rest := all[i + 1..];
    forall k ensures k in Elements(rest) <==> k in Matching(rows, Some(all[i])) {
      AfterIn(rows, after, i, k);
    }
    ListingUnique(Listing(Matching(rows, Some(all[i]))), rest);
  }

  lemma AfterIn(rows: set<Key>, after: Option<Key>, i: nat, k: Key)
    requires i < |Listing(Matching(rows, after))|
    ensures var all := Listing(Matching(rows, after)); k in all[i + 1..] <==> k in rows && Less(k, all[i])
  {
    var all := Listing(Matching(rows, after));
    assert all[i] in Elements(all) && Elements(all) == Matching(rows, after);
    if k in all[i + 1..] {
      var j :| i < j < |all| && all[j] == k;
      assert k in Elements(all);
    }
    if k in rows && Less(k, all[i]) {
      assert k in Elements(all);
      var j :| 0 <= j < |all| && all[j] == k;
      assert j > i && all[i + 1..][j - i - 1] == k;
    }
  }

  // ---- following the cursors while newer rows arrive ----

  datatype Walked = Walked(keys: seq<Key>, finished: bool)

  /** A client that asks for page after page; the table may have grown before each request. */
  ghost function Follow(tables: seq<set<Key>>, after: Option<Key>, limit: nat): Walked
    requires limit >= 1
  {
    if tables == [] then Walked([], false)
    else
      var page := Page(tables[0], after, limit);
      if page.next.None? then Walked(page.items, true)
      else
        var rest := Follow(tables[1..], page.next, limit);
        Walked(page.items + rest.keys, rest.finished)
  }

  /** Between requests rows are only added, each newer than every row already there. */
  ghost predicate OnlyNewer(before: set<Key>, later: set<Key>) {
    before <= later && forall k, l :: k in later && k !in before && l in before ==> Less(l, k)
  }

  ghost predicate Growing(tables: seq<set<Key>>) {
    forall i :: 0 <= i < |tables| - 1 ==> OnlyNewer(tables[i], tables[i + 1])
  }

  lemma NewerIsUnseen(before: set<Key>, later: set<Key>, at: Key)
    requires OnlyNewer(before, later) && at in before
    ensures Matching(later, Some(at)) == Matching(before, Some(at))
  {
  }

  /** What a client has read after asking for n rows of a listing. */
  function Taken(all: seq<Key>, n: nat): Walked {
    if |all| <= n then Walked(all, true) else Walked(all[..n], false)
  }

  /** The rows that n pages hold. */
  function Capacity(n: nat, limit: nat): nat {
    if n == 0 then 0 else limit + Capacity(n - 1, limit)
  }

  lemma {:induction false} CapacityIs(n: nat, limit: nat)
    ensures Capacity(n, limit) == n * limit
  {
    if n > 0 { CapacityIs(n - 1, limit); }
  }

  lemma PageOf(rows: set<Key>, after: Option<Key>, limit: nat)
    requires limit >= 1
    ensures var all := Listing(Matching(rows, after));
      Page(rows, after, limit) == if |all| > limit then Answer(all[..limit], Some(all[limit - 1]))
          else Answer(all, None)
  {
    var all := Listing(Matching(rows, after));
    if |all| > limit + 1 { assert all[..limit + 1][..limit] == all[..limit]; }
  }

  /** One page, then the rest of the walk. */
  lemma FollowStep(tables: seq<set<Key>>, after: Option<Key>, limit: nat)
    requires limit >= 1 && tables != []
    ensures var all := Listing(Matching(tables[0], after));
      Follow(tables, after, limit) ==
        if |all| <= limit then Walked(all, true)
        else
          var rest := Follow(tables[1..], Some(all[limit - 1]), limit);
          Walked(all[..limit] + rest.keys, rest.finished)
  {
    PageOf(tables[0], after, limit);
  }

  /** The pages read so far are the first rows of the first table's listing, in order, and the walk ends exactly when
      all are read. */
  lemma {:induction false} FollowIsListing(tables: seq<set<Key>>, after: Option<Key>, limit: nat)
    requires limit >= 1 && tables != [] && Growing(tables)
    ensures Follow(tables, after, limit) == Taken(Listing(Matching(tables[0], after)), Capacity(|tables|, limit))
    decreases |tables|, 0
  {
    var all := Listing(Matching(tables[0], after));
    var n := |tables| - 1;
    FollowStep(tables, after, limit);
    assert Capacity(n + 1, limit) == limit + Capacity(n, limit);
    if |all| > limit {
      assert tables == [tables[0]] + tables[1..];
      RestIsListing(tables[0], tables[1..], after, limit);
      TakenStep(all, limit, Capacity(n, limit));
    }
  }

  /** After a full page, the walk goes on with what the page left. */
  lemma {:induction false} RestIsListing(table: set<Key>, later: seq<set<Key>>, after: Option<Key>, limit: nat)
    requires limit >= 1 && Growing([table] + later) && |Listing(Matching(table, after))| > limit
    ensures var all := Listing(Matching(table, after));
      Follow(later, Some(all[limit - 1]), limit) == Taken(all[limit..], Capacity(|later|, limit))
    decreases |later|, 1
  {
    var all := Listing(Matching(table, after));
    if later == [] {
      assert all[limit..][..0] == [];
    } else {
      LaterListing(table, later, after, limit);
      FollowIsListing(later, Some(all[limit - 1]), limit);
    }
  }

  /** The table of the next request lists, after the page's last row, what the page's table left. */
  lemma LaterListing(table: set<Key>, later: seq<set<Key>>, after: Option<Key>, limit: nat)
    requires limit >= 1 && later != [] && Growing([table] + later) && |Listing(Matching(table, after))| > limit
    ensures Growing(later)
    ensures var all := Listing(Matching(table, after));
      Listing(Matching(later[0], Some(all[limit - 1]))) == all[limit..]
  {
    var all := Listing(Matching(table, after));
    GrowingTail([table] + later);
    assert ([table] + later)[1..] == later;
    assert all[limit - 1] in Elements(all);
    NewerIsUnseen(table, later[0], all[limit - 1]);
    MatchingAfter(table, after, limit - 1);
  }

  lemma TakenStep(all: seq<Key>, limit: nat, more: nat)
    requires |all| > limit
    ensures var rest := Taken(all[limit..], more);
      Walked(all[..limit] + rest.keys, rest.finished) == Taken(all, limit + more)
  {
  }

  lemma GrowingTail(tables: seq<set<Key>>)
    requires |tables| >= 2 && Growing(tables)
    ensures OnlyNewer(tables[0], tables[1]) && Growing(tables[1..])
  {
    var tail := tables[1..];
    forall i | 0 <= i < |tail| - 1 ensures OnlyNewer(tail[i], tail[i + 1]) {
      assert OnlyNewer(tables[i + 1], tables[i + 2]);
    }
  }

  /** From the first page: every row of the first table once, newest first, and none that arrived later. */
  lemma EveryRowOnce(tables: seq<set<Key>>, limit: nat)
    requires limit >= 1 && tables != [] && Growing(tables) && Follow(tables, None, limit).finished
    ensures var keys := Follow(tables, None, limit).keys;
      Descending(keys) && Distinct(keys) && Elements(keys) == tables[0]
  {
    FollowIsListing(tables, None, limit);
    assert Matching(tables[0], None) == tables[0];
    var keys := Follow(tables, None, limit).keys;
    assert forall i, j :: 0 <= i < j < |keys| ==> Less(keys[j], keys[i]) && keys[i] != keys[j];
  }

  // ---- the same walk through cursor texts ----

  datatype Response = Response(items: seq<Key>, cursor: Option<string>)

  /** training/service.py: list_tasks over the rows that pass its filters. */
  ghost function ListTasks(lib: Library, rows: set<Key>, limit: nat, cursor: Option<string>,
                           scope: string): Result<Response>
    requires limit >= 1
  {
    var after := DecodeCursor(lib, cursor, scope);
    if after.Err? then Err(after.error)
    else
      var page := Page(rows, after.value, limit);
      Ok(Response(page.items, if page.next.Some? then Some(EncodeCursor(lib, page.next.value, scope)) else None))
  }

  ghost function FollowTexts(lib: Library, tables: seq<set<Key>>, limit: nat, cursor: Option<string>,
                             scope: string): Result<Walked>
    requires limit >= 1
  {
    if tables == [] then Ok(Walked([], false))
    else
      var response := ListTasks(lib, tables[0], limit, cursor, scope);
      if response.Err? then Err(response.error)
      else if response.value.cursor.None? then Ok(Walked(response.value.items, true))
      else
        var rest := FollowTexts(lib, tables[1..], limit, response.value.cursor, scope);
        if rest.Err? then rest else Ok(Walked(response.value.items + rest.value.keys, rest.value.finished))
  }

  /** A client that sends back each cursor it is given is never refused and reads the same pages. */
  lemma {:induction false} TextsFollow(lib: Library, tables: seq<set<Key>>, limit: nat, cursor: Option<string>,
                                       scope: string)
    requires Faithful(lib) && limit >= 1 && DecodeCursor(lib, cursor, scope).Ok?
    ensures FollowTexts(lib, tables, limit, cursor, scope)
      == Ok(Follow(tables, DecodeCursor(lib, cursor, scope).value, limit))
  {
    if tables != [] {
      var page := Page(tables[0], DecodeCursor(lib, cursor, scope).value, limit);
      if page.next.Some? {
        CursorRoundTrip(lib, page.next.value, scope, scope);
        TextsFollow(lib, tables[1..], limit, Some(EncodeCursor(lib, page.next.value, scope)), scope);
      }
    }
  }
}
