/**
 The in-memory document store and its transaction overlay (src/awr/storage/firestore_memory.py).
 A transaction reads and writes through an overlay; committing merges it.
 */
module Overlay {
  import opened Wrappers
  import opened Packets
  import Text

  type DocPath = seq<string>

  type Doc = map<string, Json>

  type Docs = map<DocPath, Doc>

  /** What a transaction function may do. */
  datatype Op =
    | Read(path: DocPath)
    | ReadAll(prefix: DocPath)
    | Put(path: DocPath, data: Doc)
    | Patch(path: DocPath, data: Doc)

  datatype Item = Item(path: DocPath, data: Doc)

  /** What it sees: a document or its absence, the documents of a collection in order, or nothing for a write. */
  datatype Seen = One(doc: Option<Doc>) | Many(items: seq<Item>) | Written

  // ---------------------------------------------------------------- applying operations directly

  function Lookup(docs: Docs, path: DocPath): Option<Doc> {
    if path in docs then Some(docs[path]) else None
  }

  predicate DirectlyBelow(prefix: DocPath, path: DocPath) {
    |path| == |prefix| + 1 && path[..|prefix|] == prefix
  }

  /** The documents of a collection. */
  function Below(docs: Docs, prefix: DocPath): Docs {
    map path | path in docs && DirectlyBelow(prefix, path) :: docs[path]
  }

  // ---------------------------------------------------------------- the listing by id

  /** The id of a document, the last part of its path. */
  function IdOf(path: DocPath): string {
    if path == [] then "" else path[|path| - 1]
  }

  predicate InOrder(a: Item, b: Item) {
    Text.StringAtMost(IdOf(a.path), IdOf(b.path))
  }

  /** Documents of one collection, no path twice, in the order of their ids. */
  ghost predicate Sorted(prefix: DocPath, items: seq<Item>) {
    && (forall x <- items :: DirectlyBelow(prefix, x.path))
    && (forall i, j :: 0 <= i < j < |items| ==> items[i].path != items[j].path && InOrder(items[i], items[j]))
  }

  /** Exactly these documents, in the order of their ids. */
  ghost predicate Listed(prefix: DocPath, docs: Docs, items: seq<Item>) {
    && Sorted(prefix, items)
    && (forall x <- items :: x.path in docs && docs[x.path] == x.data)
    && (forall path <- docs.Keys :: Item(path, docs[path]) in items)
  }

  function InsertById(item: Item, items: seq<Item>): seq<Item> {
    if items == [] then [item]
    else if InOrder(item, items[0]) then [item] + items
    else [items[0]] + InsertById(item, items[1..])
  }

  lemma {:induction false} InsertKeeps(item: Item, items: seq<Item>)
    ensures forall x :: x in InsertById(item, items) <==> x == item || x in items
  {
    if items != [] && !InOrder(item, items[0]) {
      InsertKeeps(item, items[1..]);
      assert items == [items[0]] + items[1..];
    }
  }

  lemma SortedCons(prefix: DocPath, first: Item, items: seq<Item>)
    requires Sorted(prefix, items) && DirectlyBelow(prefix, first.path)
    requires forall x <- items :: x.path != first.path && InOrder(first, x)
    ensures Sorted(prefix, [first] + items)
  {
  }

  lemma FirstIsLeast(item: Item, items: seq<Item>)
    requires items != [] && InOrder(item, items[0])
    requires forall j :: 0 < j < |items| ==> InOrder(items[0], items[j])
    ensures forall x <- items :: InOrder(item, x)
  {
    forall x <- items ensures InOrder(item, x) {
      Text.StringOrder(IdOf(item.path), IdOf(items[0].path), IdOf(x.path));
    }
  }

  lemma {:induction false} InsertSorts(prefix: DocPath, item: Item, items: seq<Item>)
    requires Sorted(prefix, items) && DirectlyBelow(prefix, item.path) && forall x <- items :: x.path != item.path
    ensures Sorted(prefix, InsertById(item, items))
  {
    if items != [] {
      Text.StringOrder(IdOf(item.path), IdOf(items[0].path), "");
      if InOrder(item, items[0]) {
        FirstIsLeast(item, items);
        SortedCons(prefix, item, items);
      } else {
        InsertSorts(prefix, item, items[1..]);
        InsertKeeps(item, items[1..]);
        SortedCons(prefix, items[0], InsertById(item, items[1..]));
      }
    }
  }

  lemma InsertedIsListed(prefix: DocPath, docs: Docs, item: Item, items: seq<Item>)
    requires Listed(prefix, docs, items) && item.path !in docs && DirectlyBelow(prefix, item.path)
    ensures Listed(prefix, docs[item.path := item.data], InsertById(item, items))
  {
    InsertSorts(prefix, item, items);
    InsertKeeps(item, items);
  }

  /** Ids below one prefix are distinct, so their order leaves one listing only. */
  lemma {:induction false} SortedIsUnique(prefix: DocPath, a: seq<Item>, b: seq<Item>)
    requires Sorted(prefix, a) && Sorted(prefix, b) && forall x :: x in a <==> x in b
    ensures a == b
    decreases |a|
  {
    NonEmptyTogether(b, a);
    if a != [] {
      assert a[0] in b;
      HeadsAgree(prefix, a, b);
      TailElements(prefix, a);
      TailElements(prefix, b);
      SortedIsUnique(prefix, a[1..], b[1..]);
    }
  }

  lemma NonEmptyTogether(a: seq<Item>, b: seq<Item>)
    requires forall x :: x in a ==> x in b
    ensures a != [] ==> b != []
  {
    if a != [] {
      assert a[0] in b;
    }
  }

  lemma TailElements(prefix: DocPath, items: seq<Item>)
    requires Sorted(prefix, items) && items != []
    ensures Sorted(prefix, items[1..])
    ensures forall x :: x in items[1..] <==> x in items && x != items[0]
  {
    assert items == [items[0]] + items[1..];
  }

  lemma HeadsAgree(prefix: DocPath, a: seq<Item>, b: seq<Item>)
    requires Sorted(prefix, a) && Sorted(prefix, b) && a != [] && b != []
    requires a[0] in b && b[0] in a
    ensures a[0] == b[0]
  {
    var i :| 0 <= i < |a| && a[i] == b[0];
    var j :| 0 <= j < |b| && b[j] == a[0];
    if i != 0 && j != 0 {
      assert InOrder(a[0], a[i]) && InOrder(b[0], b[j]);
      Text.StringOrder(IdOf(a[0].path), IdOf(b[0].path), "");
      SameIdSamePath(prefix, a[0].path, b[0].path);
    }
  }

  lemma SameIdSamePath(prefix: DocPath, a: DocPath, b: DocPath)
    requires DirectlyBelow(prefix, a) && DirectlyBelow(prefix, b)
    ensures IdOf(a) == IdOf(b) ==> a == b
  {
    assert a == a[..|prefix|] + [a[|prefix|]] && b == b[..|prefix|] + [b[|prefix|]];
  }

  lemma ListingIsUnique(prefix: DocPath, docs: Docs, a: seq<Item>, b: seq<Item>)
    requires Listed(prefix, docs, a) && Listed(prefix, docs, b)
    ensures a == b
  {
    forall x ensures x in a <==> x in b {
      assert x in a ==> Item(x.path, docs[x.path]) == x;
      assert x in b ==> Item(x.path, docs[x.path]) == x;
    }
    SortedIsUnique(prefix, a, b);
  }

  lemma {:induction false} ListingExists(prefix: DocPath, docs: Docs) returns (items: seq<Item>)
    requires forall path <- docs.Keys :: DirectlyBelow(prefix, path)
    ensures Listed(prefix, docs, items)
    decreases |docs|
  {
    if docs == map[] {
      items := [];
    } else {
      var path :| path in docs;
      var rest := docs - {path};
      var before := ListingExists(prefix, rest);
      items := InsertById(Item(path, docs[path]), before);
      InsertedIsListed(prefix, rest, Item(path, docs[path]), before);
      assert rest[path := docs[path]] == docs;
    }
  }

  /** The documents of a collection as stream lists them. */
  ghost function Listing(docs: Docs, prefix: DocPath): (items: seq<Item>)
    ensures Listed(prefix, Below(docs, prefix), items)
  {
    ListingIsThere(prefix, Below(docs, prefix));
    var items :| Listed(prefix, Below(docs, prefix), items);
    items
  }

  lemma ListingIsThere(prefix: DocPath, docs: Docs)
    requires forall path <- docs.Keys :: DirectlyBelow(prefix, path)
    ensures exists items :: Listed(prefix, docs, items)
  {
    var items := ListingExists(prefix, docs);
  }

  /** One operation on the store itself; updating an absent document raises. */
  ghost function Direct(docs: Docs, op: Op): Option<(Docs, Seen)> {
    match op
    case Read(path) => Some((docs, One(Lookup(docs, path))))
    case ReadAll(prefix) => Some((docs, Many(Listing(docs, prefix))))
    case Put(path, data) => Some((docs[path := data], Written))
    case Patch(path, data) => if path in docs then Some((docs[path := docs[path] + data], Written)) else None
  }

  /** A whole function: its reads and the final documents, or nothing when it raises. */
  ghost function RunDirect(docs: Docs, ops: seq<Op>): Option<(Docs, seq<Seen>)> {
    if ops == [] then Some((docs, []))
    else
      match RunDirect(docs, ops[..|ops| - 1])
      case None => None
      case Some((before, seen)) =>
        match Direct(before, ops[|ops| - 1])
        case None => None
        case Some((after, one)) => Some((after, seen + [one]))
  }

  lemma RunDirectOfAppend(docs: Docs, ops: seq<Op>, op: Op)
    ensures
      RunDirect(docs, ops + [op]) ==
      match RunDirect(docs, ops)
      case None => None
      case Some((before, seen)) =>
        (match Direct(before, op)
         case None => None
         case Some((after, one)) => Some((after, seen + [one])))
  {
    assert (ops + [op])[..|ops|] == ops;
  }

  lemma {:induction false} RaisedStaysRaised(docs: Docs, ops: seq<Op>, n: nat)
    requires n <= |ops| && RunDirect(docs, ops[..n]).None?
    ensures RunDirect(docs, ops).None?
    decreases |ops|
  {
    if n == |ops| {
      assert ops[..n] == ops;
    } else {
      assert ops[..|ops| - 1][..n] == ops[..n];
      RaisedStaysRaised(docs, ops[..|ops| - 1], n);
    }
  }

  // ---------------------------------------------------------------- the store and its transactions

  class InMemoryTransaction {
    const stored: Docs
    var overlay: Docs

    /** The store as the transaction sees it. */
    function Merged(): Docs
      reads this
    {
      stored + overlay
    }

    constructor (stored: Docs)
      ensures this.stored == stored && overlay == map[] && Merged() == stored
    {
      this.stored, overlay := stored, map[];
      new;
      assert stored + map[] == stored;
    }

    method Get(path: DocPath) returns (doc: Option<Doc>)
      ensures doc == Lookup(Merged(), path)
    {
      if path in overlay {
        return Some(overlay[path]);
      }
      return Lookup(stored, path);
    }

    /** CollectionReference.stream(transaction): the union of both path sets, the overlay first, sorted by id. */
    method Stream(prefix: DocPath) returns (items: seq<Item>)
      ensures items == Listing(Merged(), prefix)
    {
      items := [];
      ghost var all := Merged();
      ghost var docs: Docs := map[];
      var paths := stored.Keys + overlay.Keys;
      while paths != {}
        invariant all == Merged() && paths <= all.Keys && paths !! docs.Keys
        invariant forall p <- docs.Keys :: p in all && DirectlyBelow(prefix, p) && docs[p] == all[p]
        invariant forall p <- all.Keys :: DirectlyBelow(prefix, p) ==> p in paths || p in docs
        invariant Listed(prefix, docs, items)
        decreases |paths|
      {
        var path :| path in paths;
        paths := paths - {path};
        if DirectlyBelow(prefix, path) {
          var data := if path in overlay then overlay[path] else stored[path];
          InsertedIsListed(prefix, docs, Item(path, data), items);
          docs := docs[path := data];
          items := InsertById(Item(path, data), items);
        }
      }
      assert docs.Keys == Below(all, prefix).Keys;
      assert docs == Below(all, prefix);
      ListingIsUnique(prefix, docs, items, Listing(all, prefix));
    }

    method Set(path: DocPath, data: Doc)
      modifies this`overlay
      ensures Merged() == old(Merged())[path := data]
    {
      overlay := overlay[path := data];
    }

    method Update(path: DocPath, data: Doc) returns (found: bool)
      modifies this`overlay
      ensures found <==> path in old(Merged())
      ensures Merged() == if found then old(Merged())[path := old(Merged())[path] + data] else old(Merged())
    {
      var current: Doc := map[];
      if path in overlay {
        current := overlay[path];
      } else if path in stored {
        current := stored[path];
      } else {
        return false;
      }
      overlay := overlay[path := current + data];
      return true;
    }

    method Apply(op: Op) returns (seen: Option<Seen>)
      modifies this`overlay
      ensures
        match Direct(old(Merged()), op)
        case None => seen.None? && Merged() == old(Merged())
        case Some((after, one)) => seen == Some(one) && Merged() == after
    {
      match op
      case Read(path) =>
        var doc := Get(path);
        return Some(One(doc));
      case ReadAll(prefix) =>
        var items := Stream(prefix);
        return Some(Many(items));
      case Put(path, data) =>
        Set(path, data);
        return Some(Written);
      case Patch(path, data) =>
        var found := Update(path, data);
        return if found then Some(Written) else None;
    }
  }

  class InMemoryFirestore {
    var docs: Docs

    constructor ()
      ensures docs == map[]
    {
      docs := map[];
    }

    /**
     run_transaction. Any function sees exactly what it would see working on the store directly and
     leaves exactly the documents it would leave; one that raises leaves the store unchanged.
     */
    method RunTransaction(ops: seq<Op>) returns (seen: Option<seq<Seen>>)
      modifies this`docs
      ensures
        match RunDirect(old(docs), ops)
        case None => seen.None? && docs == old(docs)
        case Some((after, all)) => seen == Some(all) && docs == after
    {
      var transaction := new InMemoryTransaction(docs);
      var results: seq<Seen> := [];
      for i := 0 to |ops|
        invariant docs == old(docs) && transaction.stored == docs
        invariant RunDirect(old(docs), ops[..i]) == Some((transaction.Merged(), results))
      {
        RunDirectOfAppend(old(docs), ops[..i], ops[i]);
        assert ops[..i + 1] == ops[..i] + [ops[i]];
        var one := transaction.Apply(ops[i]);
        if one.None? {
          RaisedStaysRaised(old(docs), ops, i + 1);
          return None;
        }
        results := results + [one.value];
      }
      assert ops[..|ops|] == ops;
      docs := docs + transaction.overlay;
      return Some(results);
    }
  }
}
