/** The cache key names of the authorization client: which of them can be the same text, and what
    the collection theorems say about creating an edge. Ids are uuids in text form. */
module AuthzKeys {
  import opened Options
  import opened Sentinels
  import opened CacheOps
  import opened CollectionProtocol
  import opened CollectionSafety
  import ListProtocol
  import Manager = CacheManager
  import Operations = CollectionOperations

  function Name(base: string, kind: string, rest: string): Key { base + "_" + kind + "_" + rest }

  function DependencyKey(base: string, id: Uuid): Key { Name(base, "DEP", id.text) }

  /** All edges of one object. */
  function ObjectEdgesKey(base: string, id: Uuid): Key { Name(base, "OBJEDGES", id.text) }

  /** The edges between two objects. */
  function EdgesObjToObj(base: string, source: Uuid, target: Uuid): Key {
    Name(base, "OBJ", source.text + "_E_" + target.text)
  }

  /** The path that proves an attribute. */
  function AttributePath(base: string, source: Uuid, target: Uuid, attribute: string): Key {
    Name(base, "OBJ", source.text + "_P_" + target.text + "_" + attribute)
  }

  /** An object by its alias. */
  function ObjectAliasKey(base: string, typeId: Uuid, alias: string, org: Uuid): Key {
    Name(base, "OBJ", typeId.text + "_" + alias + "_" + org.text)
  }

  lemma SameName(base: string, kind: string, a: string, b: string)
    ensures Name(base, kind, a) == Name(base, kind, b) <==> a == b
  {
    var n := |base + "_" + kind + "_"|;
    assert Name(base, kind, a)[n..] == a && Name(base, kind, b)[n..] == b;
  }

  lemma SplitText(a: string, b: string, c: string, d: string)
    requires |a| == |c| && a + b == c + d
    ensures a == c && b == d
  {
    assert a == (a + b)[..|a|] && c == (c + d)[..|c|];
    assert b == (a + b)[|a|..] && d == (c + d)[|c|..];
  }

  /** An edge list is named after its two objects and their order, and nothing else. */
  lemma EdgesKeyInjective(base: string, s1: Uuid, t1: Uuid, s2: Uuid, t2: Uuid)
    requires ValidUuid(s1) && ValidUuid(s2)
    ensures EdgesObjToObj(base, s1, t1) == EdgesObjToObj(base, s2, t2) <==> s1.text == s2.text && t1.text == t2.text
  {
    var a, b := s1.text + "_E_" + t1.text, s2.text + "_E_" + t2.text;
    SameName(base, "OBJ", a, b);
    if a == b {
      assert a == s1.text + ("_E_" + t1.text) && b == s2.text + ("_E_" + t2.text);
      SplitText(s1.text, "_E_" + t1.text, s2.text, "_E_" + t2.text);
      SplitText("_E_", t1.text, "_E_", t2.text);
    }
  }

  /** Two families of keys do collide: an object found by the alias "E" and an edge list have the same
      key whenever the ids agree. No other alias can do that. */
  lemma AliasMeetsEdgesIff(base: string, typeId: Uuid, alias: string, org: Uuid, source: Uuid, target: Uuid)
    requires ValidUuid(typeId) && ValidUuid(org) && ValidUuid(source) && ValidUuid(target)
    ensures ObjectAliasKey(base, typeId, alias, org) == EdgesObjToObj(base, source, target) <==>
              typeId.text == source.text && alias == "E" && org.text == target.text
  {
    var a, b := typeId.text + "_" + alias + "_" + org.text, source.text + "_E_" + target.text;
    SameName(base, "OBJ", a, b);
    var x, y := "_" + alias + "_", "_E_";
    assert a == typeId.text + (x + org.text) && b == source.text + (y + target.text);
    if a == b {
      SplitText(typeId.text, x + org.text, source.text, y + target.text);
      assert |x| == |y|;
      SplitText(x, org.text, y, target.text);
      assert alias == x[1..|x| - 1] && "E" == y[1..|y| - 1];
    }
  }

  /** A path key and an edge list never meet. */
  lemma PathMissesEdges(base: string, s1: Uuid, t1: Uuid, attribute: string, s2: Uuid, t2: Uuid)
    requires ValidUuid(s1) && ValidUuid(s2)
    ensures AttributePath(base, s1, t1, attribute) != EdgesObjToObj(base, s2, t2)
  {
    var p, e := "_P_" + t1.text + "_" + attribute, "_E_" + t2.text;
    SameName(base, "OBJ", s1.text + "_P_" + t1.text + "_" + attribute, s2.text + "_E_" + t2.text);
    assert s1.text + "_P_" + t1.text + "_" + attribute == s1.text + p && s2.text + "_E_" + t2.text == s2.text + e;
    assert p[1] == 'P' && e[1] == 'E';
    if s1.text + p == s2.text + e {
      SplitText(s1.text, p, s2.text, e);
    }
  }

  /** An alias key equals a path key as well, for aliases that begin like the middle of one. */
  lemma AliasMeetsPathIff(base: string, typeId: Uuid, alias: string, org: Uuid, source: Uuid, target: Uuid, attribute: string)
    requires ValidUuid(typeId) && ValidUuid(source)
    ensures ObjectAliasKey(base, typeId, alias, org) == AttributePath(base, source, target, attribute) <==>
              typeId.text == source.text && alias + "_" + org.text == "P_" + target.text + "_" + attribute
  {
    var x, y := alias + "_" + org.text, "P_" + target.text + "_" + attribute;
    var a, b := typeId.text + "_" + alias + "_" + org.text, source.text + "_P_" + target.text + "_" + attribute;
    SameName(base, "OBJ", a, b);
    assert a == typeId.text + ("_" + x) && b == source.text + ("_" + y);
    if a == b {
      SplitText(typeId.text, "_" + x, source.text, "_" + y);
      SplitText("_", x, "_", y);
    }
  }

  /** The list of the cached pages of all edges. */
  function EdgePagesKey(base: string): Key { Name(base, "EDGE", "COL_PAGES") }

  ghost predicate IsDependencyKey(base: string, k: Key) {
    k == EdgePagesKey(base) || exists id :: ValidUuid(id) && k == DependencyKey(base, id)
  }

  ghost predicate IsEdgesKey(base: string, k: Key) {
    exists s, t :: ValidUuid(s) && ValidUuid(t) && k == EdgesObjToObj(base, s, t)
  }

  ghost predicate IsPathKey(base: string, k: Key) {
    exists s, t, a :: ValidUuid(s) && ValidUuid(t) && k == AttributePath(base, s, t, a)
  }

  ghost predicate IsObjectEdgesKey(base: string, k: Key) { exists id :: ValidUuid(id) && k == ObjectEdgesKey(base, id) }

  ghost predicate IsCollectionKey(base: string, k: Key) {
    IsObjectEdgesKey(base, k) || IsEdgesKey(base, k) || IsPathKey(base, k)
  }

  /** "P_", an id and "_" at the front of the alias and the organization. */
  predicate PathLike(alias: string, org: Uuid) {
    var x := alias + "_" + org.text;
    |x| >= 39 && x[..2] == "P_" && x[38] == '_'
  }

  lemma AliasIsPathIff(base: string, typeId: Uuid, alias: string, org: Uuid)
    requires ValidUuid(typeId) && ValidUuid(org)
    ensures IsPathKey(base, ObjectAliasKey(base, typeId, alias, org)) <==> PathLike(alias, org)
  {
    var k, x := ObjectAliasKey(base, typeId, alias, org), alias + "_" + org.text;
    if PathLike(alias, org) {
      var target, attribute := Uuid(x[2..38]), x[39..];
      assert x == x[..2] + x[2..38] + [x[38]] + x[39..];
      assert x == "P_" + target.text + "_" + attribute;
      AliasMeetsPathIff(base, typeId, alias, org, typeId, target, attribute);
    }
    if IsPathKey(base, k) {
      var s, t, a :| ValidUuid(s) && ValidUuid(t) && k == AttributePath(base, s, t, a);
      AliasMeetsPathIff(base, typeId, alias, org, s, t, a);
      assert x == "P_" + t.text + "_" + a;
      assert x[..2] == "P_" && x[38] == '_';
    }
  }

  /** Exactly these aliases give an object the key of a collection or a path. */
  lemma AliasIsCollectionIff(base: string, typeId: Uuid, alias: string, org: Uuid)
    requires ValidUuid(typeId) && ValidUuid(org)
    ensures IsCollectionKey(base, ObjectAliasKey(base, typeId, alias, org)) <==> alias == "E" || PathLike(alias, org)
  {
    hide IsPathKey, PathLike, ObjectAliasKey, EdgesObjToObj;
    var k := ObjectAliasKey(base, typeId, alias, org);
    AliasIsPathIff(base, typeId, alias, org);
    AliasMissesObjectEdges(base, typeId, alias, org);
    if alias == "E" {
      AliasMeetsEdgesIff(base, typeId, alias, org, typeId, org);
    }
    if IsEdgesKey(base, k) {
      var s, t :| ValidUuid(s) && ValidUuid(t) && k == EdgesObjToObj(base, s, t);
      AliasMeetsEdgesIff(base, typeId, alias, org, s, t);
    }
  }

  lemma AliasMissesObjectEdges(base: string, typeId: Uuid, alias: string, org: Uuid)
    ensures !IsObjectEdgesKey(base, ObjectAliasKey(base, typeId, alias, org))
  {
    var k := ObjectAliasKey(base, typeId, alias, org);
    assert k[|base| + 4] == '_';
    forall id: Uuid ensures k != ObjectEdgesKey(base, id) {
      assert ObjectEdgesKey(base, id)[|base| + 4] == 'E';
    }
  }

  lemma KindAt(base: string, kind: string, rest: string)
    requires kind != ""
    ensures |Name(base, kind, rest)| > |base| + 1 && Name(base, kind, rest)[|base| + 1] == kind[0]
  {
  }

  /** Whatever ids are in use, dependency keys and collection keys are disjoint: the client's keys
      are a layout that the theorems on collections apply to. */
  lemma ClientLayout(base: string, L: Layout)
    requires forall d :: d in L.deps ==> IsDependencyKey(base, d)
    requires forall c :: c in L.cols ==> IsCollectionKey(base, c)
    ensures L.Valid()
  {
    forall k | k in L.deps ensures k != "" && k !in L.cols {
      DependencyKind(base, k);
      if k in L.cols { CollectionKind(base, k); }
    }
    forall c | c in L.cols ensures c != "" { CollectionKind(base, c); }
  }

  lemma DependencyKind(base: string, k: Key)
    requires IsDependencyKey(base, k)
    ensures |k| > |base| + 1 && k[|base| + 1] != 'O'
  {
    if k == EdgePagesKey(base) {
      KindAt(base, "EDGE", "COL_PAGES");
    } else {
      var id :| k == DependencyKey(base, id);
      KindAt(base, "DEP", id.text);
    }
  }

  lemma CollectionKind(base: string, k: Key)
    requires IsCollectionKey(base, k)
    ensures |k| > |base| + 1 && k[|base| + 1] == 'O'
  {
    if IsObjectEdgesKey(base, k) {
      var id :| k == ObjectEdgesKey(base, id);
      KindAt(base, "OBJEDGES", id.text);
    } else if IsEdgesKey(base, k) {
      var s, t :| k == EdgesObjToObj(base, s, t);
      KindAt(base, "OBJ", s.text + "_E_" + t.text);
    } else {
      var s, t, a :| k == AttributePath(base, s, t, a);
      KindAt(base, "OBJ", s.text + "_P_" + t.text + "_" + a);
    }
  }

  // ----- The keys of the items of one kind -----

  const OBJECT_TYPE := "OBJTYPE"
  const EDGE_TYPE := "EDGETYPE"
  const ORGANIZATION := "ORG"
  const OBJECT := "OBJ"
  const EDGE := "EDGE"

  function IdKey(base: string, kind: string, id: Uuid): Key { Name(base, kind, id.text) }

  /** An object type, an edge type or an organization by its name. */
  function NameKey(base: string, kind: string, name: string): Key { Name(base, kind, name) }

  function GlobalCollectionKey(base: string, kind: string): Key { base + "_" + (kind + "_COL") }

  /** An edge by its two objects and its type. */
  function EdgeFullKey(base: string, source: Uuid, target: Uuid, edgeType: Uuid): Key {
    Name(base, EDGE, source.text + "_" + target.text + "_" + edgeType.text)
  }

  /** The items of one kind that are in use. */
  ghost predicate KindLayout(base: string, kind: string, ids: set<Uuid>, L: ListProtocol.Layout) {
    L.prim == (set id | id in ids :: IdKey(base, kind, id)) && L.global == GlobalCollectionKey(base, kind)
  }

  lemma CollectionName(base: string, kind: string)
    ensures GlobalCollectionKey(base, kind) == Name(base, kind, "COL")
  {
    assert base + "_" + (kind + "_" + "COL") == base + "_" + kind + "_" + "COL";
    assert kind + "_COL" == kind + "_" + "COL";
  }

  /** The keys of a kind are a layout that the list theorem applies to. */
  lemma KindLayoutValid(base: string, kind: string, ids: set<Uuid>, L: ListProtocol.Layout)
    requires KindLayout(base, kind, ids, L) && forall id :: id in ids ==> ValidUuid(id)
    ensures L.Valid()
  {
    CollectionName(base, kind);
    forall id | id in ids ensures IdKey(base, kind, id) != L.global && IdKey(base, kind, id) != "" {
      SameName(base, kind, id.text, "COL");
    }
  }

  /** Exactly when a secondary key is outside the primary keys and the collection's. */
  lemma OutsideIff(base: string, kind: string, ids: set<Uuid>, L: ListProtocol.Layout, rest: string)
    requires KindLayout(base, kind, ids, L)
    ensures L.Outside(Name(base, kind, rest)) <==> rest != "COL" && forall id :: id in ids ==> rest != id.text
  {
    CollectionName(base, kind);
    SameName(base, kind, rest, "COL");
    forall id | id in ids ensures IdKey(base, kind, id) in L.prim && (Name(base, kind, rest) == IdKey(base, kind, id) <==> rest == id.text) {
      SameName(base, kind, rest, id.text);
    }
  }

  /** A named item meets the condition of the list theorem exactly when it is not named "COL" and
      not named like the id of another item of its kind. */
  lemma NameApartIff(base: string, kind: string, ids: set<Uuid>, L: ListProtocol.Layout, own: Uuid, name: string)
    requires kind == OBJECT_TYPE || kind == EDGE_TYPE || kind == ORGANIZATION
    requires KindLayout(base, kind, ids, L) && ValidUuid(own)
    ensures ListProtocol.Apart(L, IdKey(base, kind, own), [NameKey(base, kind, name)]) <==>
              name != "COL" && forall id :: id in ids && id != own ==> name != id.text
  {
    var k := NameKey(base, kind, name);
    OutsideIff(base, kind, ids, L, name);
    SameName(base, kind, name, own.text);
    assert k in [k];
    assert forall id: Uuid :: id.text == own.text ==> id == own;
  }

  /** Objects and edges always meet it: their secondary keys are longer than an id. */
  lemma LongKeysApart(base: string, ids: set<Uuid>, L: ListProtocol.Layout, a: Uuid, b: Uuid, c: Uuid, alias: string)
    requires (forall id :: id in ids ==> ValidUuid(id)) && ValidUuid(a) && ValidUuid(b) && ValidUuid(c)
    ensures KindLayout(base, OBJECT, ids, L) ==> L.Outside(ObjectAliasKey(base, a, alias, b))
    ensures KindLayout(base, EDGE, ids, L) ==> L.Outside(EdgeFullKey(base, a, b, c))
  {
    var x, y := a.text + "_" + alias + "_" + b.text, a.text + "_" + b.text + "_" + c.text;
    assert |x| > 36 && |y| > 36;
    if KindLayout(base, OBJECT, ids, L) { OutsideIff(base, OBJECT, ids, L, x); }
    if KindLayout(base, EDGE, ids, L) { OutsideIff(base, EDGE, ids, L, y); }
  }

  /** What creating an edge clears: the lists between its objects in both directions, and the lists
      of all edges of either. */
  function CreateEdgeClears(base: string, source: Uuid, target: Uuid): seq<Key> {
    [EdgesObjToObj(base, source, target), ObjectEdgesKey(base, source),
     EdgesObjToObj(base, target, source), ObjectEdgesKey(base, target)]
  }

  /** Once CreateEdge has returned, having held its lock, every cached list of edges that the new edge
      belongs to was fetched after the server had the edge. */
  lemma CreateEdgeVisible(base: string, L: Layout, s: State, run: seq<Step>, e: Uuid, source: Uuid, target: Uuid, k: Key)
    requires forall d :: d in L.deps ==> IsDependencyKey(base, d)
    requires forall c :: c in L.cols ==> IsCollectionKey(base, c)
    requires L.Valid() && Init(s) && Legal(L, s, run)
    requires var t := After(L, s, run);
      && e in t.creators && t.creators[e].granted && t.creators[e].phase == Returned
      && t.creators[e].clears == CreateEdgeClears(base, source, target)
      && k in L.cols && k in t.cache && t.cache[k].Plain?
    requires || k == EdgesObjToObj(base, source, target) || k == EdgesObjToObj(base, target, source)
             || k == ObjectEdgesKey(base, source) || k == ObjectEdgesKey(base, target)
    ensures var t := After(L, s, run);
      && k in t.owner && t.owner[k] in t.fills && t.fills[t.owner[k]].text == t.cache[k].text
      && t.creators[e].commitAt < t.fills[t.owner[k]].fetchAt
  {
    ReadAfterWrite(L, s, run, e, k);
  }

  // ----- Creating an edge, as an operation -----

  /** An edge, as its keys are named. */
  function EdgeItem(base: string, id: Uuid, source: Uuid, target: Uuid, edgeType: Uuid, text: string): Manager.Item {
    Manager.Item(
      IdKey(base, EDGE, id), [EdgeFullKey(base, source, target, edgeType)], Name(base, EDGE, "COL"), "",
      Name(base, "MOD", id.text), Name(base, EDGE, "COL_MOD"), EdgePagesKey(base),
      DependencyKey(base, id), [DependencyKey(base, source), DependencyKey(base, target)], text, false)
  }

  /** The lists that creating an edge touches are among those in use. */
  ghost predicate EdgeLists(L: Layout, base: string, id: Uuid, source: Uuid, target: Uuid) {
    && EdgePagesKey(base) in L.deps && DependencyKey(base, id) in L.deps
    && DependencyKey(base, source) in L.deps && DependencyKey(base, target) in L.deps
  }

  ghost predicate ClientKeys(L: Layout, base: string) {
    (forall d :: d in L.deps ==> IsDependencyKey(base, d)) && (forall c :: c in L.cols ==> IsCollectionKey(base, c))
  }

  /** A key of another kind than lists and collections. */
  lemma OtherKind(L: Layout, base: string, kind: string, rest: string)
    requires ClientKeys(L, base) && kind != "" && kind[0] != 'O' && Name(base, kind, rest) in L.deps + L.cols
    ensures Name(base, kind, rest) == EdgePagesKey(base) || kind[0] == 'D'
  {
    var k := Name(base, kind, rest);
    KindAt(base, kind, rest);
    if k in L.cols { CollectionKind(base, k); }
    if k != EdgePagesKey(base) {
      var id :| k == DependencyKey(base, id);
      KindAt(base, "DEP", id.text);
    }
  }

  lemma EdgeKeyApart(L: Layout, base: string, rest: string)
    requires ClientKeys(L, base) && rest != "COL_PAGES"
    ensures Name(base, EDGE, rest) !in L.deps && Name(base, EDGE, rest) !in L.cols
  {
    SameName(base, EDGE, rest, "COL_PAGES");
    if Name(base, EDGE, rest) in L.deps + L.cols { OtherKind(L, base, EDGE, rest); }
  }

  lemma ModifiedKeyApart(L: Layout, base: string, rest: string)
    requires ClientKeys(L, base)
    ensures Name(base, "MOD", rest) !in L.deps
  {
    KindAt(base, "MOD", rest);
    KindAt(base, EDGE, "COL_PAGES");
    if Name(base, "MOD", rest) in L.deps { OtherKind(L, base, "MOD", rest); }
  }

  lemma EdgePlaced(L: Layout, base: string, id: Uuid, source: Uuid, target: Uuid, edgeType: Uuid, text: string)
    requires ClientKeys(L, base) && EdgeLists(L, base, id, source, target)
    requires ValidUuid(id) && ValidUuid(source) && ValidUuid(target) && ValidUuid(edgeType)
    ensures var i := EdgeItem(base, id, source, target, edgeType, text);
      Operations.Placed(L, i, CreateEdgeClears(base, source, target)) && L.NoDeps(Manager.GetItemLockKeys(Create, i))
  {
    var full := source.text + "_" + target.text + "_" + edgeType.text;
    assert |full| > 36;
    EdgeKeyApart(L, base, id.text);
    EdgeKeyApart(L, base, full);
    EdgeKeyApart(L, base, "COL");
    EdgeKeyApart(L, base, "COL_MOD");
    ModifiedKeyApart(L, base, id.text);
    var clears := CreateEdgeClears(base, source, target);
    forall k | k in clears ensures k !in L.deps {
      assert IsCollectionKey(base, k);
      CollectionKind(base, k);
      if k in L.deps { DependencyKind(base, k); }
    }
    var i := EdgeItem(base, id, source, target, edgeType, text);
    assert Manager.KeyNames(i) == [EdgeFullKey(base, source, target, edgeType), IdKey(base, EDGE, id)];
    assert i.secondary == [EdgeFullKey(base, source, target, edgeType)];
  }

  /** CreateEdge itself: whatever the other clients do between the calls of its CreateItem, they and
      the calls are a legal run in which the four lists are cleared after the server has the edge. */
  lemma CreateEdgeClearsLists(base: string, L: Layout, s: State, e: Uuid, log: seq<Manager.Event>, n: nat, id: Uuid, source: Uuid,
                              target: Uuid, edgeType: Uuid, text: string, result: Manager.CreateResult, others: seq<seq<Step>>)
    requires L.Valid() && ClientKeys(L, base) && EdgeLists(L, base, id, source, target)
    requires ValidUuid(id) && ValidUuid(source) && ValidUuid(target) && ValidUuid(edgeType)
    requires var edge := EdgeItem(base, id, source, target, edgeType, text);
      && Manager.ItemCreated(log, n, edge, Some(edge), false, CreateEdgeClears(base, source, target), e, result)
      && WriteSentinel(log[n].before, Create, Manager.GetItemLockKeys(Create, edge), e).sentinel.Held?
    requires |others| == |log| && Operations.Interleaved(L, e, EdgeJob(base, source, target), s, log, others, n)
    ensures Operations.Runs(L, e, EdgeJob(base, source, target), s.now, s, log, others, n)
  {
    var edge, clears := EdgeItem(base, id, source, target, edgeType, text), CreateEdgeClears(base, source, target);
    EdgePlaced(L, base, id, source, target, edgeType, text);
    ClearsRequired(base, edge, source, target);
    hide Operations.Interleaved, Operations.Runs, Operations.Placed, Manager.ItemCreated, WriteSentinel, EdgeItem, CreateEdgeClears;
    NotSkipped(base, id, source, target, edgeType, text);
    Operations.CreateClearsAll(L, log, n, edge, edge, clears, clears, e, result, s, others);
  }

  function EdgeJob(base: string, source: Uuid, target: Uuid): Operations.Job {
    Operations.Creates(CreateEdgeClears(base, source, target))
  }

  lemma NotSkipped(base: string, id: Uuid, source: Uuid, target: Uuid, edgeType: Uuid, text: string)
    ensures !EdgeItem(base, id, source, target, edgeType, text).skipCache
  {
  }

  lemma ClearsRequired(base: string, i: Manager.Item, source: Uuid, target: Uuid)
    ensures var clears := CreateEdgeClears(base, source, target);
      forall c :: c in clears ==> Manager.MustClear(i, clears, c)
  {
    assert forall kind: string, rest: string :: Name(base, kind, rest) != "";
  }

  /** And once it has returned, a cached list of edges of either object was fetched after that. */
  lemma CreatedEdgeVisible(base: string, L: Layout, s0: State, run0: seq<Step>, s: State, e: Uuid, source: Uuid, target: Uuid,
                           log: seq<Manager.Event>, others: seq<seq<Step>>, n: nat, t: State, later: seq<Step>, k: Key)
    requires L.Valid() && Init(s0) && Legal(L, s0, run0) && s == After(L, s0, run0)
    requires n <= |log| == |others| && Operations.Runs(L, e, EdgeJob(base, source, target), s.now, s, log, others, n)
    requires t == After(L, s, Operations.Whole(L, e, EdgeJob(base, source, target), s, log, others, n))
    requires Operations.Foreign(later, e) && Legal(L, Apply(L, t, CreateReturn(e)), later)
    requires || k == EdgesObjToObj(base, source, target) || k == EdgesObjToObj(base, target, source)
             || k == ObjectEdgesKey(base, source) || k == ObjectEdgesKey(base, target)
    requires var u := After(L, Apply(L, t, CreateReturn(e)), later); k in L.cols && k in u.cache && u.cache[k].Plain?
    ensures var u := After(L, Apply(L, t, CreateReturn(e)), later);
      && k in u.owner && u.owner[k] in u.fills && u.fills[u.owner[k]].text == u.cache[k].text
      && e in u.creators && s.now <= u.creators[e].commitAt < u.fills[u.owner[k]].fetchAt
  {
    var clears := CreateEdgeClears(base, source, target);
    assert k in clears;
    hide Operations.Runs, Operations.Whole, Apply, CreateEdgeClears;
    Operations.CreatedIsVisible(L, s0, run0, s, clears, e, log, others, n, t, later, k);
  }
}
