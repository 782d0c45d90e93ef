// `syncCategories`: the category tree is written to Odoo's product.category
// level by level (departments, then categories, then subcategories). A node
// reuses the existing category with the same parent id and name, or is
// created under its parent's id; the root "Proconsa" category is looked up
// by name or created. Odoo's `create` is a parameter returning the new id.
module CategorySync {
  import opened Wrappers
  import opened Seqs
  import opened Text
  import opened OrderedMap
  import opened InventorySync

  /** A `product.category` record as read back: id, name and `parent_id`. */
  datatype OdooCategory = OdooCategory(id: int, name: string, parentId: Option<int>)

  const RootName: string := "Proconsa"
  const RootKey: string := "ROOT"

  // ---------------------------------------------------------------- depth

  /** The pass a node is written in: 0 without a parent, 1 for a `C:` key,
   *  2 for any other key with a parent. */
  function DepthOf(n: CategoryNode): (d: nat)
    ensures d < 3
    ensures d == 0 <==> n.parentKey.None?
  {
    if n.parentKey.None? then 0 else if StartsWith(n.key, "C:") then 1 else 2
  }

  lemma DistinctPrefixes(s: string, p: string, q: string)
    requires |p| == 2 && |q| == 2 && p[0] != q[0] && StartsWith(s, p)
    ensures !StartsWith(s, q)
  {
    assert s[..2][0] == s[0];
  }

  /** In a well-formed tree a parent is written one pass before its child. */
  lemma ParentOneUp(t: OMap<string, CategoryNode>, k: string)
    requires WellFormedTree(t) && k in t.m && t.m[k].parentKey.Some?
    ensures t.m[k].parentKey.value in t.m
    ensures DepthOf(t.m[t.m[k].parentKey.value]) + 1 == DepthOf(t.m[k])
  {
    var n := t.m[k];
    var p := n.parentKey.value;
    var pn := t.m[p];
    assert pn.key == p;
    if StartsWith(n.key, "C:") {
      DistinctPrefixes(p, "D:", "C:");
      DistinctPrefixes(p, "D:", "S:");
    } else {
      assert StartsWith(n.key, "S:");
      DistinctPrefixes(p, "C:", "D:");
      DistinctPrefixes(p, "C:", "S:");
    }
  }

  function AtDepth(d: nat): CategoryNode -> bool
  {
    (n: CategoryNode) => DepthOf(n) == d
  }

  /** `byDepth[d]`: the tree's nodes of depth `d`, in the tree's order. */
  function NodesAt(t: OMap<string, CategoryNode>, d: nat): seq<CategoryNode>
    requires Valid(t)
  {
    Filter(Values(t), AtDepth(d))
  }

  /** The three `byDepth` lists, filled in one pass over the tree. */
  method Partition(t: OMap<string, CategoryNode>) returns (d0: seq<CategoryNode>, d1: seq<CategoryNode>, d2: seq<CategoryNode>)
    requires Valid(t)
    ensures d0 == NodesAt(t, 0) && d1 == NodesAt(t, 1) && d2 == NodesAt(t, 2)
  {
    var vs := Values(t);
    d0, d1, d2 := [], [], [];
    var i := 0;
    while i < |t.keys|
      invariant 0 <= i <= |t.keys|
      invariant d0 == Filter(vs[..i], AtDepth(0))
      invariant d1 == Filter(vs[..i], AtDepth(1))
      invariant d2 == Filter(vs[..i], AtDepth(2))
    {
      var node := t.m[t.keys[i]];
      assert vs[i] == node;
      FilterSnoc(vs, AtDepth(0), i);
      FilterSnoc(vs, AtDepth(1), i);
      FilterSnoc(vs, AtDepth(2), i);
      if node.parentKey.None? {
        d0 := d0 + [node];
      } else if StartsWith(node.key, "C:") {
        d1 := d1 + [node];
      } else {
        d2 := d2 + [node];
      }
      i := i + 1;
    }
    assert vs[..i] == vs;
  }

  // ---------------------------------------------------------------- existing categories

  /** `existing.find(c => c.name === 'Proconsa')?.id`. */
  function FindRoot(existing: seq<OdooCategory>): (r: Option<int>)
    ensures r.None? <==> forall i :: 0 <= i < |existing| ==> existing[i].name != RootName
    ensures r.Some? ==> exists i :: (0 <= i < |existing| && existing[i].name == RootName
      && existing[i].id == r.value && forall j :: 0 <= j < i ==> existing[j].name != RootName)
  {
    if existing == [] then None
    else if existing[0].name == RootName then Some(existing[0].id)
    else
      var r := FindRoot(existing[1..]);
      assert forall i :: 1 <= i < |existing| ==> existing[i] == existing[1..][i - 1];
      if r.Some? then
        var i :| 0 <= i < |existing[1..]| && existing[1..][i].name == RootName
          && existing[1..][i].id == r.value && forall j :: 0 <= j < i ==> existing[1..][j].name != RootName;
        assert existing[i + 1] == existing[1..][i];
        r
      else r
  }

  /** The root's id: the first "Proconsa" category when its id is non-zero,
   *  otherwise a new top-level one. */
  function RootId(existing: seq<OdooCategory>, create: (string, int) -> int): int
  {
    var found := FindRoot(existing);
    if found.Some? && found.value != 0 then found.value else create(RootName, 0)
  }

  function ParentOf(c: OdooCategory): int
  {
    if c.parentId.Some? then c.parentId.value else 0
  }

  function LookupEntry(c: OdooCategory): Option<((int, string), int)>
  {
    Some(((ParentOf(c), c.name), c.id))
  }

  /** `existingLookup`: (parent id, name) → id; a later category with the
   *  same parent and name overwrites. */
  function ExistingLookup(existing: seq<OdooCategory>): map<(int, string), int>
  {
    PutCollected(existing, LookupEntry).m
  }

  method BuildLookup(existing: seq<OdooCategory>) returns (lk: map<(int, string), int>)
    ensures lk == ExistingLookup(existing)
  {
    var o: OMap<(int, string), int> := Empty();
    var i := 0;
    while i < |existing|
      invariant 0 <= i <= |existing|
      invariant o == PutCollected(existing[..i], LookupEntry)
    {
      PutCollectedSnoc(existing, LookupEntry, i);
      var c := existing[i];
      o := Put(o, (ParentOf(c), c.name), c.id);
      i := i + 1;
    }
    assert existing[..i] == existing;
    lk := o.m;
  }

  /** The lookup holds exactly the (parent, name) pairs of the categories,
   *  each with the id of the last category carrying it. */
  lemma ExistingLookupKeys(existing: seq<OdooCategory>, key: (int, string))
    ensures key in ExistingLookup(existing) <==>
      exists i :: 0 <= i < |existing| && (ParentOf(existing[i]), existing[i].name) == key
  {
    PutCollectedKeys(existing, LookupEntry, key);
    assert forall i :: 0 <= i < |existing| ==>
      (HasKey(LookupEntry, existing[i], key) <==> (ParentOf(existing[i]), existing[i].name) == key);
  }

  lemma ExistingLookupLastWins(existing: seq<OdooCategory>, key: (int, string))
    requires key in ExistingLookup(existing)
    ensures exists i :: (0 <= i < |existing| && (ParentOf(existing[i]), existing[i].name) == key
      && ExistingLookup(existing)[key] == existing[i].id
      && forall j :: i < j < |existing| ==> (ParentOf(existing[j]), existing[j].name) != key)
  {
    PutCollectedLastWins(existing, LookupEntry, key);
    var i :| 0 <= i < |existing| && LookupEntry(existing[i]) == Some((key, ExistingLookup(existing)[key]))
      && forall j :: i < j < |existing| ==> !HasKey(LookupEntry, existing[j], key);
    assert forall j :: i < j < |existing| ==> (ParentOf(existing[j]), existing[j].name) != key by {
      forall j | i < j < |existing| ensures (ParentOf(existing[j]), existing[j].name) != key {
        assert !HasKey(LookupEntry, existing[j], key);
      }
    }
  }

  // ---------------------------------------------------------------- one pass

  /** `node.parentKey ? (keyToOdooId.get(node.parentKey) ?? rootId) : rootId`. */
  function ParentId(n: CategoryNode, km: map<string, int>, root: int): int
  {
    if n.parentKey.Some? && n.parentKey.value != "" then
      (if n.parentKey.value in km then km[n.parentKey.value] else root)
    else root
  }

  /** `existingLookup.get(key)` is a non-zero id. */
  predicate Found(lk: map<(int, string), int>, key: (int, string))
  {
    key in lk && lk[key] != 0
  }

  /** The id a pass gives a node: the matching category's, or a new one's. */
  function IdFor(n: CategoryNode, km: map<string, int>, lk: map<(int, string), int>, root: int,
                 create: (string, int) -> int): int
  {
    var pid := ParentId(n, km, root);
    if Found(lk, (pid, n.name)) then lk[(pid, n.name)] else create(n.name, pid)
  }

  /** Every lookup entry is an original one or a category created with that
   *  parent and name. */
  predicate LookupOk(lk: map<(int, string), int>, lk0: map<(int, string), int>, create: (string, int) -> int)
  {
    forall key :: key in lk ==> (key in lk0 && lk[key] == lk0[key]) || lk[key] == create(key.1, key.0)
  }

  /** A node's id is the existing category with its parent and name, or the
   *  one created for it under that parent. */
  predicate IdOk(n: CategoryNode, id: int, pid: int, lk0: map<(int, string), int>, create: (string, int) -> int)
  {
    id == create(n.name, pid) || (Found(lk0, (pid, n.name)) && id == lk0[(pid, n.name)])
  }

  lemma IdForOk(n: CategoryNode, km: map<string, int>, lk: map<(int, string), int>, root: int,
                lk0: map<(int, string), int>, create: (string, int) -> int)
    requires LookupOk(lk, lk0, create)
    ensures IdOk(n, IdFor(n, km, lk, root, create), ParentId(n, km, root), lk0, create)
  {
    var key := (ParentId(n, km, root), n.name);
    if Found(lk, key) {
      assert (key in lk0 && lk[key] == lk0[key]) || lk[key] == create(key.1, key.0);
    }
  }

  function NodeKeys(nodes: seq<CategoryNode>): set<string>
  {
    set n | n in nodes :: n.key
  }

  function CreateKeys(tc: seq<(CategoryNode, int)>): set<string>
  {
    set e | e in tc :: e.0.key
  }

  predicate KeysDistinct(nodes: seq<CategoryNode>)
  {
    forall i, j :: 0 <= i < j < |nodes| ==> nodes[i].key != nodes[j].key
  }

  predicate CreateKeysDistinct(tc: seq<(CategoryNode, int)>)
  {
    forall i, j :: 0 <= i < j < |tc| ==> tc[i].0.key != tc[j].0.key
  }

  /** A pass whose nodes have distinct keys and whose parents are not
   *  written in the same pass. */
  predicate Independent(nodes: seq<CategoryNode>)
  {
    KeysDistinct(nodes) && forall n :: n in nodes ==> n.parentKey.None? || n.parentKey.value !in NodeKeys(nodes)
  }

  /** The first loop of a pass: nodes whose category exists are mapped to
   *  it, the others are queued with their parent's id. */
  method MatchExisting(nodes: seq<CategoryNode>, km: map<string, int>, lk: map<(int, string), int>, root: int)
    returns (km2: map<string, int>, toCreate: seq<(CategoryNode, int)>)
    ensures km.Keys <= km2.Keys <= km.Keys + NodeKeys(nodes)
    ensures NodeKeys(nodes) <= km2.Keys + CreateKeys(toCreate)
    ensures CreateKeys(toCreate) <= NodeKeys(nodes)
    ensures forall k :: k in km && k !in NodeKeys(nodes) ==> km2[k] == km[k]
    ensures Independent(nodes) ==> CreateKeysDistinct(toCreate)
    ensures Independent(nodes) ==> forall n :: n in nodes ==> Queued(n, km, lk, root, km2, toCreate)
  {
    km2, toCreate := km, [];
    var i := 0;
    while i < |nodes|
      invariant 0 <= i <= |nodes|
      invariant MatchInv(nodes, i, km, lk, root, km2, toCreate)
    {
      var node := nodes[i];
      var pid := ParentId(node, km2, root);
      ghost var kmA, tcA := km2, toCreate;
      if Found(lk, (pid, node.name)) {
        km2 := km2[node.key := lk[(pid, node.name)]];
      } else {
        toCreate := toCreate + [(node, pid)];
      }
      MatchStep(nodes, i, km, lk, root, kmA, km2, tcA, toCreate);
      i := i + 1;
    }
    assert nodes[..i] == nodes;
    if Independent(nodes) {
      forall n | n in nodes ensures Queued(n, km, lk, root, km2, toCreate) {
        var j :| 0 <= j < |nodes| && nodes[j] == n;
      }
    }
  }

  /** What the first loop has established after `i` nodes. */
  ghost predicate MatchInv(nodes: seq<CategoryNode>, i: nat, km: map<string, int>, lk: map<(int, string), int>, root: int,
                           km2: map<string, int>, tc: seq<(CategoryNode, int)>)
    requires i <= |nodes|
  {
    FrameInv(nodes, i, km, km2, tc)
    && (Independent(nodes) ==> CreateKeysDistinct(tc) && forall j :: 0 <= j < i ==> Queued(nodes[j], km, lk, root, km2, tc))
  }

  ghost predicate FrameInv(nodes: seq<CategoryNode>, i: nat, km: map<string, int>, km2: map<string, int>,
                           tc: seq<(CategoryNode, int)>)
    requires i <= |nodes|
  {
    km.Keys <= km2.Keys <= km.Keys + NodeKeys(nodes[..i])
    && NodeKeys(nodes[..i]) <= km2.Keys + CreateKeys(tc)
    && (forall e :: e in tc ==> e.0 in nodes[..i])
    && (forall k :: k in km && k !in NodeKeys(nodes[..i]) ==> km2[k] == km[k])
  }

  lemma MatchStep(nodes: seq<CategoryNode>, i: nat, km: map<string, int>, lk: map<(int, string), int>, root: int,
                  kmA: map<string, int>, kmB: map<string, int>, tcA: seq<(CategoryNode, int)>, tcB: seq<(CategoryNode, int)>)
    requires i < |nodes| && MatchInv(nodes, i, km, lk, root, kmA, tcA)
    requires var n := nodes[i]; var pid := ParentId(n, kmA, root);
      if Found(lk, (pid, n.name)) then kmB == kmA[n.key := lk[(pid, n.name)]] && tcB == tcA
      else kmB == kmA && tcB == tcA + [(n, pid)]
    ensures MatchInv(nodes, i + 1, km, lk, root, kmB, tcB)
  {
    var n := nodes[i];
    var pid := ParentId(n, kmA, root);
    if Found(lk, (pid, n.name)) {
      FrameStep(nodes, i, km, kmA, kmB, tcA, tcB, false, lk[(pid, n.name)]);
    } else {
      FrameStep(nodes, i, km, kmA, kmB, tcA, tcB, true, pid);
    }
    if Independent(nodes) {
      SettledParent(nodes, i, km, kmA, root);
      QueueStep(nodes, i, km, lk, root, kmA, kmB, tcA, tcB);
    }
  }

  lemma FrameStep(nodes: seq<CategoryNode>, i: nat, km: map<string, int>,
                  kmA: map<string, int>, kmB: map<string, int>, tcA: seq<(CategoryNode, int)>, tcB: seq<(CategoryNode, int)>,
                  queued: bool, v: int)
    requires i < |nodes| && FrameInv(nodes, i, km, kmA, tcA)
    requires if queued then kmB == kmA && tcB == tcA + [(nodes[i], v)] else kmB == kmA[nodes[i].key := v] && tcB == tcA
    ensures FrameInv(nodes, i + 1, km, kmB, tcB)
  {
    NodeKeysSnoc(nodes, i);
    if queued {
      FrameQueued(nodes, i, km, kmA, tcA, v);
    } else {
      FrameMapped(nodes, i, km, kmA, tcA, v);
    }
  }

  lemma FrameQueued(nodes: seq<CategoryNode>, i: nat, km: map<string, int>,
                    kmA: map<string, int>, tcA: seq<(CategoryNode, int)>, v: int)
    requires i < |nodes| && FrameInv(nodes, i, km, kmA, tcA)
    requires NodeKeys(nodes[..i + 1]) == NodeKeys(nodes[..i]) + {nodes[i].key}
    requires forall x :: x in nodes[..i] ==> x in nodes[..i + 1]
    requires nodes[i] in nodes[..i + 1]
    ensures FrameInv(nodes, i + 1, km, kmA, tcA + [(nodes[i], v)])
  {
    var tcB := tcA + [(nodes[i], v)];
    assert CreateKeys(tcB) == CreateKeys(tcA) + {nodes[i].key};
    forall e | e in tcB ensures e.0 in nodes[..i + 1] {
      if e in tcA {
      }
    }
  }

  lemma FrameMapped(nodes: seq<CategoryNode>, i: nat, km: map<string, int>,
                    kmA: map<string, int>, tcA: seq<(CategoryNode, int)>, v: int)
    requires i < |nodes| && FrameInv(nodes, i, km, kmA, tcA)
    requires NodeKeys(nodes[..i + 1]) == NodeKeys(nodes[..i]) + {nodes[i].key}
    requires forall x :: x in nodes[..i] ==> x in nodes[..i + 1]
    ensures FrameInv(nodes, i + 1, km, kmA[nodes[i].key := v], tcA)
  {
  }

  lemma NodeKeysSnoc(nodes: seq<CategoryNode>, i: nat)
    requires i < |nodes|
    ensures forall x :: x in nodes[..i] ==> x in nodes[..i + 1]
    ensures nodes[i] in nodes[..i + 1]
    ensures NodeKeys(nodes[..i + 1]) == NodeKeys(nodes[..i]) + {nodes[i].key}
  {
    assert nodes[..i + 1] == nodes[..i] + [nodes[i]];
  }

  lemma QueueStep(nodes: seq<CategoryNode>, i: nat, km: map<string, int>, lk: map<(int, string), int>, root: int,
                  kmA: map<string, int>, kmB: map<string, int>, tcA: seq<(CategoryNode, int)>, tcB: seq<(CategoryNode, int)>)
    requires i < |nodes| && Independent(nodes) && MatchInv(nodes, i, km, lk, root, kmA, tcA)
    requires ParentId(nodes[i], kmA, root) == ParentId(nodes[i], km, root)
    requires var n := nodes[i]; var pid := ParentId(n, kmA, root);
      if Found(lk, (pid, n.name)) then kmB == kmA[n.key := lk[(pid, n.name)]] && tcB == tcA
      else kmB == kmA && tcB == tcA + [(n, pid)]
    ensures CreateKeysDistinct(tcB) && forall j :: 0 <= j <= i ==> Queued(nodes[j], km, lk, root, kmB, tcB)
  {
    var n := nodes[i];
    forall e | e in tcA ensures e.0.key != n.key {
      var j :| 0 <= j < i && nodes[..i][j] == e.0;
    }
    forall j | 0 <= j < i ensures Queued(nodes[j], km, lk, root, kmB, tcB) {
      assert nodes[j].key != n.key;
      assert Queued(nodes[j], km, lk, root, kmA, tcA);
    }
  }

  /** Where the first loop left a node: mapped to its category, not queued;
   *  or queued with its parent's id. */
  predicate Queued(n: CategoryNode, km: map<string, int>, lk: map<(int, string), int>, root: int,
                   km2: map<string, int>, toCreate: seq<(CategoryNode, int)>)
  {
    var pid := ParentId(n, km, root);
    if Found(lk, (pid, n.name)) then n.key in km2 && km2[n.key] == lk[(pid, n.name)] && n.key !in CreateKeys(toCreate)
    else (n, pid) in toCreate && !Found(lk, (pid, n.name))
  }

  /** Within an independent pass, a node's parent id reads as it did when
   *  the pass began. */
  lemma SettledParent(nodes: seq<CategoryNode>, i: nat, km: map<string, int>, km2: map<string, int>, root: int)
    requires i < |nodes| && Independent(nodes)
    requires km.Keys <= km2.Keys <= km.Keys + NodeKeys(nodes[..i])
    requires forall k :: k in km && k !in NodeKeys(nodes[..i]) ==> km2[k] == km[k]
    ensures ParentId(nodes[i], km2, root) == ParentId(nodes[i], km, root)
  {
    var n := nodes[i];
    assert n in nodes;
    if n.parentKey.Some? {
      assert NodeKeys(nodes[..i]) <= NodeKeys(nodes) by {
        forall x | x in nodes[..i] ensures x in nodes {
        }
      }
    }
  }

  /** The second loop of a pass: every queued node gets the id of the
   *  category created for it, and the lookup learns it. */
  method CreateMissing(toCreate: seq<(CategoryNode, int)>, km: map<string, int>, lk: map<(int, string), int>,
                       create: (string, int) -> int, ghost lk0: map<(int, string), int>)
    returns (km3: map<string, int>, lk3: map<(int, string), int>)
    requires LookupOk(lk, lk0, create)
    ensures km3.Keys == km.Keys + CreateKeys(toCreate)
    ensures forall k :: k in km && k !in CreateKeys(toCreate) ==> km3[k] == km[k]
    ensures CreateKeysDistinct(toCreate) ==> forall e :: e in toCreate ==> km3[e.0.key] == create(e.0.name, e.1)
    ensures LookupOk(lk3, lk0, create)
  {
    km3, lk3 := km, lk;
    var i := 0;
    while i < |toCreate|
      invariant 0 <= i <= |toCreate|
      invariant km3.Keys == km.Keys + CreateKeys(toCreate[..i])
      invariant forall k :: k in km && k !in CreateKeys(toCreate[..i]) ==> km3[k] == km[k]
      invariant CreateKeysDistinct(toCreate) ==>
        forall l :: 0 <= l < i ==> km3[toCreate[l].0.key] == create(toCreate[l].0.name, toCreate[l].1)
      invariant LookupOk(lk3, lk0, create)
    {
      var e := toCreate[i];
      var id := create(e.0.name, e.1);
      CreateStep(toCreate, i, km, km3, create);
      km3 := km3[e.0.key := id];
      lk3 := lk3[(e.1, e.0.name) := id];
      i := i + 1;
    }
    assert toCreate[..i] == toCreate;
    if CreateKeysDistinct(toCreate) {
      forall e | e in toCreate ensures km3[e.0.key] == create(e.0.name, e.1) {
        var l :| 0 <= l < |toCreate| && toCreate[l] == e;
      }
    }
  }

  /** One step of CreateMissing's loop keeps its invariant on the key map. */
  lemma CreateStep(tc: seq<(CategoryNode, int)>, i: nat, km: map<string, int>, kmA: map<string, int>,
                   create: (string, int) -> int)
    requires i < |tc|
    requires kmA.Keys == km.Keys + CreateKeys(tc[..i])
    requires forall k :: k in km && k !in CreateKeys(tc[..i]) ==> kmA[k] == km[k]
    requires CreateKeysDistinct(tc) ==> forall l :: 0 <= l < i ==> kmA[tc[l].0.key] == create(tc[l].0.name, tc[l].1)
    ensures var kmB := kmA[tc[i].0.key := create(tc[i].0.name, tc[i].1)];
      && kmB.Keys == km.Keys + CreateKeys(tc[..i + 1])
      && (forall k :: k in km && k !in CreateKeys(tc[..i + 1]) ==> kmB[k] == km[k])
      && (CreateKeysDistinct(tc) ==>
            forall l :: 0 <= l < i + 1 ==> kmB[tc[l].0.key] == create(tc[l].0.name, tc[l].1))
  {
    var e := tc[i];
    assert tc[..i + 1] == tc[..i] + [e];
    assert CreateKeys(tc[..i + 1]) == CreateKeys(tc[..i]) + {e.0.key} by {
      forall x | x in tc[..i + 1] ensures x in tc[..i] || x == e {}
    }
    if CreateKeysDistinct(tc) {
      forall l | 0 <= l < i ensures tc[l].0.key != e.0.key {}
    }
  }

  /** One depth: map the nodes whose category exists, then create the rest. */
  method ResolveDepth(nodes: seq<CategoryNode>, km: map<string, int>, lk: map<(int, string), int>, root: int,
                      create: (string, int) -> int, ghost lk0: map<(int, string), int>)
    returns (km3: map<string, int>, lk3: map<(int, string), int>)
    requires LookupOk(lk, lk0, create)
    ensures km3.Keys == km.Keys + NodeKeys(nodes)
    ensures forall k :: k in km && k !in NodeKeys(nodes) ==> km3[k] == km[k]
    ensures LookupOk(lk3, lk0, create)
    ensures Independent(nodes) ==> forall n :: n in nodes ==> km3[n.key] == IdFor(n, km, lk, root, create)
  {
    var km2, toCreate := MatchExisting(nodes, km, lk, root);
    km3, lk3 := CreateMissing(toCreate, km2, lk, create, lk0);
    if Independent(nodes) {
      forall n | n in nodes ensures km3[n.key] == IdFor(n, km, lk, root, create) {
        ResolvedNode(n, km, lk, root, create, km2, toCreate, km3);
      }
    }
  }

  /** A node the first loop mapped keeps its id through the second; a queued
   *  one gets the id created for it. */
  lemma ResolvedNode(n: CategoryNode, km: map<string, int>, lk: map<(int, string), int>, root: int,
                     create: (string, int) -> int, km2: map<string, int>, toCreate: seq<(CategoryNode, int)>,
                     km3: map<string, int>)
    requires Queued(n, km, lk, root, km2, toCreate) && CreateKeysDistinct(toCreate)
    requires km3.Keys == km2.Keys + CreateKeys(toCreate)
    requires forall k :: k in km2 && k !in CreateKeys(toCreate) ==> km3[k] == km2[k]
    requires forall e :: e in toCreate ==> km3[e.0.key] == create(e.0.name, e.1)
    ensures km3[n.key] == IdFor(n, km, lk, root, create)
  {
    var pid := ParentId(n, km, root);
    if !Found(lk, (pid, n.name)) {
      assert (n, pid) in toCreate;
    }
  }

  // ---------------------------------------------------------------- the tree's passes

  lemma NodesAtMembership(t: OMap<string, CategoryNode>, d: nat, x: CategoryNode)
    requires Valid(t)
    ensures x in NodesAt(t, d) <==> x in Values(t) && DepthOf(x) == d
  {
    if x in Values(t) && DepthOf(x) == d {
      FilterComplete(Values(t), AtDepth(d), x);
    }
  }

  /** A well-formed tree's values are its nodes, each under its own key. */
  lemma ValueIsNode(t: OMap<string, CategoryNode>, x: CategoryNode)
    requires WellFormedTree(t) && x in Values(t)
    ensures x.key in t.m && t.m[x.key] == x
  {
    ValuesMembership(t, x);
  }

  /** Each key of a well-formed tree is written in its node's pass and in no other. */
  lemma KeyPass(t: OMap<string, CategoryNode>, k: string, e: nat)
    requires WellFormedTree(t) && k in t.m
    ensures k in NodeKeys(NodesAt(t, DepthOf(t.m[k])))
    ensures e != DepthOf(t.m[k]) ==> k !in NodeKeys(NodesAt(t, e))
  {
    var n := t.m[k];
    ValuesMembership(t, n);
    NodesAtMembership(t, DepthOf(n), n);
    if e != DepthOf(n) && k in NodeKeys(NodesAt(t, e)) {
      var x :| x in NodesAt(t, e) && x.key == k;
      NodesAtMembership(t, e, x);
      ValueIsNode(t, x);
    }
  }

  /** In a well-formed tree every pass is independent. */
  lemma PassIndependent(t: OMap<string, CategoryNode>, d: nat)
    requires WellFormedTree(t)
    ensures Independent(NodesAt(t, d))
  {
    var vs := Values(t);
    forall i, j | 0 <= i < j < |vs| ensures vs[i] != vs[j] {
      assert vs[i].key == t.keys[i] && vs[j].key == t.keys[j];
    }
    FilterKeepsDistinct(vs, AtDepth(d));
    var nodes := NodesAt(t, d);
    forall i, j | 0 <= i < j < |nodes| ensures nodes[i].key != nodes[j].key {
      assert nodes[i] in vs && nodes[j] in vs;
      ValueIsNode(t, nodes[i]);
      ValueIsNode(t, nodes[j]);
    }
    forall n | n in nodes && n.parentKey.Some? ensures n.parentKey.value !in NodeKeys(nodes) {
      ValueIsNode(t, n);
      ParentOneUp(t, n.key);
      KeyPass(t, n.parentKey.value, d);
    }
  }

  /** What one pass over depth `d` guarantees. */
  ghost predicate PassOk(t: OMap<string, CategoryNode>, d: nat, kmA: map<string, int>, kmB: map<string, int>,
                         lkA: map<(int, string), int>, root: int, create: (string, int) -> int, lk0: map<(int, string), int>)
    requires Valid(t)
  {
    kmB.Keys == kmA.Keys + NodeKeys(NodesAt(t, d))
    && (forall k :: k in kmA && k !in NodeKeys(NodesAt(t, d)) ==> kmB[k] == kmA[k])
    && LookupOk(lkA, lk0, create)
    && forall n :: n in NodesAt(t, d) ==> n.key in kmB && kmB[n.key] == IdFor(n, kmA, lkA, root, create)
  }

  /** A pass leaves alone the keys it does not write. */
  lemma PassKeeps(t: OMap<string, CategoryNode>, e: nat, kmA: map<string, int>, kmB: map<string, int>,
                  lkA: map<(int, string), int>, root: int, create: (string, int) -> int, lk0: map<(int, string), int>, k: string)
    requires WellFormedTree(t) && k in t.m && e != DepthOf(t.m[k])
    requires PassOk(t, e, kmA, kmB, lkA, root, create, lk0) && k in kmA
    ensures k in kmB && kmB[k] == kmA[k]
  {
    KeyPass(t, k, e);
  }

  /** A pass writes its own nodes with the ids `IdFor` gives them. */
  lemma PassWrites(t: OMap<string, CategoryNode>, kmA: map<string, int>, kmB: map<string, int>,
                   lkA: map<(int, string), int>, root: int, create: (string, int) -> int, lk0: map<(int, string), int>, k: string)
    requires WellFormedTree(t) && k in t.m
    requires PassOk(t, DepthOf(t.m[k]), kmA, kmB, lkA, root, create, lk0)
    ensures k in kmB && IdOk(t.m[k], kmB[k], ParentId(t.m[k], kmA, root), lk0, create)
  {
    var n := t.m[k];
    ValuesMembership(t, n);
    NodesAtMembership(t, DepthOf(n), n);
    IdForOk(n, kmA, lkA, root, lk0, create);
  }

  /** A parent is in the id map from the pass after its own. */
  lemma ParentWritten(t: OMap<string, CategoryNode>, kmA: map<string, int>, kmB: map<string, int>,
                      lkA: map<(int, string), int>, root: int, create: (string, int) -> int, lk0: map<(int, string), int>, k: string)
    requires WellFormedTree(t) && k in t.m && t.m[k].parentKey.Some?
    requires PassOk(t, DepthOf(t.m[k]) - 1, kmA, kmB, lkA, root, create, lk0)
    ensures t.m[k].parentKey.value in kmB && t.m[k].parentKey.value != ""
  {
    var p := t.m[k].parentKey.value;
    ParentOneUp(t, k);
    KeyPass(t, p, 0);
    assert StartsWith(p, "D:") || StartsWith(p, "C:");
  }

  /** The id map after the three passes, read back per key. */
  lemma PassesIds(t: OMap<string, CategoryNode>, km0: map<string, int>, km1: map<string, int>, km2: map<string, int>,
                  km3: map<string, int>, lkA0: map<(int, string), int>, lkA1: map<(int, string), int>,
                  lkA2: map<(int, string), int>, root: int, create: (string, int) -> int, lk0: map<(int, string), int>, k: string)
    requires WellFormedTree(t) && k in t.m
    requires PassOk(t, 0, km0, km1, lkA0, root, create, lk0)
    requires PassOk(t, 1, km1, km2, lkA1, root, create, lk0)
    requires PassOk(t, 2, km2, km3, lkA2, root, create, lk0)
    ensures k in km3 && IdOk(t.m[k], km3[k], ParentId(t.m[k], km3, root), lk0, create)
  {
    var d := DepthOf(t.m[k]);
    if d == 0 {
      DepartmentIds(t, km0, km1, km2, km3, lkA0, lkA1, lkA2, root, create, lk0, k);
    } else if d == 1 {
      CategoryIds(t, km0, km1, km2, km3, lkA0, lkA1, lkA2, root, create, lk0, k);
    } else {
      SubcategoryIds(t, km1, km2, km3, lkA1, lkA2, root, create, lk0, k);
    }
  }

  /** A department is written by the first pass and kept by the others. */
  lemma DepartmentIds(t: OMap<string, CategoryNode>, km0: map<string, int>, km1: map<string, int>, km2: map<string, int>,
                      km3: map<string, int>, lkA0: map<(int, string), int>, lkA1: map<(int, string), int>,
                      lkA2: map<(int, string), int>, root: int, create: (string, int) -> int, lk0: map<(int, string), int>,
                      k: string)
    requires WellFormedTree(t) && k in t.m && DepthOf(t.m[k]) == 0
    requires PassOk(t, 0, km0, km1, lkA0, root, create, lk0)
    requires PassOk(t, 1, km1, km2, lkA1, root, create, lk0)
    requires PassOk(t, 2, km2, km3, lkA2, root, create, lk0)
    ensures k in km3 && IdOk(t.m[k], km3[k], ParentId(t.m[k], km3, root), lk0, create)
  {
    PassWrites(t, km0, km1, lkA0, root, create, lk0, k);
    PassKeeps(t, 1, km1, km2, lkA1, root, create, lk0, k);
    PassKeeps(t, 2, km2, km3, lkA2, root, create, lk0, k);
  }

  /** A category is written by the second pass, under a department the
   *  first pass wrote; the third pass keeps both. */
  lemma CategoryIds(t: OMap<string, CategoryNode>, km0: map<string, int>, km1: map<string, int>, km2: map<string, int>,
                    km3: map<string, int>, lkA0: map<(int, string), int>, lkA1: map<(int, string), int>,
                    lkA2: map<(int, string), int>, root: int, create: (string, int) -> int, lk0: map<(int, string), int>,
                    k: string)
    requires WellFormedTree(t) && k in t.m && DepthOf(t.m[k]) == 1
    requires PassOk(t, 0, km0, km1, lkA0, root, create, lk0)
    requires PassOk(t, 1, km1, km2, lkA1, root, create, lk0)
    requires PassOk(t, 2, km2, km3, lkA2, root, create, lk0)
    ensures k in km3 && IdOk(t.m[k], km3[k], ParentId(t.m[k], km3, root), lk0, create)
  {
    var p := t.m[k].parentKey.value;
    PassWrites(t, km1, km2, lkA1, root, create, lk0, k);
    PassKeeps(t, 2, km2, km3, lkA2, root, create, lk0, k);
    ParentWritten(t, km0, km1, lkA0, root, create, lk0, k);
    ParentOneUp(t, k);
    PassKeeps(t, 1, km1, km2, lkA1, root, create, lk0, p);
    PassKeeps(t, 2, km2, km3, lkA2, root, create, lk0, p);
  }

  /** A subcategory is written by the third pass, under a category the
   *  second pass wrote. */
  lemma SubcategoryIds(t: OMap<string, CategoryNode>, km1: map<string, int>, km2: map<string, int>,
                       km3: map<string, int>, lkA1: map<(int, string), int>,
                       lkA2: map<(int, string), int>, root: int, create: (string, int) -> int, lk0: map<(int, string), int>,
                       k: string)
    requires WellFormedTree(t) && k in t.m && DepthOf(t.m[k]) == 2
    requires PassOk(t, 1, km1, km2, lkA1, root, create, lk0)
    requires PassOk(t, 2, km2, km3, lkA2, root, create, lk0)
    ensures k in km3 && IdOk(t.m[k], km3[k], ParentId(t.m[k], km3, root), lk0, create)
  {
    var p := t.m[k].parentKey.value;
    PassWrites(t, km2, km3, lkA2, root, create, lk0, k);
    ParentWritten(t, km1, km2, lkA1, root, create, lk0, k);
    ParentOneUp(t, k);
    PassKeeps(t, 2, km2, km3, lkA2, root, create, lk0, p);
  }

  /** What `ResolveDepth` promises for the pass over depth `d`. */
  ghost predicate PassDone(t: OMap<string, CategoryNode>, d: nat, kmA: map<string, int>, kmB: map<string, int>,
                           lkA: map<(int, string), int>, lkB: map<(int, string), int>, root: int,
                           create: (string, int) -> int, lk0: map<(int, string), int>)
    requires Valid(t)
  {
    kmB.Keys == kmA.Keys + NodeKeys(NodesAt(t, d))
    && (forall k :: k in kmA && k !in NodeKeys(NodesAt(t, d)) ==> kmB[k] == kmA[k])
    && LookupOk(lkA, lk0, create) && LookupOk(lkB, lk0, create)
    && (Independent(NodesAt(t, d)) ==> forall n :: n in NodesAt(t, d) ==> kmB[n.key] == IdFor(n, kmA, lkA, root, create))
  }

  /** The three passes, started from the root alone, write the root and
   *  every node's key. */
  lemma SyncKeys(t: OMap<string, CategoryNode>, km1: map<string, int>, km2: map<string, int>,
                 km3: map<string, int>, lk1: map<(int, string), int>, lk2: map<(int, string), int>,
                 lk3: map<(int, string), int>, root: int, create: (string, int) -> int, lk0: map<(int, string), int>)
    requires Valid(t)
    requires PassDone(t, 0, map[RootKey := root], km1, lk0, lk1, root, create, lk0)
    requires PassDone(t, 1, km1, km2, lk1, lk2, root, create, lk0)
    requires PassDone(t, 2, km2, km3, lk2, lk3, root, create, lk0)
    ensures km3.Keys == {RootKey} + NodeKeys(Values(t))
    ensures RootKey !in NodeKeys(Values(t)) ==> km3[RootKey] == root
  {
    NodesAtCover(t);
    var n0, n1, n2 := NodeKeys(NodesAt(t, 0)), NodeKeys(NodesAt(t, 1)), NodeKeys(NodesAt(t, 2));
    UnionChain(km1.Keys, km2.Keys, km3.Keys, {RootKey}, n0, n1, n2, NodeKeys(Values(t)));
    if RootKey !in NodeKeys(Values(t)) {
      RootNotAtDepth(t, 0);
      RootNotAtDepth(t, 1);
      RootNotAtDepth(t, 2);
      assert km1[RootKey] == root;
      assert km2[RootKey] == km1[RootKey];
      assert km3[RootKey] == km2[RootKey];
    }
  }

  lemma UnionChain<K>(s1: set<K>, s2: set<K>, s3: set<K>, s0: set<K>, n0: set<K>, n1: set<K>, n2: set<K>, all: set<K>)
    requires s1 == s0 + n0 && s2 == s1 + n1 && s3 == s2 + n2 && n0 + n1 + n2 == all
    ensures s3 == s0 + all
  {
  }

  lemma RootNotAtDepth(t: OMap<string, CategoryNode>, d: nat)
    requires Valid(t) && RootKey !in NodeKeys(Values(t))
    ensures RootKey !in NodeKeys(NodesAt(t, d))
  {
    forall x | x in NodesAt(t, d) ensures x.key != RootKey {
      NodesAtMembership(t, d, x);
    }
  }

  /** For a well-formed tree, every node is mapped as `IdOk` says, with its
   *  parent's final id. */
  lemma SyncWellFormed(t: OMap<string, CategoryNode>, km1: map<string, int>, km2: map<string, int>,
                       km3: map<string, int>, lk1: map<(int, string), int>, lk2: map<(int, string), int>,
                       lk3: map<(int, string), int>, root: int, create: (string, int) -> int, lk0: map<(int, string), int>)
    requires WellFormedTree(t)
    requires PassDone(t, 0, map[RootKey := root], km1, lk0, lk1, root, create, lk0)
    requires PassDone(t, 1, km1, km2, lk1, lk2, root, create, lk0)
    requires PassDone(t, 2, km2, km3, lk2, lk3, root, create, lk0)
    ensures forall k :: k in t.m ==> k in km3 && IdOk(t.m[k], km3[k], ParentId(t.m[k], km3, root), lk0, create)
  {
    var km0 := map[RootKey := root];
    PassIndependent(t, 0);
    PassIndependent(t, 1);
    PassIndependent(t, 2);
    assert PassOk(t, 0, km0, km1, lk0, root, create, lk0);
    assert PassOk(t, 1, km1, km2, lk1, root, create, lk0);
    assert PassOk(t, 2, km2, km3, lk2, root, create, lk0);
    forall k | k in t.m
      ensures k in km3 && IdOk(t.m[k], km3[k], ParentId(t.m[k], km3, root), lk0, create)
    {
      PassesIds(t, km0, km1, km2, km3, lk0, lk1, lk2, root, create, lk0, k);
    }
  }

  lemma SyncFacts(t: OMap<string, CategoryNode>, km1: map<string, int>, km2: map<string, int>,
                  km3: map<string, int>, lk1: map<(int, string), int>, lk2: map<(int, string), int>,
                  lk3: map<(int, string), int>, root: int, create: (string, int) -> int, lk0: map<(int, string), int>)
    requires Valid(t)
    requires PassDone(t, 0, map[RootKey := root], km1, lk0, lk1, root, create, lk0)
    requires PassDone(t, 1, km1, km2, lk1, lk2, root, create, lk0)
    requires PassDone(t, 2, km2, km3, lk2, lk3, root, create, lk0)
    ensures SyncResult(t, km3, root, create, lk0)
  {
    SyncKeys(t, km1, km2, km3, lk1, lk2, lk3, root, create, lk0);
    if WellFormedTree(t) {
      TreeKeys(t);
      SyncWellFormed(t, km1, km2, km3, lk1, lk2, lk3, root, create, lk0);
    }
  }

  /** What `syncCategories` returns: the root and every node's key are
   *  mapped; in a well-formed tree each node is mapped to the category with
   *  its parent's final id and its name, found or created. */
  ghost predicate SyncResult(t: OMap<string, CategoryNode>, km: map<string, int>, root: int,
                             create: (string, int) -> int, lk0: map<(int, string), int>)
    requires Valid(t)
  {
    km.Keys == {RootKey} + NodeKeys(Values(t))
    && (RootKey !in NodeKeys(Values(t)) ==> km[RootKey] == root)
    && (WellFormedTree(t) ==> km.Keys == t.m.Keys + {RootKey} && km[RootKey] == root)
    && (WellFormedTree(t) ==> forall k :: k in t.m ==> IdOk(t.m[k], km[k], ParentId(t.m[k], km, root), lk0, create))
  }

  /** `ResolveDepth` over the tree's nodes of depth `d`. */
  method WritePass(ghost t: OMap<string, CategoryNode>, ghost d: nat, nodes: seq<CategoryNode>, km: map<string, int>,
                   lk: map<(int, string), int>, root: int, create: (string, int) -> int, ghost lk0: map<(int, string), int>)
    returns (km3: map<string, int>, lk3: map<(int, string), int>)
    requires Valid(t) && nodes == NodesAt(t, d) && LookupOk(lk, lk0, create)
    ensures PassDone(t, d, km, km3, lk, lk3, root, create, lk0)
  {
    km3, lk3 := ResolveDepth(nodes, km, lk, root, create, lk0);
  }

  /** `syncCategories`: find or create the root, index the existing
   *  categories, then write the departments, categories and subcategories
   *  in turn. */
  method SyncCategories(existing: seq<OdooCategory>, tree: OMap<string, CategoryNode>, create: (string, int) -> int)
    returns (keyToOdooId: map<string, int>)
    requires Valid(tree)
    ensures SyncResult(tree, keyToOdooId, RootId(existing, create), create, ExistingLookup(existing))
  {
    var root := RootId(existing, create);
    var lk0 := BuildLookup(existing);
    var d0, d1, d2 := Partition(tree);
    var km1, lk1 := WritePass(tree, 0, d0, map[RootKey := root], lk0, root, create, lk0);
    var km2, lk2 := WritePass(tree, 1, d1, km1, lk1, root, create, lk0);
    var km3, lk3 := WritePass(tree, 2, d2, km2, lk2, root, create, lk0);
    keyToOdooId := km3;
    SyncFacts(tree, km1, km2, km3, lk1, lk2, lk3, root, create, lk0);
  }

  /** The three passes together write every node of the tree. */
  lemma NodesAtCover(t: OMap<string, CategoryNode>)
    requires Valid(t)
    ensures NodeKeys(NodesAt(t, 0)) + NodeKeys(NodesAt(t, 1)) + NodeKeys(NodesAt(t, 2)) == NodeKeys(Values(t))
  {
    forall x | x in Values(t) ensures x in NodesAt(t, 0) || x in NodesAt(t, 1) || x in NodesAt(t, 2) {
      NodesAtMembership(t, DepthOf(x), x);
    }
    KeysOfCover(Values(t), NodesAt(t, 0), NodesAt(t, 1), NodesAt(t, 2));
  }

  /** Three sub-lists that together hold every node carry all the keys. */
  lemma KeysOfCover(vs: seq<CategoryNode>, a: seq<CategoryNode>, b: seq<CategoryNode>, c: seq<CategoryNode>)
    requires forall x :: x in vs ==> x in a || x in b || x in c
    requires forall x :: x in a ==> x in vs
    requires forall x :: x in b ==> x in vs
    requires forall x :: x in c ==> x in vs
    ensures NodeKeys(a) + NodeKeys(b) + NodeKeys(c) == NodeKeys(vs)
  {
    forall k | k in NodeKeys(vs) ensures k in NodeKeys(a) + NodeKeys(b) + NodeKeys(c) {
      var x :| x in vs && x.key == k;
    }
  }

  /** A well-formed tree's nodes carry exactly its keys, none of them "ROOT". */
  lemma TreeKeys(t: OMap<string, CategoryNode>)
    requires WellFormedTree(t)
    ensures NodeKeys(Values(t)) == t.m.Keys && RootKey !in t.m
  {
    RootNotInTree(t);
    forall k | k in t.m ensures k in NodeKeys(Values(t)) {
      ValuesMembership(t, t.m[k]);
    }
    forall x | x in Values(t) ensures x.key in t.m {
      ValueIsNode(t, x);
    }
  }

  /** No node of a well-formed tree has the root's key: its first two
   *  characters are none of the "D:", "C:", "S:" prefixes. */
  lemma RootNotInTree(t: OMap<string, CategoryNode>)
    requires WellFormedTree(t)
    ensures RootKey !in t.m
  {
    if RootKey in t.m {
      RootHasNoShape(t.m[RootKey], t.m.Keys);
      assert false;
    }
  }

  lemma RootHasNoShape(n: CategoryNode, keys: set<string>)
    requires n.key == RootKey
    ensures !NodeShape(n, keys)
  {
    assert RootKey[..2] == "RO";
  }
}
