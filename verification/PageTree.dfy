/**
 * The PDF page-tree walk (sections 7.7.3 and 7.7.3.4 of ISO 32000-1): a recursive
 * visit of a reference graph that may be cyclic or shared, collecting the pages in
 * order with their inherited attributes.
 */
module PageTree {
  import opened Prelude

  const PAGE_TREE_DEPTH_LIMIT: nat := 256

  type u32 = x: int | 0 <= x <= 0xFFFF_FFFF

  datatype ObjectId = ObjectId(number: nat, generation: nat)

  /** An attribute value, or a kid entry, as written in a dictionary. */
  datatype Object = Reference(id: ObjectId) | Direct(value: int)

  datatype Dictionary = Dictionary(
    typeName: Option<string>, kids: Option<seq<Object>>,
    mediaBox: Option<Object>, cropBox: Option<Object>, rotate: Option<Object>)

  /** A loaded document: its catalog's Pages entry, the dictionaries, and what other references resolve to. */
  datatype Document = Document(root: Option<ObjectId>, nodes: map<ObjectId, Dictionary>, values: map<ObjectId, int>)

  datatype PdfError = InvalidPageTree | PageLimitExceeded(maxPages: u32)

  datatype Attributes = Attributes(mediaBox: Option<Object>, cropBox: Option<Object>, rotate: Option<Object>)

  /** A collected page: its effective attributes, dereferenced. */
  datatype Page = Page(mediaBox: Option<int>, cropBox: Option<int>, rotate: Option<int>)

  const NO_ATTRIBUTES := Attributes(None, None, None)

  /** `inherit`, for the three inheritable keys. */
  function Inherit(inherited: Attributes, d: Dictionary): Attributes {
    Attributes(
      if d.mediaBox.Some? then d.mediaBox else inherited.mediaBox,
      if d.cropBox.Some? then d.cropBox else inherited.cropBox,
      if d.rotate.Some? then d.rotate else inherited.rotate)
  }

  function ResolveObject(doc: Document, o: Option<Object>): Option<int> {
    match o
    case None => None
    case Some(Direct(v)) => Some(v)
    case Some(Reference(id)) => if id in doc.values then Some(doc.values[id]) else None
  }

  function Resolve(doc: Document, a: Attributes): Page {
    Page(ResolveObject(doc, a.mediaBox), ResolveObject(doc, a.cropBox), ResolveObject(doc, a.rotate))
  }

  predicate AllReferences(kids: seq<Object>) {
    forall i :: 0 <= i < |kids| ==> kids[i].Reference?
  }

  function KidIds(kids: seq<Object>): (r: seq<ObjectId>)
    requires AllReferences(kids)
    ensures |r| == |kids| && forall i :: 0 <= i < |r| ==> r[i] == kids[i].id
  {
    seq(|kids|, i requires 0 <= i < |kids| => kids[i].id)
  }

  // ---------------------------------------------------------------------------
  // The walk as a function of what it has collected and seen so far.

  datatype Trail = Trail(pages: seq<Page>, seen: set<ObjectId>)

  function Walk(doc: Document, max: u32, id: ObjectId, inherited: Attributes, depth: nat, trail: Trail)
    : Result<Trail, PdfError>
    decreases PAGE_TREE_DEPTH_LIMIT + 1 - depth, 0
  {
    if depth > PAGE_TREE_DEPTH_LIMIT || id in trail.seen then Err(InvalidPageTree) else
    var entered := trail.(seen := trail.seen + {id});
    if id !in doc.nodes then Err(InvalidPageTree) else
    var d := doc.nodes[id];
    var effective := Inherit(inherited, d);
    match d.typeName
    case Some("Page") =>
      if |trail.pages| >= max then Err(PageLimitExceeded(max))
      else Ok(entered.(pages := trail.pages + [Resolve(doc, effective)]))
    case Some("Pages") =>
      if d.kids.None? || d.kids.value == [] || !AllReferences(d.kids.value) then Err(InvalidPageTree)
      else WalkAll(doc, max, KidIds(d.kids.value), effective, depth + 1, entered)
    case _ => Err(InvalidPageTree)
  }

  function WalkAll(doc: Document, max: u32, ids: seq<ObjectId>, inherited: Attributes, depth: nat, trail: Trail)
    : Result<Trail, PdfError>
    decreases PAGE_TREE_DEPTH_LIMIT + 1 - depth, 1 + |ids|
  {
    if ids == [] then Ok(trail) else
    match Walk(doc, max, ids[0], inherited, depth, trail)
    case Err(e) => Err(e)
    case Ok(next) => WalkAll(doc, max, ids[1..], inherited, depth, next)
  }

  /** `PageTreeWalker`: the walk with its collections updated in place. */
  class PageTreeWalker {
    const document: Document
    const maxPages: u32
    var pages: seq<Page>
    var active: set<ObjectId>
    var seen: set<ObjectId>

    constructor (document: Document, maxPages: u32)
      ensures this.document == document && this.maxPages == maxPages
      ensures pages == [] && active == {} && seen == {}
    {
      this.document, this.maxPages := document, maxPages;
      pages, active, seen := [], {}, {};
    }

    /**
     * `visit`. A node being visited has been seen, so the separate `active` check never
     * decides anything, and a successful visit leaves `active` as it found it.
     */
    method Visit(id: ObjectId, inherited: Attributes, depth: nat) returns (r: Result<(), PdfError>)
      requires active <= seen
      modifies this
      ensures Walk(document, maxPages, id, inherited, depth, Trail(old(pages), old(seen))) ==
              if r.Ok? then Ok(Trail(pages, seen)) else Err(r.error)
      ensures r.Ok? ==> active == old(active) && old(seen) <= seen
      decreases PAGE_TREE_DEPTH_LIMIT + 1 - depth
    {
      if depth > PAGE_TREE_DEPTH_LIMIT || id in active {
        return Err(InvalidPageTree);
      }
      active := active + {id};
      if id in seen {
        return Err(InvalidPageTree);
      }
      seen := seen + {id};
      r := VisitBody(id, inherited, depth);
      active := active - {id};
    }

    /** The part of `visit` between entering and leaving the node. */
    method VisitBody(id: ObjectId, inherited: Attributes, depth: nat) returns (r: Result<(), PdfError>)
      requires active <= seen && id in active && depth <= PAGE_TREE_DEPTH_LIMIT
      modifies this
      ensures Walk(document, maxPages, id, inherited, depth, Trail(old(pages), old(seen) - {id})) ==
              if r.Ok? then Ok(Trail(pages, seen)) else Err(r.error)
      ensures r.Ok? ==> active == old(active) && old(seen) <= seen
      decreases PAGE_TREE_DEPTH_LIMIT + 1 - depth, 0
    {
      assert old(seen) - {id} + {id} == old(seen);
      if id !in document.nodes {
        return Err(InvalidPageTree);
      }
      var d := document.nodes[id];
      var effective := Inherit(inherited, d);
      if d.typeName == Some("Page") {
        if |pages| >= maxPages {
          return Err(PageLimitExceeded(maxPages));
        }
        pages := pages + [Resolve(document, effective)];
        return Ok(());
      }
      if d.typeName != Some("Pages") || d.kids.None? || d.kids.value == [] || !AllReferences(d.kids.value) {
        return Err(InvalidPageTree);
      }
      var ids := KidIds(d.kids.value);
      ghost var whole := WalkAll(document, maxPages, ids, effective, depth + 1, Trail(pages, seen));
      var i := 0;
      while i < |ids|
        invariant 0 <= i <= |ids|
        invariant active == old(active) && old(seen) <= seen
        invariant whole == WalkAll(document, maxPages, ids[i..], effective, depth + 1, Trail(pages, seen))
      {
        assert ids[i..][0] == ids[i] && ids[i..][1..] == ids[i + 1..];
        r := Visit(ids[i], effective, depth + 1);
        if r.Err? {
          return;
        }
        i := i + 1;
      }
      r := Ok(());
    }
  }

  // ---------------------------------------------------------------------------
  // The trees a document can describe, independently of the walk.

  datatype Tree = Leaf(id: ObjectId) | Branch(id: ObjectId, kids: seq<Tree>)

  /** The references from `id` on unfold, node by node, to this tree. */
  ghost predicate Unfolds(doc: Document, id: ObjectId, t: Tree)
    decreases t
  {
    && t.id == id && id in doc.nodes
    && var d := doc.nodes[id];
       match t
       case Leaf(_) => d.typeName == Some("Page")
       case Branch(_, kids) =>
         && d.typeName == Some("Pages") && d.kids.Some? && AllReferences(d.kids.value)
         && |kids| == |d.kids.value| > 0
         && forall i :: 0 <= i < |kids| ==> Unfolds(doc, d.kids.value[i].id, kids[i])
  }

  ghost predicate UnfoldsAll(doc: Document, ids: seq<ObjectId>, ts: seq<Tree>) {
    |ids| == |ts| && forall i :: 0 <= i < |ts| ==> Unfolds(doc, ids[i], ts[i])
  }

  /** Node ids in pre-order. */
  function Ids(t: Tree): seq<ObjectId>
    decreases t, 1
  {
    match t case Leaf(id) => [id] case Branch(id, kids) => [id] + AllIds(kids)
  }

  function AllIds(ts: seq<Tree>): seq<ObjectId>
    decreases ts, 0
  {
    if ts == [] then [] else Ids(ts[0]) + AllIds(ts[1..])
  }

  /** Edges on the longest path down from the root. */
  function Height(t: Tree): nat
    decreases t, 1
  {
    match t case Leaf(_) => 0 case Branch(_, kids) => 1 + MaxHeight(kids)
  }

  function MaxHeight(ts: seq<Tree>): nat
    decreases ts, 0
  {
    if ts == [] then 0 else
    var first, rest := Height(ts[0]), MaxHeight(ts[1..]);
    if first > rest then first else rest
  }

  /** For each leaf in pre-order, the ids on the way from the root down to it. */
  function LeafPaths(t: Tree, above: seq<ObjectId>): seq<seq<ObjectId>>
    decreases t, 1
  {
    match t
    case Leaf(id) => [above + [id]]
    case Branch(id, kids) => AllLeafPaths(kids, above + [id])
  }

  function AllLeafPaths(ts: seq<Tree>, above: seq<ObjectId>): seq<seq<ObjectId>>
    decreases ts, 0
  {
    if ts == [] then [] else LeafPaths(ts[0], above) + AllLeafPaths(ts[1..], above)
  }

  datatype Key = MediaBox | CropBox | Rotate

  function Entry(d: Dictionary, key: Key): Option<Object> {
    match key case MediaBox => d.mediaBox case CropBox => d.cropBox case Rotate => d.rotate
  }

  /** The value of a key in force at the end of a path: the node's own, else its nearest ancestor's. */
  function Nearest(doc: Document, path: seq<ObjectId>, key: Key): Option<Object> {
    if path == [] then None else
    var id := path[|path| - 1];
    if id in doc.nodes && Entry(doc.nodes[id], key).Some? then Entry(doc.nodes[id], key)
    else Nearest(doc, path[..|path| - 1], key)
  }

  function InForce(doc: Document, path: seq<ObjectId>): Attributes {
    Attributes(Nearest(doc, path, MediaBox), Nearest(doc, path, CropBox), Nearest(doc, path, Rotate))
  }

  function PagesOf(doc: Document, paths: seq<seq<ObjectId>>): (r: seq<Page>)
    ensures |r| == |paths| && forall i :: 0 <= i < |r| ==> r[i] == Resolve(doc, InForce(doc, paths[i]))
  {
    seq(|paths|, i requires 0 <= i < |paths| => Resolve(doc, InForce(doc, paths[i])))
  }

  ghost predicate Distinct(ids: seq<ObjectId>) {
    forall i, j :: 0 <= i < j < |ids| ==> ids[i] != ids[j]
  }

  function IdSet(ids: seq<ObjectId>): (r: set<ObjectId>)
    ensures forall x :: x in r <==> x in ids
  {
    set x | x in ids
  }

  lemma {:induction false} DistinctConcat(a: seq<ObjectId>, b: seq<ObjectId>)
    ensures Distinct(a + b) <==> Distinct(a) && Distinct(b) && IdSet(a) !! IdSet(b)
    ensures IdSet(a + b) == IdSet(a) + IdSet(b)
  {
    var c := a + b;
    assert forall i :: 0 <= i < |a| ==> c[i] == a[i];
    assert forall i :: 0 <= i < |b| ==> c[|a| + i] == b[i];
    if Distinct(c) {
      forall i, j | 0 <= i < |a| && 0 <= j < |b| ensures a[i] != b[j] {
        assert c[i] != c[|a| + j];
      }
      forall i, j | 0 <= i < j < |b| ensures b[i] != b[j] {
        assert c[|a| + i] != c[|a| + j];
      }
    } else if Distinct(a) && Distinct(b) {
      var i, j :| 0 <= i < j < |c| && c[i] == c[j];
      assert c[i] in IdSet(a) && c[j] in IdSet(b);
    }
  }

  // ---------------------------------------------------------------------------
  // The walk succeeds exactly on trees that fit.

  /** The tree fits what is left: ids new and distinct, depth and page count within their limits. */
  ghost predicate Fits(doc: Document, max: u32, id: ObjectId, above: seq<ObjectId>, depth: nat, trail: Trail, t: Tree) {
    && Unfolds(doc, id, t)
    && Distinct(Ids(t)) && IdSet(Ids(t)) !! trail.seen
    && depth + Height(t) <= PAGE_TREE_DEPTH_LIMIT
    && |trail.pages| + |LeafPaths(t, above)| <= max
  }

  ghost predicate AllFit(doc: Document, max: u32, ids: seq<ObjectId>, above: seq<ObjectId>, depth: nat, trail: Trail, ts: seq<Tree>) {
    && UnfoldsAll(doc, ids, ts)
    && Distinct(AllIds(ts)) && IdSet(AllIds(ts)) !! trail.seen
    && (ts != [] ==> depth + MaxHeight(ts) <= PAGE_TREE_DEPTH_LIMIT)
    && |trail.pages| + |AllLeafPaths(ts, above)| <= max
  }

  /** The trail after collecting a tree. */
  function Collected(doc: Document, trail: Trail, paths: seq<seq<ObjectId>>, ids: seq<ObjectId>): Trail {
    Trail(trail.pages + PagesOf(doc, paths), trail.seen + IdSet(ids))
  }

  lemma {:induction false} InForceBelow(doc: Document, above: seq<ObjectId>, id: ObjectId)
    requires id in doc.nodes
    ensures Inherit(InForce(doc, above), doc.nodes[id]) == InForce(doc, above + [id])
  {
    assert (above + [id])[..|above|] == above;
  }

  /** The first tree of a fitting forest fits, and the others fit what it leaves. */
  lemma {:induction false} FitSplits(
    doc: Document, max: u32, ids: seq<ObjectId>, above: seq<ObjectId>, depth: nat, trail: Trail, ts: seq<Tree>)
    requires ts != [] && |ids| == |ts|
    ensures var next := Collected(doc, trail, LeafPaths(ts[0], above), Ids(ts[0]));
            AllFit(doc, max, ids, above, depth, trail, ts) <==>
            Fits(doc, max, ids[0], above, depth, trail, ts[0]) && AllFit(doc, max, ids[1..], above, depth, next, ts[1..])
  {
    DistinctConcat(Ids(ts[0]), AllIds(ts[1..]));
    assert UnfoldsAll(doc, ids, ts) <==> Unfolds(doc, ids[0], ts[0]) && UnfoldsAll(doc, ids[1..], ts[1..]) by {
      if Unfolds(doc, ids[0], ts[0]) && UnfoldsAll(doc, ids[1..], ts[1..]) {
        forall i | 0 <= i < |ts| ensures Unfolds(doc, ids[i], ts[i]) {
          if i > 0 {
            assert Unfolds(doc, ids[1..][i - 1], ts[1..][i - 1]);
          }
        }
      }
    }
    var next := Collected(doc, trail, LeafPaths(ts[0], above), Ids(ts[0]));
    var first, rest := IdSet(Ids(ts[0])), IdSet(AllIds(ts[1..]));
    assert first + rest !! trail.seen && first !! rest <==> first !! trail.seen && rest !! next.seen && first !! rest;
    assert first !! rest <== rest !! next.seen;
    assert AllIds(ts) == Ids(ts[0]) + AllIds(ts[1..]);
    assert AllLeafPaths(ts, above) == LeafPaths(ts[0], above) + AllLeafPaths(ts[1..], above);
    assert |next.pages| == |trail.pages| + |LeafPaths(ts[0], above)|;
    if AllFit(doc, max, ids, above, depth, trail, ts) {
      assert Fits(doc, max, ids[0], above, depth, trail, ts[0]);
      assert AllFit(doc, max, ids[1..], above, depth, next, ts[1..]);
    }
  }

  lemma {:induction false} CollectedTwice(
    doc: Document, trail: Trail, p: seq<seq<ObjectId>>, a: seq<ObjectId>, q: seq<seq<ObjectId>>, b: seq<ObjectId>)
    ensures Collected(doc, Collected(doc, trail, p, a), q, b) == Collected(doc, trail, p + q, a + b)
  {
    DistinctConcat(a, b);
    assert PagesOf(doc, p + q) == PagesOf(doc, p) + PagesOf(doc, q);
  }

  /** Having entered a node before collecting below it counts the node as seen. */
  lemma {:induction false} CollectedBelow(doc: Document, trail: Trail, id: ObjectId, paths: seq<seq<ObjectId>>, ids: seq<ObjectId>)
    ensures Collected(doc, trail.(seen := trail.seen + {id}), paths, ids) == Collected(doc, trail, paths, [id] + ids)
  {
    DistinctConcat([id], ids);
    assert IdSet([id]) == {id};
  }

  /** Entering a Pages node: the subtree fits exactly when its kids fit below it. */
  lemma {:induction false} BranchFits(
    doc: Document, max: u32, id: ObjectId, above: seq<ObjectId>, depth: nat, trail: Trail, kids: seq<Tree>)
    requires id in doc.nodes && id !in trail.seen && depth <= PAGE_TREE_DEPTH_LIMIT
    requires doc.nodes[id].typeName == Some("Pages") && doc.nodes[id].kids.Some?
    requires doc.nodes[id].kids.value != [] && AllReferences(doc.nodes[id].kids.value)
    ensures Fits(doc, max, id, above, depth, trail, Branch(id, kids)) <==>
            AllFit(doc, max, KidIds(doc.nodes[id].kids.value), above + [id], depth + 1, trail.(seen := trail.seen + {id}), kids)
  {
    DistinctConcat([id], AllIds(kids));
    var ids := KidIds(doc.nodes[id].kids.value);
    assert Unfolds(doc, id, Branch(id, kids)) <==> UnfoldsAll(doc, ids, kids);
  }

  /** A tree that fits is collected. */
  lemma {:induction false} FittingTreeIsWalked(
    doc: Document, max: u32, id: ObjectId, above: seq<ObjectId>, depth: nat, trail: Trail, t: Tree)
    requires Fits(doc, max, id, above, depth, trail, t)
    ensures Walk(doc, max, id, InForce(doc, above), depth, trail) == Ok(Collected(doc, trail, LeafPaths(t, above), Ids(t)))
    decreases t, 1
  {
    assert id == Ids(t)[0];
    InForceBelow(doc, above, id);
    match t
    case Leaf(_) =>
      assert PagesOf(doc, [above + [id]]) == [Resolve(doc, InForce(doc, above + [id]))];
      assert IdSet([id]) == {id};
    case Branch(_, kids) =>
      BranchFits(doc, max, id, above, depth, trail, kids);
      var ids := KidIds(doc.nodes[id].kids.value);
      var entered := trail.(seen := trail.seen + {id});
      FittingForestIsWalked(doc, max, ids, above + [id], depth + 1, entered, kids);
      CollectedBelow(doc, trail, id, AllLeafPaths(kids, above + [id]), AllIds(kids));
  }

  lemma {:induction false} FittingForestIsWalked(
    doc: Document, max: u32, ids: seq<ObjectId>, above: seq<ObjectId>, depth: nat, trail: Trail, ts: seq<Tree>)
    requires AllFit(doc, max, ids, above, depth, trail, ts)
    ensures WalkAll(doc, max, ids, InForce(doc, above), depth, trail) ==
            Ok(Collected(doc, trail, AllLeafPaths(ts, above), AllIds(ts)))
    decreases ts, 0
  {
    if ts == [] {
      assert Collected(doc, trail, [], []) == trail;
    } else {
      FitSplits(doc, max, ids, above, depth, trail, ts);
      var next := Collected(doc, trail, LeafPaths(ts[0], above), Ids(ts[0]));
      FittingTreeIsWalked(doc, max, ids[0], above, depth, trail, ts[0]);
      FittingForestIsWalked(doc, max, ids[1..], above, depth, next, ts[1..]);
      CollectedTwice(doc, trail, LeafPaths(ts[0], above), Ids(ts[0]), AllLeafPaths(ts[1..], above), AllIds(ts[1..]));
    }
  }

  /** Whatever the walk collects is a tree that fits. */
  lemma {:induction false} WalkedTreeFits(
    doc: Document, max: u32, id: ObjectId, above: seq<ObjectId>, depth: nat, trail: Trail) returns (t: Tree)
    requires Walk(doc, max, id, InForce(doc, above), depth, trail).Ok? && |trail.pages| <= max
    ensures Fits(doc, max, id, above, depth, trail, t)
    decreases PAGE_TREE_DEPTH_LIMIT + 1 - depth, 0
  {
    InForceBelow(doc, above, id);
    if doc.nodes[id].typeName == Some("Page") {
      t := Leaf(id);
    } else {
      var entered := trail.(seen := trail.seen + {id});
      var kids := WalkedForestFits(doc, max, KidIds(doc.nodes[id].kids.value), above + [id], depth + 1, entered);
      BranchFits(doc, max, id, above, depth, trail, kids);
      t := Branch(id, kids);
    }
  }

  lemma {:induction false} WalkedForestFits(
    doc: Document, max: u32, ids: seq<ObjectId>, above: seq<ObjectId>, depth: nat, trail: Trail) returns (ts: seq<Tree>)
    requires WalkAll(doc, max, ids, InForce(doc, above), depth, trail).Ok? && |trail.pages| <= max
    ensures AllFit(doc, max, ids, above, depth, trail, ts)
    decreases PAGE_TREE_DEPTH_LIMIT + 1 - depth, 1 + |ids|
  {
    if ids == [] {
      ts := [];
    } else {
      var first := WalkedTreeFits(doc, max, ids[0], above, depth, trail);
      FittingTreeIsWalked(doc, max, ids[0], above, depth, trail, first);
      var next := Collected(doc, trail, LeafPaths(first, above), Ids(first));
      var rest := WalkedForestFits(doc, max, ids[1..], above, depth, next);
      ts := [first] + rest;
      assert ts[1..] == rest;
      FitSplits(doc, max, ids, above, depth, trail, ts);
    }
  }

  // ---------------------------------------------------------------------------
  // Main result.

  /** `collect_pages`. */
  method CollectPages(doc: Document, max: u32) returns (r: Result<seq<Page>, PdfError>)
    ensures r == Collect(doc, max)
  {
    if doc.root.None? {
      return Err(InvalidPageTree);
    }
    var walker := new PageTreeWalker(doc, max);
    var visited := walker.Visit(doc.root.value, NO_ATTRIBUTES, 0);
    r := if visited.Ok? then Ok(walker.pages) else Err(visited.error);
  }

  function Collect(doc: Document, max: u32): Result<seq<Page>, PdfError> {
    if doc.root.None? then Err(InvalidPageTree) else
    match Walk(doc, max, doc.root.value, NO_ATTRIBUTES, 0, Trail([], {}))
    case Err(e) => Err(e)
    case Ok(trail) => Ok(trail.pages)
  }

  /** The document's page tree: well-typed, ids distinct, not too deep, not too many pages. */
  ghost predicate IsPageTree(doc: Document, max: u32, t: Tree) {
    && doc.root.Some? && Unfolds(doc, doc.root.value, t)
    && Distinct(Ids(t))
    && Height(t) <= 256
    && |LeafPaths(t, [])| <= max
  }

  lemma {:induction false} TreeHasLeaf(doc: Document, id: ObjectId, t: Tree, above: seq<ObjectId>)
    requires Unfolds(doc, id, t)
    ensures |LeafPaths(t, above)| > 0
    decreases t
  {
    if t.Branch? {
      TreeHasLeaf(doc, doc.nodes[id].kids.value[0].id, t.kids[0], above + [id]);
    }
  }

  /**
   * On every reference graph the walk ends, and it succeeds exactly when the graph from
   * the root unfolds to a page tree. The pages are that tree's leaves in pre-order, each
   * attribute taken from the nearest self-or-ancestor that defines it; there is at least
   * one page, and page indices fit a u32.
   */
  lemma {:induction false} CollectsExactlyPageTrees(doc: Document, max: u32)
    ensures Collect(doc, max).Ok? <==> exists t :: IsPageTree(doc, max, t)
    ensures forall t :: IsPageTree(doc, max, t) ==> Collect(doc, max) == Ok(PagesOf(doc, LeafPaths(t, [])))
    ensures Collect(doc, max).Ok? ==> 0 < |Collect(doc, max).value| <= max
  {
    assert InForce(doc, []) == NO_ATTRIBUTES;
    if Collect(doc, max).Ok? {
      var t := WalkedTreeFits(doc, max, doc.root.value, [], 0, Trail([], {}));
      assert IsPageTree(doc, max, t);
    }
    forall t | IsPageTree(doc, max, t)
      ensures Collect(doc, max) == Ok(PagesOf(doc, LeafPaths(t, []))) && |LeafPaths(t, [])| > 0
    {
      FittingTreeIsWalked(doc, max, doc.root.value, [], 0, Trail([], {}), t);
      TreeHasLeaf(doc, doc.root.value, t, []);
      assert [] + PagesOf(doc, LeafPaths(t, [])) == PagesOf(doc, LeafPaths(t, []));
    }
  }

  /** The value an entry stands for: itself, or what its reference resolves to, if anything. */
  ghost predicate StandsFor(doc: Document, entry: Option<Object>, value: Option<int>) {
    match entry
    case Some(Direct(v)) => value == Some(v)
    case Some(Reference(id)) => if id in doc.values then value == Some(doc.values[id]) else value == None
    case None => value == None
  }

  /**
   * Key by key: the media box, crop box and rotation of page i are those of the nearest
   * self-or-ancestor of leaf i that defines that key, dereferenced, and absent otherwise.
   */
  lemma {:induction false} PagesKeyByKey(doc: Document, max: u32, t: Tree)
    requires IsPageTree(doc, max, t)
    ensures var r, paths := Collect(doc, max), LeafPaths(t, []);
            && r.Ok? && |r.value| == |paths|
            && forall i :: 0 <= i < |paths| ==>
                             && StandsFor(doc, Nearest(doc, paths[i], MediaBox), r.value[i].mediaBox)
                             && StandsFor(doc, Nearest(doc, paths[i], CropBox), r.value[i].cropBox)
                             && StandsFor(doc, Nearest(doc, paths[i], Rotate), r.value[i].rotate)
  {
    CollectsExactlyPageTrees(doc, max);
  }

  /** The nearest definition of a key: the last node of the path that has it, read from that key's own entry. */
  lemma {:induction false} NearestIsLast(doc: Document, path: seq<ObjectId>, key: Key, n: nat)
    requires forall i :: 0 <= i < |path| ==> path[i] in doc.nodes
    requires n < |path|
    ensures var own := match key
                       case MediaBox => doc.nodes[path[n]].mediaBox
                       case CropBox => doc.nodes[path[n]].cropBox
                       case Rotate => doc.nodes[path[n]].rotate;
            && (own.Some? && (forall i :: n < i < |path| ==> Entry(doc.nodes[path[i]], key).None?) ==> Nearest(doc, path, key) == own)
            && (Nearest(doc, path, key).None? ==> own.None?)
    decreases |path|
  {
    if n < |path| - 1 {
      NearestIsLast(doc, path[..|path| - 1], key, n);
    }
  }

  // ---------------------------------------------------------------------------
  // Too many pages.

  /** Fits in every respect but the number of pages. */
  ghost predicate Overfull(doc: Document, max: u32, id: ObjectId, above: seq<ObjectId>, depth: nat, trail: Trail, t: Tree) {
    && Unfolds(doc, id, t) && Distinct(Ids(t)) && IdSet(Ids(t)) !! trail.seen
    && depth + Height(t) <= PAGE_TREE_DEPTH_LIMIT
    && |trail.pages| <= max < |trail.pages| + |LeafPaths(t, above)|
  }

  ghost predicate AllOverfull(doc: Document, max: u32, ids: seq<ObjectId>, above: seq<ObjectId>, depth: nat, trail: Trail, ts: seq<Tree>) {
    && UnfoldsAll(doc, ids, ts) && Distinct(AllIds(ts)) && IdSet(AllIds(ts)) !! trail.seen
    && (ts != [] ==> depth + MaxHeight(ts) <= PAGE_TREE_DEPTH_LIMIT)
    && |trail.pages| <= max < |trail.pages| + |AllLeafPaths(ts, above)|
  }

  /** Raising the limit turns overfull into fitting. */
  lemma {:induction false} OverfullSplits(
    doc: Document, max: u32, ids: seq<ObjectId>, above: seq<ObjectId>, depth: nat, trail: Trail, ts: seq<Tree>)
    requires AllOverfull(doc, max, ids, above, depth, trail, ts)
    ensures ts != [] && |ids| == |ts|
    ensures || Overfull(doc, max, ids[0], above, depth, trail, ts[0])
            || (&& Fits(doc, max, ids[0], above, depth, trail, ts[0])
                && AllOverfull(doc, max, ids[1..], above, depth, Collected(doc, trail, LeafPaths(ts[0], above), Ids(ts[0])), ts[1..]))
  {
    DistinctConcat(Ids(ts[0]), AllIds(ts[1..]));
    assert Unfolds(doc, ids[0], ts[0]);
    var next := Collected(doc, trail, LeafPaths(ts[0], above), Ids(ts[0]));
    assert AllLeafPaths(ts, above) == LeafPaths(ts[0], above) + AllLeafPaths(ts[1..], above);
    assert |next.pages| == |trail.pages| + |LeafPaths(ts[0], above)|;
    assert UnfoldsAll(doc, ids[1..], ts[1..]);
  }

  lemma {:induction false} OverfullTreeExceeds(
    doc: Document, max: u32, id: ObjectId, above: seq<ObjectId>, depth: nat, trail: Trail, t: Tree)
    requires Overfull(doc, max, id, above, depth, trail, t)
    ensures Walk(doc, max, id, InForce(doc, above), depth, trail) == Err(PageLimitExceeded(max))
    decreases t, 1
  {
    InForceBelow(doc, above, id);
    match t
    case Leaf(_) => assert id in Ids(t);
    case Branch(_, kids) =>
      assert id in Ids(t);
      DistinctConcat([id], AllIds(kids));
      assert IdSet([id]) == {id};
      var ids := KidIds(doc.nodes[id].kids.value);
      var entered := trail.(seen := trail.seen + {id});
      OverfullForestExceeds(doc, max, ids, above + [id], depth + 1, entered, kids);
  }

  lemma {:induction false} OverfullForestExceeds(
    doc: Document, max: u32, ids: seq<ObjectId>, above: seq<ObjectId>, depth: nat, trail: Trail, ts: seq<Tree>)
    requires AllOverfull(doc, max, ids, above, depth, trail, ts)
    ensures WalkAll(doc, max, ids, InForce(doc, above), depth, trail) == Err(PageLimitExceeded(max))
    decreases ts, 0
  {
    OverfullSplits(doc, max, ids, above, depth, trail, ts);
    if Overfull(doc, max, ids[0], above, depth, trail, ts[0]) {
      OverfullTreeExceeds(doc, max, ids[0], above, depth, trail, ts[0]);
    } else {
      FittingTreeIsWalked(doc, max, ids[0], above, depth, trail, ts[0]);
      OverfullForestExceeds(doc, max, ids[1..], above, depth, Collected(doc, trail, LeafPaths(ts[0], above), Ids(ts[0])), ts[1..]);
    }
  }

  /** A page tree with more leaves than allowed is refused for exactly that, naming the limit. */
  lemma {:induction false} TooManyPagesIsTheReason(doc: Document, max: u32, t: Tree)
    requires doc.root.Some? && Unfolds(doc, doc.root.value, t) && Distinct(Ids(t)) && Height(t) <= 256
    ensures Collect(doc, max) == if |LeafPaths(t, [])| <= max then Ok(PagesOf(doc, LeafPaths(t, []))) else Err(PageLimitExceeded(max))
  {
    if |LeafPaths(t, [])| <= max {
      CollectsExactlyPageTrees(doc, max);
      assert IsPageTree(doc, max, t);
    } else {
      assert InForce(doc, []) == NO_ATTRIBUTES;
      OverfullTreeExceeds(doc, max, doc.root.value, [], 0, Trail([], {}), t);
    }
  }
}
