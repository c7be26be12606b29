/** Validation of the logical block graph: accepted exactly when it is a tree rooted at the one
    DOCUMENT block. */
module Validation {
  import opened Base
  import B = Batching

  type Block = B.LogicalBlock

  datatype BlockError = EmptyDocument | BlankId | DuplicateId(id: string) | NegativeOrder(id: string)
    | DuplicateOrder(order: int)
                      | DocumentCount(found: nat) | RootHasParent | NoParent(id: string) | SelfParent(id: string)
                      | MissingParent(id: string) | Cycle(id: string) | NotConnected(id: string)

  /** str.strip() and str.upper() of the runtime. */
  datatype Strings = Strings(trim: string -> string, upper: string -> string)

  function IdOf(f: Strings, b: Block): string { f.trim(b.blockId) }

  function ParentOf(f: Strings, b: Block): string { f.trim(b.parentBlockId) }

  predicate IsDocument(f: Strings, b: Block) { f.upper(f.trim(b.blockType)) == "DOCUMENT" }

  // ---------------------------------------------------------------- what a tree is

  /** Following `k` parent links from `id` first reaches `root`. */
  predicate Reaches(parents: map<string, string>, root: string, id: string, k: nat)
    decreases k
  {
    if id == root then k == 0 else k > 0 && id in parents && Reaches(parents, root, parents[id], k - 1)
  }

  function Parents(f: Strings, blocks: seq<Block>): map<string, string> {
    if blocks == [] then map[] else
      var n := |blocks| - 1;
      Parents(f, blocks[..n])[IdOf(f, blocks[n]) := ParentOf(f, blocks[n])]
  }

  /** Trimmed ids unique and non-blank, order indexes unique and non-negative. */
  ghost predicate WellNumbered(f: Strings, blocks: seq<Block>) {
    && (forall i :: 0 <= i < |blocks| ==> IdOf(f, blocks[i]) != [] && blocks[i].orderIndex >= 0)
    && (forall i, j :: 0 <= i < j < |blocks| ==>
          IdOf(f, blocks[i]) != IdOf(f, blocks[j]) && blocks[i].orderIndex != blocks[j].orderIndex)
  }

  ghost predicate OnlyRoot(f: Strings, blocks: seq<Block>, r: nat) {
    && r < |blocks| && IsDocument(f, blocks[r]) && ParentOf(f, blocks[r]) == []
    && forall j :: 0 <= j < |blocks| && IsDocument(f, blocks[j]) ==> j == r
  }

  ghost predicate Connects(parents: map<string, string>, root: string, id: string) {
    exists k: nat :: Reaches(parents, root, id, k)
  }

  ghost predicate Connected(f: Strings, blocks: seq<Block>, root: string, id: string) {
    Connects(Parents(f, blocks), root, id)
  }

  ghost predicate IsTree(f: Strings, blocks: seq<Block>) {
    && WellNumbered(f, blocks)
    && exists r: nat ::
         OnlyRoot(f, blocks, r)
         && forall i :: 0 <= i < |blocks| ==> Connected(f, blocks, IdOf(f, blocks[r]), IdOf(f, blocks[i]))
  }

  // ---------------------------------------------------------------- facts about links

  lemma {:induction false} ParentsKeys(f: Strings, blocks: seq<Block>)
    ensures forall id :: id in Parents(f, blocks) <==> exists i :: 0 <= i < |blocks| && IdOf(f, blocks[i]) == id
  {
    if blocks != [] {
      var n := |blocks| - 1;
      ParentsKeys(f, blocks[..n]);
      forall id ensures id in Parents(f, blocks) <==> exists i :: 0 <= i < |blocks| && IdOf(f, blocks[i]) == id {
        if id in Parents(f, blocks[..n]) {
          var i :| 0 <= i < n && IdOf(f, blocks[..n][i]) == id;
          assert IdOf(f, blocks[i]) == id;
        }
        if i :| 0 <= i < |blocks| && IdOf(f, blocks[i]) == id {
          if i < n {
            assert IdOf(f, blocks[..n][i]) == id;
          }
        }
      }
    }
  }

  lemma {:induction false} ParentsAt(f: Strings, blocks: seq<Block>, i: nat)
    requires i < |blocks| && forall j, k :: 0 <= j < k < |blocks| ==> IdOf(f, blocks[j]) != IdOf(f, blocks[k])
    ensures IdOf(f, blocks[i]) in Parents(f, blocks) && Parents(f, blocks)[IdOf(f, blocks[i])] == ParentOf(f, blocks[i])
  {
    var n := |blocks| - 1;
    if i < n {
      ParentsAt(f, blocks[..n], i);
    }
  }

  /** A set of ids that links never leave and that misses the root cannot reach it. */
  lemma {:induction false} Trapped(parents: map<string, string>, root: string, s: set<string>, id: string, k: nat)
    requires root !in s && id in s && forall x :: x in s && x in parents ==> parents[x] in s
    ensures !Reaches(parents, root, id, k)
    decreases k
  {
    if k > 0 && id in parents {
      Trapped(parents, root, s, parents[id], k - 1);
    }
  }

  /** Links of a connected block lead to blocks, and never back to itself. */
  lemma ReachesStep(parents: map<string, string>, root: string, id: string, k: nat)
    requires Reaches(parents, root, id, k) && id != root && root in parents
    ensures id in parents && parents[id] in parents && parents[id] != id
  {
    if parents[id] == id {
      Trapped(parents, root, {id}, id, k);
    }
  }

  lemma {:induction false} CardinalityLess<T>(a: set<T>, b: set<T>)
    requires a < b
    ensures |a| < |b|
  {
    assert b == a + (b - a);
    assert b - a != {};
  }

  /** `current` lies `steps` links behind `start`. */
  ghost predicate Extends(parents: map<string, string>, root: string, start: string, current: string, steps: nat) {
    forall k: nat :: Reaches(parents, root, current, k) ==> Reaches(parents, root, start, k + steps)
  }

  lemma ExtendsStep(parents: map<string, string>, root: string, start: string, current: string, steps: nat)
    requires Extends(parents, root, start, current, steps) && current in parents && current != root
    ensures Extends(parents, root, start, parents[current], steps + 1)
  {
    forall k: nat | Reaches(parents, root, parents[current], k) ensures Reaches(parents, root, start, k + (steps + 1)) {
      assert Reaches(parents, root, current, k + 1);
      assert k + (steps + 1) == (k + 1) + steps;
    }
  }

  lemma ExtendsEnd(parents: map<string, string>, root: string, start: string, steps: nat)
    requires Extends(parents, root, start, root, steps)
    ensures Connects(parents, root, start)
  {
    assert Reaches(parents, root, root, 0);
    assert Reaches(parents, root, start, 0 + steps);
  }

  lemma RootConnects(parents: map<string, string>, root: string)
    ensures Connects(parents, root, root)
  {
    assert Reaches(parents, root, root, 0);
  }

  lemma ClosedNeverReaches(parents: map<string, string>, root: string, s: set<string>, start: string)
    requires root !in s && start in s && forall x :: x in s && x in parents ==> parents[x] in s
    ensures !Connects(parents, root, start)
  {
    forall k: nat ensures !Reaches(parents, root, start, k) {
      Trapped(parents, root, s, start, k);
    }
  }

  // ---------------------------------------------------------------- cycles

  /** `k` links lead from `a` to `b`. */
  predicate Leads(parents: map<string, string>, a: string, b: string, k: nat)
    decreases k
  {
    if k == 0 then a == b else a in parents && Leads(parents, parents[a], b, k - 1)
  }

  lemma {:induction false} LeadsOn(parents: map<string, string>, a: string, b: string, k: nat)
    requires Leads(parents, a, b, k) && b in parents
    ensures Leads(parents, a, parents[b], k + 1)
    decreases k
  {
    if k > 0 {
      LeadsOn(parents, parents[a], b, k - 1);
    }
  }

  ghost predicate LeadsTo(parents: map<string, string>, a: string, b: string) {
    exists k: nat :: k > 0 && Leads(parents, a, b, k)
  }

  lemma LeadsToNext(parents: map<string, string>, a: string, b: string)
    requires b in parents && (a == b || LeadsTo(parents, a, b))
    ensures LeadsTo(parents, a, parents[b])
  {
    if a == b {
      assert Leads(parents, a, b, 0);
      LeadsOn(parents, a, b, 0);
    } else {
      var k: nat :| k > 0 && Leads(parents, a, b, k);
      LeadsOn(parents, a, b, k);
    }
  }

  ghost predicate AllLead(parents: map<string, string>, seen: set<string>, current: string) {
    forall x :: x in seen ==> LeadsTo(parents, x, current)
  }

  // ---------------------------------------------------------------- the walk

  ghost predicate Walking(parents: map<string, string>, root: string, start: string, current: string,
                          seen: set<string>, steps: nat) {
    && current in parents && root !in seen && seen <= parents.Keys
    && (start in seen || (start == current && seen == {}))
    && (forall x :: x in seen ==> parents[x] in seen || parents[x] == current)
    && Extends(parents, root, start, current, steps)
    && AllLead(parents, seen, current)
  }

  lemma WalkOn(parents: map<string, string>, root: string, start: string, current: string, seen: set<string>,
               steps: nat)
    requires Walking(parents, root, start, current, seen, steps)
    requires current != root && current !in seen && parents[current] in parents
    ensures Walking(parents, root, start, parents[current], seen + {current}, steps + 1)
    ensures |parents.Keys - (seen + {current})| < |parents.Keys - seen|
  {
    CardinalityLess(parents.Keys - (seen + {current}), parents.Keys - seen);
    ExtendsStep(parents, root, start, current, steps);
    forall x | x in seen + {current} ensures LeadsTo(parents, x, parents[current]) {
      LeadsToNext(parents, x, current);
    }
  }

  lemma WalkStuck(parents: map<string, string>, root: string, start: string, current: string, seen: set<string>,
                  steps: nat)
    requires Walking(parents, root, start, current, seen, steps) && current != root && [] !in parents && root != []
    requires current in seen || parents[current] == []
    ensures !Connects(parents, root, start)
    ensures current in seen ==> LeadsTo(parents, current, current)
  {
    if current in seen {
      ClosedNeverReaches(parents, root, seen, start);
    } else {
      ClosedNeverReaches(parents, root, seen + {current, []}, start);
    }
  }

  /** Follows the parent chain from `start`. */
  method Walk(parents: map<string, string>, root: string, start: string) returns (r: Result<(), BlockError>)
    requires start in parents && root in parents && [] !in parents
    requires forall x :: x in parents && x != root ==> parents[x] == [] || parents[x] in parents
    ensures r.Ok? <==> Connects(parents, root, start)
    ensures r.Err? ==> if r.error.Cycle? then LeadsTo(parents, r.error.id, r.error.id)
                       else r.error == NotConnected(start) && exists x :: x in parents && x != root && parents[x] == []
  {
    var seen: set<string> := {};
    var current := start;
    ghost var steps: nat := 0;
    while current != root
      invariant Walking(parents, root, start, current, seen, steps)
      decreases |parents.Keys - seen|
    {
      if current in seen {
        WalkStuck(parents, root, start, current, seen, steps);
        return Err(Cycle(current));
      }
      var parent := parents[current];
      if parent == [] {
        WalkStuck(parents, root, start, current, seen, steps);
        return Err(NotConnected(start));
      }
      WalkOn(parents, root, start, current, seen, steps);
      seen := seen + {current};
      steps := steps + 1;
      current := parent;
    }
    ExtendsEnd(parents, root, start, steps);
    return Ok(());
  }

  // ---------------------------------------------------------------- validation

  /** Block `i` is the first that cannot be registered, and `e` the first thing wrong with it. */
  ghost predicate BadNumber(f: Strings, blocks: seq<Block>, i: nat, e: BlockError)
    requires i < |blocks|
  {
    var id, order := IdOf(f, blocks[i]), blocks[i].orderIndex;
    var oldId, oldOrder := (exists k :: 0 <= k < i && IdOf(f, blocks[k]) == id),
                           (exists k :: 0 <= k < i && blocks[k].orderIndex == order);
    && WellNumbered(f, blocks[..i])
    && match e
       case BlankId => id == []
       case DuplicateId(x) => x == id != [] && oldId
       case NegativeOrder(x) => x == id != [] && !oldId && order < 0
       case DuplicateOrder(o) => o == order >= 0 && id != [] && !oldId && oldOrder
       case _ => false
  }

  /** The first loop: register every block. */
  method Register(f: Strings, blocks: seq<Block>) returns (r: Result<seq<nat>, BlockError>)
    ensures r.Ok? <==> WellNumbered(f, blocks)
    ensures r.Err? ==> exists i: nat :: i < |blocks| && BadNumber(f, blocks, i, r.error)
    ensures r.Ok? ==> RootsUpTo(f, blocks, |blocks|, r.value)
  {
    var ids: set<string>, orders: set<int>, roots: seq<nat> := {}, {}, [];
    for i := 0 to |blocks|
      invariant ids == (set k | 0 <= k < i :: IdOf(f, blocks[k]))
                && orders == (set k | 0 <= k < i :: blocks[k].orderIndex)
      invariant WellNumbered(f, blocks[..i]) && RootsUpTo(f, blocks, i, roots)
    {
      var block, id := blocks[i], IdOf(f, blocks[i]);
      NumberedNext(f, blocks, i);
      assert NewNumber(f, blocks, i) <==>
             id != [] && block.orderIndex >= 0 && id !in ids && block.orderIndex !in orders;
      if id == [] {
        assert BadNumber(f, blocks, i, BlankId);
        return Err(BlankId);
      }
      if id in ids {
        assert BadNumber(f, blocks, i, DuplicateId(id));
        return Err(DuplicateId(id));
      }
      ids := ids + {id};
      if block.orderIndex < 0 {
        assert BadNumber(f, blocks, i, NegativeOrder(id));
        return Err(NegativeOrder(id));
      }
      if block.orderIndex in orders {
        assert BadNumber(f, blocks, i, DuplicateOrder(block.orderIndex));
        return Err(DuplicateOrder(block.orderIndex));
      }
      orders := orders + {block.orderIndex};
      RootsNext(f, blocks, i, roots);
      roots := roots + if IsDocument(f, block) then [i] else [];
    }
    assert blocks[..|blocks|] == blocks;
    return Ok(roots);
  }

  ghost predicate RootsUpTo(f: Strings, blocks: seq<Block>, n: nat, roots: seq<nat>)
    requires n <= |blocks|
  {
    && (forall i: nat :: i in roots <==> i < n && IsDocument(f, blocks[i]))
    && (forall i, j :: 0 <= i < j < |roots| ==> roots[i] < roots[j])
  }

  lemma RootsNext(f: Strings, blocks: seq<Block>, n: nat, roots: seq<nat>)
    requires n < |blocks| && RootsUpTo(f, blocks, n, roots)
    ensures RootsUpTo(f, blocks, n + 1, roots + if IsDocument(f, blocks[n]) then [n] else [])
  {
    assert forall j :: 0 <= j < |roots| ==> roots[j] in roots;
  }

  ghost predicate NewNumber(f: Strings, blocks: seq<Block>, n: nat)
    requires n < |blocks|
  {
    && IdOf(f, blocks[n]) != [] && blocks[n].orderIndex >= 0
    && forall k :: 0 <= k < n ==>
         IdOf(f, blocks[k]) != IdOf(f, blocks[n]) && blocks[k].orderIndex != blocks[n].orderIndex
  }

  /** Block `n` may follow the first `n` exactly when its id and order index are new. */
  lemma NumberedNext(f: Strings, blocks: seq<Block>, n: nat)
    requires n < |blocks| && WellNumbered(f, blocks[..n])
    ensures NewNumber(f, blocks, n) ==> WellNumbered(f, blocks[..n + 1])
    ensures !NewNumber(f, blocks, n) ==> !WellNumbered(f, blocks)
  {
    var id, order := IdOf(f, blocks[n]), blocks[n].orderIndex;
    if WellNumbered(f, blocks) {
      forall k | 0 <= k < n ensures IdOf(f, blocks[k]) != id && blocks[k].orderIndex != order {
      }
    }
    if NewNumber(f, blocks, n) {
      var more := blocks[..n + 1];
      forall i, j | 0 <= i < j < |more|
        ensures IdOf(f, more[i]) != IdOf(f, more[j]) && more[i].orderIndex != more[j].orderIndex {
        if j < n {
          assert more[i] == blocks[..n][i] && more[j] == blocks[..n][j];
        }
      }
      forall i | 0 <= i < |more| ensures IdOf(f, more[i]) != [] && more[i].orderIndex >= 0 {
        if i < n {
          assert more[i] == blocks[..n][i];
        }
      }
    }
  }

  /** Links of non-root blocks are present, proper and lead to blocks. */
  ghost predicate LinkOk(parents: map<string, string>, root: string, id: string) {
    id != root ==> id in parents && parents[id] != [] && parents[id] != id && parents[id] in parents
  }

  /** Block `i` is the first whose link is wrong, and `e` the first thing wrong with it. */
  ghost predicate BadLink(f: Strings, blocks: seq<Block>, root: string, i: nat, e: BlockError)
    requires i < |blocks|
  {
    var parents, id, parent := Parents(f, blocks), IdOf(f, blocks[i]), ParentOf(f, blocks[i]);
    && id != root && (forall k :: 0 <= k < i ==> LinkOk(parents, root, IdOf(f, blocks[k])))
    && match e
       case NoParent(x) => x == id && parent == []
       case SelfParent(x) => x == id == parent != []
       case MissingParent(x) => x == id && parent != [] && parent != id && parent !in parents
       case _ => false
  }

  method CheckLinks(f: Strings, blocks: seq<Block>, root: string, parents: map<string, string>)
    returns (r: Result<(), BlockError>)
    requires WellNumbered(f, blocks) && parents == Parents(f, blocks)
    ensures r.Ok? <==> forall i :: 0 <= i < |blocks| ==> LinkOk(parents, root, IdOf(f, blocks[i]))
    ensures r.Err? ==> exists i: nat :: i < |blocks| && BadLink(f, blocks, root, i, r.error)
  {
    for i := 0 to |blocks|
      invariant forall k :: 0 <= k < i ==> LinkOk(parents, root, IdOf(f, blocks[k]))
    {
      var id, parent := IdOf(f, blocks[i]), ParentOf(f, blocks[i]);
      ParentsAt(f, blocks, i);
      if id == root {
        continue;
      }
      if parent == [] {
        assert BadLink(f, blocks, root, i, NoParent(id));
        return Err(NoParent(id));
      }
      if parent == id {
        assert BadLink(f, blocks, root, i, SelfParent(id));
        return Err(SelfParent(id));
      }
      if parent !in parents {
        assert BadLink(f, blocks, root, i, MissingParent(id));
        return Err(MissingParent(id));
      }
    }
    return Ok(());
  }

  /** The same map the program builds by id. */
  method ParentMap(f: Strings, blocks: seq<Block>) returns (parents: map<string, string>)
    ensures parents == Parents(f, blocks)
  {
    parents := map[];
    for i := 0 to |blocks|
      invariant parents == Parents(f, blocks[..i])
    {
      assert blocks[..i + 1][..i] == blocks[..i];
      parents := parents[IdOf(f, blocks[i]) := ParentOf(f, blocks[i])];
    }
    assert blocks[..|blocks|] == blocks;
  }

  method WalkAll(f: Strings, blocks: seq<Block>, root: string, parents: map<string, string>)
    returns (r: Result<(), BlockError>)
    requires WellNumbered(f, blocks) && parents == Parents(f, blocks) && root in parents
    requires forall i :: 0 <= i < |blocks| ==> LinkOk(parents, root, IdOf(f, blocks[i]))
    ensures r.Ok? <==> forall i :: 0 <= i < |blocks| ==> Connected(f, blocks, root, IdOf(f, blocks[i]))
    ensures r.Err? ==> r.error.Cycle? && LeadsTo(parents, r.error.id, r.error.id)
  {
    LinksClosed(f, blocks, root);
    for i := 0 to |blocks|
      invariant forall k :: 0 <= k < i ==> Connected(f, blocks, root, IdOf(f, blocks[k]))
    {
      var id := IdOf(f, blocks[i]);
      ParentsAt(f, blocks, i);
      if id == root {
        RootConnects(parents, root);
        continue;
      }
      var walked := Walk(parents, root, id);
      if walked.Err? {
        return Err(walked.error);
      }
    }
    return Ok(());
  }

  lemma LinksClosed(f: Strings, blocks: seq<Block>, root: string)
    requires WellNumbered(f, blocks)
    requires forall i :: 0 <= i < |blocks| ==> LinkOk(Parents(f, blocks), root, IdOf(f, blocks[i]))
    ensures var parents := Parents(f, blocks);
            [] !in parents && forall x :: x in parents && x != root ==> parents[x] != [] && parents[x] in parents
  {
    ParentsKeys(f, blocks);
    var parents := Parents(f, blocks);
    forall x | x in parents && x != root ensures parents[x] != [] && parents[x] in parents {
      var i :| 0 <= i < |blocks| && IdOf(f, blocks[i]) == x;
      assert LinkOk(parents, root, IdOf(f, blocks[i]));
    }
  }

  /** A tree has one document block and proper links. */
  lemma TreeLinks(f: Strings, blocks: seq<Block>, r: nat)
    requires WellNumbered(f, blocks) && r < |blocks|
    requires forall i :: 0 <= i < |blocks| ==> Connected(f, blocks, IdOf(f, blocks[r]), IdOf(f, blocks[i]))
    ensures forall i :: 0 <= i < |blocks| ==> LinkOk(Parents(f, blocks), IdOf(f, blocks[r]), IdOf(f, blocks[i]))
  {
    var parents, root := Parents(f, blocks), IdOf(f, blocks[r]);
    ParentsAt(f, blocks, r);
    ParentsKeys(f, blocks);
    forall i | 0 <= i < |blocks| ensures LinkOk(parents, root, IdOf(f, blocks[i])) {
      var id := IdOf(f, blocks[i]);
      assert Connected(f, blocks, root, id);
      if id != root {
        var k: nat :| Reaches(parents, root, id, k);
        ReachesStep(parents, root, id, k);
      }
    }
  }

  /** With one document block at `r`, being a tree is being connected to it. */
  lemma TreeAt(f: Strings, blocks: seq<Block>, r: nat)
    requires WellNumbered(f, blocks) && r < |blocks| && IsDocument(f, blocks[r])
    requires forall j :: 0 <= j < |blocks| && IsDocument(f, blocks[j]) ==> j == r
    ensures IsTree(f, blocks) <==>
              ParentOf(f, blocks[r]) == []
              && forall i :: 0 <= i < |blocks| ==> Connected(f, blocks, IdOf(f, blocks[r]), IdOf(f, blocks[i]))
  {
    if ParentOf(f, blocks[r]) == [] {
      assert OnlyRoot(f, blocks, r);
    }
  }

  lemma NoTreeWithout(f: Strings, blocks: seq<Block>, roots: seq<nat>)
    requires |roots| != 1 && RootsUpTo(f, blocks, |blocks|, roots)
    ensures !IsTree(f, blocks)
  {
    forall r: nat ensures !OnlyRoot(f, blocks, r) {
      if |roots| > 1 {
        assert roots[0] in roots && roots[1] in roots;
      } else {
        assert r !in roots;
      }
    }
  }

  /** Why a document is rejected: `e` is the first thing wrong with it, in the order of the
      checks. Being unconnected never is. */
  ghost predicate Rejected(f: Strings, blocks: seq<Block>, e: BlockError) {
    match e
    case EmptyDocument => blocks == []
    case DocumentCount(n) =>
      WellNumbered(f, blocks) && n != 1 && exists roots :: |roots| == n && RootsUpTo(f, blocks, |blocks|, roots)
    case RootHasParent =>
      WellNumbered(f, blocks) && exists r: nat :: OnlyDocument(f, blocks, r) && ParentOf(f, blocks[r]) != []
    case Cycle(x) =>
      WellNumbered(f, blocks) && LeadsTo(Parents(f, blocks), x, x)
      && exists r: nat :: OnlyRoot(f, blocks, r) && AllLinked(f, blocks, IdOf(f, blocks[r]))
    case NotConnected(_) => false
    case _ =>
      || (exists i: nat :: i < |blocks| && BadNumber(f, blocks, i, e))
      || (WellNumbered(f, blocks)
          && exists r: nat, i: nat ::
               OnlyRoot(f, blocks, r) && i < |blocks| && BadLink(f, blocks, IdOf(f, blocks[r]), i, e))
  }

  ghost predicate OnlyDocument(f: Strings, blocks: seq<Block>, r: nat) {
    && r < |blocks| && IsDocument(f, blocks[r])
    && forall j :: 0 <= j < |blocks| && IsDocument(f, blocks[j]) ==> j == r
  }

  ghost predicate AllLinked(f: Strings, blocks: seq<Block>, root: string) {
    forall i :: 0 <= i < |blocks| ==> LinkOk(Parents(f, blocks), root, IdOf(f, blocks[i]))
  }

  /** The last two loops: links, then walks. */
  method ValidateLinks(f: Strings, blocks: seq<Block>, at: nat) returns (r: Result<(), BlockError>)
    requires WellNumbered(f, blocks) && OnlyRoot(f, blocks, at)
    ensures r.Ok? <==> forall i :: 0 <= i < |blocks| ==> Connected(f, blocks, IdOf(f, blocks[at]), IdOf(f, blocks[i]))
    ensures r.Err? ==> Rejected(f, blocks, r.error)
  {
    var root := IdOf(f, blocks[at]);
    var parents := ParentMap(f, blocks);
    ParentsAt(f, blocks, at);
    var linked := CheckLinks(f, blocks, root, parents);
    if linked.Err? {
      if forall i :: 0 <= i < |blocks| ==> Connected(f, blocks, root, IdOf(f, blocks[i])) {
        TreeLinks(f, blocks, at);
      }
      return Err(linked.error);
    }
    assert AllLinked(f, blocks, root);
    r := WalkAll(f, blocks, root, parents);
  }

  /** Accepts exactly the rooted trees. Every walk ends, no lookup misses, the branch for a
      block that is not connected to the root is never taken, and every other document is
      rejected for the first thing wrong with it. */
  method ValidateLogicalBlocks(f: Strings, blocks: seq<Block>) returns (r: Result<seq<Block>, BlockError>)
    ensures r.Ok? <==> IsTree(f, blocks)
    ensures r.Ok? ==> r.value == blocks
    ensures r.Err? ==> Rejected(f, blocks, r.error) && !r.error.NotConnected?
  {
    if blocks == [] {
      assert !IsTree(f, blocks);
      return Err(EmptyDocument);
    }
    var registered := Register(f, blocks);
    if registered.Err? {
      return Err(registered.error);
    }
    var roots := registered.value;
    if |roots| != 1 {
      NoTreeWithout(f, blocks, roots);
      return Err(DocumentCount(|roots|));
    }
    var at := roots[0];
    assert at in roots && forall j: nat :: j in roots ==> j == at;
    assert OnlyDocument(f, blocks, at);
    TreeAt(f, blocks, at);
    if ParentOf(f, blocks[at]) != [] {
      return Err(RootHasParent);
    }
    var linked := ValidateLinks(f, blocks, at);
    return if linked.Ok? then Ok(blocks) else Err(linked.error);
  }
}
