/** Deleting a page with its subpages: a fixpoint over parent links that may dangle or form cycles,
    then a rebuild of the list of pages. */
module PageDeletion {
  import opened Prelude

  datatype Page = Page(id: string, parent: string, body: string)

  datatype Problem = NotFound

  /** Some page called `child` sits under `parent`. */
  predicate Under(pages: seq<Page>, parent: string, child: string) {
    exists p :: p in pages && p.parent == parent && p.id == child
  }

  /** A way down from page to subpage. */
  ghost predicate Chain(pages: seq<Page>, path: seq<string>) {
    path != [] && forall k :: 0 <= k < |path| - 1 ==> Under(pages, path[k], path[k + 1])
  }

  ghost predicate Reaches(pages: seq<Page>, root: string, id: string) {
    exists path :: Chain(pages, path) && path[0] == root && path[|path| - 1] == id
  }

  lemma ReachesItself(pages: seq<Page>, root: string)
    ensures Reaches(pages, root, root)
  {
    assert Chain(pages, [root]);
    var path := [root];
    assert path[0] == root && path[|path| - 1] == root;
  }

  lemma ReachesOn(pages: seq<Page>, root: string, p: Page)
    requires p in pages && Reaches(pages, root, p.parent)
    ensures Reaches(pages, root, p.id)
  {
    var path :| Chain(pages, path) && path[0] == root && path[|path| - 1] == p.parent;
    var longer := path + [p.id];
    assert Under(pages, p.parent, p.id);
    assert Chain(pages, longer);
    assert longer[0] == root && longer[|longer| - 1] == p.id;
  }

  /** Closed under going from page to subpage. */
  ghost predicate Closed(pages: seq<Page>, deleted: set<string>) {
    forall p :: p in pages && p.parent in deleted ==> p.id in deleted
  }

  lemma {:induction false} ChainStaysIn(pages: seq<Page>, deleted: set<string>, path: seq<string>)
    requires Closed(pages, deleted) && Chain(pages, path) && path[0] in deleted
    ensures path[|path| - 1] in deleted
    decreases |path|
  {
    if |path| > 1 {
      var n := |path| - 1;
      ChainStaysIn(pages, deleted, path[..n]);
      assert Under(pages, path[n - 1], path[n]);
      var p :| p in pages && p.parent == path[n - 1] && p.id == path[n];
    }
  }

  ghost function Ids(pages: seq<Page>): set<string> {
    set p | p in pages :: p.id
  }

  lemma {:induction false} IdsAtMost(pages: seq<Page>)
    ensures |Ids(pages)| <= |pages|
  {
    if pages == [] {
      assert Ids(pages) == {};
    } else {
      var n := |pages| - 1;
      IdsAtMost(pages[..n]);
      assert pages == pages[..n] + [pages[n]];
      assert Ids(pages) == Ids(pages[..n]) + {pages[n].id};
    }
  }

  lemma SmallerSet(a: set<string>, b: set<string>)
    requires a <= b
    ensures |a| <= |b| && |b - a| == |b| - |a|
  {
    assert b == a + (b - a);
  }

  /** The ids removed with `root`: exactly those reached from it, cycles and dangling parents or not. */
  method Closure(pages: seq<Page>, root: string) returns (deleted: set<string>)
    requires root in Ids(pages)
    ensures forall id :: id in deleted <==> Reaches(pages, root, id)
    ensures Closed(pages, deleted) && root in deleted && |deleted| <= |pages|
  {
    hide Reaches;
    deleted := {root};
    ReachesItself(pages, root);
    var changed := true;
    while changed
      invariant root in deleted && deleted <= Ids(pages)
      invariant forall id :: id in deleted ==> Reaches(pages, root, id)
      invariant !changed ==> Closed(pages, deleted)
      decreases |Ids(pages) - deleted| + (if changed then 1 else 0)
    {
      changed := false;
      ghost var before := deleted;
      var i := 0;
      while i < |pages|
        invariant 0 <= i <= |pages| && root in deleted && before <= deleted <= Ids(pages)
        invariant forall id :: id in deleted ==> Reaches(pages, root, id)
        invariant changed ==> before < deleted
        invariant !changed ==> before == deleted && forall j :: 0 <= j < i && pages[j].parent in deleted ==>
          pages[j].id in deleted
      {
        if pages[i].id !in deleted && pages[i].parent in deleted {
          ReachesOn(pages, root, pages[i]);
          deleted := deleted + {pages[i].id};
          changed := true;
        }
        i := i + 1;
      }
      SmallerSet(before, deleted);
      SmallerSet(Ids(pages) - deleted, Ids(pages) - before);
      if changed { Fewer(Ids(pages), before, deleted); }
    }
    ReachedAreIn(pages, root, deleted);
    IdsAtMost(pages);
    SmallerSet(deleted, Ids(pages));
  }

  lemma Fewer(all: set<string>, before: set<string>, after: set<string>)
    requires before < after <= all
    ensures |all - after| < |all - before|
  {
    SmallerSet(before, all);
    SmallerSet(after, all);
    var x :| x in after && x !in before;
    SmallerSet(before + {x}, after);
  }

  lemma ReachedAreIn(pages: seq<Page>, root: string, deleted: set<string>)
    requires Closed(pages, deleted) && root in deleted
    ensures forall id :: Reaches(pages, root, id) ==> id in deleted
  {
    forall id | Reaches(pages, root, id) ensures id in deleted {
      var path :| Chain(pages, path) && path[0] == root && path[|path| - 1] == id;
      ChainStaysIn(pages, deleted, path);
    }
  }

  /** The pages whose id is not among the deleted, in order. */
  function Kept(pages: seq<Page>, deleted: set<string>): seq<Page> {
    if pages == [] then []
    else
      var n := |pages| - 1;
      Kept(pages[..n], deleted) + (if pages[n].id in deleted then [] else [pages[n]])
  }

  method DeletePage(pages: seq<Page>, root: string) returns (r: Result<seq<Page>, Problem>, ghost deleted: set<string>)
    ensures r.Failure? <==> forall p :: p in pages ==> p.id != root
    ensures r.Success? ==> r.value == Kept(pages, deleted)
    ensures r.Success? ==> forall id :: id in deleted <==> Reaches(pages, root, id)
    ensures r.Success? ==> Closed(pages, deleted) && |deleted| <= |pages|
  {
    hide Reaches, Closed;
    deleted := {};
    var found := false;
    var i := 0;
    while i < |pages|
      invariant 0 <= i <= |pages| && (found <==> exists j :: 0 <= j < i && pages[j].id == root)
    {
      if pages[i].id == root { found := true; }
      i := i + 1;
    }
    if !found { return Failure(NotFound), {}; }
    var gone := Closure(pages, root);
    var capacity: nat := |pages| - |gone|;
    var kept: seq<Page> := [];
    i := 0;
    assert pages[..0] == [];
    while i < |pages|
      invariant 0 <= i <= |pages| && kept == Kept(pages[..i], gone)
    {
      assert pages[..i + 1][..i] == pages[..i];
      if pages[i].id !in gone { kept := kept + [pages[i]]; }
      i := i + 1;
    }
    assert pages[..i] == pages;
    return Success(kept), gone;
  }

  /** `at` are the positions of `kept` in `pages`: increasing, and exactly those not deleted. */
  ghost predicate Positions(pages: seq<Page>, deleted: set<string>, kept: seq<Page>, at: seq<nat>) {
    && |at| == |kept|
    && (forall k :: 0 <= k < |at| ==> at[k] < |pages| && kept[k] == pages[at[k]])
    && (forall j, k :: 0 <= j < k < |at| ==> at[j] < at[k])
    && (forall k :: 0 <= k < |at| ==> pages[at[k]].id !in deleted)
    && (forall i :: 0 <= i < |pages| && pages[i].id !in deleted ==> exists k :: 0 <= k < |at| && at[k] == i)
  }

  /** The kept list is a selection in order: it maps into the old one by increasing positions, and
      takes exactly the positions whose id is not deleted. */
  lemma {:induction false} KeptInOrder(pages: seq<Page>, deleted: set<string>) returns (at: seq<nat>)
    ensures Positions(pages, deleted, Kept(pages, deleted), at)
  {
    if pages == [] {
      at := [];
    } else {
      hide Kept, Positions;
      var n := |pages| - 1;
      at := KeptInOrder(pages[..n], deleted);
      KeptStep(pages, deleted);
      assert pages == pages[..n] + [pages[n]];
      if pages[n].id in deleted {
        PositionsSkip(pages[..n], pages[n], deleted, Kept(pages[..n], deleted), at);
      } else {
        PositionsAdd(pages[..n], pages[n], deleted, Kept(pages[..n], deleted), at);
        at := at + [n];
      }
    }
  }

  lemma PositionsSkip(pages: seq<Page>, p: Page, deleted: set<string>, kept: seq<Page>, at: seq<nat>)
    requires Positions(pages, deleted, kept, at) && p.id in deleted
    ensures Positions(pages + [p], deleted, kept + [], at)
  {
    assert kept + [] == kept;
  }

  lemma PositionsAdd(pages: seq<Page>, p: Page, deleted: set<string>, kept: seq<Page>, at: seq<nat>)
    requires Positions(pages, deleted, kept, at) && p.id !in deleted
    ensures Positions(pages + [p], deleted, kept + [p], at + [|pages|])
  {
    var more, longer := pages + [p], at + [|pages|];
    forall i | 0 <= i < |more| && more[i].id !in deleted ensures exists k :: 0 <= k < |longer| && longer[k] == i {
      if i == |pages| {
        assert longer[|at|] == i;
      } else {
        var k :| 0 <= k < |at| && at[k] == i;
        assert longer[k] == i;
      }
    }
  }

  lemma KeptStep(pages: seq<Page>, deleted: set<string>)
    requires pages != []
    ensures var n := |pages| - 1;
      Kept(pages, deleted) == Kept(pages[..n], deleted) + (if pages[n].id in deleted then [] else [pages[n]])
  {
  }

  /** What is left has no page under a removed one, and a page that had its parent in the list before
      still has it. */
  lemma NothingOrphaned(pages: seq<Page>, deleted: set<string>, p: Page)
    requires Closed(pages, deleted) && p in Kept(pages, deleted)
    ensures p in pages && p.id !in deleted && p.parent !in deleted
    ensures forall q :: q in pages && q.id == p.parent ==> q in Kept(pages, deleted)
  {
    var at := KeptInOrder(pages, deleted);
    var kept := Kept(pages, deleted);
    hide Kept;
    var k :| 0 <= k < |kept| && kept[k] == p;
    assert kept[k] == pages[at[k]];
    forall q | q in pages && q.id == p.parent ensures q in kept {
      var i :| 0 <= i < |pages| && pages[i] == q;
      assert pages[i].id !in deleted;
      var m :| 0 <= m < |at| && at[m] == i;
      assert kept[m] == q;
    }
  }
}
