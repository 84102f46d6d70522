/** Root-focus propagation of the Avalonia front end: when a control whose
    data context is a views host gains focus, the behaviour walks the parent
    links from the host's current view up to the parentless root view and,
    if that root is itself a views host, makes the current view its focused
    view.

    Views and hosts are objects; here they are named by an `ObjectId`. Every
    view's `Parent` link is an entry of a map from view to optional parent. */
module RootFocus {
  import opened Options

  type ObjectId = nat

  /** `IView.Parent` of every view: `None` for a view without a parent. */
  type Parents = map<ObjectId, Option<ObjectId>>

  /** Following `k` parent links from `v` arrives at `a`. */
  ghost predicate ClimbsTo(parents: Parents, v: ObjectId, k: nat, a: ObjectId)
    decreases k
  {
    if k == 0 then v == a
    else v in parents && parents[v].Some? && ClimbsTo(parents, parents[v].value, k - 1, a)
  }

  /** `a` is `v` itself or one of its ancestors. */
  ghost predicate AncestorOrSelf(parents: Parents, v: ObjectId, a: ObjectId) {
    exists k :: ClimbsTo(parents, v, k, a)
  }

  /** Within `n` steps the parent chain of `v` reaches a view without a parent,
      and every view it passes on the way is known. */
  ghost predicate RootedWithin(parents: Parents, v: ObjectId, n: nat)
    decreases n
  {
    v in parents && (parents[v].None? || (n > 0 && RootedWithin(parents, parents[v].value, n - 1)))
  }

  /** The parent chain of `v` is finite: it ends in a parentless view. This is
      what lets the recursion of `FindRoot` stop (see `CycleIsNotRooted`). */
  ghost predicate Rooted(parents: Parents, v: ObjectId) {
    exists n :: RootedWithin(parents, v, n)
  }

  /** Number of parent links from `v` to its root, counted with fuel `n`. */
  ghost function Depth(parents: Parents, v: ObjectId, n: nat): nat
    requires RootedWithin(parents, v, n)
    decreases n
  {
    if parents[v].None? then 0 else 1 + Depth(parents, parents[v].value, n - 1)
  }

  /** The depth does not depend on how much fuel was granted. */
  lemma {:induction false} DepthIndependent(parents: Parents, v: ObjectId, n: nat, m: nat)
    requires RootedWithin(parents, v, n) && RootedWithin(parents, v, m)
    ensures Depth(parents, v, n) == Depth(parents, v, m)
    decreases n
  {
    if parents[v].Some? {
      DepthIndependent(parents, parents[v].value, n - 1, m - 1);
    }
  }

  /** Number of parent links from `v` up to its root. */
  ghost function Height(parents: Parents, v: ObjectId): nat
    requires Rooted(parents, v)
  {
    var n: nat :| RootedWithin(parents, v, n); Depth(parents, v, n)
  }

  lemma HeightIsDepth(parents: Parents, v: ObjectId, n: nat)
    requires RootedWithin(parents, v, n)
    ensures Rooted(parents, v) && Height(parents, v) == Depth(parents, v, n)
  {
    forall k | RootedWithin(parents, v, k)
      ensures Depth(parents, v, k) == Depth(parents, v, n)
    {
      DepthIndependent(parents, v, k, n);
    }
  }

  /** A parentless view is zero links from its root. */
  lemma HeightOfRoot(parents: Parents, v: ObjectId)
    requires Rooted(parents, v) && parents[v].None?
    ensures Height(parents, v) == 0
  {
  }

  /** One step up the chain: the parent is rooted too, one link closer. */
  lemma HeightStep(parents: Parents, v: ObjectId)
    requires Rooted(parents, v) && parents[v].Some?
    ensures Rooted(parents, parents[v].value)
    ensures Height(parents, parents[v].value) == Height(parents, v) - 1
  {
    var n: nat :| RootedWithin(parents, v, n);
    HeightIsDepth(parents, v, n);
    HeightIsDepth(parents, parents[v].value, n - 1);
  }

  /** `FindRoot`: the parentless ancestor-or-self of `view`, reached by
      following parent links exactly `Height` times. */
  function FindRoot(parents: Parents, view: ObjectId): (root: ObjectId)
    requires Rooted(parents, view)
    ensures root in parents && parents[root].None?
    ensures ClimbsTo(parents, view, Height(parents, view), root)
    ensures AncestorOrSelf(parents, view, root)
    decreases Height(parents, view)
  {
    if parents[view].None? then
      HeightOfRoot(parents, view);
      assert ClimbsTo(parents, view, 0, view);
      view
    else
      HeightStep(parents, view);
      var root := FindRoot(parents, parents[view].value);
      assert ClimbsTo(parents, view, Height(parents, view), root);
      root
  }

  /** A parentless view is its own root. */
  lemma FindRootOfRoot(parents: Parents, view: ObjectId)
    requires view in parents && parents[view].None?
    ensures Rooted(parents, view) && FindRoot(parents, view) == view
  {
    assert RootedWithin(parents, view, 0);
  }

  /** A view with a parent has the root of its parent. */
  lemma FindRootOfParent(parents: Parents, view: ObjectId)
    requires Rooted(parents, view) && parents[view].Some?
    ensures Rooted(parents, parents[view].value)
    ensures FindRoot(parents, view) == FindRoot(parents, parents[view].value)
  {
    HeightStep(parents, view);
  }

  /** Every ancestor of a view has the same root as the view. */
  lemma {:induction false} FindRootOfAncestor(parents: Parents, view: ObjectId, k: nat, a: ObjectId)
    requires Rooted(parents, view) && ClimbsTo(parents, view, k, a)
    ensures Rooted(parents, a) && FindRoot(parents, a) == FindRoot(parents, view)
    decreases k
  {
    if k > 0 {
      FindRootOfParent(parents, view);
      FindRootOfAncestor(parents, parents[view].value, k - 1, a);
    }
  }

  /** The root is the only parentless view among the ancestors-or-self. */
  lemma {:induction false} FindRootIsOnlyParentlessAncestor(parents: Parents, view: ObjectId, k: nat, a: ObjectId)
    requires Rooted(parents, view) && ClimbsTo(parents, view, k, a)
    requires a in parents && parents[a].None?
    ensures a == FindRoot(parents, view)
  {
    FindRootOfAncestor(parents, view, k, a);
    FindRootOfRoot(parents, a);
  }

  /** Looking up the root of a root changes nothing. */
  lemma FindRootIdempotent(parents: Parents, view: ObjectId)
    requires Rooted(parents, view)
    ensures Rooted(parents, FindRoot(parents, view))
    ensures FindRoot(parents, FindRoot(parents, view)) == FindRoot(parents, view)
  {
    FindRootOfRoot(parents, FindRoot(parents, view));
  }

  /** Two climbs one after the other are one climb. */
  lemma {:induction false} ClimbsCompose(parents: Parents, x: ObjectId, i: nat, y: ObjectId, j: nat, z: ObjectId)
    requires ClimbsTo(parents, x, i, y) && ClimbsTo(parents, y, j, z)
    ensures ClimbsTo(parents, x, i + j, z)
    decreases i
  {
    if i > 0 {
      ClimbsCompose(parents, parents[x].value, i - 1, y, j, z);
    }
  }

  /** A view that lies on a cycle of parent links is not rooted: on such a
      chain the recursion of `FindRoot` would never stop. */
  lemma CycleIsNotRooted(parents: Parents, view: ObjectId, k: nat)
    requires k > 0 && ClimbsTo(parents, view, k, view)
    ensures !Rooted(parents, view)
  {
    if Rooted(parents, view) {
      var n: nat :| RootedWithin(parents, view, n);
      CycleNeverEnds(parents, view, k, n);
    }
  }

  lemma {:induction false} CycleNeverEnds(parents: Parents, view: ObjectId, k: nat, n: nat)
    requires k > 0 && ClimbsTo(parents, view, k, view)
    requires RootedWithin(parents, view, n)
    ensures false
    decreases n
  {
    var p := parents[view].value;
    assert ClimbsTo(parents, view, 1, p);
    ClimbsCompose(parents, p, k - 1, view, 1, p);
    CycleNeverEnds(parents, p, k, n - 1);
  }

  /** The converse of `FindRoot`'s precondition: when every parent is itself
      a known view, a view that is not rooted can climb any number `k` of
      parent links and still stand on a view with a parent, so the recursion
      of `FindRoot` would never stop on it. */
  lemma {:induction false} NotRootedNeverEnds(parents: Parents, v: ObjectId, k: nat)
    requires forall x | x in parents && parents[x].Some? :: parents[x].value in parents
    requires v in parents && !Rooted(parents, v)
    ensures exists a :: ClimbsTo(parents, v, k, a) && a in parents && parents[a].Some?
    decreases k
  {
    assert !RootedWithin(parents, v, 0);
    if k == 0 {
      assert ClimbsTo(parents, v, 0, v);
    } else {
      var p := parents[v].value;
      assert !Rooted(parents, p) by {
        forall n: nat
          ensures !RootedWithin(parents, p, n)
        {
          assert !RootedWithin(parents, v, n + 1);
        }
      }
      NotRootedNeverEnds(parents, p, k - 1);
      var a :| ClimbsTo(parents, p, k - 1, a) && a in parents && parents[a].Some?;
      assert ClimbsTo(parents, v, k, a);
    }
  }

  /** The objects the behaviour reaches: the parent link of every view, and
      `CurrentView` / `FocusedView` of every views host (a view may be a
      host as well). */
  class ViewGraph {
    var parents: Parents
    var currentView: map<ObjectId, Option<ObjectId>>
    var focusedView: map<ObjectId, Option<ObjectId>>

    /** Every host has both properties, and a current view is a view. */
    ghost predicate Valid()
      reads this
    {
      && currentView.Keys == focusedView.Keys
      && (forall h | h in currentView && currentView[h].Some? :: currentView[h].value in parents)
    }

    constructor (parents: Parents, currentView: map<ObjectId, Option<ObjectId>>, focusedView: map<ObjectId, Option<ObjectId>>)
      requires currentView.Keys == focusedView.Keys
      requires forall h | h in currentView && currentView[h].Some? :: currentView[h].value in parents
      ensures Valid()
      ensures this.parents == parents && this.currentView == currentView && this.focusedView == focusedView
    {
      this.parents := parents;
      this.currentView := currentView;
      this.focusedView := focusedView;
    }

    /** The control's data context is a views host, and walking up from its
        current view ends at a view that is a views host too. */
    ghost predicate Propagates(dataContext: Option<ObjectId>)
      reads this
      requires FocusHandled(dataContext)
    {
      && dataContext.Some? && dataContext.value in currentView
      && FindRoot(parents, currentView[dataContext.value].value) in focusedView
    }

    /** What the handler needs: when the data context is a host, its current
        view is set (it is dereferenced) and has a finite parent chain. */
    ghost predicate FocusHandled(dataContext: Option<ObjectId>)
      reads this
    {
      dataContext.Some? && dataContext.value in currentView ==>
        currentView[dataContext.value].Some? && Rooted(parents, currentView[dataContext.value].value)
    }

    /** The focus-gained handler: the root host's `FocusedView` becomes the
        originating host's `CurrentView`; nothing else changes. */
    method OnGotFocus(dataContext: Option<ObjectId>)
      requires Valid() && FocusHandled(dataContext)
      modifies this
      ensures Valid()
      ensures parents == old(parents) && currentView == old(currentView)
      ensures old(Propagates(dataContext)) ==>
        var view := currentView[dataContext.value].value;
        focusedView == old(focusedView)[FindRoot(parents, view) := Some(view)]
      ensures !old(Propagates(dataContext)) ==> focusedView == old(focusedView)
    {
      if dataContext.Some? && dataContext.value in currentView {
        var host := dataContext.value;
        var view := currentView[host].value;
        var root := FindRoot(parents, view);
        if root in focusedView {
          focusedView := focusedView[root := currentView[host]];
        }
      }
    }
  }
}
