// Sessions that continue other sessions: parents never dangle and never form a cycle, so the
// descendant search ends and finds exactly the tree below a session, which is deleted whole
// or not at all.
module Lineage {
  import opened Basics

  const DELETE_LIMIT := 100

  // `born` orders sessions by creation; `open` tells whether an operation is unresolved.
  datatype Entry = Entry(parent: Option<Id>, born: nat, closed: bool, open: bool, purged: bool)

  type Sessions = map<Id, Entry>

  // Every parent exists and is older.
  predicate Forest(s: Sessions) {
    forall x :: x in s && s[x].parent.Some? ==> s[x].parent.value in s && s[s[x].parent.value].born < s[x].born
  }

  // x is k generations below the root.
  predicate Below(s: Sessions, x: Id, root: Id, k: nat)
    decreases k
  {
    x in s && if k == 0 then x == root else s[x].parent.Some? && Below(s, s[x].parent.value, root, k - 1)
  }

  ghost predicate Descends(s: Sessions, x: Id, root: Id) {
    exists k: nat :: Below(s, x, root, k)
  }

  lemma {:induction false} BelowYounger(s: Sessions, x: Id, root: Id, k: nat)
    requires Forest(s) && Below(s, x, root, k)
    ensures root in s && s[root].born + k <= s[x].born
    decreases k
  {
    if k > 0 { BelowYounger(s, s[x].parent.value, root, k - 1); }
  }

  // A session has one place in the tree.
  lemma {:induction false} OneLevel(s: Sessions, x: Id, root: Id, i: nat, j: nat)
    requires Forest(s) && Below(s, x, root, i) && Below(s, x, root, j)
    ensures i == j
    decreases i
  {
    if i == 0 {
      BelowYounger(s, x, root, j);
    } else if j == 0 {
      BelowYounger(s, x, root, i);
    } else {
      OneLevel(s, s[x].parent.value, root, i - 1, j - 1);
    }
  }

  ghost predicate Within(s: Sessions, x: Id, root: Id, k: nat) {
    exists i :: 0 <= i < k && Below(s, x, root, i)
  }

  lemma WithinNext(s: Sessions, x: Id, root: Id, k: nat)
    ensures Within(s, x, root, k + 1) <==> Within(s, x, root, k) || Below(s, x, root, k)
  {
  }

  ghost predicate IsLevel(s: Sessions, root: Id, k: nat, level: set<Id>) {
    forall x :: x in level <==> Below(s, x, root, k)
  }

  ghost predicate IsWithin(s: Sessions, root: Id, k: nat, found: set<Id>) {
    forall x :: x in found <==> Within(s, x, root, k)
  }

  // The search of `deleteHistory`, one generation at a time: `tree` lists the
  // generations, which are disjoint (LevelsApart), so nothing is found twice.
  method Descendants(s: Sessions, root: Id) returns (tree: seq<set<Id>>, found: set<Id>)
    requires Forest(s) && root in s
    ensures forall x :: x in found <==> Descends(s, x, root)
    ensures forall k :: 0 <= k < |tree| ==> IsLevel(s, root, k, tree[k])
    ensures IsWithin(s, root, |tree|, found)
  {
    var level, k := {root}, 0;
    tree, found := [], {};
    while level != {}
      invariant k == |tree| && found <= s.Keys && level <= s.Keys
      invariant IsLevel(s, root, k, level) && IsWithin(s, root, k, found)
      invariant forall i :: 0 <= i < k ==> IsLevel(s, root, i, tree[i])
      decreases s.Keys - found
    {
      NewLevel(s, root, k, found, level);
      tree, found := tree + [level], found + level;
      level, k := NextLevel(s, level), k + 1;
    }
    AllWithin(s, root, k);
  }

  // Once a generation is empty, everything below the root has been seen.
  lemma AllWithin(s: Sessions, root: Id, k: nat)
    requires Forest(s) && forall x :: !Below(s, x, root, k)
    ensures forall x :: Within(s, x, root, k) <==> Descends(s, x, root)
  {
    forall x | Descends(s, x, root)
      ensures Within(s, x, root, k)
    {
      var j: nat :| Below(s, x, root, j);
      LevelsUpTo(s, x, root, j, k);
    }
  }

  function NextLevel(s: Sessions, level: set<Id>): set<Id> {
    set x | x in s && s[x].parent.Some? && s[x].parent.value in level
  }

  lemma NewLevel(s: Sessions, root: Id, k: nat, found: set<Id>, level: set<Id>)
    requires Forest(s)
    requires IsLevel(s, root, k, level) && IsWithin(s, root, k, found)
    ensures found !! level && IsWithin(s, root, k + 1, found + level) && IsLevel(s, root, k + 1, NextLevel(s, level))
  {
    LevelsApart(s, root, k);
    forall x
      ensures x in found + level <==> Within(s, x, root, k + 1)
    {
      WithinNext(s, x, root, k);
    }
  }

  lemma LevelsApart(s: Sessions, root: Id, k: nat)
    requires Forest(s)
    ensures forall i, x :: 0 <= i < k && Below(s, x, root, i) ==> !Below(s, x, root, k)
  {
    forall i, x | 0 <= i < k && Below(s, x, root, i)
      ensures !Below(s, x, root, k)
    {
      if Below(s, x, root, k) { OneLevel(s, x, root, i, k); }
    }
  }

  // Below an empty generation there is nothing.
  lemma {:induction false} LevelsUpTo(s: Sessions, x: Id, root: Id, j: nat, k: nat)
    requires Below(s, x, root, j) && forall y :: !Below(s, y, root, k)
    ensures j < k
    decreases j
  {
    if j > k {
      LevelsUpTo(s, s[x].parent.value, root, j - 1, k);
    }
  }

  // ----- what is deleted -----

  predicate Deletable(s: Sessions, targets: set<Id>) {
    forall x :: x in targets ==> x in s && s[x].closed && !s[x].open
  }

  function Deleted(s: Sessions, targets: set<Id>): Sessions {
    map x | x in s :: if x in targets then s[x].(purged := true) else s[x]
  }

  function Without(s: Sessions, x: Id): Sessions {
    map y | y in s && y != x :: s[y]
  }

  predicate Leaf(s: Sessions, x: Id) {
    forall y :: y in s ==> s[y].parent != Some(x)
  }

  // Purging keeps the tree as it is.
  lemma {:induction false} SameTree(s: Sessions, targets: set<Id>, x: Id, root: Id, k: nat)
    ensures Below(Deleted(s, targets), x, root, k) <==> Below(s, x, root, k)
    decreases k
  {
    if k > 0 && x in s && s[x].parent.Some? { SameTree(s, targets, s[x].parent.value, root, k - 1); }
  }

  lemma DeletedForest(s: Sessions, targets: set<Id>)
    requires Forest(s)
    ensures Forest(Deleted(s, targets)) && forall x :: x in s ==> Deleted(s, targets)[x].born == s[x].born
  {
  }

  class Library {
    var sessions: Sessions
    var clock: nat

    ghost predicate Valid()
      reads this
    {
      Forest(sessions) && forall x :: x in sessions ==> sessions[x].born < clock
    }

    constructor ()
      ensures Valid() && sessions == map[]
    {
      sessions, clock := map[], 0;
    }

    // A session created on its own or as the continuation of another one; an import has none.
    method Create(x: Id, parent: Option<Id>) returns (ok: bool)
      requires Valid() && x !in sessions
      modifies this
      ensures Valid()
      ensures ok <==> (parent.Some? ==> parent.value in old(sessions) && !old(sessions)[parent.value].purged)
      ensures sessions == if ok then old(sessions)[x := Entry(parent, old(clock), false, true, false)] else old(sessions)
    {
      if parent.Some? && (parent.value !in sessions || sessions[parent.value].purged) { return false; }
      sessions := sessions[x := Entry(parent, clock, false, true, false)];
      clock := clock + 1;
      return true;
    }

    method Note(x: Id, closed: bool, open: bool)
      requires Valid() && x in sessions
      modifies this
      ensures Valid() && sessions == old(sessions)[x := old(sessions)[x].(closed := closed, open := open)]
    {
      sessions := sessions[x := sessions[x].(closed := closed, open := open)];
    }

    // Retention deletes a purged session with nothing unresolved, whose last turn ended (if it
    // has) before the limit, once no other continues it.
    method Retire(x: Id, ended: Option<int>, limit: int) returns (ok: bool)
      requires Valid() && x in sessions
      modifies this
      ensures Valid()
      ensures ok <==> old(sessions)[x].purged && !old(sessions)[x].open && Leaf(old(sessions), x) && ended.Some? && ended.value < limit
      ensures sessions == if ok then Without(old(sessions), x) else old(sessions)
    {
      if !sessions[x].purged || sessions[x].open || !Leaf(sessions, x) { return false; }
      if ended.None? || ended.value >= limit { return false; }
      sessions := Without(sessions, x);
      return true;
    }

    // Every target is validated before any content is deleted.
    method Validate(targets: set<Id>) returns (ok: bool)
      requires targets <= sessions.Keys
      ensures ok <==> Deletable(sessions, targets)
    {
      var rest := targets;
      while rest != {}
        invariant rest <= targets && Deletable(sessions, targets - rest)
        decreases |rest|
      {
        var x :| x in rest;
        if !sessions[x].closed || sessions[x].open { return false; }
        rest := rest - {x};
      }
      return true;
    }

    method PurgeAll(targets: set<Id>)
      requires Valid() && targets <= sessions.Keys
      modifies this`sessions
      ensures Valid() && sessions == Deleted(old(sessions), targets)
    {
      var rest := targets;
      while rest != {}
        invariant rest <= targets && sessions == Deleted(old(sessions), targets - rest)
        decreases |rest|
      {
        var x :| x in rest;
        sessions := sessions[x := sessions[x].(purged := true)];
        rest := rest - {x};
      }
      DeletedForest(old(sessions), targets);
    }

    // All of the tree or nothing, and only for the current revision of the root and when every
    // member is closed with no open operation.
    method DeleteHistory(root: Id, revision: nat, seen: nat, includeDescendants: bool) returns (ok: bool)
      requires Valid() && root in sessions
      modifies this`sessions
      ensures Valid()
      ensures var targets := Targets(old(sessions), root, includeDescendants);
        && (ok <==> seen == revision && Deletable(old(sessions), targets) && (includeDescendants ==> |targets| <= DELETE_LIMIT))
        && sessions == (if ok then Deleted(old(sessions), targets) else old(sessions))
        && (ok ==> forall x :: x in targets ==> old(sessions)[x].closed && !old(sessions)[x].open)
        && (!ok && seen == revision && (includeDescendants ==> |targets| <= DELETE_LIMIT) ==>
              exists x :: x in targets && (!old(sessions)[x].closed || old(sessions)[x].open))
    {
      if seen != revision { return false; }
      var targets := {root};
      if includeDescendants {
        var _, found := Descendants(sessions, root);
        targets := found;
      }
      assert targets == Targets(sessions, root, includeDescendants);
      if includeDescendants && |targets| > DELETE_LIMIT { return false; }
      ok := Validate(targets);
      if ok { PurgeAll(targets); }
    }
  }

  ghost function Targets(s: Sessions, root: Id, includeDescendants: bool): set<Id> {
    set x | x in s && if includeDescendants then Descends(s, x, root) else x == root
  }

  // After a deletion with descendants no session of the tree keeps content, and the tree
  // can be deleted again with the same result.
  lemma DeletedWhole(s: Sessions, root: Id)
    requires Forest(s) && root in s && Deletable(s, Targets(s, root, true))
    ensures var s' := Deleted(s, Targets(s, root, true));
      && Forest(s') && Targets(s', root, true) == Targets(s, root, true)
      && (forall x :: Descends(s', x, root) ==> s'[x].purged)
      && Deletable(s', Targets(s', root, true)) && Deleted(s', Targets(s', root, true)) == s'
  {
    var targets := Targets(s, root, true);
    var s' := Deleted(s, targets);
    forall x
      ensures Descends(s', x, root) <==> Descends(s, x, root)
    {
      if Descends(s, x, root) {
        var k: nat :| Below(s, x, root, k);
        SameTree(s, targets, x, root, k);
      }
      if Descends(s', x, root) {
        var k: nat :| Below(s', x, root, k);
        SameTree(s, targets, x, root, k);
      }
    }
    assert Targets(s', root, true) == targets;
  }
}
