// When a connected Node counts as ready: its directory has arrived whole and every session
// that could still be running has been heard of, or is known never to have started.
module Readiness {
  import opened Basics

  const INVENTORY_LIMIT := 1000

  // A set of capabilities and its revision.
  datatype Capabilities = Capabilities(names: Id, revision: nat)

  // A reported Agent or project; a project has no capabilities. `usable` is the ready state
  // of an Agent, the valid mark of a project.
  datatype Item = Item(id: Id, usable: bool, detail: Id, capabilities: Option<Capabilities>)

  datatype Entry = Entry(node: Id, usable: bool, detail: Id, capabilities: Option<Capabilities>)

  // One table, of projects or of Agents.
  type Directory = map<Id, Entry>

  datatype Directories = Directories(projects: Directory, agents: Directory)

  // ----- one complete directory -----

  // The capability revision does not go back, and one revision means one set of capabilities.
  predicate NotBack(a: Option<Capabilities>, b: Option<Capabilities>) {
    match a
    case None => b.None?
    case Some(c) => b.Some? && (c.revision < b.value.revision || c == b.value)
  }

  predicate ItemOk(d: Directory, node: Id, i: Item) {
    i.id in d ==> d[i.id].node == node && NotBack(d[i.id].capabilities, i.capabilities)
  }

  function EntryOf(node: Id, i: Item): Entry {
    Entry(node, i.usable, i.detail, i.capabilities)
  }

  predicate Distinct(items: seq<Item>) {
    forall i, j :: 0 <= i < j < |items| ==> items[i].id != items[j].id
  }

  predicate Accepts(d: Directory, node: Id, items: seq<Item>) {
    Distinct(items) && forall i :: 0 <= i < |items| ==> ItemOk(d, node, items[i])
  }

  function IdsOf(items: seq<Item>): set<Id> {
    set i | 0 <= i < |items| :: items[i].id
  }

  // The entries after some items.
  ghost predicate Listed(d: Directory, node: Id, items: seq<Item>, d': Directory) {
    && d'.Keys == d.Keys + IdsOf(items)
    && (forall i :: 0 <= i < |items| ==> items[i].id in d' && d'[items[i].id] == EntryOf(node, items[i]))
    && (forall x :: x in d && x !in IdsOf(items) ==> d'[x] == d[x])
  }

  // What is not reported any more becomes unusable.
  function Retired(d: Directory, node: Id, ids: set<Id>): Directory {
    map x | x in d :: if d[x].node == node && x !in ids then d[x].(usable := false) else d[x]
  }

  // The stored directory after a complete report: of the Node's entries only reported
  // ones are usable, other Nodes' entries are untouched, nothing disappears.
  ghost predicate Replaced(d: Directory, node: Id, items: seq<Item>, d': Directory) {
    && d'.Keys == d.Keys + IdsOf(items)
    && (forall i :: 0 <= i < |items| ==> items[i].id in d' && d'[items[i].id] == EntryOf(node, items[i]))
    && (forall x :: x in d' && d'[x].node == node ==> (d'[x].usable ==> x in IdsOf(items)))
    && (forall x :: x in d && d[x].node != node && x !in IdsOf(items) ==> d'[x] == d[x])
  }

  // The loop over one group of `inventory`; None rolls the transaction back.
  method Record(d: Directory, node: Id, items: seq<Item>) returns (r: Option<Directory>)
    ensures r.Some? <==> Accepts(d, node, items)
    ensures r.Some? ==> Replaced(d, node, items, r.value) && NeverBack(d, r.value)
  {
    var current: Directory := d;
    var seen: set<Id> := {};
    for i := 0 to |items|
      invariant seen == IdsOf(items[..i]) && Accepts(d, node, items[..i]) && Listed(d, node, items[..i], current)
    {
      var item := items[i];
      NextItem(items, i);
      if item.id in seen { return None; }
      if item.id in current {
        var e := current[item.id];
        if e.node != node { return None; }
        if e.capabilities.None? != item.capabilities.None? { return None; }
        if e.capabilities.Some? {
          var stored, reported := e.capabilities.value, item.capabilities.value;
          if reported.revision < stored.revision || (reported.revision == stored.revision && reported.names != stored.names) { return None; }
        }
      }
      ListedNext(d, node, items, i, current);
      current := current[item.id := EntryOf(node, item)];
      seen := seen + {item.id};
    }
    assert items[..|items|] == items;
    RetiredReplaces(d, node, items, current);
    return Some(Retired(current, node, seen));
  }

  lemma NextItem(items: seq<Item>, n: nat)
    requires n < |items|
    ensures IdsOf(items[..n + 1]) == IdsOf(items[..n]) + {items[n].id}
    ensures Distinct(items[..n]) ==> (Distinct(items[..n + 1]) <==> items[n].id !in IdsOf(items[..n]))
    ensures Distinct(items) ==> Distinct(items[..n + 1])
  {
    var a, b := items[..n], items[..n + 1];
    assert forall i :: 0 <= i < n ==> b[i] == a[i];
    assert b[n] == items[n];
    if Distinct(a) && items[n].id !in IdsOf(a) {
      assert forall i :: 0 <= i < n ==> a[i].id in IdsOf(a);
    }
    if items[n].id in IdsOf(a) {
      var i :| 0 <= i < n && a[i].id == items[n].id;
      assert b[i].id == b[n].id;
    }
  }

  lemma ListedNext(d: Directory, node: Id, items: seq<Item>, n: nat, current: Directory)
    requires n < |items| && Listed(d, node, items[..n], current) && items[n].id !in IdsOf(items[..n])
    ensures Listed(d, node, items[..n + 1], current[items[n].id := EntryOf(node, items[n])])
  {
    var a, b, e := items[..n], items[..n + 1], EntryOf(node, items[n]);
    var next := current[items[n].id := e];
    NextItem(items, n);
    assert next.Keys == current.Keys + {items[n].id};
    forall i | 0 <= i < n + 1
      ensures b[i].id in next && next[b[i].id] == EntryOf(node, b[i])
    {
      if i < n { assert b[i] == a[i] && a[i].id in IdsOf(a); }
    }
    forall x | x in d && x !in IdsOf(b)
      ensures next[x] == d[x]
    {
      assert x !in IdsOf(a);
    }
  }

  lemma RetiredReplaces(d: Directory, node: Id, items: seq<Item>, current: Directory)
    requires Listed(d, node, items, current) && Accepts(d, node, items)
    ensures Replaced(d, node, items, Retired(current, node, IdsOf(items))) && NeverBack(d, Retired(current, node, IdsOf(items)))
  {
    assert forall i :: 0 <= i < |items| ==> items[i].id in IdsOf(items);
  }

  predicate NeverBack(d: Directory, d': Directory) {
    forall x :: x in d ==> x in d' && d[x].node == d'[x].node && NotBack(d[x].capabilities, d'[x].capabilities)
  }

  // A capability revision may only grow, and the same revision means the same set.
  lemma NotBackExactly(a: Capabilities, b: Capabilities)
    ensures NotBack(Some(a), Some(b)) <==> b.revision > a.revision || (b.revision == a.revision && b.names == a.names)
  {
  }

  lemma NeverBackOn(a: Directory, b: Directory, c: Directory)
    requires NeverBack(a, b) && NeverBack(b, c)
    ensures NeverBack(a, c)
  {
    forall x | x in a
      ensures x in c && a[x].node == c[x].node && NotBack(a[x].capabilities, c[x].capabilities)
    {
      assert x in b;
    }
  }

  // ----- the fence of a connection -----

  // What the registration query reads of a session.
  datatype SessionRow = SessionRow(closed: bool, purged: bool, failed: bool, lastSource: nat, createFailed: bool)

  // A failed create from which no source event ever came.
  predicate NeverStarted(s: SessionRow) {
    s.failed && s.lastSource == 0 && s.createFailed
  }

  predicate MustSync(s: SessionRow) {
    !s.closed && !s.purged && !NeverStarted(s)
  }

  class Peer {
    const node: Id
    var inventoryId: Option<Id>
    var projects: seq<Item>
    var agents: seq<Item>
    var inventoryComplete: bool
    var needsSync: set<Id>
    var ready: bool
    // The sessions fenced at registration, and why each has been released.
    ghost var fenced: set<Id>
    ghost var heard: set<Id>
    ghost var unstarted: set<Id>

    // Ready exactly when the directory is complete and no fenced session is outstanding; a
    // session leaves the fence only by a snapshot or because it never started.
    ghost predicate Valid()
      reads this
    {
      && (ready <==> inventoryComplete && needsSync == {})
      && needsSync == fenced - heard - unstarted
    }

    // Registration of the connection.
    constructor (node: Id, sessions: map<Id, SessionRow>)
      ensures Valid() && !ready && this.node == node
      ensures needsSync == fenced == set x | x in sessions && MustSync(sessions[x])
      ensures forall x :: x in needsSync <==>
        x in sessions && !sessions[x].closed && !sessions[x].purged
        && !(sessions[x].failed && sessions[x].lastSource == 0 && sessions[x].createFailed)
    {
      this.node := node;
      inventoryId, projects, agents, inventoryComplete, ready := None, [], [], false, false;
      needsSync := set x | x in sessions && MustSync(sessions[x]);
      fenced := set x | x in sessions && MustSync(sessions[x]);
      heard, unstarted := {}, {};
    }

    // `nodeReady`.
    method NodeReady()
      modifies this`ready
      ensures ready <==> inventoryComplete && needsSync == {}
    {
      ready := inventoryComplete && needsSync == {};
    }

    // An acknowledged snapshot, new or repeated, releases its session.
    method Snapshot(session: Id)
      requires Valid()
      modifies this`needsSync, this`ready, this`heard
      ensures Valid() && needsSync == old(needsSync) - {session} && heard == old(heard) + {session} && (old(ready) ==> ready)
    {
      needsSync, heard := needsSync - {session}, heard + {session};
      NodeReady();
    }

    // `releaseUnstartedSync`: of the fenced sessions only one that never started is released.
    method ReleaseUnstarted(session: Id, row: SessionRow)
      requires Valid()
      modifies this`needsSync, this`ready, this`unstarted
      ensures Valid() && (old(ready) ==> ready)
      ensures unstarted == old(unstarted) + if session in old(needsSync) && NeverStarted(row) then {session} else {}
      ensures needsSync == old(needsSync) - if NeverStarted(row) then {session} else {}
      ensures session in needsSync <==> session in old(needsSync) && !(row.failed && row.lastSource == 0 && row.createFailed)
    {
      if session !in needsSync { return; }
      if NeverStarted(row) {
        needsSync, unstarted := needsSync - {session}, unstarted + {session};
        NodeReady();
      }
    }

    // The transaction of `inventory`: both groups are stored, or neither.
    static method RecordBoth(d: Directories, node: Id, ps: seq<Item>, gs: seq<Item>) returns (r: Option<Directories>)
      ensures r.Some? <==> Accepts(d.projects, node, ps) && Accepts(d.agents, node, gs)
      ensures r.Some? ==>
        && Replaced(d.projects, node, ps, r.value.projects) && NeverBack(d.projects, r.value.projects)
        && Replaced(d.agents, node, gs, r.value.agents) && NeverBack(d.agents, r.value.agents)
    {
      var first := Record(d.projects, node, ps);
      if first.None? { return None; }
      var second := Record(d.agents, node, gs);
      if second.None? { return None; }
      return Some(Directories(first.value, second.value));
    }

    // `inventory`: parts of one directory are collected; another id starts over; only a
    // complete one is stored, whole or not at all. The connection never becomes less ready.
    method Inventory(id: Id, ps: seq<Item>, gs: seq<Item>, complete: bool, d: Directories) returns (d': Directories, ok: bool)
      requires Valid()
      modifies this`inventoryId, this`projects, this`agents, this`inventoryComplete, this`ready
      ensures Valid() && (old(ready) ==> ready)
      ensures var (ps, gs) := ((if old(inventoryId) == Some(id) then old(projects) else []) + ps,
                               (if old(inventoryId) == Some(id) then old(agents) else []) + gs);
        if |ps| > INVENTORY_LIMIT || |gs| > INVENTORY_LIMIT then
          !ok && d' == d && projects == agents == [] && inventoryId == Some(id) && inventoryComplete == old(inventoryComplete)
        else if !complete then
          ok && d' == d && projects == ps && agents == gs && inventoryId == Some(id) && inventoryComplete == old(inventoryComplete)
        else
          && (ok <==> Accepts(d.projects, node, ps) && Accepts(d.agents, node, gs)) && projects == agents == [] && inventoryId == None
          && (if ok then Replaced(d.projects, node, ps, d'.projects) && Replaced(d.agents, node, gs, d'.agents) && inventoryComplete
              else d' == d && inventoryComplete == old(inventoryComplete))
      ensures ok && complete ==> NeverBack(d.projects, d'.projects) && NeverBack(d.agents, d'.agents)
    {
      if inventoryId != Some(id) { inventoryId, projects, agents := Some(id), [], []; }
      projects, agents := projects + ps, agents + gs;
      if |projects| > INVENTORY_LIMIT || |agents| > INVENTORY_LIMIT {
        projects, agents := [], [];
        return d, false;
      }
      if !complete { return d, true; }
      var allProjects, allAgents := projects, agents;
      inventoryId, projects, agents := None, [], [];
      var stored := RecordBoth(d, node, allProjects, allAgents);
      if stored.None? { return d, false; }
      inventoryComplete := true;
      NodeReady();
      return stored.value, true;
    }
  }
}
