/** Finding the descendants of a process in a process table, to signal a whole tree. */
module ProcessTree {

  type Pid = int

  datatype Row = Row(pid: Pid, parent: Pid)

  /** A process table lists every process once. */
  ghost predicate OneRowPerPid(table: seq<Row>) {
    forall i, j :: 0 <= i < j < |table| ==> table[i].pid != table[j].pid
  }

  predicate Edge(table: seq<Row>, parent: Pid, child: Pid) { Row(child, parent) in table }

  ghost predicate IsPath(table: seq<Row>, path: seq<Pid>) {
    forall i :: 0 <= i < |path| - 1 ==> Edge(table, path[i], path[i + 1])
  }

  /** `pid` is a descendant of `root`: a path of at least one step leads there. */
  ghost predicate Descends(table: seq<Row>, root: Pid, pid: Pid) {
    exists path :: IsPathBetween(table, path, root, pid)
  }

  ghost predicate IsPathBetween(table: seq<Row>, path: seq<Pid>, root: Pid, pid: Pid) {
    |path| >= 2 && path[0] == root && path[|path| - 1] == pid && IsPath(table, path)
  }

  function ChildrenOf(table: seq<Row>, parent: Pid): seq<Pid> {
    if table == [] then []
    else
      var front := ChildrenOf(table[..|table| - 1], parent);
      var last := table[|table| - 1];
      if last.parent == parent then front + [last.pid] else front
  }

  function Lookup(children: map<Pid, seq<Pid>>, parent: Pid): seq<Pid> {
    if parent in children then children[parent] else []
  }

  method GroupByParent(table: seq<Row>) returns (children: map<Pid, seq<Pid>>)
    ensures forall parent :: Lookup(children, parent) == ChildrenOf(table, parent)
  {
    children := map[];
    for i := 0 to |table|
      invariant forall parent :: Lookup(children, parent) == ChildrenOf(table[..i], parent)
    {
      var row := table[i];
      assert table[..i + 1][..i] == table[..i];
      children := children[row.parent := Lookup(children, row.parent) + [row.pid]];
    }
    assert table[..|table|] == table;
  }

  // ---------------------------------------------------------------------------

  lemma {:induction false} ChildrenAreEdges(table: seq<Row>, parent: Pid)
    ensures forall pid :: pid in ChildrenOf(table, parent) <==> Edge(table, parent, pid)
  {
    if table != [] {
      var front := table[..|table| - 1];
      ChildrenAreEdges(front, parent);
      assert table == front + [table[|table| - 1]];
    }
  }

  lemma DistinctAppend(left: seq<Pid>, right: seq<Pid>)
    requires Distinct(left) && Distinct(right)
    requires forall pid <- right :: pid !in left
    ensures Distinct(left + right)
  {
    var all := left + right;
    forall i, j | 0 <= i < j < |all| ensures all[i] != all[j] {
      if i < |left| <= j {
        assert all[j] == right[j - |left|] && all[j] in right;
        assert all[i] == left[i] && all[i] in left;
      }
    }
  }

  lemma {:induction false} ChildrenAreDistinct(table: seq<Row>, parent: Pid)
    requires OneRowPerPid(table)
    ensures Distinct(ChildrenOf(table, parent))
  {
    if table != [] {
      var front := table[..|table| - 1];
      ChildrenAreDistinct(front, parent);
      ChildrenAreEdges(front, parent);
      forall pid | pid in ChildrenOf(front, parent) ensures pid != table[|table| - 1].pid {
        var i :| 0 <= i < |front| && front[i] == Row(pid, parent);
        assert table[i].pid == pid;
      }
      DistinctAppend(ChildrenOf(front, parent), ChildrenOf(table, parent)[|ChildrenOf(front, parent)|..]);
      assert ChildrenOf(table, parent)
          == ChildrenOf(front, parent) + ChildrenOf(table, parent)[|ChildrenOf(front, parent)|..];
    }
  }

  lemma ParentIsUnique(table: seq<Row>, pid: Pid, a: Pid, b: Pid)
    requires OneRowPerPid(table) && Edge(table, a, pid) && Edge(table, b, pid)
    ensures a == b
  {
    var i :| 0 <= i < |table| && table[i] == Row(pid, a);
    var j :| 0 <= j < |table| && table[j] == Row(pid, b);
  }

  lemma ExtendDescent(table: seq<Row>, root: Pid, pid: Pid, child: Pid)
    requires pid == root || Descends(table, root, pid)
    requires Edge(table, pid, child)
    ensures Descends(table, root, child)
  {
    if Descends(table, root, pid) {
      var path :| IsPathBetween(table, path, root, pid);
      assert IsPathBetween(table, path + [child], root, child);
    } else {
      assert IsPathBetween(table, [root, child], root, child);
    }
  }

  ghost predicate Distinct(s: seq<Pid>) {
    forall i, j :: 0 <= i < j < |s| ==> s[i] != s[j]
  }

  function Pids(table: seq<Row>): set<Pid> { set row <- table :: row.pid }

  lemma {:induction false} DistinctFits(s: seq<Pid>, pool: set<Pid>)
    requires Distinct(s) && forall pid <- s :: pid in pool
    ensures |s| <= |pool|
  {
    if s != [] {
      var last := s[|s| - 1];
      forall pid <- s[..|s| - 1] ensures pid in pool - {last} {
        var i :| 0 <= i < |s| - 1 && s[i] == pid;
      }
      DistinctFits(s[..|s| - 1], pool - {last});
    }
  }

  /** Whatever contains the children of the root and is closed under children contains every descendant. */
  lemma {:induction false} ClosedContains(table: seq<Row>, root: Pid, found: seq<Pid>, path: seq<Pid>)
    requires forall pid :: Edge(table, root, pid) ==> pid in found
    requires forall pid, child :: pid in found && Edge(table, pid, child) ==> child in found
    requires |path| >= 2 && path[0] == root && IsPath(table, path)
    ensures path[|path| - 1] in found
    decreases |path|
  {
    var n := |path|;
    assert Edge(table, path[n - 2], path[n - 1]);
    if n > 2 {
      ClosedContains(table, root, found, path[..n - 1]);
    }
  }

  /** What the search knows of the processes it has listed and those still on its stack. */
  ghost predicate SearchInv(table: seq<Row>, root: Pid, listed: seq<Pid>, stack: seq<Pid>) {
    && Distinct(listed + stack)
    && (forall pid <- listed + stack :: Descends(table, root, pid))
    && (forall pid :: Edge(table, root, pid) ==> pid in listed + stack)
    && (forall pid, child :: pid in listed && Edge(table, pid, child) ==> child in listed + stack)
    && (forall pid <- stack :: Edge(table, root, pid) || exists parent <- listed :: Edge(table, parent, pid))
    && ParentsFirst(table, root, listed)
  }

  ghost predicate ParentsFirst(table: seq<Row>, root: Pid, listed: seq<Pid>) {
    forall j :: 0 <= j < |listed| ==>
      Edge(table, root, listed[j]) || exists i :: 0 <= i < j && Edge(table, listed[i], listed[j])
  }

  /** A child of a process just popped is new: were it known already, its parent would be the
      root, and the root its own descendant. */
  lemma ChildIsNew(table: seq<Row>, root: Pid, listed: seq<Pid>, rest: seq<Pid>, pid: Pid, child: Pid)
    requires OneRowPerPid(table) && !Descends(table, root, root)
    requires SearchInv(table, root, listed, rest + [pid]) && Edge(table, pid, child)
    ensures child !in listed + [pid] + rest && Descends(table, root, child)
  {
    assert pid in listed + (rest + [pid]);
    KnownIsDistinct(listed, rest, pid);
    ExtendDescent(table, root, pid, child);
    if child in listed + [pid] + rest {
      assert child in listed + (rest + [pid]);
      KnownHasParent(table, root, listed, rest + [pid], child);
      if Edge(table, root, child) {
        ParentIsUnique(table, child, root, pid);
        assert false;
      } else {
        var parent :| parent in listed && Edge(table, parent, child);
        ParentIsUnique(table, child, parent, pid);
        assert false;
      }
    }
  }

  lemma SearchStep(table: seq<Row>, root: Pid, listed: seq<Pid>, rest: seq<Pid>, pid: Pid)
    requires OneRowPerPid(table) && !Descends(table, root, root)
    requires SearchInv(table, root, listed, rest + [pid])
    ensures SearchInv(table, root, listed + [pid], rest + ChildrenOf(table, pid))
  {
    var children := ChildrenOf(table, pid);
    ChildrenAreEdges(table, pid);
    ChildrenAreDistinct(table, pid);
    var known := listed + [pid] + rest;
    KnownIsDistinct(listed, rest, pid);
    forall child <- children ensures child !in known && Descends(table, root, child) {
      ChildIsNew(table, root, listed, rest, pid, child);
    }
    DistinctAppend(known, children);
    PoppedHasParent(table, root, listed, rest, pid);
    var before := listed + (rest + [pid]);
    var after := (listed + [pid]) + (rest + children);
    assert after == known + children;
    hide Distinct, ParentsFirst, OneRowPerPid, Descends;
    assert forall x :: x in before <==> x in known;
    assert forall x :: x in after <==> x in before || x in children;
    forall x <- rest + children ensures Edge(table, root, x) || exists parent <- listed + [pid] :: Edge(table, parent, x) {
      if x in children {
        assert pid in listed + [pid] && Edge(table, pid, x);
      } else {
        assert x in rest + [pid];
      }
    }
  }

  lemma KnownIsDistinct(listed: seq<Pid>, rest: seq<Pid>, pid: Pid)
    requires Distinct(listed + (rest + [pid]))
    ensures Distinct(listed + [pid] + rest) && pid !in listed && pid !in rest
  {
    DistinctParts(listed, rest + [pid]);
    DistinctParts(rest, [pid]);
    assert pid in rest + [pid];
    assert Distinct([pid]);
    hide Distinct;
    DistinctAppend(listed, [pid]);
    DistinctAppend(listed + [pid], rest);
  }

  lemma DistinctParts(left: seq<Pid>, right: seq<Pid>)
    requires Distinct(left + right)
    ensures Distinct(left) && Distinct(right)
    ensures forall pid <- right :: pid !in left
  {
    var all := left + right;
    assert forall i :: 0 <= i < |left| ==> left[i] == all[i];
    assert forall i :: 0 <= i < |right| ==> right[i] == all[|left| + i];
  }

  lemma KnownHasParent(table: seq<Row>, root: Pid, listed: seq<Pid>, stack: seq<Pid>, pid: Pid)
    requires SearchInv(table, root, listed, stack) && pid in listed + stack
    ensures Edge(table, root, pid) || exists parent <- listed :: Edge(table, parent, pid)
  {
    if pid in listed {
      var j :| 0 <= j < |listed| && listed[j] == pid;
      if !Edge(table, root, pid) {
        var i :| 0 <= i < j && Edge(table, listed[i], listed[j]);
        assert listed[i] in listed;
      }
    }
  }

  lemma PoppedHasParent(table: seq<Row>, root: Pid, listed: seq<Pid>, rest: seq<Pid>, pid: Pid)
    requires SearchInv(table, root, listed, rest + [pid])
    ensures ParentsFirst(table, root, listed + [pid])
  {
    assert pid in rest + [pid];
    var longer := listed + [pid];
    forall j | 0 <= j < |longer|
      ensures Edge(table, root, longer[j]) || exists i :: 0 <= i < j && Edge(table, longer[i], longer[j])
    {
      if j < |listed| {
        if !Edge(table, root, listed[j]) {
          var i :| 0 <= i < j && Edge(table, listed[i], listed[j]);
          assert Edge(table, longer[i], longer[j]);
        }
      } else if !Edge(table, root, pid) {
        var parent :| parent in listed && Edge(table, parent, pid);
        var i :| 0 <= i < |listed| && listed[i] == parent;
        assert Edge(table, longer[i], longer[j]);
      }
    }
  }

  /** The stack search returns each descendant once, every one after its parent. */
  method FindDescendants(table: seq<Row>, root: Pid) returns (descendants: seq<Pid>)
    requires OneRowPerPid(table) && !Descends(table, root, root)
    ensures Distinct(descendants)
    ensures forall pid :: pid in descendants <==> Descends(table, root, pid)
    ensures forall i, j ::
      (0 <= i < |descendants| && 0 <= j < |descendants| && Edge(table, descendants[i], descendants[j])) ==> i < j
    ensures StackAfter(table, root, |descendants|) == []
  {
    hide SearchInv, Descends, OneRowPerPid, Distinct, ParentsFirst, Edge;
    var children := GroupByParent(table);
    descendants := [];
    var stack := Lookup(children, root);
    StartSearch(table, root);
    while stack != []
      invariant SearchInv(table, root, descendants, stack)
      invariant |descendants| <= |Pids(table)|
      invariant stack == StackAfter(table, root, |descendants|)
      decreases |Pids(table)| - |descendants|
    {
      var pid, rest := stack[|stack| - 1], stack[..|stack| - 1];
      assert stack == rest + [pid];
      SearchStep(table, root, descendants, rest, pid);
      descendants := descendants + [pid];
      stack := rest + Lookup(children, pid);
      ListedFit(table, root, descendants, stack);
    }
    FoundAll(table, root, descendants);
    ParentsComeFirst(table, root, descendants);
  }

  lemma StartSearch(table: seq<Row>, root: Pid)
    requires OneRowPerPid(table)
    ensures SearchInv(table, root, [], ChildrenOf(table, root))
  {
    var stack := ChildrenOf(table, root);
    ChildrenAreEdges(table, root);
    ChildrenAreDistinct(table, root);
    assert [] + stack == stack;
    forall pid <- stack ensures Descends(table, root, pid) {
      ExtendDescent(table, root, root, pid);
    }
  }

  lemma ListedFit(table: seq<Row>, root: Pid, listed: seq<Pid>, stack: seq<Pid>)
    requires SearchInv(table, root, listed, stack)
    ensures |listed| <= |Pids(table)|
  {
    forall pid <- listed ensures pid in Pids(table) {
      assert pid in listed + stack;
      var path :| IsPathBetween(table, path, root, pid);
      assert Edge(table, path[|path| - 2], path[|path| - 1]);
    }
    assert forall i :: 0 <= i < |listed| ==> (listed + stack)[i] == listed[i];
    DistinctFits(listed, Pids(table));
  }

  lemma FoundAll(table: seq<Row>, root: Pid, listed: seq<Pid>)
    requires SearchInv(table, root, listed, [])
    ensures forall pid :: pid in listed <==> Descends(table, root, pid)
    ensures Distinct(listed) && ParentsFirst(table, root, listed)
  {
    assert listed + [] == listed;
    forall pid | Descends(table, root, pid) ensures pid in listed {
      var path :| IsPathBetween(table, path, root, pid);
      ClosedContains(table, root, listed, path);
    }
  }

  lemma ParentsComeFirst(table: seq<Row>, root: Pid, listed: seq<Pid>)
    requires OneRowPerPid(table) && !Descends(table, root, root)
    requires Distinct(listed) && ParentsFirst(table, root, listed)
    requires forall pid <- listed :: Descends(table, root, pid)
    ensures forall i, j :: 0 <= i < |listed| && 0 <= j < |listed| && Edge(table, listed[i], listed[j]) ==> i < j
  {
    forall i, j | 0 <= i < |listed| && 0 <= j < |listed| && Edge(table, listed[i], listed[j]) ensures i < j {
      if Edge(table, root, listed[j]) {
        assert listed[i] in listed;
        ParentIsUnique(table, listed[j], listed[i], root);
      } else {
        var k :| 0 <= k < j && Edge(table, listed[k], listed[j]);
        ParentIsUnique(table, listed[j], listed[i], listed[k]);
      }
    }
  }

  // ---------------------------------------------------------------------------
  // Signalling the tree

  datatype Signal = ToGroup(leader: Pid) | ToProcess(pid: Pid)

  method SignalProcessTree(root: Pid, descendants: seq<Pid>) returns (signals: seq<Signal>)
    ensures root <= 0 ==> signals == []
    ensures root > 0 ==>
      && |signals| == |descendants| + 2
      && signals[0] == ToGroup(root) && signals[1] == ToProcess(root)
      && forall i :: 0 <= i < |descendants| ==> signals[|signals| - 1 - i] == ToProcess(descendants[i])
  {
    if root <= 0 {
      return [];
    }
    signals := [ToGroup(root), ToProcess(root)];
    var n := |descendants|;
    while n > 0
      invariant 0 <= n <= |descendants|
      invariant |signals| == 2 + |descendants| - n
      invariant signals[0] == ToGroup(root) && signals[1] == ToProcess(root)
      invariant forall i :: n <= i < |descendants| ==> signals[|descendants| + 1 - i] == ToProcess(descendants[i])
    {
      n := n - 1;
      signals := signals + [ToProcess(descendants[n])];
    }
  }

  /** Every descendant of the root is signalled, and before the descendant it is a child of. */
  method SignalTree(table: seq<Row>, root: Pid) returns (signals: seq<Signal>)
    requires OneRowPerPid(table) && !Descends(table, root, root) && root > 0
    ensures forall pid :: Descends(table, root, pid) ==> ToProcess(pid) in signals
    ensures |signals| >= 2 && signals[0] == ToGroup(root) && signals[1] == ToProcess(root)
    ensures forall i | 2 <= i < |signals| :: signals[i].ToProcess? && Descends(table, root, signals[i].pid)
    ensures forall i, j | 2 <= i < j < |signals| :: signals[i] != signals[j]
    ensures forall i, j | 2 <= i < |signals| && 2 <= j < |signals| && signals[i].ToProcess? && signals[j].ToProcess? ::
      Edge(table, signals[i].pid, signals[j].pid) ==> j < i
  {
    var descendants := FindDescendants(table, root);
    signals := SignalProcessTree(root, descendants);
    forall pid | Descends(table, root, pid) ensures ToProcess(pid) in signals {
      var i :| 0 <= i < |descendants| && descendants[i] == pid;
      assert signals[|signals| - 1 - i] == ToProcess(pid);
    }
    forall i | 2 <= i < |signals|
      ensures signals[i] == ToProcess(descendants[|signals| - 1 - i]) && Descends(table, root, signals[i].pid)
    {
      var k := |signals| - 1 - i;
      assert signals[|signals| - 1 - k] == ToProcess(descendants[k]);
      assert descendants[k] in descendants;
    }
    forall i, j | 2 <= i < |signals| && 2 <= j < |signals| && signals[i].ToProcess? && signals[j].ToProcess?
        && Edge(table, signals[i].pid, signals[j].pid)
      ensures j < i
    {
      var k, l := |signals| - 1 - i, |signals| - 1 - j;
      assert signals[|signals| - 1 - k] == ToProcess(descendants[k]);
      assert signals[|signals| - 1 - l] == ToProcess(descendants[l]);
    }
  }

  // ---------------------------------------------------------------------------
  // Without the assumption on the root

  /** The stack after `n` rounds of the search, as long as there is something on it. */
  function StackAfter(table: seq<Row>, root: Pid, n: nat): seq<Pid> {
    if n == 0 then ChildrenOf(table, root)
    else
      var stack := StackAfter(table, root, n - 1);
      if stack == [] then [] else stack[..|stack| - 1] + ChildrenOf(table, stack[|stack| - 1])
  }

  ghost predicate LeadsTo(table: seq<Row>, pid: Pid, target: Pid) {
    pid == target || Descends(table, pid, target)
  }

  lemma DescentHasFirstStep(table: seq<Row>, pid: Pid, target: Pid) returns (child: Pid)
    requires Descends(table, pid, target)
    ensures Edge(table, pid, child) && LeadsTo(table, child, target)
  {
    var path :| IsPathBetween(table, path, pid, target);
    child := path[1];
    assert Edge(table, path[0], path[1]);
    if |path| > 2 {
      assert IsPathBetween(table, path[1..], child, target);
    }
  }

  /** If the root is its own descendant, the search never ends: something on the stack always leads
      back to the root. So the search ends only where FindDescendants promises it. */
  lemma {:induction false} CycleThroughRootNeverEnds(table: seq<Row>, root: Pid, n: nat)
    requires Descends(table, root, root)
    ensures exists pid :: pid in StackAfter(table, root, n) && LeadsTo(table, pid, root)
  {
    if n == 0 {
      var child := DescentHasFirstStep(table, root, root);
      ChildrenAreEdges(table, root);
      assert child in StackAfter(table, root, 0);
    } else {
      CycleThroughRootNeverEnds(table, root, n - 1);
      var stack := StackAfter(table, root, n - 1);
      var pid :| pid in stack && LeadsTo(table, pid, root);
      var last := stack[|stack| - 1];
      var next := StackAfter(table, root, n);
      assert next == stack[..|stack| - 1] + ChildrenOf(table, last);
      if pid == last {
        var child := DescentHasFirstStep(table, if pid == root then root else pid, root);
        ChildrenAreEdges(table, last);
        assert child in next;
      } else {
        var i :| 0 <= i < |stack| && stack[i] == pid;
        assert next[i] == pid;
      }
    }
  }
}
