/** JobLayout: turns the legacy server's levelled job graph into the flat job
    order the migration executes, plus an informational list of "parallel
    groups", each a fixed-width array of stacks of jobs. */
module JobLayout {
  import opened Wrappers

  /** A vertex of the levelled graph: the job it carries, the number of rows
      it spans, and whether it rejoins parallel branches. */
  datatype Vertex<T> = Vertex(data: T, height: int, joining: bool)

  /** A stack of a parallel group; None is a padding slot reserved by a job
      spanning several rows. */
  type Stack<T> = seq<Option<T>>

  /** A parallel group: an array of stacks whose length (the width) is fixed
      when the group is opened. */
  datatype ParallelGroup<T> = ParallelGroup(stacks: seq<Stack<T>>)

  /** The two outputs: the groups (getLayout) and the flat job order
      (getAllJobs), which is the only order used for execution. */
  datatype Layout<T> = Layout(groups: seq<ParallelGroup<T>>, allJobs: seq<T>)

  /*************************************************************************
   * ParallelGroup
   *************************************************************************/

  /** A group of the given width whose stacks are all empty. */
  function NewGroup<T>(numVerts: nat): (g: ParallelGroup<T>)
    ensures |g.stacks| == numVerts
    ensures forall i :: 0 <= i < numVerts ==> g.stacks[i] == []
  {
    ParallelGroup(seq(numVerts, _ => []))
  }

  /** The padding a vertex of the given height reserves below its entry: one
      empty slot for each row after the first. */
  function Padding<T>(height: int): (p: Stack<T>)
    ensures |p| == (if height > 1 then height - 1 else 0)
    ensures forall i :: 0 <= i < |p| ==> p[i] == None
  {
    seq(if height > 1 then height - 1 else 0, _ => None)
  }

  /** What a push appends to the chosen stack: the job, then its padding. */
  function Entry<T>(v: Vertex<T>): (e: Stack<T>)
    ensures |e| == (if v.height > 1 then v.height else 1)
    ensures e[0] == Some(v.data)
    ensures forall i :: 0 < i < |e| ==> e[i] == None
  {
    [Some(v.data)] + Padding(v.height)
  }

  /** The stop condition of push's scan: index 0, or a stack whose left
      neighbour is strictly longer. */
  predicate IsTarget<T>(stacks: seq<Stack<T>>, i: nat)
    requires i < |stacks|
  {
    i == 0 || |stacks[i - 1]| > |stacks[i]|
  }

  /** push's right-to-left scan, started at index i. */
  function ScanFrom<T>(stacks: seq<Stack<T>>, i: nat): (k: nat)
    requires i < |stacks|
    ensures k <= i
    ensures IsTarget(stacks, k)
    ensures forall j :: k < j <= i ==> !IsTarget(stacks, j)
    decreases i
  {
    if i == 0 || |stacks[i - 1]| > |stacks[i]| then i else ScanFrom(stacks, i - 1)
  }

  /** The stack push chooses in a group of positive width: the largest index
      satisfying the stop condition. */
  function Target<T>(g: ParallelGroup<T>): (k: nat)
    requires |g.stacks| > 0
    ensures k < |g.stacks|
    ensures IsTarget(g.stacks, k)
    ensures forall j :: k < j < |g.stacks| ==> !IsTarget(g.stacks, j)
  {
    ScanFrom(g.stacks, |g.stacks| - 1)
  }

  /** ParallelGroup.push. In a group of width 0 the loop never runs and the
      vertex is dropped; otherwise the chosen stack gains the job followed by
      height - 1 padding slots and every other stack is left alone. */
  function Push<T>(g: ParallelGroup<T>, v: Vertex<T>): (r: ParallelGroup<T>)
    ensures |r.stacks| == |g.stacks|
    ensures |g.stacks| == 0 ==> r == g
    ensures |g.stacks| > 0 ==>
              var k := Target(g);
              && |r.stacks[k]| == |g.stacks[k]| + (if v.height > 1 then v.height else 1)
              && r.stacks[k][..|g.stacks[k]|] == g.stacks[k]
              && r.stacks[k][|g.stacks[k]|] == Some(v.data)
              && (forall i :: |g.stacks[k]| < i < |r.stacks[k]| ==> r.stacks[k][i] == None)
              && (forall j :: 0 <= j < |g.stacks| && j != k ==> r.stacks[j] == g.stacks[j])
  {
    if |g.stacks| == 0 then g
    else
      var k := Target(g);
      var s := g.stacks[k] + Entry(v);
      assert s[..|g.stacks[k]|] == g.stacks[k];
      ParallelGroup(g.stacks[k := s])
  }

  /** Pushes the vertices of one depth in order. */
  function PushAll<T>(g: ParallelGroup<T>, verts: seq<Vertex<T>>): (r: ParallelGroup<T>)
    ensures |r.stacks| == |g.stacks|
    decreases |verts|
  {
    if |verts| == 0 then g
    else Push(PushAll(g, verts[..|verts| - 1]), verts[|verts| - 1])
  }

  /*************************************************************************
   * The JobLayout constructor
   *************************************************************************/

  /** The jobs of one depth, in the order getVerticesAtDepth lists them. */
  function Datas<T>(verts: seq<Vertex<T>>): (r: seq<T>)
    ensures |r| == |verts|
    ensures forall i :: 0 <= i < |verts| ==> r[i] == verts[i].data
  {
    seq(|verts|, i requires 0 <= i < |verts| => verts[i].data)
  }

  /** The constructor's loop state: groups already added to the layout, the
      currently open group (null before the first depth), the job list. */
  datatype Builder<T> = Builder(closed: seq<ParallelGroup<T>>,
                                current: Option<ParallelGroup<T>>,
                                jobs: seq<T>)

  /** The open group, if any, as the list that gets added to the layout. */
  function Flush<T>(current: Option<ParallelGroup<T>>): seq<ParallelGroup<T>>
  {
    if current.Some? then [current.value] else []
  }

  /** A depth opens a new group when none is open yet or when its first
      vertex is a joining one. */
  predicate OpensGroup<T>(current: Option<ParallelGroup<T>>, verts: seq<Vertex<T>>)
  {
    current.None? || (|verts| > 0 && verts[0].joining)
  }

  /** One iteration of the depth loop. */
  function Visit<T>(b: Builder<T>, verts: seq<Vertex<T>>): Builder<T>
  {
    if OpensGroup(b.current, verts) then
      Builder(b.closed + Flush(b.current),
              Some(PushAll(NewGroup(|verts|), verts)),
              b.jobs + Datas(verts))
    else
      Builder(b.closed, Some(PushAll(b.current.value, verts)), b.jobs + Datas(verts))
  }

  /** The depth loop over depths 1 .. |levels|, where levels[d - 1] holds the
      vertices at depth d. */
  function Scan<T>(levels: seq<seq<Vertex<T>>>): Builder<T>
    decreases |levels|
  {
    if |levels| == 0 then Builder([], None, [])
    else Visit(Scan(levels[..|levels| - 1]), levels[|levels| - 1])
  }

  /** new JobLayout(def): a null definition gives no jobs and no groups;
      otherwise the depth loop runs and the last open group is added. */
  function Build<T>(def: Option<seq<seq<Vertex<T>>>>): (r: Layout<T>)
    ensures def.None? ==> r.groups == [] && r.allJobs == []
  {
    if def.None? then Layout([], [])
    else
      var b := Scan(def.value);
      Layout(b.closed + Flush(b.current), b.jobs)
  }

  /*************************************************************************
   * Reference definitions
   *************************************************************************/

  /** The jobs of all depths, depth after depth. */
  function AllData<T>(levels: seq<seq<Vertex<T>>>): seq<T>
    decreases |levels|
  {
    if |levels| == 0 then [] else Datas(levels[0]) + AllData(levels[1..])
  }

  /** The number of vertices in the graph. */
  function VertexCount<T>(levels: seq<seq<Vertex<T>>>): nat
    decreases |levels|
  {
    if |levels| == 0 then 0 else |levels[0]| + VertexCount(levels[1..])
  }

  /** Depth index d (depth d + 1) opens a group: the first depth always
      does, a later one when its first vertex joins. */
  predicate IsOpening<T>(levels: seq<seq<Vertex<T>>>, d: nat)
    requires d < |levels|
  {
    d == 0 || (|levels[d]| > 0 && levels[d][0].joining)
  }

  /** The opening depth indices, collected depth by depth. */
  function Openings<T>(levels: seq<seq<Vertex<T>>>): (ds: seq<nat>)
    ensures forall i :: 0 <= i < |ds| ==> ds[i] < |levels|
    ensures |levels| > 0 ==> |ds| > 0
    decreases |levels|
  {
    if |levels| == 0 then []
    else
      var n := |levels| - 1;
      Openings(levels[..n]) + (if IsOpening(levels, n) then [n] else [])
  }

  /** Openings lists exactly the opening depth indices, in increasing order,
      starting with depth index 0 when the graph is not empty. */
  lemma {:induction false} OpeningsCharacterized<T>(levels: seq<seq<Vertex<T>>>)
    ensures var ds := Openings(levels);
            && (forall d: nat :: d in ds <==> d < |levels| && IsOpening(levels, d))
            && (forall i, j :: 0 <= i < j < |ds| ==> ds[i] < ds[j])
            && (|levels| > 0 ==> ds[0] == 0)
    decreases |levels|
  {
    if |levels| > 0 {
      var n := |levels| - 1;
      var front := levels[..n];
      OpeningsCharacterized(front);
      assert forall d: nat :: d < n ==> front[d] == levels[d];
      assert forall d: nat :: d < n ==> (IsOpening(front, d) <==> IsOpening(levels, d));
    }
  }

  /** The jobs held in a stack, padding dropped. */
  function Reals<T>(s: Stack<T>): seq<T>
    decreases |s|
  {
    if |s| == 0 then []
    else (if s[0].Some? then [s[0].value] else []) + Reals(s[1..])
  }

  /** The jobs held in a list of stacks, stack after stack. */
  function StackJobs<T>(stacks: seq<Stack<T>>): seq<T>
    decreases |stacks|
  {
    if |stacks| == 0 then [] else Reals(stacks[0]) + StackJobs(stacks[1..])
  }

  /** The jobs held in a list of groups, group after group. */
  function GroupJobs<T>(groups: seq<ParallelGroup<T>>): seq<T>
    decreases |groups|
  {
    if |groups| == 0 then [] else StackJobs(groups[0].stacks) + GroupJobs(groups[1..])
  }

  /*************************************************************************
   * The flat job order
   *************************************************************************/

  lemma {:induction false} AllDataSnoc<T>(levels: seq<seq<Vertex<T>>>, last: seq<Vertex<T>>)
    ensures AllData(levels + [last]) == AllData(levels) + Datas(last)
    decreases |levels|
  {
    if |levels| == 0 {
      assert AllData([last]) == Datas(last) + AllData([last][1..]);
    } else {
      assert (levels + [last])[1..] == levels[1..] + [last];
      AllDataSnoc(levels[1..], last);
    }
  }

  lemma {:induction false} ScanJobs<T>(levels: seq<seq<Vertex<T>>>)
    ensures Scan(levels).jobs == AllData(levels)
    decreases |levels|
  {
    if |levels| > 0 {
      var n := |levels| - 1;
      ScanJobs(levels[..n]);
      AllDataSnoc(levels[..n], levels[n]);
      assert levels[..n] + [levels[n]] == levels;
    }
  }

  lemma {:induction false} AllDataLength<T>(levels: seq<seq<Vertex<T>>>)
    ensures |AllData(levels)| == VertexCount(levels)
    decreases |levels|
  {
    if |levels| > 0 {
      AllDataLength(levels[1..]);
    }
  }

  lemma {:induction false} AllDataMembers<T>(levels: seq<seq<Vertex<T>>>, x: T)
    ensures x in AllData(levels) <==>
              exists d, i :: 0 <= d < |levels| && 0 <= i < |levels[d]| && levels[d][i].data == x
    decreases |levels|
  {
    if |levels| > 0 {
      AllDataMembers(levels[1..], x);
      if x in AllData(levels) {
        if x in Datas(levels[0]) {
          var i :| 0 <= i < |levels[0]| && Datas(levels[0])[i] == x;
          assert levels[0][i].data == x;
        } else {
          assert x in AllData(levels[1..]);
          var d, i :| 0 <= d < |levels[1..]| && 0 <= i < |levels[1..][d]| && levels[1..][d][i].data == x;
          assert levels[d + 1][i].data == x;
        }
      }
      if exists d, i :: 0 <= d < |levels| && 0 <= i < |levels[d]| && levels[d][i].data == x {
        var d, i :| 0 <= d < |levels| && 0 <= i < |levels[d]| && levels[d][i].data == x;
        if d == 0 {
          assert Datas(levels[0])[i] == x;
        } else {
          assert levels[1..][d - 1][i].data == x;
        }
      }
    }
  }

  /** getAllJobs lists every vertex's job exactly once, depth after depth,
      each depth in its own order; it has one entry per vertex, including
      the vertices a push drops. A null definition lists none. */
  lemma AllJobsInDepthOrder<T>(levels: seq<seq<Vertex<T>>>)
    ensures Build(Some(levels)).allJobs == AllData(levels)
    ensures |Build(Some(levels)).allJobs| == VertexCount(levels)
    ensures forall x :: x in Build(Some(levels)).allJobs <==>
              exists d, i :: 0 <= d < |levels| && 0 <= i < |levels[d]| && levels[d][i].data == x
  {
    ScanJobs(levels);
    AllDataLength(levels);
    forall x
      ensures x in Build(Some(levels)).allJobs <==>
                exists d, i :: 0 <= d < |levels| && 0 <= i < |levels[d]| && levels[d][i].data == x
    {
      AllDataMembers(levels, x);
    }
  }

  /*************************************************************************
   * Groups
   *************************************************************************/

  /** The loop state after the depth loop: a group is open iff some depth
      was visited; the groups opened so far are exactly one per opening
      depth, each as wide as the depth that opened it. */
  ghost predicate GroupsMatch<T>(b: Builder<T>, levels: seq<seq<Vertex<T>>>)
  {
    var ds := Openings(levels);
    && (b.current.Some? <==> |levels| > 0)
    && |b.closed| + |Flush(b.current)| == |ds|
    && (forall k :: 0 <= k < |b.closed| ==> |b.closed[k].stacks| == |levels[ds[k]]|)
    && (b.current.Some? ==> |b.current.value.stacks| == |levels[ds[|ds| - 1]]|)
  }

  lemma VisitKeepsGroupsMatch<T>(b0: Builder<T>, front: seq<seq<Vertex<T>>>, verts: seq<Vertex<T>>)
    requires GroupsMatch(b0, front)
    ensures GroupsMatch(Visit(b0, verts), front + [verts])
  {
    var levels := front + [verts];
    var n := |front|;
    assert levels[..n] == front;
    var ds0 := Openings(front);
    var ds := Openings(levels);
    var b := Visit(b0, verts);
    assert ds == ds0 + (if IsOpening(levels, n) then [n] else []);
    assert forall k :: 0 <= k < |ds0| ==> levels[ds0[k]] == front[ds0[k]];
    if n == 0 {
      assert ds == [0];
      assert b.closed == [];
    } else if IsOpening(levels, n) {
      assert OpensGroup(b0.current, verts);
      assert b.closed == b0.closed + [b0.current.value];
      assert |b.current.value.stacks| == |verts|;
      assert ds[|ds| - 1] == n;
    } else {
      assert !OpensGroup(b0.current, verts);
      assert b.closed == b0.closed;
      assert ds == ds0;
    }
  }

  /** The loop state after the depth loop: a group is open iff some depth
      was visited; the groups opened so far are exactly one per opening
      depth, each as wide as the depth that opened it. */
  lemma {:induction false} ScanGroups<T>(levels: seq<seq<Vertex<T>>>)
    ensures GroupsMatch(Scan(levels), levels)
    decreases |levels|
  {
    if |levels| > 0 {
      var n := |levels| - 1;
      ScanGroups(levels[..n]);
      VisitKeepsGroupsMatch(Scan(levels[..n]), levels[..n], levels[n]);
      assert levels[..n] + [levels[n]] == levels;
    }
  }

  /** One group per opening depth: zero groups for an empty graph, and
      otherwise one for depth 1 plus one per later depth whose first vertex
      joins; each group is exactly as wide as the depth that opened it. */
  lemma GroupsFollowOpenings<T>(levels: seq<seq<Vertex<T>>>)
    ensures var groups := Build(Some(levels)).groups;
            var ds := Openings(levels);
            && |groups| == |ds|
            && (|levels| == 0 <==> |groups| == 0)
            && (forall k :: 0 <= k < |groups| ==> |groups[k].stacks| == |levels[ds[k]]|)
  {
    ScanGroups(levels);
    var b := Scan(levels);
    var ds := Openings(levels);
    var groups := Build(Some(levels)).groups;
    assert groups == b.closed + Flush(b.current);
    if b.current.Some? {
      assert groups[|groups| - 1] == b.current.value;
    }
  }

  /*************************************************************************
   * Contents of the groups
   *************************************************************************/

  lemma {:induction false} RealsAppend<T>(a: Stack<T>, b: Stack<T>)
    ensures Reals(a + b) == Reals(a) + Reals(b)
    decreases |a|
  {
    if |a| == 0 {
      assert a + b == b;
    } else {
      var head: seq<T> := if a[0].Some? then [a[0].value] else [];
      assert (a + b)[0] == a[0];
      assert (a + b)[1..] == a[1..] + b;
      RealsAppend(a[1..], b);
      calc {
        Reals(a + b);
        head + Reals(a[1..] + b);
        head + (Reals(a[1..]) + Reals(b));
        (head + Reals(a[1..])) + Reals(b);
      }
    }
  }

  lemma {:induction false} RealsOfPadding<T>(p: Stack<T>)
    requires forall i :: 0 <= i < |p| ==> p[i] == None
    ensures Reals(p) == []
    decreases |p|
  {
    if |p| > 0 {
      RealsOfPadding(p[1..]);
    }
  }

  lemma RealsOfEntry<T>(v: Vertex<T>)
    ensures Reals(Entry(v)) == [v.data]
  {
    var e := Entry(v);
    RealsOfPadding(e[1..]);
  }

  lemma {:induction false} StackJobsUpdate<T>(stacks: seq<Stack<T>>, k: nat, e: Stack<T>)
    requires k < |stacks|
    ensures multiset(StackJobs(stacks[k := stacks[k] + e]))
            == multiset(StackJobs(stacks)) + multiset(Reals(e))
    decreases |stacks|
  {
    var u := stacks[k := stacks[k] + e];
    if k == 0 {
      assert u[1..] == stacks[1..];
      RealsAppend(stacks[0], e);
    } else {
      assert u[1..] == stacks[1..][k - 1 := stacks[k] + e];
      StackJobsUpdate(stacks[1..], k - 1, e);
    }
  }

  /** A push into a group of positive width adds exactly the pushed job to
      the group's contents. */
  lemma PushAddsJob<T>(g: ParallelGroup<T>, v: Vertex<T>)
    requires |g.stacks| > 0
    ensures multiset(StackJobs(Push(g, v).stacks))
            == multiset(StackJobs(g.stacks)) + multiset{v.data}
  {
    StackJobsUpdate(g.stacks, Target(g), Entry(v));
    RealsOfEntry(v);
  }

  lemma DatasSnoc<T>(verts: seq<Vertex<T>>)
    requires |verts| > 0
    ensures Datas(verts) == Datas(verts[..|verts| - 1]) + [verts[|verts| - 1].data]
  {
  }

  lemma {:induction false} PushAllAddsJobs<T>(g: ParallelGroup<T>, verts: seq<Vertex<T>>)
    requires |g.stacks| > 0
    ensures multiset(StackJobs(PushAll(g, verts).stacks))
            == multiset(StackJobs(g.stacks)) + multiset(Datas(verts))
    decreases |verts|
  {
    if |verts| == 0 {
      assert Datas(verts) == [];
    } else {
      var n := |verts| - 1;
      var g0 := PushAll(g, verts[..n]);
      assert PushAll(g, verts) == Push(g0, verts[n]);
      PushAllAddsJobs(g, verts[..n]);
      PushAddsJob(g0, verts[n]);
      DatasSnoc(verts);
      assert multiset(Datas(verts)) == multiset(Datas(verts[..n])) + multiset{verts[n].data};
    }
  }

  /** Pushes only append: after a depth is pushed every stack still starts
      with what it held. */
  lemma {:induction false} PushAllKeepsStacks<T>(g: ParallelGroup<T>, verts: seq<Vertex<T>>, j: nat)
    requires j < |g.stacks|
    ensures |g.stacks[j]| <= |PushAll(g, verts).stacks[j]|
    ensures PushAll(g, verts).stacks[j][..|g.stacks[j]|] == g.stacks[j]
    decreases |verts|
  {
    if |verts| > 0 {
      var n := |verts| - 1;
      PushAllKeepsStacks(g, verts[..n], j);
      var h := PushAll(g, verts[..n]);
      var r := Push(h, verts[n]);
      assert PushAll(g, verts) == r;
      assert r.stacks[j][..|h.stacks[j]|] == h.stacks[j];
      assert r.stacks[j][..|g.stacks[j]|] == h.stacks[j][..|g.stacks[j]|];
    }
  }

  lemma {:induction false} GroupJobsAppend<T>(a: seq<ParallelGroup<T>>, b: seq<ParallelGroup<T>>)
    ensures GroupJobs(a + b) == GroupJobs(a) + GroupJobs(b)
    decreases |a|
  {
    if |a| == 0 {
      assert a + b == b;
    } else {
      assert (a + b)[1..] == a[1..] + b;
      GroupJobsAppend(a[1..], b);
    }
  }

  lemma {:induction false} StackJobsOfEmpty<T>(stacks: seq<Stack<T>>)
    requires forall i :: 0 <= i < |stacks| ==> stacks[i] == []
    ensures StackJobs(stacks) == []
    decreases |stacks|
  {
    if |stacks| > 0 {
      StackJobsOfEmpty(stacks[1..]);
    }
  }

  lemma GroupJobsSnoc<T>(closed: seq<ParallelGroup<T>>, g: ParallelGroup<T>)
    ensures multiset(GroupJobs(closed + [g]))
            == multiset(GroupJobs(closed)) + multiset(StackJobs(g.stacks))
  {
    GroupJobsAppend(closed, [g]);
    assert GroupJobs([g]) == StackJobs(g.stacks) + GroupJobs([g][1..]);
    assert [g][1..] == [];
  }

  /** The loop state keeps every group of positive width and holds in its
      groups exactly the jobs it has listed. */
  ghost predicate ContentsMatch<T>(b: Builder<T>)
  {
    && b.current.Some?
    && |b.current.value.stacks| > 0
    && multiset(GroupJobs(b.closed + [b.current.value])) == multiset(b.jobs)
  }

  lemma FreshGroupContents<T>(verts: seq<Vertex<T>>)
    requires |verts| > 0
    ensures multiset(StackJobs(PushAll(NewGroup(|verts|), verts).stacks)) == multiset(Datas(verts))
  {
    var g := NewGroup<T>(|verts|);
    StackJobsOfEmpty(g.stacks);
    PushAllAddsJobs(g, verts);
  }

  lemma VisitKeepsContentsMatch<T>(b0: Builder<T>, verts: seq<Vertex<T>>)
    requires b0 == Builder([], None, []) || ContentsMatch(b0)
    requires OpensGroup(b0.current, verts) ==> |verts| > 0
    ensures ContentsMatch(Visit(b0, verts))
  {
    var b := Visit(b0, verts);
    if OpensGroup(b0.current, verts) {
      var g := PushAll(NewGroup<T>(|verts|), verts);
      FreshGroupContents(verts);
      assert b.current.value == g;
      assert b.closed == b0.closed + Flush(b0.current);
      GroupJobsSnoc(b.closed, g);
      if b0.current.None? {
        assert b.closed == [];
        assert GroupJobs<T>([]) == [];
      }
    } else {
      var cur := b0.current.value;
      PushAllAddsJobs(cur, verts);
      GroupJobsSnoc(b0.closed, cur);
      GroupJobsSnoc(b0.closed, PushAll(cur, verts));
    }
  }

  /** While the first depth is non-empty, every group has positive width and
      the groups hold exactly the jobs listed so far. */
  lemma {:induction false} ScanContents<T>(levels: seq<seq<Vertex<T>>>)
    requires |levels| > 0 && |levels[0]| > 0
    ensures ContentsMatch(Scan(levels))
    decreases |levels|
  {
    var n := |levels| - 1;
    var front := levels[..n];
    if n == 0 {
      VisitKeepsContentsMatch(Scan(front), levels[n]);
    } else {
      ScanContents(front);
      VisitKeepsContentsMatch(Scan(front), levels[n]);
    }
  }

  /** When the first depth has at least one vertex, every job of the graph
      sits in exactly one real slot of the groups: the groups' contents and
      the flat order are the same multiset. (An empty first depth opens a
      group of width 0; see DropInWidthZeroGroup.) */
  lemma GroupsHoldEveryJob<T>(levels: seq<seq<Vertex<T>>>)
    requires |levels| > 0 && |levels[0]| > 0
    ensures var r := Build(Some(levels));
            multiset(GroupJobs(r.groups)) == multiset(r.allJobs)
    ensures |GroupJobs(Build(Some(levels)).groups)| == VertexCount(levels)
  {
    ScanContents(levels);
    AllJobsInDepthOrder(levels);
    var r := Build(Some(levels));
    assert |GroupJobs(r.groups)| == |multiset(GroupJobs(r.groups))|;
  }

  /** A graph whose first depth is empty opens a group of width 0, and
      every later push into it is dropped: the job is listed for execution
      but appears in no stack. */
  lemma DropInWidthZeroGroup<T>(v: Vertex<T>)
    requires !v.joining
    ensures var r := Build(Some([[], [v]]));
            && r.groups == [ParallelGroup([])]
            && r.allJobs == [v.data]
            && GroupJobs(r.groups) == []
  {
    var levels: seq<seq<Vertex<T>>> := [[], [v]];
    assert levels[..1] == [[]];
    assert levels[..1][..0] == [];
    assert [v][..0] == [];
    var g := NewGroup<T>(0);
    assert g == ParallelGroup([]);
    assert Scan(levels[..1]) == Builder([], Some(g), []);
    assert GroupJobs([g]) == StackJobs(g.stacks) + GroupJobs([]);
  }

  /** The slots one-row vertices fill: each vertex's job, in order. */
  function Slots<T>(verts: seq<Vertex<T>>): Stack<T>
  {
    seq(|verts|, (i: int) requires 0 <= i < |verts| => Some(verts[i].data))
  }

  /** In a group of width 1 every push lands on the one stack, so one-row
      vertices are stacked there in order, however many there are. */
  lemma {:induction false} SingleStackAppends<T>(g: ParallelGroup<T>, verts: seq<Vertex<T>>)
    requires |g.stacks| == 1
    requires forall i :: 0 <= i < |verts| ==> verts[i].height <= 1
    ensures PushAll(g, verts).stacks == [g.stacks[0] + Slots(verts)]
    decreases |verts|
  {
    if |verts| == 0 {
      assert g.stacks[0] + Slots(verts) == g.stacks[0];
      assert g.stacks == [g.stacks[0]];
    } else {
      var m := |verts| - 1;
      SingleStackAppends(g, verts[..m]);
      var h := PushAll(g, verts[..m]);
      assert h.stacks[0] == g.stacks[0] + Slots(verts[..m]);
      assert Target(h) == 0;
      assert Slots(verts) == Slots(verts[..m]) + [Some(verts[m].data)];
      var r := Push(h, verts[m]);
      assert PushAll(g, verts) == r;
      assert r.stacks[0] == h.stacks[0] + [Some(verts[m].data)];
      assert r.stacks[0] == g.stacks[0] + Slots(verts);
      assert r.stacks == [r.stacks[0]];
    }
  }

  /*************************************************************************
   * Balance when every vertex spans one row
   *************************************************************************/

  /** Stack lengths never increase from left to right. */
  predicate NonIncreasing<T>(stacks: seq<Stack<T>>)
  {
    forall i, j :: 0 <= i < j < |stacks| ==> |stacks[i]| >= |stacks[j]|
  }

  lemma {:induction false} ScanStopsAtStep<T>(stacks: seq<Stack<T>>, i: nat)
    requires i < |stacks|
    requires NonIncreasing(stacks)
    ensures forall j :: ScanFrom(stacks, i) <= j <= i ==> |stacks[j]| == |stacks[i]|
    decreases i
  {
    if !(i == 0 || |stacks[i - 1]| > |stacks[i]|) {
      ScanStopsAtStep(stacks, i - 1);
    }
  }

  /** With non-increasing stack lengths, push picks the leftmost of the
      shortest stacks, which is the "most empty stack" push promises. */
  lemma PushPicksLeftmostShortest<T>(g: ParallelGroup<T>)
    requires |g.stacks| > 0
    requires NonIncreasing(g.stacks)
    ensures var k := Target(g);
            && (forall j :: 0 <= j < |g.stacks| ==> |g.stacks[k]| <= |g.stacks[j]|)
            && (forall j :: 0 <= j < k ==> |g.stacks[j]| > |g.stacks[k]|)
  {
    ScanStopsAtStep(g.stacks, |g.stacks| - 1);
  }

  /** Pushing a one-row vertex keeps the lengths non-increasing. */
  lemma PushKeepsBalance<T>(g: ParallelGroup<T>, v: Vertex<T>)
    requires NonIncreasing(g.stacks)
    requires v.height <= 1
    ensures NonIncreasing(Push(g, v).stacks)
  {
    if |g.stacks| > 0 {
      PushPicksLeftmostShortest(g);
    }
  }

  /** Width n stacks holding the j-th of the vertices alone on stack j and
      nothing on the stacks past them. */
  function Filled<T>(n: nat, verts: seq<Vertex<T>>): seq<Stack<T>>
  {
    seq(n, (j: int) => if 0 <= j < |verts| then [Some(verts[j].data)] else [])
  }

  /** Stacks that are level except that the first m are one slot longer:
      the state a group of one-row vertices is in, m being the stack the
      next push goes to. */
  predicate Leveled<T>(stacks: seq<Stack<T>>, m: nat)
  {
    && m < |stacks|
    && forall j :: 0 <= j < |stacks| ==>
         |stacks[j]| == |stacks[|stacks| - 1]| + (if j < m then 1 else 0)
  }

  /** In leveled stacks the scan from any index at or past m stops at m. */
  lemma {:induction false} ScanFindsCursor<T>(stacks: seq<Stack<T>>, m: nat, i: nat)
    requires Leveled(stacks, m)
    requires m <= i < |stacks|
    ensures ScanFrom(stacks, i) == m
    decreases i
  {
    if i > m {
      ScanFindsCursor(stacks, m, i - 1);
    }
  }

  /** k <= n one-row vertices pushed into a fresh group of width n land one
      per stack, the j-th vertex alone on stack j. */
  lemma {:induction false} FreshGroupFillsLeftToRight<T>(n: nat, verts: seq<Vertex<T>>)
    requires |verts| <= n
    requires forall i :: 0 <= i < |verts| ==> verts[i].height <= 1
    ensures PushAll(NewGroup(n), verts).stacks == Filled(n, verts)
    decreases |verts|
  {
    if |verts| > 0 {
      var m := |verts| - 1;
      var before := verts[..m];
      FreshGroupFillsLeftToRight(n, before);
      var g := PushAll(NewGroup<T>(n), before);
      assert g.stacks == Filled(n, before);
      ScanFindsCursor(g.stacks, m, n - 1);
      var r := Push(g, verts[m]);
      assert PushAll(NewGroup<T>(n), verts) == r;
      assert r.stacks[m] == [Some(verts[m].data)];
      forall j | 0 <= j < n
        ensures r.stacks[j] == Filled(n, verts)[j]
      {
        if j < m {
          assert before[j] == verts[j];
        }
      }
    }
  }

  /** A graph of a single depth of one-row vertices yields one group with a
      stack per vertex, each holding just that vertex's job. */
  lemma SingleDepthLayout<T>(verts: seq<Vertex<T>>)
    requires forall i :: 0 <= i < |verts| ==> verts[i].height <= 1
    ensures Build(Some([verts]))
            == Layout([ParallelGroup(Filled(|verts|, verts))], Datas(verts))
  {
    var levels := [verts];
    assert levels[..0] == [];
    FreshGroupFillsLeftToRight(|verts|, verts);
    var g := PushAll(NewGroup<T>(|verts|), verts);
    assert Scan(levels) == Builder([], Some(g), [] + Datas(verts));
  }

  /*************************************************************************
   * Round-robin placement of one-row vertices
   *************************************************************************/

  /** The stack after m in a group of width n, wrapping to stack 0. */
  function Next(m: nat, n: nat): (r: nat)
    requires m < n
    ensures r < n
  {
    if m + 1 == n then 0 else m + 1
  }

  /** The stack reached from m after k wrapping steps. */
  function Cursor(n: nat, m: nat, k: nat): (c: nat)
    requires m < n
    ensures c < n
    decreases k
  {
    if k == 0 then m else Cursor(n, Next(m, n), k - 1)
  }

  /** Reference placement: the vertices dealt in order like cards, one per
      stack, starting at stack m and wrapping from the last stack to the
      first. */
  function Deal<T>(stacks: seq<Stack<T>>, m: nat, verts: seq<Vertex<T>>): (r: seq<Stack<T>>)
    requires m < |stacks|
    ensures |r| == |stacks|
    decreases |verts|
  {
    if |verts| == 0 then stacks
    else Deal(stacks[m := stacks[m] + [Some(verts[0].data)]], Next(m, |stacks|), verts[1..])
  }

  lemma {:induction false} CursorStep(n: nat, m: nat, k: nat)
    requires m < n
    ensures Cursor(n, m, k + 1) == Next(Cursor(n, m, k), n)
    decreases k
  {
    if k > 0 {
      CursorStep(n, Next(m, n), k - 1);
    }
  }

  /** Dealing one more vertex puts it on the stack the cursor has reached. */
  lemma {:induction false} DealSnoc<T>(stacks: seq<Stack<T>>, m: nat, pre: seq<Vertex<T>>, v: Vertex<T>)
    requires m < |stacks|
    ensures Deal(stacks, m, pre + [v])
            == var d := Deal(stacks, m, pre);
               var c := Cursor(|stacks|, m, |pre|);
               d[c := d[c] + [Some(v.data)]]
    decreases |pre|
  {
    if |pre| == 0 {
      assert (pre + [v])[1..] == [];
    } else {
      assert (pre + [v])[1..] == pre[1..] + [v];
      DealSnoc(stacks[m := stacks[m] + [Some(pre[0].data)]], Next(m, |stacks|), pre[1..], v);
    }
  }

  /** Dealing two runs of vertices is dealing their concatenation. */
  lemma {:induction false} DealAppend<T>(stacks: seq<Stack<T>>, m: nat, a: seq<Vertex<T>>, b: seq<Vertex<T>>)
    requires m < |stacks|
    ensures Deal(stacks, m, a + b) == Deal(Deal(stacks, m, a), Cursor(|stacks|, m, |a|), b)
    decreases |a|
  {
    if |a| == 0 {
      assert a + b == b;
    } else {
      assert (a + b)[1..] == a[1..] + b;
      DealAppend(stacks[m := stacks[m] + [Some(a[0].data)]], Next(m, |stacks|), a[1..], b);
    }
  }

  /** From leveled stacks, push puts a one-row vertex on stack m, and the
      stacks stay leveled with the next stack as the cursor. */
  lemma {:induction false} PushAtCursor<T>(g: ParallelGroup<T>, m: nat, v: Vertex<T>)
    requires Leveled(g.stacks, m)
    requires v.height <= 1
    ensures Push(g, v).stacks == g.stacks[m := g.stacks[m] + [Some(v.data)]]
    ensures Leveled(Push(g, v).stacks, Next(m, |g.stacks|))
  {
    ScanFindsCursor(g.stacks, m, |g.stacks| - 1);
    assert Entry(v) == [Some(v.data)];
  }

  /** From leveled stacks, pushing one-row vertices deals them round-robin:
      ParallelGroup.push spreads a depth wider than the group over the
      stacks again from the left, not onto one stack. */
  lemma {:induction false} PushAllDeals<T>(g: ParallelGroup<T>, m: nat, verts: seq<Vertex<T>>)
    requires Leveled(g.stacks, m)
    requires forall i :: 0 <= i < |verts| ==> verts[i].height <= 1
    ensures PushAll(g, verts).stacks == Deal(g.stacks, m, verts)
    ensures Leveled(PushAll(g, verts).stacks, Cursor(|g.stacks|, m, |verts|))
    decreases |verts|
  {
    if |verts| > 0 {
      var k := |verts| - 1;
      var pre := verts[..k];
      PushAllDeals(g, m, pre);
      var h := PushAll(g, pre);
      PushAtCursor(h, Cursor(|g.stacks|, m, k), verts[k]);
      DealSnoc(g.stacks, m, pre, verts[k]);
      assert pre + [verts[k]] == verts;
      CursorStep(|g.stacks|, m, k);
    }
  }

  /** A graph of two depths of one-row vertices, the second not opening a
      group, yields one group holding every vertex of both depths dealt
      round-robin from stack 0 in depth order; the group is as wide as the
      first depth, so a wider second depth wraps around. */
  lemma {:induction false} LaterDepthContinuesRoundRobin<T>(first: seq<Vertex<T>>, second: seq<Vertex<T>>)
    requires |first| > 0
    requires forall i :: 0 <= i < |first| ==> first[i].height <= 1
    requires forall i :: 0 <= i < |second| ==> second[i].height <= 1
    requires |second| > 0 ==> !second[0].joining
    ensures Build(Some([first, second]))
            == Layout([ParallelGroup(Deal(NewGroup<T>(|first|).stacks, 0, first + second))],
                      Datas(first) + Datas(second))
  {
    var g0 := NewGroup<T>(|first|);
    TwoDepthScan(first, second);
    DealFirstDepth(first);
    PushAllDeals(PushAll(g0, first), 0, second);
    DealAppend(g0.stacks, 0, first, second);
  }

  /** Two depths, the second not opening a group, build one group: the
      first depth pushed into a fresh group as wide as it, then the second
      pushed on top. */
  lemma {:induction false} TwoDepthScan<T>(first: seq<Vertex<T>>, second: seq<Vertex<T>>)
    requires |second| > 0 ==> !second[0].joining
    ensures Build(Some([first, second]))
            == Layout([PushAll(PushAll(NewGroup<T>(|first|), first), second)],
                      Datas(first) + Datas(second))
  {
    var levels := [first, second];
    assert levels[..1] == [first];
    FirstDepthScan(first);
    var s2 := Scan(levels);
    assert s2 == Visit(Scan([first]), second);
    assert Build(Some(levels)) == Layout([] + Flush(s2.current), s2.jobs);
  }

  /** A later depth whose first vertex joins closes the open group as it
      stands and opens its own group, as wide as the depth and holding
      exactly that depth's jobs. */
  lemma {:induction false} JoiningDepthOpensOwnGroup<T>(front: seq<seq<Vertex<T>>>, verts: seq<Vertex<T>>)
    requires |front| > 0 && |verts| > 0 && verts[0].joining
    ensures Build(Some(front + [verts])).groups ==
            Build(Some(front)).groups + [PushAll(NewGroup<T>(|verts|), verts)]
  {
    var levels := front + [verts];
    assert levels[..|levels| - 1] == front;
    var b := Scan(front);
    assert Scan(levels) == Visit(b, verts);
    assert b.current.Some? by {
      assert front == front[..|front| - 1] + [front[|front| - 1]];
    }
  }

  /** A later depth whose first vertex does not join goes into the open
      group: the groups before it are unchanged and it receives exactly that
      depth's pushes. */
  lemma {:induction false} PlainDepthJoinsLastGroup<T>(front: seq<seq<Vertex<T>>>, verts: seq<Vertex<T>>)
    requires |front| > 0
    requires |verts| > 0 ==> !verts[0].joining
    ensures var before := Build(Some(front)).groups;
            var after := Build(Some(front + [verts])).groups;
            && |before| > 0
            && |after| == |before|
            && after[..|before| - 1] == before[..|before| - 1]
            && after[|before| - 1] == PushAll(before[|before| - 1], verts)
  {
    var levels := front + [verts];
    assert levels[..|levels| - 1] == front;
    var b := Scan(front);
    assert Scan(levels) == Visit(b, verts);
    assert b.current.Some? by {
      assert front == front[..|front| - 1] + [front[|front| - 1]];
    }
    var before := Build(Some(front)).groups;
    assert before == b.closed + [b.current.value];
    assert before[..|before| - 1] == b.closed;
  }

  /** The first depth opens a group as wide as itself. */
  lemma {:induction false} FirstDepthScan<T>(first: seq<Vertex<T>>)
    ensures Scan([first]) == Builder([], Some(PushAll(NewGroup<T>(|first|), first)), Datas(first))
  {
    assert [first][..0] == [];
    assert [] + Datas(first) == Datas(first);
  }

  /** The first depth of a group fills every stack once and leaves the
      cursor back on stack 0. */
  lemma {:induction false} DealFirstDepth<T>(first: seq<Vertex<T>>)
    requires |first| > 0
    requires forall i :: 0 <= i < |first| ==> first[i].height <= 1
    ensures var g0 := NewGroup<T>(|first|);
            && PushAll(g0, first).stacks == Deal(g0.stacks, 0, first)
            && Cursor(|first|, 0, |first|) == 0
            && Leveled(PushAll(g0, first).stacks, 0)
  {
    var n := |first|;
    var g0 := NewGroup<T>(n);
    PushAllDeals(g0, 0, first);
    var g1 := PushAll(g0, first);
    FreshGroupFillsLeftToRight(n, first);
    assert |g1.stacks[0]| == 1 && |g1.stacks[n - 1]| == 1;
  }

  /** The two-depth graph [[a, b], [c, d, e]] of one-row vertices gives the
      stacks [a, c, e] and [b, d]: the third vertex of the second depth goes
      back to stack 0 and the fourth to stack 1. */
  lemma {:induction false} OverflowWrapsAround<T>(a: Vertex<T>, b: Vertex<T>, c: Vertex<T>, d: Vertex<T>, e: Vertex<T>)
    requires a.height == 1 && b.height == 1 && c.height == 1 && d.height == 1 && e.height == 1
    requires !c.joining
    ensures Build(Some([[a, b], [c, d, e]])).groups
            == [ParallelGroup([[Some(a.data), Some(c.data), Some(e.data)],
                               [Some(b.data), Some(d.data)]])]
  {
    LaterDepthContinuesRoundRobin([a, b], [c, d, e]);
    assert [a, b] + [c, d, e] == [a, b, c, d, e];
    DealFiveOverTwo(a, b, c, d, e);
  }

  lemma {:induction false} DealFiveOverTwo<T>(a: Vertex<T>, b: Vertex<T>, c: Vertex<T>, d: Vertex<T>, e: Vertex<T>)
    ensures Deal(NewGroup<T>(2).stacks, 0, [a, b, c, d, e])
            == [[Some(a.data), Some(c.data), Some(e.data)], [Some(b.data), Some(d.data)]]
  {
    var A, B, C, D, E := Some(a.data), Some(b.data), Some(c.data), Some(d.data), Some(e.data);
    var s0: seq<Stack<T>> := NewGroup<T>(2).stacks;
    assert s0 == [[], []];
    DealOne(s0, 0, a, [b, c, d, e]);
    assert s0[0] + [A] == [A];
    assert s0[0 := [A]] == [[A], []];
    DealOne([[A], []], 1, b, [c, d, e]);
    assert [] + [B] == [B];
    assert [[A], []][1 := [B]] == [[A], [B]];
    DealOne([[A], [B]], 0, c, [d, e]);
    assert [A] + [C] == [A, C];
    assert [[A], [B]][0 := [A, C]] == [[A, C], [B]];
    DealOne([[A, C], [B]], 1, d, [e]);
    assert [B] + [D] == [B, D];
    assert [[A, C], [B]][1 := [B, D]] == [[A, C], [B, D]];
    DealOne([[A, C], [B, D]], 0, e, []);
    assert [A, C] + [E] == [A, C, E];
    assert [[A, C], [B, D]][0 := [A, C, E]] == [[A, C, E], [B, D]];
  }

  /** Dealing a vertex ahead of the rest. */
  lemma {:induction false} DealOne<T>(stacks: seq<Stack<T>>, m: nat, v: Vertex<T>, rest: seq<Vertex<T>>)
    requires m < |stacks|
    ensures Deal(stacks, m, [v] + rest)
            == Deal(stacks[m := stacks[m] + [Some(v.data)]], Next(m, |stacks|), rest)
  {
    assert ([v] + rest)[1..] == rest;
  }
}
