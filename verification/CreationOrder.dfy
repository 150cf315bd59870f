/**
 The order in which rendered objects are applied (EnsureCreationOrder,
 pkg/kustomize/kustomize.go) and which of them a reconcile holds back
 (filterDeferredWorkloads, controllers/quay/quayregistry_controller.go).

 `P` is whatever an object was rendered from that a reader of this module needs.
 */
module CreationOrder {

  datatype Kind = Deployment | Job | Secret | OtherKind(name: string)

  /** `component` is the value of the quay-component label. */
  datatype Object<+P> = Object(kind: Kind, name: string, component: string, payload: P)

  predicate IsWorkload<P>(o: Object<P>) {
    o.kind.Deployment? || o.kind.Job?
  }

  const InfrastructureComponents: set<string> := {"postgres", "clair-postgres", "redis"}

  predicate IsDeferrable<P>(o: Object<P>) {
    IsWorkload(o) && o.component !in InfrastructureComponents
  }

  // ---- Reference description ----

  function Workloads<P>(objs: seq<Object<P>>): (r: seq<Object<P>>)
    ensures forall i | 0 <= i < |r| :: IsWorkload(r[i])
  {
    if objs == [] then []
    else
      var last := objs[|objs| - 1];
      Workloads(objs[..|objs| - 1]) + if IsWorkload(last) then [last] else []
  }

  /** The objects workloads depend on, last one first. */
  function Others<P>(objs: seq<Object<P>>): (r: seq<Object<P>>)
    ensures forall i | 0 <= i < |r| :: !IsWorkload(r[i])
  {
    if objs == [] then []
    else
      var last := objs[|objs| - 1];
      (if IsWorkload(last) then [] else [last]) + Others(objs[..|objs| - 1])
  }

  function Ordered<P>(objs: seq<Object<P>>): seq<Object<P>> {
    Others(objs) + Workloads(objs)
  }

  function Filtered<P>(objs: seq<Object<P>>, deferWorkloads: bool): seq<Object<P>> {
    if objs == [] then []
    else (if deferWorkloads && IsDeferrable(objs[0]) then [] else [objs[0]]) + Filtered(objs[1..], deferWorkloads)
  }

  // ---- What the orders guarantee ----

  /** Every non-workload comes before every workload. */
  predicate WorkloadsLast<P>(objs: seq<Object<P>>) {
    forall i, j | 0 <= i < j < |objs| && IsWorkload(objs[i]) :: IsWorkload(objs[j])
  }

  /** An order in which the objects may be created. */
  ghost predicate IsCreationOrder<P>(order: seq<Object<P>>, objs: seq<Object<P>>) {
    multiset(order) == multiset(objs) && WorkloadsLast(order)
  }

  lemma {:induction false} OrderedIsPermutation<P>(objs: seq<Object<P>>)
    ensures multiset(Ordered(objs)) == multiset(objs)
  {
    if objs != [] {
      var before, last := objs[..|objs| - 1], objs[|objs| - 1];
      OrderedIsPermutation(before);
      assert objs == before + [last];
    }
  }

  lemma OrderedWorkloadsLast<P>(objs: seq<Object<P>>)
    ensures WorkloadsLast(Ordered(objs))
  {
  }

  lemma {:induction false} FilteredMembers<P>(objs: seq<Object<P>>, deferWorkloads: bool)
    ensures forall o :: o in Filtered(objs, deferWorkloads) <==> o in objs && !(deferWorkloads && IsDeferrable(o))
  {
    if objs != [] {
      FilteredMembers(objs[1..], deferWorkloads);
      assert objs == [objs[0]] + objs[1..];
    }
  }

  lemma {:induction false} FilteredWorkloads<P>(objs: seq<Object<P>>, deferWorkloads: bool)
    requires forall i | 0 <= i < |objs| :: IsWorkload(objs[i])
    ensures forall i | 0 <= i < |Filtered(objs, deferWorkloads)| :: IsWorkload(Filtered(objs, deferWorkloads)[i])
  {
    if objs != [] {
      FilteredWorkloads(objs[1..], deferWorkloads);
    }
  }

  lemma {:induction false} FilteredWorkloadsLast<P>(objs: seq<Object<P>>, deferWorkloads: bool)
    requires WorkloadsLast(objs)
    ensures WorkloadsLast(Filtered(objs, deferWorkloads))
  {
    if objs != [] {
      FilteredWorkloadsLast(objs[1..], deferWorkloads);
      if IsWorkload(objs[0]) {
        FilteredWorkloads(objs[1..], deferWorkloads);
      }
    }
  }

  lemma {:induction false} FilteredCounts<P>(objs: seq<Object<P>>, deferWorkloads: bool, o: Object<P>)
    ensures multiset(Filtered(objs, deferWorkloads))[o] == if deferWorkloads && IsDeferrable(o) then 0 else multiset(objs)[o]
  {
    if objs != [] {
      FilteredCounts(objs[1..], deferWorkloads, o);
      assert objs == [objs[0]] + objs[1..];
    }
  }

  /**
   What is held back while something is pending: the deployments and jobs of every component but
   the two databases and redis, in all their copies, and nothing else.
   */
  lemma HeldBack<P>(order: seq<Object<P>>, o: Object<P>)
    ensures multiset(Filtered(order, false))[o] == multiset(order)[o]
    ensures multiset(Filtered(order, true))[o]
         == if (o.kind == Deployment || o.kind == Job) && o.component !in ["postgres", "clair-postgres", "redis"] then 0
            else multiset(order)[o]
  {
    FilteredCounts(order, false, o);
    FilteredCounts(order, true, o);
  }

  /** In an order of creation nothing comes behind a deployment or job but deployments and jobs. */
  lemma WorkloadsComeLast<P>(order: seq<Object<P>>)
    requires WorkloadsLast(order)
    ensures forall i, j | 0 <= i < j < |order| && order[i].kind in {Deployment, Job} :: order[j].kind in {Deployment, Job}
  {
  }

  /**
   What survives the filter keeps its place before or after workloads and its multiplicity, and
   nothing but deferrable workloads is dropped.
   */
  lemma FilteredKeepsOrder<P>(objs: seq<Object<P>>, deferWorkloads: bool)
    requires WorkloadsLast(objs)
    ensures WorkloadsLast(Filtered(objs, deferWorkloads))
    ensures forall o :: multiset(Filtered(objs, deferWorkloads))[o]
                     == if deferWorkloads && IsDeferrable(o) then 0 else multiset(objs)[o]
  {
    FilteredWorkloadsLast(objs, deferWorkloads);
    forall o ensures multiset(Filtered(objs, deferWorkloads))[o]
                  == if deferWorkloads && IsDeferrable(o) then 0 else multiset(objs)[o] {
      FilteredCounts(objs, deferWorkloads, o);
    }
  }

  /** The filter decides object by object, so it never reorders. */
  lemma {:induction false} FilteredConcat<P>(a: seq<Object<P>>, b: seq<Object<P>>, deferWorkloads: bool)
    ensures Filtered(a + b, deferWorkloads) == Filtered(a, deferWorkloads) + Filtered(b, deferWorkloads)
  {
    if a == [] {
      assert a + b == b;
    } else {
      FilteredConcat(a[1..], b, deferWorkloads);
      assert (a + b)[1..] == a[1..] + b;
    }
  }

  lemma SameMembers<P>(order: seq<Object<P>>, objs: seq<Object<P>>)
    requires multiset(order) == multiset(objs)
    ensures forall o :: o in order <==> o in objs
  {
    assert forall o :: o in order <==> o in multiset(order);
    assert forall o :: o in objs <==> o in multiset(objs);
  }

  /** What a reconcile walks over, in terms of what was rendered, for any order of creation. */
  lemma QueueMembers<P>(order: seq<Object<P>>, deferWorkloads: bool)
    requires WorkloadsLast(order)
    ensures var queue := Filtered(order, deferWorkloads);
            && WorkloadsLast(queue)
            && forall o :: o in queue <==> o in order && !(deferWorkloads && IsDeferrable(o))
  {
    FilteredKeepsOrder(order, deferWorkloads);
    FilteredMembers(order, deferWorkloads);
  }

  // ---- The code ----

  /** The inner loop: swaps the object at `i` towards the front while it compares less. */
  method Sink<P>(objects: array<Object<P>>, i: nat)
    requires i < objects.Length
    modifies objects
    ensures IsWorkload(old(objects[i])) ==> objects[..] == old(objects[..])
    ensures !IsWorkload(old(objects[i])) ==>
              objects[..] == [old(objects[i])] + old(objects[..i]) + old(objects[i + 1..])
  {
    var j := i;
    while j > 0 && !IsWorkload(objects[j])
      invariant 0 <= j <= i
      invariant objects[j] == old(objects[i])
      invariant forall k | 0 <= k < j :: objects[k] == old(objects[k])
      invariant forall k | j < k <= i :: objects[k] == old(objects[k - 1])
      invariant forall k | i < k < objects.Length :: objects[k] == old(objects[k])
      invariant j < i ==> !IsWorkload(old(objects[i]))
    {
      objects[j], objects[j - 1] := objects[j - 1], objects[j];
      j := j - 1;
    }
  }

  /**
   The sort of at most twelve objects. The comparator looks at its first argument only, so it
   calls two non-workloads each less than the other: sinking with it takes a non-workload all
   the way to the front.
   */
  method InsertionSort<P>(objects: array<Object<P>>)
    modifies objects
    ensures objects[..] == Ordered(old(objects[..]))
  {
    ghost var was := objects[..];
    for i := 0 to objects.Length
      invariant objects[..i] == Ordered(was[..i])
      invariant objects[i..] == was[i..]
    {
      ghost var sorted, x, later := objects[..i], objects[i], objects[i + 1..];
      assert x == was[i] && later == was[i + 1..] by {
        assert x == objects[i..][0] && later == objects[i..][1..];
      }
      Sink(objects, i);
      OrderedSnoc(was[..i], x);
      assert was[..i] + [x] == was[..i + 1];
      if !IsWorkload(x) {
        assert objects[..] == [x] + sorted + later;
        assert objects[..i + 1] == [x] + sorted;
      }
      assert objects[i + 1..] == later;
    }
    assert was[..objects.Length] == was && objects[..objects.Length] == objects[..];
  }

  method Swap<P>(objects: array<Object<P>>, i: nat, j: nat)
    requires i < objects.Length && j < objects.Length
    modifies objects
    ensures objects[..] == old(objects[..])[i := old(objects[j])][j := old(objects[i])]
    ensures multiset(objects[..]) == multiset(old(objects[..]))
  {
    objects[i], objects[j] := objects[j], objects[i];
  }

  method ReverseRange<P>(objects: array<Object<P>>)
    modifies objects
    ensures multiset(objects[..]) == multiset(old(objects[..]))
  {
    var i, j := 0, objects.Length;
    while i + 1 < j
      invariant 0 <= i <= j <= objects.Length
      invariant multiset(objects[..]) == multiset(old(objects[..]))
      decreases j - i
    {
      Swap(objects, i, j - 1);
      i, j := i + 1, j - 1;
    }
  }

  /** The object at `i` moves behind the non-workloads that follow it. */
  method ShiftRight<P>(objects: array<Object<P>>, i: nat)
    requires i < objects.Length
    modifies objects
    ensures multiset(objects[..]) == multiset(old(objects[..])) && objects[..i] == old(objects[..i])
  {
    var j := i + 1;
    while j < objects.Length && !IsWorkload(objects[j])
      invariant i < j <= objects.Length
      invariant multiset(objects[..]) == multiset(old(objects[..]))
      invariant objects[..i] == old(objects[..i])
      decreases objects.Length - j
    {
      Swap(objects, j, j - 1);
      j := j + 1;
    }
  }

  /** Up to five repairs of a list that looks sorted; answers whether it is sorted now. */
  method PartialInsertionSort<P>(objects: array<Object<P>>) returns (sorted: bool)
    requires objects.Length > 0
    modifies objects
    ensures multiset(objects[..]) == multiset(old(objects[..]))
    ensures sorted ==> WorkloadsLast(objects[..])
  {
    var i := 1;
    for step := 0 to 5
      invariant 1 <= i <= objects.Length
      invariant multiset(objects[..]) == multiset(old(objects[..]))
      invariant WorkloadsLast(objects[..i])
    {
      while i < objects.Length && IsWorkload(objects[i])
        invariant 1 <= i <= objects.Length
        invariant WorkloadsLast(objects[..i])
      {
        assert objects[..i + 1] == objects[..i] + [objects[i]];
        i := i + 1;
      }
      if i == objects.Length {
        assert objects[..i] == objects[..];
        return true;
      }
      if objects.Length < 50 {
        return false;
      }
      Repair(objects, i);
      ShiftRight(objects, i);
    }
    return false;
  }

  /** A non-workload at `i` is swapped with its neighbour and shifted to the front. */
  method Repair<P>(objects: array<Object<P>>, i: nat)
    requires 1 <= i < objects.Length && !IsWorkload(objects[i]) && WorkloadsLast(objects[..i])
    modifies objects
    ensures multiset(objects[..]) == multiset(old(objects[..]))
    ensures WorkloadsLast(objects[..i])
  {
    ghost var front, x := objects[..i - 1], objects[i];
    assert WorkloadsLast(front) by {
      assert front == objects[..i][..i - 1];
    }
    Swap(objects, i, i - 1);
    assert objects[..i - 1] == front && objects[i - 1] == x;
    ShiftToFront(objects, i - 1);
    assert objects[..i] == [x] + front;
  }

  method ShiftToFront<P>(objects: array<Object<P>>, i: nat)
    requires i < objects.Length && !IsWorkload(objects[i])
    modifies objects
    ensures multiset(objects[..]) == multiset(old(objects[..]))
    ensures objects[..i + 1] == [old(objects[i])] + old(objects[..i])
  {
    ghost var was := objects[..];
    Sink(objects, i);
    assert was == was[..i] + [was[i]] + was[i + 1..];
    assert objects[..] == [was[i]] + was[..i] + was[i + 1..];
  }

  /** The partition around any pivot: afterwards every workload is on its right. */
  method Partition<P>(objects: array<Object<P>>, pivot: nat) returns (mid: nat)
    requires pivot < objects.Length
    modifies objects
    ensures multiset(objects[..]) == multiset(old(objects[..]))
    ensures mid < objects.Length
    ensures forall k | 0 <= k < mid :: !IsWorkload(objects[k])
    ensures forall k | mid < k < objects.Length :: IsWorkload(objects[k])
  {
    Swap(objects, 0, pivot);
    var i, j := 1, objects.Length - 1;
    while true
      invariant 1 <= i <= j + 1 <= objects.Length
      invariant multiset(objects[..]) == multiset(old(objects[..]))
      invariant Parted(objects[..], i, j)
      decreases j - i
    {
      i, j := Approach(objects, i, j);
      if i > j {
        break;
      }
      SwapPair(objects, i, j);
      i, j := i + 1, j - 1;
    }
    PlacePivot(objects, j);
    mid := j;
  }

  /** A pair on the wrong sides changes sides. */
  method SwapPair<P>(objects: array<Object<P>>, i: int, j: int)
    requires 1 <= i <= j < objects.Length && Parted(objects[..], i, j)
    requires IsWorkload(objects[i]) && !IsWorkload(objects[j])
    modifies objects
    ensures multiset(objects[..]) == multiset(old(objects[..]))
    ensures Parted(objects[..], i + 1, j - 1)
  {
    Swap(objects, i, j);
  }

  /** The pivot goes between the two parts. */
  method PlacePivot<P>(objects: array<Object<P>>, j: nat)
    requires j < objects.Length && Parted(objects[..], j + 1, j)
    modifies objects
    ensures multiset(objects[..]) == multiset(old(objects[..]))
    ensures forall k | 0 <= k < j :: !IsWorkload(objects[k])
    ensures forall k | j < k < objects.Length :: IsWorkload(objects[k])
  {
    ghost var was := objects[..];
    Swap(objects, j, 0);
    assert objects[..] == was[j := was[0]][0 := was[j]];
    assert j > 0 ==> !IsWorkload(was[j]);
  }

  /** Between the pivot and `i` no workloads, behind `j` nothing else. */
  ghost predicate Parted<P>(objs: seq<Object<P>>, i: int, j: int) {
    && (forall k | 1 <= k < i && k < |objs| :: !IsWorkload(objs[k]))
    && (forall k | 0 <= k < |objs| && j < k :: IsWorkload(objs[k]))
  }

  /** The two scans that meet, or stop at a pair on the wrong sides. */
  method Approach<P>(objects: array<Object<P>>, i: int, j: int) returns (left: int, right: int)
    requires 1 <= i <= j + 1 <= objects.Length && Parted(objects[..], i, j)
    ensures i <= left <= right + 1 && right <= j && Parted(objects[..], left, right)
    ensures left <= right ==> IsWorkload(objects[left]) && !IsWorkload(objects[right])
  {
    left, right := i, j;
    while left <= right && !IsWorkload(objects[left])
      invariant i <= left <= right + 1 && Parted(objects[..], left, right)
    {
      left := left + 1;
    }
    while left <= right && IsWorkload(objects[right])
      invariant i <= left <= right + 1 && right <= j && Parted(objects[..], left, right)
      invariant left <= right ==> IsWorkload(objects[left])
    {
      right := right - 1;
    }
  }

  /** Whatever the sort goes on to do inside a part comes down to swaps inside that part. */
  method Rearrange<P>(objects: array<Object<P>>, lo: nat, hi: nat)
    requires lo <= hi <= objects.Length
    modifies objects
    ensures multiset(objects[..]) == multiset(old(objects[..]))
    ensures forall k | 0 <= k < lo || hi <= k < objects.Length :: objects[k] == old(objects[k])
    ensures (forall k | lo <= k < hi :: IsWorkload(old(objects[k]))) ==> forall k | lo <= k < hi :: IsWorkload(objects[k])
    ensures (forall k | lo <= k < hi :: !IsWorkload(old(objects[k]))) ==> forall k | lo <= k < hi :: !IsWorkload(objects[k])
  {
    var n: int := *;
    while n > 0
      invariant multiset(objects[..]) == multiset(old(objects[..]))
      invariant forall k | 0 <= k < lo || hi <= k < objects.Length :: objects[k] == old(objects[k])
      invariant (forall k | lo <= k < hi :: IsWorkload(old(objects[k]))) ==> forall k | lo <= k < hi :: IsWorkload(objects[k])
      invariant (forall k | lo <= k < hi :: !IsWorkload(old(objects[k]))) ==> forall k | lo <= k < hi :: !IsWorkload(objects[k])
    {
      var i: int, j: int := *, *;
      if lo <= i < hi && lo <= j < hi {
        Swap(objects, i, j);
      }
      n := n - 1;
    }
  }

  /**
   Go's sort on this comparator, which is no order: up to twelve objects by insertion, more of
   them by one partition around a pivot, after which both parts can only be rearranged within
   themselves. Which pivot, and whether the list is reversed or repaired first, is left open.
   */
  method EnsureCreationOrder<P>(objects: array<Object<P>>)
    modifies objects
    ensures IsCreationOrder(objects[..], old(objects[..]))
    ensures objects.Length <= 12 ==> objects[..] == Ordered(old(objects[..]))
  {
    if objects.Length <= 12 {
      OrderedIsPermutation(objects[..]);
      OrderedWorkloadsLast(objects[..]);
      InsertionSort(objects);
      return;
    }
    var decreasing: bool, increasing: bool, pivot: int := *, *, *;
    if decreasing {
      ReverseRange(objects);
    }
    if decreasing || increasing {
      var sorted := PartialInsertionSort(objects);
      if sorted {
        return;
      }
    }
    var mid := Partition(objects, if 0 <= pivot < objects.Length then pivot else 0);
    Rearrange(objects, 0, mid);
    Rearrange(objects, mid + 1, objects.Length);
  }

  lemma OrderedSnoc<P>(objs: seq<Object<P>>, o: Object<P>)
    ensures Ordered(objs + [o]) == if IsWorkload(o) then Ordered(objs) + [o] else [o] + Ordered(objs)
  {
    assert (objs + [o])[..|objs|] == objs;
  }

  lemma FilteredSnoc<P>(objs: seq<Object<P>>, o: Object<P>, deferWorkloads: bool)
    ensures Filtered(objs + [o], deferWorkloads)
         == Filtered(objs, deferWorkloads) + if deferWorkloads && IsDeferrable(o) then [] else [o]
  {
    FilteredConcat(objs, [o], deferWorkloads);
    assert [o][1..] == [];
  }

  method FilterDeferredWorkloads<P>(objects: seq<Object<P>>, deferWorkloads: bool) returns (r: seq<Object<P>>)
    ensures r == Filtered(objects, deferWorkloads)
  {
    if !deferWorkloads {
      FilteredAll(objects);
      return objects;
    }
    var filtered: seq<Object<P>> := [];
    for i := 0 to |objects|
      invariant filtered == Filtered(objects[..i], true)
    {
      FilteredSnoc(objects[..i], objects[i], true);
      assert objects[..i + 1] == objects[..i] + [objects[i]];
      if IsWorkload(objects[i]) {
        if objects[i].component !in InfrastructureComponents {
          continue;
        }
      }
      filtered := filtered + [objects[i]];
    }
    assert objects[..|objects|] == objects;
    return filtered;
  }

  lemma {:induction false} FilteredAll<P>(objs: seq<Object<P>>)
    ensures Filtered(objs, false) == objs
  {
    if objs != [] {
      FilteredAll(objs[1..]);
    }
  }

  // ---- How far a loop over a queue gets ----

  /** How many of `n` objects are dealt with once the one at `failsAt`, if there is one, has failed. */
  function StopsAt(n: nat, failsAt: nat, lands: bool): (stop: nat)
    ensures stop <= n
  {
    if failsAt >= n then n else if lands then failsAt + 1 else failsAt
  }
}
