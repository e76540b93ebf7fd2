/**
 The kernel module's intrusive circular list (`drv/list.c`), and the registry of mappings kept in
 it: lookup, release and clearing, proved against the sequence of elements.
 */
module IntrusiveList {
  import opened Arithmetic

  /** What a mapping's lookup and release read; a list head carries none. */
  datatype Mapping = Mapping(owner: nat, vaddr: nat, pageSize: nat, hasRelease: bool, hasData: bool)

  /** A list node inside its mapping, which is filled in before it is inserted. */
  class Node {
    var list: List?
    var next: Node?
    var prev: Node?
    const info: Mapping

    /** list_node_init */
    constructor (m: Mapping)
      ensures list == null && next == null && prev == null && info == m
    {
      list, next, prev, info := null, null, null, m;
    }
  }

  /** The i-th of a head, its elements, and the head again. */
  function Around<T>(head: T, elems: seq<T>, i: nat): T
    requires i <= |elems| + 1
  {
    if i == 0 || i == |elems| + 1 then head else elems[i - 1]
  }

  function Without<T>(elems: seq<T>, k: nat): seq<T>
    requires k < |elems|
  {
    elems[..k] + elems[k + 1..]
  }

  /** Leaving out one element shifts what follows it. */
  lemma AroundWithout<T>(head: T, elems: seq<T>, k: nat, i: nat)
    requires k < |elems| && i <= |elems|
    ensures Around(head, Without(elems, k), i) == Around(head, elems, if i <= k then i else i + 1)
  {
  }

  /** Two places of the circle other than its start hold different nodes; so do two before its end. */
  lemma AroundDiffers<T>(head: T, elems: seq<T>, j: nat, k: nat, m: nat)
    requires head !in elems && (forall a, b :: 0 <= a < b < |elems| ==> elems[a] != elems[b])
    requires j <= |elems| && k <= |elems| && m <= |elems|
    ensures j != k ==> Around(head, elems, j) != Around(head, elems, k)
    ensures j != m ==> Around(head, elems, j + 1) != Around(head, elems, m + 1)
  {
  }

  class List {
    const head: Node
    ghost var elems: seq<Node>
    ghost var freed: seq<Node>     // mappings freed, in order
    ghost var released: seq<Node>  // mappings whose release callback ran, in order

    /** The i-th node around the circle: the head, the elements, and the head again. */
    ghost function At(i: nat): (n: Node)
      requires i <= |elems| + 1
      reads this`elems
      ensures n in Cells()
    {
      Around(head, elems, i)
    }

    ghost predicate Linked(i: nat)
      requires i <= |elems|
      reads this`elems, At(i), At(i + 1)
    {
      At(i).next == At(i + 1) && At(i + 1).prev == At(i)
    }

    /** The nodes around the circle. */
    ghost function Cells(): set<object>
      reads this`elems
    {
      {head} + set i | 0 <= i < |elems| :: elems[i]
    }

    ghost function Nodes(): set<object>
      reads this`elems
    {
      {this} + Cells()
    }

    ghost predicate Valid()
      reads this`elems, Cells()
    {
      && head !in elems
      && (forall i, j :: 0 <= i < j < |elems| ==> elems[i] != elems[j])
      && head.list == this && (forall i :: 0 <= i < |elems| ==> elems[i].list == this)
      && (forall i :: 0 <= i <= |elems| ==> Linked(i))
    }

    /** list_init */
    constructor ()
      ensures Valid() && elems == [] && freed == [] && released == []
      ensures fresh(head)
    {
      var h := new Node(Mapping(0, 0, 0, false, false));
      head := h;
      elems, freed, released := [], [], [];
      new;
      head.list := this;
      head.prev := head;
      head.next := head;
    }

    /** list_insert: append at the end. */
    method Insert(element: Node)
      requires Valid() && element != head && element !in elems
      modifies Nodes(), element
      ensures Valid() && elems == old(elems) + [element]
      ensures freed == old(freed) && released == old(released)
    {
      assert Linked(|elems|);
      var last := head.prev;
      last.next := element;
      element.list := this;
      element.prev := last;
      element.next := head;
      head.prev := element;
      ghost var was := elems;
      elems := elems + [element];
      forall i | 0 <= i <= |elems|
        ensures Linked(i)
      {
        if i < |was| {
          assert old(Linked(i));
        }
      }
    }

    /** list_next: the following element, or null at the end of the list. */
    method Next(current: Node, ghost i: nat) returns (n: Node?)
      requires Valid() && i <= |elems| && current == At(i)
      ensures n == if i == |elems| then null else elems[i]
    {
      assert Linked(i);
      n := if current.next != current.list.head then current.next else null;
    }
  }

  /** Make an element's neighbours point past it. */
  method Bypass(element: Node, l: List, ghost k: nat)
    requires element.list == l && l.Valid() && k < |l.elems| && l.elems[k] == element
    modifies l.Nodes()
    ensures l.Valid() && l.elems == Without(old(l.elems), k) && element !in l.Cells()
    ensures l.freed == old(l.freed) && l.released == old(l.released)
  {
    assert l.Linked(k) && l.Linked(k + 1);
    ghost var was := l.elems;
    assert Around(l.head, was, k + 1) == element;
    assert element.prev == Around(l.head, was, k) && element.next == Around(l.head, was, k + 2);
    element.prev.next := element.next;
    element.next.prev := element.prev;
    l.elems := Without(was, k);
    forall j | 0 <= j <= |was| && j != k && j != k + 1
      ensures Joined(l.head, was, j)
    {
      assert old(l.Linked(j));
      AroundDiffers(l.head, was, j, k, k + 1);
    }
    Rejoined(l, was, k);
    assert forall i :: 0 <= i < |l.elems| ==> l.elems[i] == was[if i < k then i else i + 1];
  }

  /** Neighbours j and j + 1 of a circle point to each other. */
  ghost predicate Joined(head: Node, elems: seq<Node>, j: nat)
    requires j <= |elems|
    reads Around(head, elems, j), Around(head, elems, j + 1)
  {
    Around(head, elems, j).next == Around(head, elems, j + 1) && Around(head, elems, j + 1).prev == Around(head, elems, j)
  }

  /** A circle whose links are whole but for one element, which its neighbours skip, is the circle without it. */
  lemma Rejoined(l: List, was: seq<Node>, k: nat)
    requires k < |was| && l.elems == Without(was, k)
    requires forall j :: 0 <= j <= |was| && j != k && j != k + 1 ==> Joined(l.head, was, j)
    requires Around(l.head, was, k).next == Around(l.head, was, k + 2) && Around(l.head, was, k + 2).prev == Around(l.head, was, k)
    ensures forall i :: 0 <= i <= |l.elems| ==> l.Linked(i)
  {
    forall i | 0 <= i <= |l.elems|
      ensures l.Linked(i)
    {
      AroundWithout(l.head, was, k, i);
      AroundWithout(l.head, was, k, i + 1);
      assert i < k ==> Joined(l.head, was, i);
      assert i > k ==> Joined(l.head, was, i + 1);
    }
  }

  /** The body of list_remove, for an element of a list. */
  method Unlink(element: Node, l: List, ghost k: nat)
    requires element.list == l && l.Valid() && k < |l.elems| && l.elems[k] == element
    modifies l.Nodes()
    ensures l.Valid() && l.elems == Without(old(l.elems), k)
    ensures l.freed == old(l.freed) && l.released == old(l.released)
    ensures element.list == null && element.next == null && element.prev == null
  {
    assert l.At(k + 1) == element;
    Bypass(element, l, k);
    element.list := null;
    element.next := null;
    element.prev := null;
  }

  /** What list_remove can touch: the nodes of the list the element says it is in. */
  ghost function Neighbours(element: Node?): set<object>
    reads element, if element == null then null else element.list
  {
    if element == null || element.list == null then {} else element.list.Nodes()
  }

  /** list_remove: unlinks an element of a list; a null, unlinked or head node is left alone. */
  method Remove(element: Node?, ghost k: nat)
    requires element != null && element.list != null && element != element.list.head ==>
               element.list.Valid() && k < |element.list.elems| && element.list.elems[k] == element
    modifies Neighbours(element)
    ensures element != null && old(element.list) != null && element != old(element.list.head) ==>
              && old(element.list).Valid()
              && old(element.list).elems == Without(old(element.list.elems), k)
              && old(element.list).freed == old(element.list.freed) && old(element.list).released == old(element.list.released)
              && element.list == null && element.next == null && element.prev == null
    ensures element != null && (old(element.list) == null || element == old(element.list.head)) ==>
              element.list == old(element.list) && element.next == old(element.next) && element.prev == old(element.prev)
  {
    if element != null && element.list != null && element != element.list.head {
      Unlink(element, element.list, k);
    }
  }

  // ------------------------------------------------------------- registry of mappings

  /** Whether a mapping is the caller's and starts at the address, rounded down to its own page size. */
  predicate Matches(m: Mapping, task: nat, addr: nat) {
    m.owner == task && m.pageSize > 0 && m.vaddr == RoundDown(addr, m.pageSize)
  }

  predicate NoneMatches(nodes: seq<Node>, task: nat, addr: nat) {
    forall i :: 0 <= i < |nodes| ==> !Matches(nodes[i].info, task, addr)
  }

  predicate FirstMatch(nodes: seq<Node>, task: nat, addr: nat, k: nat) {
    k < |nodes| && Matches(nodes[k].info, task, addr) && NoneMatches(nodes[..k], task, addr)
  }

  /** map_find: the first mapping in the list that matches, or null if none does. */
  method MapFind(l: List, task: nat, addr: nat) returns (m: Node?, ghost k: nat)
    requires l.Valid()
    ensures m == null <==> NoneMatches(l.elems, task, addr)
    ensures m != null ==> Matches(m.info, task, addr) && FirstMatch(l.elems, task, addr, k) && m == l.elems[k]
  {
    k := 0;
    var element := l.Next(l.head, 0);
    while element != null
      invariant k <= |l.elems| && element == if k == |l.elems| then null else l.elems[k]
      invariant forall i :: 0 <= i < k ==> !Matches(l.elems[i].info, task, addr)
      decreases |l.elems| - k
    {
      if element.info.owner == task {
        if element.info.pageSize > 0 && element.info.vaddr == addr - addr % element.info.pageSize {
          return element, k;
        }
      }
      k := k + 1;
      assert element == l.At(k);
      element := l.Next(element, k);
    }
    return null, k;
  }

  /** unmap_and_release, for a mapping in a list: unlink, run the release callback if any, free. */
  method UnmapAndRelease(map_: Node, l: List, ghost k: nat)
    requires map_.list == l && l.Valid() && k < |l.elems| && l.elems[k] == map_
    modifies l.Nodes()
    ensures l.Valid() && l.elems == Without(old(l.elems), k)
    ensures l.freed == old(l.freed) + [map_]
    ensures l.released == old(l.released) + if Releases(map_.info) then [map_] else []
  {
    Remove(map_, k);
    if map_.info.hasRelease && map_.info.hasData {
      l.released := l.released + [map_];
    }
    l.freed := l.freed + [map_];
  }

  predicate Releases(m: Mapping) {
    m.hasRelease && m.hasData
  }

  /** The mappings of a list whose release callback runs. */
  ghost function Releasing(nodes: seq<Node>): seq<Node> {
    if nodes == [] then []
    else (if Releases(nodes[0].info) then [nodes[0]] else []) + Releasing(nodes[1..])
  }

  /** clear_map_list: frees every mapping once, in order, empties the list and counts them. */
  method ClearMapList(l: List) returns (count: nat)
    requires l.Valid()
    modifies l.Nodes()
    ensures l.Valid() && l.elems == [] && count == |old(l.elems)|
    ensures l.freed == old(l.freed) + old(l.elems)
    ensures l.released == old(l.released) + Releasing(old(l.elems))
  {
    count := 0;
    var ptr := l.Next(l.head, 0);
    while ptr != null
      invariant l.Valid()
      invariant l.Nodes() <= old(l.Nodes())
      invariant ptr == if l.elems == [] then null else l.elems[0]
      invariant count + |l.elems| == |old(l.elems)|
      invariant l.freed + l.elems == old(l.freed) + old(l.elems)
      invariant l.released + Releasing(l.elems) == old(l.released) + Releasing(old(l.elems))
      decreases |l.elems|
    {
      ReleaseFirst(ptr, l);
      count := count + 1;
      ptr := l.Next(l.head, 0);
    }
  }

  lemma MoveFirst<T>(a: seq<T>, b: seq<T>)
    requires b != []
    ensures a + b == (a + [b[0]]) + b[1..]
  {
  }

  /** One round of clear_map_list. */
  method ReleaseFirst(first: Node, l: List)
    requires l.Valid() && l.elems != [] && first == l.elems[0]
    modifies l.Nodes()
    ensures l.Valid() && l.Nodes() <= old(l.Nodes()) && |l.elems| == |old(l.elems)| - 1
    ensures l.freed + l.elems == old(l.freed) + old(l.elems)
    ensures l.released + Releasing(l.elems) == old(l.released) + Releasing(old(l.elems))
  {
    WithoutFirst(l.elems);
    MoveFirst(l.freed, l.elems);
    ReleasingFirst(l.released, l.elems);
    UnmapAndRelease(first, l, 0);
  }

  lemma WithoutFirst<T>(elems: seq<T>)
    requires elems != []
    ensures Without(elems, 0) == elems[1..]
  {
  }

  lemma {:induction false} ReleasingFirst(done: seq<Node>, nodes: seq<Node>)
    requires nodes != []
    ensures (done + if Releases(nodes[0].info) then [nodes[0]] else []) + Releasing(nodes[1..])
         == done + Releasing(nodes)
  {
    var first, rest := if Releases(nodes[0].info) then [nodes[0]] else [], Releasing(nodes[1..]);
    assert (done + first) + rest == done + (first + rest);
  }

  /**
   The NVM_UNMAP_MEMORY request: releases the first match among host mappings, else the first among
   device mappings, else fails; at most one mapping goes.
   */
  method UnmapMemory(host: List, device: List, task: nat, addr: nat) returns (ok: bool, ghost k: nat)
    requires host.Valid() && device.Valid() && host.Nodes() !! device.Nodes()
    modifies host.Nodes(), device.Nodes()
    ensures host.Valid() && device.Valid()
    ensures !ok <==> NoneMatches(old(host.elems), task, addr) && NoneMatches(old(device.elems), task, addr)
    ensures !ok ==> host.elems == old(host.elems) && device.elems == old(device.elems)
    ensures !ok ==> host.freed == old(host.freed) && device.freed == old(device.freed)
    ensures !ok ==> host.released == old(host.released) && device.released == old(device.released)
    ensures !NoneMatches(old(host.elems), task, addr) ==>
              && ok && FirstMatch(old(host.elems), task, addr, k)
              && device.elems == old(device.elems) && device.freed == old(device.freed) && device.released == old(device.released)
              && host.elems == Without(old(host.elems), k) && host.freed == old(host.freed) + [old(host.elems)[k]]
              && host.released == old(host.released) + Releasing([old(host.elems)[k]])
    ensures NoneMatches(old(host.elems), task, addr) && !NoneMatches(old(device.elems), task, addr) ==>
              && ok && FirstMatch(old(device.elems), task, addr, k)
              && host.elems == old(host.elems) && host.freed == old(host.freed) && host.released == old(host.released)
              && device.elems == Without(old(device.elems), k) && device.freed == old(device.freed) + [old(device.elems)[k]]
              && device.released == old(device.released) + Releasing([old(device.elems)[k]])
  {
    var m;
    m, k := MapFind(host, task, addr);
    if m != null {
      UnmapAndRelease(m, host, k);
      return true, k;
    }
    m, k := MapFind(device, task, addr);
    if m != null {
      UnmapAndRelease(m, device, k);
      return true, k;
    }
    return false, k;
  }
}
