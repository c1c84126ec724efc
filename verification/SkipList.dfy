/** The skip list of skipList.h: towers of forward pointers, spliced in place. Keys and values have one
    type, because load_file only compiles when a key can stand for a value. */
module SkipLists {
  import opened SkipLevels
  import opened SkipKeys

  class Node<T> {
    const key: T
    const value: T
    const level: nat
    const forward: array<Node?<T>>

    constructor (k: T, v: T, level: nat)
      ensures key == k && value == v && this.level == level
      ensures fresh(forward) && forward.Length == level + 1
      ensures forall i :: 0 <= i <= level ==> forward[i] == null
    {
      key := k;
      value := v;
      this.level := level;
      forward := new Node?<T>[level + 1](_ => null);
    }
  }

  function Levels<T>(spine: seq<Node<T>>): (levels: seq<nat>)
    ensures |levels| == |spine|
  {
    seq(|spine|, i requires 0 <= i < |spine| => spine[i].level)
  }

  /** The keys and values of level 0, in order; spine[0] is the header. */
  function PairsOf<T>(spine: seq<Node<T>>): (ps: Pairs<T>)
    requires |spine| >= 1
    ensures |ps| == |spine| - 1
  {
    seq(|spine| - 1, i requires 0 <= i < |spine| - 1 => (spine[i + 1].key, spine[i + 1].value))
  }

  function NodeAt<T>(spine: seq<Node<T>>, q: nat): Node?<T> {
    if q < |spine| then spine[q] else null
  }

  class SkipList<T(==, !new)> {
    const less: Order<T>
    const maxLevel: nat
    const header: Node<T>
    var level: nat
    var count: nat
    // level 0, header first, and every object of the structure
    ghost var spine: seq<Node<T>>
    ghost var repr: set<object>

    /** All towers are in the footprint and share nothing. */
    ghost predicate Separate()
      reads this
    {
      && |spine| >= 1 && spine[0] == header
      && this in repr
      && (forall p :: 0 <= p < |spine| ==>
            spine[p] in repr && spine[p].forward in repr && spine[p].forward.Length == spine[p].level + 1)
      && (forall p, q :: 0 <= p < q < |spine| ==> spine[p] != spine[q] && spine[p].forward != spine[q].forward)
    }

    /** Each level is the part of level 0 whose towers reach it. */
    ghost predicate Linked()
      requires Separate()
      reads this, repr
    {
      forall p, i :: 0 <= p < |spine| && 0 <= i <= spine[p].level ==>
        spine[p].forward[i] == NodeAt(spine, NextAt(Levels(spine), p, i))
    }

    /** Levels above the current one are empty, and the current one is not unless it is 0. */
    ghost predicate Heights()
      requires Separate()
      reads this
    {
      && header.level == maxLevel && level <= maxLevel
      && (forall p :: 1 <= p < |spine| ==> spine[p].level <= level)
      && (level > 0 ==> exists p :: 1 <= p < |spine| && spine[p].level == level)
    }

    ghost predicate Valid()
      reads this, repr
      ensures Valid() ==> this in repr
    {
      && Separate() && Linked() && Heights()
      && StrictOrder(less) && Sorted(less, PairsOf(spine))
      && count == |spine| - 1
    }

    /** What the list stores. */
    ghost function Content(): Pairs<T>
      requires |spine| >= 1
      reads this
    {
      PairsOf(spine)
    }

    ghost function Map(): map<T, T>
      requires |spine| >= 1
      reads this
    {
      MapOf(PairsOf(spine))
    }

    constructor (less: Order<T>, maxLevel: nat, key: T, value: T)
      requires StrictOrder(less)
      ensures Valid() && fresh(repr) && Map() == map[] && this.less == less && this.maxLevel == maxLevel
    {
      this.less := less;
      this.maxLevel := maxLevel;
      var h := new Node(key, value, maxLevel);
      header := h;
      level, count := 0, 0;
      spine := [h];
      new;
      repr := {this, h, h.forward};
      assert Levels(spine) == [maxLevel];
    }

    /** The height drawn for a new tower: 1 or more, up to the maximum. */
    function Drawn(heads: nat): nat {
      if 1 + heads < maxLevel then 1 + heads else maxLevel
    }

    /** rand() is odd `heads` times before it is even. */
    method GetRandomLevel(heads: nat) returns (k: nat)
      ensures k == Drawn(heads)
      ensures k <= maxLevel && (maxLevel > 0 ==> k >= 1) && (k < maxLevel ==> k == 1 + heads) && k <= 1 + heads
    {
      k := 1;
      var tosses := 0;
      while tosses < heads
        invariant k == 1 + tosses <= 1 + heads
      {
        k := k + 1;
        tosses := tosses + 1;
      }
      k := if k < maxLevel then k else maxLevel;
    }

    /** Tower u is the last before the key on level i. */
    ghost predicate LastBefore(key: T, u: nat, i: nat)
      reads this
    {
      LastIn(less, spine, key, u, i)
    }

    static ghost predicate LastIn(less: Order<T>, ns: seq<Node<T>>, key: T, u: nat, i: nat) {
      && u < |ns| && i <= ns[u].level
      && (u == 0 || less(ns[u].key, key))
      && var q := NextAt(Levels(ns), u, i); q == |ns| || !less(ns[q].key, key)
    }

    method Search(key: T) returns (found: bool, value: T)
      requires Valid()
      ensures found <==> key in Map()
      ensures found ==> value == Map()[key]
    {
      var current := header;
      ghost var c: nat := 0;
      var i: int := level;
      while i >= 0
        invariant -1 <= i <= level
        invariant c < |spine| && current == spine[c] && i <= spine[c].level
        invariant c == 0 || less(spine[c].key, key)
        invariant i < level ==> LastBefore(key, c, i + 1)
      {
        while current.forward[i] != null && less(current.forward[i].key, key)
          invariant c < |spine| && current == spine[c] && i <= spine[c].level
          invariant c == 0 || less(spine[c].key, key)
          decreases |spine| - c
        {
          c := NextAt(Levels(spine), c, i);
          current := current.forward[i];
        }
        i := i - 1;
      }
      SplitFound(key, c);
      Found(less, Content(), key, c);
      value := header.value;
      var next := current.forward[0];
      found := next != null && next.key == key;
      if found {
        value := next.value;
      }
    }

    /** Where the walk ends on level 0 is where the key belongs. */
    lemma SplitFound(key: T, c: nat)
      requires Valid() && LastBefore(key, c, 0)
      ensures SplitsAt(less, Content(), key, c)
      ensures forall p :: 1 <= p <= c ==> less(spine[p].key, key)
    {
      forall p | 1 <= p <= c ensures less(spine[p].key, key) {
        assert spine[p].key == Content()[p - 1].0;
        if p < c { Transitive(less, Content()[p - 1].0, Content()[c - 1].0, key); }
      }
    }

    /** The inner loop of the walk: along level i while the next key is smaller. */
    method WalkLevel(key: T, from: Node<T>, ghost c: nat, i: nat) returns (last: Node<T>, ghost u: nat)
      requires Valid() && c < |spine| && from == spine[c] && i <= from.level
      requires c == 0 || less(from.key, key)
      ensures c <= u < |spine| && last == spine[u] && LastIn(less, spine, key, u, i)
    {
      last, u := from, c;
      while last.forward[i] != null && less(last.forward[i].key, key)
        invariant c <= u < |spine| && last == spine[u] && i <= last.level
        invariant u == 0 || less(last.key, key)
        decreases |spine| - u
      {
        u := NextAt(Levels(spine), u, i);
        last := last.forward[i];
      }
    }

    /** Level j of the walk ended at tower u. */
    static ghost predicate Noted(less: Order<T>, ns: seq<Node<T>>, key: T, u: nat, j: nat, n: Node?<T>) {
      LastIn(less, ns, key, u, j) && n == ns[u]
    }

    /** The levels above i are done; the walk has come to tower c. */
    static ghost predicate Met(less: Order<T>, ns: seq<Node<T>>, key: T, us: seq<nat>, update: array<Node?<T>>,
                               i: int, c: nat)
      reads update
    {
      && |us| <= update.Length && -1 <= i
      && (forall j {:trigger us[j]} :: i < j < |us| ==> Noted(less, ns, key, us[j], j, update[j]) && us[j] <= c)
    }

    /** One level of the walk: where it ends is noted. */
    method NoteLevel(key: T, from: Node<T>, ghost c: nat, i: nat, update: array<Node?<T>>, ghost us: seq<nat>)
      returns (last: Node<T>, ghost u: nat)
      requires Valid() && c < |spine| && from == spine[c] && i <= from.level && (c == 0 || less(from.key, key))
      requires update !in repr && i < |us| && Met(less, spine, key, us, update, i, c)
      modifies update
      ensures u < |spine| && last == spine[u] && i <= last.level && (u == 0 || less(last.key, key))
      ensures Met(less, spine, key, us[i := u], update, i - 1, u) && Valid()
    {
      last, u := WalkLevel(key, from, c, i);
      update[i] := last;
    }

    /** The towers whose pointers an update has to change: on every level the last before the key. */
    method WalkTo(key: T) returns (update: array<Node?<T>>, ghost us: seq<nat>)
      requires Valid()
      ensures fresh(update) && update.Length == maxLevel + 1 && |us| == level + 1
      ensures forall j :: 0 <= j <= level ==> LastBefore(key, us[j], j) && us[j] <= us[0] && update[j] == spine[us[j]]
    {
      update := new Node?<T>[maxLevel + 1](_ => null);
      us := seq(level + 1, _ => 0);
      var current := header;
      ghost var c: nat := 0;
      var i: int := level;
      while i >= 0
        invariant Valid() && update !in repr && -1 <= i <= level && |us| == level + 1 && c < |spine|
        invariant current == spine[c]
        invariant i <= current.level && (c == 0 || less(current.key, key)) && (i < level ==> us[i + 1] == c)
        invariant Met(less, spine, key, us, update, i, c)
      {
        ghost var u;
        current, u := NoteLevel(key, current, c, i, update, us);
        us, c := us[i := u], u;
        i := i - 1;
      }
    }

    /** Pointers to m or beyond leave the last tower before the key. */
    lemma JumpsPast(key: T, u: nat, i: nat, c: nat)
      requires Valid() && LastBefore(key, c, 0) && LastBefore(key, u, i) && u <= c
      ensures NextAt(Levels(spine), u, i) >= c + 1
    {
      SplitFound(key, c);
    }

    /** Every pointer of the towers of `before` leads where it led, except that those at us lead to
        the new node on its levels. */
    ghost predicate Rewired(before: seq<Node<T>>, node: Node?<T>, us: seq<nat>, upTo: nat)
      reads before, set p | 0 <= p < |before| :: before[p].forward
    {
      && (forall p :: 0 <= p < |before| ==> before[p].forward.Length == before[p].level + 1)
      && upTo <= |us|
      && forall p, j :: 0 <= p < |before| && 0 <= j <= before[p].level ==>
           before[p].forward[j] == if j < upTo && p == us[j] then node else NodeAt(before, NextAt(Levels(before), p, j))
    }

    ghost predicate Pointing(before: seq<Node<T>>, node: Node<T>, us: seq<nat>, upTo: nat)
      reads node.forward
    {
      && node.forward.Length == node.level + 1 && upTo <= |us| && upTo <= node.level + 1
      && forall j :: 0 <= j < upTo ==>
           us[j] < |before| && node.forward[j] == NodeAt(before, NextAt(Levels(before), us[j], j))
    }

    ghost predicate Predecessors(before: seq<Node<T>>, m: nat, us: seq<nat>, height: nat) {
      && 1 <= m <= |before| && |us| > height
      && forall j :: 0 <= j <= height ==>
           us[j] < m && j <= before[us[j]].level && NextAt(Levels(before), us[j], j) >= m
    }

    /** Where a pointer leads once a tower is put at m: to the new tower if it jumps across m low enough. */
    static lemma NextMoves(before: seq<Node<T>>, m: nat, node: Node<T>, p: nat, j: nat)
      requires 1 <= m <= |before| && p < |before|
      ensures var after := before[..m] + [node] + before[m..];
              NodeAt(after, NextAt(Levels(after), if p < m then p else p + 1, j))
              == if p < m && j <= node.level && NextAt(Levels(before), p, j) >= m then node
                 else NodeAt(before, NextAt(Levels(before), p, j))
    {
      var after := before[..m] + [node] + before[m..];
      assert Levels(after) == Inserted(Levels(before), m, node.level);
      InsertNext(Levels(before), m, node.level, p, j);
    }

    static lemma NextOwn(before: seq<Node<T>>, m: nat, node: Node<T>, u: nat, j: nat)
      requires u < m <= |before| && NextAt(Levels(before), u, j) >= m
      ensures var after := before[..m] + [node] + before[m..];
              NodeAt(after, NextAt(Levels(after), m, j)) == NodeAt(before, NextAt(Levels(before), u, j))
    {
      var after := before[..m] + [node] + before[m..];
      assert Levels(after) == Inserted(Levels(before), m, node.level);
      InsertOwn(Levels(before), m, node.level, u, j);
    }

    lemma LinkedAfterInsert(before: seq<Node<T>>, m: nat, node: Node<T>, us: seq<nat>)
      requires Predecessors(before, m, us, node.level)
      requires spine == before[..m] + [node] + before[m..] && Separate()
      requires Rewired(before, node, us, node.level + 1) && Pointing(before, node, us, node.level + 1)
      ensures Linked()
    {
      forall p, j | 0 <= p < |spine| && 0 <= j <= spine[p].level
        ensures spine[p].forward[j] == NodeAt(spine, NextAt(Levels(spine), p, j))
      {
        if p == m {
          assert us[j] < m;
          NextOwn(before, m, node, us[j], j);
        } else {
          CellAfterInsert(before, m, node, us, if p < m then p else p - 1, j);
        }
      }
    }

    lemma CellAfterInsert(before: seq<Node<T>>, m: nat, node: Node<T>, us: seq<nat>, p: nat, j: nat)
      requires Predecessors(before, m, us, node.level) && Rewired(before, node, us, node.level + 1)
      requires p < |before| && j <= before[p].level
      ensures var after := before[..m] + [node] + before[m..];
              before[p].forward[j] == NodeAt(after, NextAt(Levels(after), if p < m then p else p + 1, j))
    {
      NextMoves(before, m, node, p, j);
      if p < m && j <= node.level && NextAt(Levels(before), p, j) >= m {
        OnePredecessor(Levels(before), m, us[j], p, j);
      }
    }

    method LinkLevel(node: Node<T>, update: array<Node?<T>>, ghost us: seq<nat>, i: nat)
      requires Separate() && i <= node.level && Rewired(spine, node, us, i) && Pointing(spine, node, us, i)
      requires node.forward !in repr && update.Length > i && i < |us| && update !in repr && update != node.forward
      requires us[i] < |spine| && i <= spine[us[i]].level && update[i] == spine[us[i]]
      modifies repr - {this}, node.forward
      ensures Rewired(spine, node, us, i + 1) && Pointing(spine, node, us, i + 1)
    {
      node.forward[i] := update[i].forward[i];
      update[i].forward[i] := node;
    }

    method LinkAll(node: Node<T>, update: array<Node?<T>>, ghost us: seq<nat>, ghost m: nat)
      requires Separate() && Linked() && Predecessors(spine, m, us, node.level)
      requires node.forward !in repr && node.forward.Length == node.level + 1
      requires update !in repr && update != node.forward && update.Length > node.level
      requires forall j :: 0 <= j <= node.level ==> update[j] == spine[us[j]]
      modifies repr - {this}, node.forward
      ensures Rewired(spine, node, us, node.level + 1) && Pointing(spine, node, us, node.level + 1)
    {
      var i := 0;
      while i <= node.level
        invariant 0 <= i <= node.level + 1
        invariant forall j :: 0 <= j <= node.level ==> update[j] == spine[us[j]]
        invariant Rewired(spine, node, us, i) && Pointing(spine, node, us, i)
      {
        LinkLevel(node, update, us, i);
        i := i + 1;
      }
    }

    method SpliceIn(node: Node<T>, update: array<Node?<T>>, ghost us: seq<nat>, ghost m: nat)
      requires Separate() && Linked() && Predecessors(spine, m, us, node.level)
      requires node !in repr && node.forward !in repr && node.forward.Length == node.level + 1
      requires update !in repr && update != node.forward && update.Length > node.level
      requires forall j :: 0 <= j <= node.level ==> update[j] == spine[us[j]]
      modifies this`spine, this`repr, repr - {this}, node.forward
      ensures spine == old(spine)[..m] + [node] + old(spine)[m..]
      ensures repr == old(repr) + {node, node.forward}
      ensures Separate() && Linked()
    {
      LinkAll(node, update, us, m);
      ghost var before := spine;
      spine := before[..m] + [node] + before[m..];
      repr := repr + {node, node.forward};
      LinkedAfterInsert(before, m, node, us);
    }

    lemma NothingAbove(j: nat)
      requires Valid() && j > level
      ensures NextAt(Levels(spine), 0, j) == |spine|
    {
      NextIs(Levels(spine), 0, j, |spine|);
    }

    ghost function Rows(us: seq<nat>, height: nat): seq<nat> {
      us + seq(if height + 1 > |us| then height + 1 - |us| else 0, _ => 0)
    }

    lemma RowsPrecede(key: T, us: seq<nat>, height: nat)
      requires Valid() && |us| == level + 1 && height <= maxLevel
      requires forall j :: 0 <= j <= level ==> LastBefore(key, us[j], j) && us[j] <= us[0]
      ensures Predecessors(spine, us[0] + 1, Rows(us, height), height)
    {
      forall j | 0 <= j <= height
        ensures Rows(us, height)[j] < us[0] + 1 && j <= spine[Rows(us, height)[j]].level
        ensures NextAt(Levels(spine), Rows(us, height)[j], j) >= us[0] + 1
      {
        if j <= level { JumpsPast(key, us[j], j, us[0]); } else { NothingAbove(j); }
      }
    }

    /** On levels that were empty so far the header comes before the key. */
    method RaiseTo(h: nat, update: array<Node?<T>>, ghost us: seq<nat>)
      requires Valid() && h <= maxLevel && update !in repr && update.Length == maxLevel + 1
      requires |us| == level + 1 && forall j :: 0 <= j <= level ==> us[j] < |spine| && update[j] == spine[us[j]]
      modifies this`level, update
      ensures level == if h > old(level) then h else old(level)
      ensures forall j :: 0 <= j <= h ==> Rows(us, h)[j] < |spine| && update[j] == spine[Rows(us, h)[j]]
      ensures Separate() && Linked()
    {
      if h > level {
        var i := level + 1;
        while i < h + 1
          invariant level + 1 <= i <= h + 1 && level == old(level)
          invariant forall j :: 0 <= j < i ==> update[j] == spine[Rows(us, h)[j]]
        {
          update[i] := header;
          i := i + 1;
        }
        level := h;
      }
    }

    lemma AddedPairs(before: seq<Node<T>>, m: nat, node: Node<T>)
      requires 1 <= m <= |before|
      ensures PairsOf(before[..m] + [node] + before[m..]) == Insert(PairsOf(before), m - 1, node.key, node.value)
    {}

    lemma HeightsAfterInsert(before: seq<Node<T>>, m: nat, node: Node<T>, was: nat)
      requires 1 <= m <= |before| && spine == before[..m] + [node] + before[m..] && Separate()
      requires header.level == maxLevel && level == (if node.level > was then node.level else was) <= maxLevel
      requires forall p :: 1 <= p < |before| ==> before[p].level <= was
      requires was > 0 ==> exists p :: 1 <= p < |before| && before[p].level == was
      ensures Heights()
    {
      assert spine[m] == node;
      if level > 0 && node.level < level {
        var p :| 1 <= p < |before| && before[p].level == was;
        assert spine[if p < m then p else p + 1].level == level;
      }
      forall p | 1 <= p < |spine| ensures spine[p].level <= level {
        if p != m { assert spine[p] == before[if p < m then p else p - 1]; }
      }
    }

    lemma ValidAfterInsert(before: seq<Node<T>>, m: nat, node: Node<T>, was: nat)
      requires Separate() && Linked() && StrictOrder(less)
      requires 1 <= m <= |before| && spine == before[..m] + [node] + before[m..]
      requires header.level == maxLevel && level == (if node.level > was then node.level else was) <= maxLevel
      requires forall p :: 1 <= p < |before| ==> before[p].level <= was
      requires was > 0 ==> exists p :: 1 <= p < |before| && before[p].level == was
      requires Sorted(less, PairsOf(before)) && SplitsAt(less, PairsOf(before), node.key, m - 1)
      requires node.key !in MapOf(PairsOf(before)) && count == |before|
      ensures Valid() && Map() == MapOf(PairsOf(before))[node.key := node.value]
    {
      AddedPairs(before, m, node);
      InsertMap(less, PairsOf(before), node.key, node.value, m - 1);
      HeightsAfterInsert(before, m, node, was);
    }

    /** The list has one tower more, with this key, value and height; the other towers are the same. */
    static ghost predicate Added(before: seq<Node<T>>, after: seq<Node<T>>, key: T, value: T, h: nat) {
      exists m: nat :: 1 <= m <= |before| && AddedAt(before, after, m, key, value, h)
    }

    static ghost predicate AddedAt(before: seq<Node<T>>, after: seq<Node<T>>, m: nat, key: T, value: T, h: nat)
      requires m <= |before|
    {
      && |after| == |before| + 1 && after == before[..m] + [after[m]] + before[m..]
      && after[m].key == key && after[m].value == value && after[m].level == h
    }

    /** The list has one tower less, the one with this key; the other towers are the same. */
    static ghost predicate TakenOut(before: seq<Node<T>>, after: seq<Node<T>>, key: T) {
      exists m: nat {:trigger before[m]} :: 1 <= m < |before| && before[m].key == key
          && after == before[..m] + before[m + 1..]
    }

    /** Everything is prepared for a tower of height h behind tower m - 1; only the levels are raised. */
    ghost predicate Ready(key: T, h: nat, update: array<Node?<T>>, us: seq<nat>, m: nat, was: nat)
      reads this, repr, update
    {
      && Separate() && Linked() && StrictOrder(less) && Predecessors(spine, m, us, h)
      && update !in repr && update.Length > h
      && (forall j :: 0 <= j <= h ==> update[j] == spine[us[j]])
      && header.level == maxLevel && level == (if h > was then h else was) <= maxLevel
      && (forall p :: 1 <= p < |spine| ==> spine[p].level <= was)
      && (was > 0 ==> exists p :: 1 <= p < |spine| && spine[p].level == was)
      && Sorted(less, Content()) && SplitsAt(less, Content(), key, m - 1)
      && key !in Map() && count == |spine| - 1
    }

    method PlaceTower(key: T, value: T, h: nat, update: array<Node?<T>>, ghost us: seq<nat>, ghost m: nat,
                      ghost was: nat)
      requires Ready(key, h, update, us, m, was)
      modifies repr
      ensures Valid() && fresh(repr - old(repr)) && level == old(level)
      ensures Map() == old(Map())[key := value]
      ensures Added(old(spine), spine, key, value, h)
    {
      var node := new Node(key, value, h);
      SpliceIn(node, update, us, m);
      count := count + 1;
      ValidAfterInsert(old(spine), m, node, was);
      assert spine[m] == node && AddedAt(old(spine), spine, m, key, value, h);
    }

    method MakeReady(key: T, h: nat, update: array<Node?<T>>, ghost us: seq<nat>)
      requires Valid() && h <= maxLevel && |us| == level + 1
      requires update !in repr && update.Length == maxLevel + 1
      requires forall j :: 0 <= j <= level ==> LastBefore(key, us[j], j) && us[j] <= us[0] && update[j] == spine[us[j]]
      requires SplitsAt(less, Content(), key, us[0]) && key !in Map()
      modifies this`level, update
      ensures Ready(key, h, update, Rows(us, h), us[0] + 1, old(level))
    {
      RowsPrecede(key, us, h);
      RaiseTo(h, update, us);
    }

    method AddTower(key: T, value: T, h: nat, update: array<Node?<T>>, ghost us: seq<nat>)
      requires Valid() && h <= maxLevel && |us| == level + 1
      requires update !in repr && update.Length == maxLevel + 1
      requires forall j :: 0 <= j <= level ==> LastBefore(key, us[j], j) && us[j] <= us[0] && update[j] == spine[us[j]]
      requires SplitsAt(less, Content(), key, us[0]) && key !in Map()
      modifies repr, update
      ensures Valid() && fresh(repr - old(repr)) && level == if h > old(level) then h else old(level)
      ensures Map() == old(Map())[key := value]
      ensures Added(old(spine), spine, key, value, h)
    {
      ghost var was := level;
      MakeReady(key, h, update, us);
      PlaceTower(key, value, h, update, Rows(us, h), us[0] + 1, was);
    }

    /** The walk, and the tower after it: the one with the key if there is one. */
    method Locate(key: T) returns (update: array<Node?<T>>, current: Node?<T>, ghost us: seq<nat>)
      requires Valid()
      ensures fresh(update) && update.Length == maxLevel + 1 && |us| == level + 1
      ensures forall j :: 0 <= j <= level ==> LastBefore(key, us[j], j) && us[j] <= us[0] && update[j] == spine[us[j]]
      ensures SplitsAt(less, Content(), key, us[0]) && current == NodeAt(spine, us[0] + 1)
      ensures key in Map() <==> current != null && current.key == key
    {
      update, us := WalkTo(key);
      SplitFound(key, us[0]);
      Found(less, Content(), key, us[0]);
      current := update[0].forward[0];
    }

    /** Adds a key that is not there; answers 1 and changes nothing when it is. */
    method InsertElement(key: T, value: T, heads: nat) returns (present: int)
      requires Valid()
      modifies repr
      ensures Valid() && fresh(repr - old(repr))
      ensures present == if key in old(Map()) then 1 else 0
      ensures level == if key !in old(Map()) && Drawn(heads) > old(level) then Drawn(heads) else old(level)
      ensures Map() == if key in old(Map()) then old(Map()) else old(Map())[key := value]
      ensures if key in old(Map()) then spine == old(spine) && count == old(count)
              else Added(old(spine), spine, key, value, Drawn(heads))
    {
      var update, current; ghost var us;
      update, current, us := Locate(key);
      if current != null && current.key == key {
        return 1;
      }
      var randomLevel := GetRandomLevel(heads);
      AddTower(key, value, randomLevel, update, us);
      return 0;
    }

    // -------------------------------------------------------------- deletion

    /** The list without tower m. */
    ghost function Without(m: nat): seq<Node<T>>
      requires m < |spine|
      reads this
    {
      spine[..m] + spine[m + 1..]
    }

    /** Where cell j of tower p leads once the levels below upTo bypass tower m. */
    static ghost predicate CellBypassed(before: seq<Node<T>>, m: nat, us: seq<nat>, upTo: nat, p: nat, j: nat)
      requires m < |before| && upTo <= |us| && p < |before| && before[p].forward.Length == before[p].level + 1
      reads before[p].forward
    {
      j <= before[p].level ==>
        before[p].forward[j] == if j < upTo && p == us[j] then NodeAt(before, NextAt(Levels(before), m, j))
                                else NodeAt(before, NextAt(Levels(before), p, j))
    }

    /** On the levels below upTo the pointers to tower m lead where its own pointers lead. */
    ghost predicate Bypassed(before: seq<Node<T>>, m: nat, us: seq<nat>, upTo: nat)
      reads set p | 0 <= p < |before| :: before[p].forward
    {
      && (forall p :: 0 <= p < |before| ==> before[p].forward.Length == before[p].level + 1)
      && m < |before| && upTo <= |us|
      && forall p: nat, j: nat {:trigger CellBypassed(before, m, us, upTo, p, j)} ::
           p < |before| ==> CellBypassed(before, m, us, upTo, p, j)
    }

    method UnlinkLevel(ghost m: nat, current: Node<T>, update: array<Node?<T>>, ghost us: seq<nat>, i: nat)
      requires Separate() && Bypassed(spine, m, us, i) && i < |us| && current == spine[m] && i <= current.level
      requires i < update.Length && us[i] < m && i <= spine[us[i]].level && update[i] == spine[us[i]]
      modifies repr - {this}
      ensures Bypassed(spine, m, us, i + 1)
    {
      assert CellBypassed(spine, m, us, i, m, i);
      var to := current.forward[i];
      label Before:
      update[i].forward[i] := to;
      forall p: nat, j: nat {:trigger CellBypassed(spine, m, us, i + 1, p, j)} | p < |spine|
        ensures CellBypassed(spine, m, us, i + 1, p, j)
      {
        assert old@Before(CellBypassed(spine, m, us, i, p, j));
      }
    }

    /** One turn of the loop: false if nothing points to the tower on level i. */
    method UnlinkAt(ghost m: nat, current: Node<T>, update: array<Node?<T>>, ghost us: seq<nat>, i: nat)
        returns (pointed: bool)
      requires Separate() && 1 <= m < |spine| && current == spine[m] && i <= level < |us| && Bypassed(spine, m, us, i)
      requires i < update.Length && us[i] < m && i <= spine[us[i]].level && update[i] == spine[us[i]]
      requires NextAt(Levels(spine), us[i], i) >= m
      modifies repr - {this}
      ensures pointed <==> i <= current.level
      ensures Bypassed(spine, m, us, if pointed then i + 1 else i)
    {
      PointsToTower(m, us[i], i);
      assert CellBypassed(spine, m, us, i, us[i], i);
      pointed := update[i].forward[i] == current;
      if pointed {
        UnlinkLevel(m, current, update, us, i);
      }
    }

    lemma NothingBypassed(m: nat, us: seq<nat>)
      requires Separate() && Linked() && m < |spine|
      ensures Bypassed(spine, m, us, 0)
    {
      forall p: nat, j: nat {:trigger CellBypassed(spine, m, us, 0, p, j)} | p < |spine|
        ensures CellBypassed(spine, m, us, 0, p, j)
      {}
    }

    /** Stops at the first level on which nothing points to the tower. */
    method UnlinkAll(ghost m: nat, current: Node<T>, update: array<Node?<T>>, ghost us: seq<nat>)
      requires Separate() && Bypassed(spine, m, us, 0) && 1 <= m < |spine| && current == spine[m]
      requires Predecessors(spine, m, us, level) && current.level <= level < update.Length && update !in repr
      requires forall j :: 0 <= j <= level ==> update[j] == spine[us[j]]
      modifies repr - {this}
      ensures Bypassed(spine, m, us, current.level + 1)
    {
      var i := 0;
      while i <= level
        invariant 0 <= i <= current.level + 1 && Separate()
        invariant forall j :: 0 <= j <= level ==> update[j] == spine[us[j]]
        invariant Bypassed(spine, m, us, i)
      {
        var pointed := UnlinkAt(m, current, update, us, i);
        if !pointed {
          break;
        }
        i := i + 1;
      }
    }

    lemma PointsToTower(m: nat, u: nat, i: nat)
      requires Separate() && u < m < |spine| && NextAt(Levels(spine), u, i) >= m
      ensures NodeAt(spine, NextAt(Levels(spine), u, i)) == spine[m] <==> i <= spine[m].level
    {
      assert Levels(spine)[m] == spine[m].level;
    }

    /** Where the next tower of the remaining list is in the old list. */
    static lemma NextAfterDelete(before: seq<Node<T>>, m: nat, u: nat, p: nat, j: nat)
      requires 1 <= m < |before| && p < |before| - 1
      requires j <= before[m].level ==> u < m && j <= before[u].level && NextAt(Levels(before), u, j) >= m
      requires var rest := before[..m] + before[m + 1..]; j <= rest[p].level
      ensures var q := NextAt(Levels(before[..m] + before[m + 1..]), p, j);
              var p' := if p < m then p else p + 1;
              NextAt(Levels(before), if j <= before[m].level && p' == u then m else p', j) == if q < m then q else q + 1
    {
      var rest := before[..m] + before[m + 1..];
      LevelsWithout(before, m);
      assert Levels(rest)[p] == rest[p].level;
      if j <= before[m].level { assert Levels(rest)[u] == before[u].level; }
      RemoveNext(Levels(rest), m, before[m].level, u, p, j);
    }

    /** The pointer of tower p of the remaining list, in terms of the old list. */
    static lemma PointerAfterDelete(before: seq<Node<T>>, m: nat, u: nat, p: nat, j: nat)
      requires 1 <= m < |before| && p < |before| - 1
      requires j <= before[m].level ==> u < m && j <= before[u].level && NextAt(Levels(before), u, j) >= m
      requires var rest := before[..m] + before[m + 1..]; j <= rest[p].level
      ensures var rest := before[..m] + before[m + 1..];
              var p' := if p < m then p else p + 1;
              NodeAt(rest, NextAt(Levels(rest), p, j))
              == NodeAt(before, NextAt(Levels(before), if j <= before[m].level && p' == u then m else p', j))
    {
      NextAfterDelete(before, m, u, p, j);
      NodeWithout(before, m, NextAt(Levels(before[..m] + before[m + 1..]), p, j));
    }

    static lemma LevelsWithout(before: seq<Node<T>>, m: nat)
      requires m < |before|
      ensures Levels(before) == Inserted(Levels(before[..m] + before[m + 1..]), m, before[m].level)
    {}

    static lemma NodeWithout(before: seq<Node<T>>, m: nat, q: nat)
      requires m < |before|
      ensures NodeAt(before[..m] + before[m + 1..], q) == NodeAt(before, if q < m then q else q + 1)
    {}

    lemma CellAfterDelete(m: nat, us: seq<nat>, p: nat, j: nat)
      requires Separate() && 1 <= m < |spine| && Bypassed(spine, m, us, spine[m].level + 1)
      requires Predecessors(spine, m, us, spine[m].level)
      requires p < |spine| - 1 && j <= Without(m)[p].level
      ensures Without(m)[p].forward[j] == NodeAt(Without(m), NextAt(Levels(Without(m)), p, j))
    {
      var p' := if p < m then p else p + 1;
      assert Without(m)[p] == spine[p'] && CellBypassed(spine, m, us, spine[m].level + 1, p', j);
      if j <= spine[m].level {
        PointerAfterDelete(spine, m, us[j], p, j);
      } else {
        PointerAfterDelete(spine, m, 0, p, j);
      }
    }

    static lemma PairsWithout(before: seq<Node<T>>, m: nat)
      requires 1 <= m < |before|
      ensures PairsOf(before[..m] + before[m + 1..]) == Remove(PairsOf(before), m - 1)
    {}

    lemma WithoutSorted(m: nat)
      requires Valid() && 1 <= m < |spine|
      ensures Sorted(less, PairsOf(Without(m))) && MapOf(PairsOf(Without(m))) == Map() - {spine[m].key}
    {
      RemoveMap(less, Content(), m - 1);
      PairsWithout(spine, m);
    }

    method DropTower(ghost m: nat, current: Node<T>, update: array<Node?<T>>, ghost us: seq<nat>)
      requires Separate() && Linked() && 1 <= m < |spine| && current == spine[m] && current.level <= level
      requires Predecessors(spine, m, us, level) && update !in repr && update.Length > level
      requires forall j :: 0 <= j <= level ==> update[j] == spine[us[j]]
      modifies repr
      ensures repr == old(repr) && spine == old(Without(m)) && level == old(level) && count == old(count)
      ensures Separate() && Linked()
    {
      NothingBypassed(m, us);
      UnlinkAll(m, current, update, us);
      Relist(m, current, us);
    }

    /** Level 0 without tower m, once all pointers lead past it. */
    ghost method Relist(m: nat, current: Node<T>, us: seq<nat>)
      requires Separate() && 1 <= m < |spine| && current == spine[m] && current.level <= level
      requires Bypassed(spine, m, us, current.level + 1) && Predecessors(spine, m, us, level)
      modifies this`spine
      ensures spine == old(Without(m)) && Separate() && Linked()
    {
      ghost var rest := Without(m);
      forall p: nat, j: nat | p < |rest| && j <= rest[p].level
        ensures rest[p].forward[j] == NodeAt(rest, NextAt(Levels(rest), p, j))
      {
        CellAfterDelete(m, us, p, j);
      }
      spine := rest;
    }

    /** Empty levels are given up. */
    method LowerLevel()
      requires Separate() && Linked() && header.level == maxLevel && level <= maxLevel
      requires forall p :: 1 <= p < |spine| ==> spine[p].level <= level
      modifies this`level
      ensures Separate() && Linked() && Heights()
    {
      while level > 0 && header.forward[level] == null
        invariant level <= maxLevel && Separate() && Linked()
        invariant forall p :: 1 <= p < |spine| ==> spine[p].level <= level
      {
        assert NextAt(Levels(spine), 0, level) == |spine|;
        assert forall p :: 1 <= p < |spine| ==> spine[p].level == Levels(spine)[p] < level;
        level := level - 1;
      }
      if level > 0 {
        ghost var q := NextAt(Levels(spine), 0, level);
        assert spine[q].level == level;
      }
    }

    lemma AllPrecede(key: T, us: seq<nat>)
      requires Valid() && |us| == level + 1 && us[0] + 1 < |spine|
      requires forall j :: 0 <= j <= level ==> LastBefore(key, us[j], j) && us[j] <= us[0]
      ensures Predecessors(spine, us[0] + 1, us, level)
    {
      forall j | 0 <= j <= level ensures NextAt(Levels(spine), us[j], j) >= us[0] + 1 {
        JumpsPast(key, us[j], j, us[0]);
      }
    }

    /** The list without the tower, and without the levels that are now empty. */
    method TakeOut(ghost m: nat, current: Node<T>, update: array<Node?<T>>, ghost us: seq<nat>)
      requires Valid() && 1 <= m < |spine| && current == spine[m]
      requires Predecessors(spine, m, us, level) && update !in repr && update.Length > level
      requires forall j :: 0 <= j <= level ==> update[j] == spine[us[j]]
      modifies repr
      ensures repr == old(repr) && spine == old(Without(m)) && count == old(count)
      ensures Separate() && Linked() && Heights()
    {
      DropTower(m, current, update, us);
      LowerLevel();
    }

    method RemoveTower(key: T, current: Node<T>, update: array<Node?<T>>, ghost us: seq<nat>)
      requires Valid() && |us| == level + 1 && us[0] + 1 < |spine| && current == spine[us[0] + 1] && current.key == key
      requires update !in repr && update.Length == maxLevel + 1
      requires forall j :: 0 <= j <= level ==> LastBefore(key, us[j], j) && us[j] <= us[0] && update[j] == spine[us[j]]
      modifies repr
      ensures Valid() && repr == old(repr)
      ensures Map() == old(Map()) - {key} && TakenOut(old(spine), spine, key)
    {
      AllPrecede(key, us);
      WithoutSorted(us[0] + 1);
      TakeOut(us[0] + 1, current, update, us);
      count := count - 1;
    }

    /** Removes a key; does nothing when it is not there. */
    method DeleteElement(key: T)
      requires Valid()
      modifies repr
      ensures Valid() && fresh(repr - old(repr))
      ensures Map() == old(Map()) - {key}
      ensures if key in old(Map()) then TakenOut(old(spine), spine, key) else spine == old(spine) && level == old(level)
    {
      var update, current; ghost var us;
      update, current, us := Locate(key);
      if current != null && current.key == key {
        RemoveTower(key, current, update, us);
      }
    }

    /** Search and delete. */
    method DeleteFound(key: T)
      requires Valid()
      modifies repr
      ensures Valid() && fresh(repr - old(repr))
      ensures Map() == old(Map()) - {key}
    {
      var found, oldValue := Search(key);
      if found {
        DeleteElement(key);
      }
    }

    /** Search, delete, insert: sets the value of a key, new or not. */
    method InsertSetElement(key: T, value: T, heads: nat)
      requires Valid()
      modifies repr
      ensures Valid() && fresh(repr - old(repr))
      ensures Map() == old(Map())[key := value]
    {
      DeleteFound(key);
      var present := InsertElement(key, value, heads);
    }

    /** _element_count is the size of the map. */
    method Size() returns (n: nat)
      requires Valid()
      ensures n == |Map()|
    {
      MapOfSorted(less, Content());
      n := count;
    }

    // --------------------------------------------------------- dump and load

    /** The keys and the values of level 0, in ascending order of the keys. */
    method DumpFile() returns (dump: Dump<T>)
      requires Valid()
      ensures dump == DumpOf(Content())
    {
      var keys, vals := [], [];
      var node := header.forward[0];
      ghost var c: nat := 1;
      while node != null
        invariant 1 <= c <= |spine| && node == NodeAt(spine, c)
        invariant keys == DumpOf(Content()[..c - 1]).keys && vals == DumpOf(Content()[..c - 1]).vals
        decreases |spine| - c
      {
        keys := keys + [node.key];
        vals := vals + [node.value];
        node := node.forward[0];
        c := c + 1;
      }
      assert Content()[..c - 1] == Content();
      dump := Dump(keys, vals);
    }

    /** load_file: each dumped key is inserted with itself as its value; an empty archive does nothing. */
    method LoadFile(archive: Archive<T>, heads: nat -> nat)
      requires Valid()
      modifies repr
      ensures Valid() && fresh(repr - old(repr))
      ensures Map() == if archive.Empty? then old(Map()) else Loaded(old(Map()), archive.dump.keys)
    {
      if archive.Empty? {
        return;
      }
      var i := 0;
      while i < |archive.dump.keys|
        invariant 0 <= i <= |archive.dump.keys|
        invariant Valid() && fresh(repr - old(repr))
        invariant Map() == Loaded(old(Map()), archive.dump.keys[..i])
      {
        LoadedOneMore(old(Map()), archive.dump.keys, i);
        var present := InsertElement(archive.dump.keys[i], archive.dump.keys[i], heads(i));
        i := i + 1;
      }
      assert archive.dump.keys[..i] == archive.dump.keys;
    }

    // ----------------------------------------------------------------- shape

    /** What a reader meets who follows the pointers of level i from tower c on. */
    ghost function Walk(c: nat, i: nat): seq<Node<T>>
      requires Valid() && c < |spine| && i <= spine[c].level
      reads this, repr
      decreases |spine| - c
    {
      var next := spine[c].forward[i];
      if next == null then [] else [next] + Walk(NextAt(Levels(spine), c, i), i)
    }

    lemma {:induction false} WalkMeets(c: nat, i: nat)
      requires Valid() && c < |spine| && i <= spine[c].level
      ensures Walk(c, i) == Reaching(spine[c + 1..], i)
      decreases |spine| - c
    {
      var q := PointsTo(c, i);
      ReachingSkips(spine, c + 1, q, i);
      if q < |spine| {
        WalkMeets(q, i);
        ReachingHead(spine, q, i);
      }
    }

    /** Where the pointer of tower c on level i leads, and what it jumps over. */
    lemma PointsTo(c: nat, i: nat) returns (q: nat)
      requires Valid() && c < |spine| && i <= spine[c].level
      ensures c < q <= |spine| && spine[c].forward[i] == NodeAt(spine, q)
      ensures forall r :: c < r < q ==> spine[r].level < i
      ensures q < |spine| ==> spine[q].level >= i && Walk(c, i) == [spine[q]] + Walk(q, i)
      ensures q == |spine| ==> Walk(c, i) == []
    {
      q := NextAt(Levels(spine), c, i);
      assert forall r :: c < r < q ==> spine[r].level == Levels(spine)[r] < i;
    }

    /** The shape of the list: on every level a walk meets exactly the towers of level 0 that reach that
        level, in strictly ascending order; levels above the current one are empty, and the current
        one is not unless it is level 0. */
    lemma LevelShape(i: nat)
      requires Valid() && i <= maxLevel
      ensures Walk(0, i) == Reaching(spine[1..], i)
      ensures Ascending(less, Walk(0, i))
      ensures i > level ==> Walk(0, i) == []
      ensures i == level > 0 ==> Walk(0, i) != []
    {
      WalkMeets(0, i);
      var ns := spine[1..];
      forall a, b | 0 <= a < b < |ns| ensures less(ns[a].key, ns[b].key) {
        assert ns[a].key == Content()[a].0 && ns[b].key == Content()[b].0;
      }
      ReachingAscends(less, ns, i);
      if i > level { NothingAbove(i); }
      if i == level > 0 {
        var p :| 1 <= p < |spine| && spine[p].level == level;
        assert Levels(spine)[p] == level;
      }
    }
  }

  /** The towers of ns that reach level i. */
  function Reaching<T>(ns: seq<Node<T>>, i: nat): seq<Node<T>> {
    if ns == [] then [] else (if ns[0].level >= i then [ns[0]] else []) + Reaching(ns[1..], i)
  }

  ghost predicate Ascending<T(!new)>(less: Order<T>, ns: seq<Node<T>>) {
    forall a, b :: 0 <= a < b < |ns| ==> less(ns[a].key, ns[b].key)
  }

  lemma {:induction false} ReachingSkips<T>(ns: seq<Node<T>>, p: nat, q: nat, i: nat)
    requires p <= q <= |ns| && forall r :: p <= r < q ==> ns[r].level < i
    ensures Reaching(ns[p..], i) == Reaching(ns[q..], i)
    decreases q - p
  {
    if p < q {
      assert ns[p..][1..] == ns[p + 1..];
      ReachingSkips(ns, p + 1, q, i);
    }
  }

  lemma ReachingHead<T>(ns: seq<Node<T>>, q: nat, i: nat)
    requires q < |ns| && ns[q].level >= i
    ensures Reaching(ns[q..], i) == [ns[q]] + Reaching(ns[q + 1..], i)
  {
    assert ns[q..][1..] == ns[q + 1..];
  }

  lemma {:induction false} ReachingAscends<T(!new)>(less: Order<T>, ns: seq<Node<T>>, i: nat)
    requires Ascending(less, ns)
    ensures Ascending(less, Reaching(ns, i)) && forall n :: n in Reaching(ns, i) ==> n in ns
  {
    if ns != [] {
      ReachingAscends(less, ns[1..], i);
      var rest := Reaching(ns[1..], i);
      forall b | 0 <= b < |rest| ensures less(ns[0].key, rest[b].key) {
        assert rest[b] in ns[1..];
        var c :| 0 <= c < |ns[1..]| && ns[1..][c] == rest[b];
        assert ns[c + 1] == rest[b];
      }
    }
  }

  datatype Dump<T> = Dump(keys: seq<T>, vals: seq<T>)

  /** What a string passed to load_file decodes to. */
  datatype Archive<T> = Empty | Archived(dump: Dump<T>)

  function DumpOf<T>(ps: Pairs<T>): (d: Dump<T>)
    ensures |d.keys| == |d.vals| == |ps|
  {
    Dump(seq(|ps|, i requires 0 <= i < |ps| => ps[i].0), seq(|ps|, i requires 0 <= i < |ps| => ps[i].1))
  }

  /** Keys that are there keep their value, the others get themselves as value. */
  function Loaded<T(==)>(m: map<T, T>, keys: seq<T>): map<T, T> {
    (map k | k in keys :: k) + m
  }

  /** Loading a dump of ps unites the keys, and keeps every value that was there. */
  lemma LoadedUnion<T(!new)>(less: Order<T>, ps: Pairs<T>, m: map<T, T>)
    requires StrictOrder(less) && Sorted(less, ps)
    ensures Loaded(m, DumpOf(ps).keys).Keys == MapOf(ps).Keys + m.Keys
    ensures forall k :: k in m ==> Loaded(m, DumpOf(ps).keys)[k] == m[k]
  {
    MapOfSorted(less, ps);
    forall k ensures k in DumpOf(ps).keys <==> k in MapOf(ps) {
      if k in MapOf(ps) {
        assert Has(ps, k, MapOf(ps)[k]);
        var i :| 0 <= i < |ps| && ps[i] == (k, MapOf(ps)[k]);
        assert DumpOf(ps).keys[i] == k;
      }
      if k in DumpOf(ps).keys {
        var i :| 0 <= i < |ps| && DumpOf(ps).keys[i] == k;
        assert Has(ps, k, ps[i].1);
      }
    }
  }

  /** A dump loaded into an empty list gives the list back exactly when every value is its own key. */
  lemma RoundTripIff<T(!new)>(less: Order<T>, ps: Pairs<T>)
    requires StrictOrder(less) && Sorted(less, ps)
    ensures Loaded(map[], DumpOf(ps).keys) == MapOf(ps) <==> forall k :: k in MapOf(ps) ==> MapOf(ps)[k] == k
  {
    LoadedUnion(less, ps, map[]);
    var m := Loaded(map[], DumpOf(ps).keys);
    assert forall k :: k in m ==> m[k] == k;
  }

  lemma LoadedOneMore<T>(m: map<T, T>, keys: seq<T>, i: nat)
    requires i < |keys|
    ensures var before := Loaded(m, keys[..i]);
            Loaded(m, keys[..i + 1]) == if keys[i] in before then before else before[keys[i] := keys[i]]
  {
    assert keys[..i + 1] == keys[..i] + [keys[i]];
  }

  /** Line 305 repaired: each key is inserted with its dumped value. */
  function RepairedLoad<T(==)>(m: map<T, T>, ps: Pairs<T>): map<T, T> {
    if ps == [] then m
    else
      var before := RepairedLoad(m, ps[..|ps| - 1]);
      var last := ps[|ps| - 1];
      if last.0 in before then before else before[last.0 := last.1]
  }

  function Zip<T>(d: Dump<T>): Pairs<T>
    requires |d.keys| == |d.vals|
  {
    seq(|d.keys|, i requires 0 <= i < |d.keys| => (d.keys[i], d.vals[i]))
  }

  /** With that line repaired, dump and load into an empty list is a round trip for every list. */
  lemma RepairedRoundTrip<T(!new)>(less: Order<T>, ps: Pairs<T>)
    requires StrictOrder(less) && Sorted(less, ps)
    ensures RepairedLoad(map[], Zip(DumpOf(ps))) == MapOf(ps)
  {
    assert Zip(DumpOf(ps)) == ps;
    RepairedLoadsAll(less, ps);
  }

  lemma {:induction false} RepairedLoadsAll<T(!new)>(less: Order<T>, ps: Pairs<T>)
    requires StrictOrder(less) && Sorted(less, ps)
    ensures RepairedLoad(map[], ps) == MapOf(ps)
  {
    if ps != [] {
      var n := |ps| - 1;
      RepairedLoadsAll(less, ps[..n]);
      MapOfSorted(less, ps[..n]);
      if ps[n].0 in MapOf(ps[..n]) {
        assert Has(ps[..n], ps[n].0, MapOf(ps[..n])[ps[n].0]);
        var i :| 0 <= i < n && ps[i].0 == ps[n].0;
        DistinctKeys(less, ps, i, n);
      }
    }
  }
}
