/**
 * The imperative half of the dynamic uniform buffer packer
 * (gpu_uniformbuffer_inputs_sort and the two loops of
 * GPU_uniformbuffer_dynamic_create). The ListBase of links is an object whose
 * item sequence the list primitives rewrite; a link is named by its position
 * in that sequence, so a link that the code keeps across an unlink and a
 * relink is tracked by the position its node moves to.
 */
module UboPacker {
  import opened UboLayout
  import opened UboLayoutProofs

  /** A ListBase of GPUInput links. */
  class InputList {
    var items: seq<Input>

    constructor(inputs: seq<Input>)
      ensures items == inputs
    {
      items := inputs;
    }

    /**
     * BLI_listbase_sort(inputs, inputs_cmp): some sorted rearrangement of the
     * list. Which one, for entries of equal type, is not promised.
     */
    method Sort()
      modifies this
      ensures Sorted(items) && multiset(items) == multiset(old(items))
    {
      items := SortByKind(items);
    }

    /** BLI_remlink: unlinks the node at position i. */
    method Remove(i: nat) returns (x: Input)
      requires i < |items|
      modifies this
      ensures x == old(items)[i]
      ensures items == Unlinked(old(items), i)
    {
      x := items[i];
      items := items[..i] + items[i + 1..];
    }

    /** BLI_insertlinkafter: links x in right after the node at position i. */
    method InsertAfter(i: nat, x: Input)
      requires i < |items|
      modifies this
      ensures items == LinkedAfter(old(items), i, x)
    {
      items := items[..i + 1] + [x] + items[i + 1..];
    }
  }

  /** The list without its node at position i; every other node keeps its order. */
  function Unlinked(x: seq<Input>, i: nat): (y: seq<Input>)
    requires i < |x|
    ensures |y| == |x| - 1
  {
    x[..i] + x[i + 1..]
  }

  /** The list with v linked in right after its node at position i. */
  function LinkedAfter(x: seq<Input>, i: nat, v: Input): (y: seq<Input>)
    requires i < |x|
    ensures |y| == |x| + 1 && y[i + 1] == v
  {
    x[..i + 1] + [v] + x[i + 1..]
  }

  /** Number of slots of inputs_lookup. */
  const LOOKUP_SIZE: nat := MAX_UBO_GPU_TYPE + 1

  /**
   * What the lookup table of gpu_uniformbuffer_inputs_sort holds: a slot per
   * type up to mat4; a filled slot names an entry of that type, an empty one
   * (always mat3's) means the list has no entry of that type, and in a sorted
   * list the slot names the first entry of its type.
   */
  ghost predicate LookupOf(items: seq<Input>, lookup: seq<Option<nat>>) {
    && |lookup| == LOOKUP_SIZE
    && (forall t :: 0 <= t < LOOKUP_SIZE && lookup[t].Some? ==>
          lookup[t].value < |items| && items[lookup[t].value].kind == t)
    && (forall t :: 0 <= t < LOOKUP_SIZE && InLookup(t) ==>
          (lookup[t].None? <==> forall i :: 0 <= i < |items| ==> items[i].kind != t))
    && lookup[MAT3].None?
    && (Sorted(items) ==> forall t :: 0 <= t < LOOKUP_SIZE && lookup[t].Some? ==>
          forall i :: 0 <= i < lookup[t].value ==> items[i].kind != t)
  }

  /**
   * The lookup table of gpu_uniformbuffer_inputs_sort: for every type it has a
   * slot for (mat3 excluded), the start of the last run of that type, so in a
   * sorted list the first entry of that type.
   */
  method BuildLookup(items: seq<Input>) returns (lookup: seq<Option<nat>>)
    ensures LookupOf(items, lookup)
  {
    lookup := seq(LOOKUP_SIZE, _ => None);
    var curType := MAX_UBO_GPU_TYPE + 1;
    ghost var last: int := -1;
    ghost var isSorted := Sorted(items);
    for n := 0 to |items|
      invariant |lookup| == LOOKUP_SIZE
      invariant -1 <= last < n
      invariant last >= 0 ==> InLookup(items[last].kind)
      invariant forall i :: last < i < n ==> !InLookup(items[i].kind)
      invariant curType == if last >= 0 then items[last].kind else MAX_UBO_GPU_TYPE + 1
      invariant forall t :: 0 <= t < LOOKUP_SIZE && lookup[t].Some? ==>
        lookup[t].value < n && items[lookup[t].value].kind == t
      invariant forall t :: 0 <= t < LOOKUP_SIZE && InLookup(t) ==>
        (lookup[t].None? <==> forall i :: 0 <= i < n ==> items[i].kind != t)
      invariant lookup[MAT3].None?
      invariant Sorted(items) ==> forall t :: 0 <= t < LOOKUP_SIZE && lookup[t].Some? ==>
        forall i :: 0 <= i < lookup[t].value ==> items[i].kind != t
    {
      var k := items[n].kind;
      if k == MAT3 {
        // a MAT3 entry keeps its list position but gets no slot
        continue;
      }
      if k > MAX_UBO_GPU_TYPE {
        continue;
      }
      if k == curType {
        last := n;
        continue;
      }
      if isSorted {
        EarlierKinds(items, last, n);
      }
      lookup := lookup[k := Some(n)];
      curType := k;
      last := n;
    }
  }

  /** In a sorted list, an entry of the type of entry n before it sits at or before the last recorded entry. */
  lemma EarlierKinds(s: seq<Input>, last: int, n: nat)
    requires Sorted(s)
    requires -1 <= last < n < |s|
    requires forall i :: last < i < n ==> !InLookup(s[i].kind)
    requires InLookup(s[n].kind)
    requires last >= 0 ==> s[last].kind != s[n].kind
    ensures forall i :: 0 <= i < n ==> s[i].kind != s[n].kind
  {
    forall i | 0 <= i < n
      ensures s[i].kind != s[n].kind
    {
      if i <= last {
        assert InputsCmp(s[i], s[last]) == 0 && InputsCmp(s[last], s[n]) == 0;
      }
    }
  }

  /** In a sorted list holding an entry of type t, the run of types above t ends at an entry of type t. */
  lemma LeadHits(s: seq<Input>, t: nat, v: nat)
    requires Sorted(s)
    requires v < |s| && s[v].kind == t
    ensures Lead(s, t) <= v && s[Lead(s, t)].kind == t
  {
    var n := Lead(s, t);
    if n < v {
      assert InputsCmp(s[n], s[v]) == 0;
    }
  }

  /** In a sorted list, the first entry of type t ends the run of types above t. */
  lemma FirstOfKind(s: seq<Input>, t: nat, v: nat)
    requires Sorted(s)
    requires v < |s| && s[v].kind == t
    requires forall i :: 0 <= i < v ==> s[i].kind != t
    ensures v == Lead(s, t)
  {
    LeadHits(s, t, v);
  }

  /** The list with the node at position f unlinked and linked in again right after position i < f. */
  function MoveAfter(x: seq<Input>, i: nat, f: nat): (y: seq<Input>)
    requires i < f < |x|
    ensures |y| == |x| && y[i + 1] == x[f]
    ensures i + 1 < f ==> y[i + 2] == x[i + 1]
  {
    LinkedAfter(Unlinked(x, f), i, x[f])
  }

  /** link_next still points at the node that followed position i. */
  lemma MoveKeepsNext(x: seq<Input>, i: nat, f: nat)
    requires i < f < |x|
    ensures NextAfterMove(i, f) < |x| && MoveAfter(x, i, f)[NextAfterMove(i, f)] == x[i + 1]
  {
  }

  /** Moving the first entry of e right after the first entry of c. */
  lemma MoveAfterPieces(a: seq<Input>, c: seq<Input>, e: seq<Input>)
    requires c != [] && e != []
    ensures MoveAfter(a + c + e, |a|, |a| + |c|) == a + [c[0], e[0]] + c[1..] + e[1..]
  {
    var x := a + c + e;
    var rest := x[..|a| + |c|] + x[|a| + |c| + 1..];
    assert x[..|a| + |c|] == a + c;
    assert x[|a| + |c| + 1..] == e[1..];
    assert rest == a + c + e[1..];
    assert rest[..|a| + 1] == a + [c[0]];
    assert rest[|a| + 1..] == c[1..] + e[1..];
  }

  /** Interleaving one more vec3 and tail entry appends them as a pair. */
  lemma InterleaveSnoc(s: seq<Input>, p: nat, r: nat, m: nat)
    requires p + m < r + m < |s|
    ensures Interleave(s[p..p + m + 1], s[r..r + m + 1]) == Interleave(s[p..p + m], s[r..r + m]) + [s[p + m], s[r + m]]
  {
    var vs, fs := s[p..p + m + 1], s[r..r + m + 1];
    assert vs[..m] == s[p..p + m] && fs[..m] == s[r..r + m];
  }

  lemma Regroup(a: seq<Input>, b: seq<Input>, pair: seq<Input>, c: seq<Input>, e: seq<Input>)
    ensures (a + b) + pair + c + e == a + (b + pair) + c + e
  {
  }

  /** One move of the padding pass: the first unmoved tail entry goes after the first unpaired vec3. */
  lemma PadWithStep(s: seq<Input>, p: nat, r: nat, m: nat)
    requires p + m + 1 <= r <= |s| - m - 1
    ensures MoveAfter(PadWith(s, p, r, m), p + 2 * m, r + m) == PadWith(s, p, r, m + 1)
  {
    var il := Interleave(s[p..p + m], s[r..r + m]);
    var c, e := s[p + m..r], s[r + m..];
    assert PadWith(s, p, r, m) == (s[..p] + il) + c + e;
    MoveAfterPieces(s[..p] + il, c, e);
    InterleaveSnoc(s, p, r, m);
    assert c[1..] == s[p + m + 1..r] && e[1..] == s[r + m + 1..];
    Regroup(s[..p], il, [c[0], e[0]], c[1..], e[1..]);
  }

  /** A last vec3 already followed by the first tail entry counts as paired with it. */
  lemma PadWithLast(s: seq<Input>, p: nat, r: nat, m: nat)
    requires p + m + 1 == r && r + m + 1 <= |s|
    ensures PadWith(s, p, r, m) == PadWith(s, p, r, m + 1)
  {
    InterleaveSnoc(s, p, r, m);
    assert s[p + m..r] == [s[p + m]];
    assert s[r + m..] == [s[r + m]] + s[r + m + 1..];
  }

  lemma PadWithZero(s: seq<Input>, p: nat, r: nat)
    requires p <= r <= |s|
    ensures PadWith(s, p, r, 0) == s
  {
    assert s == s[..p] + s[p..r] + s[r..];
  }

  /** What the padding pass finds at and right after the position of its j-th vec3. */
  lemma LinkKinds(s: seq<Input>, p: nat, q: nat, r: nat, m: nat, j: nat)
    requires Shape(s, p, q, r)
    requires p + m <= r <= |s| - m && m <= j <= q - p
    ensures j < q - p ==> p + m + j < |s| && PadWith(s, p, r, m)[p + m + j].kind == VEC3
    ensures j + 1 < q - p ==> PadWith(s, p, r, m)[p + m + j + 1].kind == VEC3
    ensures j + 1 == q - p && q < r ==> p + m + j + 1 < |s| && PadWith(s, p, r, m)[p + m + j + 1].kind == VEC2
    ensures j + 1 == q - p && q == r && r + m < |s| ==> PadWith(s, p, r, m)[p + m + j + 1] == s[r + m]
  {
    if p + m + j < |s| {
      PadWithAt(s, p, r, m, p + m + j);
    }
    if p + m + j + 1 < |s| {
      PadWithAt(s, p, r, m, p + m + j + 1);
    }
  }

  /** Number of entries the padding pass has moved after passing j vec3s. */
  function MovedAfter(hasFloat: bool, j: nat, tail: nat): nat {
    if hasFloat then Min(j, tail) else 0
  }

  /** Floats come first in the tail that starts at r. */
  ghost predicate FloatsLead(s: seq<Input>, r: nat) {
    forall i :: r < i < |s| && s[i].kind == FLOAT ==> s[r].kind == FLOAT
  }

  lemma SortedFloatsLead(s: seq<Input>, r: nat)
    requires Sorted(s) && r <= |s|
    requires forall i :: r <= i < |s| ==> s[i].kind <= FLOAT
    ensures FloatsLead(s, r)
  {
    forall i | r < i < |s| && s[i].kind == FLOAT
      ensures s[r].kind == FLOAT
    {
      assert InputsCmp(s[r], s[i]) == 0;
    }
  }

  /** The state of the walk after j vec3s, m of them given a float. */
  ghost predicate Walking(s: seq<Input>, p: nat, q: nat, r: nat, m: nat, j: nat) {
    && Shape(s, p, q, r) && FloatsLead(s, r)
    && j <= q - p
    && m == MovedAfter(r < |s| && s[r].kind == FLOAT, j, |s| - r)
    && p + m <= r <= |s| - m
  }

  /** The number of moves the whole walk makes. */
  function AllMoves(s: seq<Input>, p: nat, q: nat, r: nat): nat
    requires p <= q <= r <= |s|
  {
    MovedAfter(r < |s| && s[r].kind == FLOAT, q - p, |s| - r)
  }

  /** The walk stops at its j-th vec3, which is followed by nothing or by a float. */
  lemma WalkStops(s: seq<Input>, p: nat, q: nat, r: nat, m: nat, j: nat)
    requires Walking(s, p, q, r, m, j) && j < q - p
    requires p + m + j + 1 == |s| || (p + m + j + 1 < |s| && PadWith(s, p, r, m)[p + m + j + 1].kind == FLOAT)
    ensures PadWith(s, p, r, m) == PadWith(s, p, r, AllMoves(s, p, q, r))
  {
    LinkKinds(s, p, q, r, m, j);
    if p + m + j + 1 < |s| {
      PadWithLast(s, p, r, m);
    }
  }

  /** The walk goes on past its j-th vec3 without moving anything. */
  lemma WalkSkips(s: seq<Input>, p: nat, q: nat, r: nat, m: nat, j: nat)
    requires Walking(s, p, q, r, m, j) && j < q - p
    requires p + m + j + 1 < |s| && PadWith(s, p, r, m)[p + m + j + 1].kind != FLOAT
    requires !(r < |s| && s[r].kind == FLOAT && m < |s| - r)
    ensures Walking(s, p, q, r, m, j + 1)
    ensures j + 1 == q - p ==> PadWith(s, p, r, m)[p + m + j + 1].kind != VEC3
  {
    LinkKinds(s, p, q, r, m, j);
  }

  /** The walk moves tail entry r + m right after its j-th vec3. */
  lemma WalkMoves(s: seq<Input>, p: nat, q: nat, r: nat, m: nat, j: nat)
    requires Walking(s, p, q, r, m, j) && j < q - p
    requires p + m + j + 1 < |s| && PadWith(s, p, r, m)[p + m + j + 1].kind != FLOAT
    requires r < |s| && s[r].kind == FLOAT && m < |s| - r
    ensures m == j && p + m + 1 <= r <= |s| - m - 1
    ensures Walking(s, p, q, r, m + 1, j + 1)
    ensures j + 1 == q - p ==> PadWith(s, p, r, m)[p + m + j + 1].kind != VEC3
  {
    LinkKinds(s, p, q, r, m, j);
    if j + 1 == q - p && q == r {
      PadWithAt(s, p, r, m, r + m);
    }
  }

  /** While vec3s remain, the walk stands on one. */
  lemma WalkOnVec3(s: seq<Input>, p: nat, q: nat, r: nat, m: nat, j: nat)
    requires Walking(s, p, q, r, m, j) && j < q - p
    ensures p + m + j < |s| && PadWith(s, p, r, m)[p + m + j].kind == VEC3
  {
    LinkKinds(s, p, q, r, m, j);
  }

  /** The walk ends once every vec3 has been passed. */
  lemma WalkEnds(s: seq<Input>, p: nat, q: nat, r: nat, m: nat, j: nat)
    requires Walking(s, p, q, r, m, j) && j == q - p
    ensures PadWith(s, p, r, m) == PadWith(s, p, r, AllMoves(s, p, q, r))
  {
  }

  /** Where the walk stands: j vec3s passed, m entries moved, link on the next vec3 and lookup[FLOAT] on the next tail entry. */
  ghost predicate At(items: seq<Input>, next: Option<nat>, link: Option<nat>, s: seq<Input>, p: nat, q: nat, r: nat, m: nat, j: nat) {
    && Walking(s, p, q, r, m, j)
    && items == PadWith(s, p, r, m)
    && (link.Some? ==> link.value < |items|)
    && (j < q - p ==> link == Some(p + m + j))
    && (j == q - p && link.Some? ==> items[link.value].kind != VEC3)
    && next == if r < |s| && s[r].kind == FLOAT && m < |s| - r then Some(r + m) else None
  }

  lemma AtStart(s: seq<Input>, p: nat, q: nat, r: nat, next: Option<nat>)
    requires Shape(s, p, q, r) && FloatsLead(s, r) && p < q
    requires next == if r < |s| && s[r].kind == FLOAT then Some(r) else None
    ensures At(s, next, Some(p), s, p, q, r, 0, 0)
  {
  }

  lemma AtVec3(items: seq<Input>, next: Option<nat>, i: nat, s: seq<Input>, p: nat, q: nat, r: nat, m: nat, j: nat)
    requires At(items, next, Some(i), s, p, q, r, m, j)
    requires i < |items| && items[i].kind == VEC3
    ensures j < q - p && i == p + m + j
    ensures next.Some? ==> i < next.value < |items|
  {
  }

  lemma AtStops(items: seq<Input>, next: Option<nat>, i: nat, s: seq<Input>, p: nat, q: nat, r: nat, m: nat, j: nat)
    requires At(items, next, Some(i), s, p, q, r, m, j) && j < q - p && i == p + m + j
    requires i + 1 == |items| || (i + 1 < |items| && items[i + 1].kind == FLOAT)
    ensures items == PadWith(s, p, r, AllMoves(s, p, q, r))
  {
    WalkStops(s, p, q, r, m, j);
  }

  lemma AtSkips(items: seq<Input>, next: Option<nat>, i: nat, s: seq<Input>, p: nat, q: nat, r: nat, m: nat, j: nat)
    requires At(items, next, Some(i), s, p, q, r, m, j) && j < q - p && i == p + m + j
    requires i + 1 < |items| && items[i + 1].kind != FLOAT && next.None?
    ensures At(items, next, Some(i + 1), s, p, q, r, m, j + 1)
  {
    WalkSkips(s, p, q, r, m, j);
  }

  lemma AtEnds(items: seq<Input>, next: Option<nat>, link: Option<nat>, s: seq<Input>, p: nat, q: nat, r: nat, m: nat, j: nat)
    requires At(items, next, link, s, p, q, r, m, j)
    requires !(link.Some? && items[link.value].kind == VEC3)
    ensures items == PadWith(s, p, r, AllMoves(s, p, q, r))
  {
    if j < q - p {
      WalkOnVec3(s, p, q, r, m, j);
    }
    WalkEnds(s, p, q, r, m, j);
  }

  /** Where link_next points after tail entry f has been moved right after position i: its node moves one on unless it was that entry. */
  function NextAfterMove(i: nat, f: nat): nat {
    if i + 1 < f then i + 2 else i + 1
  }

  /** The lookup entry for the tail after entry f has been taken: the entry that follows f, if any. */
  function NextInTail(f: nat, n: nat): Option<nat> {
    if f + 1 < n then Some(f + 1) else None
  }

  /** Taking tail entry r + m leaves the entry after it, if any, as the next one. */
  lemma TailStep(s: seq<Input>, r: nat, m: nat)
    requires r < |s| && s[r].kind == FLOAT && m < |s| - r
    ensures NextInTail(r + m, |s|) == if r < |s| && s[r].kind == FLOAT && m + 1 < |s| - r then Some(r + m + 1) else None
  {
  }

  /** The same move in equal lists gives the same list. */
  lemma MoveSame(items: seq<Input>, w: seq<Input>, w': seq<Input>, i: nat, f: nat, i': nat, f': nat)
    requires items == w && i == i' && f == f' && i < f < |w|
    requires MoveAfter(w, i', f') == w'
    ensures MoveAfter(items, i, f) == w'
  {
  }

  /** The move of tail entry r + m after vec3 p + 2m is the walk's move m + 1. */
  lemma MoveIsNextWalk(s: seq<Input>, p: nat, r: nat, m: nat, items: seq<Input>, i: nat, f: nat)
    requires p + m + 1 <= r <= |s| - m - 1
    requires items == PadWith(s, p, r, m) && i == p + 2 * m && f == r + m
    ensures MoveAfter(items, i, f) == PadWith(s, p, r, m + 1)
  {
    PadWithStep(s, p, r, m);
    PadWithLength(s, p, r, m);
    MoveSame(items, PadWith(s, p, r, m), PadWith(s, p, r, m + 1), i, f, p + 2 * m, r + m);
  }

  /** Where link_next lands after the move, in terms of the walk's counters. */
  lemma NextAfterMoveAt(i: nat, f: nat, p: nat, q: nat, r: nat, m: nat, j: nat)
    requires i == p + m + j && f == r + m && j < q - p && q <= r
    ensures NextAfterMove(i, f) <= i + 2
    ensures j + 1 < q - p ==> NextAfterMove(i, f) == p + (m + 1) + (j + 1)
  {
  }

  /** The move of tail entry f after the vec3 at i takes the walk from m moves to m + 1. */
  lemma WalkMoveStep(items: seq<Input>, f: nat, i: nat, s: seq<Input>, p: nat, q: nat, r: nat, m: nat, j: nat)
    requires At(items, Some(f), Some(i), s, p, q, r, m, j) && j < q - p && i == p + m + j
    requires i + 1 < |items| && items[i + 1].kind != FLOAT && i < f < |items|
    ensures At(MoveAfter(items, i, f), NextInTail(f, |items|), Some(NextAfterMove(i, f)), s, p, q, r, m + 1, j + 1)
  {
    WalkMoves(s, p, q, r, m, j);
    assert f == r + m && |items| == |s| && m == j;
    MoveIsNextWalk(s, p, r, m, items, i, f);
    MoveKeepsNext(items, i, f);
    NextAfterMoveAt(i, f, p, q, r, m, j);
    TailStep(s, r, m);
  }

  lemma AtMoves(items: seq<Input>, next0: Option<nat>, i: nat, s: seq<Input>, p: nat, q: nat, r: nat, m: nat, j: nat,
                 moved: seq<Input>, next: Option<nat>, link: Option<nat>)
    requires At(items, next0, Some(i), s, p, q, r, m, j) && j < q - p && i == p + m + j
    requires i + 1 < |items| && items[i + 1].kind != FLOAT
    requires next0.Some? && i < next0.value < |items|
    requires moved == MoveAfter(items, i, next0.value)
    requires next == NextInTail(next0.value, |items|) && link == Some(NextAfterMove(i, next0.value))
    ensures At(moved, next, link, s, p, q, r, m + 1, j + 1)
  {
    WalkMoveStep(items, next0.value, i, s, p, q, r, m, j);
  }

  /**
   * One move of the walk: BLI_remlink of the float at f, BLI_insertlinkafter
   * of it after the vec3 at i, the lookup entry for floats stepped to the
   * next link, and link_next kept on its node.
   */
  method MoveFloat(inputs: InputList, lookup0: seq<Option<nat>>, i: nat)
    returns (lookup: seq<Option<nat>>, linkNext: Option<nat>)
    requires |lookup0| == LOOKUP_SIZE && lookup0[FLOAT].Some?
    requires i < lookup0[FLOAT].value < |inputs.items|
    modifies inputs
    ensures inputs.items == MoveAfter(old(inputs.items), i, lookup0[FLOAT].value)
    ensures lookup == lookup0[FLOAT := NextInTail(lookup0[FLOAT].value, |old(inputs.items)|)]
    ensures linkNext == Some(NextAfterMove(i, lookup0[FLOAT].value))
  {
    var f := lookup0[FLOAT].value;
    // link->next exists: the float at f lies beyond it
    linkNext := Some(i + 1);
    lookup := lookup0[FLOAT := if f + 1 < |inputs.items| then Some(f + 1) else None];
    var x := inputs.Remove(f);
    inputs.InsertAfter(i, x);
    if i + 1 < f {
      linkNext := Some(i + 2);
    }
  }

  /** One move of the walk, and where it leaves the walk. */
  method MoveNext(inputs: InputList, lookup0: seq<Option<nat>>, i: nat, ghost s: seq<Input>, ghost p: nat, ghost q: nat, ghost r: nat, ghost m: nat, ghost j: nat)
    returns (lookup: seq<Option<nat>>, linkNext: Option<nat>)
    requires |lookup0| == LOOKUP_SIZE
    requires At(inputs.items, lookup0[FLOAT], Some(i), s, p, q, r, m, j) && j < q - p && i == p + m + j
    requires i + 1 < |inputs.items| && inputs.items[i + 1].kind != FLOAT
    requires lookup0[FLOAT].Some? && i < lookup0[FLOAT].value < |inputs.items|
    modifies inputs
    ensures |lookup| == LOOKUP_SIZE
    ensures At(inputs.items, lookup[FLOAT], linkNext, s, p, q, r, m + 1, j + 1)
  {
    ghost var before := inputs.items;
    lookup, linkNext := MoveFloat(inputs, lookup0, i);
    AtMoves(before, lookup0[FLOAT], i, s, p, q, r, m, j, inputs.items, lookup[FLOAT], linkNext);
  }

  /**
   * One round of the walk of gpu_uniformbuffer_inputs_sort, at the vec3 that
   * link points at: stop when it is followed by nothing or by a float,
   * otherwise move the next float of the tail right after it if one is left.
   */
  method Visit(inputs: InputList, lookup0: seq<Option<nat>>, link: Option<nat>,
               ghost s: seq<Input>, ghost p: nat, ghost q: nat, ghost r: nat, ghost m: nat, ghost j: nat)
    returns (lookup: seq<Option<nat>>, linkNext: Option<nat>, stop: bool, ghost m': nat)
    requires |lookup0| == LOOKUP_SIZE
    requires At(inputs.items, lookup0[FLOAT], link, s, p, q, r, m, j)
    requires link.Some? && link.value < |inputs.items| && inputs.items[link.value].kind == VEC3
    modifies inputs
    ensures |lookup| == LOOKUP_SIZE && j < q - p
    ensures stop ==> inputs.items == PadWith(s, p, r, AllMoves(s, p, q, r))
    ensures !stop ==> At(inputs.items, lookup[FLOAT], linkNext, s, p, q, r, m', j + 1)
  {
    var i := link.value;
    AtVec3(inputs.items, lookup0[FLOAT], i, s, p, q, r, m, j);
    lookup, m', stop := lookup0, m, false;
    linkNext := if i + 1 < |inputs.items| then Some(i + 1) else None;

    // the walk ends at a vec3 that is last or whose successor is a float
    if linkNext.None? || inputs.items[linkNext.value].kind == FLOAT {
      AtStops(inputs.items, lookup0[FLOAT], i, s, p, q, r, m, j);
      stop := true;
      return;
    }

    // move the next float of the tail right after this vec3
    if lookup[FLOAT].Some? {
      lookup, linkNext := MoveNext(inputs, lookup0, i, s, p, q, r, m, j);
      m' := m + 1;
    } else {
      AtSkips(inputs.items, lookup0[FLOAT], i, s, p, q, r, m, j);
    }
  }

  /**
   * The walk of the vec3 run in gpu_uniformbuffer_inputs_sort, from the first
   * vec3 (p) with the first entry of the tail (r) as the next float to move.
   */
  method PadVec3Run(inputs: InputList, lookup0: seq<Option<nat>>, ghost s: seq<Input>, ghost p: nat, ghost q: nat, ghost r: nat)
    requires Shape(s, p, q, r) && FloatsLead(s, r) && p < q
    requires inputs.items == s
    requires |lookup0| == LOOKUP_SIZE && lookup0[VEC3] == Some(p)
    requires lookup0[FLOAT] == if r < |s| && s[r].kind == FLOAT then Some(r) else None
    modifies inputs
    ensures inputs.items == PadWith(s, p, r, AllMoves(s, p, q, r))
  {
    var lookup := lookup0;
    var link := lookup[VEC3];
    ghost var j, m := 0, 0;
    AtStart(s, p, q, r, lookup[FLOAT]);
    while link.Some? && inputs.items[link.value].kind == VEC3
      invariant |lookup| == LOOKUP_SIZE
      invariant At(inputs.items, lookup[FLOAT], link, s, p, q, r, m, j)
      decreases q - p - j
    {
      var stop;
      lookup, link, stop, m := Visit(inputs, lookup, link, s, p, q, r, m, j);
      if stop {
        return;
      }
      j := j + 1;
    }
    AtEnds(inputs.items, lookup[FLOAT], link, s, p, q, r, m, j);
  }

  /** The run boundaries of a sorted list and the layout the padding pass is to reach. */
  lemma SortedRuns(s: seq<Input>)
    requires Sorted(s)
    ensures Lead(s, VEC3) <= Lead(s, VEC2) <= Lead(s, FLOAT) <= |s|
    ensures Shape(s, Lead(s, VEC3), Lead(s, VEC2), Lead(s, FLOAT)) && FloatsLead(s, Lead(s, FLOAT))
    ensures Padded(s) == PadWith(s, Lead(s, VEC3), Lead(s, FLOAT), AllMoves(s, Lead(s, VEC3), Lead(s, VEC2), Lead(s, FLOAT)))
  {
    SortedShape(s);
    LeadOrder(s);
    SortedFloatsLead(s, Lead(s, FLOAT));
  }

  /** The vec3 slot of the lookup table of a sorted list names the start of its vec3 run, if it has one. */
  lemma LookupVec3(s: seq<Input>, lookup: seq<Option<nat>>, p: nat, q: nat, r: nat)
    requires Sorted(s) && LookupOf(s, lookup)
    requires Shape(s, p, q, r) && p == Lead(s, VEC3)
    ensures lookup[VEC3].Some? ==> lookup[VEC3] == Some(p) && p < q
    ensures lookup[VEC3].None? ==> p == q
  {
    if lookup[VEC3].Some? {
      FirstOfKind(s, VEC3, lookup[VEC3].value);
    } else {
      assert InLookup(VEC3);
      if p < q {
        assert s[p].kind == VEC3;
      }
    }
  }

  /** The float slot of the lookup table of a sorted list names the start of its tail when that is a float. */
  lemma LookupFloat(s: seq<Input>, lookup: seq<Option<nat>>, r: nat)
    requires Sorted(s) && LookupOf(s, lookup)
    requires r == Lead(s, FLOAT)
    ensures lookup[FLOAT] == if r < |s| && s[r].kind == FLOAT then Some(r) else None
  {
    if lookup[FLOAT].Some? {
      FirstOfKind(s, FLOAT, lookup[FLOAT].value);
    } else {
      assert InLookup(FLOAT);
      if r < |s| {
        assert s[r].kind != FLOAT;
      }
    }
  }

  /** What the walk starts from in a sorted list: the run boundaries, the recorded vec3 and float links, and the layout to reach. */
  lemma PadStart(s: seq<Input>, lookup: seq<Option<nat>>)
    requires Sorted(s) && LookupOf(s, lookup)
    ensures Lead(s, VEC3) <= Lead(s, VEC2) <= Lead(s, FLOAT) <= |s|
    ensures Shape(s, Lead(s, VEC3), Lead(s, VEC2), Lead(s, FLOAT)) && FloatsLead(s, Lead(s, FLOAT))
    ensures Padded(s) == PadWith(s, Lead(s, VEC3), Lead(s, FLOAT), AllMoves(s, Lead(s, VEC3), Lead(s, VEC2), Lead(s, FLOAT)))
    ensures lookup[VEC3].None? ==> Padded(s) == s
    ensures lookup[VEC3].Some? ==> lookup[VEC3] == Some(Lead(s, VEC3)) && Lead(s, VEC3) < Lead(s, VEC2)
    ensures lookup[FLOAT] == if Lead(s, FLOAT) < |s| && s[Lead(s, FLOAT)].kind == FLOAT then Some(Lead(s, FLOAT)) else None
  {
    SortedRuns(s);
    var p, q, r := Lead(s, VEC3), Lead(s, VEC2), Lead(s, FLOAT);
    LookupVec3(s, lookup, p, q, r);
    LookupFloat(s, lookup, r);
    if lookup[VEC3].None? {
      PadWithZero(s, p, r);
    }
  }

  /**
   * gpu_uniformbuffer_inputs_sort: sorts the list, records the first link of
   * each type, then walks the vec3 run and moves a float (the next one of the
   * tail) right after every vec3 that is not followed by a float, while floats
   * last. The result is the padding of the sorted list the sort left.
   */
  method InputsSort(inputs: InputList) returns (ghost sorted: seq<Input>)
    modifies inputs
    ensures Sorted(sorted) && multiset(sorted) == multiset(old(inputs.items))
    ensures inputs.items == Padded(sorted)
  {
    inputs.Sort();
    sorted := inputs.items;
    ghost var s := inputs.items;
    var lookup := BuildLookup(inputs.items);
    PadStart(s, lookup);

    // a list without a vec3 is already in its final order
    if lookup[VEC3].None? {
      return;
    }
    PadVec3Run(inputs, lookup, s, Lead(s, VEC3), Lead(s, VEC2), Lead(s, FLOAT));
  }

  // ---------------------------------------------------------------------------
  // Filling the buffer

  /**
   * The first loop of GPU_uniformbuffer_dynamic_create: the padded widths of
   * the list in bytes, rounded up to whole vec4s.
   */
  method PackedSize(x: seq<Input>) returns (size: nat)
    ensures size == BufferSize(x)
  {
    var bytes: nat := 0;
    for i := 0 to |x|
      invariant bytes == FLOAT_SIZE * Offset(x, i)
    {
      bytes := bytes + PaddedWidth(x, i) * FLOAT_SIZE;
    }
    // the block holds whole vec4s
    size := DivideCeil(bytes, ALIGNMENT) * ALIGNMENT;
  }

  /** A byte count that is a multiple of the vec4 size is a whole number of floats. */
  lemma WholeFloats(size: nat)
    requires size % 16 == 0
    ensures size == 4 * (size / 4)
  {
    var k := size / 16;
    assert size == 16 * k;
    assert size / 4 == 4 * k;
  }

  /** after is before with v written at float offset at, and nothing else changed. */
  ghost predicate Copied(before: seq<Word>, after: seq<Word>, at: nat, v: seq<Word>) {
    && |after| == |before| && at + |v| <= |after|
    && (forall t :: 0 <= t < |v| ==> after[at + t] == v[t])
    && (forall t :: 0 <= t < |after| && !(at <= t < at + |v|) ==> after[t] == before[t])
  }

  /** The memcpy of one input's components to float offset at. */
  method CopyComponents(data: array<Word>, at: nat, v: seq<Word>)
    requires at + |v| <= data.Length
    modifies data
    ensures Copied(old(data[..]), data[..], at, v)
  {
    for k := 0 to |v|
      invariant forall t :: 0 <= t < k ==> data[at + t] == v[t]
      invariant forall t :: 0 <= t < data.Length && !(at <= t < at + k) ==> data[t] == old(data[t])
    {
      data[at + k] := v[k];
    }
  }

  /** The first n inputs of x sit in d at their offsets. */
  ghost predicate Filled(d: seq<Word>, x: seq<Input>, n: nat)
    requires n <= |x|
  {
    forall a :: 0 <= a < n ==> EntryAt(d, x, a)
  }

  /** A copy leaves every range that ends before it as it was. */
  lemma CopyKeeps(before: seq<Word>, after: seq<Word>, at: nat, v: seq<Word>, lo: nat, hi: nat)
    requires Copied(before, after, at, v)
    requires lo <= hi <= at
    ensures after[lo..hi] == before[lo..hi]
  {
  }

  /** A copy holds what it copied. */
  lemma CopyHolds(before: seq<Word>, after: seq<Word>, at: nat, v: seq<Word>)
    requires Copied(before, after, at, v)
    ensures after[at..at + |v|] == v
  {
  }

  /** Copying input n to its offset keeps an input a before it, which ends no later than n starts. */
  lemma EntryKept(before: seq<Word>, after: seq<Word>, x: seq<Input>, a: nat, n: nat)
    requires a < n < |x| && WellFormed(x[a])
    requires EntryAt(before, x, a)
    requires Copied(before, after, Offset(x, n), x[n].vec)
    ensures EntryAt(after, x, a)
  {
    OffsetsDisjoint(x, a, n);
    CopyKeeps(before, after, Offset(x, n), x[n].vec, Offset(x, a), Offset(x, a) + |x[a].vec|);
  }

  /** Copying input n to its offset keeps the inputs before it. */
  lemma FilledKept(before: seq<Word>, after: seq<Word>, x: seq<Input>, n: nat)
    requires n < |x| && forall i :: 0 <= i < |x| ==> WellFormed(x[i])
    requires Filled(before, x, n)
    requires Copied(before, after, Offset(x, n), x[n].vec)
    ensures Filled(after, x, n)
  {
    forall a | 0 <= a < n
      ensures EntryAt(after, x, a)
    {
      EntryKept(before, after, x, a, n);
    }
  }

  /** Copying input n to its offset puts it in place. */
  lemma EntryCopied(before: seq<Word>, after: seq<Word>, x: seq<Input>, n: nat)
    requires n < |x|
    requires Copied(before, after, Offset(x, n), x[n].vec)
    ensures EntryAt(after, x, n)
  {
    CopyHolds(before, after, Offset(x, n), x[n].vec);
  }

  lemma FilledExtend(d: seq<Word>, x: seq<Input>, n: nat)
    requires n < |x| && Filled(d, x, n) && EntryAt(d, x, n)
    ensures Filled(d, x, n + 1)
  {
  }

  /** Copying input n to its offset adds it to the inputs already in place. */
  lemma FilledStep(before: seq<Word>, after: seq<Word>, x: seq<Input>, n: nat)
    requires n < |x| && forall i :: 0 <= i < |x| ==> WellFormed(x[i])
    requires Filled(before, x, n)
    requires Copied(before, after, Offset(x, n), x[n].vec)
    ensures Filled(after, x, n + 1)
  {
    FilledKept(before, after, x, n);
    EntryCopied(before, after, x, n);
    FilledExtend(after, x, n);
  }

  /** Input i's components fit in a buffer of n floats that meets the rounded size. */
  lemma FitsAt(x: seq<Input>, i: nat, n: nat)
    requires i < |x| && WellFormed(x[i])
    requires FLOAT_SIZE * n == BufferSize(x)
    ensures Offset(x, i) + |x[i].vec| <= n
  {
    OffsetsDisjoint(x, i, |x|);
  }

  /**
   * The second loop of GPU_uniformbuffer_dynamic_create: a buffer of size
   * bytes holding the components of each input at its padded offset. The
   * padding floats are left as they were allocated.
   */
  method Serialize(x: seq<Input>, size: nat) returns (block: seq<Word>)
    requires forall i :: 0 <= i < |x| ==> WellFormed(x[i])
    requires size == BufferSize(x)
    ensures Packs(block, x)
  {
    WholeFloats(size);
    var data := new Word[size / FLOAT_SIZE](_ => 0);
    var offset: nat := 0;
    for i := 0 to |x|
      invariant offset == Offset(x, i)
      invariant Filled(data[..], x, i)
    {
      ghost var before := data[..];
      FitsAt(x, i, data.Length);
      CopyComponents(data, offset, x[i].vec);
      FilledStep(before, data[..], x, i);
      offset := offset + PaddedWidth(x, i);
    }
    block := data[..];
  }
}
