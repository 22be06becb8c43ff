/**
 * What the layout of UboLayout guarantees: the padding pass only rearranges,
 * it moves floats and nothing else, it pairs as many vec3s with floats as it
 * can, every entry of the supported types lands on its std140 alignment, and
 * the serialised regions are disjoint and fit in the rounded buffer size.
 */
module UboLayoutProofs {
  import opened UboLayout

  // ---------------------------------------------------------------------------
  // Offsets and the buffer size

  /** Entry i's components end no later than any later entry starts. */
  lemma {:induction false} OffsetsDisjoint(x: seq<Input>, i: nat, j: nat)
    requires i < j <= |x|
    ensures Offset(x, i) + x[i].kind <= Offset(x, j)
  {
    if j > i + 1 {
      OffsetsDisjoint(x, i, j - 1);
    }
  }

  /** Every entry's components lie within the rounded buffer size. */
  lemma LayoutFits(x: seq<Input>)
    ensures forall i :: 0 <= i < |x| ==> FLOAT_SIZE * (Offset(x, i) + x[i].kind) <= BufferSize(x)
  {
    forall i | 0 <= i < |x|
      ensures FLOAT_SIZE * (Offset(x, i) + x[i].kind) <= BufferSize(x)
    {
      OffsetsDisjoint(x, i, |x|);
    }
  }

  lemma {:induction false} OffsetZero(x: seq<Input>, n: nat)
    requires n <= |x|
    ensures Offset(x, n) == 0 <==> forall i :: 0 <= i < n ==> x[i].kind == 0
  {
    if n > 0 {
      OffsetZero(x, n - 1);
    }
  }

  /** The buffer is empty exactly when every entry has a zero-width type. */
  lemma BufferSizePositive(x: seq<Input>)
    ensures BufferSize(x) > 0 <==> exists i :: 0 <= i < |x| && x[i].kind > 0
  {
    OffsetZero(x, |x|);
  }

  // ---------------------------------------------------------------------------
  // The padding pass is a rearrangement

  lemma MultisetLast(vs: seq<Input>)
    requires vs != []
    ensures multiset(vs) == multiset(vs[..|vs| - 1]) + multiset{vs[|vs| - 1]}
  {
    assert vs == vs[..|vs| - 1] + [vs[|vs| - 1]];
  }

  lemma MultisetSnoc(t: seq<Input>, a: multiset<Input>, b: multiset<Input>, v: Input, f: Input)
    requires multiset(t) == a + b
    ensures multiset(t + [v, f]) == (a + multiset{v}) + (b + multiset{f})
  {
    assert multiset(t + [v, f]) == multiset(t) + multiset([v, f]);
    assert multiset([v, f]) == multiset{v} + multiset{f};
  }

  lemma {:induction false} InterleaveMultiset(vs: seq<Input>, fs: seq<Input>)
    requires |vs| == |fs|
    ensures multiset(Interleave(vs, fs)) == multiset(vs) + multiset(fs)
    decreases |vs|
  {
    if vs != [] {
      var n := |vs| - 1;
      InterleaveMultiset(vs[..n], fs[..n]);
      MultisetLast(vs);
      MultisetLast(fs);
      MultisetSnoc(Interleave(vs[..n], fs[..n]), multiset(vs[..n]), multiset(fs[..n]), vs[n], fs[n]);
    }
  }

  lemma PiecesMultiset(a: seq<Input>, b: seq<Input>, c: seq<Input>, d: seq<Input>, e: seq<Input>)
    requires |b| == |d|
    ensures multiset(a + Interleave(b, d) + c + e) == multiset(a + b + c + d + e)
  {
    InterleaveMultiset(b, d);
  }

  lemma SlicesMultiset(s: seq<Input>, p: nat, r: nat, m: nat)
    requires p + m <= r <= |s| - m
    ensures multiset(s[..p] + s[p..p + m] + s[p + m..r] + s[r..r + m] + s[r + m..]) == multiset(s)
  {
    assert s[..r] == s[..p] + s[p..p + m] + s[p + m..r];
    assert s[r..] == s[r..r + m] + s[r + m..];
    assert s == s[..r] + s[r..];
  }

  /** After any number of moves the list holds the same entries as before. */
  lemma PadWithPermutes(s: seq<Input>, p: nat, r: nat, m: nat)
    requires p + m <= r <= |s| - m
    ensures multiset(PadWith(s, p, r, m)) == multiset(s)
  {
    var a, b, c, d, e := s[..p], s[p..p + m], s[p + m..r], s[r..r + m], s[r + m..];
    assert PadWith(s, p, r, m) == a + Interleave(b, d) + c + e;
    PiecesMultiset(a, b, c, d, e);
    SlicesMultiset(s, p, r, m);
    assert multiset(a + b + c + d + e) == multiset(s);
  }

  /**
   * Sorting followed by the padding pass drops nothing and duplicates nothing,
   * whichever sorted rearrangement t of s the sort leaves.
   */
  lemma InputsSortPermutes(s: seq<Input>, t: seq<Input>)
    requires Sorted(t) && multiset(t) == multiset(s)
    ensures multiset(Padded(t)) == multiset(s)
  {
    LeadOrder(t);
    PadWithPermutes(t, Lead(t, VEC3), Lead(t, FLOAT), Moves(t));
  }

  // ---------------------------------------------------------------------------
  // The shape of a sorted list

  /**
   * The runs of a sorted list: types above vec3 before p, vec3s from p to q,
   * vec2s from q to r, and floats or lower types from r on.
   */
  ghost predicate Shape(s: seq<Input>, p: nat, q: nat, r: nat) {
    && p <= q <= r <= |s|
    && (forall i :: 0 <= i < p ==> s[i].kind > VEC3)
    && (forall i :: p <= i < q ==> s[i].kind == VEC3)
    && (forall i :: q <= i < r ==> s[i].kind == VEC2)
    && (forall i :: r <= i < |s| ==> s[i].kind <= FLOAT)
  }

  /** In a sorted list every entry from the first one of type t or below on is of type t or below. */
  lemma SortedBelow(s: seq<Input>, n: nat, t: nat)
    requires Sorted(s)
    requires n <= |s| && (n < |s| ==> s[n].kind <= t)
    ensures forall i :: n <= i < |s| ==> s[i].kind <= t
  {
    forall i | n <= i < |s|
      ensures s[i].kind <= t
    {
      assert InputsCmp(s[n], s[i]) == 0;
    }
  }

  lemma SortedShape(s: seq<Input>)
    requires Sorted(s)
    ensures Shape(s, Lead(s, VEC3), Lead(s, VEC2), Lead(s, FLOAT))
  {
    LeadOrder(s);
    SortedBelow(s, Lead(s, VEC3), VEC3);
    SortedBelow(s, Lead(s, VEC2), VEC2);
    SortedBelow(s, Lead(s, FLOAT), FLOAT);
  }

  // ---------------------------------------------------------------------------
  // Only floats move

  /** The entries of x that are floats (floats == true) or that are not, in list order. */
  function Pick(x: seq<Input>, floats: bool): seq<Input> {
    if x == [] then []
    else (if (x[0].kind == FLOAT) == floats then [x[0]] else []) + Pick(x[1..], floats)
  }

  lemma {:induction false} PickAppend(a: seq<Input>, b: seq<Input>, floats: bool)
    ensures Pick(a + b, floats) == Pick(a, floats) + Pick(b, floats)
  {
    if a == [] {
      assert a + b == b;
    } else {
      var c := a + b;
      assert c[0] == a[0] && c[1..] == a[1..] + b;
      PickAppend(a[1..], b, floats);
      var h := if (a[0].kind == FLOAT) == floats then [a[0]] else [];
      assert Pick(c, floats) == h + Pick(c[1..], floats);
      assert Pick(a, floats) == h + Pick(a[1..], floats);
    }
  }

  lemma {:induction false} PickAll(a: seq<Input>, floats: bool)
    requires forall i :: 0 <= i < |a| ==> (a[i].kind == FLOAT) == floats
    ensures Pick(a, floats) == a
  {
    if a != [] {
      PickAll(a[1..], floats);
    }
  }

  lemma {:induction false} PickNone(a: seq<Input>, floats: bool)
    requires forall i :: 0 <= i < |a| ==> (a[i].kind == FLOAT) != floats
    ensures Pick(a, floats) == []
  {
    if a != [] {
      PickNone(a[1..], floats);
    }
  }

  lemma PickPair(v: Input, f: Input)
    requires v.kind != FLOAT && f.kind == FLOAT
    ensures Pick([v, f], false) == [v] && Pick([v, f], true) == [f]
  {
    assert [v, f][1..] == [f];
    assert [f][1..] == [];
    assert Pick([f], true) == [f] + Pick([], true);
    assert Pick([f], false) == [] && Pick([f], true) == [f];
  }

  lemma PickFour(a: seq<Input>, b: seq<Input>, c: seq<Input>, d: seq<Input>, floats: bool)
    ensures Pick(a + b + c + d, floats) == Pick(a, floats) + Pick(b, floats) + Pick(c, floats) + Pick(d, floats)
  {
    PickAppend(a + b + c, d, floats);
    PickAppend(a + b, c, floats);
    PickAppend(a, b, floats);
  }

  lemma {:induction false} PickInterleave(vs: seq<Input>, fs: seq<Input>)
    requires |vs| == |fs|
    requires forall i :: 0 <= i < |vs| ==> vs[i].kind != FLOAT
    requires forall i :: 0 <= i < |fs| ==> fs[i].kind == FLOAT
    ensures Pick(Interleave(vs, fs), false) == vs
    ensures Pick(Interleave(vs, fs), true) == fs
    decreases |vs|
  {
    if vs != [] {
      var n := |vs| - 1;
      PickInterleave(vs[..n], fs[..n]);
      var pair := [vs[n], fs[n]];
      assert Interleave(vs, fs) == Interleave(vs[..n], fs[..n]) + pair;
      PickAppend(Interleave(vs[..n], fs[..n]), pair, false);
      PickAppend(Interleave(vs[..n], fs[..n]), pair, true);
      PickPair(vs[n], fs[n]);
      assert vs == vs[..n] + [vs[n]];
      assert fs == fs[..n] + [fs[n]];
    }
  }

  /** A slice of s over which every type is, or every type is not, a float. */
  lemma SliceFloats(s: seq<Input>, lo: nat, hi: nat, floats: bool)
    requires lo <= hi <= |s|
    requires forall i :: lo <= i < hi ==> (s[i].kind == FLOAT) == floats
    ensures forall i :: 0 <= i < hi - lo ==> (s[lo..hi][i].kind == FLOAT) == floats
  {
    forall i | 0 <= i < hi - lo
      ensures (s[lo..hi][i].kind == FLOAT) == floats
    {
      assert s[lo..hi][i] == s[lo + i];
    }
  }

  lemma SplitAt(s: seq<Input>, p: nat, r: nat, m: nat)
    requires p + m <= r <= |s| - m
    ensures s[..r] == s[..p] + s[p..p + m] + s[p + m..r]
    ensures s[r..] == s[r..r + m] + s[r + m..]
  {
  }

  /** Picking from a slice that is all floats, or has none, keeps all of it or nothing. */
  lemma SlicePicks(s: seq<Input>, lo: nat, hi: nat, floats: bool)
    requires lo <= hi <= |s|
    requires forall i :: lo <= i < hi ==> (s[i].kind == FLOAT) == floats
    ensures Pick(s[lo..hi], floats) == s[lo..hi]
    ensures Pick(s[lo..hi], !floats) == []
  {
    SliceFloats(s, lo, hi, floats);
    PickAll(s[lo..hi], floats);
    PickNone(s[lo..hi], !floats);
  }

  lemma PrefixPicks(s: seq<Input>, hi: nat, floats: bool)
    requires hi <= |s|
    requires forall i :: 0 <= i < hi ==> (s[i].kind == FLOAT) == floats
    ensures Pick(s[..hi], floats) == s[..hi]
    ensures Pick(s[..hi], !floats) == []
  {
    forall i | 0 <= i < hi
      ensures (s[..hi][i].kind == FLOAT) == floats
    {
      assert s[..hi][i] == s[i];
    }
    PickAll(s[..hi], floats);
    PickNone(s[..hi], !floats);
  }

  lemma SuffixPicks(s: seq<Input>, lo: nat, floats: bool)
    requires lo <= |s|
    requires forall i :: lo <= i < |s| ==> (s[i].kind == FLOAT) == floats
    ensures Pick(s[lo..], floats) == s[lo..]
    ensures Pick(s[lo..], !floats) == []
  {
    forall i | 0 <= i < |s| - lo
      ensures (s[lo..][i].kind == FLOAT) == floats
    {
      assert s[lo..][i] == s[lo + i];
    }
    PickAll(s[lo..], floats);
    PickNone(s[lo..], !floats);
  }

  lemma InterleavePicks(s: seq<Input>, p: nat, r: nat, m: nat)
    requires p + m <= r <= |s| - m
    requires forall i :: 0 <= i < r ==> s[i].kind != FLOAT
    requires forall i :: r <= i < |s| ==> s[i].kind == FLOAT
    ensures Pick(Interleave(s[p..p + m], s[r..r + m]), false) == s[p..p + m]
    ensures Pick(Interleave(s[p..p + m], s[r..r + m]), true) == s[r..r + m]
  {
    SliceFloats(s, p, p + m, false);
    SliceFloats(s, r, r + m, true);
    PickInterleave(s[p..p + m], s[r..r + m]);
  }

  /** Picking from a list made of four pieces, given what picking does on each. */
  lemma PickOfFour(x: seq<Input>, a: seq<Input>, b: seq<Input>, c: seq<Input>, d: seq<Input>,
                   pa: seq<Input>, pb: seq<Input>, pc: seq<Input>, pd: seq<Input>, y: seq<Input>, floats: bool)
    requires x == a + b + c + d
    requires Pick(a, floats) == pa && Pick(b, floats) == pb && Pick(c, floats) == pc && Pick(d, floats) == pd
    requires y == pa + pb + pc + pd
    ensures Pick(x, floats) == y
  {
    PickFour(a, b, c, d, floats);
  }

  /** The non-float pieces of PadWith, in order, make up the head of the list. */
  lemma JoinOthers(s: seq<Input>, p: nat, r: nat, m: nat)
    requires p + m <= r <= |s| - m
    ensures s[..p] + s[p..p + m] + s[p + m..r] + [] == s[..r]
  {
    SplitAt(s, p, r, m);
  }

  /** The float pieces of PadWith, in order, make up the tail of the list. */
  lemma JoinFloats(s: seq<Input>, p: nat, r: nat, m: nat)
    requires p + m <= r <= |s| - m
    ensures [] + s[r..r + m] + [] + s[r + m..] == s[r..]
  {
    SplitAt(s, p, r, m);
  }

  /** Picking the non-floats from PadWith piece by piece. */
  lemma OthersOfPieces(s: seq<Input>, p: nat, r: nat, m: nat)
    requires p + m <= r <= |s| - m
    requires Pick(s[..p], false) == s[..p]
    requires Pick(s[p + m..r], false) == s[p + m..r]
    requires Pick(s[r + m..], false) == []
    requires Pick(Interleave(s[p..p + m], s[r..r + m]), false) == s[p..p + m]
    ensures Pick(PadWith(s, p, r, m), false) == s[..p] + s[p..p + m] + s[p + m..r] + []
  {
    PickOfFour(PadWith(s, p, r, m), s[..p], Interleave(s[p..p + m], s[r..r + m]), s[p + m..r], s[r + m..],
               s[..p], s[p..p + m], s[p + m..r], [], s[..p] + s[p..p + m] + s[p + m..r] + [], false);
  }

  /** Picking the floats from PadWith piece by piece. */
  lemma FloatsOfPieces(s: seq<Input>, p: nat, r: nat, m: nat)
    requires p + m <= r <= |s| - m
    requires Pick(s[..p], true) == []
    requires Pick(s[p + m..r], true) == []
    requires Pick(s[r + m..], true) == s[r + m..]
    requires Pick(Interleave(s[p..p + m], s[r..r + m]), true) == s[r..r + m]
    ensures Pick(PadWith(s, p, r, m), true) == [] + s[r..r + m] + [] + s[r + m..]
  {
    PickOfFour(PadWith(s, p, r, m), s[..p], Interleave(s[p..p + m], s[r..r + m]), s[p + m..r], s[r + m..],
               [], s[r..r + m], [], s[r + m..], [] + s[r..r + m] + [] + s[r + m..], true);
  }

  /** Picking from PadWith, given what picking does on each of its pieces. */
  lemma AssemblePicks(s: seq<Input>, p: nat, r: nat, m: nat)
    requires p + m <= r <= |s| - m
    requires Pick(s[..p], false) == s[..p] && Pick(s[..p], true) == []
    requires Pick(s[p + m..r], false) == s[p + m..r] && Pick(s[p + m..r], true) == []
    requires Pick(s[r + m..], false) == [] && Pick(s[r + m..], true) == s[r + m..]
    requires Pick(Interleave(s[p..p + m], s[r..r + m]), false) == s[p..p + m]
    requires Pick(Interleave(s[p..p + m], s[r..r + m]), true) == s[r..r + m]
    ensures Pick(PadWith(s, p, r, m), false) == s[..r]
    ensures Pick(PadWith(s, p, r, m), true) == s[r..]
  {
    OthersOfPieces(s, p, r, m);
    FloatsOfPieces(s, p, r, m);
    JoinOthers(s, p, r, m);
    JoinFloats(s, p, r, m);
  }

  /** What picking does on each piece of PadWith. */
  lemma PiecePicks(s: seq<Input>, p: nat, r: nat, m: nat)
    requires p + m <= r <= |s| - m
    requires forall i :: 0 <= i < r ==> s[i].kind != FLOAT
    requires forall i :: r <= i < |s| ==> s[i].kind == FLOAT
    ensures Pick(s[..p], false) == s[..p] && Pick(s[..p], true) == []
    ensures Pick(s[p + m..r], false) == s[p + m..r] && Pick(s[p + m..r], true) == []
    ensures Pick(s[r + m..], false) == [] && Pick(s[r + m..], true) == s[r + m..]
  {
    PrefixPicks(s, p, false);
    SlicePicks(s, p + m, r, false);
    SuffixPicks(s, r + m, true);
  }

  lemma PicksOfSlices(s: seq<Input>, p: nat, r: nat, m: nat)
    requires p + m <= r <= |s| - m
    requires forall i :: 0 <= i < r ==> s[i].kind != FLOAT
    requires forall i :: r <= i < |s| ==> s[i].kind == FLOAT
    ensures Pick(PadWith(s, p, r, m), false) == s[..r]
    ensures Pick(PadWith(s, p, r, m), true) == s[r..]
  {
    PiecePicks(s, p, r, m);
    InterleavePicks(s, p, r, m);
    AssemblePicks(s, p, r, m);
  }

  lemma PadWithPicks(s: seq<Input>, p: nat, q: nat, r: nat, m: nat)
    requires Shape(s, p, q, r)
    requires forall i :: 0 <= i < |s| ==> s[i].kind >= FLOAT
    requires p + m <= q && r + m <= |s|
    ensures Pick(PadWith(s, p, r, m), false) == s[..r]
    ensures Pick(PadWith(s, p, r, m), true) == s[r..]
  {
    assert forall i :: 0 <= i < r ==> s[i].kind != FLOAT;
    PicksOfSlices(s, p, r, m);
  }

  lemma PicksOfSplit(s: seq<Input>, r: nat)
    requires r <= |s|
    requires forall i :: 0 <= i < r ==> s[i].kind != FLOAT
    requires forall i :: r <= i < |s| ==> s[i].kind == FLOAT
    ensures Pick(s, false) == s[..r] && Pick(s, true) == s[r..]
  {
    assert s == s[..r] + s[r..];
    PickAppend(s[..r], s[r..], false);
    PickAppend(s[..r], s[r..], true);
    PickAll(s[..r], false);
    PickNone(s[..r], true);
    PickNone(s[r..], false);
    PickAll(s[r..], true);
  }

  /** The run boundaries of [vec3, vec3, vec3, float, t0]. */
  lemma TypelessLeads(v: Input, f: Input, z: Input)
    requires v.kind == VEC3 && f.kind == FLOAT && z.kind == 0
    ensures Lead([v, v, v, f, z], VEC3) == 0
    ensures Lead([v, v, v, f, z], VEC2) == 3
    ensures Lead([v, v, v, f, z], FLOAT) == 3
  {
    var s, s1, s2, s3 := [v, v, v, f, z], [v, v, f, z], [v, f, z], [f, z];
    assert s[1..] == s1 && s1[1..] == s2 && s2[1..] == s3;
    assert Lead(s3, VEC2) == 0 && Lead(s3, FLOAT) == 0;
    assert Lead(s2, VEC2) == 1 && Lead(s2, FLOAT) == 1;
    assert Lead(s1, VEC2) == 2 && Lead(s1, FLOAT) == 2;
  }

  /** The non-floats of [vec3, vec3, vec3, float, t0], in order. */
  lemma TypelessOthersBefore(v: Input, f: Input, z: Input)
    requires v.kind == VEC3 && f.kind == FLOAT && z.kind == 0
    ensures Pick([v, v, v, f, z], false) == [v, v, v, z]
  {
    var s, s1, s2, s3, s4 := [v, v, v, f, z], [v, v, f, z], [v, f, z], [f, z], [z];
    assert s[1..] == s1 && s1[1..] == s2 && s2[1..] == s3 && s3[1..] == s4 && s4[1..] == [];
    assert Pick(s4, false) == [z] + Pick([], false) == [z];
    assert Pick(s3, false) == Pick(s4, false);
    assert Pick(s2, false) == [v] + Pick(s3, false) == [v, z];
    assert Pick(s1, false) == [v] + Pick(s2, false) == [v, v, z];
    assert Pick(s, false) == [v] + Pick(s1, false) == [v, v, v, z];
  }

  /** The non-floats of [vec3, float, vec3, t0, vec3], in order. */
  lemma TypelessOthersAfter(v: Input, f: Input, z: Input)
    requires v.kind == VEC3 && f.kind == FLOAT && z.kind == 0
    ensures Pick([v, f, v, z, v], false) == [v, v, z, v]
  {
    var s, s1, s2, s3, s4 := [v, f, v, z, v], [f, v, z, v], [v, z, v], [z, v], [v];
    assert s[1..] == s1 && s1[1..] == s2 && s2[1..] == s3 && s3[1..] == s4 && s4[1..] == [];
    assert Pick(s4, false) == [v] + Pick([], false) == [v];
    assert Pick(s3, false) == [z] + Pick(s4, false) == [z, v];
    assert Pick(s2, false) == [v] + Pick(s3, false) == [v, z, v];
    assert Pick(s1, false) == Pick(s2, false);
    assert Pick(s, false) == [v] + Pick(s1, false) == [v, v, z, v];
  }

  /**
   * Why PadMovesOnlyFloats excludes typeless entries: the float slot of the
   * lookup table steps to the next link whatever its type, so with more vec3s
   * than floats the pass also moves a typeless entry that follows the last
   * float, and the order of the non-floats changes.
   */
  lemma PadMovesTypeless(v: Input, f: Input, z: Input)
    requires v.kind == VEC3 && f.kind == FLOAT && z.kind == 0
    ensures Padded([v, v, v, f, z]) == [v, f, v, z, v]
    ensures Pick(Padded([v, v, v, f, z]), false) != Pick([v, v, v, f, z], false)
  {
    var s := [v, v, v, f, z];
    TypelessLeads(v, f, z);
    assert Moves(s) == 2;
    assert Padded(s) == PadWith(s, 0, 3, 2);
    assert s[..0] == [] && s[0..2] == [v, v] && s[3..5] == [f, z] && s[2..3] == [v] && s[5..] == [];
    assert Interleave([v, v], [f, z]) == [v, f, v, z] by {
      assert [v, v][..1] == [v] && [f, z][..1] == [f];
      assert Interleave([v], [f]) == [v, f] by {
        assert Interleave([], []) == [];
      }
    }
    assert PadWith(s, 0, 3, 2) == [] + [v, f, v, z] + [v] + [];
    TypelessOthersBefore(v, f, z);
    TypelessOthersAfter(v, f, z);
    assert [v, v, z, v][2] != [v, v, v, z][2];
  }

  /**
   * With no typeless (GPU_NONE) entries, the padding pass moves floats only:
   * the other entries keep their order, and so do the floats among themselves.
   */
  lemma PadMovesOnlyFloats(s: seq<Input>)
    requires Sorted(s)
    requires forall i :: 0 <= i < |s| ==> s[i].kind >= FLOAT
    ensures Pick(Padded(s), false) == Pick(s, false)
    ensures Pick(Padded(s), true) == Pick(s, true)
  {
    SortedShape(s);
    var p, q, r := Lead(s, VEC3), Lead(s, VEC2), Lead(s, FLOAT);
    PadWithPicks(s, p, q, r, Moves(s));
    PicksOfSplit(s, r);
  }

  // ---------------------------------------------------------------------------
  // As many vec3s as possible get a float

  /** Number of entries of type k. */
  function Count(x: seq<Input>, k: nat): nat {
    if x == [] then 0 else (if x[0].kind == k then 1 else 0) + Count(x[1..], k)
  }

  /** Number of vec3 entries immediately followed by a float. */
  function Vec3FloatPairs(x: seq<Input>): nat {
    if |x| < 2 then 0
    else (if x[0].kind == VEC3 && x[1].kind == FLOAT then 1 else 0) + Vec3FloatPairs(x[1..])
  }

  lemma {:induction false} CountAppend(a: seq<Input>, b: seq<Input>, k: nat)
    ensures Count(a + b, k) == Count(a, k) + Count(b, k)
  {
    if a == [] {
      assert a + b == b;
    } else {
      assert (a + b)[1..] == a[1..] + b;
      CountAppend(a[1..], b, k);
    }
  }

  lemma {:induction false} CountAll(a: seq<Input>, k: nat)
    requires forall i :: 0 <= i < |a| ==> a[i].kind == k
    ensures Count(a, k) == |a|
  {
    if a != [] {
      CountAll(a[1..], k);
    }
  }

  lemma {:induction false} CountNone(a: seq<Input>, k: nat)
    requires forall i :: 0 <= i < |a| ==> a[i].kind != k
    ensures Count(a, k) == 0
  {
    if a != [] {
      CountNone(a[1..], k);
    }
  }

  lemma {:induction false} PairsAppend(a: seq<Input>, b: seq<Input>)
    ensures Vec3FloatPairs(a + b) == Vec3FloatPairs(a) + Vec3FloatPairs(b) +
      (if a != [] && b != [] && a[|a| - 1].kind == VEC3 && b[0].kind == FLOAT then 1 else 0)
  {
    if a == [] {
      assert a + b == b;
    } else if |a| == 1 {
      if b == [] {
        assert a + b == a;
      } else {
        assert (a + b)[1..] == b;
      }
    } else {
      assert (a + b)[1..] == a[1..] + b;
      PairsAppend(a[1..], b);
    }
  }

  lemma {:induction false} PairsWithout(a: seq<Input>, k: nat)
    requires k == VEC3 || k == FLOAT
    requires forall i :: 0 <= i < |a| ==> a[i].kind != k
    ensures Vec3FloatPairs(a) == 0
  {
    if |a| >= 2 {
      PairsWithout(a[1..], k);
    }
  }

  lemma {:induction false} PairsInterleave(vs: seq<Input>, fs: seq<Input>)
    requires |vs| == |fs|
    requires forall i :: 0 <= i < |vs| ==> vs[i].kind == VEC3
    requires forall i :: 0 <= i < |fs| ==> fs[i].kind == FLOAT
    ensures Vec3FloatPairs(Interleave(vs, fs)) == |vs|
    ensures vs != [] ==> Interleave(vs, fs)[0].kind == VEC3
    ensures vs != [] ==> Interleave(vs, fs)[2 * |vs| - 1].kind == FLOAT
    decreases |vs|
  {
    if vs != [] {
      var n := |vs| - 1;
      PairsInterleave(vs[..n], fs[..n]);
      var pair := [vs[n], fs[n]];
      assert Interleave(vs, fs) == Interleave(vs[..n], fs[..n]) + pair;
      PairsAppend(Interleave(vs[..n], fs[..n]), pair);
      assert pair[1..] == [fs[n]];
    }
  }

  lemma PairsOfPieces(a: seq<Input>, il: seq<Input>, c: seq<Input>, e: seq<Input>, m: nat)
    requires Vec3FloatPairs(a) == 0 && Vec3FloatPairs(il) == m
    requires Vec3FloatPairs(c) == 0 && Vec3FloatPairs(e) == 0
    requires a != [] ==> a[|a| - 1].kind != VEC3
    requires il != [] ==> il[0].kind != FLOAT && il[|il| - 1].kind == FLOAT
    requires c != [] ==> c[0].kind != FLOAT
    requires e != [] && c != [] ==> c[|c| - 1].kind != VEC3
    ensures Vec3FloatPairs(a + il + c + e) == m
  {
    PairsAppend(a, il);
    PairsAppend(a + il, c);
    PairsAppend(a + il + c, e);
    if e != [] && c == [] && il != [] {
      assert (a + il + c)[|a + il + c| - 1] == il[|il| - 1];
    }
    if e != [] && c == [] && il == [] && a != [] {
      assert (a + il + c)[|a + il + c| - 1] == a[|a| - 1];
    }
    if e != [] && c != [] {
      assert (a + il + c)[|a + il + c| - 1] == c[|c| - 1];
    }
  }

  lemma {:induction false} CountSplit(s: seq<Input>, p: nat, q: nat, k: nat)
    requires p <= q <= |s|
    ensures Count(s, k) == Count(s[..p], k) + Count(s[p..q], k) + Count(s[q..], k)
  {
    assert s == s[..p] + s[p..q] + s[q..];
    CountAppend(s[..p] + s[p..q], s[q..], k);
    CountAppend(s[..p], s[p..q], k);
  }

  lemma CountSliceNone(s: seq<Input>, lo: nat, hi: nat, k: nat)
    requires lo <= hi <= |s|
    requires forall i :: lo <= i < hi ==> s[i].kind != k
    ensures Count(s[lo..hi], k) == 0
  {
    var a := s[lo..hi];
    assert forall i :: 0 <= i < |a| ==> a[i] == s[lo + i];
    CountNone(a, k);
  }

  lemma CountSliceAll(s: seq<Input>, lo: nat, hi: nat, k: nat)
    requires lo <= hi <= |s|
    requires forall i :: lo <= i < hi ==> s[i].kind == k
    ensures Count(s[lo..hi], k) == hi - lo
  {
    var a := s[lo..hi];
    assert forall i :: 0 <= i < |a| ==> a[i] == s[lo + i];
    CountAll(a, k);
  }

  lemma Vec3sOfShape(s: seq<Input>, p: nat, q: nat, r: nat)
    requires Shape(s, p, q, r)
    ensures Count(s, VEC3) == q - p
  {
    CountSplit(s, p, q, VEC3);
    assert s[..p] == s[0..p] && s[q..] == s[q..|s|];
    CountSliceNone(s, 0, p, VEC3);
    CountSliceAll(s, p, q, VEC3);
    CountSliceNone(s, q, |s|, VEC3);
  }

  lemma FloatsOfShape(s: seq<Input>, p: nat, q: nat, r: nat)
    requires Shape(s, p, q, r)
    requires forall i :: 0 <= i < |s| ==> s[i].kind >= FLOAT
    ensures Count(s, FLOAT) == |s| - r
  {
    CountSplit(s, r, r, FLOAT);
    assert s[..r] == s[0..r] && s[r..] == s[r..|s|];
    CountSliceNone(s, 0, r, FLOAT);
    CountSliceAll(s, r, |s|, FLOAT);
  }

  lemma CountsOfShape(s: seq<Input>, p: nat, q: nat, r: nat)
    requires Shape(s, p, q, r)
    requires forall i :: 0 <= i < |s| ==> s[i].kind >= FLOAT
    ensures Count(s, VEC3) == q - p && Count(s, FLOAT) == |s| - r
  {
    Vec3sOfShape(s, p, q, r);
    FloatsOfShape(s, p, q, r);
  }

  lemma HeadPieceFacts(s: seq<Input>, p: nat, q: nat, r: nat)
    requires Shape(s, p, q, r)
    ensures Vec3FloatPairs(s[..p]) == 0
    ensures s[..p] != [] ==> s[..p][|s[..p]| - 1].kind != VEC3
  {
    PairsWithout(s[..p], VEC3);
  }

  lemma MovedPieceFacts(s: seq<Input>, p: nat, q: nat, r: nat, m: nat, vs: seq<Input>, fs: seq<Input>)
    requires Shape(s, p, q, r)
    requires forall i :: 0 <= i < |s| ==> s[i].kind >= FLOAT
    requires p + m <= q && r + m <= |s|
    requires vs == s[p..p + m] && fs == s[r..r + m]
    ensures forall i :: 0 <= i < |vs| ==> vs[i].kind == VEC3
    ensures forall i :: 0 <= i < |fs| ==> fs[i].kind == FLOAT
  {
  }

  lemma MiddlePieceFacts(s: seq<Input>, p: nat, q: nat, r: nat, m: nat)
    requires Shape(s, p, q, r)
    requires p + m <= q && r + m <= |s|
    requires p + m == q || r + m == |s|
    ensures Vec3FloatPairs(s[p + m..r]) == 0
    ensures s[p + m..r] != [] ==> s[p + m..r][0].kind != FLOAT
    ensures s[r + m..] != [] && s[p + m..r] != [] ==> s[p + m..r][|s[p + m..r]| - 1].kind != VEC3
  {
    var c := s[p + m..r];
    assert forall i :: 0 <= i < |c| ==> c[i] == s[p + m + i];
    PairsWithout(s[p + m..r], FLOAT);
  }

  lemma EndPieceFacts(s: seq<Input>, p: nat, q: nat, r: nat, m: nat)
    requires Shape(s, p, q, r)
    requires r + m <= |s|
    ensures Vec3FloatPairs(s[r + m..]) == 0
  {
    var e := s[r + m..];
    assert forall i :: 0 <= i < |e| ==> e[i] == s[r + m + i];
    PairsWithout(s[r + m..], VEC3);
  }

  /** The moved piece of PadWith: m pairs, opening with a vec3 and closing with a float. */
  lemma InterleavePieceFacts(s: seq<Input>, p: nat, q: nat, r: nat, m: nat)
    requires Shape(s, p, q, r)
    requires forall i :: 0 <= i < |s| ==> s[i].kind >= FLOAT
    requires p + m <= q && r + m <= |s|
    ensures Vec3FloatPairs(Interleave(s[p..p + m], s[r..r + m])) == m
    ensures Interleave(s[p..p + m], s[r..r + m]) != [] ==>
      && Interleave(s[p..p + m], s[r..r + m])[0].kind != FLOAT
      && Interleave(s[p..p + m], s[r..r + m])[|Interleave(s[p..p + m], s[r..r + m])| - 1].kind == FLOAT
  {
    MovedPieceFacts(s, p, q, r, m, s[p..p + m], s[r..r + m]);
    PairsInterleave(s[p..p + m], s[r..r + m]);
  }

  /** The padded list has m vec3/float pairs once the vec3s or the floats run out. */
  lemma PadWithPairs(s: seq<Input>, p: nat, q: nat, r: nat, m: nat)
    requires Shape(s, p, q, r)
    requires forall i :: 0 <= i < |s| ==> s[i].kind >= FLOAT
    requires p + m <= q && r + m <= |s|
    requires p + m == q || r + m == |s|
    ensures Vec3FloatPairs(PadWith(s, p, r, m)) == m
  {
    HeadPieceFacts(s, p, q, r);
    InterleavePieceFacts(s, p, q, r, m);
    MiddlePieceFacts(s, p, q, r, m);
    EndPieceFacts(s, p, q, r, m);
    PairsOfPieces(s[..p], Interleave(s[p..p + m], s[r..r + m]), s[p + m..r], s[r + m..], m);
  }

  /**
   * With no typeless entries, the padding pass leaves exactly
   * min(number of vec3s, number of floats) vec3s immediately followed by a float.
   */
  lemma PadPairsVec3WithFloats(s: seq<Input>)
    requires Sorted(s)
    requires forall i :: 0 <= i < |s| ==> s[i].kind >= FLOAT
    ensures Vec3FloatPairs(Padded(s)) == Min(Count(s, VEC3), Count(s, FLOAT))
  {
    SortedShape(s);
    var p, q, r := Lead(s, VEC3), Lead(s, VEC2), Lead(s, FLOAT);
    CountsOfShape(s, p, q, r);
    PadWithPairs(s, p, q, r, Moves(s));
  }

  // ---------------------------------------------------------------------------
  // Every entry lands on its std140 alignment

  lemma {:induction false} InterleaveAt(vs: seq<Input>, fs: seq<Input>, k: nat)
    requires |vs| == |fs| && k < |vs|
    ensures Interleave(vs, fs)[2 * k] == vs[k]
    ensures Interleave(vs, fs)[2 * k + 1] == fs[k]
    decreases |vs|
  {
    var n := |vs| - 1;
    var front := Interleave(vs[..n], fs[..n]);
    assert Interleave(vs, fs) == front + [vs[n], fs[n]];
    if k < n {
      InterleaveAt(vs[..n], fs[..n], k);
    }
  }

  /** Where each entry of PadWith(s, p, r, m) comes from in s. */
  lemma PadWithAt(s: seq<Input>, p: nat, r: nat, m: nat, i: nat)
    requires p + m <= r <= |s| - m && i < |s|
    ensures |PadWith(s, p, r, m)| == |s|
    ensures i < p ==> PadWith(s, p, r, m)[i] == s[i]
    ensures p <= i < p + 2 * m && (i - p) % 2 == 0 ==> PadWith(s, p, r, m)[i] == s[p + (i - p) / 2]
    ensures p <= i < p + 2 * m && (i - p) % 2 == 1 ==> PadWith(s, p, r, m)[i] == s[r + (i - p) / 2]
    ensures p + 2 * m <= i < r + m ==> PadWith(s, p, r, m)[i] == s[i - m]
    ensures r + m <= i ==> PadWith(s, p, r, m)[i] == s[i]
  {
    var vs, fs := s[p..p + m], s[r..r + m];
    var x := PadWith(s, p, r, m);
    var iv := Interleave(vs, fs);
    assert x == s[..p] + iv + s[p + m..r] + s[r + m..];
    if i < p {
      assert x[i] == s[..p][i];
    } else if i < p + 2 * m {
      assert x[i] == iv[i - p];
      InterleaveAt(vs, fs, (i - p) / 2);
    } else if i < r + m {
      assert x[i] == s[p + m..r][i - p - 2 * m];
    } else {
      assert x[i] == s[r + m..][i - r - m];
    }
  }

  /**
   * The neighbourhood facts alignment rests on: a vec2 is followed by no wider
   * type, and a float followed by a wider type has a vec3 right before it.
   */
  ghost predicate Arranged(x: seq<Input>) {
    forall i :: 1 <= i < |x| ==> Neighbours(x, i)
  }

  ghost predicate Neighbours(x: seq<Input>, i: nat)
    requires 1 <= i < |x|
  {
    x[i].kind >= VEC2 ==>
      && (x[i - 1].kind == VEC2 ==> x[i].kind == VEC2)
      && (x[i - 1].kind == FLOAT ==> i >= 2 && x[i - 2].kind == VEC3)
  }

  /** A multiple of four floats is a multiple of two. */
  lemma FourIsTwo(o: int)
    requires o % 4 == 0
    ensures o % 2 == 0
  {
    var k := o / 4;
    assert o == 4 * k;
    assert o == 2 * (2 * k) + 0;
  }

  /** Stepping a multiple of four floats by a multiple of four keeps it one. */
  lemma AddFour(o: int, w: int)
    requires o % 4 == 0 && w % 4 == 0
    ensures (o + w) % 4 == 0
  {
    var k, j := o / 4, w / 4;
    assert o == 4 * k && w == 4 * j;
    assert o + w == 4 * (k + j) + 0;
  }

  /** Stepping a multiple of two floats by two keeps it one. */
  lemma AddTwo(o: int)
    requires o % 2 == 0
    ensures (o + 2) % 2 == 0
  {
    var k := o / 2;
    assert o == 2 * k;
    assert o + 2 == 2 * (k + 1) + 0;
  }

  /** An offset that is a multiple of four floats, or of two floats, meets an alignment a as far as it goes. */
  lemma AlignedTo(o: int, a: int)
    requires a == 1 || a == 2 || a == 4
    requires o % 4 == 0 || (a <= 2 && o % 2 == 0) || a == 1
    ensures o % a == 0
  {
    if a == 2 && o % 4 == 0 {
      FourIsTwo(o);
    }
  }

  /** The alignment property with the divisor written out per type. */
  lemma {:induction false} ArrangedOffsets(x: seq<Input>, i: nat)
    requires forall k :: 0 <= k < |x| ==> LayoutKind(x[k].kind)
    requires Arranged(x)
    requires i < |x|
    ensures BaseAlignment(x[i].kind) == 4 ==> Offset(x, i) % 4 == 0
    ensures BaseAlignment(x[i].kind) == 2 ==> Offset(x, i) % 2 == 0
    decreases i
  {
    if i > 0 && x[i].kind >= VEC2 {
      assert Neighbours(x, i);
      var prev := x[i - 1].kind;
      assert LayoutKind(prev);
      if prev == FLOAT {
        // a float that follows a vec3 fills that vec3's last slot
        assert x[i - 2].kind == VEC3;
        ArrangedOffsets(x, i - 2);
        var o := Offset(x, i - 2);
        assert o % 4 == 0;
        assert Offset(x, i) == o + 4;
        AddFour(o, 4);
        FourIsTwo(o + 4);
      } else if prev == VEC2 {
        ArrangedOffsets(x, i - 1);
        var o := Offset(x, i - 1);
        assert o % 2 == 0;
        assert Offset(x, i) == o + 2;
        AddTwo(o);
      } else {
        ArrangedOffsets(x, i - 1);
        var o, w := Offset(x, i - 1), PaddedWidth(x, i - 1);
        assert o % 4 == 0;
        assert w == 4 || w == 16;
        assert Offset(x, i) == o + w;
        AddFour(o, w);
        FourIsTwo(o + w);
      }
    }
  }

  lemma ArrangedAligned(x: seq<Input>, i: nat)
    requires forall k :: 0 <= k < |x| ==> LayoutKind(x[k].kind)
    requires Arranged(x)
    requires i < |x|
    ensures Offset(x, i) % BaseAlignment(x[i].kind) == 0
  {
    ArrangedOffsets(x, i);
    AlignedTo(Offset(x, i), BaseAlignment(x[i].kind));
  }

  /** The type of each entry of the padded list, region by region. */
  lemma PadKind(s: seq<Input>, p: nat, q: nat, r: nat, m: nat, i: nat)
    requires Shape(s, p, q, r)
    requires p + m <= q && r + m <= |s| && i < |s|
    ensures i < p ==> PadWith(s, p, r, m)[i].kind > VEC3
    ensures p <= i < p + 2 * m && (i - p) % 2 == 0 ==> PadWith(s, p, r, m)[i].kind == VEC3
    ensures p <= i < p + 2 * m && (i - p) % 2 == 1 ==> PadWith(s, p, r, m)[i].kind <= FLOAT
    ensures p + 2 * m <= i < q + m ==> PadWith(s, p, r, m)[i].kind == VEC3
    ensures q + m <= i < r + m ==> PadWith(s, p, r, m)[i].kind == VEC2
    ensures r + m <= i ==> PadWith(s, p, r, m)[i].kind <= FLOAT
  {
    PadWithAt(s, p, r, m, i);
    if p <= i < p + 2 * m {
      assert p <= p + (i - p) / 2 < q && r <= r + (i - p) / 2 < |s|;
    }
  }

  lemma ArrangedAt(s: seq<Input>, p: nat, q: nat, r: nat, m: nat, i: nat)
    requires Shape(s, p, q, r)
    requires forall k :: 0 <= k < |s| ==> LayoutKind(s[k].kind)
    requires p + m <= q && r + m <= |s|
    requires 1 <= i < |s| && PadWith(s, p, r, m)[i].kind >= VEC2
    ensures PadWith(s, p, r, m)[i - 1].kind == VEC2 ==> PadWith(s, p, r, m)[i].kind == VEC2
    ensures PadWith(s, p, r, m)[i - 1].kind == FLOAT ==> i >= 2 && PadWith(s, p, r, m)[i - 2].kind == VEC3
  {
    PadKind(s, p, q, r, m, i);
    PadKind(s, p, q, r, m, i - 1);
    if i >= 2 {
      PadKind(s, p, q, r, m, i - 2);
    }
  }

  lemma PadWithArranged(s: seq<Input>, p: nat, q: nat, r: nat, m: nat)
    requires Shape(s, p, q, r)
    requires forall k :: 0 <= k < |s| ==> LayoutKind(s[k].kind)
    requires p + m <= q && r + m <= |s|
    ensures Arranged(PadWith(s, p, r, m))
  {
    var x := PadWith(s, p, r, m);
    forall i | 1 <= i < |x|
      ensures Neighbours(x, i)
    {
      if x[i].kind >= VEC2 {
        ArrangedAt(s, p, q, r, m, i);
      }
    }
  }

  lemma SameKinds(a: seq<Input>, b: seq<Input>)
    requires multiset(a) == multiset(b)
    requires forall k :: 0 <= k < |a| ==> LayoutKind(a[k].kind)
    ensures forall k :: 0 <= k < |b| ==> LayoutKind(b[k].kind)
  {
    forall k | 0 <= k < |b|
      ensures LayoutKind(b[k].kind)
    {
      assert b[k] in multiset(a);
      var j :| 0 <= j < |a| && a[j] == b[k];
    }
  }

  /** A rearrangement of well-formed entries holds only well-formed entries. */
  lemma SameWellFormed(a: seq<Input>, b: seq<Input>)
    requires multiset(a) == multiset(b)
    requires forall k :: 0 <= k < |a| ==> WellFormed(a[k])
    ensures forall k :: 0 <= k < |b| ==> WellFormed(b[k])
  {
    forall k | 0 <= k < |b|
      ensures WellFormed(b[k])
    {
      assert b[k] in multiset(a);
      var j :| 0 <= j < |a| && a[j] == b[k];
    }
  }

  /** After the padding pass, every entry of a sorted list of laid-out types sits on its std140 alignment. */
  lemma PaddedAligned(s: seq<Input>)
    requires Sorted(s)
    requires forall k :: 0 <= k < |s| ==> LayoutKind(s[k].kind)
    ensures forall i :: 0 <= i < |Padded(s)| ==> Offset(Padded(s), i) % BaseAlignment(Padded(s)[i].kind) == 0
  {
    SortedShape(s);
    var p, q, r := Lead(s, VEC3), Lead(s, VEC2), Lead(s, FLOAT);
    var x := Padded(s);
    PadWithArranged(s, p, q, r, Moves(s));
    PadWithPermutes(s, p, r, Moves(s));
    SameKinds(s, x);
    forall i | 0 <= i < |x|
      ensures Offset(x, i) % BaseAlignment(x[i].kind) == 0
    {
      ArrangedAligned(x, i);
    }
  }

  /**
   * gpu_uniformbuffer_inputs_sort, whole: whatever the order of the inputs and
   * whichever sorted rearrangement t the sort leaves, the list it produces is
   * a rearrangement of them, every entry on its std140 alignment, with
   * min(#vec3, #float) vec3s directly followed by a float.
   */
  lemma InputsSortLayout(s: seq<Input>, t: seq<Input>)
    requires forall k :: 0 <= k < |s| ==> LayoutKind(s[k].kind)
    requires Sorted(t) && multiset(t) == multiset(s)
    ensures multiset(Padded(t)) == multiset(s)
    ensures forall i :: 0 <= i < |Padded(t)| ==> Offset(Padded(t), i) % BaseAlignment(Padded(t)[i].kind) == 0
    ensures Vec3FloatPairs(Padded(t)) == Min(Count(s, VEC3), Count(s, FLOAT))
  {
    InputsSortPermutes(s, t);
    SameKinds(s, t);
    PaddedAligned(t);
    PadPairsVec3WithFloats(t);
    CountPermutes(s, t, VEC3);
    CountPermutes(s, t, FLOAT);
  }

  /** Taking out entry j of b takes its type out of the count. */
  lemma CountWithout(b: seq<Input>, j: nat, k: nat)
    requires j < |b|
    ensures Count(b, k) == Count(b[..j] + b[j + 1..], k) + Count([b[j]], k)
  {
    assert b == b[..j] + [b[j]] + b[j + 1..];
    CountAppend(b[..j] + [b[j]], b[j + 1..], k);
    CountAppend(b[..j], [b[j]], k);
    CountAppend(b[..j], b[j + 1..], k);
  }

  /** Taking the first entry of a out of a and the equal entry j out of b keeps them rearrangements of each other. */
  lemma MultisetWithout(a: seq<Input>, b: seq<Input>, j: nat)
    requires a != [] && j < |b| && b[j] == a[0]
    requires multiset(a) == multiset(b)
    ensures multiset(a[1..]) == multiset(b[..j] + b[j + 1..])
  {
    assert b == b[..j] + [b[j]] + b[j + 1..];
    assert a == [a[0]] + a[1..];
    assert multiset(b) == multiset(b[..j]) + multiset{b[j]} + multiset(b[j + 1..]);
    assert multiset(a[1..]) == multiset(a) - multiset{a[0]};
  }

  lemma {:induction false} CountPermutes(a: seq<Input>, b: seq<Input>, k: nat)
    requires multiset(a) == multiset(b)
    ensures Count(a, k) == Count(b, k)
    decreases |a|
  {
    if a != [] {
      assert a[0] in multiset(b);
      var j :| 0 <= j < |b| && b[j] == a[0];
      MultisetWithout(a, b, j);
      CountPermutes(a[1..], b[..j] + b[j + 1..], k);
      CountWithout(b, j, k);
      assert a == [a[0]] + a[1..];
      CountAppend([a[0]], a[1..], k);
    } else {
      assert b == [];
    }
  }

  // ---------------------------------------------------------------------------
  // The layout does not depend on the order the sort leaves equal types in

  /** a and b hold the same type at every position. */
  predicate SameTypes(a: seq<Input>, b: seq<Input>) {
    |a| == |b| && forall i :: 0 <= i < |a| ==> a[i].kind == b[i].kind
  }

  /** Taking entry j out of a sorted list leaves it sorted. */
  lemma SortedWithout(b: seq<Input>, j: nat)
    requires Sorted(b) && j < |b|
    ensures Sorted(b[..j] + b[j + 1..])
  {
    var c := b[..j] + b[j + 1..];
    forall i, k | 0 <= i < k < |c|
      ensures InputsCmp(c[i], c[k]) == 0
    {
      var i' := if i < j then i else i + 1;
      var k' := if k < j then k else k + 1;
      assert c[i] == b[i'] && c[k] == b[k'];
    }
  }

  /** In a sorted list, entries between two entries of the same type have that type too. */
  lemma SortedBetween(b: seq<Input>, lo: nat, hi: nat, k: nat)
    requires Sorted(b) && lo <= k <= hi < |b| && b[lo].kind == b[hi].kind
    ensures b[k].kind == b[lo].kind
  {
    if lo < k {
      assert InputsCmp(b[lo], b[k]) == 0;
    }
    if k < hi {
      assert InputsCmp(b[k], b[hi]) == 0;
    }
  }

  /** The heads of two sorted rearrangements of each other have the same type. */
  lemma SortedHeads(a: seq<Input>, b: seq<Input>)
    requires Sorted(a) && Sorted(b) && multiset(a) == multiset(b) && a != []
    ensures b != [] && a[0].kind == b[0].kind
  {
    assert a[0] in multiset(b);
    var j :| 0 <= j < |b| && b[j] == a[0];
    assert b[0] in multiset(a);
    var i :| 0 <= i < |a| && a[i] == b[0];
    if i > 0 {
      assert InputsCmp(a[0], a[i]) == 0;
    }
    if j > 0 {
      assert InputsCmp(b[0], b[j]) == 0;
    }
  }

  /** Two sorted rearrangements of the same entries agree on the type at every position. */
  lemma {:induction false} SortedTypesAgree(a: seq<Input>, b: seq<Input>)
    requires Sorted(a) && Sorted(b) && multiset(a) == multiset(b)
    ensures SameTypes(a, b)
    decreases |a|
  {
    if a == [] {
      assert |multiset(b)| == 0;
    } else {
      SortedHeads(a, b);
      assert a[0] in multiset(b);
      var j :| 0 <= j < |b| && b[j] == a[0];
      var c := b[..j] + b[j + 1..];
      MultisetWithout(a, b, j);
      SortedWithout(b, j);
      assert Sorted(a[1..]) by {
        forall i, k | 0 <= i < k < |a| - 1
          ensures InputsCmp(a[1..][i], a[1..][k]) == 0
        {
          assert a[1..][i] == a[i + 1] && a[1..][k] == a[k + 1];
        }
      }
      SortedTypesAgree(a[1..], c);
      forall k | 0 <= k < |a|
        ensures a[k].kind == b[k].kind
      {
        if 0 < k <= j {
          assert a[k] == a[1..][k - 1] && c[k - 1] == b[k - 1];
          SortedBetween(b, 0, j, k - 1);
          SortedBetween(b, 0, j, k);
        } else if j < k {
          assert a[k] == a[1..][k - 1] && c[k - 1] == b[k];
        }
      }
    }
  }

  lemma {:induction false} LeadSame(a: seq<Input>, b: seq<Input>, t: nat)
    requires SameTypes(a, b)
    ensures Lead(a, t) == Lead(b, t)
    decreases |a|
  {
    if a != [] && a[0].kind > t {
      assert SameTypes(a[1..], b[1..]) by {
        forall i | 0 <= i < |a| - 1
          ensures a[1..][i].kind == b[1..][i].kind
        {
          assert a[1..][i] == a[i + 1] && b[1..][i] == b[i + 1];
        }
      }
      LeadSame(a[1..], b[1..], t);
    }
  }

  /** Padding keeps the length. */
  lemma PadWithLength(s: seq<Input>, p: nat, r: nat, m: nat)
    requires p + m <= r <= |s| - m
    ensures |PadWith(s, p, r, m)| == |s|
  {
  }

  lemma PadWithSame(a: seq<Input>, b: seq<Input>, p: nat, r: nat, m: nat)
    requires SameTypes(a, b) && p + m <= r <= |a| - m
    ensures SameTypes(PadWith(a, p, r, m), PadWith(b, p, r, m))
  {
    PadWithLength(a, p, r, m);
    PadWithLength(b, p, r, m);
    forall i | 0 <= i < |a|
      ensures PadWith(a, p, r, m)[i].kind == PadWith(b, p, r, m)[i].kind
    {
      PadWithAt(a, p, r, m, i);
      PadWithAt(b, p, r, m, i);
    }
  }

  /** Lists with the same types have the same runs and the same number of moves. */
  lemma MovesSame(a: seq<Input>, b: seq<Input>)
    requires SameTypes(a, b)
    ensures Lead(a, VEC3) == Lead(b, VEC3) && Lead(a, FLOAT) == Lead(b, FLOAT)
    ensures Moves(a) == Moves(b)
  {
    LeadSame(a, b, VEC3);
    LeadSame(a, b, VEC2);
    LeadSame(a, b, FLOAT);
  }

  /** Lists with the same types are padded into lists with the same types. */
  lemma PaddedSame(a: seq<Input>, b: seq<Input>)
    requires SameTypes(a, b)
    ensures SameTypes(Padded(a), Padded(b))
  {
    MovesSame(a, b);
    LeadOrder(a);
    var p, r, m := Lead(a, VEC3), Lead(a, FLOAT), Moves(a);
    assert Padded(a) == PadWith(a, p, r, m);
    assert Padded(b) == PadWith(b, p, r, m);
    PadWithSame(a, b, p, r, m);
  }

  lemma {:induction false} OffsetSame(x: seq<Input>, y: seq<Input>, i: nat)
    requires SameTypes(x, y) && i <= |x|
    ensures Offset(x, i) == Offset(y, i)
  {
    if i > 0 {
      OffsetSame(x, y, i - 1);
    }
  }

  /**
   * The layout gpu_uniformbuffer_inputs_sort produces is the same whichever
   * sorted order BLI_listbase_sort leaves entries of equal type in: the same
   * type at every position, the same offsets and the same buffer size.
   */
  lemma SortedLayoutAgree(a: seq<Input>, b: seq<Input>)
    requires Sorted(a) && Sorted(b) && multiset(a) == multiset(b)
    ensures SameTypes(Padded(a), Padded(b))
    ensures forall i :: 0 <= i <= |Padded(a)| ==> Offset(Padded(a), i) == Offset(Padded(b), i)
    ensures BufferSize(Padded(a)) == BufferSize(Padded(b))
  {
    SortedTypesAgree(a, b);
    PaddedSame(a, b);
    forall i | 0 <= i <= |Padded(a)|
      ensures Offset(Padded(a), i) == Offset(Padded(b), i)
    {
      OffsetSame(Padded(a), Padded(b), i);
    }
  }

  /**
   * What a caller of gpu_uniformbuffer_inputs_sort may rely on, whichever sorted
   * order the sort picked: the same entries, still well formed, and the buffer
   * size of the reference order.
   */
  lemma SortedInputs(s: seq<Input>, t: seq<Input>)
    requires Sorted(t) && multiset(t) == multiset(s)
    requires forall k :: 0 <= k < |s| ==> WellFormed(s[k])
    ensures multiset(Padded(t)) == multiset(s)
    ensures forall k :: 0 <= k < |Padded(t)| ==> WellFormed(Padded(t)[k])
    ensures BufferSize(Padded(t)) == BufferSize(Padded(SortByKind(s)))
  {
    InputsSortPermutes(s, t);
    SameWellFormed(s, Padded(t));
    SortedLayoutAgree(t, SortByKind(s));
  }
}
