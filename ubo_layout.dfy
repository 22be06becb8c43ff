/**
 * The layout rules of Blender's dynamic uniform buffers (gpu_uniformbuffer.cc):
 * how the typed shader inputs of a material are ordered, how much room each one
 * takes and at which float offset each one is written. The layout is meant to
 * meet the std140 rules of section 7.6.2.2 ("Standard Uniform Block Layout") of
 * the OpenGL 4.x core specification.
 */
module UboLayout {

  datatype Option<T> = None | Some(value: T)

  /** One 32-bit float component, copied bit for bit and never interpreted. */
  type Word = bv32

  // The eGPUType enumerators the packer tells apart. The code uses the numeric
  // value of each one as that type's float count.
  const FLOAT: nat := 1
  const VEC2: nat := 2
  const VEC3: nat := 3
  const VEC4: nat := 4
  const MAT3: nat := 9
  const MAT4: nat := 16

  /** MAX_UBO_GPU_TYPE: the largest type the lookup table has a slot for. */
  const MAX_UBO_GPU_TYPE: nat := MAT4

  /** sizeof(float) */
  const FLOAT_SIZE: nat := 4

  /** sizeof(float[4]): a block is rounded up to whole vec4s. */
  const ALIGNMENT: nat := 16

  /** A GPUInput as the packer sees it: its type and its float components. */
  datatype Input = Input(kind: nat, vec: seq<Word>)

  /** The entry holds as many components as its type counts. */
  predicate WellFormed(x: Input) {
    |x.vec| == x.kind
  }

  /** The five types whose layout the packer handles: float, vec2, vec3, vec4, mat4. */
  predicate LayoutKind(k: nat) {
    k == FLOAT || k == VEC2 || k == VEC3 || k == VEC4 || k == MAT4
  }

  /** The types the lookup table records; mat3 and anything above mat4 are skipped. */
  predicate InLookup(k: nat) {
    k != MAT3 && k <= MAX_UBO_GPU_TYPE
  }

  function Min(a: int, b: int): int {
    if a <= b then a else b
  }

  // ---------------------------------------------------------------------------
  // Ordering

  /** inputs_cmp: 1 when a must be placed after b, that is when a's type is smaller. */
  function InputsCmp(a: Input, b: Input): (r: int)
    ensures r == 0 || r == 1
  {
    if a.kind < b.kind then 1 else 0
  }

  /** No entry must be placed after one that follows it: types are non-increasing. */
  predicate Sorted(s: seq<Input>) {
    forall i, j :: 0 <= i < j < |s| ==> InputsCmp(s[i], s[j]) == 0
  }

  function InsertByKind(x: Input, t: seq<Input>): (r: seq<Input>)
    requires Sorted(t)
    ensures Sorted(r)
    ensures multiset(r) == multiset(t) + multiset{x}
    ensures |r| == |t| + 1 && (r[0] == x || (t != [] && r[0] == t[0]))
  {
    if t == [] || x.kind >= t[0].kind then [x] + t
    else
      assert t == [t[0]] + t[1..];
      [t[0]] + InsertByKind(x, t[1..])
  }

  /**
   * One sorted order for BLI_listbase_sort with inputs_cmp: a rearrangement of
   * the input whose types are non-increasing (mat4, vec4, vec3, vec2, float).
   * It is stable, but the packer's contracts hold for every such
   * rearrangement; this one only serves as a reference order, and
   * SortedLayoutAgree shows that every sorted order gives the same layout.
   */
  function SortByKind(s: seq<Input>): (r: seq<Input>)
    ensures Sorted(r)
    ensures multiset(r) == multiset(s)
    ensures |r| == |s|
  {
    if s == [] then []
    else
      assert s == [s[0]] + s[1..];
      InsertByKind(s[0], SortByKind(s[1..]))
  }

  // ---------------------------------------------------------------------------
  // The padding pass, in closed form

  /** Length of the longest prefix of s whose types are all greater than t. */
  function Lead(s: seq<Input>, t: nat): (n: nat)
    ensures n <= |s|
    ensures forall i :: 0 <= i < n ==> s[i].kind > t
    ensures n < |s| ==> s[n].kind <= t
  {
    if s == [] || s[0].kind <= t then 0 else 1 + Lead(s[1..], t)
  }

  lemma LeadOrder(s: seq<Input>)
    ensures Lead(s, VEC3) <= Lead(s, VEC2) <= Lead(s, FLOAT)
  {
  }

  /** vs[0], fs[0], vs[1], fs[1], ...: each vec3 directly followed by a float. */
  function Interleave(vs: seq<Input>, fs: seq<Input>): (r: seq<Input>)
    requires |vs| == |fs|
    ensures |r| == 2 * |vs|
    decreases |vs|
  {
    if vs == [] then []
    else Interleave(vs[..|vs| - 1], fs[..|fs| - 1]) + [vs[|vs| - 1], fs[|fs| - 1]]
  }

  /**
   * A sorted list after the padding pass has moved m entries, where p is the
   * start of the vec3 run and r the start of the tail of float and lower types:
   * the first m vec3s are each followed by the first m entries of that tail.
   */
  function PadWith(s: seq<Input>, p: nat, r: nat, m: nat): seq<Input>
    requires p + m <= r <= |s| - m
  {
    s[..p] + Interleave(s[p..p + m], s[r..r + m]) + s[p + m..r] + s[r + m..]
  }

  /** How many entries the padding pass moves: one per vec3 while the tail lasts, none without a float. */
  function Moves(s: seq<Input>): (t: nat)
    ensures Lead(s, VEC3) + t <= Lead(s, VEC2)
    ensures Lead(s, FLOAT) + t <= |s|
  {
    LeadOrder(s);
    var p, q, r := Lead(s, VEC3), Lead(s, VEC2), Lead(s, FLOAT);
    if r < |s| && s[r].kind == FLOAT then Min(q - p, |s| - r) else 0
  }

  /** The list the padding pass of gpu_uniformbuffer_inputs_sort leaves behind. */
  function Padded(s: seq<Input>): seq<Input> {
    LeadOrder(s);
    PadWith(s, Lead(s, VEC3), Lead(s, FLOAT), Moves(s))
  }

  // ---------------------------------------------------------------------------
  // Sizes and offsets

  /**
   * get_padded_gpu_type: the room entry i takes, in floats. It is its own type
   * value, except that a vec3 with a successor that is not a float takes a vec4's.
   */
  function PaddedWidth(x: seq<Input>, i: nat): (w: nat)
    requires i < |x|
    ensures x[i].kind <= w <= x[i].kind + 1
    ensures w != x[i].kind ==> x[i].kind == VEC3 && i + 1 < |x| && x[i + 1].kind != FLOAT && w == VEC4
    ensures x[i].kind == VEC3 && i + 1 < |x| && x[i + 1].kind != FLOAT ==> w == VEC4
  {
    if x[i].kind == VEC3 && i + 1 < |x| && x[i + 1].kind != FLOAT then VEC4 else x[i].kind
  }

  /** Float offset of entry i: the padded widths of the entries before it. */
  function Offset(x: seq<Input>, i: nat): nat
    requires i <= |x|
  {
    if i == 0 then 0 else Offset(x, i - 1) + PaddedWidth(x, i - 1)
  }

  /** Sum of all padded widths, in floats. */
  function Total(x: seq<Input>): nat {
    Offset(x, |x|)
  }

  /** divide_ceil_u */
  function DivideCeil(n: nat, a: nat): nat
    requires a > 0
  {
    (n + a - 1) / a
  }

  /** buffer_size: the padded widths in bytes, rounded up to a whole number of vec4s. */
  function BufferSize(x: seq<Input>): (size: nat)
    ensures size % ALIGNMENT == 0
    ensures FLOAT_SIZE * Total(x) <= size < FLOAT_SIZE * Total(x) + ALIGNMENT
  {
    DivideCeil(FLOAT_SIZE * Total(x), ALIGNMENT) * ALIGNMENT
  }

  /**
   * Base alignment in floats that the std140 rules give each laid-out type:
   * four for vec3, vec4 and mat4 (a column of vec4s), two for vec2, one for float.
   */
  function BaseAlignment(k: nat): (a: nat)
    ensures a == 1 || a == 2 || a == 4
  {
    if k == MAT4 || k == VEC4 || k == VEC3 then 4 else if k == VEC2 then 2 else 1
  }

  /** Entry a of x sits in block at its offset: the slice there is its components. */
  predicate EntryAt(block: seq<Word>, x: seq<Input>, a: nat)
    requires a < |x|
  {
    Offset(x, a) + |x[a].vec| <= |block| && block[Offset(x, a)..Offset(x, a) + |x[a].vec|] == x[a].vec
  }

  /** block is the rounded buffer size long and holds the components of every entry of x at that entry's offset. */
  predicate Packs(block: seq<Word>, x: seq<Input>) {
    && FLOAT_SIZE * |block| == BufferSize(x)
    && forall a :: 0 <= a < |x| ==> EntryAt(block, x, a)
  }
}
