/** `allocateMemoryForArray`: copies a JavaScript typed array into the linear memory of a
    WebAssembly module, at the address `_malloc` returns for it.

    The linear memory is one array of bytes. `HEAP8`, `HEAPU8`, `HEAP16`, ... `HEAPF64` are
    views of that same memory, so here they are functions that decode it: element `j` of
    the view with element size `B` is the little-endian value stored in bytes
    `[j*B, j*B + B)`. A floating-point element is carried as its IEEE 754 bit pattern,
    because `TypedArray.prototype.set` between arrays of one element type copies bytes. */
module WasmHelpers {
  import opened Wrappers

  /** The constructor of a typed array. `Other` stands for every typed array the source
      does not dispatch on (`Uint8ClampedArray`, `BigInt64Array`, ...). */
  datatype ElementKind =
    | Int8 | Uint8 | Int16 | Uint16 | Int32 | Uint32 | Float32 | Float64
    | Other(bytesPerElement: nat)

  /** An input array: its element kind and its elements (bit patterns for the float kinds). */
  datatype TypedArray = TypedArray(kind: ElementKind, elements: seq<int>)

  datatype AllocError =
    | UnsupportedArrayType  // `throw new Error("Unsupported array type")`
    | RangeError            // thrown by `set` when the view cannot hold the copy

  /** `BYTES_PER_ELEMENT`. */
  function BytesPerElement(k: ElementKind): nat {
    match k
    case Int8 => 1
    case Uint8 => 1
    case Int16 => 2
    case Uint16 => 2
    case Int32 => 4
    case Uint32 => 4
    case Float32 => 4
    case Float64 => 8
    case Other(b) => b
  }

  predicate Supported(k: ElementKind) {
    !k.Other?
  }

  predicate Signed(k: ElementKind) {
    k == Int8 || k == Int16 || k == Int32
  }

  function Pow256(n: nat): (r: nat)
    ensures r >= 1
  {
    if n == 0 then 1 else 256 * Pow256(n - 1)
  }

  /** Number of distinct values of one element: 2 to the power of its bit width. */
  function Modulus(k: ElementKind): nat {
    Pow256(BytesPerElement(k))
  }

  /** The values an element of kind `k` can hold. */
  predicate InRange(k: ElementKind, v: int) {
    if Signed(k) then -(Modulus(k) / 2) <= v < Modulus(k) / 2 else 0 <= v < Modulus(k)
  }

  /** Every element of `a` is a value its kind can hold. */
  predicate WellFormed(a: TypedArray) {
    forall i :: 0 <= i < |a.elements| ==> InRange(a.kind, a.elements[i])
  }

  predicate IsByte(b: int) {
    0 <= b < 256
  }

  /** The `n` little-endian bytes of `x`, with floor division: a negative `x` gives its
      two's complement bytes (the bytes beyond the `n`-th are dropped). */
  function ToBytes(x: int, n: nat): (r: seq<int>)
    ensures |r| == n
    ensures forall i :: 0 <= i < n ==> IsByte(r[i])
    decreases n
  {
    if n == 0 then [] else [x % 256] + ToBytes(x / 256, n - 1)
  }

  /** The number that the little-endian bytes `bs` represent. */
  function FromBytes(bs: seq<int>): int {
    if bs == [] then 0 else bs[0] + 256 * FromBytes(bs[1..])
  }

  lemma {:induction false} BytesRoundTrip(x: nat, n: nat)
    requires x < Pow256(n)
    ensures FromBytes(ToBytes(x, n)) == x
  {
    if n > 0 {
      assert x / 256 < Pow256(n - 1);
      BytesRoundTrip(x / 256, n - 1);
      assert ToBytes(x, n)[1..] == ToBytes(x / 256, n - 1);
    }
  }

  lemma {:induction false} BytesRoundTripNegative(x: int, n: nat)
    requires n > 0 && 0 <= x + Pow256(n) && x < 0
    ensures FromBytes(ToBytes(x, n)) == x + Pow256(n)
    decreases n
  {
    assert ToBytes(x, n)[1..] == ToBytes(x / 256, n - 1);
    if n > 1 {
      assert 0 <= x / 256 + Pow256(n - 1) && x / 256 < 0;
      BytesRoundTripNegative(x / 256, n - 1);
    }
  }

  /** The bytes an element occupies in memory (two's complement for a negative value). */
  function Encode(k: ElementKind, v: int): (r: seq<int>)
    ensures |r| == BytesPerElement(k)
  {
    ToBytes(v, BytesPerElement(k))
  }

  /** The element a view of kind `k` reads from the bytes `bs`. */
  function Decode(k: ElementKind, bs: seq<int>): int {
    var raw := FromBytes(bs);
    if Signed(k) && raw >= Modulus(k) / 2 then raw - Modulus(k) else raw
  }

  lemma EncodeDecode(k: ElementKind, v: int)
    requires InRange(k, v)
    ensures Decode(k, Encode(k, v)) == v
  {
    if v < 0 {
      BytesRoundTripNegative(v, BytesPerElement(k));
    } else {
      BytesRoundTrip(v, BytesPerElement(k));
    }
  }

  /** `j * b`, written as repeated addition so that byte offsets stay linear for the
      verifier; `TimesIsProduct` relates it to `*`. */
  function Times(j: nat, b: nat): nat {
    if j == 0 then 0 else Times(j - 1, b) + b
  }

  lemma {:induction false} TimesIsProduct(j: nat, b: nat)
    ensures Times(j, b) == j * b
  {
    if j > 0 {
      TimesIsProduct(j - 1, b);
    }
  }

  lemma {:induction false} TimesMonotone(x: nat, y: nat, b: nat)
    requires x <= y
    ensures Times(x, b) <= Times(y, b)
    decreases y
  {
    if x < y {
      TimesMonotone(x, y - 1, b);
    }
  }

  lemma {:induction false} TimesAdd(x: nat, y: nat, b: nat)
    ensures Times(x + y, b) == Times(x, b) + Times(y, b)
    decreases y
  {
    if y > 0 {
      TimesAdd(x, y - 1, b);
    }
  }

  /** `t + n` elements fit in a view of `len / b` elements, so their bytes fit in `len` bytes. */
  lemma ViewFits(t: nat, n: nat, b: nat, len: nat)
    requires b > 0 && t + n <= len / b
    ensures Times(t, b) + Times(n, b) <= len
  {
    TimesAdd(t, n, b);
    TimesMonotone(t + n, len / b, b);
    TimesIsProduct(len / b, b);
    DivFloor(len, b);
  }

  lemma DivFloor(len: nat, b: nat)
    requires b > 0
    ensures (len / b) * b <= len
  {
  }

  /** The first `n` entries of `a + c` are those of `a`. */
  lemma SliceOfPrefix(a: seq<int>, c: seq<int>, n: nat)
    requires n == |a|
    ensures (a + c)[0..n] == a
  {
  }

  /** A slice of `c` is found `|a|` places later in `a + c`. */
  lemma SliceAfterPrefix(a: seq<int>, c: seq<int>, o: nat, n: nat)
    requires o + n <= |c|
    ensures (a + c)[|a| + o..|a| + o + n] == c[o..o + n]
  {
  }

  /** The bytes of all elements of `es`, one after the other. */
  function Serialize(k: ElementKind, es: seq<int>): (r: seq<int>)
    ensures |r| == Times(|es|, BytesPerElement(k))
  {
    if es == [] then [] else Encode(k, es[0]) + Serialize(k, es[1..])
  }

  /** Every serialised value is a byte. */
  lemma {:induction false} SerializeBytes(k: ElementKind, es: seq<int>)
    ensures forall q :: 0 <= q < |Serialize(k, es)| ==> IsByte(Serialize(k, es)[q])
  {
    if es != [] {
      SerializeBytes(k, es[1..]);
    }
  }

  lemma {:induction false} SerializeAt(k: ElementKind, es: seq<int>, j: nat)
    requires j < |es|
    ensures Times(j, BytesPerElement(k)) + BytesPerElement(k) <= |Serialize(k, es)|
    ensures Serialize(k, es)[Times(j, BytesPerElement(k))..Times(j, BytesPerElement(k)) + BytesPerElement(k)]
         == Encode(k, es[j])
    decreases j
  {
    var b := BytesPerElement(k);
    var first := Encode(k, es[0]);
    var rest := Serialize(k, es[1..]);
    assert Serialize(k, es) == first + rest;
    if j == 0 {
      SliceOfPrefix(first, rest, b);
    } else {
      SerializeAt(k, es[1..], j - 1);
      assert es[1..][j - 1] == es[j];
      SliceAfterPrefix(first, rest, Times(j - 1, b), b);
      assert Times(j, b) == b + Times(j - 1, b);
    }
  }

  /** Memory `mem` after `bs` is written at byte address `start`. */
  function Overwrite(mem: seq<int>, start: nat, bs: seq<int>): (r: seq<int>)
    requires start + |bs| <= |mem|
    ensures |r| == |mem|
  {
    mem[..start] + bs + mem[start + |bs|..]
  }

  /** A write changes exactly the cells it covers, and those hold the written bytes. */
  lemma OverwriteFrame(mem: seq<int>, start: nat, bs: seq<int>)
    requires start + |bs| <= |mem|
    ensures forall q :: 0 <= q < |mem| && !(start <= q < start + |bs|) ==> Overwrite(mem, start, bs)[q] == mem[q]
    ensures forall q :: 0 <= q < |bs| ==> Overwrite(mem, start, bs)[start + q] == bs[q]
  {
  }

  /** A slice of the written bytes is found at the same place after the write. */
  lemma OverwriteSlice(mem: seq<int>, start: nat, bs: seq<int>, o: nat, n: nat, x: seq<int>)
    requires start + |bs| <= |mem| && o + n <= |bs| && bs[o..o + n] == x
    ensures Overwrite(mem, start, bs)[start + o..start + o + n] == x
  {
    assert Overwrite(mem, start, bs)[start + o..start + o + n] == bs[o..o + n];
  }

  /** Element `j` of the view of kind `k` (`HEAP16[j]`, ...) over memory `mem`. */
  function ViewElement(k: ElementKind, mem: seq<int>, j: nat): int
    requires Times(j, BytesPerElement(k)) + BytesPerElement(k) <= |mem|
  {
    Decode(k, mem[Times(j, BytesPerElement(k))..Times(j, BytesPerElement(k)) + BytesPerElement(k)])
  }

  /** After `n` elements of size `B` are written from the byte address of view element `t`
      (byte `t * B`), view element `t + j` reads back element `j` of the input, for every
      `j < n`. */
  lemma WrittenViewReadsInput(k: ElementKind, mem: seq<int>, t: nat, es: seq<int>, j: nat)
    requires WellFormed(TypedArray(k, es))
    requires Times(t, BytesPerElement(k)) + Times(|es|, BytesPerElement(k)) <= |mem|
    requires j < |es|
    ensures Times(t + j, BytesPerElement(k)) + BytesPerElement(k) <= |mem|
    ensures ViewElement(k, Overwrite(mem, Times(t, BytesPerElement(k)), Serialize(k, es)), t + j) == es[j]
  {
    assert InRange(k, es[j]);
    SerializeAt(k, es, j);
    EncodeDecode(k, es[j]);
    ViewOfWriteAt(k, mem, Times(t, BytesPerElement(k)), Serialize(k, es), t, j, Encode(k, es[j]), es[j]);
  }

  /** An address that is a multiple of `b` is the start of element `p / b` of a view of
      size `b`. */
  lemma AlignedStart(p: nat, b: nat)
    requires b > 0 && p % b == 0
    ensures Times(p / b, b) == p
  {
    TimesIsProduct(p / b, b);
  }

  /** `ViewOfWrite` for the element `j` places after element `t`. */
  lemma ViewOfWriteAt(k: ElementKind, mem: seq<int>, p: nat, bs: seq<int>, t: nat, j: nat, x: seq<int>, v: int)
    requires Times(t, BytesPerElement(k)) == p && p + |bs| <= |mem|
    requires Times(j, BytesPerElement(k)) + BytesPerElement(k) <= |bs|
    requires bs[Times(j, BytesPerElement(k))..Times(j, BytesPerElement(k)) + BytesPerElement(k)] == x
    requires Decode(k, x) == v
    ensures Times(t + j, BytesPerElement(k)) + BytesPerElement(k) <= |mem|
    ensures ViewElement(k, Overwrite(mem, p, bs), t + j) == v
  {
    ElementAddress(t, j, BytesPerElement(k), p);
    ViewOfWrite(k, mem, p, bs, Times(j, BytesPerElement(k)), t + j, x, v);
  }

  /** Element `t + j` starts `j` elements after element `t`. */
  lemma ElementAddress(t: nat, j: nat, b: nat, p: nat)
    requires Times(t, b) == p
    ensures Times(t + j, b) == p + Times(j, b)
  {
    TimesAdd(t, j, b);
  }

  /** After `bs` is written at `start`, the view element spanning bytes `o` to `o + B` of
      `bs` reads the value those bytes `x` decode to. */
  lemma ViewOfWrite(k: ElementKind, mem: seq<int>, start: nat, bs: seq<int>, o: nat, i: nat, x: seq<int>, v: int)
    requires start + |bs| <= |mem| && o + BytesPerElement(k) <= |bs|
    requires Times(i, BytesPerElement(k)) == start + o
    requires bs[o..o + BytesPerElement(k)] == x && Decode(k, x) == v
    ensures Times(i, BytesPerElement(k)) + BytesPerElement(k) <= |mem|
    ensures ViewElement(k, Overwrite(mem, start, bs), i) == v
  {
    OverwriteSlice(mem, start, bs, o, BytesPerElement(k), x);
  }

  /** The `wasmModule` object: its linear memory and the requests made to its `_malloc`. */
  class WasmModule {
    /** The linear memory, one byte per cell. */
    var heap: array<int>
    /** The byte counts passed to `_malloc`, in call order. */
    var mallocRequests: seq<nat>

    ghost predicate Valid()
      reads this, heap
    {
      forall q :: 0 <= q < heap.Length ==> IsByte(heap[q])
    }

    constructor (size: nat)
      ensures Valid() && fresh(heap)
      ensures heap.Length == size && mallocRequests == []
    {
      heap := new int[size](q => 0);
      mallocRequests := [];
    }

    /** `HEAP8[j]`, `HEAP16[j]`, ...: element `j` of the view of kind `k`. */
    function View(k: ElementKind, j: nat): int
      reads this, heap
      requires Times(j, BytesPerElement(k)) + BytesPerElement(k) <= heap.Length
    {
      ViewElement(k, heap[..], j)
    }

    /** View element `i` of kind `k` exists and holds `v`. */
    ghost predicate ViewHolds(k: ElementKind, i: nat, v: int)
      reads this, heap
    {
      Times(i, BytesPerElement(k)) + BytesPerElement(k) <= heap.Length && View(k, i) == v
    }

    /** View elements `t` to `t + |es| - 1` of kind `k` hold `es`, in order. */
    ghost predicate ViewReads(k: ElementKind, t: nat, es: seq<int>)
      reads this, heap
    {
      forall j :: 0 <= j < |es| ==> ViewHolds(k, t + j, es[j])
    }

    /** `HEAPxx.set(input, targetOffset)` on the view matching the input's kind: a
        `RangeError` unless the view holds `targetOffset + n` elements. */
    method SetView(input: TypedArray, targetOffset: nat) returns (outcome: Outcome<AllocError>)
      requires Valid() && Supported(input.kind)
      modifies heap
      ensures Valid()
      ensures outcome.Pass?
          <==> targetOffset + |input.elements| <= heap.Length / BytesPerElement(input.kind)
      ensures outcome.Fail? ==> outcome.error == RangeError && heap[..] == old(heap[..])
      ensures outcome.Pass? ==>
        ElementsFit(heap.Length, targetOffset, input) &&
        heap[..] == Overwrite(old(heap[..]), Times(targetOffset, BytesPerElement(input.kind)),
                              Serialize(input.kind, input.elements))
      ensures outcome.Pass? && WellFormed(input) ==>
        ViewReads(input.kind, targetOffset, input.elements)
    {
      var b := BytesPerElement(input.kind);
      var n := |input.elements|;
      if targetOffset + n > heap.Length / b {
        return Fail(RangeError);
      }
      ViewFits(targetOffset, n, b, heap.Length);
      var bs := Serialize(input.kind, input.elements);
      SerializeBytes(input.kind, input.elements);
      var start := Times(targetOffset, b);
      for k := 0 to |bs|
        invariant forall q :: 0 <= q < heap.Length ==>
          heap[q] == if start <= q < start + k then bs[q - start] else old(heap[q])
      {
        heap[start + k] := bs[k];
      }
      OverwriteFrame(old(heap[..]), start, bs);
      assert heap[..] == Overwrite(old(heap[..]), start, bs);
      if WellFormed(input) {
        forall j | 0 <= j < n ensures ViewHolds(input.kind, targetOffset + j, input.elements[j]) {
          WrittenViewReadsInput(input.kind, old(heap[..]), targetOffset, input.elements, j);
        }
      }
      outcome := Pass;
    }

    /** `allocateMemoryForArray(wasmModule, inputArray)`, where `pBuffer` is the address
        that `_malloc` answers for the request. */
    method AllocateMemoryForArray(input: TypedArray, pBuffer: nat) returns (r: Result<nat, AllocError>)
      requires Valid()
      modifies this, heap
      ensures Valid() && heap == old(heap)
      ensures mallocRequests
           == old(mallocRequests) + [|input.elements| * BytesPerElement(input.kind)]
      ensures !Supported(input.kind) ==> r == Err(UnsupportedArrayType)
      ensures r.Err? ==> heap[..] == old(heap[..])
      ensures Supported(input.kind) ==>
        (r.Ok? <==> pBuffer / BytesPerElement(input.kind) + |input.elements|
                      <= heap.Length / BytesPerElement(input.kind))
      ensures Supported(input.kind) && r.Err? ==> r.error == RangeError
      ensures r.Ok? ==>
        r.value == pBuffer &&
        ElementsFit(heap.Length, pBuffer / BytesPerElement(input.kind), input) &&
        heap[..] == Overwrite(old(heap[..]),
                              Times(pBuffer / BytesPerElement(input.kind), BytesPerElement(input.kind)),
                              Serialize(input.kind, input.elements))
      ensures r.Ok? && WellFormed(input) ==>
        ViewReads(input.kind, pBuffer / BytesPerElement(input.kind), input.elements)
    {
      var numBytes := |input.elements| * BytesPerElement(input.kind);
      mallocRequests := mallocRequests + [numBytes];

      // The view `HEAP8`, `HEAPU8`, `HEAP16`, ... matching the type, and its element offset.
      var targetOffset: nat;
      match input.kind {
        case Int8 => targetOffset := pBuffer;
        case Uint8 => targetOffset := pBuffer;
        case Int16 => targetOffset := pBuffer / BytesPerElement(input.kind);
        case Uint16 => targetOffset := pBuffer / BytesPerElement(input.kind);
        case Int32 => targetOffset := pBuffer / BytesPerElement(input.kind);
        case Uint32 => targetOffset := pBuffer / BytesPerElement(input.kind);
        case Float32 => targetOffset := pBuffer / BytesPerElement(input.kind);
        case Float64 => targetOffset := pBuffer / BytesPerElement(input.kind);
        case Other(_) =>
          // The block from `_malloc` stays allocated: nothing frees it on this path.
          return Err(UnsupportedArrayType);
      }
      assert targetOffset == pBuffer / BytesPerElement(input.kind);
      var outcome := SetView(input, targetOffset);
      if outcome.Fail? {
        return Err(outcome.error);
      }
      r := Ok(pBuffer);
    }
  }

  /** The bytes of `input`, written from element index `targetOffset` on, fit in memory
      of `len` bytes. */
  predicate ElementsFit(len: nat, targetOffset: nat, input: TypedArray) {
    Times(targetOffset, BytesPerElement(input.kind))
      + Times(|input.elements|, BytesPerElement(input.kind)) <= len
  }
}
