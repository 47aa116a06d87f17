/**
 * Shared vocabulary of the model: optional and failing results, C++ unsigned
 * 32-bit arithmetic, and weak references.
 *
 * A `std::weak_ptr` is modelled as the identity (`ObjId`) of the object it was
 * taken from; whether it has expired is decided by a set of live identities
 * that the caller supplies, because object lifetime is owned by reference
 * counts outside the modelled code.
 */
module Common {

  datatype Option<+T> = None | Some(value: T)

  datatype Result<+T, +E> = Success(value: T) | Failure(error: E)

  /** Width of a C++ `unsigned int` / `uint32_t`. */
  const U32_MODULUS: int := 0x1_0000_0000

  type u32 = x: int | 0 <= x < U32_MODULUS

  /** Unsigned 32-bit wrap-around of a non-negative intermediate result. */
  function WrapU32(x: nat): (r: u32)
    ensures x < U32_MODULUS ==> r == x
    ensures (x - r) % U32_MODULUS == 0
  {
    x % U32_MODULUS
  }

  /** Identity of a heap object that weak references can point to. */
  type ObjId = nat

  /** `weak_ptr::lock()`: the referenced object while it is alive, else empty. */
  function Lock(ref: Option<ObjId>, live: set<ObjId>): (r: Option<ObjId>)
    ensures r.Some? <==> ref.Some? && ref.value in live
    ensures r.Some? ==> r == ref
  {
    if ref.Some? && ref.value in live then ref else None
  }

  /** The live members of a set of weak references. */
  function LiveOnly(refs: set<ObjId>, live: set<ObjId>): set<ObjId>
  {
    set x | x in refs && x in live
  }

  lemma MulMonotone(a: nat, b: nat, c: nat)
    requires a <= b
    ensures a * c <= b * c
  {
  }

  /** A row-major index (row i, column j) of a rows x cols table is in bounds. */
  lemma {:induction false} RowMajorBound(i: nat, j: nat, rows: nat, cols: nat)
    requires i < rows && j < cols
    ensures i * cols + j < rows * cols
  {
    MulMonotone(i + 1, rows, cols);
  }

  /** A row-major index gives back its row by division and its column by remainder. */
  lemma {:induction false} RowMajorDivMod(i: nat, j: nat, cols: nat)
    requires j < cols
    ensures (i * cols + j) / cols == i
    ensures (i * cols + j) % cols == j
  {
    var q, r := (i * cols + j) / cols, (i * cols + j) % cols;
    assert q * cols + r == i * cols + j;
    if q < i {
      MulMonotone(q + 1, i, cols);
      assert false;
    } else if q > i {
      MulMonotone(i + 1, q, cols);
      assert false;
    }
  }
}
