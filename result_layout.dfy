/**
 * Layout of simulation results. A launch covers a grid of
 * width x height x depth threads (x fastest, the pose index z slowest), and
 * each thread owns one element of the flat output buffer: element (x, y, z)
 * lives at z * width * height + y * width + x. For a spherical model the
 * width is theta.size and the height phi.size, so within one pose the offset
 * is exactly `getBufferId(phi, theta)`.
 */
module ResultLayout {
  import opened Common

  /** The three launch dimensions handed to `optixLaunch`. */
  datatype LaunchGrid = LaunchGrid(width: nat, height: nat, depth: nat)
  {
    /** Number of samples of one pose. */
    function Samples(): nat
    {
      width * height
    }

    /** Number of threads, one per output element. */
    function Threads(): nat
    {
      Samples() * depth
    }

    predicate InGrid(x: nat, y: nat, z: nat)
    {
      x < width && y < height && z < depth
    }

    /** Flat offset of thread (x, y, z): pose-major, then row, then column. */
    function Offset(x: nat, y: nat, z: nat): nat
    {
      z * Samples() + (y * width + x)
    }
  }

  /** Every thread of the grid writes inside a buffer of `Threads()` elements. */
  lemma {:induction false} OffsetInBuffer(g: LaunchGrid, x: nat, y: nat, z: nat)
    requires g.InGrid(x, y, z)
    ensures g.Offset(x, y, z) < g.Threads()
  {
    RowMajorBound(y, x, g.height, g.width);
    RowMajorBound(z, y * g.width + x, g.depth, g.Samples());
  }

  /** The offset recovers the thread: pose = o / samples, then row and column. */
  lemma {:induction false} OffsetRoundTrip(g: LaunchGrid, x: nat, y: nat, z: nat)
    requires g.InGrid(x, y, z)
    ensures g.Offset(x, y, z) / g.Samples() == z
    ensures (g.Offset(x, y, z) % g.Samples()) / g.width == y
    ensures (g.Offset(x, y, z) % g.Samples()) % g.width == x
  {
    RowMajorBound(y, x, g.height, g.width);
    RowMajorDivMod(z, y * g.width + x, g.Samples());
    RowMajorDivMod(y, x, g.width);
  }

  /** No two threads share an output element. */
  lemma OffsetInjective(g: LaunchGrid, x1: nat, y1: nat, z1: nat, x2: nat, y2: nat, z2: nat)
    requires g.InGrid(x1, y1, z1) && g.InGrid(x2, y2, z2)
    requires g.Offset(x1, y1, z1) == g.Offset(x2, y2, z2)
    ensures x1 == x2 && y1 == y2 && z1 == z2
  {
    OffsetRoundTrip(g, x1, y1, z1);
    OffsetRoundTrip(g, x2, y2, z2);
  }

  /** Every element of the buffer is written by some thread. */
  lemma {:induction false} OffsetSurjective(g: LaunchGrid, o: nat)
    requires o < g.Threads()
    ensures g.width > 0 && g.height > 0
    ensures g.InGrid((o % g.Samples()) % g.width, (o % g.Samples()) / g.width, o / g.Samples())
    ensures g.Offset((o % g.Samples()) % g.width, (o % g.Samples()) / g.width, o / g.Samples()) == o
  {
    var s := g.Samples();
    assert s > 0 && g.width > 0 && g.height > 0;
    var z, r := o / s, o % s;
    var y, x := r / g.width, r % g.width;
    assert o == z * s + r;
    assert r == y * g.width + x;
    if z >= g.depth {
      MulMonotone(g.depth, z, s);
      assert false;
    }
    if y >= g.height {
      MulMonotone(g.height, y, g.width);
      assert false;
    }
  }

  /** Pose p occupies the slice [samples * p, samples * (p + 1)). */
  lemma {:induction false} PoseSlice(g: LaunchGrid, x: nat, y: nat, z: nat)
    requires g.InGrid(x, y, z)
    ensures g.Samples() * z <= g.Offset(x, y, z) < g.Samples() * (z + 1)
  {
    RowMajorBound(y, x, g.height, g.width);
  }

  /** The last thread writes the last element, index depth * samples - 1. */
  lemma {:induction false} LastElement(g: LaunchGrid)
    requires g.width > 0 && g.height > 0 && g.depth > 0
    ensures g.Offset(g.width - 1, g.height - 1, g.depth - 1) == g.Threads() - 1
  {
    assert (g.height - 1) * g.width + (g.width - 1) == g.Samples() - 1;
    assert (g.depth - 1) * g.Samples() + g.Samples() == g.depth * g.Samples();
  }
}
