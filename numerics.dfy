/** The parts of Python's runtime the engine calls but this model does not
    define: `math.cos`, `math.sin`, the square root inside
    `np.linalg.norm`, the constant `math.pi`, and `float()` applied to a
    string. They are carried as function values, so every statement about
    the engine holds for whatever these functions compute; statements that
    need exact arithmetic say so with `ExactSqrt` and `ExactTrig`. */
module Numerics {
  import opened Vectors
  import opened Wrappers

  datatype Host = Host(
    cos: real -> real,
    sin: real -> real,
    sqrt: real -> real,
    pi: real,
    parseFloat: string -> Option<real>)

  /** `np.linalg.norm(v)`: the square root of the sum of squares. */
  function Norm(h: Host, v: Vec3): real {
    h.sqrt(Dot(v, v))
  }

  /** `math.radians(deg)`, which multiplies by the constant pi / 180. */
  function Radians(h: Host, deg: real): real {
    deg * (h.pi / 180.0)
  }

  /** An exact square root: non-negative and squaring back to its argument. */
  ghost predicate ExactSqrt(h: Host) {
    forall q :: q >= 0.0 ==> h.sqrt(q) >= 0.0 && h.sqrt(q) * h.sqrt(q) == q
  }

  /** Exact sine and cosine, as far as the engine needs them. */
  ghost predicate ExactTrig(h: Host) {
    forall t :: h.cos(t) * h.cos(t) + h.sin(t) * h.sin(t) == 1.0
  }

  lemma NormOfUnit(h: Host, v: Vec3)
    requires ExactSqrt(h)
    requires Dot(v, v) == 1.0
    ensures Norm(h, v) == 1.0
  {
    var n := h.sqrt(1.0);
    assert n >= 0.0 && n * n == 1.0;
    assert (n - 1.0) * (n + 1.0) == 0.0;
    assert n + 1.0 > 0.0;
    assert n - 1.0 == 0.0;
    assert Norm(h, v) == n;
  }
}
