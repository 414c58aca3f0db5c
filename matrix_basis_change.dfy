/**
  The "Matrix Basis Change" node: from two direction vectors A and B it builds, per batch item,
  an orthogonal frame X, Y, Z (one of six priority orders), optionally normalises it, and
  assembles it with a scale S and a location L into a 4x4 affine matrix.
 */
module MatrixBasisChange {

  import opened Vector3
  import opened DataStructure

  // ---------------------------------------------------------------------------------------------
  // Configuration

  /** The orthogonalizing orders, the enum items "X Y  Z" ... "Z Y  X" with spaces removed. */
  datatype Order = XYZ | XZY | YXZ | YZX | ZXY | ZYX

  /** The T and U tokens "A", "B", "-A" and "-B". */
  datatype Selector = A | B | NegA | NegB

  /** The node's properties that `process` reads. */
  datatype Config = Config(order: Order, t: Selector, u: Selector, normalize: bool)

  /** Which of the output sockets Matrix, X, Y and Z are linked. */
  datatype Links = Links(matrix: bool, x: bool, y: bool, z: bool)
  {
    predicate AnyLinked()
    {
      matrix || x || y || z
    }
  }

  /** `eval(self.T)` on the locals A and B: the working vector a token names. */
  function Select(s: Selector, a: Vec3, b: Vec3): (v: Vec3)
    ensures v == a || v == b || v == Neg(a) || v == Neg(b)
  {
    match s
    case A => a
    case B => b
    case NegA => Neg(a)
    case NegB => Neg(b)
  }

  // ---------------------------------------------------------------------------------------------
  // Frames and the six orthogonalisers

  datatype Axis = AxisX | AxisY | AxisZ

  datatype Frame = Frame(x: Vec3, y: Vec3, z: Vec3)

  function AxisOf(f: Frame, a: Axis): Vec3
  {
    match a
    case AxisX => f.x
    case AxisY => f.y
    case AxisZ => f.z
  }

  /** The axes are pairwise perpendicular (exactly, over the reals). */
  predicate Orthogonal(f: Frame)
  {
    Dot(f.x, f.y) == 0.0 && Dot(f.y, f.z) == 0.0 && Dot(f.z, f.x) == 0.0
  }

  /** X · (Y × Z): positive for a right-handed frame, negative for a left-handed one. */
  function Handedness(f: Frame): real
  {
    Triple(f.x, f.y, f.z)
  }

  /** The axis an order keeps equal to its first argument T. */
  function Kept(o: Order): Axis
  {
    match o
    case XYZ => AxisX
    case XZY => AxisX
    case YXZ => AxisY
    case YZX => AxisY
    case ZXY => AxisZ
    case ZYX => AxisZ
  }

  /** The axis an order computes first, as the cross product of its two arguments. */
  function FirstDerived(o: Order): Axis
  {
    match o
    case XYZ => AxisZ
    case XZY => AxisY
    case YXZ => AxisZ
    case YZX => AxisX
    case ZXY => AxisY
    case ZYX => AxisX
  }

  /** The axis an order recomputes last, from the kept and the first-derived axis. */
  function SecondDerived(o: Order): Axis
  {
    match o
    case XYZ => AxisY
    case XZY => AxisZ
    case YXZ => AxisX
    case YZX => AxisZ
    case ZXY => AxisX
    case ZYX => AxisY
  }

  /**
    The orders XYZ, YZX and ZXY are cyclic: they cross T with U, then the result with T. The
    other three cross U with T, then T with the result.
   */
  predicate Cyclic(o: Order)
  {
    o == XYZ || o == YZX || o == ZXY
  }

  /** Keep X, derive Z from X and Y, then recompute Y. */
  function OrthogonalizeXYZ(x: Vec3, y: Vec3): Frame
  {
    var z := Cross(x, y);
    var y := Cross(z, x);
    Frame(x, y, z)
  }

  /** Keep X, derive Y from Z and X, then recompute Z. */
  function OrthogonalizeXZY(x: Vec3, z: Vec3): Frame
  {
    var y := Cross(z, x);
    var z := Cross(x, y);
    Frame(x, y, z)
  }

  /** Keep Y, derive Z from X and Y, then recompute X. */
  function OrthogonalizeYXZ(y: Vec3, x: Vec3): Frame
  {
    var z := Cross(x, y);
    var x := Cross(y, z);
    Frame(x, y, z)
  }

  /** Keep Y, derive X from Y and Z, then recompute Z. */
  function OrthogonalizeYZX(y: Vec3, z: Vec3): Frame
  {
    var x := Cross(y, z);
    var z := Cross(x, y);
    Frame(x, y, z)
  }

  /** Keep Z, derive Y from Z and X, then recompute X. */
  function OrthogonalizeZXY(z: Vec3, x: Vec3): Frame
  {
    var y := Cross(z, x);
    var x := Cross(y, z);
    Frame(x, y, z)
  }

  /** Keep Z, derive X from Y and Z, then recompute Y. */
  function OrthogonalizeZYX(z: Vec3, y: Vec3): Frame
  {
    var x := Cross(y, z);
    var y := Cross(z, x);
    Frame(x, y, z)
  }

  /**
    `orthogonalizer()` applied to T and U: the orthogonaliser the configured order names. The
    kept axis is T; the first-derived axis is T × U for a cyclic order and U × T otherwise; the
    second-derived axis crosses that with T, in the same orientation.
   */
  function Orthogonalize(o: Order, t: Vec3, u: Vec3): (f: Frame)
    ensures AxisOf(f, Kept(o)) == t
    ensures AxisOf(f, FirstDerived(o)) == if Cyclic(o) then Cross(t, u) else Cross(u, t)
    ensures AxisOf(f, SecondDerived(o)) ==
      if Cyclic(o) then Cross(AxisOf(f, FirstDerived(o)), t) else Cross(t, AxisOf(f, FirstDerived(o)))
  {
    match o
    case XYZ => OrthogonalizeXYZ(t, u)
    case XZY => OrthogonalizeXZY(t, u)
    case YXZ => OrthogonalizeYXZ(t, u)
    case YZX => OrthogonalizeYZX(t, u)
    case ZXY => OrthogonalizeZXY(t, u)
    case ZYX => OrthogonalizeZYX(t, u)
  }

  /** The axes a cyclic order produces, c = T × U and s = c × T, in any rotation. */
  lemma CyclicAxes(t: Vec3, u: Vec3)
    ensures var c := Cross(t, u); var s := Cross(c, t);
      Dot(t, c) == 0.0 && Dot(c, t) == 0.0 && Dot(u, c) == 0.0 && Dot(c, u) == 0.0 &&
      Dot(c, s) == 0.0 && Dot(s, c) == 0.0 && Dot(t, s) == 0.0 && Dot(s, t) == 0.0 &&
      Triple(t, s, c) == Dot(s, s) && Triple(c, t, s) == Dot(s, s) && Triple(s, c, t) == Dot(s, s) &&
      Dot(s, s) == Dot(t, t) * Dot(c, c)
  {
    var c := Cross(t, u);
    var s := Cross(c, t);
    CrossOrthogonal(t, u);
    CrossOrthogonal(c, t);
    TripleCyclic(s, c, t);
    CrossNormOfOrthogonal(t, c);
  }

  /** The axes the other orders produce, c = U × T and s = T × c, in any rotation. */
  lemma AnticyclicAxes(t: Vec3, u: Vec3)
    ensures var c := Cross(u, t); var s := Cross(t, c);
      Dot(t, c) == 0.0 && Dot(c, t) == 0.0 && Dot(u, c) == 0.0 && Dot(c, u) == 0.0 &&
      Dot(c, s) == 0.0 && Dot(s, c) == 0.0 && Dot(t, s) == 0.0 && Dot(s, t) == 0.0 &&
      Triple(t, c, s) == Dot(s, s) && Triple(s, t, c) == Dot(s, s) && Triple(c, s, t) == Dot(s, s) &&
      Dot(s, s) == Dot(t, t) * Dot(Cross(t, u), Cross(t, u))
  {
    var c := Cross(u, t);
    var s := Cross(t, c);
    CrossOrthogonal(u, t);
    CrossOrthogonal(t, c);
    TripleCyclic(s, t, c);
    CrossNormOfOrthogonal(t, c);
    CrossAntiCommutes(t, u);
    NegDot(Cross(t, u));
  }

  /**
    Whatever the order, the three axes are pairwise perpendicular, the first-derived axis is
    also perpendicular to U, and X · (Y × Z) equals the squared length of the recomputed axis,
    which is |T|² |T × U|²; so no order ever yields a left-handed frame.
   */
  lemma OrthogonalizeSound(o: Order, t: Vec3, u: Vec3)
    ensures Orthogonal(Orthogonalize(o, t, u))
    ensures Dot(AxisOf(Orthogonalize(o, t, u), FirstDerived(o)), u) == 0.0
    ensures var s := AxisOf(Orthogonalize(o, t, u), SecondDerived(o));
      Handedness(Orthogonalize(o, t, u)) == Dot(s, s) &&
      Dot(s, s) == Dot(t, t) * Dot(Cross(t, u), Cross(t, u))
    ensures Handedness(Orthogonalize(o, t, u)) >= 0.0
  {
    var f := Orthogonalize(o, t, u);
    var s := AxisOf(f, SecondDerived(o));
    if Cyclic(o) {
      CyclicAxes(t, u);
    } else {
      AnticyclicAxes(t, u);
    }
    assert Handedness(f) == Dot(s, s) by {
      match o
      case XYZ =>
      case XZY =>
      case YXZ =>
      case YZX =>
      case ZXY =>
      case ZYX =>
    }
    SquaredLengthNonNegative(s);
  }

  /**
    Non-degenerate input: when T and U are not parallel (T × U is not zero) every order yields a
    strictly right-handed frame, X · (Y × Z) = |T|² |T × U|² > 0.
   */
  lemma OrthogonalizeStrictlyRightHanded(o: Order, t: Vec3, u: Vec3)
    requires Cross(t, u) != Zero
    ensures Handedness(Orthogonalize(o, t, u)) > 0.0
  {
    var c := Cross(t, u);
    CrossWithZero(u);
    assert t != Zero;
    OrthogonalizeSound(o, t, u);
    DotPositive(t);
    DotPositive(c);
    var s := AxisOf(Orthogonalize(o, t, u), SecondDerived(o));
    PositiveProduct(Dot(t, t), Dot(c, c), Dot(s, s));
  }

  lemma OrthogonalizeStrictIf(o: Order, t: Vec3, u: Vec3)
    ensures Cross(t, u) != Zero ==> Handedness(Orthogonalize(o, t, u)) > 0.0
  {
    if Cross(t, u) != Zero {
      OrthogonalizeStrictlyRightHanded(o, t, u);
    }
  }

  /**
    Degenerate input: when T and U are parallel (T = U, T = -U, or either is zero) the first
    cross product is the zero vector, the recomputed axis is zero too, and X · (Y × Z) = 0.
   */
  lemma ParallelInputsDegenerate(o: Order, t: Vec3, u: Vec3)
    requires Parallel(t, u)
    ensures AxisOf(Orthogonalize(o, t, u), FirstDerived(o)) == Zero
    ensures AxisOf(Orthogonalize(o, t, u), SecondDerived(o)) == Zero
  {
    ParallelCrossIsZero(t, u);
    CrossAntiCommutes(t, u);
    CrossWithZero(t);
  }

  /**
    T and U that name the same input vector, possibly negated (A and -A, say), are parallel; the
    node then builds a degenerate frame whose two derived axes are zero, normalised or not.
   */
  predicate SameSource(t: Selector, u: Selector)
  {
    (t == A || t == NegA) == (u == A || u == NegA)
  }

  // ---------------------------------------------------------------------------------------------
  // One batch item

  /** The in-place `normalize()` of the three axes. */
  function NormalizeFrame(f: Frame, invLength: Vec3 -> real): Frame
  {
    Frame(Normalized(f.x, invLength), Normalized(f.y, invLength), Normalized(f.z, invLength))
  }

  /** The frame of one item: T and U selected from A and B, orthogonalised, optionally normalised. */
  function ItemFrame(cfg: Config, a: Vec3, b: Vec3, invLength: Vec3 -> real): Frame
  {
    var f := Orthogonalize(cfg.order, Select(cfg.t, a, b), Select(cfg.u, a, b));
    if cfg.normalize then NormalizeFrame(f, invLength) else f
  }

  /** Normalising rescales each axis by its own factor, so perpendicular axes stay perpendicular. */
  lemma NormalizeFrameOrthogonal(f: Frame, invLength: Vec3 -> real)
    requires Orthogonal(f)
    ensures Orthogonal(NormalizeFrame(f, invLength))
  {
    ScaleOrthogonal(f.x, invLength(f.x), f.y, invLength(f.y));
    ScaleOrthogonal(f.y, invLength(f.y), f.z, invLength(f.z));
    ScaleOrthogonal(f.z, invLength(f.z), f.x, invLength(f.x));
  }

  /**
    The factors are positive, so normalising never turns a frame left-handed, and keeps a
    strictly right-handed frame strictly right-handed.
   */
  lemma NormalizeFrameHandedness(f: Frame, invLength: Vec3 -> real)
    requires IsReciprocalLength(invLength)
    requires Handedness(f) >= 0.0
    ensures Handedness(NormalizeFrame(f, invLength)) >= 0.0
    ensures Handedness(f) > 0.0 ==> Handedness(NormalizeFrame(f, invLength)) > 0.0
  {
    var kx, ky, kz := invLength(f.x), invLength(f.y), invLength(f.z);
    assert PositiveFactorAt(invLength, f.x) && PositiveFactorAt(invLength, f.y) && PositiveFactorAt(invLength, f.z);
    var g := NormalizeFrame(f, invLength);
    assert g == Frame(Scale(f.x, kx), Scale(f.y, ky), Scale(f.z, kz));
    assert Handedness(g) == Triple(Scale(f.x, kx), Scale(f.y, ky), Scale(f.z, kz));
    PositivelyScaledTriple(f.x, kx, f.y, ky, f.z, kz);
  }

  lemma PositivelyScaledTriple(a: Vec3, kx: real, b: Vec3, ky: real, c: Vec3, kz: real)
    requires kx > 0.0 && ky > 0.0 && kz > 0.0 && Triple(a, b, c) >= 0.0
    ensures Triple(Scale(a, kx), Scale(b, ky), Scale(c, kz)) >= 0.0
    ensures Triple(a, b, c) > 0.0 ==> Triple(Scale(a, kx), Scale(b, ky), Scale(c, kz)) > 0.0
  {
    ScaleTriple(a, kx, b, ky, c, kz);
    PositivelyScaled(kx, ky, kz, Triple(a, b, c), Triple(Scale(a, kx), Scale(b, ky), Scale(c, kz)));
  }

  lemma PositivelyScaled(kx: real, ky: real, kz: real, h: real, scaled: real)
    requires kx > 0.0 && ky > 0.0 && kz > 0.0 && h >= 0.0
    requires scaled == kx * ky * kz * h
    ensures scaled >= 0.0
    ensures h > 0.0 ==> scaled > 0.0
  {
    var p := kx * ky;
    var q := p * kz;
    PositiveProduct(kx, ky, p);
    PositiveProduct(p, kz, q);
    NonNegativeProduct(q, h);
    if h > 0.0 {
      PositiveProduct(q, h, scaled);
    }
  }

  lemma ItemFrameOrthogonal(cfg: Config, a: Vec3, b: Vec3, invLength: Vec3 -> real)
    ensures Orthogonal(ItemFrame(cfg, a, b, invLength))
  {
    var f := Orthogonalize(cfg.order, Select(cfg.t, a, b), Select(cfg.u, a, b));
    OrthogonalizeSound(cfg.order, Select(cfg.t, a, b), Select(cfg.u, a, b));
    if cfg.normalize {
      NormalizeFrameOrthogonal(f, invLength);
    }
  }

  /**
    The frame is never left-handed: X · (Y × Z) >= 0, normalised or not; and it is strictly
    right-handed whenever T and U are not parallel, i.e. T × U is not the zero vector.
   */
  lemma ItemFrameRightHanded(cfg: Config, a: Vec3, b: Vec3, invLength: Vec3 -> real)
    requires IsReciprocalLength(invLength)
    ensures Handedness(ItemFrame(cfg, a, b, invLength)) >= 0.0
    ensures Cross(Select(cfg.t, a, b), Select(cfg.u, a, b)) != Zero ==>
      Handedness(ItemFrame(cfg, a, b, invLength)) > 0.0
  {
    var t, u := Select(cfg.t, a, b), Select(cfg.u, a, b);
    var f := Orthogonalize(cfg.order, t, u);
    OrthogonalizeSound(cfg.order, t, u);
    OrthogonalizeStrictIf(cfg.order, t, u);
    if cfg.normalize {
      NormalizeFrameHandedness(f, invLength);
    }
  }

  /**
    The kept axis points along T: it is T itself without normalisation and a positive multiple
    of T with it; the first-derived axis stays perpendicular to U.
   */
  lemma ItemFrameFollowsT(cfg: Config, a: Vec3, b: Vec3, invLength: Vec3 -> real)
    requires IsReciprocalLength(invLength)
    ensures var f := ItemFrame(cfg, a, b, invLength);
      exists k: real :: k > 0.0 && AxisOf(f, Kept(cfg.order)) == Scale(Select(cfg.t, a, b), k) &&
        (!cfg.normalize ==> k == 1.0)
    ensures Dot(AxisOf(ItemFrame(cfg, a, b, invLength), FirstDerived(cfg.order)), Select(cfg.u, a, b)) == 0.0
  {
    var t, u := Select(cfg.t, a, b), Select(cfg.u, a, b);
    var g := Orthogonalize(cfg.order, t, u);
    OrthogonalizeSound(cfg.order, t, u);
    var c := AxisOf(g, FirstDerived(cfg.order));
    var k := if cfg.normalize then invLength(t) else 1.0;
    var kc := if cfg.normalize then invLength(c) else 1.0;
    NormalizedAxes(g, invLength, cfg.normalize);
    ScaleOrthogonal(c, kc, u, 1.0);
    assert Scale(u, 1.0) == u;
    assert PositiveFactorAt(invLength, t);
    assert k > 0.0 && AxisOf(ItemFrame(cfg, a, b, invLength), Kept(cfg.order)) == Scale(t, k);
  }

  /** Each axis of the (optionally) normalised frame is the matching axis scaled by its factor. */
  lemma NormalizedAxes(g: Frame, invLength: Vec3 -> real, normalize: bool)
    ensures var f := if normalize then NormalizeFrame(g, invLength) else g;
      forall axis: Axis :: AxisOf(f, axis) ==
        Scale(AxisOf(g, axis), if normalize then invLength(AxisOf(g, axis)) else 1.0)
  {
    var f := if normalize then NormalizeFrame(g, invLength) else g;
    forall axis: Axis
      ensures AxisOf(f, axis) == Scale(AxisOf(g, axis), if normalize then invLength(AxisOf(g, axis)) else 1.0)
    {
      var v := AxisOf(g, axis);
      if !normalize {
        assert Scale(v, 1.0) == v;
      }
    }
  }

  /**
    With normalisation on and T, U not parallel, every axis of the frame comes out with unit
    length: none of the orthogonalised axes is zero, because the frame is strictly right-handed.
   */
  lemma ItemFrameUnitAxes(cfg: Config, a: Vec3, b: Vec3, invLength: Vec3 -> real, axis: Axis)
    requires IsReciprocalLength(invLength) && cfg.normalize
    requires Cross(Select(cfg.t, a, b), Select(cfg.u, a, b)) != Zero
    ensures var v := AxisOf(ItemFrame(cfg, a, b, invLength), axis); Dot(v, v) == 1.0
  {
    var t, u := Select(cfg.t, a, b), Select(cfg.u, a, b);
    var f := Orthogonalize(cfg.order, t, u);
    OrthogonalizeStrictlyRightHanded(cfg.order, t, u);
    ZeroAxisFlatIf(f, axis);
    NormalizedLength(AxisOf(f, axis), invLength);
  }

  /** T and U taken from the same input vector give a frame with two zero axes. */
  lemma SameSourceDegenerate(cfg: Config, a: Vec3, b: Vec3, invLength: Vec3 -> real)
    requires SameSource(cfg.t, cfg.u)
    ensures AxisOf(ItemFrame(cfg, a, b, invLength), FirstDerived(cfg.order)) == Zero
    ensures AxisOf(ItemFrame(cfg, a, b, invLength), SecondDerived(cfg.order)) == Zero
    ensures Handedness(ItemFrame(cfg, a, b, invLength)) == 0.0
  {
    var t, u := Select(cfg.t, a, b), Select(cfg.u, a, b);
    SameSourceParallel(cfg.t, cfg.u, a, b);
    ParallelInputsDegenerate(cfg.order, t, u);
    var g := Orthogonalize(cfg.order, t, u);
    NormalizedAxes(g, invLength, cfg.normalize);
    assert Scale(Zero, invLength(Zero)) == Zero && Scale(Zero, 1.0) == Zero;
    ZeroAxisFlat(ItemFrame(cfg, a, b, invLength), FirstDerived(cfg.order));
  }

  lemma SameSourceParallel(t: Selector, u: Selector, a: Vec3, b: Vec3)
    requires SameSource(t, u)
    ensures Parallel(Select(t, a, b), Select(u, a, b))
  {
    var v, w := Select(t, a, b), Select(u, a, b);
    if w == Scale(v, 1.0) {
      assert Parallel(v, w);
    } else {
      assert w == Scale(v, -1.0);
      assert Parallel(v, w);
    }
  }

  lemma ZeroAxisFlatIf(f: Frame, axis: Axis)
    ensures AxisOf(f, axis) == Zero ==> Handedness(f) == 0.0
  {
    if AxisOf(f, axis) == Zero {
      ZeroAxisFlat(f, axis);
    }
  }

  /** A frame with a zero axis is flat: X · (Y × Z) = 0. */
  lemma ZeroAxisFlat(f: Frame, axis: Axis)
    requires AxisOf(f, axis) == Zero
    ensures Handedness(f) == 0.0
  {
    TripleWithZero(f.y, f.z);
    TripleWithZero(f.x, f.z);
    TripleWithZero(f.x, f.y);
  }

  /** The property defaults: order "X Y  Z", T = A, U = B, normalisation on. */
  const DefaultConfig := Config(XYZ, A, B, true)

  /**
    T of unit length and perpendicular to U: the kept axis is T and the recomputed axis is U, so
    an orthogonal pair comes back unchanged, whichever order is chosen.
   */
  lemma OrthogonalInputsReproduced(o: Order, t: Vec3, u: Vec3)
    requires Dot(t, t) == 1.0 && Dot(t, u) == 0.0
    ensures AxisOf(Orthogonalize(o, t, u), Kept(o)) == t
    ensures AxisOf(Orthogonalize(o, t, u), SecondDerived(o)) == u
  {
    CrossBackOrthonormal(t, u);
  }

  /**
    For an orthonormal T and U normalisation changes nothing: the item frame is T, U and their
    cross product, each of unit length.
   */
  lemma OrthonormalInputsUnchanged(cfg: Config, a: Vec3, b: Vec3, invLength: Vec3 -> real)
    requires IsReciprocalLength(invLength)
    requires var t, u := Select(cfg.t, a, b), Select(cfg.u, a, b);
      Dot(t, t) == 1.0 && Dot(u, u) == 1.0 && Dot(t, u) == 0.0
    ensures ItemFrame(cfg, a, b, invLength) == Orthogonalize(cfg.order, Select(cfg.t, a, b), Select(cfg.u, a, b))
    ensures AxisOf(ItemFrame(cfg, a, b, invLength), Kept(cfg.order)) == Select(cfg.t, a, b)
    ensures AxisOf(ItemFrame(cfg, a, b, invLength), SecondDerived(cfg.order)) == Select(cfg.u, a, b)
  {
    var t, u := Select(cfg.t, a, b), Select(cfg.u, a, b);
    var f := Orthogonalize(cfg.order, t, u);
    OrthogonalInputsReproduced(cfg.order, t, u);
    CrossNormOfOrthogonal(t, u);
    var c := AxisOf(f, FirstDerived(cfg.order));
    UnitProduct(Dot(t, t), Dot(u, u));
    assert Dot(c, c) == 1.0;
    if cfg.normalize {
      NormalizeUnit(t, invLength);
      NormalizeUnit(u, invLength);
      NormalizeUnit(c, invLength);
      assert NormalizeFrame(f, invLength) == f by {
        match cfg.order
        case XYZ =>
        case XZY =>
        case YXZ =>
        case YZX =>
        case ZXY =>
        case ZYX =>
      }
    }
  }

  lemma UnitProduct(p: real, q: real)
    requires p == 1.0 && q == 1.0
    ensures p * q == 1.0
  {
  }

  /**
    Under the default settings an orthonormal A and B (such as the default A = (1, 0, 0) and
    B = (0, 1, 0), see `StandardBasis`) give the frame A, B, A × B.
   */
  lemma DefaultConfigKeepsOrthonormalInputs(a: Vec3, b: Vec3, invLength: Vec3 -> real)
    requires IsReciprocalLength(invLength)
    requires Dot(a, a) == 1.0 && Dot(b, b) == 1.0 && Dot(a, b) == 0.0
    ensures ItemFrame(DefaultConfig, a, b, invLength) == Frame(a, b, Cross(a, b))
  {
    OrthonormalInputsUnchanged(DefaultConfig, a, b, invLength);
  }

  // ---------------------------------------------------------------------------------------------
  // The 4x4 matrix of one item

  /** A matrix as `process` builds it: a list of rows. */
  type Matrix = seq<seq<real>>

  /** Four rows of four entries, the last row being 0 0 0 1. */
  predicate IsAffine(m: Matrix)
  {
    |m| == 4 && (forall i :: 0 <= i < 4 ==> |m[i]| == 4) && m[3] == [0.0, 0.0, 0.0, 1.0]
  }

  /** Column j (0, 1, 2 or the translation 3) of the upper three rows. */
  function Column(m: Matrix, j: nat): Vec3
    requires IsAffine(m) && j < 4
  {
    Vec3(m[0][j], m[1][j], m[2][j])
  }

  /** The composite matrix of one item: its columns are the axes scaled by S, then L. */
  function AssembleMatrix(f: Frame, s: Vec3, l: Vec3): Matrix
  {
    [[f.x.x * s.x, f.y.x * s.y, f.z.x * s.z, l.x],
     [f.x.y * s.x, f.y.y * s.y, f.z.y * s.z, l.y],
     [f.x.z * s.x, f.y.z * s.y, f.z.z * s.z, l.z],
     [0.0, 0.0, 0.0, 1.0]]
  }

  /** The affine map of a matrix: applied to the point p, i.e. to the column (p, 1). */
  function Transform(m: Matrix, p: Vec3): Vec3
    requires IsAffine(m)
  {
    Add(Add(Add(Scale(Column(m, 0), p.x), Scale(Column(m, 1), p.y)), Scale(Column(m, 2), p.z)), Column(m, 3))
  }

  /** The frame as a rotation: the coordinates q of a point along X, Y and Z. */
  function Rotate(f: Frame, q: Vec3): Vec3
  {
    Add(Add(Scale(f.x, q.x), Scale(f.y, q.y)), Scale(f.z, q.z))
  }

  /** The matrix is affine; its columns are X·S.x, Y·S.y, Z·S.z and the location L. */
  lemma AssembleMatrixColumns(f: Frame, s: Vec3, l: Vec3)
    ensures IsAffine(AssembleMatrix(f, s, l))
    ensures Column(AssembleMatrix(f, s, l), 0) == Scale(f.x, s.x)
    ensures Column(AssembleMatrix(f, s, l), 1) == Scale(f.y, s.y)
    ensures Column(AssembleMatrix(f, s, l), 2) == Scale(f.z, s.z)
    ensures Column(AssembleMatrix(f, s, l), 3) == l
  {
  }

  /** M = T * R * S: the matrix scales a point by S, rotates it into the frame, then moves it by L. */
  lemma AssembleMatrixComposes(f: Frame, s: Vec3, l: Vec3, p: Vec3)
    ensures IsAffine(AssembleMatrix(f, s, l))
    ensures Transform(AssembleMatrix(f, s, l), p) == Add(Rotate(f, Hadamard(s, p)), l)
  {
    AssembleMatrixColumns(f, s, l);
    var m := AssembleMatrix(f, s, l);
    ScaledColumnsCompose(Column(m, 0), Column(m, 1), Column(m, 2), f, s, p);
  }

  lemma ScaledColumnsCompose(c0: Vec3, c1: Vec3, c2: Vec3, f: Frame, s: Vec3, p: Vec3)
    requires c0 == Scale(f.x, s.x) && c1 == Scale(f.y, s.y) && c2 == Scale(f.z, s.z)
    ensures Add(Add(Scale(c0, p.x), Scale(c1, p.y)), Scale(c2, p.z)) == Rotate(f, Hadamard(s, p))
  {
    ScaleTwice(f.x, s.x, p.x);
    ScaleTwice(f.y, s.y, p.y);
    ScaleTwice(f.z, s.z, p.z);
  }

  /** The standard frame with L = (1, 2, 3) and S = (2, 2, 2): a uniform scale by 2, then the move. */
  lemma AssembleMatrixExample()
    ensures AssembleMatrix(Frame(UnitX, UnitY, UnitZ), Vec3(2.0, 2.0, 2.0), Vec3(1.0, 2.0, 3.0)) ==
      [[2.0, 0.0, 0.0, 1.0], [0.0, 2.0, 0.0, 2.0], [0.0, 0.0, 2.0, 3.0], [0.0, 0.0, 0.0, 1.0]]
  {
  }

  /** The determinant of the 3x3 block is S.x · S.y · S.z times X · (Y × Z). */
  lemma AssembleMatrixDeterminant(f: Frame, s: Vec3, l: Vec3)
    ensures IsAffine(AssembleMatrix(f, s, l))
    ensures var m := AssembleMatrix(f, s, l);
      Triple(Column(m, 0), Column(m, 1), Column(m, 2)) == s.x * s.y * s.z * Triple(f.x, f.y, f.z)
  {
    AssembleMatrixColumns(f, s, l);
    var m := AssembleMatrix(f, s, l);
    ScaledColumnsTriple(Column(m, 0), Column(m, 1), Column(m, 2), f, s);
  }

  lemma ScaledColumnsTriple(c0: Vec3, c1: Vec3, c2: Vec3, f: Frame, s: Vec3)
    requires c0 == Scale(f.x, s.x) && c1 == Scale(f.y, s.y) && c2 == Scale(f.z, s.z)
    ensures Triple(c0, c1, c2) == s.x * s.y * s.z * Triple(f.x, f.y, f.z)
  {
    ScaleTriple(f.x, s.x, f.y, s.y, f.z, s.z);
  }

  /** For an orthogonal frame the three block columns are pairwise perpendicular. */
  lemma AssembleMatrixOrthogonalColumns(f: Frame, s: Vec3, l: Vec3)
    requires Orthogonal(f)
    ensures IsAffine(AssembleMatrix(f, s, l))
    ensures var m := AssembleMatrix(f, s, l);
      Dot(Column(m, 0), Column(m, 1)) == 0.0 && Dot(Column(m, 1), Column(m, 2)) == 0.0 &&
      Dot(Column(m, 2), Column(m, 0)) == 0.0
  {
    AssembleMatrixColumns(f, s, l);
    ScaleOrthogonal(f.x, s.x, f.y, s.y);
    ScaleOrthogonal(f.y, s.y, f.z, s.z);
    ScaleOrthogonal(f.z, s.z, f.x, s.x);
  }

  // ---------------------------------------------------------------------------------------------
  // The batch

  /** One tuple (L, S, A, B) of the zipped, broadcast input lists. */
  datatype Item = Item(location: Vec3, scale: Vec3, a: Vec3, b: Vec3)

  /** `zip(*params)` over four lists: as many items as the shortest list has elements. */
  function Zip4(l: seq<Vec3>, s: seq<Vec3>, va: seq<Vec3>, vb: seq<Vec3>): (items: seq<Item>)
    ensures |items| <= |l| && |items| <= |s| && |items| <= |va| && |items| <= |vb|
    ensures |items| == |l| || |items| == |s| || |items| == |va| || |items| == |vb|
    ensures forall i :: 0 <= i < |items| ==> items[i] == Item(l[i], s[i], va[i], vb[i])
  {
    var n := Min(Min(|l|, |s|), Min(|va|, |vb|));
    seq(n, i requires 0 <= i < n => Item(l[i], s[i], va[i], vb[i]))
  }

  function Min(p: nat, q: nat): nat
  {
    if p <= q then p else q
  }

  /** The items the loop of `process` visits: `zip(*match_long_repeat([L, S, A, B]))`. */
  function Batch(locations: seq<Vec3>, scales: seq<Vec3>, vAs: seq<Vec3>, vBs: seq<Vec3>): seq<Item>
  {
    var params := MatchLongRepeat([locations, scales, vAs, vBs]);
    Zip4(params[0], params[1], params[2], params[3])
  }

  /**
    An empty input list leaves no items; otherwise there are as many items as the longest list
    has elements, each list's last element standing in past its end.
   */
  lemma BatchShape(locations: seq<Vec3>, scales: seq<Vec3>, vAs: seq<Vec3>, vBs: seq<Vec3>)
    ensures var items := Batch(locations, scales, vAs, vBs);
      (|locations| == 0 || |scales| == 0 || |vAs| == 0 || |vBs| == 0 ==> items == [])
    ensures var items := Batch(locations, scales, vAs, vBs);
      |locations| > 0 && |scales| > 0 && |vAs| > 0 && |vBs| > 0 ==>
        |items| == MaxLength([locations, scales, vAs, vBs]) &&
        |locations| <= |items| && |scales| <= |items| && |vAs| <= |items| && |vBs| <= |items| &&
        forall i :: 0 <= i < |items| ==>
          items[i] == Item(Broadcast(locations, i), Broadcast(scales, i), Broadcast(vAs, i), Broadcast(vBs, i))
  {
    var lists := [locations, scales, vAs, vBs];
    var params := MatchLongRepeat(lists);
    assert lists[0] == locations && lists[1] == scales && lists[2] == vAs && lists[3] == vBs;
    var items := Zip4(params[0], params[1], params[2], params[3]);
    if |locations| == 0 || |scales| == 0 || |vAs| == 0 || |vBs| == 0 {
      assert params[0] == [] || params[1] == [] || params[2] == [] || params[3] == [];
    } else {
      var n := MaxLength(lists);
      assert |params[0]| == n && |params[1]| == n && |params[2]| == n && |params[3]| == n;
      assert |items| == n;
      forall i | 0 <= i < |items|
        ensures items[i] == Item(Broadcast(locations, i), Broadcast(scales, i), Broadcast(vAs, i), Broadcast(vBs, i))
      {
        assert params[0][i] == Broadcast(locations, i) && params[1][i] == Broadcast(scales, i);
        assert params[2][i] == Broadcast(vAs, i) && params[3][i] == Broadcast(vBs, i);
      }
    }
  }

  // ---------------------------------------------------------------------------------------------
  // The outputs

  /** `[X.x, X.y, X.z]`: a vector as the list the X, Y and Z outputs carry. */
  function Coordinates(v: Vec3): (c: seq<real>)
    ensures |c| == 3
  {
    [v.x, v.y, v.z]
  }

  /** `Vector(c)`: the vector a three-element list stands for. */
  function FromCoordinates(c: seq<real>): Vec3
    requires |c| == 3
  {
    Vec3(c[0], c[1], c[2])
  }

  lemma CoordinatesRoundTrip(v: Vec3)
    ensures FromCoordinates(Coordinates(v)) == v
  {
  }

  /** The matrix of one item. */
  function ItemMatrix(cfg: Config, item: Item, invLength: Vec3 -> real): Matrix
  {
    AssembleMatrix(ItemFrame(cfg, item.a, item.b, invLength), item.scale, item.location)
  }

  /** What `matrixList` holds after the loop: one matrix per item, in order. */
  function MatrixList(cfg: Config, items: seq<Item>, invLength: Vec3 -> real): seq<Matrix>
  {
    seq(|items|, i requires 0 <= i < |items| => ItemMatrix(cfg, items[i], invLength))
  }

  /** What `xList` (`yList`, `zList`) holds after the loop when X (Y, Z) is linked. */
  function AxisList(cfg: Config, items: seq<Item>, invLength: Vec3 -> real, axis: Axis): seq<seq<real>>
  {
    seq(|items|, i requires 0 <= i < |items| => Coordinates(AxisOf(ItemFrame(cfg, items[i].a, items[i].b, invLength), axis)))
  }

  /**
    Every matrix is affine with the item's location as translation column, and its first three
    columns are the vectors of the X, Y and Z lists scaled by the item's S.
   */
  lemma OutputsAgree(cfg: Config, items: seq<Item>, invLength: Vec3 -> real, i: nat)
    requires i < |items|
    ensures var m := MatrixList(cfg, items, invLength)[i]; var s := items[i].scale;
      IsAffine(m) && Column(m, 3) == items[i].location &&
      Column(m, 0) == Scale(FromCoordinates(AxisList(cfg, items, invLength, AxisX)[i]), s.x) &&
      Column(m, 1) == Scale(FromCoordinates(AxisList(cfg, items, invLength, AxisY)[i]), s.y) &&
      Column(m, 2) == Scale(FromCoordinates(AxisList(cfg, items, invLength, AxisZ)[i]), s.z)
  {
    var f := ItemFrame(cfg, items[i].a, items[i].b, invLength);
    AssembleMatrixColumns(f, items[i].scale, items[i].location);
    CoordinatesRoundTrip(f.x);
    CoordinatesRoundTrip(f.y);
    CoordinatesRoundTrip(f.z);
  }

  /** The X, Y and Z entries of one item are pairwise perpendicular and never left-handed. */
  lemma AxisListsOrthogonal(cfg: Config, items: seq<Item>, invLength: Vec3 -> real, i: nat)
    requires IsReciprocalLength(invLength)
    requires i < |items|
    ensures var x := FromCoordinates(AxisList(cfg, items, invLength, AxisX)[i]);
      var y := FromCoordinates(AxisList(cfg, items, invLength, AxisY)[i]);
      var z := FromCoordinates(AxisList(cfg, items, invLength, AxisZ)[i]);
      Dot(x, y) == 0.0 && Dot(y, z) == 0.0 && Dot(z, x) == 0.0 && Triple(x, y, z) >= 0.0
  {
    var f := ItemFrame(cfg, items[i].a, items[i].b, invLength);
    assert Orthogonal(f) && Handedness(f) >= 0.0 by {
      ItemFrameOrthogonal(cfg, items[i].a, items[i].b, invLength);
      ItemFrameRightHanded(cfg, items[i].a, items[i].b, invLength);
    }
    var x, y, z := AxisList(cfg, items, invLength, AxisX)[i], AxisList(cfg, items, invLength, AxisY)[i],
      AxisList(cfg, items, invLength, AxisZ)[i];
    assert x == Coordinates(f.x) && y == Coordinates(f.y) && z == Coordinates(f.z);
    CoordinatesRoundTrip(f.x);
    CoordinatesRoundTrip(f.y);
    CoordinatesRoundTrip(f.z);
    assert Handedness(f) == Triple(f.x, f.y, f.z);
  }

  /** When the item's T and U are not parallel, its X, Y and Z entries are strictly right-handed. */
  lemma AxisListsStrictlyRightHanded(cfg: Config, items: seq<Item>, invLength: Vec3 -> real, i: nat)
    requires IsReciprocalLength(invLength)
    requires i < |items|
    requires Cross(Select(cfg.t, items[i].a, items[i].b), Select(cfg.u, items[i].a, items[i].b)) != Zero
    ensures Triple(FromCoordinates(AxisList(cfg, items, invLength, AxisX)[i]),
      FromCoordinates(AxisList(cfg, items, invLength, AxisY)[i]),
      FromCoordinates(AxisList(cfg, items, invLength, AxisZ)[i])) > 0.0
  {
    var f := ItemFrame(cfg, items[i].a, items[i].b, invLength);
    assert Handedness(f) > 0.0 by {
      ItemFrameRightHanded(cfg, items[i].a, items[i].b, invLength);
    }
    var x, y, z := AxisList(cfg, items, invLength, AxisX)[i], AxisList(cfg, items, invLength, AxisY)[i],
      AxisList(cfg, items, invLength, AxisZ)[i];
    assert x == Coordinates(f.x) && y == Coordinates(f.y) && z == Coordinates(f.z);
    CoordinatesRoundTrip(f.x);
    CoordinatesRoundTrip(f.y);
    CoordinatesRoundTrip(f.z);
    assert Handedness(f) == Triple(f.x, f.y, f.z);
  }

  /**
    The loop of `process` in matrix_basis_change.py: for each item select T and U, orthogonalise,
    normalise if asked, append the axes to the lists of the linked X, Y and Z outputs, and append
    the matrix.
   */
  method BuildOutputs(cfg: Config, links: Links, items: seq<Item>, invLength: Vec3 -> real)
    returns (matrixList: seq<Matrix>, xList: seq<seq<real>>, yList: seq<seq<real>>, zList: seq<seq<real>>)
    ensures matrixList == MatrixList(cfg, items, invLength)
    ensures xList == (if links.x then AxisList(cfg, items, invLength, AxisX) else [])
    ensures yList == (if links.y then AxisList(cfg, items, invLength, AxisY) else [])
    ensures zList == (if links.z then AxisList(cfg, items, invLength, AxisZ) else [])
  {
    ghost var xs, ys, zs := AxisList(cfg, items, invLength, AxisX), AxisList(cfg, items, invLength, AxisY),
      AxisList(cfg, items, invLength, AxisZ);
    xList, yList, zList, matrixList := [], [], [], [];
    var i := 0;
    while i < |items|
      invariant 0 <= i <= |items|
      invariant matrixList == MatrixList(cfg, items, invLength)[..i]
      invariant xList == (if links.x then xs[..i] else [])
      invariant yList == (if links.y then ys[..i] else [])
      invariant zList == (if links.z then zs[..i] else [])
    {
      var item := items[i];
      var f := ComputeItemFrame(cfg, item.a, item.b, invLength);
      assert xs[i] == Coordinates(f.x) && ys[i] == Coordinates(f.y) && zs[i] == Coordinates(f.z);
      if links.x {
        xList := xList + [Coordinates(f.x)];
        PrefixExtend(xs, i);
      }
      if links.y {
        yList := yList + [Coordinates(f.y)];
        PrefixExtend(ys, i);
      }
      if links.z {
        zList := zList + [Coordinates(f.z)];
        PrefixExtend(zs, i);
      }
      var m := AssembleMatrix(f, item.scale, item.location);
      matrixList := matrixList + [m];
      PrefixExtend(MatrixList(cfg, items, invLength), i);
      i := i + 1;
    }
    assert MatrixList(cfg, items, invLength)[..i] == MatrixList(cfg, items, invLength);
    assert xs[..i] == xs && ys[..i] == ys && zs[..i] == zs;
  }

  /**
    One iteration of that loop, statement by statement: select T and U, orthogonalise, and when
    asked overwrite the frame with its normalised axes, as `normalize()` rescales them in place.
    It computes exactly `ItemFrame`, whose properties the lemmas above state.
   */
  method ComputeItemFrame(cfg: Config, a: Vec3, b: Vec3, invLength: Vec3 -> real) returns (f: Frame)
    ensures f == ItemFrame(cfg, a, b, invLength)
  {
    var t := Select(cfg.t, a, b);
    var u := Select(cfg.u, a, b);
    f := Orthogonalize(cfg.order, t, u);
    if cfg.normalize {
      f := NormalizeFrame(f, invLength);
    }
  }

  lemma PrefixExtend<T>(s: seq<T>, i: nat)
    requires i < |s|
    ensures s[..i + 1] == s[..i] + [s[i]]
  {
  }

  // ---------------------------------------------------------------------------------------------
  // The node

  /** `SvMatrixBasisChangeNode`: its settings and the data it last wrote to its output sockets. */
  class BasisChangeNode {
    var orthogonalizingOrder: Order
    var t: Selector
    var u: Selector
    var normalize: bool
    var matrixOut: seq<Matrix>
    var xOut: seq<seq<seq<real>>>
    var yOut: seq<seq<seq<real>>>
    var zOut: seq<seq<seq<real>>>

    /** A new node with the property defaults and no output data yet. */
    constructor ()
      ensures Settings() == DefaultConfig
      ensures matrixOut == [] && xOut == [] && yOut == [] && zOut == []
    {
      orthogonalizingOrder, t, u, normalize := XYZ, A, B, true;
      matrixOut, xOut, yOut, zOut := [], [], [], [];
    }

    function Settings(): Config
      reads this`orthogonalizingOrder, this`t, this`u, this`normalize
    {
      Config(orthogonalizingOrder, t, u, normalize)
    }

    /**
      `process`: nothing happens when no output is linked; otherwise the Matrix output gets the
      matrix list and X, Y and Z each get their list wrapped once more, empty when unlinked.
     */
    method Process(links: Links, locations: seq<Vec3>, scales: seq<Vec3>, vAs: seq<Vec3>,
                   vBs: seq<Vec3>, invLength: Vec3 -> real)
      modifies this`matrixOut, this`xOut, this`yOut, this`zOut
      ensures !links.AnyLinked() ==>
        matrixOut == old(matrixOut) && xOut == old(xOut) && yOut == old(yOut) && zOut == old(zOut)
      ensures links.AnyLinked() ==>
        var items := Batch(locations, scales, vAs, vBs);
        matrixOut == MatrixList(old(Settings()), items, invLength) &&
        xOut == [if links.x then AxisList(old(Settings()), items, invLength, AxisX) else []] &&
        yOut == [if links.y then AxisList(old(Settings()), items, invLength, AxisY) else []] &&
        zOut == [if links.z then AxisList(old(Settings()), items, invLength, AxisZ) else []]
    {
      if !links.AnyLinked() {
        return;
      }
      var cfg, items := Settings(), Batch(locations, scales, vAs, vBs);
      var matrixList, xList, yList, zList := BuildOutputs(cfg, links, items, invLength);
      matrixOut, xOut, yOut, zOut := matrixList, [xList], [yList], [zList];
    }
  }
}
