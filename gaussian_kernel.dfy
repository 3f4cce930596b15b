/** CGaussianKernel: a Gaussian kernel over two bound collections that caches
    the squared norm of every vector of each side. When both sides are the same
    collection the right cache is the same array as the left one. */
module Gaussian {
  import opened Features
  import opened Ledger
  import opened Score

  class GaussianKernel {
    /** The dot-product provider the kernel is layered over (the virtual
        CDotFeatures::dot of the bound collections). */
    const provider: DotProduct

    var width: real
    var compact: bool
    /** The collections bound by the base kernel (lhs, rhs); null when unbound. */
    var lhs: DotFeatures?
    var rhs: DotFeatures?
    /** The squared-norm caches (sq_lhs, sq_rhs); null when absent. */
    var sqLhs: array?<real>
    var sqRhs: array?<real>
    /** Every allocation and release of a cache buffer, in order. */
    ghost var history: seq<Event>

    /** buf holds the self dot product of every vector of df, one entry per vector. */
    ghost predicate SelfDots(buf: array<real>, df: DotFeatures)
      reads buf
    {
      buf.Length == df.numVectors &&
      forall i :: 0 <= i < buf.Length ==> buf[i] == provider.dot(df, i, df, i)
    }

    /** The cache buffers currently held. */
    ghost function Buffers(): set<array<real>>
      reads this
    {
      Owned(sqLhs, sqRhs)
    }

    /** The cache invariant: exactly the held buffers are outstanding, no
        buffer was released twice, and the buffers are either both absent or
        both present, consistent with the bound collections and aliased exactly
        when the collections are the same object. */
    ghost predicate CacheValid()
      reads this, sqLhs, sqRhs
    {
      WellFormed(history) && Live(history) == Buffers() &&
      (sqLhs == null <==> sqRhs == null) &&
      (sqLhs != null ==>
        lhs != null && rhs != null && sqRhs != null &&
        SelfDots(sqLhs, lhs) && SelfDots(sqRhs, rhs) &&
        (sqLhs == sqRhs <==> lhs == rhs))
    }

    /** The object invariant between public calls: the caches are present
        exactly when both collections are bound. */
    ghost predicate Valid()
      reads this, sqLhs, sqRhs
    {
      CacheValid() && (sqLhs != null <==> lhs != null && rhs != null)
    }

    /** CGaussianKernel(): unbound, width 1. */
    constructor (provider: DotProduct)
      ensures Valid() && this.provider == provider
      ensures width == 1.0 && lhs == null && rhs == null
      ensures sqLhs == null && sqRhs == null && history == []
    {
      this.provider := provider;
      lhs, rhs := null, null;
      history := [];
      new;
      InitDefaults();
    }

    /** CGaussianKernel(size, w): unbound, width w. The cache-size hint goes to
        the base kernel and is not modelled. */
    constructor WithWidth(provider: DotProduct, size: int, w: real)
      ensures Valid() && this.provider == provider
      ensures width == w && lhs == null && rhs == null
      ensures sqLhs == null && sqRhs == null && history == []
    {
      this.provider := provider;
      lhs, rhs := null, null;
      history := [];
      new;
      InitDefaults();
      SetWidth(w);
    }

    /** CGaussianKernel(l, r, w, size): width w, then bound to l and r. The
        result of the binding is discarded, as in the source. */
    constructor WithFeatures(provider: DotProduct, l: DotFeatures?, r: DotFeatures?, w: real,
                             size: int, normalizerOk: bool)
      ensures Valid() && this.provider == provider
      ensures width == w && lhs == l && rhs == r
      ensures history == Allocs(sqLhs, sqRhs)
      ensures forall a :: a in Buffers() ==> fresh(a)
    {
      this.provider := provider;
      lhs, rhs := null, null;
      history := [];
      new;
      InitDefaults();
      SetWidth(w);
      var _ := Init(l, r, normalizerOk);
    }

    /** init(): width 1 and no caches, on an object that holds no buffer yet.
        Registering width as the persisted parameter is not modelled. */
    method InitDefaults()
      requires Live(history) == {} && WellFormed(history) && (lhs == null || rhs == null)
      modifies this
      ensures Valid()
      ensures width == 1.0 && sqLhs == null && sqRhs == null
      ensures lhs == old(lhs) && rhs == old(rhs) && compact == old(compact) && history == old(history)
    {
      SetWidth(1.0);
      sqLhs := null;
      sqRhs := null;
    }

    method SetWidth(w: real)
      modifies this`width
      ensures GetWidth() == w
    {
      width := w;
    }

    function GetWidth(): real
      reads this
    {
      width
    }

    /** set_compact_enabled */
    method SetCompactEnabled(comp: bool)
      modifies this`compact
      ensures GetCompactEnabled() == comp
    {
      compact := comp;
    }

    /** get_compact_enabled */
    function GetCompactEnabled(): bool
      reads this
    {
      compact
    }

    /** delete[] buf: releasing null does nothing; a non-null buffer must be
        outstanding and stops being so. */
    method Release(buf: array?<real>)
      requires WellFormed(history) && (buf != null ==> buf in Live(history))
      modifies this`history
      ensures WellFormed(history)
      ensures history == old(history) + (if buf == null then [] else [Released(buf)])
      ensures Live(history) == if buf == null then old(Live(history)) else old(Live(history)) - {buf}
    {
      if buf != null {
        ReleaseKeepsWellFormed(history, buf);
        history := history + [Released(buf)];
      }
    }

    /** cleanup(): releases the right cache unless it is the left one, then the
        left one, and lets the base kernel drop both collections. */
    method Cleanup()
      requires CacheValid()
      modifies this
      ensures Valid()
      ensures sqLhs == null && sqRhs == null && lhs == null && rhs == null
      ensures width == old(width) && compact == old(compact)
      ensures history == old(history) + Frees(old(sqLhs), old(sqRhs))
      ensures Live(history) == {}
    {
      if sqLhs != sqRhs {
        Release(sqRhs);
      }
      sqRhs := null;
      Release(sqLhs);
      sqLhs := null;
      // CKernel::cleanup(): the base kernel unbinds both collections
      lhs, rhs := null, null;
    }

    /** precompute_squared_helper(buf, df): a fresh buffer holding the self dot
        product of every vector of df. A null collection is a fatal assertion. */
    method PrecomputeSquaredHelper(df: DotFeatures?) returns (buf: array<real>)
      requires df != null
      requires WellFormed(history)
      modifies this`history
      ensures fresh(buf) && SelfDots(buf, df)
      ensures history == old(history) + [Allocated(buf)]
      ensures WellFormed(history) && Live(history) == old(Live(history)) + {buf}
    {
      var numVec := df.numVectors;
      buf := new real[numVec];
      if buf in Ever(history) {
        EverRecorded(history, buf);
        assert false;
      }
      AllocateKeepsWellFormed(history, buf);
      history := history + [Allocated(buf)];
      for i := 0 to numVec
        invariant history == old(history) + [Allocated(buf)]
        invariant forall k :: 0 <= k < i ==> buf[k] == provider.dot(df, k, df, k)
      {
        buf[i] := provider.dot(df, i, df, i);
      }
    }

    /** precompute_squared(): with both collections bound, a fresh left cache,
        and a right cache that is the same array when the collections are the
        same object and a second fresh array otherwise; with either collection
        missing, nothing. Called only when no cache is held. */
    method PrecomputeSquared()
      requires CacheValid() && sqLhs == null && sqRhs == null
      modifies this
      ensures Valid()
      ensures lhs == old(lhs) && rhs == old(rhs) && width == old(width) && compact == old(compact)
      ensures history == old(history) + Allocs(sqLhs, sqRhs)
      ensures forall a :: a in Buffers() ==> fresh(a)
      ensures (lhs == null || rhs == null) ==> sqLhs == null && sqRhs == null
      ensures lhs != null && rhs != null ==>
        sqLhs != null && sqRhs != null && SelfDots(sqLhs, lhs) && SelfDots(sqRhs, rhs) &&
        (lhs == rhs ==> sqRhs == sqLhs) && (lhs != rhs ==> sqRhs != sqLhs)
    {
      if lhs == null || rhs == null {
        return;
      }
      sqLhs := PrecomputeSquaredHelper(lhs);
      if lhs == rhs {
        sqRhs := sqLhs;
      } else {
        sqRhs := PrecomputeSquaredHelper(rhs);
      }
    }

    /** init(l, r): frees the old caches first, binds l and r, builds the new
        caches and reports the normaliser's outcome. The base binding's own
        result is not used, as in the source. */
    method Init(l: DotFeatures?, r: DotFeatures?, normalizerOk: bool) returns (ok: bool)
      requires CacheValid()
      modifies this
      ensures Valid()
      ensures lhs == l && rhs == r && width == old(width) && compact == old(compact)
      ensures ok == normalizerOk
      ensures history == old(history) + Frees(old(sqLhs), old(sqRhs)) + Allocs(sqLhs, sqRhs)
      ensures forall a :: a in Live(history) ==> fresh(a)
    {
      Cleanup();
      // CDotKernel::init(l, r): the base kernel records both collections
      lhs, rhs := l, r;
      PrecomputeSquared();
      // init_normalizer()
      ok := normalizerOk;
    }

    /** load_serializable_post(): on a freshly deserialised object, whose
        caches are absent, rebuilds them for the collections it was saved with. */
    method LoadSerializablePost()
      requires CacheValid() && sqLhs == null && sqRhs == null
      modifies this
      ensures Valid()
      ensures lhs == old(lhs) && rhs == old(rhs) && width == old(width) && compact == old(compact)
      ensures history == old(history) + Allocs(sqLhs, sqRhs)
      ensures forall a :: a in Buffers() ==> fresh(a)
    {
      // CKernel::load_serializable_post() leaves the modelled fields alone
      PrecomputeSquared();
    }

    /** The squared distance between left vector a and right vector b, read
        from the caches: equal to the one computed from dot products alone. */
    function CachedSquaredDistance(a: nat, b: nat): (d: real)
      reads this, sqLhs, sqRhs
      requires Valid() && lhs != null && rhs != null
      requires a < lhs.numVectors && b < rhs.numVectors
      ensures d == SquaredDistance(provider, lhs, a, rhs, b)
    {
      sqLhs[a] + sqRhs[b] - 2.0 * provider.dot(lhs, a, rhs, b)
    }

    /** compute(a, b): the score of left vector a against right vector b is the
        score of their exact squared distance, whatever the caches hold. The
        compact policy asserts that both sides have the same feature count. */
    function Compute(a: nat, b: nat, m: FloatOps): (r: real)
      reads this, sqLhs, sqRhs
      requires Valid() && lhs != null && rhs != null
      requires a < lhs.numVectors && b < rhs.numVectors
      requires compact ==> lhs.numFeatures == rhs.numFeatures
      ensures r == GaussianScore(SquaredDistance(provider, lhs, a, rhs, b), width, compact, lhs.numFeatures, m)
    {
      GaussianScore(CachedSquaredDistance(a, b), width, compact, lhs.numFeatures, m)
    }
  }

  /** With aliased caches, the cached squared distance of a vector to itself is
      exactly 0. */
  lemma AliasedSelfDistanceIsZero(k: GaussianKernel, a: nat)
    requires k.Valid() && k.lhs != null && k.lhs == k.rhs && a < k.lhs.numVectors
    ensures k.sqLhs == k.sqRhs
    ensures k.CachedSquaredDistance(a, a) == 0.0
  {
  }

  /** Scoring a vector of a kernel bound to one collection on both sides
      against itself gives exactly 1 under both policies, given exp(0) = 1,
      sqrt(0) = 0 and 1 to any power is 1. */
  lemma SelfScoreIsOne(k: GaussianKernel, a: nat, m: FloatOps)
    requires k.Valid() && k.lhs != null && k.lhs == k.rhs && a < k.lhs.numVectors
    requires k.width != 0.0
    requires m.exp(0.0) == 1.0 && m.sqrt(0.0) == 0.0 && m.pow(1.0, CompactPower(k.lhs.numFeatures)) == 1.0
    ensures k.Compute(a, a, m) == 1.0
  {
  }

  /** Two kernels with the same provider, bound to the same collections with
      the same width and policy, score every pair alike: the score depends on
      the caches only through the self dot products they must hold, so the
      caches rebuilt on reload give the scores seen before the save. */
  lemma ScoreDependsOnlyOnBinding(k1: GaussianKernel, k2: GaussianKernel, a: nat, b: nat, m: FloatOps)
    requires k1.Valid() && k1.lhs != null && k1.rhs != null
    requires k2.Valid() && k2.provider == k1.provider
    requires k2.lhs == k1.lhs && k2.rhs == k1.rhs && k2.width == k1.width && k2.compact == k1.compact
    requires a < k1.lhs.numVectors && b < k1.rhs.numVectors
    requires k1.compact ==> k1.lhs.numFeatures == k1.rhs.numFeatures
    ensures k1.Compute(a, b, m) == k2.Compute(a, b, m)
  {
  }
}
