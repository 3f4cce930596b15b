# Gaussian kernel with a squared-norm cache

A model of shogun's `CGaussianKernel` (`src/libshogun/kernel/GaussianKernel.cpp`).
The kernel scores left vector *a* against right vector *b* as
`exp(-d/width)`, where `d = ||a||^2 + ||b||^2 - 2<a,b>`. To avoid recomputing the
norms, it caches the self dot product of every vector of each bound
collection in two buffers, `sq_lhs` and `sq_rhs`. When the left and right
collections are the same object, the right buffer is the same array as the
left one. The cache is freed and rebuilt whenever the kernel is rebound.
A compact mode multiplies the score by a clamped taper.

Files:

- `features.dfy` (module `Features`): a bound collection (`DotFeatures`). Its
  identity is its object reference. It knows its vector count and its feature
  count. The dot product between vectors of two collections (`DotProduct`) is an
  arbitrary pure function.
- `ledger.dfy` (module `Ledger`): a ghost history of buffer allocations and
  releases. It defines which buffers are live and what a well-formed history
  is: only fresh buffers get allocated, and only live ones get released.
  Lemmas prove that no buffer is ever released twice.
- `score.dfy` (module `Score`): the pure arithmetic of `compute`. That is the
  squared distance built from dot products, the compact exponent, the clamp
  and both score policies. `exp`, `sqrt`, `pow` and the IEEE result of a
  division by zero are fields of `FloatOps`, left uninterpreted.
- `gaussian_kernel.dfy` (module `Gaussian`): the class `GaussianKernel`. It has
  the source's fields (`width`, `compact`, `lhs`, `rhs`, `sqLhs`, `sqRhs`),
  the three constructors, `init()`, `cleanup`, `precompute_squared_helper`,
  `precompute_squared`, `init(l, r)`, `load_serializable_post` and
  `compute`. Its invariant `Valid()` has three parts:
  - exactly the held buffers are outstanding in the ledger;
  - each buffer holds the self dot products of its collection;
  - the two buffers are the same array exactly when the two collections are the same object.

Behaviour of the source that the model keeps:

- `init(l, r)` discards the result of the base binding `CDotKernel::init`
  (line 76). It returns only the result of `init_normalizer()` (line 78).
- `precompute_squared` returns without doing anything when either collection
  is missing (lines 121-122). Only `precompute_squared_helper` treats a null
  collection as a fatal assertion (line 63).
- Neither the constructors nor `init()` set `compact` (lines 21-42, 132-137).
  So the model's constructors promise nothing about `compact`.

## Model

| member | source | states |
|---|---|---|
| `Gaussian.GaussianKernel.constructor` | src/libshogun/kernel/GaussianKernel.cpp:21-25 | The default kernel is unbound, has width 1.0, holds no buffers and has allocated nothing; the invariant holds |
| `Gaussian.GaussianKernel.WithWidth` | src/libshogun/kernel/GaussianKernel.cpp:27-32 | Same as the default kernel, except the width is `w` |
| `Gaussian.GaussianKernel.WithFeatures` | src/libshogun/kernel/GaussianKernel.cpp:34-42 | The width is `w` and the kernel is bound to `l` and `r`. The only allocations ever made are the current buffers, and they are fresh; the invariant holds |
| `Gaussian.GaussianKernel.InitDefaults` | src/libshogun/kernel/GaussianKernel.cpp:132-136 | It sets the width to 1.0 and both buffers to null, and changes nothing else. It is only called on an object that holds no buffer |
| `Gaussian.GaussianKernel.SetWidth` | src/libshogun/kernel/GaussianKernel.cpp:134 | Afterwards `GetWidth()` returns the width that was set. Only `width` changes, and nothing checks its sign |
| `Gaussian.GaussianKernel.SetCompactEnabled` | src/libshogun/kernel/GaussianKernel.cpp:81-89 | Afterwards `GetCompactEnabled()` returns the flag that was set. Only `compact` changes |
| `Gaussian.GaussianKernel.Release` | src/libshogun/kernel/GaussianKernel.cpp:52-55 | `delete[]` of null does nothing. A non-null buffer must be outstanding, and afterwards it no longer is. One release event is recorded |
| `Gaussian.GaussianKernel.Cleanup` | src/libshogun/kernel/GaussianKernel.cpp:49-59 | Afterwards both buffers are null and both collections are unbound. The right buffer is released only if it is a different array from the left one, then the left buffer is released. Nothing is left outstanding. A second call releases nothing |
| `Ledger.FreesReleaseEachOnce` | src/libshogun/kernel/GaussianKernel.cpp:51-56 | The releases `cleanup` performs name exactly the distinct non-null buffers, one release per buffer. An aliased buffer is released once |
| `Ledger.NoDoubleRelease` | src/libshogun/kernel/GaussianKernel.cpp:49-57 | In any well-formed history, no buffer is released twice. The kernel keeps its history well formed at all times |
| `Ledger.ReleasedStaysDead` | src/libshogun/kernel/GaussianKernel.cpp:49-57 | A released buffer was allocated and is never live again |
| `Gaussian.GaussianKernel.PrecomputeSquaredHelper` | src/libshogun/kernel/GaussianKernel.cpp:61-69 | It requires a non-null collection (the source's fatal assertion). It returns a fresh buffer with one entry per vector, and entry `i` is `dot(df, i, df, i)`. One allocation is recorded |
| `Gaussian.GaussianKernel.PrecomputeSquared` | src/libshogun/kernel/GaussianKernel.cpp:119-130 | With either collection missing it does nothing: no allocation, and both buffers stay null. Otherwise the left buffer is fresh and holds the left self dot products. When `lhs == rhs` by identity, the right buffer is the same array as the left one. When they differ, it is a second fresh array holding the right self dot products, and the left buffer is left as it was |
| `Gaussian.GaussianKernel.Init` | src/libshogun/kernel/GaussianKernel.cpp:71-79 | Every old buffer is released exactly once before any new buffer is allocated. Afterwards the kernel is bound to `l` and `r` and the invariant holds. Every outstanding buffer is fresh, so repeated rebinds leave no earlier buffer behind. It returns the normaliser's outcome |
| `Gaussian.GaussianKernel.LoadSerializablePost` | src/libshogun/kernel/GaussianKernel.cpp:113-117 | On a deserialised object with no buffers, it rebuilds the cache for the saved collections and changes nothing else |
| `Gaussian.GaussianKernel.CachedSquaredDistance` | src/libshogun/kernel/GaussianKernel.cpp:94 | `sq_lhs[a] + sq_rhs[b] - 2*dot(a, b)` read from the cache equals the squared distance computed from dot products alone |
| `Gaussian.GaussianKernel.Compute` | src/libshogun/kernel/GaussianKernel.cpp:91-111 | The score equals the standard or compact policy applied to the exact squared distance of the two vectors, whatever else the caches hold. Compact mode requires equal feature counts (the source's `ASSERT(alen==blen)`) |
| `Score.CompactPower` | src/libshogun/kernel/GaussianKernel.cpp:101 | The exponent is odd and lies between `alen` and `alen+1`, so it is the least odd number that is at least `alen`. It never overflows a 32-bit int |
| `Score.CompactPowerExamples` | src/libshogun/kernel/GaussianKernel.cpp:101 | Feature counts 0, 4 and 5 give exponents 1, 5 and 5 |
| `Score.Quotient` | src/libshogun/kernel/GaussianKernel.cpp:95 | For a non-zero width, `d/width` is zero exactly when `d` is. For a positive width it has the sign of `d`, so a non-negative distance gives `sqrt` a non-negative argument. Division by zero is left uninterpreted |
| `Score.CompactScoreClamp` | src/libshogun/kernel/GaussianKernel.cpp:104-109 | The compact score is exactly 0 once `sqrt(d/w) >= 3`, whatever `exp` returns. Below that it is the standard score times `pow(1 - sqrt(d/w)/3, power)` |
| `Score.ZeroDistanceScoresOne` | src/libshogun/kernel/GaussianKernel.cpp:93-110 | With `width != 0`, distance 0 scores exactly 1 under both policies, given `exp(0) = 1`, `sqrt(0) = 0` and `pow(1, k) = 1` |
| `Gaussian.AliasedSelfDistanceIsZero` | src/libshogun/kernel/GaussianKernel.cpp:124-127 | When one collection is bound on both sides, the two buffers are one array, and a vector's cached squared distance to itself is exactly 0 |
| `Gaussian.SelfScoreIsOne` | src/libshogun/kernel/GaussianKernel.cpp:91-111 | On such a kernel, `Compute(a, a)` is exactly 1 in both modes, given the three library facts above |
| `Gaussian.ScoreDependsOnlyOnBinding` | src/libshogun/kernel/GaussianKernel.cpp:113-117 | Two valid kernels with the same collections, width and mode score every pair alike. So a cache rebuilt on reload gives the same scores as before the save, provided the caller sets the same compact flag again, which is not persisted |

## Left out

- Floating point: sums and products are exact over `real`, without rounding. `exp`, `sqrt`, `pow` and the result of dividing by zero (an infinity or NaN) are uninterpreted. No bound on the score is stated.
- A negative squared distance in compact mode is not captured. Rounding can make the distance slightly negative. Then `sqrt` returns NaN (line 104), `NaN <= 0` is false, and the score is NaN (lines 105-109). The real-valued `sqrt` of the model always returns a real number, so the model cannot produce that NaN.
- The dot-product provider (`CDotFeatures::dot`, `get_num_vectors`, `get_num_features`) is an abstract pure function plus two counts. The kernel receives the provider as an extra constructor argument, because Dafny does not allow a collection object to store a function over collections. The unchecked cast to `CSimpleFeatures` in compact mode is left out, and the feature count belongs to every collection.
- Base-class behaviour is not part of this model (`CDotKernel::init`, `CDotKernel::compute`, `CKernel::cleanup`, `init_normalizer`, `CKernel::load_serializable_post`). It is modelled as follows:
  - the base binding records `l` and `r`;
  - the base compute is `dot(lhs, a, rhs, b)`;
  - the base cleanup unbinds both collections;
  - the normaliser's outcome is a parameter of `Init`;
  - the base reload hook leaves the modelled fields alone.
- `Gaussian.GaussianKernel.LoadSerializablePost` requires that no buffers are held, as on a freshly deserialised object. The source does not run cleanup first, and on a live object it would leak the old buffers.
- The cache-size hint of the constructors goes to the base kernel and is not modelled.
- Registering `width` as the persisted parameter (`m_parameters->add`) and serialisation itself are not modelled.
- Gaussian.ScoreDependsOnlyOnBinding: only `width` is persisted (line 137), and a reloaded object's `compact` is never set (lines 21-25, 132-136). So the compact mode survives a save and reload only if the caller sets it again. The lemma assumes both kernels use the same mode.
- `set_width` and `get_width` are declared in `GaussianKernel.h`, which is not part of this model. Lines 31, 39 and 134 call them. They are modelled as plain field accessors (`SetWidth`, `GetWidth`) that validate nothing.
- The compact accessors at lines 81-89 are written as free functions, and `get_compact_enabled` is declared `void`. They are modelled as a setter and getter of the `compact` field of the kernel.
- The destructor only calls `cleanup`, which is modelled. Memory release is modelled by the ghost history, not by actual deallocation.
- Out-of-range indices to `compute` are undefined behaviour in the source. `Compute` requires in-range indices.
