# Face animator: the per-cycle geometry update

This project models, in Dafny, the update cycle of the face animator client
(`FaceAnimator._update_vertices` in `animator.py`). A controller streams text
frames of comma-separated numbers. On every cycle the animator does four things:

1. It decodes the latest frame into numbers.
2. It builds a coefficient vector of `exp_num` channels. Channels 0, 1 and 2
   hold the frame's values at positions 25, 13 and 12, each divided by 80.
   Every other channel is 0.
3. It deforms the face linearly: `(coeff @ exp_bases).reshape(V, 3) + mean_shape`.
   Here `exp_bases` is the `(E, V, 3)` expression basis flattened row-major to
   `(E, 3V)`.
4. It overwrites every eye vertex with its mean-shape position, lowered by
   `eye_delta` in depth. The default, 0.01, is `Animator.DefaultEyeDelta`.
   `start` calls the update without an argument, so the render loop always
   uses it; `Animator.DefaultDeltaLowersEyes` states what that cycle does to
   the eyes.

If anything fails along the way, the cycle returns the mean shape unchanged.
That covers no frame yet, a token that is not a number, a short frame, too few
channels, or an eye index outside the mesh.

Files:

- `wrappers.dfy`: the `Option` type.
- `frame.dfy` (module `Frame`): `str.split(',')` written out exactly, and the
  list comprehension of `float()` over the pieces. The conversion of one token
  is a library call. It enters the model as a parameter
  `toFloat: string -> Option<real>`, where `None` means that `float()` raises.
- `blendshape.dfy` (module `BlendShape`): vertices, the row-major flattening of
  the basis and the reshape back, the vector-matrix product, the blend, the
  coefficient selection, the eye correction, and the `BlendModel` value that
  holds the loaded data.
- `animator.dfy` (module `Animator`): the whole cycle as a function (`Cycle`)
  with its properties. It also holds the `FaceAnimator` class. Its method
  `UpdateVertices` does the cycle step by step: it builds the coefficient array
  in place, writes the `coeffRaw` field, and runs the eye loop over an array.
  `UpdateVertices` is proved equal to `Cycle`.

Numbers are `real`, not IEEE floats. Eye indices are `nat`. The receiving
thread stores each frame in the public field `FaceAnimator.rawData`, which is
`None` until the first frame arrives. The model does not include that thread.

The code contradicts itself on one point. Its caller expects a shape from
every cycle: `start` (animator.py:134-135) hands the result to
`_update_pyrender`, which assigns it to `self.mesh.vertices` (line 122). But
`_update_vertices` returns the blended vertices only when eye indices are
loaded. Without them, a successful cycle returns nothing (Python `None`). The
model follows the code (`Cycle`, `UpdateVertices`) and records the difference
under Findings.

## Model

| member | source | states |
|---|---|---|
| Frame.Split | animator.py:103 | splitting a frame always yields at least one token (the empty frame gives one empty token) |
| Frame.SplitPiecesHaveNoSeparator | animator.py:103 | no token contains a comma |
| Frame.JoinSplit | animator.py:103 | joining the tokens with commas gives back the frame |
| Frame.SplitJoin | animator.py:103 | splitting comma-free tokens joined by commas gives back exactly those tokens, empty ones included |
| Frame.SplitCount | animator.py:103 | a frame with n commas has exactly n + 1 tokens |
| Frame.TrailingSeparatorGivesEmptyToken | animator.py:103 | a frame ending in a comma has an empty last token |
| Frame.ParseAll | animator.py:103 | the conversion succeeds exactly when every token converts; the result then has one value per token, in order |
| Frame.Decode | animator.py:103 | a frame decodes exactly when it is set and every comma-separated token converts; it then has one value per token, n + 1 values for n commas, and value i is the conversion of token i |
| Frame.TrailingCommaFailsDecode | animator.py:103 | when `float('')` fails, a frame with a trailing comma never decodes |
| Frame.ShortFrameDecodesShort | animator.py:103 | a frame with fewer than 25 commas decodes to fewer than 26 values |
| BlendShape.FlattenRow | animator.py:48 | one channel of V vertices flattens to 3V numbers |
| BlendShape.Flatten | animator.py:47-48 | the reshape to `(E, -1)` keeps one row per channel |
| BlendShape.FlattenRowAt | animator.py:48 | coordinate c of vertex i sits at flat index 3i + c |
| BlendShape.FlattenAt | animator.py:47-48 | in the flattened basis, row k has 3V entries, and entry 3i + c is coordinate c of vertex i of channel k |
| BlendShape.Reshape | animator.py:112 | `reshape(V, 3)` turns 3V numbers into V vertices |
| BlendShape.ReshapeFlattenRow | animator.py:112 | reshaping a flattened channel gives back its vertices |
| BlendShape.FlattenRowReshape | animator.py:112 | flattening a reshaped vector gives back the vector |
| BlendShape.Combine | animator.py:112 | `coeff @ exp_bases` has one entry per basis column |
| BlendShape.Add | animator.py:112 | adding the mean shape keeps the vertex count |
| BlendShape.Blend | animator.py:112 | the deformed shape has as many vertices as the mean shape |
| BlendShape.BlendAt | animator.py:112 | output coordinate (i, c) is mean[i][c] plus the sum over k of coeff[k] * bases[k][3i + c] |
| BlendShape.DotZero | animator.py:112 | zero coefficients contribute nothing to a column |
| BlendShape.BlendZero | animator.py:112 | the zero coefficient vector gives exactly the mean shape |
| BlendShape.DotAdd | animator.py:112 | the column sum is additive in the coefficients |
| BlendShape.OffsetIsDot | animator.py:112 | the displacement of (i, c) from the mean is column 3i + c of `coeff @ exp_bases` |
| BlendShape.BlendAdditive | animator.py:112 | the displacement from the mean for a + b is the displacement for a plus the one for b |
| BlendShape.DotFlattened | animator.py:112 | column 3i + c of the flattened product is coordinate c of the weighted sum of vertex i over the `(E, V, 3)` basis |
| BlendShape.BlendOfFlattened | animator.py:112 | blending against the flattened basis moves vertex i by the coefficient-weighted sum of the basis displacements of vertex i |
| BlendShape.Zeros | animator.py:104 | `np.zeros(exp_num)` has exp_num entries |
| BlendShape.Coefficients | animator.py:104-107 | a vector exists exactly when the frame has at least 26 values and the model at least 3 channels; it has exp_num entries: raw[25]/80, raw[13]/80 and raw[12]/80 in channels 0, 1 and 2, and 0 in every other channel |
| BlendShape.DotLeadingThree | animator.py:104-112 | when channels 3 and up are zero, only channels 0, 1 and 2 contribute to a column |
| BlendShape.BlendOfSelection | animator.py:104-112 | output coordinate (i, c) is mean[i][c] + raw[25]/80 * B0[3i+c] + raw[13]/80 * B1[3i+c] + raw[12]/80 * B2[3i+c] |
| BlendShape.ZeroSelectionKeepsMean | animator.py:104-112 | when raw[25], raw[13] and raw[12] are 0, the blend is exactly the mean shape |
| BlendShape.EyeCorrected | animator.py:113-116 | the correction fails exactly when some eye index is out of range; otherwise every eye vertex is its mean-shape vertex with z lowered by delta, whatever it was before, and every other vertex is unchanged |
| BlendShape.EyeCorrectionIdempotent | animator.py:114-116 | correcting a corrected shape changes nothing |
| BlendShape.RepeatedEyeIndexDoesNotCompound | animator.py:114-116 | listing an eye index twice does not lower that vertex twice |
| Animator.Cycle | animator.py:100-119 | a returned shape always has exactly V vertices |
| Animator.UndecodableFrameFallsBack | animator.py:101-119 | with no frame yet, or with a token that does not convert, the cycle returns exactly the mean shape |
| Animator.ShortFrameFallsBack | animator.py:104-119 | a frame with fewer than 26 values, or a model with fewer than 3 channels, makes the cycle return exactly the mean shape |
| Animator.EyeIndexOutOfRangeFallsBack | animator.py:114-119 | an eye index of V or more makes the cycle return exactly the mean shape, whatever the frame |
| Animator.NothingReturnedIff | animator.py:113-117 | the cycle returns nothing exactly when it succeeds and no eye indices are loaded |
| Animator.CycleSuccess | animator.py:104-117 | a successful cycle with in-range eye indices returns V vertices; each eye vertex is the mean vertex with z lowered by eye_delta; each other vertex is the blended vertex for the frame's coefficients |
| Animator.DefaultDeltaLowersEyes | animator.py:100-116 | with the default eye_delta of 0.01, a successful cycle with in-range eye indices keeps each eye vertex's x and y at the mean and puts its z strictly below the mean |
| Animator.ZeroPicksKeepMean | animator.py:104-117 | when raw[25], raw[13] and raw[12] are 0, every non-eye output vertex equals its mean-shape vertex |
| Animator.IntendedCycle | animator.py:100-119 | the corrected cycle always returns exactly V vertices |
| Animator.IntendedCycleAgrees | animator.py:100-119 | the corrected cycle equals the written one wherever that returns a shape; where it returns nothing, the corrected one returns the blended shape |
| Animator.UnitFrameWithoutEyeIndex | animator.py:104-117 | with one vertex, three unit channels and no eye indices, a frame of 80s at positions 12, 13 and 25 gives nothing from the written cycle and the vertex (1, 1, 1) from the corrected one |
| Animator.SelectCoefficients | animator.py:104-107 | zero-filling an array and storing the three scaled picks yields exactly `Coefficients`, with no vector when an index is out of range |
| Animator.CorrectEyes | animator.py:113-116 | the loop succeeds exactly when every eye index is in range; the array then holds the eye-corrected shape of its old contents |
| Animator.FaceAnimator.constructor | animator.py:47-52 | the loaded `(E, V, 3)` basis, which must have at least one channel for the reshape to `(E, -1)` to succeed, is stored flattened, E and V are recorded, and the frame and last decoded coefficients start unset |
| Animator.FaceAnimator.UpdateVertices | animator.py:100-119 | the method returns `Cycle` of the current frame; it sets `coeffRaw` to the decoded frame exactly when decoding succeeds, even if a later step fails, and otherwise leaves it alone |

## Left out

- The receiving side (`_recv_message`, `_init_socket`, `_init_client_thread`, animator.py:72-96) is socket I/O on a background daemon thread. The model keeps only its effect: it stores the decoded text in `rawData`, a public field that any caller may assign.
- `start` and `_update_pyrender` (animator.py:121-137) are the render loop, the scene-graph update and the render lock. They belong to the renderer.
- `_init_base_model`, `_init_pyrender` and the file loads in `_init_exp_bases` (`np.load`, `os.path.isfile`, `np.loadtxt`) are foreign library calls. The constructor receives the loaded mean shape, basis and eye indices as values. A missing eye-index file is `None`.
- pyrender_mod.py (`from_trimesh`) repackages mesh data for pyrender. It is not part of this model.
- `float()` is a parameter, so the model does not decide which tokens convert. Python accepts whitespace, exponents, `inf` and `nan`; the model treats all of these as whatever `toFloat` says.
- Arithmetic is over `real`. Rounding, overflow and NaN propagation of IEEE doubles are not modelled.
- Eye indices are `nat`. The model does not cover numpy's wrap-around for negative indices or the int32 type of the loaded indices.
- An eye-index file holding a single index loads as a 0-d array, and iterating over it raises on every cycle. The model takes eye indices as a flat sequence, so that case is not modelled.
- An eye-index file with several indices on each of several lines loads as a 2-D array. Each `idx` is then a row, and `v[idx][2] -= eye_delta` (line 116) lowers a copy: the eye vertices are reset to the mean but not lowered, or the cycle raises when a row has fewer than 3 entries. The model does not cover a 2-D eye index.
- FaceAnimator.constructor: requires at least one basis channel. `np.reshape(exp_bases, (0, -1))` at animator.py:48 raises for an empty basis, outside any handler, so the client aborts at startup; the model does not represent that abort.
- `BlendModel.Valid` requires the mean shape to have V vertices. In the source, a mismatched mean shape is either broadcast by numpy or fails the addition. The model excludes this case: line 112 adds the two without a check, so the mesh file and the basis file are taken to agree.
- The basis's last axis is fixed at 3 by the `Vertex` type. A basis with a different last axis would fail `reshape(V, 3)` in the source.
- When an eye index is out of range, the source has already overwritten the earlier eye vertices of its local array before it raises. `CorrectEyes` leaves the same partial writes in its array. The cycle then returns the mean shape, so nothing observable differs.

## Findings

| source | as written | input that shows it | evidently intended | confidence | as-written member | corrected member |
|---|---|---|---|---|---|---|
| animator.py:113-117 | `return v` is indented inside `if self.eye_index is not None:`, so a successful cycle without eye indices returns `None`; `_update_pyrender` then gets `None` for the vertices | no eye-index file; a frame whose values at 12, 13 and 25 are 80 in a 26-value frame; a one-vertex model with three unit channels | return the blended vertices whether or not eye indices are loaded | not executed; high | Animator.Cycle, shown by Animator.UnitFrameWithoutEyeIndex | Animator.IntendedCycle, with Animator.IntendedCycleAgrees |
