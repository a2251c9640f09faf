# magpylib: collections of magnet sources and the cube field pipeline

This project models the part of magpylib that sits around the closed-form
field formulas:

- **Collection** (`magpylib/_lib/classes/collection.py`). This is an ordered,
  mutable list of references to sources. It is built from the sources given,
  in argument order. `addSource` appends to it. Its `getB` is the vector sum,
  in list order, of every member's field at one point. `move` and `rotate`
  forward one identical transform to each member in turn.
- **Cube** (`magnet/_cube.py`). This is a homogeneously magnetized
  rectangular magnet. Construction checks that `dim` has three components and
  stores the pose, the magnetization and the dimensions. `getB` evaluates the
  field through a fixed pipeline:
  1. translate the observation point by `-position`;
  2. rotate it by `(angle, -axis)` into the magnet's own frame;
  3. evaluate the canonical cuboid formula there;
  4. rotate the result back by `(angle, axis)`.

Vectors are `Vectors.Vec3` values over `real`.

Two library functions are not part of this model: the angle-axis rotation
(`angleAxisRotation`) and the cuboid formula (`Bfield_Cube`). They enter as
function-valued parameters of type `Frames.Rotation` and
`Frames.CanonicalField`. Every result therefore holds for any functions in
their place. Properties of the rotation are never assumed silently. Where a
lemma needs one, it appears as a `requires`:
- `Frames.ZeroAngleIsIdentity`: a zero angle turns nothing.
- `Frames.NegatedAxisUndoes`: turning about `-axis` undoes turning about
  `axis`.

A source object is the class `Magnets.Source`. It has:
- `position`, `angle` and `axis` fields, which `Move` and `Rotate` update in
  place;
- `magnetization` and `dimension` fields;
- a constant `canonical`, the formula of its shape. A cube is built with
  `Bfield_Cube` in that place.

The base class's `rotate` is not part of this model. The new pose comes from a
`Frames.RotateLaw` parameter, applied to the old pose, the angle, the axis and
the centre of rotation.

`Collections.Collection` holds a `seq<Source>`. A source may occur in it
several times. Each occurrence adds its field to the sum once and receives the
transform once. So a source held twice moves by `2 d` under `move(d)` and is
rotated twice under `rotate`. For a list without repeats, each member moves by
exactly `d` and is rotated exactly once. The contracts of `Collection.Move` and
`Collection.Rotate` state both forms.

`getB` is a function, for both a source and a collection. It reads the current
pose and parameters and changes nothing.

## Model

| member | source | states |
|---|---|---|
| `Vectors.Sum` | magpylib/_lib/classes/collection.py:115 | the built-in `sum` of a list of field vectors: a fold of vector addition from the left, starting at the zero vector |
| `Vectors.SumFromAppend` | magpylib/_lib/classes/collection.py:115 | a left fold of vector addition over `vs + [v]` is the fold over `vs` plus `v` |
| `Vectors.SumAppend` | magpylib/_lib/classes/collection.py:115 | appending a vector to the summed list adds that vector to the total (the built-in `sum` folds from the left, starting at zero) |
| `Vectors.SumConcat` | magpylib/_lib/classes/collection.py:115 | the sum of a concatenation is the sum of the two partial sums |
| `Vectors.SumOfCopies` | magpylib/_lib/classes/collection.py:115 | `k` copies of a vector sum to `k` times it; zero copies give the zero vector |
| `Frames.ToLocal` | magnet/_cube.py:125-128 | world to local: the offset `p - position`, turned by `angle` about the negated axis `-axis` |
| `Frames.ToWorld` | magnet/_cube.py:134 | local to world for a field vector: turned by the same `angle` about the original `axis`, with no translation |
| `Frames.WorldField` | magnet/_cube.py:125-134 | the cube's field pipeline: the canonical formula evaluated at `ToLocal(p)` with the magnetization and dimensions, the result passed through `ToWorld` |
| `Frames.RotateStep` | magpylib/_lib/classes/collection.py:150-188 | one member rotation: the rotation law applied with the forwarded angle and axis, about the forwarded centre, or about the member's own current position for the `'self.position'` placeholder |
| `Frames.RelativeOffsetOnly` | magnet/_cube.py:125 | the field depends on the observation point only through its offset from the source's position: equal offsets and equal orientation give equal fields |
| `Frames.UnrotatedPose` | magnet/_cube.py:122-134 | with angle 0, and a rotation that turns nothing at angle 0, the pipeline is the canonical formula at `p - position` |
| `Frames.BodyFixedPoint` | magnet/_cube.py:128-134 | if turning about `-axis` undoes turning about `axis`, a body point `q` carried into the world is seen locally as `q` again, and the field there is the canonical field at `q` turned by `(angle, axis)`; the way in negates the axis, the way out keeps it, with the same angle |
| `Magnets.Source.Cube` | magnet/_cube.py:93-102 | a three-component `dim` yields a cube whose position, angle, axis, magnetization and dimension are the arguments; the defaults are position (0,0,0), angle 0 and axis (0,0,1) |
| `Magnets.Source.NewCube` | magnet/_cube.py:100-102 | construction succeeds exactly when `dim` has three components; otherwise it fails with "Bad dim input for cube"; on success the new cube carries the given pose, magnetization and dimension |
| `Magnets.Source.GetB` | magnet/_cube.py:105-136 | the field is the translate, rotate (negated axis), formula, rotate back pipeline over the current fields; for angle 0 and a rotation that turns nothing at angle 0, it is the canonical formula at `p - position` |
| `Magnets.Source.Move` | magnet/_cube.py:66-67 | the position becomes old position plus `d`; angle, axis, magnetization and dimension are unchanged; for every rotation and point `p`, the field at `p + d` afterwards equals the field at `p` before |
| `Magnets.Source.Rotate` | magnet/_cube.py:72-74 | the new pose is the rotation law applied to the old pose about the centre `c` of `Some(c)`, which defaults to the origin as documented; `None` is the `'self.position'` placeholder forwarded by a collection and means the source's own current position; magnetization and dimension are unchanged |
| `Collections.FieldsAt` | magpylib/_lib/classes/collection.py:115 | the list comprehension: one entry per member, in order, each that member's field at `p` |
| `Collections.SumFields` | magpylib/_lib/classes/collection.py:115 | the total field of a member list: the built-in `sum` of the list of the members' fields at `p` |
| `Collections.FieldsAtConcat` | magpylib/_lib/classes/collection.py:115 | the fields of a concatenated member list are the concatenated fields |
| `Collections.AppendAddsField` | magpylib/_lib/classes/collection.py:86-115 | after appending source `s`, the total field is the previous total plus `s`'s field (the running totals of the `addSource` example) |
| `Collections.EqualFieldsScale` | magpylib/_lib/classes/collection.py:115 | `N` members that each give the same field `b` at `p`, whether separate identical sources or one source held `N` times, give `N` times `b` together |
| `Collections.CopiesScaleField` | magpylib/_lib/classes/collection.py:115 | a list holding the same source `k` times gives `k` times that source's field; every duplicate contributes |
| `Collections.RemoveOneField` | magpylib/_lib/classes/collection.py:115 | removing the member at index `j` removes exactly its field from the total |
| `Collections.PermutationSameField` | magpylib/_lib/classes/collection.py:115 | any two member lists that are permutations of each other give the same total field |
| `Collections.OccurrencesIsMultiplicity` | magpylib/_lib/classes/collection.py:146-147 | the number of times a source occurs in the list is its multiplicity in the list's multiset |
| `Collections.DistinctOccursOnce` | magpylib/_lib/classes/collection.py:146-147 | in a list without repeated references, every member occurs exactly once |
| `Collections.MovedTimesScale` | magpylib/_lib/classes/collection.py:146-147 | being moved `k` times by `d` is one move by `k` times `d` |
| `Collections.Collection.constructor` | magpylib/_lib/classes/collection.py:60-64 | the new collection's list is exactly the given sources, in argument order, repeats kept |
| `Collections.Collection.AddSource` | magpylib/_lib/classes/collection.py:96 | the list becomes the old list with the source appended at the end; earlier elements and their order are unchanged |
| `Collections.Collection.GetB` | magpylib/_lib/classes/collection.py:115 | an empty collection gives the zero vector; otherwise the total is the total of all members but the last, plus the last member's field |
| `Collections.Collection.Move` | magpylib/_lib/classes/collection.py:146-147 | each member's position becomes old position plus `d` times its number of occurrences, and plus exactly `d` in a list without repeats; angle, axis, magnetization, dimension and the list itself are unchanged |
| `Collections.Collection.Rotate` | magpylib/_lib/classes/collection.py:150-188 | each member's pose is the rotation law applied with the same angle, axis and anchor once per occurrence, and exactly once in a list without repeats; an absent anchor means each member's own current position; magnetization, dimension and the list are unchanged |
| `Collections.RunningTotals` | magpylib/_lib/classes/collection.py:86-95 | building a collection from one source and adding two more, each total is the previous total plus the new source's field |

## Left out

- `displaySystem` (plotting with matplotlib) is not part of this model.
- The bodies of `angleAxisRotation` and `Bfield_Cube` are not part of this model. Both are floating-point numerics; they are parameters here, and nothing about them is assumed unless a lemma states it as a `requires`.
- The base class `HomoMag` is not part of this model. Its constructor is taken to store `pos`, `angle`, `axis` and `mag` unchanged. Its `rotate` is the opaque `RotateLaw`, so orientation composition and the rotation of the position about the centre are not modelled.
- `setPosition` and `setOrientation` are base-class methods that no core operation calls; they are not modelled.
- `Collection.rotate` passes its centre as `anchor=`, while the cube documentation names that keyword `CoR`. The model assumes the source's rotate accepts the anchor as given.
- The default `anchor='self.position'` of `Collection.rotate` is a string placeholder. It is modelled as `None`, which each member resolves to its own current position. What the base class does with the literal string is not part of this model.
- `Magnets.Source.Rotate`: a cube rotated directly without a centre turns about the origin, the documented default `CoR=[0,0,0]`; the model's default argument is `Some(Zero)` for that case. `None` models only the `'self.position'` placeholder that `Collection.rotate` forwards. How the base class actually resolves either is not part of this model.
- Floating point, `float64` array coercion and NaN do not exist over `real`. The NaN half of the dimension check is therefore not modelled; only the length check is.
- The code checks only the number of cube side lengths, not their sign. The model follows the code: non-positive lengths are accepted.
- `Magnets.Source.NewCube`: the Python constructor stops the whole process with `sys.exit` on a bad `dim`. The model returns an error value carrying the same message instead.
- `mag=None` and `dim=None` defaults: the model takes `mag` as a vector and `dim` as a sequence of reals. An absent argument is not modelled.
- `Collections.Collection.GetB`: the built-in `sum` of an empty list is the integer `0`, not a vector. The model returns the zero vector.
- The `move` example prints unchanged positions after the move. The code moves every member, and the model follows the code.
- Field arithmetic is exact, so the order of summation never matters in the model. In floating point, sums in different orders can differ in the last bits.
- Other source kinds are not part of this model: Cylinder, Sphere, currents and dipoles. A collection may hold any `Source`, each with its own canonical formula, so the collection results hold for them as well.
