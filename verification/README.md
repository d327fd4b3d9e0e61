# Marcello dynamics: the coupled A/B/C simulator in Dafny

The repository simulates three coupled frequencies A, B and C in discrete time
steps. Two versions of the engine exist, and both are modelled here:

- `BackEnd` (back_end.py): the configurable `DynamicModel` that the Dash UI drives.
  Its parameters are initial values, per-series maxima, `max_duration`, six
  coefficients and a threshold on A. Each `update(i)` runs three steps in order:
  1. A is updated from the old C.
  2. B is updated from the new A. It is divided by ten when the new A is
     strictly above the threshold, before clamping.
  3. C is updated from the new B.

  Each result is clamped into `[0, max]` by `if_above_max_or_below_zero` and
  recorded at index `i`. `run` calls `start`, then `update(i)` for
  `i = 1 .. max_duration - 1`.
- `Legacy` (main.py): the older hard-coded `DynamicModel`. Its coefficients are
  fixed at 0.4. B loses the amount a second time when the new A is above 500.
  Values are floored at 0 but have no upper cap. `run(duration)` takes the step
  count as an argument.
- `Runtime`: the bits of Python and numpy both versions use. These are optional
  keyword arguments, the exceptions raised, `np.zeros`, and item assignment with
  Python's index rules (negative indices count from the end).

Python floats are modelled as exact `real`s. Exceptions become
`Result.Failure` values carrying the error kind: `MissingApp`,
`NegativeDimensions`, `IndexOutOfBounds` or `NotStarted`. The three numpy arrays
are always the same length and are written together at one index. So each model
holds a single `history: seq<State>`, where `history[t]` is
`(A_array[t], B_array[t], C_array[t])`.

A completed run is described by the predicate `RanFrom(m, r)`:
- index 0 holds the initial values;
- entry `t` of `1 .. max_duration - 1`, and the final state, equal `Iterate`, the
  t-fold application of the pure `Step` function to the initial state;
- every later entry is what the arrays held before the run.

`Run` is a loop whose invariant ties its progress to `Iterate`. The lemmas about
runs (bounds, monotonicity, determinism, idempotence) are stated over `RanFrom`.

Parameters are fields of an immutable `Params` record. The UI changes them
between runs by attribute name. In the model that is a record update
`m.(params := p)`: the arrays are not reallocated.

Behaviour of the code worth noting:
- back_end.py allocates the arrays once, with `10 * max_duration` entries, and
  never reallocates them, so `run` raises an IndexError once `max_duration` has
  been raised beyond that size.
- Entries past the current `max_duration` are never cleared. A shorter run leaves
  the values of an earlier, longer one in place. `RanFrom` states this.
- Negative maxima are accepted. `Clamp` with a negative maximum returns that
  maximum for larger values and 0 for the rest, so it is not idempotent there
  (`ClampNegativeMax`).
- A `max_duration` below 1 is accepted until something fails. At construction, 0
  fails with an IndexError in `start`, and a negative value fails in `np.zeros`.
  At run time, any value up to 1 just restarts.
- Parameters are set by arbitrary attribute name; no name is rejected.

## Model

| member | source | states |
|---|---|---|
| Runtime.Zeros | back_end.py:39-41 | `np.zeros(n)`: a ValueError exactly when `n` is negative, otherwise `n` entries, all zero (also main.py lines 30-32) |
| Runtime.Slot | back_end.py:76-78 | an accepted Python index denotes a position inside the array: itself when non-negative, counted from the end when negative |
| Runtime.Store | back_end.py:49-51 | `a[i] = v` succeeds exactly when `-len <= i < len`, raising IndexError otherwise; it then changes the one denoted entry to `v` and keeps the length and every other entry (also back_end.py lines 76-78 and main.py lines 38-40, 60-62) |
| BackEnd.Clamp | back_end.py:53-59 | for a maximum `m >= 0` the result lies in `[0, m]` and equals the input exactly when the input is already in range; any value above `m` gives `m`, even a negative `m` |
| BackEnd.ClampIdempotent | back_end.py:53-59 | clamping twice to the same non-negative maximum gives the same result as clamping once |
| BackEnd.ClampNegativeMax | back_end.py:53-59 | with a negative maximum the clamp is not idempotent: 1 clamped to -1 gives -1, and clamping again gives 0 |
| BackEnd.UpdateA | back_end.py:61-63 | only A changes; it lands in `[0, max_A]`, and the raw value `kA1 + A - C*kA2*0.01` is kept whenever it is already in range |
| BackEnd.UpdateB | back_end.py:65-69 | only B changes; the raw value is computed from the A held in the state, divided by ten exactly when that A is strictly above the threshold, and then clamped into `[0, max_B]` |
| BackEnd.UpdateC | back_end.py:71-73 | only C changes; it lands in `[0, max_C]`, and the raw value `kC1 + C - B*kC2*0.01` is kept whenever it is already in range |
| BackEnd.Step | back_end.py:80-84 | when every maximum is non-negative, one update leaves all three values inside their bounds |
| BackEnd.StepReads | back_end.py:61-73 | within a step, the new A reads the old C; the new B reads the new A, including in the threshold test; the new C reads the new B |
| BackEnd.StepDependencies | back_end.py:80-84 | the new A depends only on the old A and C; the new B only on the old B and the new A; the new C only on the old C and the new B |
| BackEnd.DefaultFirstStep | back_end.py:61-73 | with the default parameters the first step gives A = 80, B = 111, C = 71.15; reading the old A instead would have given a B of 115 |
| BackEnd.ThresholdIsStrict | back_end.py:67-68 | from the default initial values the new A is 80: a threshold of exactly 80 leaves B undivided at 111, while a threshold of 79 divides it to 11.1 |
| BackEnd.Start | back_end.py:45-51 | the state becomes the initial values, which are written at index 0; no other entry changes; an empty array raises IndexError |
| BackEnd.UpdateArrays | back_end.py:75-78 | the current state is written at the Python index `i` (negative counts from the end) and nothing else changes; an index outside the arrays raises IndexError |
| BackEnd.Update | back_end.py:80-84 | the new state is the step of the old one, it is written at index `i`, and every other entry is unchanged |
| BackEnd.New | back_end.py:21-42 | raises ValueError without an app, ValueError for a negative `max_duration` and IndexError for 0; otherwise the arrays have `10 * max_duration` entries, all zero except index 0, which holds the initial values that are also the state |
| BackEnd.DefaultConstruction | back_end.py:22-41 | with only an app given, the model has the documented defaults and arrays of 10000 entries; with no app it raises ValueError |
| BackEnd.UpdateFills | back_end.py:88-89 | an in-range `update(i)` after the first `i - 1` steps records the i-th iterate at index `i` and leaves later entries alone |
| BackEnd.Run | back_end.py:86-90 | succeeds exactly when `max_duration` does not exceed the array length; then index 0 holds the initial values, entry `t` of `1 .. max_duration - 1` is the t-th iterate, and later entries are untouched |
| BackEnd.IterateInBounds | back_end.py:53-73 | after at least one update, every value is within `[0, max]` of its series |
| BackEnd.RunInBounds | back_end.py:86-90 | every entry a run writes past index 0, and the final state after at least one step, lie within their bounds |
| BackEnd.RunDeterministic | back_end.py:86-90 | two runs with the same parameters agree on the final state and on every entry up to `max_duration`, whatever the arrays held before |
| BackEnd.RunIdempotent | back_end.py:86-90 | running again with unchanged parameters leaves the model exactly as it was |
| Legacy.Floor | main.py:44-45 | the result is non-negative and equals the input exactly when the input is non-negative |
| Legacy.UpdateA | main.py:42-45 | only A changes; it becomes `A - 0.4*C` floored at 0, with no upper cap |
| Legacy.UpdateB | main.py:47-52 | only B changes; it loses 0.4 of the A held in the state, 0.8 when that A is strictly above 500, and is then floored at 0 |
| Legacy.UpdateC | main.py:54-57 | only C changes; it becomes `C - 0.4*B` floored at 0 |
| Legacy.Step | main.py:64-68 | one update gives non-negative values whatever the input; from a non-negative state, no value grows; the maxima are never read |
| Legacy.StepReads | main.py:42-57 | within a step, the new A reads the old C; the new B reads the new A, including in the 500 test; the new C reads the new B |
| Legacy.DefaultFirstStep | main.py:23-25 | from the default initial values (1, 1, 1) the first step gives (0.6, 0.76, 0.696) |
| Legacy.ThresholdIsStrict | main.py:49-50 | an A of exactly 500 is taken off B once, an A of 501 twice |
| Legacy.IterateNonIncreasing | main.py:42-57 | from a non-negative state, a later iterate is componentwise at most an earlier one |
| Legacy.New | main.py:22-32 | raises ValueError for a negative `max_duration`; otherwise the arrays hold `max_duration` zeros and there is no state yet |
| Legacy.Start | main.py:34-40 | the state becomes the initial values, which are written at index 0; no other entry changes; empty arrays raise IndexError |
| Legacy.UpdateArrays | main.py:59-62 | raises AttributeError before `start`; otherwise the current state is written at the Python index `i` (negative counts from the end) and nothing else changes; an index outside the arrays raises IndexError |
| Legacy.Update | main.py:64-68 | raises AttributeError before `start`; otherwise the step of the state is written at index `i` and nothing else changes |
| Legacy.UpdateFills | main.py:72-73 | an in-range `update(i)` after the first `i - 1` steps records the i-th iterate at index `i` |
| Legacy.Run | main.py:70-74 | succeeds exactly when the arrays are non-empty and `duration` does not exceed their length; then index 0 holds the initial values, entry `t` of `1 .. duration - 1` is the t-th iterate, and later entries are untouched |
| Legacy.RunNonNegative | main.py:42-62 | every entry a run writes past index 0 is non-negative, whatever the initial values |
| Legacy.RunNonIncreasing | main.py:42-74 | from non-negative initial values, each recorded entry is componentwise at most the one before it |
| Legacy.RunIdempotent | main.py:70-74 | running again with the same duration leaves the model exactly as it was |

## Left out

- front_end.py as a whole. This covers the Dash layout, sliders and callbacks; the
  formula display, which re-reads Python source at run time; and the JSON
  settings save/load. It is presentation, host-language introspection and file
  I/O.
- Setting parameters by attribute name (`setattr`). Any attribute can be set this
  way. The model only lets the caller replace the whole `Params` record between
  runs.
- The `plot` methods and the Dash app bootstrap in main.py (presentation).
- The app object stored by back_end.py, apart from whether it was given.
- IEEE-754 rounding. All arithmetic is exact over the reals. NaN and the
  infinities are not modelled.
- The state of an object after an exception. Python leaves the arrays and
  frequencies partly updated. The model returns only the error.
- Argument types. Python raises TypeError, or ValueError from numpy, for a value
  of the wrong type; a numeric string as an initial value is even stored and only
  fails later in the arithmetic. The model's parameters are typed `real` and
  `int`.
- BackEnd.Run: requires `Valid`, meaning the arrays are non-empty. Every model
  `New` builds satisfies this, and no operation changes the array length.
