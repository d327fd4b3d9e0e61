/** The few pieces of the Python and numpy runtime that both simulators rely
    on: optional keyword arguments, the exceptions they can raise, `np.zeros`,
    and item assignment on a one-dimensional array with Python's index rules
    (a negative index counts from the end). */
module Runtime {

  /** A keyword argument that may or may not have been passed. */
  datatype Option<+T> = None | Some(value: T)

  /** `kwargs.get(name, default)`. */
  function GetOr<T>(o: Option<T>, default: T): T
  {
    match o
    case Some(v) => v
    case None => default
  }

  /** The exceptions the simulators can raise. */
  datatype Error =
    | MissingApp          // ValueError from the configurable constructor when no app is given
    | NegativeDimensions  // ValueError from np.zeros for a negative length
    | IndexOutOfBounds    // IndexError from an array store
    | NotStarted          // AttributeError: the state attributes do not exist before start

  /** The outcome of an operation that may raise. */
  datatype Result<+T> = Success(value: T) | Failure(error: Error) {

    predicate IsFailure() {
      Failure?
    }

    function PropagateFailure<U>(): Result<U>
      requires Failure?
    {
      Failure(error)
    }

    function Extract(): T
      requires Success?
    {
      value
    }
  }

  /** `np.zeros(n)`, with `zero` standing for one all-zero row. */
  function Zeros<T>(n: int, zero: T): (r: Result<seq<T>>)
    ensures r.Success? <==> n >= 0
    ensures r.Failure? ==> r.error == NegativeDimensions
    ensures r.Success? ==> |r.value| == n && forall j :: 0 <= j < n ==> r.value[j] == zero
  {
    if n < 0 then Failure(NegativeDimensions) else Success(seq(n, _ => zero))
  }

  /** Python accepts an index `i` into a sequence of length `n` when `-n <= i < n`. */
  predicate InRange(n: nat, i: int)
  {
    -(n as int) <= i < n
  }

  /** The position a Python index denotes. */
  function Slot(n: nat, i: int): (k: nat)
    requires InRange(n, i)
    ensures k < n
    ensures i >= 0 ==> k == i
    ensures i < 0 ==> k - n == i
  {
    if i < 0 then n + i else i
  }

  /** `a[i] = v` on a numpy array: an IndexError outside the array, otherwise
      exactly one entry changes. */
  function Store<T>(a: seq<T>, i: int, v: T): (r: Result<seq<T>>)
    ensures r.Success? <==> InRange(|a|, i)
    ensures r.Failure? ==> r.error == IndexOutOfBounds
    ensures r.Success? ==> |r.value| == |a| && r.value[Slot(|a|, i)] == v
    ensures r.Success? ==> forall j :: 0 <= j < |a| && j != Slot(|a|, i) ==> r.value[j] == a[j]
  {
    if InRange(|a|, i) then Success(a[Slot(|a|, i) := v]) else Failure(IndexOutOfBounds)
  }

  /** How many updates `for i in range(1, d)` performs. */
  function Steps(d: int): nat
  {
    if d <= 1 then 0 else d - 1
  }

  /** The first index `for i in range(1, d)` does not reach (index 0 belongs to `start`). */
  function Untouched(d: int): nat
  {
    if d <= 1 then 1 else d
  }
}
