/** The older, hard-coded simulator of main.py.

    Every step takes 0.4 of the old C off A, 0.4 of the new A off B (twice
    that while the new A is above 500) and 0.4 of the new B off C; each
    result is floored at 0 and has no upper cap, so the `max_*` fields exist
    but no update reads them. As in `BackEnd`, the three recording arrays are
    modelled as one sequence of rows. */
module Legacy {
  import opened Runtime

  /** The keyword arguments of the constructor; `None` means "not passed". */
  datatype Kwargs = Kwargs(
    initialA: Option<real>, initialB: Option<real>, initialC: Option<real>,
    maxA: Option<real>, maxB: Option<real>, maxC: Option<real>,
    maxDuration: Option<int>)

  const NoKwargs := Kwargs(None, None, None, None, None, None, None)

  datatype Params = Params(
    initialA: real, initialB: real, initialC: real,
    maxA: real, maxB: real, maxC: real,
    maxDuration: int)

  /** The constructor defaults. */
  function Defaults(): Params
  {
    Params(1.0, 1.0, 1.0, 1000.0, 1000.0, 1000.0, 1000)
  }

  /** The parameters a constructor call ends up with: each one passed, or its default. */
  function ParamsOf(k: Kwargs): Params
  {
    var d := Defaults();
    Params(GetOr(k.initialA, d.initialA), GetOr(k.initialB, d.initialB), GetOr(k.initialC, d.initialC),
           GetOr(k.maxA, d.maxA), GetOr(k.maxB, d.maxB), GetOr(k.maxC, d.maxC),
           GetOr(k.maxDuration, d.maxDuration))
  }

  /** The current frequencies. */
  datatype State = State(a: real, b: real, c: real)

  const ZeroRow := State(0.0, 0.0, 0.0)

  /** `state` is `None` until `start` creates the frequency attributes. */
  datatype Model = Model(params: Params, state: Option<State>, history: seq<State>)

  function Initial(p: Params): State
  {
    State(p.initialA, p.initialB, p.initialC)
  }

  predicate NonNegative(s: State)
  {
    0.0 <= s.a && 0.0 <= s.b && 0.0 <= s.c
  }

  /** Componentwise `s <= t`. */
  predicate Below(s: State, t: State)
  {
    s.a <= t.a && s.b <= t.b && s.c <= t.c
  }

  /** The threshold above which B loses 0.4 of A a second time. */
  const Threshold: real := 500.0

  /** Negative values become 0; there is no upper cap. */
  function Floor(v: real): (r: real)
    ensures 0.0 <= r
    ensures r == v <==> 0.0 <= v
    ensures v < 0.0 ==> r == 0.0
  {
    if v < 0.0 then 0.0 else v
  }

  /** `update_frequency_A`: only A changes, losing 0.4 of the current C. */
  function UpdateA(s: State): (r: State)
    ensures r.b == s.b && r.c == s.c
    ensures r.a == Floor(s.a - 0.4 * s.c)
  {
    var a := s.a - s.c * 0.4;
    s.(a := if a < 0.0 then 0.0 else a)
  }

  /** `update_frequency_B`: only B changes, losing 0.4 of the A held in the
      state (the new one during a step), and as much again when that A is
      strictly above 500; the floor comes last. */
  function UpdateB(s: State): (r: State)
    ensures r.a == s.a && r.c == s.c
    ensures s.a > Threshold ==> r.b == Floor(s.b - 0.8 * s.a)
    ensures s.a <= Threshold ==> r.b == Floor(s.b - 0.4 * s.a)
  {
    var b := s.b - s.a * 0.4;
    var b' := if s.a > 500.0 then b - s.a * 0.4 else b;
    s.(b := if b' < 0.0 then 0.0 else b')
  }

  /** `update_frequency_C`: only C changes, losing 0.4 of the B held in the
      state (the new one during a step). */
  function UpdateC(s: State): (r: State)
    ensures r.a == s.a && r.b == s.b
    ensures r.c == Floor(s.c - 0.4 * s.b)
  {
    var c := s.c - s.b * 0.4;
    s.(c := if c < 0.0 then 0.0 else c)
  }

  /** The state change of one `update`. It takes no parameters: the `max_*`
      fields are never read. Whatever the input, the result is non-negative;
      from a non-negative state no frequency grows. */
  function Step(s: State): (r: State)
    ensures NonNegative(r)
    ensures NonNegative(s) ==> Below(r, s)
  {
    UpdateC(UpdateB(UpdateA(s)))
  }

  /** The order in which one step reads old and new values: the new A comes
      from the OLD C, the new B from the NEW A, the new C from the NEW B. */
  lemma StepReads(s: State)
    ensures Step(s).a == Floor(s.a - 0.4 * s.c)
    ensures Step(s).b == Floor(s.b - (if Step(s).a > Threshold then 0.8 else 0.4) * Step(s).a)
    ensures Step(s).c == Floor(s.c - 0.4 * Step(s).b)
  {
  }

  /** From the defaults (1, 1, 1) the first step yields (0.6, 0.76, 0.696). */
  lemma DefaultFirstStep()
    ensures Step(Initial(Defaults())) == State(0.6, 0.76, 0.696)
  {
  }

  /** The threshold test is strict: an A of exactly 500 is taken off B once,
      an A just above it twice. */
  lemma ThresholdIsStrict()
    ensures Step(State(500.0, 1000.0, 0.0)).b == 800.0
    ensures Step(State(501.0, 1000.0, 0.0)).b == 599.2
  {
  }

  /** `n` updates from `s`. */
  function Iterate(s: State, n: nat): State
  {
    if n == 0 then s else Step(Iterate(s, n - 1))
  }

  /** From a non-negative state the trajectory never grows: a later iterate
      is componentwise below an earlier one. */
  lemma {:induction false} IterateNonIncreasing(s: State, j: nat, k: nat)
    requires NonNegative(s)
    requires j <= k
    ensures Below(Iterate(s, k), Iterate(s, j))
  {
    if k > j {
      IterateNonIncreasing(s, j, k - 1);
      var prev := Iterate(s, k - 1);
      assert NonNegative(prev) by {
        if k - 1 > 0 {
          assert prev == Step(Iterate(s, k - 2));
        }
      }
      assert Iterate(s, k) == Step(prev);
    }
  }

  // ---------------------------------------------------- the object's methods

  /** The constructor: arrays of `max_duration` zeros and no state yet
      (`start` is not called). */
  function New(k: Kwargs): (r: Result<Model>)
    ensures r.Success? <==> ParamsOf(k).maxDuration >= 0
    ensures r.Failure? ==> r.error == NegativeDimensions
    ensures r.Success? ==> r.value.params == ParamsOf(k) && r.value.state == None
    ensures r.Success? ==> |r.value.history| == ParamsOf(k).maxDuration
    ensures r.Success? ==> forall t :: 0 <= t < |r.value.history| ==> r.value.history[t] == ZeroRow
  {
    var p := ParamsOf(k);
    var h :- Zeros(p.maxDuration, ZeroRow);
    Success(Model(p, None, h))
  }

  /** `start`: the state is set to the initial values, which are recorded at
      index 0; an IndexError when the arrays are empty. */
  function Start(m: Model): (r: Result<Model>)
    ensures r.Success? <==> |m.history| > 0
    ensures r.Failure? ==> r.error == IndexOutOfBounds
    ensures r.Success? ==> r.value.params == m.params && r.value.state == Some(Initial(m.params))
    ensures r.Success? ==> |r.value.history| == |m.history| && r.value.history[0] == Initial(m.params)
    ensures r.Success? ==> forall t :: 1 <= t < |m.history| ==> r.value.history[t] == m.history[t]
  {
    var p := m.params;
    var h :- Store(m.history, 0, Initial(p));
    Success(Model(p, Some(Initial(p)), h))
  }

  /** `update_arrays`: the current state is recorded at Python index `i`;
      an AttributeError before `start`. */
  function UpdateArrays(m: Model, i: int): (r: Result<Model>)
    ensures m.state.None? ==> r == Failure(NotStarted)
    ensures m.state.Some? ==> (r.Success? <==> InRange(|m.history|, i))
    ensures m.state.Some? && r.Failure? ==> r.error == IndexOutOfBounds
    ensures r.Success? ==> r.value.params == m.params && r.value.state == m.state
    ensures r.Success? ==> |r.value.history| == |m.history| && r.value.history[Slot(|m.history|, i)] == m.state.value
    ensures r.Success? ==> forall t :: 0 <= t < |m.history| && t != Slot(|m.history|, i) ==> r.value.history[t] == m.history[t]
  {
    match m.state
    case None => Failure(NotStarted)
    case Some(s) =>
      var h :- Store(m.history, i, s);
      Success(m.(history := h))
  }

  /** `update(i)`: one step, recorded at Python index `i`; an AttributeError
      before `start`. */
  function Update(m: Model, i: int): (r: Result<Model>)
    ensures m.state.None? ==> r == Failure(NotStarted)
    ensures m.state.Some? ==> (r.Success? <==> InRange(|m.history|, i))
    ensures m.state.Some? && r.Failure? ==> r.error == IndexOutOfBounds
    ensures r.Success? ==> r.value.params == m.params && r.value.state == Some(Step(m.state.value))
    ensures r.Success? ==> |r.value.history| == |m.history| && r.value.history[Slot(|m.history|, i)] == Step(m.state.value)
    ensures r.Success? ==> forall t :: 0 <= t < |m.history| && t != Slot(|m.history|, i) ==> r.value.history[t] == m.history[t]
  {
    match m.state
    case None => Failure(NotStarted)
    case Some(s) => UpdateArrays(m.(state := Some(Step(s))), i)
  }

  /** `r` is what a completed `run(duration)` leaves behind when called on
      `m`: the state and every entry `t` of `1 .. duration - 1` are the
      iterates of the initial state, index 0 holds the initial values, and the
      entries from `duration` on are those `m` had. */
  ghost predicate RanFrom(m: Model, duration: int, r: Model)
  {
    var s0 := Initial(m.params);
    && r.params == m.params
    && |r.history| == |m.history|
    && r.state == Some(Iterate(s0, Steps(duration)))
    && 0 < |r.history| && r.history[0] == s0
    && (forall t :: 1 <= t < duration ==> t < |r.history| && r.history[t] == Iterate(s0, t))
    && (forall t :: Untouched(duration) <= t < |r.history| ==> r.history[t] == m.history[t])
  }

  /** The loop state of `run` before `update(i)`. */
  ghost predicate Filled(m: Model, cur: Model, i: nat)
  {
    var s0 := Initial(m.params);
    && 1 <= i <= |m.history|
    && cur.params == m.params && |cur.history| == |m.history|
    && cur.state == Some(Iterate(s0, i - 1))
    && cur.history[0] == s0
    && (forall t :: 1 <= t < i ==> cur.history[t] == Iterate(s0, t))
    && (forall t :: i <= t < |m.history| ==> cur.history[t] == m.history[t])
  }

  /** One successful `update(i)` extends the filled prefix by one entry. */
  lemma UpdateFills(m: Model, cur: Model, i: nat)
    requires Filled(m, cur, i) && i < |m.history|
    ensures Update(cur, i).Success?
    ensures Filled(m, Update(cur, i).value, i + 1)
  {
  }

  /** Once the loop has run to its end the run is complete. */
  lemma FilledRan(m: Model, duration: int, cur: Model, i: nat)
    requires Filled(m, cur, i) && i == Untouched(duration)
    ensures RanFrom(m, duration, cur)
  {
  }

  /** `run(duration)`: `start`, then `update(i)` for `i = 1 .. duration - 1`
      in increasing order. It succeeds exactly when the arrays are non-empty
      and `duration` does not exceed their length `max_duration`. */
  method Run(m: Model, duration: int) returns (r: Result<Model>)
    ensures r.Success? <==> 0 < |m.history| && duration <= |m.history|
    ensures r.Failure? ==> r.error == IndexOutOfBounds
    ensures r.Success? ==> RanFrom(m, duration, r.value)
  {
    var started := Start(m);
    if started.Failure? {
      return started;
    }
    var cur := started.value;
    var i := 1;
    while i < duration
      invariant i <= Untouched(duration)
      invariant Filled(m, cur, i)
    {
      if i == |m.history| {
        return Update(cur, i);
      }
      UpdateFills(m, cur, i);
      cur := Update(cur, i).value;
      i := i + 1;
    }
    FilledRan(m, duration, cur, i);
    return Success(cur);
  }

  /** Every entry a run writes past index 0 is non-negative, whatever the
      initial values. */
  lemma RunNonNegative(m: Model, duration: int, r: Model)
    requires RanFrom(m, duration, r)
    ensures forall t :: 1 <= t < duration ==> NonNegative(r.history[t])
  {
  }

  /** From non-negative initial values the recorded series never grow:
      entry `t + 1` is componentwise below entry `t`. */
  lemma RunNonIncreasing(m: Model, duration: int, r: Model)
    requires RanFrom(m, duration, r)
    requires NonNegative(Initial(m.params))
    ensures forall t :: 0 <= t && t + 1 < duration ==> Below(r.history[t + 1], r.history[t])
  {
    var s0 := Initial(m.params);
    forall t | 0 <= t && t + 1 < duration
      ensures Below(r.history[t + 1], r.history[t])
    {
      IterateNonIncreasing(s0, t, t + 1);
      assert r.history[t + 1] == Iterate(s0, t + 1);
      if t > 0 {
        assert r.history[t] == Iterate(s0, t);
      }
    }
  }

  /** Running a model that has just run with the same duration changes nothing. */
  lemma RunIdempotent(m: Model, duration: int, r1: Model, r2: Model)
    requires RanFrom(m, duration, r1) && RanFrom(r1, duration, r2)
    ensures r2 == r1
  {
  }
}
