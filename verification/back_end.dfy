/** The configurable simulator of three coupled frequencies A, B and C.

    Every step updates A from the old C, then B from the new A (damped by a
    factor ten while the new A is above a threshold), then C from the new B;
    each result is clamped into `[0, max]` of its own series. The three
    recording arrays are always the same length and are written together at
    one index, so they are modelled as one sequence of rows:
    `history[t]` is `(A_array[t], B_array[t], C_array[t])`. */
module BackEnd {
  import opened Runtime

  /** The Dash application handle; only whether one was given matters. */
  datatype App = App(id: nat)

  /** The keyword arguments of the constructor; `None` means "not passed". */
  datatype Kwargs = Kwargs(
    app: Option<App>,
    initialA: Option<real>, initialB: Option<real>, initialC: Option<real>,
    maxA: Option<real>, maxB: Option<real>, maxC: Option<real>,
    maxDuration: Option<int>,
    kA1: Option<real>, kA2: Option<real>,
    kB1: Option<real>, kB2: Option<real>,
    kC1: Option<real>, kC2: Option<real>,
    thresholdA: Option<real>)

  /** Keyword arguments that pass only the application handle. */
  function OnlyApp(app: Option<App>): Kwargs
  {
    Kwargs(app, None, None, None, None, None, None, None, None, None, None, None, None, None, None)
  }

  /** The run parameters. They may be replaced between runs (the UI sets them
      by attribute name) without the arrays being reallocated. */
  datatype Params = Params(
    initialA: real, initialB: real, initialC: real,
    maxA: real, maxB: real, maxC: real,
    maxDuration: int,
    kA1: real, kA2: real,
    kB1: real, kB2: real,
    kC1: real, kC2: real,
    thresholdA: real)

  /** The constructor defaults. */
  function Defaults(): Params
  {
    Params(100.0, 100.0, 100.0, 1000.0, 1000.0, 1000.0, 1000,
           5.0, 25.0, 5.0, 20.0, 10.0, 35.0, 800.0)
  }

  /** The parameters a constructor call ends up with: each one passed, or its default. */
  function ParamsOf(k: Kwargs): Params
  {
    var d := Defaults();
    Params(GetOr(k.initialA, d.initialA), GetOr(k.initialB, d.initialB), GetOr(k.initialC, d.initialC),
           GetOr(k.maxA, d.maxA), GetOr(k.maxB, d.maxB), GetOr(k.maxC, d.maxC),
           GetOr(k.maxDuration, d.maxDuration),
           GetOr(k.kA1, d.kA1), GetOr(k.kA2, d.kA2),
           GetOr(k.kB1, d.kB1), GetOr(k.kB2, d.kB2),
           GetOr(k.kC1, d.kC1), GetOr(k.kC2, d.kC2),
           GetOr(k.thresholdA, d.thresholdA))
  }

  /** The current frequencies. */
  datatype State = State(a: real, b: real, c: real)

  const ZeroRow := State(0.0, 0.0, 0.0)

  datatype Model = Model(params: Params, state: State, history: seq<State>)

  /** What every constructed model satisfies: the arrays have at least one entry. */
  predicate Valid(m: Model)
  {
    |m.history| > 0
  }

  function Initial(p: Params): State
  {
    State(p.initialA, p.initialB, p.initialC)
  }

  /** Every value of a series lies in `[0, max]`. */
  predicate InBounds(p: Params, s: State)
  {
    && 0.0 <= s.a <= p.maxA
    && 0.0 <= s.b <= p.maxB
    && 0.0 <= s.c <= p.maxC
  }

  // ---------------------------------------------------------------- clamping

  /** `if_above_max_or_below_zero`: the test against the maximum comes first. */
  function Clamp(v: real, m: real): (r: real)
    ensures 0.0 <= m ==> 0.0 <= r <= m
    ensures 0.0 <= m ==> (r == v <==> 0.0 <= v <= m)
    ensures v > m ==> r == m
    ensures v < 0.0 && v <= m ==> r == 0.0
  {
    if v > m then m
    else if v < 0.0 then 0.0
    else v
  }

  /** Clamping twice changes nothing once the maximum is non-negative. */
  lemma ClampIdempotent(v: real, m: real)
    requires 0.0 <= m
    ensures Clamp(Clamp(v, m), m) == Clamp(v, m)
  {
  }

  /** With a negative maximum the clamp is not idempotent: the maximum it
      returns is itself below zero and is clamped to 0 the second time. */
  lemma ClampNegativeMax()
    ensures Clamp(1.0, -1.0) == -1.0
    ensures Clamp(Clamp(1.0, -1.0), -1.0) == 0.0
  {
  }

  // ------------------------------------------------------------ sub-updates

  /** The unclamped A: grows by `kA1`, shrinks in proportion to C. */
  function RawA(p: Params, a: real, c: real): real
  {
    p.kA1 + a - c * p.kA2 * 0.01
  }

  /** The unclamped, undamped B: shrinks by `kB1`, grows in proportion to A. */
  function RawB(p: Params, b: real, a: real): real
  {
    - p.kB1 + b + a * p.kB2 * 0.01
  }

  /** The unclamped C: grows by `kC1`, shrinks in proportion to B. */
  function RawC(p: Params, c: real, b: real): real
  {
    p.kC1 + c - b * p.kC2 * 0.01
  }

  /** `update_frequency_A`: only A changes, computed from the current A and C. */
  function UpdateA(p: Params, s: State): (r: State)
    ensures r.b == s.b && r.c == s.c
    ensures 0.0 <= p.maxA ==> 0.0 <= r.a <= p.maxA
    ensures 0.0 <= RawA(p, s.a, s.c) <= p.maxA ==> r.a == RawA(p, s.a, s.c)
  {
    s.(a := Clamp(RawA(p, s.a, s.c), p.maxA))
  }

  /** `update_frequency_B`: only B changes, computed from the current B and
      the A held in the state (the new one during a step); the division by ten
      for an A strictly above the threshold comes before the clamp. */
  function UpdateB(p: Params, s: State): (r: State)
    ensures r.a == s.a && r.c == s.c
    ensures 0.0 <= p.maxB ==> 0.0 <= r.b <= p.maxB
    ensures s.a > p.thresholdA ==> r.b == Clamp(RawB(p, s.b, s.a) / 10.0, p.maxB)
    ensures s.a <= p.thresholdA ==> r.b == Clamp(RawB(p, s.b, s.a), p.maxB)
  {
    var raw := RawB(p, s.b, s.a);
    var damped := if s.a > p.thresholdA then raw / 10.0 else raw;
    s.(b := Clamp(damped, p.maxB))
  }

  /** `update_frequency_C`: only C changes, computed from the current C and
      the B held in the state (the new one during a step). */
  function UpdateC(p: Params, s: State): (r: State)
    ensures r.a == s.a && r.b == s.b
    ensures 0.0 <= p.maxC ==> 0.0 <= r.c <= p.maxC
    ensures 0.0 <= RawC(p, s.c, s.b) <= p.maxC ==> r.c == RawC(p, s.c, s.b)
  {
    s.(c := Clamp(RawC(p, s.c, s.b), p.maxC))
  }

  /** The state change of one `update`: A, then B, then C. */
  function Step(p: Params, s: State): (r: State)
    ensures 0.0 <= p.maxA && 0.0 <= p.maxB && 0.0 <= p.maxC ==> InBounds(p, r)
  {
    UpdateC(p, UpdateB(p, UpdateA(p, s)))
  }

  /** The order in which one step reads old and new values: the new A comes
      from the old A and the OLD C, the new B from the old B and the NEW A,
      the new C from the old C and the NEW B. */
  lemma StepReads(p: Params, s: State)
    ensures Step(p, s).a == Clamp(RawA(p, s.a, s.c), p.maxA)
    ensures var a' := Step(p, s).a;
            Step(p, s).b == Clamp(if a' > p.thresholdA then RawB(p, s.b, a') / 10.0 else RawB(p, s.b, a'), p.maxB)
    ensures Step(p, s).c == Clamp(RawC(p, s.c, Step(p, s).b), p.maxC)
  {
  }

  /** The same facts as a frame property: each new value depends on nothing
      beyond the values named in `StepReads`. */
  lemma StepDependencies(p: Params, s: State, s': State)
    ensures s.a == s'.a && s.c == s'.c ==> Step(p, s).a == Step(p, s').a
    ensures s.b == s'.b && Step(p, s).a == Step(p, s').a ==> Step(p, s).b == Step(p, s').b
    ensures s.c == s'.c && Step(p, s).b == Step(p, s').b ==> Step(p, s).c == Step(p, s').c
  {
  }

  /** With the defaults, the first step yields A = 80, B = 111, C = 71.15: the
      new A (80) is not above 800, so B is not divided, and B is computed from
      the new A (from the old A, 100, it would be 115). */
  lemma DefaultFirstStep()
    ensures Step(Defaults(), Initial(Defaults())) == State(80.0, 111.0, 71.15)
    ensures RawB(Defaults(), 100.0, 100.0) == 115.0
  {
  }

  /** The threshold test is strict: a new A exactly at the threshold leaves B
      undivided, anything above divides it. */
  lemma ThresholdIsStrict()
    ensures Step(Defaults().(thresholdA := 80.0), Initial(Defaults())).b == 111.0
    ensures Step(Defaults().(thresholdA := 79.0), Initial(Defaults())).b == 11.1
  {
  }

  /** `n` updates from `s`. */
  function Iterate(p: Params, s: State, n: nat): State
  {
    if n == 0 then s else Step(p, Iterate(p, s, n - 1))
  }

  // ---------------------------------------------------- the object's methods

  /** `start`: back to the initial values, which are recorded at index 0. */
  function Start(m: Model): (r: Result<Model>)
    ensures r.Success? <==> |m.history| > 0
    ensures r.Failure? ==> r.error == IndexOutOfBounds
    ensures r.Success? ==> r.value.params == m.params && r.value.state == Initial(m.params)
    ensures r.Success? ==> |r.value.history| == |m.history| && r.value.history[0] == Initial(m.params)
    ensures r.Success? ==> forall t :: 1 <= t < |m.history| ==> r.value.history[t] == m.history[t]
  {
    var p := m.params;
    var h :- Store(m.history, 0, Initial(p));
    Success(Model(p, Initial(p), h))
  }

  /** `update_arrays`: the current state is recorded at Python index `i`. */
  function UpdateArrays(m: Model, i: int): (r: Result<Model>)
    ensures r.Success? <==> InRange(|m.history|, i)
    ensures r.Failure? ==> r.error == IndexOutOfBounds
    ensures r.Success? ==> r.value.params == m.params && r.value.state == m.state
    ensures r.Success? ==> |r.value.history| == |m.history| && r.value.history[Slot(|m.history|, i)] == m.state
    ensures r.Success? ==> forall t :: 0 <= t < |m.history| && t != Slot(|m.history|, i) ==> r.value.history[t] == m.history[t]
  {
    var h :- Store(m.history, i, m.state);
    Success(m.(history := h))
  }

  /** `update(i)`: one step, recorded at Python index `i`. */
  function Update(m: Model, i: int): (r: Result<Model>)
    ensures r.Success? <==> InRange(|m.history|, i)
    ensures r.Failure? ==> r.error == IndexOutOfBounds
    ensures r.Success? ==> r.value.params == m.params && r.value.state == Step(m.params, m.state)
    ensures r.Success? ==> |r.value.history| == |m.history| && r.value.history[Slot(|m.history|, i)] == Step(m.params, m.state)
    ensures r.Success? ==> forall t :: 0 <= t < |m.history| && t != Slot(|m.history|, i) ==> r.value.history[t] == m.history[t]
  {
    UpdateArrays(m.(state := Step(m.params, m.state)), i)
  }

  /** The constructor: the app must be given, the arrays get ten times the
      initial `max_duration` entries, and `start` is called. */
  function New(k: Kwargs): (r: Result<Model>)
    ensures k.app.None? ==> r == Failure(MissingApp)
    ensures k.app.Some? && ParamsOf(k).maxDuration < 0 ==> r == Failure(NegativeDimensions)
    ensures k.app.Some? && ParamsOf(k).maxDuration == 0 ==> r == Failure(IndexOutOfBounds)
    ensures r.Success? <==> k.app.Some? && ParamsOf(k).maxDuration > 0
    ensures r.Success? ==> Valid(r.value) && r.value.params == ParamsOf(k)
    ensures r.Success? ==> r.value.state == Initial(ParamsOf(k)) && r.value.history[0] == Initial(ParamsOf(k))
    ensures r.Success? ==> |r.value.history| == 10 * ParamsOf(k).maxDuration
    ensures r.Success? ==> forall t :: 1 <= t < |r.value.history| ==> r.value.history[t] == ZeroRow
  {
    if k.app.None? then Failure(MissingApp)
    else
      var p := ParamsOf(k);
      var h :- Zeros(p.maxDuration * 10, ZeroRow);
      // the state attributes do not exist before start, which sets all three
      Start(Model(p, ZeroRow, h))
  }

  /** With only an app given, the model carries the defaults and arrays of 10000 entries. */
  lemma DefaultConstruction(app: App)
    ensures New(OnlyApp(Some(app))).Success?
    ensures New(OnlyApp(Some(app))).value.params == Defaults()
    ensures |New(OnlyApp(Some(app))).value.history| == 10000
    ensures New(OnlyApp(None)) == Failure(MissingApp)
  {
  }

  // ---------------------------------------------------------------- run

  /** `r` is what a completed `run` leaves behind when called on `m`: the
      state and every entry `t` of `1 .. maxDuration - 1` are the iterates of
      the initial state, index 0 holds the initial values, and the entries
      from `maxDuration` on are those `m` had. */
  ghost predicate RanFrom(m: Model, r: Model)
  {
    var p := m.params;
    var s0 := Initial(p);
    && r.params == p
    && |r.history| == |m.history|
    && r.state == Iterate(p, s0, Steps(p.maxDuration))
    && 0 < |r.history| && r.history[0] == s0
    && (forall t :: 1 <= t < p.maxDuration ==> t < |r.history| && r.history[t] == Iterate(p, s0, t))
    && (forall t :: Untouched(p.maxDuration) <= t < |r.history| ==> r.history[t] == m.history[t])
  }

  /** The loop state of `run` before `update(i)`: the state is the
      `(i - 1)`-th iterate, entries `1 .. i - 1` hold the earlier iterates,
      index 0 the initial values, and everything from `i` on is untouched. */
  ghost predicate Filled(m: Model, cur: Model, i: nat)
  {
    var p := m.params;
    var s0 := Initial(p);
    && 1 <= i <= |m.history|
    && cur.params == p && |cur.history| == |m.history|
    && cur.state == Iterate(p, s0, i - 1)
    && cur.history[0] == s0
    && (forall t :: 1 <= t < i ==> cur.history[t] == Iterate(p, s0, t))
    && (forall t :: i <= t < |m.history| ==> cur.history[t] == m.history[t])
  }

  /** One successful `update(i)` extends the filled prefix by one entry. */
  lemma UpdateFills(m: Model, cur: Model, i: nat)
    requires Filled(m, cur, i) && i < |m.history|
    ensures Update(cur, i).Success?
    ensures Filled(m, Update(cur, i).value, i + 1)
  {
  }

  /** Once the loop has run to its end the run is complete. */
  lemma FilledRan(m: Model, cur: Model, i: nat)
    requires Filled(m, cur, i) && i == Untouched(m.params.maxDuration)
    ensures RanFrom(m, cur)
  {
  }

  /** `run`: `start`, then `update(i)` for `i = 1 .. maxDuration - 1` in
      increasing order. It raises an IndexError exactly when `maxDuration`
      has been raised beyond the arrays allocated by the constructor. */
  method Run(m: Model) returns (r: Result<Model>)
    requires Valid(m)
    ensures r.Success? <==> m.params.maxDuration <= |m.history|
    ensures r.Failure? ==> r.error == IndexOutOfBounds
    ensures r.Success? ==> RanFrom(m, r.value)
  {
    var cur := Start(m).value;
    var i := 1;
    while i < m.params.maxDuration
      invariant i <= Untouched(m.params.maxDuration)
      invariant Filled(m, cur, i)
    {
      if i == |m.history| {
        return Update(cur, i);
      }
      UpdateFills(m, cur, i);
      cur := Update(cur, i).value;
      i := i + 1;
    }
    FilledRan(m, cur, i);
    return Success(cur);
  }

  /** After at least one update every value lies in `[0, max]` of its series. */
  lemma IterateInBounds(p: Params, s: State, n: nat)
    requires 0.0 <= p.maxA && 0.0 <= p.maxB && 0.0 <= p.maxC
    requires n >= 1
    ensures InBounds(p, Iterate(p, s, n))
  {
  }

  /** Every entry a run writes past index 0, and the final state when a step
      was taken, lies in `[0, max]`. */
  lemma RunInBounds(m: Model, r: Model)
    requires RanFrom(m, r)
    requires 0.0 <= m.params.maxA && 0.0 <= m.params.maxB && 0.0 <= m.params.maxC
    ensures forall t :: 1 <= t < m.params.maxDuration ==> InBounds(m.params, r.history[t])
    ensures m.params.maxDuration >= 2 ==> InBounds(m.params, r.state)
  {
  }

  /** Two runs with the same parameters agree on the state and on every
      entry they write, whatever the arrays held before. */
  lemma RunDeterministic(m1: Model, r1: Model, m2: Model, r2: Model)
    requires RanFrom(m1, r1) && RanFrom(m2, r2)
    requires m1.params == m2.params && |m1.history| == |m2.history|
    ensures r1.state == r2.state
    ensures r1.history[..Untouched(m1.params.maxDuration)] == r2.history[..Untouched(m1.params.maxDuration)]
  {
  }

  /** Running a model that has just run changes nothing. */
  lemma RunIdempotent(m: Model, r1: Model, r2: Model)
    requires RanFrom(m, r1) && RanFrom(r1, r2)
    ensures r2 == r1
  {
  }
}
