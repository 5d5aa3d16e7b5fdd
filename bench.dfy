/** The benchmark lifecycle driver: a runner logs every phase it is asked
    for, times each provider call with its Timer, and keeps the benchmark
    path and environment the provider hands back. */
module Bench {
  import opened Errors
  import opened Text
  import opened Timing
  import opened Reports

  /** Environment variables for the benchmark. */
  type Env = map<string, string>

  /** An instance attribute that is either not yet assigned or holds a value. */
  datatype Attr<T> = Missing | Present(value: T)

  /** The concrete benchmark's `_fetch` ... `_clean`: each answer depends on
      the arguments and on the runner's interaction count, and may be an
      exception. */
  datatype Provider = Provider(
    fetch: (string, nat) -> Result<string>,
    prepare: nat -> Result<Env>,
    launch: nat -> Result<()>,
    deploy: nat -> Result<()>,
    run: nat -> Result<()>,
    verify: nat -> Result<bool>,
    clean: nat -> Result<()>)

  /** What the runner takes from the operating system: the working
      directory, the wall clock and the recursive directory removal. */
  datatype Host = Host(cwd: string, clock: nat -> real, removeTree: (string, nat) -> Result<()>)

  /** Every provider call and every directory removal succeeds. */
  ghost predicate Reliable(p: Provider, h: Host)
  {
    (forall dir, s :: p.fetch(dir, s).Ok?) &&
    (forall s :: p.prepare(s).Ok?) &&
    (forall s :: p.launch(s).Ok?) &&
    (forall s :: p.deploy(s).Ok?) &&
    (forall s :: p.run(s).Ok?) &&
    (forall s :: p.clean(s).Ok?) &&
    (forall dir, s :: h.removeTree(dir, s).Ok?)
  }

  /** What the phases read and write: the runner's log, path, environment
      and interaction count (clock readings, provider calls, removals), and
      its timer's names and spans. */
  datatype Snap = Snap(log: seq<string>, path: Attr<Option<string>>, env: Attr<Env>, step: nat,
                       order: seq<Key>, times: map<Key, seq<TimeSpan>>)

  /** The condition the timer's `names` asserts. */
  predicate NamesMatched(s: Snap)
  {
    s.times.Keys == Elems(s.order)
  }

  /** `times1` is `times0` with one more span at the end of `k`'s list and
      every other name's spans as they were. */
  ghost predicate Appended(times0: map<Key, seq<TimeSpan>>, times1: map<Key, seq<TimeSpan>>, k: Key)
  {
    times1.Keys == times0.Keys + {k} &&
    SpansOf(times0, k) <= SpansOf(times1, k) &&
    |SpansOf(times1, k)| == |SpansOf(times0, k)| + 1 &&
    forall j :: j != k ==> SpansOf(times1, j) == SpansOf(times0, j)
  }

  /** `times1` is `times0` after `c` more spans under every name of `ks`,
      appended after the spans already there. */
  ghost predicate Grew(times0: map<Key, seq<TimeSpan>>, times1: map<Key, seq<TimeSpan>>, ks: seq<Key>, c: nat)
  {
    times1.Keys == times0.Keys + (if c == 0 then {} else Elems(ks)) &&
    forall k :: SpansOf(times0, k) <= SpansOf(times1, k) &&
                |SpansOf(times1, k)| == |SpansOf(times0, k)| + (if k in ks then c else 0)
  }

  lemma GrewTrans(times0: map<Key, seq<TimeSpan>>, times1: map<Key, seq<TimeSpan>>,
                  times2: map<Key, seq<TimeSpan>>, ks: seq<Key>, c: nat)
    requires Grew(times0, times1, ks, c) && Grew(times1, times2, ks, 1)
    ensures Grew(times0, times2, ks, c + 1)
  {
    forall k
      ensures SpansOf(times0, k) <= SpansOf(times2, k)
      ensures |SpansOf(times2, k)| == |SpansOf(times0, k)| + (if k in ks then c + 1 else 0)
    {
      assert SpansOf(times0, k) <= SpansOf(times1, k) <= SpansOf(times2, k);
    }
  }

  // ------------------------------------------------------------- phases

  function Logged(s: Snap, entry: string): Snap
  {
    s.(log := s.log + [entry])
  }

  /** `with self._timer.measure(k): ...` on an idle timer: the clock is read
      at `s.step`, the provider answers at `s.step + 1`, and on the way out,
      whatever the answer, the clock is read at `s.step + 2` and one span
      is appended under `k`. */
  function Measured(h: Host, s: Snap, k: string): Snap
  {
    s.(step := s.step + 3, order := WithKey(s.order, Some(k)),
       times := Push(s.times, Some(k), TimeSpan(h.clock(s.step), h.clock(s.step + 2))))
  }

  /** `fetch(prefix)`. */
  function FetchStep(p: Provider, h: Host, s: Snap, dir: Option<string>): (Result<string>, Snap)
  {
    var t := Measured(h, Logged(s, "fetch"), "fetch");
    var got := p.fetch(if dir.None? then h.cwd else dir.value, s.step + 1);
    if got.Err? then (Err(got.error), t) else (Ok(got.value), t.(path := Present(Some(got.value))))
  }

  /** `prepare()`. */
  function PrepareStep(p: Provider, h: Host, s: Snap): (Result<()>, Snap)
  {
    var t := Measured(h, Logged(s, "prepare"), "prepare");
    var got := p.prepare(s.step + 1);
    if got.Err? then (Err(got.error), t) else (Ok(()), t.(env := Present(got.value)))
  }

  /** A phase run inside the benchmark environment, logged as `entry` and
      timed as `k`; with no environment prepared the scope cannot be built,
      so nothing is timed. */
  function ScopedStep<T>(h: Host, s: Snap, entry: string, k: string, call: nat -> Result<T>): (Result<T>, Snap)
  {
    var t := Logged(s, entry);
    if t.env.Missing? then (Err(AttributeError("_env")), t) else (call(s.step + 1), Measured(h, t, k))
  }

  /** `verify()`: the span is recorded first, then a false answer is a
      VerificationError. */
  function VerifyStep(p: Provider, h: Host, s: Snap): (Result<()>, Snap)
  {
    var (passed, t) := ScopedStep(h, s, "verify", "verify", p.verify);
    if passed.Err? then (Err(passed.error), t)
    else if !passed.value then (Err(VerificationError), t)
    else (Ok(()), t)
  }

  /** `clean()`: logged as "clean", timed as "cleanup"; only once the
      provider's cleanup has returned is the directory removed (at the
      interaction after the measurement) and the path cleared. */
  function CleanStep(p: Provider, h: Host, s: Snap): (Result<()>, Snap)
  {
    var (cleaned, t) := ScopedStep(h, s, "clean", "cleanup", p.clean);
    if cleaned.Err? then (Err(cleaned.error), t)
    else match t.path
      case Missing => (Err(AttributeError("_path")), t)
      case Present(None) => (Err(TypeError), t)
      case Present(Some(dir)) =>
        var removed := h.removeTree(dir, t.step);
        var u := t.(step := t.step + 1);
        if removed.Err? then (Err(removed.error), u) else (Ok(()), u.(path := Present(None)))
  }

  // ------------------------------------------------------- phase effects

  /** A measurement appends exactly one span, from the first clock reading
      to the second, under its name, and enters the name into the order. */
  lemma MeasuredEffect(h: Host, s: Snap, k: string)
    ensures var t := Measured(h, s, k);
      t.log == s.log && t.path == s.path && t.env == s.env && t.step == s.step + 3 &&
      t.order == WithKey(s.order, Some(k)) && Appended(s.times, t.times, Some(k)) &&
      SpansOf(t.times, Some(k)) == SpansOf(s.times, Some(k)) + [TimeSpan(h.clock(s.step), h.clock(s.step + 2))]
  {
  }

  /** `fetch` logs first, is timed whatever `_fetch` answers, and stores
      and hands back exactly the path `_fetch` answered for the given
      directory, or the working directory when none is given. */
  lemma FetchEffect(p: Provider, h: Host, s: Snap, dir: Option<string>)
    ensures var (r, t) := FetchStep(p, h, s, dir);
      t.log == s.log + ["fetch"] && t.env == s.env && t.step == s.step + 3 &&
      r == p.fetch(if dir.None? then h.cwd else dir.value, s.step + 1) &&
      t.path == (if r.Ok? then Present(Some(r.value)) else s.path) &&
      t.order == WithKey(s.order, Some("fetch")) && Appended(s.times, t.times, Some("fetch"))
  {
    MeasuredEffect(h, Logged(s, "fetch"), "fetch");
  }

  /** `prepare` logs first, is timed whatever `_prepare` answers, and
      stores the environment only when `_prepare` returns one. */
  lemma PrepareEffect(p: Provider, h: Host, s: Snap)
    ensures var (r, t) := PrepareStep(p, h, s);
      t.log == s.log + ["prepare"] && t.path == s.path && t.step == s.step + 3 &&
      (r.Ok? <==> p.prepare(s.step + 1).Ok?) &&
      (r.Err? ==> r.error == p.prepare(s.step + 1).error && t.env == s.env) &&
      (r.Ok? ==> t.env == Present(p.prepare(s.step + 1).value)) &&
      t.order == WithKey(s.order, Some("prepare")) && Appended(s.times, t.times, Some("prepare"))
  {
    MeasuredEffect(h, Logged(s, "prepare"), "prepare");
  }

  /** A phase inside the environment logs first; without an environment
      it fails with nothing timed, otherwise it answers what the provider
      answers and is timed whatever that is. */
  lemma ScopedEffect<T>(h: Host, s: Snap, entry: string, k: string, call: nat -> Result<T>)
    ensures var (r, t) := ScopedStep(h, s, entry, k, call);
      t.log == s.log + [entry] && t.path == s.path && t.env == s.env &&
      (s.env.Missing? ==> r == Err(AttributeError("_env")) && t.step == s.step &&
                          t.order == s.order && t.times == s.times) &&
      (s.env.Present? ==> r == call(s.step + 1) && t.step == s.step + 3 &&
                          t.order == WithKey(s.order, Some(k)) && Appended(s.times, t.times, Some(k)))
  {
    MeasuredEffect(h, Logged(s, entry), k);
  }

  /** `verify` succeeds exactly when `_verify` answers true, raises
      VerificationError when it answers false, and is timed either way. */
  lemma VerifyEffect(p: Provider, h: Host, s: Snap)
    ensures var (r, t) := VerifyStep(p, h, s);
      t.log == s.log + ["verify"] && t.path == s.path && t.env == s.env &&
      (r.Ok? <==> s.env.Present? && p.verify(s.step + 1) == Ok(true)) &&
      (s.env.Present? && p.verify(s.step + 1) == Ok(false) ==> r == Err(VerificationError)) &&
      (s.env.Present? ==> t.order == WithKey(s.order, Some("verify")) && Appended(s.times, t.times, Some("verify")))
  {
    ScopedEffect(h, s, "verify", "verify", p.verify);
  }

  /** `clean` logs "clean" and is timed as "cleanup"; the directory is
      removed and the path cleared only after `_clean` returns, and the
      path is cleared exactly when the whole of `clean` succeeds. */
  lemma CleanEffect(p: Provider, h: Host, s: Snap)
    ensures var (r, t) := CleanStep(p, h, s);
      t.log == s.log + ["clean"] && t.env == s.env &&
      (s.env.Missing? ==> r == Err(AttributeError("_env")) && t.order == s.order && t.times == s.times) &&
      (s.env.Present? ==> t.order == WithKey(s.order, Some("cleanup")) && Appended(s.times, t.times, Some("cleanup"))) &&
      (s.env.Present? && p.clean(s.step + 1).Ok? && s.path.Missing? ==> r == Err(AttributeError("_path"))) &&
      (s.env.Present? && p.clean(s.step + 1).Ok? && s.path == Present(None) ==> r == Err(TypeError)) &&
      (r.Ok? <==> s.env.Present? && p.clean(s.step + 1).Ok? && s.path.Present? && s.path.value.Some? &&
                  h.removeTree(s.path.value.value, s.step + 3).Ok?) &&
      t.path == (if r.Ok? then Present(None) else s.path)
  {
    ScopedEffect(h, s, "clean", "cleanup", p.clean);
  }

  /** Phase `i` of a round of `bench`: fetch into `prefix`, prepare,
      launch, deploy, run, clean. */
  function PhaseStep(p: Provider, h: Host, s: Snap, prefix: string, i: nat): (Outcome, Snap)
    requires i < 6
  {
    if i == 0 then
      var (r, t) := FetchStep(p, h, s, Some(prefix));
      (Status(r), t)
    else
      var (r, t) :=
        if i == 1 then PrepareStep(p, h, s)
        else if i == 2 then ScopedStep(h, s, "launch", "launch", p.launch)
        else if i == 3 then ScopedStep(h, s, "deploy", "deploy", p.deploy)
        else if i == 4 then ScopedStep(h, s, "run", "run", p.run)
        else CleanStep(p, h, s);
      (Status(r), t)
  }

  /** The phases of a round from phase `i` on, stopping at the first exception. */
  function RoundFrom(p: Provider, h: Host, s: Snap, prefix: string, i: nat): (Outcome, Snap)
    requires i <= 6
    decreases 6 - i
  {
    if i == 6 then (Done, s)
    else
      var (r, t) := PhaseStep(p, h, s, prefix, i);
      if r.Raised? then (r, t) else RoundFrom(p, h, t, prefix, i + 1)
  }

  /** One round of `bench`. */
  function CycleStep(p: Provider, h: Host, s: Snap, prefix: string): (Outcome, Snap)
  {
    RoundFrom(p, h, s, prefix, 0)
  }

  /** `i` rounds, stopping at the first exception. */
  function Rounds(p: Provider, h: Host, s: Snap, prefix: string, i: nat): (Outcome, Snap)
  {
    Repeated(Round(p, h, prefix), s, i)
  }

  /** One round as a state transformer. */
  function Round(p: Provider, h: Host, prefix: string): Snap -> (Outcome, Snap)
  {
    t => CycleStep(p, h, t, prefix)
  }

  /** `round` run `i` times from `s`, stopping at the first exception. */
  function Repeated(round: Snap -> (Outcome, Snap), s: Snap, i: nat): (Outcome, Snap)
  {
    if i == 0 then (Done, s)
    else
      var (r, t) := Repeated(round, s, i - 1);
      if r.Raised? then (r, t) else round(t)
  }

  /** `bench(times=n)`. */
  function BenchStep(p: Provider, h: Host, s: Snap, prefix: string, n: int): (Outcome, Snap)
  {
    if n < 1 then (Raised(TooFewRounds(n)), s) else Rounds(p, h, Logged(s, BenchEntry(n)), prefix, n)
  }

  /** The error `bench(times=n)` raises for `n < 1`. */
  function TooFewRounds(n: int): Error
  {
    ValueError("Benchmarks cannot be run less than once, but given " + IntToString(n))
  }

  /** The log entry `bench(times=n)` writes first. */
  function BenchEntry(n: int): string
  {
    "bench(times=" + IntToString(n) + ")"
  }

  // ------------------------------------------------------------- rounds

  /** The log entries of one round. */
  const CycleLog: seq<string> := ["fetch", "prepare", "launch", "deploy", "run", "clean"]

  /** The timer names of one round: clean is timed as "cleanup". */
  const CycleTimings: seq<Key> :=
    [Some("fetch"), Some("prepare"), Some("launch"), Some("deploy"), Some("run"), Some("cleanup")]

  /** The log entries of `n` rounds. */
  function CycleLogs(n: nat): seq<string>
  {
    if n == 0 then [] else CycleLogs(n - 1) + CycleLog
  }

  /** Phase `i` has run from `s` far enough that the path is fetched
      and, from phase 2 on, the environment prepared. */
  predicate Ready(s: Snap, i: nat)
  {
    (1 <= i < 6 ==> s.path.Present? && s.path.value.Some?) && (2 <= i ==> s.env.Present?)
  }

  /** Phase `i` took `s` to `t` and ended with `r`: it logged its entry;
      when it returned, it had entered its timer name and appended one span
      under it, and fetched the path, set the environment or cleared the
      path as its position says; and it returned whenever `reliable` held
      and it was ready. */
  ghost predicate PhaseRel(s: Snap, r: Outcome, t: Snap, i: nat, reliable: bool)
    requires i < 6
  {
    t.log == s.log + [CycleLog[i]] &&
    NoDuplicates(t.order) &&
    (NamesMatched(s) ==> NamesMatched(t)) &&
    (r.Done? ==>
       t.order == WithKey(s.order, CycleTimings[i]) && Appended(s.times, t.times, CycleTimings[i]) &&
       (i == 1 ==> t.env.Present?) && (2 <= i ==> t.env == s.env) &&
       (1 <= i < 5 ==> t.path == s.path) && (i == 5 ==> t.path == Present(None)) &&
       (Ready(s, i) ==> Ready(t, i + 1))) &&
    (reliable && Ready(s, i) ==> r.Done?)
  }

  /** What phase `i` does, for the provider and host given. */
  ghost predicate PhaseSpec(p: Provider, h: Host, s: Snap, prefix: string, i: nat)
    requires i < 6
  {
    PhaseRel(s, PhaseStep(p, h, s, prefix, i).0, PhaseStep(p, h, s, prefix, i).1, i, Reliable(p, h))
  }

  lemma FetchPhase(p: Provider, h: Host, s: Snap, prefix: string, i: nat)
    requires i == 0 && NoDuplicates(s.order)
    ensures PhaseSpec(p, h, s, prefix, i)
  {
    FetchEffect(p, h, s, Some(prefix));
    WithKeyKeepsOrder(s.order, CycleTimings[i]);
  }

  lemma PreparePhase(p: Provider, h: Host, s: Snap, prefix: string, i: nat)
    requires i == 1 && NoDuplicates(s.order)
    ensures PhaseSpec(p, h, s, prefix, i)
  {
    PrepareEffect(p, h, s);
    WithKeyKeepsOrder(s.order, CycleTimings[i]);
  }

  lemma ScopedPhase(p: Provider, h: Host, s: Snap, prefix: string, i: nat)
    requires 2 <= i <= 4 && NoDuplicates(s.order)
    ensures PhaseSpec(p, h, s, prefix, i)
  {
    if i == 2 {
      ScopedEffect(h, s, "launch", "launch", p.launch);
    } else if i == 3 {
      ScopedEffect(h, s, "deploy", "deploy", p.deploy);
    } else {
      ScopedEffect(h, s, "run", "run", p.run);
    }
    WithKeyKeepsOrder(s.order, CycleTimings[i]);
  }

  lemma CleanPhase(p: Provider, h: Host, s: Snap, prefix: string, i: nat)
    requires i == 5 && NoDuplicates(s.order)
    ensures PhaseSpec(p, h, s, prefix, i)
  {
    CleanEffect(p, h, s);
    WithKeyKeepsOrder(s.order, CycleTimings[i]);
  }

  lemma PhaseEffect(p: Provider, h: Host, s: Snap, prefix: string, i: nat)
    requires i < 6 && NoDuplicates(s.order)
    ensures PhaseSpec(p, h, s, prefix, i)
  {
    if i == 0 {
      FetchPhase(p, h, s, prefix, i);
    } else if i == 1 {
      PreparePhase(p, h, s, prefix, i);
    } else if i < 5 {
      ScopedPhase(p, h, s, prefix, i);
    } else {
      CleanPhase(p, h, s, prefix, i);
    }
  }

  /** Adding one name and then the rest adds the whole list. */
  lemma {:induction false} AddAllCons(order: seq<Key>, k: Key, ks: seq<Key>)
    ensures AddAll(WithKey(order, k), ks) == AddAll(order, [k] + ks)
  {
    if ks != [] {
      var init := ks[..|ks| - 1];
      AddAllCons(order, k, init);
      assert ([k] + ks)[..|[k] + ks| - 1] == [k] + init;
    }
  }

  lemma GrewCons(times0: map<Key, seq<TimeSpan>>, times1: map<Key, seq<TimeSpan>>,
                 times2: map<Key, seq<TimeSpan>>, k: Key, ks: seq<Key>)
    requires Appended(times0, times1, k) && Grew(times1, times2, ks, 1) && k !in ks
    ensures Grew(times0, times2, [k] + ks, 1)
  {
    assert Elems([k] + ks) == {k} + Elems(ks);
    forall j
      ensures SpansOf(times0, j) <= SpansOf(times2, j)
      ensures |SpansOf(times2, j)| == |SpansOf(times0, j)| + (if j in [k] + ks then 1 else 0)
    {
      assert j in [k] + ks <==> j == k || j in ks;
    }
  }

  /** Phase `i` heads the rest of the round, and its timer name does not
      come again. */
  lemma CycleSplit(i: nat)
    requires i < 6
    ensures CycleLog[i..] == [CycleLog[i]] + CycleLog[i + 1..]
    ensures CycleTimings[i..] == [CycleTimings[i]] + CycleTimings[i + 1..]
    ensures CycleTimings[i] !in CycleTimings[i + 1..]
  {
  }

  /** The phases from `i` on took `s` to `u` and ended with `r`: they
      logged a prefix of the rest of the round, at least one entry; when
      they completed they had logged all of it, entered the remaining timer
      names, added one span under each, and cleared the path; and they
      completed whenever `reliable` held and phase `i` was ready. */
  ghost predicate TailRel(s: Snap, r: Outcome, u: Snap, i: nat, reliable: bool)
    requires i <= 6
  {
    s.log <= u.log <= s.log + CycleLog[i..] &&
    (i < 6 ==> s.log < u.log) &&
    NoDuplicates(u.order) &&
    (NamesMatched(s) ==> NamesMatched(u)) &&
    (r.Done? ==>
       u.log == s.log + CycleLog[i..] && u.order == AddAll(s.order, CycleTimings[i..]) &&
       Grew(s.times, u.times, CycleTimings[i..], 1) &&
       u.path == (if i < 6 then Present(None) else s.path)) &&
    (reliable && Ready(s, i) ==> r.Done?)
  }

  /** After the last phase nothing is left to run. */
  lemma TailEnd(s: Snap, reliable: bool)
    requires NoDuplicates(s.order)
    ensures TailRel(s, Done, s, 6, reliable)
  {
    assert CycleLog[6..] == [] && CycleTimings[6..] == [];
    assert Grew(s.times, s.times, [], 1);
  }

  /** A phase that raised ends the round there. */
  lemma TailStop(s: Snap, r: Outcome, t: Snap, i: nat, reliable: bool)
    requires i < 6 && NoDuplicates(s.order)
    requires PhaseRel(s, r, t, i, reliable) && r.Raised?
    ensures TailRel(s, r, t, i, reliable)
  {
    CycleSplit(i);
  }

  /** A log that grew by `x` and then by a prefix of `rest` grew by a
      prefix of `[x] + rest`. */
  lemma LogCons(log: seq<string>, x: string, rest: seq<string>, longer: seq<string>)
    requires log + [x] <= longer <= log + [x] + rest
    ensures log < longer <= log + ([x] + rest)
    ensures longer == log + [x] + rest <==> longer == log + ([x] + rest)
  {
    assert log + [x] + rest == log + ([x] + rest);
  }

  /** A phase that returned, followed by the rest of the round. */
  lemma TailCons(s: Snap, r: Outcome, t: Snap, r2: Outcome, u: Snap, i: nat, reliable: bool)
    requires i < 6 && NoDuplicates(s.order)
    requires PhaseRel(s, r, t, i, reliable) && r.Done? && TailRel(t, r2, u, i + 1, reliable)
    ensures TailRel(s, r2, u, i, reliable)
  {
    CycleSplit(i);
    LogCons(s.log, CycleLog[i], CycleLog[i + 1..], u.log);
    if r2.Done? {
      AddAllCons(s.order, CycleTimings[i], CycleTimings[i + 1..]);
      GrewCons(s.times, t.times, u.times, CycleTimings[i], CycleTimings[i + 1..]);
    }
  }

  /** What the phases from `i` on do, for the provider and host given. */
  lemma {:induction false} RoundFromEffect(p: Provider, h: Host, s: Snap, prefix: string, i: nat)
    requires i <= 6 && NoDuplicates(s.order)
    decreases 6 - i
    ensures TailRel(s, RoundFrom(p, h, s, prefix, i).0, RoundFrom(p, h, s, prefix, i).1, i, Reliable(p, h))
  {
    if i == 6 {
      TailEnd(s, Reliable(p, h));
    } else {
      PhaseEffect(p, h, s, prefix, i);
      var (r, t) := PhaseStep(p, h, s, prefix, i);
      if r.Done? {
        RoundFromEffect(p, h, t, prefix, i + 1);
        var (r2, u) := RoundFrom(p, h, t, prefix, i + 1);
        TailCons(s, r, t, r2, u, i, Reliable(p, h));
      } else {
        TailStop(s, r, t, i, Reliable(p, h));
      }
    }
  }

  /** A round took `s` to `u` and ended with `r`: it logged a prefix of
      the six phase names, at least its fetch; if it completed it logged all
      six, entered the round's timer names into the order, added one span
      under each, and left the path cleared; and it completed whenever
      `reliable` held. */
  ghost predicate CycleRel(s: Snap, r: Outcome, u: Snap, reliable: bool)
  {
    s.log < u.log <= s.log + CycleLog &&
    NoDuplicates(u.order) &&
    (NamesMatched(s) ==> NamesMatched(u)) &&
    (r.Done? ==>
       u.log == s.log + CycleLog && u.order == AddAll(s.order, CycleTimings) &&
       Grew(s.times, u.times, CycleTimings, 1) && u.path == Present(None)) &&
    (reliable ==> r.Done?)
  }

  /** What one round does, for the provider and host given. */
  lemma CycleEffect(p: Provider, h: Host, s: Snap, prefix: string)
    requires NoDuplicates(s.order)
    ensures CycleRel(s, CycleStep(p, h, s, prefix).0, CycleStep(p, h, s, prefix).1, Reliable(p, h))
  {
    RoundFromEffect(p, h, s, prefix, 0);
    assert CycleLog[0..] == CycleLog && CycleTimings[0..] == CycleTimings;
  }

  /** `bench` never runs `verify`. */
  lemma {:induction false} VerifyNeverLogged(n: nat)
    ensures "verify" !in CycleLogs(n)
  {
    if n > 0 {
      VerifyNeverLogged(n - 1);
      assert CycleLogs(n) == CycleLogs(n - 1) + CycleLog;
    }
  }

  /** Fewer rounds log a prefix of what more rounds log. */
  lemma {:induction false} CycleLogsPrefix(i: nat, j: nat)
    requires i <= j
    ensures CycleLogs(i) <= CycleLogs(j)
  {
    if i < j {
      CycleLogsPrefix(i, j - 1);
    }
  }

  /** After `i` successful rounds, round `i + 1` starts where they left off. */
  lemma RoundsNext(p: Provider, h: Host, s: Snap, prefix: string, i: nat)
    ensures Rounds(p, h, s, prefix, i).0.Done? ==>
              Rounds(p, h, s, prefix, i + 1) == CycleStep(p, h, Rounds(p, h, s, prefix, i).1, prefix)
  {
  }

  /** A round that failed ends the rounds: later rounds are not run. */
  lemma {:induction false} RepeatedStop(round: Snap -> (Outcome, Snap), s: Snap, i: nat, n: nat)
    requires i <= n && Repeated(round, s, i).0.Raised?
    ensures Repeated(round, s, n) == Repeated(round, s, i)
  {
    if i < n {
      RepeatedStop(round, s, i, n - 1);
    }
  }

  lemma RoundsStop(p: Provider, h: Host, s: Snap, prefix: string, i: nat, n: nat)
    requires i <= n && Rounds(p, h, s, prefix, i).0.Raised?
    ensures Rounds(p, h, s, prefix, n) == Rounds(p, h, s, prefix, i)
  {
    RepeatedStop(Round(p, h, prefix), s, i, n);
  }

  /** `i` rounds took `s` to `u` and ended with `r`: they logged a prefix
      of `i` full rounds, at least one entry if `i > 0`, and all of it if
      they completed; completed rounds entered the round's names once and
      added `i` spans under each; and they completed whenever `reliable`
      held. */
  ghost predicate RoundsRel(s: Snap, r: Outcome, u: Snap, i: nat, reliable: bool)
  {
    s.log <= u.log <= s.log + CycleLogs(i) &&
    (i > 0 ==> s.log < u.log) &&
    NoDuplicates(u.order) &&
    (NamesMatched(s) ==> NamesMatched(u)) &&
    (r.Done? ==>
       u.log == s.log + CycleLogs(i) &&
       u.order == (if i == 0 then s.order else AddAll(s.order, CycleTimings)) &&
       Grew(s.times, u.times, CycleTimings, i)) &&
    (reliable ==> r.Done?)
  }

  /** `round` behaves as a round of `bench` from every state whose order
      has no duplicates. */
  ghost predicate EveryRound(round: Snap -> (Outcome, Snap), reliable: bool)
  {
    forall t: Snap {:trigger round(t)} :: NoDuplicates(t.order) ==> CycleRel(t, round(t).0, round(t).1, reliable)
  }

  lemma RoundsNone(s: Snap, reliable: bool)
    requires NoDuplicates(s.order)
    ensures RoundsRel(s, Done, s, 0, reliable)
  {
    assert s.log + CycleLogs(0) == s.log;
    forall k
      ensures SpansOf(s.times, k) <= SpansOf(s.times, k)
    {
    }
  }

  /** `i` completed rounds, then one more. */
  lemma RoundsMore(s: Snap, t: Snap, r: Outcome, u: Snap, i: nat, reliable: bool)
    requires NoDuplicates(s.order)
    requires RoundsRel(s, Done, t, i, reliable) && CycleRel(t, r, u, reliable)
    ensures RoundsRel(s, r, u, i + 1, reliable)
  {
    CycleLogsPrefix(i, i + 1);
    assert s.log + CycleLogs(i + 1) == (s.log + CycleLogs(i)) + CycleLog;
    if r.Done? {
      GrewTrans(s.times, t.times, u.times, CycleTimings, i);
      if i > 0 {
        AddAllElems(s.order, CycleTimings);
        AddAllPresent(t.order, CycleTimings);
      }
    }
  }

  /** `i` rounds whose last one raised are also `i + 1` rounds. */
  lemma RoundsRaised(s: Snap, r: Outcome, t: Snap, i: nat, reliable: bool)
    requires i > 0 && RoundsRel(s, r, t, i, reliable) && r.Raised?
    ensures RoundsRel(s, r, t, i + 1, reliable)
  {
    CycleLogsPrefix(i, i + 1);
  }

  /** What `i` repetitions of a round do. */
  lemma {:induction false} RepeatedEffect(round: Snap -> (Outcome, Snap), s: Snap, i: nat, reliable: bool)
    requires NoDuplicates(s.order) && EveryRound(round, reliable)
    ensures RoundsRel(s, Repeated(round, s, i).0, Repeated(round, s, i).1, i, reliable)
  {
    if i == 0 {
      RoundsNone(s, reliable);
    } else {
      RepeatedEffect(round, s, i - 1, reliable);
      var (r, t) := Repeated(round, s, i - 1);
      if r.Done? {
        var (r2, u) := round(t);
        RoundsMore(s, t, r2, u, i - 1, reliable);
      } else {
        RoundsRaised(s, r, t, i - 1, reliable);
      }
    }
  }

  /** A round of `bench` behaves as one from every state. */
  lemma EveryCycle(p: Provider, h: Host, prefix: string)
    ensures EveryRound(Round(p, h, prefix), Reliable(p, h))
  {
    var round := Round(p, h, prefix);
    forall t: Snap | NoDuplicates(t.order)
      ensures CycleRel(t, round(t).0, round(t).1, Reliable(p, h))
    {
      CycleEffect(p, h, t, prefix);
    }
  }

  /** What `i` rounds do, for the provider and host given. */
  lemma RoundsEffect(p: Provider, h: Host, s: Snap, prefix: string, i: nat)
    requires NoDuplicates(s.order)
    ensures RoundsRel(s, Rounds(p, h, s, prefix, i).0, Rounds(p, h, s, prefix, i).1, i, Reliable(p, h))
  {
    EveryCycle(p, h, prefix);
    RepeatedEffect(Round(p, h, prefix), s, i, Reliable(p, h));
  }

  lemma DropLogged(log: seq<string>, entry: string, tail: seq<string>)
    ensures (log + [entry] + tail)[|log|..] == [entry] + tail
  {
    assert log + [entry] + tail == log + ([entry] + tail);
  }

  /** `bench(times=n)`: below one round it fails before logging anything;
      otherwise it logs its own entry and then a prefix of `n` rounds, all
      `n` rounds when it succeeds, and never `verify`. */
  lemma BenchEffect(p: Provider, h: Host, s: Snap, prefix: string, n: int)
    requires NoDuplicates(s.order)
    ensures n < 1 ==> BenchStep(p, h, s, prefix, n) == (Raised(TooFewRounds(n)), s)
    ensures n >= 1 ==> s.log + [BenchEntry(n)] < BenchStep(p, h, s, prefix, n).1.log
                                              <= s.log + [BenchEntry(n)] + CycleLogs(n)
    ensures n >= 1 ==> "verify" !in BenchStep(p, h, s, prefix, n).1.log[|s.log|..]
    ensures NamesMatched(s) ==> NamesMatched(BenchStep(p, h, s, prefix, n).1)
    ensures n >= 1 && BenchStep(p, h, s, prefix, n).0.Done? ==>
              var t := BenchStep(p, h, s, prefix, n).1;
              t.log == s.log + [BenchEntry(n)] + CycleLogs(n) &&
              t.order == AddAll(s.order, CycleTimings) && Grew(s.times, t.times, CycleTimings, n)
    ensures n >= 1 && Reliable(p, h) ==> BenchStep(p, h, s, prefix, n).0.Done?
  {
    if n >= 1 {
      var s1 := Logged(s, BenchEntry(n));
      RoundsEffect(p, h, s1, prefix, n);
      VerifyNeverLogged(n);
      var (r, t) := Rounds(p, h, s1, prefix, n);
      assert RoundsRel(s1, r, t, n, Reliable(p, h));
      var tail := t.log[|s1.log|..];
      assert t.log == s1.log + tail;
      assert tail <= CycleLogs(n);
      DropLogged(s.log, BenchEntry(n), tail);
      assert BenchEntry(n) != "verify" by {
        assert BenchEntry(n)[0] == 'b';
      }
    }
  }

  /** On a runner whose timer has measured nothing, a successful
      `bench(times=n)` leaves exactly the round's names in round order,
      with `n` spans under each and no other key. */
  lemma FreshBench(p: Provider, h: Host, s: Snap, prefix: string, n: int)
    requires s.order == [] && s.times == map[]
    requires BenchStep(p, h, s, prefix, n).0.Done?
    ensures BenchStep(p, h, s, prefix, n).1.order == CycleTimings
    ensures BenchStep(p, h, s, prefix, n).1.times.Keys == Elems(CycleTimings)
    ensures forall k :: k in CycleTimings ==> |SpansOf(BenchStep(p, h, s, prefix, n).1.times, k)| == n
  {
    BenchEffect(p, h, s, prefix, n);
    AddAllFresh(CycleTimings);
    var t := BenchStep(p, h, s, prefix, n).1;
    assert n >= 1;
    forall k | k in CycleTimings
      ensures |SpansOf(t.times, k)| == n
    {
      assert SpansOf(s.times, k) == [];
    }
  }

  // ------------------------------------------------------------- the runner

  class Runner {
    const prefix: string
    const nodeCount: int
    const timer: Timer
    const report: Report
    const provider: Provider
    const host: Host
    var log: seq<string>
    var path: Attr<Option<string>>
    var env: Attr<Env>
    var step: nat

    /** The timer is idle between phases and the report views this timer. */
    ghost predicate Valid()
      reads this, timer
    {
      timer.Valid() && !timer.running && report.timer == timer
    }

    /** The state the phases act on. */
    ghost function Snapshot(): Snap
      reads this, timer
    {
      Snap(log, path, env, step, timer.order, timer.times)
    }

    /** `__init__(prefix, node_count)`: an empty or absent prefix means the
        working directory. */
    constructor (prefix: Option<string>, nodeCount: int, provider: Provider, host: Host)
      ensures Valid()
      ensures this.prefix == if prefix.None? || prefix.value == "" then host.cwd else prefix.value
      ensures this.nodeCount == nodeCount && this.provider == provider && this.host == host
      ensures Snapshot() == Snap([], Missing, Missing, 0, [], map[])
      ensures fresh(timer) && timer.name.None?
    {
      this.prefix := if prefix.None? || prefix.value == "" then host.cwd else prefix.value;
      this.nodeCount := nodeCount;
      this.provider := provider;
      this.host := host;
      log := [];
      path := Missing;
      env := Missing;
      step := 0;
      var t := new Timer();
      timer := t;
      report := new Report(t);
    }

    /** The `path` property: `_path` before the first fetch does not exist. */
    function Path(): (r: Result<Option<string>>)
      reads this
      ensures r.Ok? <==> path.Present?
      ensures r.Ok? ==> r.value == path.value
      ensures r.Err? ==> r.error == AttributeError("_path")
    {
      if path.Missing? then Err(AttributeError("_path")) else Ok(path.value)
    }

    /** The `env` property: only after `prepare`, and then a copy of it. */
    function Env(): (r: Result<Env>)
      reads this
      ensures r.Ok? <==> env.Present?
      ensures r.Ok? ==> r.value == env.value
      ensures r.Err? ==> r.error == AssertionError
    {
      if env.Missing? then Err(AssertionError) else Ok(env.value)
    }

    /** The `report` property: a report over this runner's own timer. */
    function Report(): (r: Report)
      reads this, timer
      requires Valid()
      ensures r.timer == timer
    {
      report
    }

    /** The `node_count` property. */
    function NodeCount(): int
    {
      nodeCount
    }

    /** `with self._timer.measure(k): call()`. */
    method Timed<T>(k: string, call: nat -> Result<T>) returns (r: Result<T>)
      requires Valid()
      modifies timer, this`step
      ensures Valid() && timer.name.None?
      ensures r == call(old(step) + 1)
      ensures Snapshot() == Measured(host, old(Snapshot()), k)
    {
      var t := timer.Measure(k);
      var entered := t.Enter(host.clock(step));
      assert entered.Ok?;
      step := step + 1;
      r := call(step);
      step := step + 1;
      t.Exit(host.clock(step));
      step := step + 1;
    }

    /** `fetch(prefix)`: an absent prefix means the working directory; the
        path the provider answers is stored and handed back. */
    method Fetch(dir: Option<string>) returns (r: Result<string>)
      requires Valid()
      modifies this, timer
      ensures Valid()
      ensures timer.name.None?
      ensures (r, Snapshot()) == FetchStep(provider, host, old(Snapshot()), dir)
    {
      log := log + ["fetch"];
      var where := if dir.None? then host.cwd else dir.value;
      var p := provider;
      var got := Timed("fetch", s => p.fetch(where, s));
      if got.Err? {
        return Err(got.error);
      }
      path := Present(Some(got.value));
      r := Ok(got.value);
    }

    /** `prepare()`: the environment the provider answers is stored. */
    method Prepare() returns (r: Result<()>)
      requires Valid()
      modifies this, timer
      ensures Valid()
      ensures timer.name.None?
      ensures (r, Snapshot()) == PrepareStep(provider, host, old(Snapshot()))
    {
      log := log + ["prepare"];
      var got := Timed("prepare", provider.prepare);
      if got.Err? {
        return Err(got.error);
      }
      env := Present(got.value);
      r := Ok(());
    }

    /** A phase run inside the benchmark environment. */
    method Scoped<T>(entry: string, k: string, call: nat -> Result<T>) returns (r: Result<T>)
      requires Valid()
      modifies this, timer
      ensures Valid()
      ensures old(env).Present? ==> timer.name.None?
      ensures (r, Snapshot()) == ScopedStep(host, old(Snapshot()), entry, k, call)
    {
      log := log + [entry];
      if env.Missing? {
        return Err(AttributeError("_env"));
      }
      r := Timed(k, call);
    }

    /** `launch()`. */
    method Launch() returns (r: Result<()>)
      requires Valid()
      modifies this, timer
      ensures Valid()
      ensures old(env).Present? ==> timer.name.None?
      ensures (r, Snapshot()) == ScopedStep(host, old(Snapshot()), "launch", "launch", provider.launch)
    {
      r := Scoped("launch", "launch", provider.launch);
    }

    /** `deploy()`. */
    method Deploy() returns (r: Result<()>)
      requires Valid()
      modifies this, timer
      ensures Valid()
      ensures old(env).Present? ==> timer.name.None?
      ensures (r, Snapshot()) == ScopedStep(host, old(Snapshot()), "deploy", "deploy", provider.deploy)
    {
      r := Scoped("deploy", "deploy", provider.deploy);
    }

    /** `run()`. */
    method Run() returns (r: Result<()>)
      requires Valid()
      modifies this, timer
      ensures Valid()
      ensures old(env).Present? ==> timer.name.None?
      ensures (r, Snapshot()) == ScopedStep(host, old(Snapshot()), "run", "run", provider.run)
    {
      r := Scoped("run", "run", provider.run);
    }

    /** `verify()`. */
    method Verify() returns (r: Result<()>)
      requires Valid()
      modifies this, timer
      ensures Valid()
      ensures old(env).Present? ==> timer.name.None?
      ensures (r, Snapshot()) == VerifyStep(provider, host, old(Snapshot()))
    {
      var passed := Scoped("verify", "verify", provider.verify);
      if passed.Err? {
        return Err(passed.error);
      }
      if !passed.value {
        return Err(VerificationError);
      }
      r := Ok(());
    }

    /** `clean()`. */
    method Clean() returns (r: Result<()>)
      requires Valid()
      modifies this, timer
      ensures Valid()
      ensures old(env).Present? ==> timer.name.None?
      ensures (r, Snapshot()) == CleanStep(provider, host, old(Snapshot()))
    {
      var cleaned := Scoped("clean", "cleanup", provider.clean);
      if cleaned.Err? {
        return Err(cleaned.error);
      }
      match path
      case Missing =>
        return Err(AttributeError("_path"));
      case Present(None) =>
        return Err(TypeError);
      case Present(Some(dir)) =>
        var removed := host.removeTree(dir, step);
        step := step + 1;
        if removed.Err? {
          return Err(removed.error);
        }
        path := Present(None);
        r := Ok(());
    }

    /** The body of `bench`'s loop: one round into the runner's prefix. */
    method Cycle() returns (r: Outcome)
      requires Valid()
      modifies this, timer
      ensures Valid()
      ensures timer.name.None?
      ensures (r, Snapshot()) == CycleStep(provider, host, old(Snapshot()), prefix)
    {
      ghost var round := CycleStep(provider, host, Snapshot(), prefix);
      var fetched := Fetch(Some(prefix));
      if fetched.Err? {
        return Raised(fetched.error);
      }
      assert round == RoundFrom(provider, host, Snapshot(), prefix, 1);
      var prepared := Prepare();
      if prepared.Err? {
        return Raised(prepared.error);
      }
      assert round == RoundFrom(provider, host, Snapshot(), prefix, 2);
      var launched := Launch();
      if launched.Err? {
        return Raised(launched.error);
      }
      assert round == RoundFrom(provider, host, Snapshot(), prefix, 3);
      var deployed := Deploy();
      if deployed.Err? {
        return Raised(deployed.error);
      }
      assert round == RoundFrom(provider, host, Snapshot(), prefix, 4);
      var ran := Run();
      if ran.Err? {
        return Raised(ran.error);
      }
      assert round == RoundFrom(provider, host, Snapshot(), prefix, 5);
      var cleaned := Clean();
      r := Status(cleaned);
    }

    /** `bench(times=n)`. */
    method Bench(n: int) returns (r: Outcome)
      requires Valid()
      modifies this, timer
      ensures Valid()
      ensures n >= 1 ==> timer.name.None?
      ensures (r, Snapshot()) == BenchStep(provider, host, old(Snapshot()), prefix, n)
    {
      if n < 1 {
        return Raised(TooFewRounds(n));
      }
      log := log + [BenchEntry(n)];
      r := Repeat(n);
    }

    /** `bench`'s loop: `n` rounds, leaving at the first exception. */
    method Repeat(n: nat) returns (r: Outcome)
      requires Valid()
      modifies this, timer
      ensures Valid()
      ensures n > 0 ==> timer.name.None?
      ensures (r, Snapshot()) == Rounds(provider, host, old(Snapshot()), prefix, n)
    {
      ghost var s0 := Snapshot();
      for i := 0 to n
        invariant Valid()
        invariant Rounds(provider, host, s0, prefix, i) == (Done, Snapshot())
        invariant i > 0 ==> timer.name.None?
      {
        var c := Cycle();
        RoundsNext(provider, host, s0, prefix, i);
        if c.Raised? {
          RoundsStop(provider, host, s0, prefix, i + 1, n);
          return c;
        }
      }
      r := Done;
    }
  }

  /** The scenario of the runner's own test: a new runner benches `n`
      rounds with a provider and host that never fail; afterwards the
      timer's names are exactly the round's, in round order, each with `n`
      spans, and `names` succeeds. */
  method BenchFreshRunner(dir: Option<string>, p: Provider, h: Host, n: int) returns (b: Runner, r: Outcome)
    requires Reliable(p, h) && n >= 1
    ensures r.Done?
    ensures b.timer.order == CycleTimings && b.timer.Names() == Ok(CycleTimings)
    ensures forall k :: k in CycleTimings ==> |b.timer.Spans(k)| == n
  {
    b := new Runner(dir, 1, p, h);
    ghost var s := b.Snapshot();
    r := b.Bench(n);
    BenchEffect(p, h, s, b.prefix, n);
    FreshBench(p, h, s, b.prefix, n);
  }
}
