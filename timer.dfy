/** The named-span recorder: a span is a start/stop pair, and a Timer keeps,
    for every name it has measured, the spans recorded under it in
    recording order, plus the names in first-seen order. */
module Timing {
  import opened Errors

  /** A measurement name. The pending name is None until `Measure` sets it
      and again after every exit, so a bare enter records under None. */
  type Key = Option<string>

  datatype TimeSpan = TimeSpan(start: real, stop: real) {
    /** Elapsed time of the span. */
    function Seconds(): (r: real)
      ensures start + r == stop
      ensures r >= 0.0 <==> start <= stop
    {
      stop - start
    }
  }

  // ---------------------------------------------------------------- values

  function Elems<T>(s: seq<T>): set<T>
  {
    set x | x in s
  }

  predicate NoDuplicates<T(==)>(s: seq<T>)
  {
    forall i, j :: 0 <= i < j < |s| ==> s[i] != s[j]
  }

  /** The spans recorded under `k`; none for a name never recorded. */
  function SpansOf(times: map<Key, seq<TimeSpan>>, k: Key): seq<TimeSpan>
  {
    if k in times then times[k] else []
  }

  /** `order` after entering a measurement of `k`: appended only when absent. */
  function WithKey(order: seq<Key>, k: Key): seq<Key>
  {
    if k in order then order else order + [k]
  }

  /** `times` after exiting a measurement of `k` that took `span`. */
  function Push(times: map<Key, seq<TimeSpan>>, k: Key, span: TimeSpan): map<Key, seq<TimeSpan>>
  {
    times[k := SpansOf(times, k) + [span]]
  }

  /** `order` after entering measurements of every name of `ks`, in turn. */
  function AddAll(order: seq<Key>, ks: seq<Key>): seq<Key>
  {
    if ks == [] then order else WithKey(AddAll(order, ks[..|ks| - 1]), ks[|ks| - 1])
  }

  lemma WithKeyKeepsOrder(order: seq<Key>, k: Key)
    requires NoDuplicates(order)
    ensures NoDuplicates(WithKey(order, k))
    ensures Elems(WithKey(order, k)) == Elems(order) + {k}
    ensures order <= WithKey(order, k)
    ensures k in order ==> WithKey(order, k) == order
  {
  }

  /** An enter followed by the matching exit keeps the keys of `times`
      equal to the names of `order`. */
  lemma PairKeepsNamesMatched(order: seq<Key>, times: map<Key, seq<TimeSpan>>, k: Key, span: TimeSpan)
    requires times.Keys == Elems(order)
    ensures Push(times, k, span).Keys == Elems(WithKey(order, k))
  {
  }

  lemma {:induction false} AddAllElems(order: seq<Key>, ks: seq<Key>)
    requires NoDuplicates(order)
    ensures NoDuplicates(AddAll(order, ks))
    ensures Elems(AddAll(order, ks)) == Elems(order) + Elems(ks)
    ensures order <= AddAll(order, ks)
  {
    if ks != [] {
      var init := ks[..|ks| - 1];
      AddAllElems(order, init);
      WithKeyKeepsOrder(AddAll(order, init), ks[|ks| - 1]);
      assert ks == init + [ks[|ks| - 1]];
      assert Elems(ks) == Elems(init) + {ks[|ks| - 1]};
    }
  }

  /** Names already present are not appended again. */
  lemma {:induction false} AddAllPresent(order: seq<Key>, ks: seq<Key>)
    requires Elems(ks) <= Elems(order)
    ensures AddAll(order, ks) == order
  {
    if ks != [] {
      var init := ks[..|ks| - 1];
      assert Elems(init) <= Elems(ks);
      AddAllPresent(order, init);
      assert ks[|ks| - 1] in Elems(ks);
    }
  }

  /** On an empty order the names come out as given, if given once each. */
  lemma {:induction false} AddAllFresh(ks: seq<Key>)
    requires NoDuplicates(ks)
    ensures AddAll([], ks) == ks
  {
    if ks != [] {
      var init := ks[..|ks| - 1];
      AddAllFresh(init);
      assert forall j :: 0 <= j < |init| ==> init[j] == ks[j] && ks[j] != ks[|ks| - 1];
      assert ks[|ks| - 1] !in init;
      assert ks == init + [ks[|ks| - 1]];
    }
  }

  // ------------------------------------------------------------ statistics

  function SumSeconds(spans: seq<TimeSpan>): real
  {
    if spans == [] then 0.0 else SumSeconds(spans[..|spans| - 1]) + spans[|spans| - 1].Seconds()
  }

  /** Arithmetic mean of the spans' seconds. */
  function Mean(spans: seq<TimeSpan>): real
    requires |spans| > 0
  {
    SumSeconds(spans) / (|spans| as real)
  }

  function Least(spans: seq<TimeSpan>): real
    requires |spans| > 0
  {
    if |spans| == 1 then spans[0].Seconds()
    else
      var m := Least(spans[..|spans| - 1]);
      if spans[|spans| - 1].Seconds() < m then spans[|spans| - 1].Seconds() else m
  }

  function Greatest(spans: seq<TimeSpan>): real
    requires |spans| > 0
  {
    if |spans| == 1 then spans[0].Seconds()
    else
      var m := Greatest(spans[..|spans| - 1]);
      if spans[|spans| - 1].Seconds() > m then spans[|spans| - 1].Seconds() else m
  }

  /** `Least` is the minimum of the seconds: no span is shorter, one attains it. */
  lemma {:induction false} LeastIsMinimum(spans: seq<TimeSpan>)
    requires |spans| > 0
    ensures forall k :: 0 <= k < |spans| ==> Least(spans) <= spans[k].Seconds()
    ensures exists k :: 0 <= k < |spans| && Least(spans) == spans[k].Seconds()
  {
    if |spans| > 1 {
      var init := spans[..|spans| - 1];
      LeastIsMinimum(init);
      var w :| 0 <= w < |init| && Least(init) == init[w].Seconds();
      assert init[w] == spans[w];
      assert forall k :: 0 <= k < |init| ==> init[k] == spans[k];
      var last := |spans| - 1;
      if spans[last].Seconds() < Least(init) {
        assert Least(spans) == spans[last].Seconds();
        assert 0 <= last < |spans| && Least(spans) == spans[last].Seconds();
      } else {
        assert Least(spans) == spans[w].Seconds();
        assert 0 <= w < |spans| && Least(spans) == spans[w].Seconds();
      }
    } else {
      assert Least(spans) == spans[0].Seconds();
    }
  }

  /** `Greatest` is the maximum of the seconds: no span is longer, one attains it. */
  lemma {:induction false} GreatestIsMaximum(spans: seq<TimeSpan>)
    requires |spans| > 0
    ensures forall k :: 0 <= k < |spans| ==> spans[k].Seconds() <= Greatest(spans)
    ensures exists k :: 0 <= k < |spans| && Greatest(spans) == spans[k].Seconds()
  {
    if |spans| > 1 {
      var init := spans[..|spans| - 1];
      GreatestIsMaximum(init);
      var w :| 0 <= w < |init| && Greatest(init) == init[w].Seconds();
      assert init[w] == spans[w];
      assert forall k :: 0 <= k < |init| ==> init[k] == spans[k];
      if spans[|spans| - 1].Seconds() > Greatest(init) {
        assert Greatest(spans) == spans[|spans| - 1].Seconds();
      } else {
        assert Greatest(spans) == spans[w].Seconds();
      }
    }
  }

  lemma {:induction false} SumBounds(spans: seq<TimeSpan>, lo: real, hi: real)
    requires forall k :: 0 <= k < |spans| ==> lo <= spans[k].Seconds() <= hi
    ensures (|spans| as real) * lo <= SumSeconds(spans) <= (|spans| as real) * hi
  {
    if spans != [] {
      SumBounds(spans[..|spans| - 1], lo, hi);
    }
  }

  /** The mean lies between the shortest and the longest span. */
  lemma MeanBetweenLeastAndGreatest(spans: seq<TimeSpan>)
    requires |spans| > 0
    ensures Least(spans) <= Mean(spans) <= Greatest(spans)
  {
    LeastIsMinimum(spans);
    GreatestIsMaximum(spans);
    SumBounds(spans, Least(spans), Greatest(spans));
    Quotient(SumSeconds(spans), |spans| as real, Least(spans), Greatest(spans));
  }

  lemma Quotient(s: real, n: real, lo: real, hi: real)
    requires n > 0.0 && n * lo <= s <= n * hi
    ensures lo <= s / n <= hi
  {
    var q := s / n;
    assert s == q * n;
    assert n * lo <= n * q <= n * hi;
  }

  /** Two spans of 1 and 3 seconds average 2 seconds. */
  lemma MeanOfOneAndThree()
    ensures Mean([TimeSpan(0.0, 1.0), TimeSpan(1.0, 4.0)]) == 2.0
  {
    var spans := [TimeSpan(0.0, 1.0), TimeSpan(1.0, 4.0)];
    assert spans[..1] == [TimeSpan(0.0, 1.0)];
    assert spans[..1][..0] == [];
    assert SumSeconds(spans) == 4.0;
  }

  // ----------------------------------------------------------------- Timer

  class Timer {
    var start: Option<real>
    var stop: Option<real>
    var order: seq<Key>
    var times: map<Key, seq<TimeSpan>>
    var running: bool
    var name: Key

    /** What every method keeps: names enter `order` once, a start instant is
        held exactly while running, and the stop instant only inside an exit. */
    ghost predicate Valid()
      reads this
    {
      NoDuplicates(order) && (running <==> start.Some?) && stop.None?
    }

    /** The condition the `names` property asserts. */
    predicate NamesMatch()
      reads this
    {
      times.Keys == Elems(order)
    }

    constructor ()
      ensures Valid()
      ensures start.None? && stop.None? && order == [] && times == map[]
      ensures !running && name.None?
    {
      start := None;
      stop := None;
      order := [];
      times := map[];
      running := false;
      name := None;
    }

    /** The `names` property: the first-seen order, once the assertion that
        the recorded names and `order` agree has passed. */
    function Names(): (r: Result<seq<Key>>)
      reads this
      ensures r.Ok? <==> NamesMatch()
      ensures r.Ok? ==> r.value == order
      ensures r.Err? ==> r.error == AssertionError
    {
      if NamesMatch() then Ok(order) else Err(AssertionError)
    }

    /** The `names` property as written: the assertion's message calls
        `self._times.key()`, a method a dict does not have, so a failing
        assertion raises AttributeError before AssertionError can be built. */
    function NamesAsWritten(): (r: Result<seq<Key>>)
      reads this
      ensures r.Ok? <==> NamesMatch()
      ensures r.Ok? ==> r.value == order
      ensures r.Err? ==> r.error == AttributeError("key")
    {
      if NamesMatch() then Ok(order) else Err(AttributeError("key"))
    }

    /** The spans recorded under `k`, without the side effect of `Times`. */
    function Spans(k: Key): seq<TimeSpan>
      reads this
    {
      SpansOf(times, k)
    }

    /** `times(name)`: the spans under `k` in recording order. Indexing the
        defaultdict inserts an empty list for a name never recorded. */
    method Times(k: Key) returns (spans: seq<TimeSpan>)
      modifies this`times
      ensures spans == SpansOf(old(times), k)
      ensures times == if k in old(times) then old(times) else old(times)[k := []]
      ensures old(NamesMatch()) && k !in order ==> !NamesMatch()
    {
      if k !in times {
        times := times[k := []];
      }
      spans := times[k];
    }

    /** `average(name)`: sum of the seconds over the number of spans; with no
        span the float division by zero raises. */
    method Average(k: Key) returns (r: Result<real>)
      modifies this`times
      ensures times == if k in old(times) then old(times) else old(times)[k := []]
      ensures r == if |SpansOf(old(times), k)| == 0 then Err(ZeroDivisionError)
                   else Ok(Mean(SpansOf(old(times), k)))
    {
      var spans := Times(k);
      var n := 0.0;
      var s := 0.0;
      var i := 0;
      while i < |spans|
        invariant 0 <= i <= |spans|
        invariant n == i as real && s == SumSeconds(spans[..i])
      {
        assert spans[..i + 1][..i] == spans[..i];
        n := n + 1.0;
        s := s + spans[i].Seconds();
        i := i + 1;
      }
      assert spans[..i] == spans;
      if n == 0.0 {
        r := Err(ZeroDivisionError);
      } else {
        r := Ok(s / n);
      }
    }

    /** `measure(name)`: only stores the pending name, even while running,
        and hands back this same timer to be entered. */
    method Measure(k: string) returns (self: Timer)
      modifies this`name
      ensures self == this && name == Some(k)
    {
      name := Some(k);
      self := this;
    }

    /** `__enter__` at instant `now`. */
    method Enter(now: real) returns (r: Result<()>)
      requires Valid()
      modifies this`order, this`running, this`start
      ensures Valid()
      ensures r.Err? <==> old(running)
      ensures old(running) ==> r.error == ValueError("Cannot enter an already running timer")
                               && order == old(order) && running && start == old(start)
      ensures !old(running) ==> order == WithKey(old(order), name) && running && start == Some(now)
    {
      if running {
        return Err(ValueError("Cannot enter an already running timer"));
      }
      WithKeyKeepsOrder(order, name);
      if name !in order {
        order := order + [name];
      }
      running := true;
      start := Some(now);
      r := Ok(());
    }

    /** `__exit__` at instant `now` (also on the way out of an exception):
        one span from the entered start to `now` goes to the end of the
        pending name's list, and the measurement state is reset. */
    method Exit(now: real)
      requires Valid() && running
      modifies this`times, this`running, this`name, this`start, this`stop
      ensures Valid()
      ensures times == Push(old(times), old(name), TimeSpan(old(start).value, now))
      ensures !running && name.None? && start.None? && stop.None?
    {
      stop := Some(now);
      var pending := name;
      var span := TimeSpan(start.value, stop.value);
      times := times[pending := SpansOf(times, pending) + [span]];
      running := false;
      name := None;
      start := None;
      stop := None;
    }
  }

  // ------------------------------------------------------ source behaviours

  /** A nested measurement on one timer: the inner enter fails, but its
      `Measure` already replaced the pending name, so the outer exit records
      under the inner name and the `names` check fails afterwards. */
  method NestedEnterRenamesOuterSpan() returns (t: Timer, inner: Result<()>)
    ensures inner == Err(ValueError("Cannot enter an already running timer"))
    ensures t.order == [Some("outer")]
    ensures t.times == map[Some("inner") := [TimeSpan(0.0, 2.0)]]
    ensures t.Names() == Err(AssertionError)
  {
    t := new Timer();
    var _ := t.Measure("outer");
    var _ := t.Enter(0.0);
    var _ := t.Measure("inner");
    inner := t.Enter(1.0);
    t.Exit(2.0);
    assert t.times == map[][Some("inner") := [] + [TimeSpan(0.0, 2.0)]];
    assert [] + [TimeSpan(0.0, 2.0)] == [TimeSpan(0.0, 2.0)];
  }

  /** Asking a fresh timer for the spans of a name it never measured yields
      none, but leaves an empty entry behind, so `names` fails. */
  method TimesOfUnseenNameBreaksNames() returns (t: Timer, spans: seq<TimeSpan>)
    ensures spans == []
    ensures t.order == [] && t.times == map[Some("run") := []]
    ensures t.Names() == Err(AssertionError)
    ensures t.NamesAsWritten() == Err(AttributeError("key"))
  {
    t := new Timer();
    spans := t.Times(Some("run"));
  }
}
