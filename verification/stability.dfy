/**
 * The pipeline stability index: per monitored component, a sliding window of the
 * last 50 outcomes (1 = success, 0 = failure) kept in a key-value cache, reduced
 * to a health ratio per component and a weighted drift score over all of them.
 * Health and drift are exact rationals (`real`).
 */
module Stability {

  /** One recorded outcome. */
  type Bit = b: int | 0 <= b <= 1

  /** Component name to its window of outcomes, oldest first. */
  type Windows = map<string, seq<Bit>>

  const CalibrationBaseline: real := 0.132336
  const WindowSize: nat := 50
  const CacheKey: string := "axiom_psi_data"

  /** The monitored components and their weights, in declaration order. */
  const Weights: seq<(string, real)> :=
    [("database", 0.35), ("storage", 0.40), ("ffmpeg", 0.15), ("integrity", 0.10)]

  predicate Monitored(c: string) {
    exists i :: 0 <= i < |Weights| && Weights[i].0 == c
  }

  /** The history `_get_history` falls back to when the cache holds none: an empty window per component. */
  function DefaultWindows(): (h: Windows)
    ensures forall c :: Monitored(c) ==> c in h && h[c] == []
  {
    map i | 0 <= i < |Weights| :: Weights[i].0 := []
  }

  /** `history.get(c, [])`. */
  function Window(h: Windows, c: string): seq<Bit> {
    if c in h then h[c] else []
  }

  /** Every monitored component has a window of at most `WindowSize` outcomes. */
  ghost predicate WellFormed(h: Windows) {
    forall i :: 0 <= i < |Weights| ==> Weights[i].0 in h && |h[Weights[i].0]| <= WindowSize
  }

  /** The last `n` elements of `s` (all of `s` when it is shorter). */
  function LastN<T>(s: seq<T>, n: nat): (r: seq<T>)
    ensures |r| == if |s| <= n then |s| else n
  {
    if |s| <= n then s else s[|s| - n..]
  }

  /** Append an outcome to a window and, on overflow, evict the oldest entry. */
  function Slide(w: seq<Bit>, v: Bit): (r: seq<Bit>)
    ensures |r| > 0 && r[|r| - 1] == v
    ensures |w| <= WindowSize ==> |r| == (if |w| + 1 <= WindowSize then |w| + 1 else WindowSize)
    ensures |w| <= WindowSize ==> r == LastN(w + [v], WindowSize)
  {
    var a := w + [v];
    if |a| > WindowSize then a[1..] else a
  }

  /** Reporting several outcomes one after the other. */
  function SlideAll(w: seq<Bit>, vs: seq<Bit>): seq<Bit>
    decreases |vs|
  {
    if vs == [] then w else Slide(SlideAll(w, vs[..|vs| - 1]), vs[|vs| - 1])
  }

  lemma LastNAgain<T>(x: seq<T>, y: seq<T>, n: nat)
    ensures LastN(LastN(x, n) + y, n) == LastN(x + y, n)
  {
    if |x| > n {
      var xn := x[|x| - n..];
      assert LastN(xn + y, n) == (xn + y)[|xn + y| - n..];
      assert (xn + y)[|xn + y| - n..] == (x + y)[|x + y| - n..];
    }
  }

  /**
   * However many outcomes are reported, the window keeps exactly the most recent
   * `WindowSize` of the old window followed by the new outcomes.
   */
  lemma {:induction false} SlideAllKeepsMostRecent(w: seq<Bit>, vs: seq<Bit>)
    requires |w| <= WindowSize
    ensures SlideAll(w, vs) == LastN(w + vs, WindowSize)
    decreases |vs|
  {
    if vs == [] {
      assert w + vs == w;
    } else {
      var init, v := vs[..|vs| - 1], vs[|vs| - 1];
      SlideAllKeepsMostRecent(w, init);
      LastNAgain(w + init, [v], WindowSize);
      assert w + init + [v] == w + vs;
    }
  }

  /** The number of successes in a window. */
  function Sum(w: seq<Bit>): (n: int)
    ensures 0 <= n <= |w|
    decreases |w|
  {
    if w == [] then 0 else Sum(w[..|w| - 1]) + w[|w| - 1]
  }

  lemma {:induction false} SumAll(w: seq<Bit>)
    ensures Sum(w) == |w| <==> forall i :: 0 <= i < |w| ==> w[i] == 1
    decreases |w|
  {
    if w != [] {
      SumAll(w[..|w| - 1]);
      assert forall i :: 0 <= i < |w| - 1 ==> w[..|w| - 1][i] == w[i];
    }
  }

  lemma {:induction false} SumAppend(a: seq<Bit>, b: seq<Bit>)
    ensures Sum(a + b) == Sum(a) + Sum(b)
    decreases |b|
  {
    if b == [] {
      assert a + b == a;
    } else {
      SumAppend(a, b[..|b| - 1]);
      assert (a + b)[..|a + b| - 1] == a + b[..|b| - 1];
    }
  }

  /** The fraction of successes, or 1 for an empty window (untested components count as healthy). */
  function Health(w: seq<Bit>): (r: real)
    ensures 0.0 <= r <= 1.0
  {
    if |w| == 0 then 1.0
    else
      RatioInUnit(Sum(w) as real, |w| as real);
      (Sum(w) as real) / (|w| as real)
  }

  lemma RatioInUnit(a: real, b: real)
    requires 0.0 <= a <= b && b > 0.0
    ensures 0.0 <= a / b <= 1.0
  {
    assert a / b * b == a;
  }

  /** A window is fully healthy exactly when it records no failure. */
  lemma HealthIsOne(w: seq<Bit>)
    ensures Health(w) == 1.0 <==> forall i :: 0 <= i < |w| ==> w[i] == 1
  {
    SumAll(w);
  }

  /** The drift a component of the given health and weight adds: (1 − health) · weight. */
  function Loss(health: real, weight: real): real {
    (1.0 - health) * weight
  }

  /** One component's share of the drift. */
  function Contribution(h: Windows, entry: (string, real)): real {
    Loss(Health(Window(h, entry.0)), entry.1)
  }

  /** Σ (1 − health) · weight over the entries of a weight table. */
  function Drift(t: seq<(string, real)>, h: Windows): real
    decreases |t|
  {
    if t == [] then 0.0 else Drift(t[..|t| - 1], h) + Contribution(h, t[|t| - 1])
  }

  function WeightSum(t: seq<(string, real)>): real
    decreases |t|
  {
    if t == [] then 0.0 else WeightSum(t[..|t| - 1]) + t[|t| - 1].1
  }

  /** The drift of the history over the monitored components. */
  function TotalDrift(h: Windows): real {
    Drift(Weights, h)
  }

  lemma WeightsSumToOne()
    ensures WeightSum(Weights) == 1.0
    ensures forall i :: 0 <= i < |Weights| ==> Weights[i].1 > 0.0
  {
    assert Weights[..1][..0] == [];
    assert Weights[..2][..1] == Weights[..1];
    assert Weights[..3][..2] == Weights[..2];
    assert Weights[..3] == Weights[..|Weights| - 1];
    assert WeightSum(Weights[..1]) == 0.35;
    assert WeightSum(Weights[..2]) == 0.75;
    assert WeightSum(Weights[..3]) == 0.90;
  }

  lemma ContributionBounds(h: Windows, entry: (string, real))
    requires entry.1 >= 0.0
    ensures 0.0 <= Contribution(h, entry) <= entry.1
    ensures Contribution(h, entry) == 0.0 <==> entry.1 == 0.0 || Health(Window(h, entry.0)) == 1.0
  {
    LossBounds(Health(Window(h, entry.0)), entry.1);
  }

  lemma LossBounds(health: real, weight: real)
    requires 0.0 <= health <= 1.0 && weight >= 0.0
    ensures 0.0 <= Loss(health, weight) <= weight
    ensures Loss(health, weight) == 0.0 <==> weight == 0.0 || health == 1.0
  {
    assert weight - Loss(health, weight) == health * weight;
    if weight > 0.0 && health < 1.0 {
      assert Loss(health, weight) > 0.0;
    }
  }

  /** With non-negative weights the drift lies between 0 and the weight sum. */
  lemma {:induction false} DriftBounds(t: seq<(string, real)>, h: Windows)
    requires forall i :: 0 <= i < |t| ==> t[i].1 >= 0.0
    ensures 0.0 <= Drift(t, h) <= WeightSum(t)
    decreases |t|
  {
    if t != [] {
      DriftBounds(t[..|t| - 1], h);
      ContributionBounds(h, t[|t| - 1]);
    }
  }

  /** With positive weights the drift is 0 exactly when every listed component has health 1. */
  lemma {:induction false} DriftZero(t: seq<(string, real)>, h: Windows)
    requires forall i :: 0 <= i < |t| ==> t[i].1 > 0.0
    ensures Drift(t, h) == 0.0 <==> forall i :: 0 <= i < |t| ==> Health(Window(h, t[i].0)) == 1.0
    decreases |t|
  {
    if t != [] {
      var init, last := t[..|t| - 1], t[|t| - 1];
      DriftZero(init, h);
      DriftBounds(init, h);
      ContributionBounds(h, last);
      assert forall i :: 0 <= i < |init| ==> init[i] == t[i];
    }
  }

  /**
   * Lowering the health of components (pointwise, over the listed names) never lowers
   * the drift.
   */
  lemma {:induction false} DriftMonotone(t: seq<(string, real)>, better: Windows, worse: Windows)
    requires forall i :: 0 <= i < |t| ==> t[i].1 >= 0.0
    requires forall i :: 0 <= i < |t| ==> Health(Window(worse, t[i].0)) <= Health(Window(better, t[i].0))
    ensures Drift(t, better) <= Drift(t, worse)
    decreases |t|
  {
    if t != [] {
      var init, last := t[..|t| - 1], t[|t| - 1];
      forall i | 0 <= i < |init|
        ensures init[i].1 >= 0.0 && Health(Window(worse, init[i].0)) <= Health(Window(better, init[i].0))
      {
        assert init[i] == t[i];
      }
      DriftMonotone(init, better, worse);
      ContributionMonotone(last, better, worse);
    }
  }

  lemma ContributionMonotone(entry: (string, real), better: Windows, worse: Windows)
    requires entry.1 >= 0.0
    requires Health(Window(worse, entry.0)) <= Health(Window(better, entry.0))
    ensures Contribution(better, entry) <= Contribution(worse, entry)
  {
    LossMonotone(Health(Window(better, entry.0)), Health(Window(worse, entry.0)), entry.1);
  }

  /** Over the monitored components the drift lies in [0, 1]. */
  lemma TotalDriftInUnitRange(h: Windows)
    ensures 0.0 <= TotalDrift(h) <= 1.0
  {
    WeightsSumToOne();
    DriftBounds(Weights, h);
  }

  predicate NoFailure(w: seq<Bit>) {
    forall i :: 0 <= i < |w| ==> w[i] == 1
  }

  /**
   * The global label is OPTIMAL exactly when no monitored component has a failure
   * in its window.
   */
  lemma OptimalIffNoFailures(h: Windows)
    ensures GlobalStatus(TotalDrift(h)) == Optimal <==> forall c :: Monitored(c) ==> NoFailure(Window(h, c))
  {
    WeightsSumToOne();
    DriftZero(Weights, h);
    forall c | Monitored(c)
      ensures Health(Window(h, c)) == 1.0 <==> NoFailure(Window(h, c))
    {
      HealthIsOne(Window(h, c));
    }
  }

  /** Sums of windows that share their length compare as the sums do. */
  lemma HealthOfSameLength(a: seq<Bit>, b: seq<Bit>)
    requires |a| == |b| && Sum(a) <= Sum(b)
    ensures Health(a) <= Health(b)
  {
    if |a| > 0 {
      DivideMonotone(Sum(a) as real, Sum(b) as real, |a| as real);
    }
  }

  lemma LossMonotone(better: real, worse: real, weight: real)
    requires worse <= better && weight >= 0.0
    ensures Loss(better, weight) <= Loss(worse, weight)
  {
    assert Loss(worse, weight) - Loss(better, weight) == (better - worse) * weight;
  }

  lemma DivideMonotone(x: real, y: real, n: real)
    requires x <= y && n > 0.0
    ensures x / n <= y / n
  {
    assert y / n - x / n == (y - x) / n;
  }

  lemma {:induction false} SumTail(w: seq<Bit>)
    requires |w| > 0
    ensures Sum(w[1..]) == Sum(w) - w[0]
  {
    SumAppend([w[0]], w[1..]);
    assert [w[0]] + w[1..] == w;
    assert [w[0]][..0] == [];
  }

  /** A reported failure never raises a window's health. */
  lemma HealthAfterFailure(w: seq<Bit>)
    ensures Health(Slide(w, 0)) <= Health(w)
  {
    var a := w + [0];
    SumAppend(w, [0]);
    assert [0 as Bit][..0] == [];
    if |a| > WindowSize {
      SumTail(a);
      assert a[1..] == Slide(w, 0);
      assert a[0] == w[0];
      HealthOfSameLength(a[1..], w);
    } else if |w| > 0 {
      assert Slide(w, 0) == a;
      DivideByLarger(Sum(w) as real, |w| as real);
    }
  }

  lemma DivideByLarger(s: real, n: real)
    requires s >= 0.0 && n > 0.0
    ensures s / (n + 1.0) <= s / n
  {
    var q, r := s / (n + 1.0), s / n;
    assert q * (n + 1.0) == s && r * n == s;
    assert q * n <= r * n;
  }

  /**
   * Reporting a failure for a monitored component never lowers the drift: the
   * health of that component does not rise and every other window is unchanged.
   */
  lemma DriftAfterFailure(h: Windows, c: string)
    requires c in h
    ensures TotalDrift(h) <= TotalDrift(h[c := Slide(h[c], 0)])
  {
    var h' := h[c := Slide(h[c], 0)];
    WeightsSumToOne();
    forall i | 0 <= i < |Weights|
      ensures Health(Window(h', Weights[i].0)) <= Health(Window(h, Weights[i].0))
    {
      if Weights[i].0 == c {
        HealthAfterFailure(h[c]);
      }
    }
    DriftMonotone(Weights, h, h');
  }

  /** `k` copies of one outcome. */
  function Outcomes(v: Bit, k: nat): (s: seq<Bit>)
    ensures |s| == k && forall i :: 0 <= i < k ==> s[i] == v
  {
    if k == 0 then [] else Outcomes(v, k - 1) + [v]
  }

  lemma {:induction false} SumOutcomes(v: Bit, k: nat)
    ensures Sum(Outcomes(v, k)) == if v == 1 then k else 0
    decreases k
  {
    if k > 0 {
      SumOutcomes(v, k - 1);
    }
  }

  /**
   * After at least `WindowSize` outcomes of which the last `k` are failures and the
   * ones before successes, the window holds `WindowSize - k` successes and then the
   * `k` failures, a health of `(WindowSize - k) / WindowSize`.
   */
  lemma RecentFailures(n: nat, k: nat)
    requires k <= WindowSize <= n + k
    ensures SlideAll([], Outcomes(1, n) + Outcomes(0, k)) == Outcomes(1, WindowSize - k) + Outcomes(0, k)
    ensures Health(SlideAll([], Outcomes(1, n) + Outcomes(0, k))) == (WindowSize - k) as real / WindowSize as real
  {
    RecentFailuresWindow(n, k);
    HealthOfOutcomes(WindowSize - k, k);
  }

  lemma RecentFailuresWindow(n: nat, k: nat)
    requires k <= WindowSize <= n + k
    ensures SlideAll([], Outcomes(1, n) + Outcomes(0, k)) == Outcomes(1, WindowSize - k) + Outcomes(0, k)
  {
    var all := Outcomes(1, n) + Outcomes(0, k);
    var m := WindowSize - k;
    var kept := Outcomes(1, m) + Outcomes(0, k);
    SlideAllKeepsMostRecent([], all);
    assert [] + all == all;
    assert LastN(all, WindowSize) == all[n - m..];
    forall i | 0 <= i < WindowSize
      ensures all[n - m + i] == kept[i]
    {
      if i < m {
        assert all[n - m + i] == Outcomes(1, n)[n - m + i];
      } else {
        assert all[n - m + i] == Outcomes(0, k)[i - m];
      }
    }
    assert all[n - m..] == kept;
  }

  /** `m` successes followed by `k` failures have health `m / (m + k)`. */
  lemma HealthOfOutcomes(m: nat, k: nat)
    requires m + k > 0
    ensures Health(Outcomes(1, m) + Outcomes(0, k)) == m as real / (m + k) as real
  {
    var w := Outcomes(1, m) + Outcomes(0, k);
    assert Sum(w) == m by {
      SumAppend(Outcomes(1, m), Outcomes(0, k));
      SumOutcomes(1, m);
      SumOutcomes(0, k);
    }
    assert Health(w) == (Sum(w) as real) / (|w| as real);
  }

  /** Per-component status band. */
  datatype HealthLabel = Nominal | Degraded | Critical {
    function Name(): string {
      match this
      case Nominal => "NOMINAL"
      case Degraded => "DEGRADED"
      case Critical => "CRITICAL"
    }
    function Severity(): nat {
      match this
      case Nominal => 0
      case Degraded => 1
      case Critical => 2
    }
  }

  /** Global status band. */
  datatype GlobalLabel = Optimal | Stable | Warning | SystemicFailure {
    function Name(): string {
      match this
      case Optimal => "OPTIMAL"
      case Stable => "STABLE"
      case Warning => "WARNING"
      case SystemicFailure => "SYSTEMIC FAILURE"
    }
    function Severity(): nat {
      match this
      case Optimal => 0
      case Stable => 1
      case Warning => 2
      case SystemicFailure => 3
    }
  }

  /** `_get_label`. */
  function ComponentLabel(health: real): (l: HealthLabel)
    ensures l == Nominal <==> health >= 0.98
    ensures l == Degraded <==> 0.85 <= health < 0.98
    ensures l == Critical <==> health < 0.85
  {
    if health >= 0.98 then Nominal
    else if health >= 0.85 then Degraded
    else Critical
  }

  /** `_get_global_label`. */
  function GlobalStatus(drift: real): (l: GlobalLabel)
    ensures l == Optimal <==> drift == 0.0
    ensures l == Stable <==> drift != 0.0 && drift < 0.02
    ensures l == Warning <==> drift != 0.0 && 0.02 <= drift < 0.07
    ensures l == SystemicFailure <==> drift != 0.0 && drift >= 0.07
  {
    if drift == 0.0 then Optimal
    else if drift < 0.02 then Stable
    else if drift < 0.07 then Warning
    else SystemicFailure
  }

  /** A healthier component never gets a more severe label. */
  lemma ComponentLabelMonotone(h1: real, h2: real)
    requires h1 <= h2
    ensures ComponentLabel(h2).Severity() <= ComponentLabel(h1).Severity()
  {
  }

  /** For a non-negative drift, a larger drift never gets a less severe global label. */
  lemma GlobalStatusMonotone(d1: real, d2: real)
    requires 0.0 <= d1 <= d2
    ensures GlobalStatus(d1).Severity() <= GlobalStatus(d2).Severity()
  {
  }

  /** The stability flag agrees with the global label: OPTIMAL and STABLE are stable, SYSTEMIC FAILURE is not. */
  lemma StableFlagAgreesWithLabel(drift: real)
    requires drift >= 0.0
    ensures GlobalStatus(drift).Severity() <= 1 ==> drift < 0.05
    ensures GlobalStatus(drift) == SystemicFailure ==> !(drift < 0.05)
  {
  }

  /** One row of `component_report`. */
  datatype ComponentReport = ComponentReport(healthPct: real, status: HealthLabel, eventsCount: nat)

  /** The result of `get_diagnostics`; the score is kept exact rather than formatted. */
  datatype Diagnostics = Diagnostics(
    psiScore: real,
    status: GlobalLabel,
    worldLine: string,
    components: map<string, ComponentReport>,
    isStable: bool)

  function ReportOf(w: seq<Bit>): ComponentReport {
    ComponentReport(Health(w) * 100.0, ComponentLabel(Health(w)), |w|)
  }

  /** The history a cache holds under `CacheKey`, or an empty window per component. */
  function HistoryIn(cache: map<string, Windows>): Windows {
    if CacheKey in cache then cache[CacheKey] else DefaultWindows()
  }

  /** The state the index keeps: the shared cache, of which it uses one key. */
  class StabilityIndex {
    var cache: map<string, Windows>

    ghost predicate Valid()
      reads this
    {
      CacheKey in cache ==> WellFormed(cache[CacheKey])
    }

    /** An index over an empty cache. */
    constructor ()
      ensures Valid() && cache == map[]
    {
      cache := map[];
    }

    /** `_get_history`: the cached history, or an empty window per component. */
    function GetHistory(): (h: Windows)
      reads this
      ensures Valid() ==> WellFormed(h)
    {
      HistoryIn(cache)
    }

    /**
     * `report_status`: append 1 or 0 to the component's window, evicting the oldest
     * entry past `WindowSize`; unknown components are ignored.
     */
    method ReportStatus(component: string, success: bool)
      requires Valid()
      modifies this
      ensures Valid()
      ensures !Monitored(component) ==> cache == old(cache)
      ensures Monitored(component) ==>
        cache == old(cache)[CacheKey := old(GetHistory())[component := Slide(old(GetHistory())[component], if success then 1 else 0)]]
      ensures Monitored(component) ==>
        GetHistory() == old(GetHistory())[component := Slide(old(GetHistory())[component], if success then 1 else 0)]
      ensures forall c :: c != component && c in old(GetHistory()) ==> c in GetHistory() && GetHistory()[c] == old(GetHistory())[c]
    {
      if !Monitored(component) {
        return;
      }
      var history := GetHistory();
      var val: Bit := if success then 1 else 0;
      var window := history[component] + [val];
      if |window| > WindowSize {
        window := window[1..];
      }
      cache := cache[CacheKey := history[component := window]];
    }

    /** `get_diagnostics`: health and label per component, the drift score and the global label. */
    method GetDiagnostics() returns (d: Diagnostics)
      ensures d.psiScore - CalibrationBaseline == TotalDrift(GetHistory())
      ensures d.status == GlobalStatus(TotalDrift(GetHistory()))
      ensures d.isStable == (TotalDrift(GetHistory()) < 0.05)
      ensures d.worldLine == if TotalDrift(GetHistory()) == 0.0 then "0.132336 (Baseline)" else "Attractor Field Drift"
      ensures forall c :: c in d.components <==> Monitored(c)
      ensures forall c :: c in d.components ==> d.components[c] == ReportOf(Window(GetHistory(), c))
    {
      var history := GetHistory();
      var totalDrift, report := Survey(history);
      var score := CalibrationBaseline + totalDrift;
      var diff := score - CalibrationBaseline;
      d := Diagnostics(score, GlobalStatus(diff),
                       if diff == 0.0 then "0.132336 (Baseline)" else "Attractor Field Drift",
                       report, diff < 0.05);
    }
  }

  /** The loop of `get_diagnostics`: one report per monitored component, and the weighted drift. */
  method Survey(history: Windows) returns (totalDrift: real, report: map<string, ComponentReport>)
    ensures totalDrift == TotalDrift(history)
    ensures forall c :: c in report <==> Monitored(c)
    ensures forall c :: c in report ==> report[c] == ReportOf(Window(history, c))
  {
    report := map[];
    totalDrift := 0.0;
    var i := 0;
    while i < |Weights|
      invariant 0 <= i <= |Weights|
      invariant totalDrift == Drift(Weights[..i], history)
      invariant report.Keys == Names(Weights[..i])
      invariant forall c :: c in report ==> report[c] == ReportOf(Window(history, c))
    {
      var comp := Weights[i].0;
      DriftStep(Weights, history, i);
      NamesStep(Weights, i);
      totalDrift := totalDrift + Contribution(history, Weights[i]);
      report := report[comp := ReportOf(Window(history, comp))];
      i := i + 1;
    }
    assert Weights[..i] == Weights;
    NamesMembers(Weights);
  }

  /** The component names of a weight table. */
  function Names(t: seq<(string, real)>): set<string>
    decreases |t|
  {
    if t == [] then {} else Names(t[..|t| - 1]) + {t[|t| - 1].0}
  }

  lemma NamesStep(t: seq<(string, real)>, i: nat)
    requires i < |t|
    ensures Names(t[..i + 1]) == Names(t[..i]) + {t[i].0}
  {
    assert t[..i + 1][..i] == t[..i];
  }

  lemma {:induction false} NamesMembers(t: seq<(string, real)>)
    ensures forall c :: c in Names(t) <==> exists j :: 0 <= j < |t| && t[j].0 == c
    decreases |t|
  {
    if t != [] {
      var u := t[..|t| - 1];
      NamesMembers(u);
      forall c | c in Names(t)
        ensures exists j :: 0 <= j < |t| && t[j].0 == c
      {
        if c != t[|t| - 1].0 {
          assert c in Names(u);
          var j :| 0 <= j < |u| && u[j].0 == c;
          assert t[j].0 == c;
        }
      }
      forall c | exists j :: 0 <= j < |t| && t[j].0 == c
        ensures c in Names(t)
      {
        var j :| 0 <= j < |t| && t[j].0 == c;
        if j < |u| {
          assert u[j].0 == c;
        }
      }
    }
  }

  /** The drift of a longer prefix of a weight table adds the next entry's contribution. */
  lemma DriftStep(t: seq<(string, real)>, h: Windows, i: nat)
    requires i < |t|
    ensures Drift(t[..i + 1], h) == Drift(t[..i], h) + Contribution(h, t[i])
  {
    assert t[..i + 1][..i] == t[..i];
  }

  /** Report a run of outcomes for one monitored component, oldest first. */
  method ReportAll(index: StabilityIndex, component: string, outcomes: seq<Bit>)
    requires index.Valid() && Monitored(component)
    modifies index
    ensures index.Valid()
    ensures component in index.GetHistory()
    ensures index.GetHistory() == old(index.GetHistory())[component := SlideAll(old(index.GetHistory())[component], outcomes)]
    ensures outcomes == [] ==> index.cache == old(index.cache)
    ensures outcomes != [] ==> index.cache == old(index.cache)[CacheKey := index.GetHistory()]
    ensures forall k :: k != CacheKey ==> (k in index.cache <==> k in old(index.cache))
    ensures forall k :: k != CacheKey && k in index.cache ==> index.cache[k] == old(index.cache)[k]
    decreases |outcomes|
  {
    if outcomes == [] {
      return;
    }
    var earlier, last := outcomes[..|outcomes| - 1], outcomes[|outcomes| - 1];
    ReportAll(index, component, earlier);
    ghost var between, history := index.cache, index.GetHistory();
    index.ReportStatus(component, last == 1);
    ReportAllStep(old(index.GetHistory()), history, index.GetHistory(), component, outcomes);
    CacheStep(old(index.cache), between, index.cache, CacheKey, history, index.GetHistory(), earlier == []);
  }

  /** One step of `ReportAll`, stated on the histories before, between and after. */
  lemma ReportAllStep(h0: Windows, h1: Windows, h2: Windows, component: string, outcomes: seq<Bit>)
    requires outcomes != [] && component in h0
    requires h1 == h0[component := SlideAll(h0[component], outcomes[..|outcomes| - 1])]
    requires h2 == h1[component := Slide(h1[component], if outcomes[|outcomes| - 1] == 1 then 1 else 0)]
    ensures h2 == h0[component := SlideAll(h0[component], outcomes)]
  {
    var earlier, last := outcomes[..|outcomes| - 1], outcomes[|outcomes| - 1];
    var slid := SlideAll(h0[component], earlier);
    assert (if last == 1 then 1 else 0) == last;
    UpdateTwice(h0, component, slid, Slide(slid, last));
  }

  /** Storing under one key, possibly over an earlier store under the same key, leaves every other key alone. */
  lemma CacheStep<K, V>(c0: map<K, V>, c1: map<K, V>, c2: map<K, V>, key: K, a: V, b: V, same: bool)
    requires same ==> c1 == c0
    requires !same ==> c1 == c0[key := a]
    requires c2 == c1[key := b]
    ensures c2 == c0[key := b]
    ensures forall k :: k != key ==> (k in c2 <==> k in c0)
    ensures forall k :: k != key && k in c2 ==> c2[k] == c0[k]
  {
    if !same {
      UpdateTwice(c0, key, a, b);
    }
  }

  lemma UpdateTwice<K, V>(m: map<K, V>, k: K, a: V, b: V)
    ensures m[k := a][k := b] == m[k := b]
  {
  }


  /**
   * A client of the index: report 50 successes and then 10 failures for "storage"
   * on a fresh cache; the diagnostics show the storage component at 80 % health,
   * which is CRITICAL.
   */
  method StorageScenario() returns (d: Diagnostics)
    ensures "storage" in d.components
    ensures d.components["storage"] == ComponentReport(80.0, Critical, 50)
  {
    var index := new StabilityIndex();
    assert Monitored("storage") by {
      assert Weights[1].0 == "storage";
    }
    ReportAll(index, "storage", Outcomes(1, 50) + Outcomes(0, 10));
    RecentFailures(50, 10);
    d := index.GetDiagnostics();
  }
}
