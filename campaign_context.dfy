/**
 * The client-side campaign store of the dashboard (hackuta-frontend/src/context/CampaignContext.tsx).
 *
 * The store holds a list of campaigns; each campaign owns a list of ad creatives, and each ad
 * may carry metrics (quality, hostility, engagement, resonance). A campaign's `insights` are the
 * per-field means over the ads that define that field, rounded to one decimal (to an integer for
 * engagement). The source's updaters are `map`/`filter` expressions over the previous list; they
 * are the `After...` functions here, and `CampaignStore` is the state cell whose methods apply them.
 */
module CampaignContext {
  import opened Wrappers
  import opened Text
  import JsNumbers

  // ----- data model -----

  /** Metric values of an ad, or the insights of a campaign; each field may be undefined. */
  datatype Metrics = Metrics(
    quality: Option<real>,
    hostility: Option<real>,
    engagement: Option<real>,
    resonance: Option<real>)

  datatype Field = Quality | Hostility | Engagement | Resonance

  function Get(m: Metrics, f: Field): Option<real> {
    match f
    case Quality => m.quality
    case Hostility => m.hostility
    case Engagement => m.engagement
    case Resonance => m.resonance
  }

  /** An ad creative (`AdCreative`). */
  datatype Ad = Ad(
    id: string,
    campaignId: string,
    createdAt: string,
    src: string,
    fileName: Option<string>,
    initialInsight: Option<string>,
    width: Option<int>,
    height: Option<int>,
    metrics: Option<Metrics>)

  datatype ContextAnswers = ContextAnswers(
    emotion: Option<string>,
    success: Option<string>,
    inspiration: Option<string>)

  /** A campaign (`CampaignEntry`); `ads` stands for `ads ?? []`. */
  datatype Campaign = Campaign(
    id: string,
    name: string,
    description: string,
    createdAt: string,
    objective: Option<string>,
    targetAudience: Option<string>,
    platforms: Option<seq<string>>,
    contextAnswers: Option<ContextAnswers>,
    insights: Option<Metrics>,
    ads: seq<Ad>)

  function AdId(a: Ad): string { a.id }

  function CampaignId(c: Campaign): string { c.id }

  // ----- keys and de-duplication -----

  /** The keys of the elements of `s`. */
  function Keys<T>(s: seq<T>, key: T -> string): set<string> {
    set i | 0 <= i < |s| :: key(s[i])
  }

  /** No two elements of `s` share a key. */
  predicate DistinctKeys<T>(s: seq<T>, key: T -> string) {
    forall i, j :: 0 <= i < j < |s| ==> key(s[i]) != key(s[j])
  }

  lemma KeysSnoc<T>(s: seq<T>, x: T, key: T -> string)
    ensures Keys(s + [x], key) == Keys(s, key) + {key(x)}
  {
    assert forall i :: 0 <= i < |s| ==> (s + [x])[i] == s[i];
    assert (s + [x])[|s|] == x;
  }

  lemma KeysCons<T>(x: T, s: seq<T>, key: T -> string)
    ensures Keys([x] + s, key) == {key(x)} + Keys(s, key)
  {
    assert forall i :: 0 <= i < |s| ==> ([x] + s)[i + 1] == s[i];
    assert ([x] + s)[0] == x;
    forall k | k in Keys([x] + s, key) ensures k in {key(x)} + Keys(s, key) {
      var i :| 0 <= i < |s| + 1 && key(([x] + s)[i]) == k;
      if i > 0 {
        assert key(s[i - 1]) == k;
      }
    }
  }

  lemma DistinctSnoc<T>(s: seq<T>, x: T, key: T -> string)
    ensures DistinctKeys(s + [x], key) <==> DistinctKeys(s, key) && key(x) !in Keys(s, key)
  {
    var t := s + [x];
    assert forall i :: 0 <= i < |s| ==> t[i] == s[i];
    assert t[|s|] == x;
    if DistinctKeys(t, key) {
      forall i | 0 <= i < |s| ensures key(s[i]) != key(x) {
        assert key(t[i]) != key(t[|s|]);
      }
    }
    if DistinctKeys(s, key) && key(x) !in Keys(s, key) {
      forall i, j | 0 <= i < j < |t| ensures key(t[i]) != key(t[j]) {
        if j == |s| {
          assert key(s[i]) in Keys(s, key);
        }
      }
    }
  }

  /**
   * The first element of each key, in their order in `s`: the result of the `seen`-set loop
   * of `dedupeAds` and `dedupeCampaigns`.
   */
  function KeepFirst<T>(s: seq<T>, key: T -> string): (r: seq<T>)
    ensures |r| <= |s|
    ensures Keys(r, key) == Keys(s, key)
    ensures DistinctKeys(r, key)
    decreases |s|
  {
    if s == [] then []
    else
      var init, x := s[..|s| - 1], s[|s| - 1];
      assert s == init + [x];
      KeysSnoc(init, x, key);
      var p := KeepFirst(init, key);
      if key(x) in Keys(p, key) then p
      else
        KeysSnoc(p, x, key);
        DistinctSnoc(p, x, key);
        p + [x]
  }

  /** `s[i]` is the first element of `s` with its key. */
  predicate IsFirstOfKey<T>(s: seq<T>, key: T -> string, i: int)
    requires 0 <= i < |s|
  {
    forall k :: 0 <= k < i ==> key(s[k]) != key(s[i])
  }

  /** The elements that are the first of their key, in their order in `s`. */
  function FirstOfEachKey<T>(s: seq<T>, key: T -> string): seq<T>
    decreases |s|
  {
    if s == [] then []
    else FirstOfEachKey(s[..|s| - 1], key) + (if IsFirstOfKey(s, key, |s| - 1) then [s[|s| - 1]] else [])
  }

  /** De-duplication keeps exactly the first occurrence of each key, in input order. */
  lemma {:induction false} KeepFirstIsFirstOfEachKey<T>(s: seq<T>, key: T -> string)
    ensures KeepFirst(s, key) == FirstOfEachKey(s, key)
    decreases |s|
  {
    if s != [] {
      var init, x := s[..|s| - 1], s[|s| - 1];
      KeepFirstIsFirstOfEachKey(init, key);
      assert forall k :: 0 <= k < |init| ==> s[k] == init[k];
      assert IsFirstOfKey(s, key, |s| - 1) <==> key(x) !in Keys(init, key);
    }
  }

  /** A list whose keys are already distinct is left as it is. */
  lemma {:induction false} KeepFirstOfDistinct<T>(s: seq<T>, key: T -> string)
    requires DistinctKeys(s, key)
    ensures KeepFirst(s, key) == s
    decreases |s|
  {
    if s != [] {
      var init, x := s[..|s| - 1], s[|s| - 1];
      assert s == init + [x];
      DistinctSnoc(init, x, key);
      KeepFirstOfDistinct(init, key);
    }
  }

  /** Whatever holds of every element of `s` holds of every element that de-duplication keeps. */
  lemma {:induction false} KeepFirstKeeps<T>(s: seq<T>, key: T -> string, p: T -> bool)
    requires forall i :: 0 <= i < |s| ==> p(s[i])
    ensures forall j :: 0 <= j < |KeepFirst(s, key)| ==> p(KeepFirst(s, key)[j])
    decreases |s|
  {
    if s != [] {
      KeepFirstKeeps(s[..|s| - 1], key, p);
    }
  }

  /** The elements of `s` whose key is not `k`, in order (`filter(x => x.id !== k)`). */
  function Without<T>(s: seq<T>, k: string, key: T -> string): (r: seq<T>)
    ensures |r| <= |s|
    ensures Keys(r, key) == Keys(s, key) - {k}
    decreases |s|
  {
    if s == [] then []
    else
      var init, x := s[..|s| - 1], s[|s| - 1];
      assert s == init + [x];
      KeysSnoc(init, x, key);
      var p := Without(init, k, key);
      if key(x) == k then p
      else
        KeysSnoc(p, x, key);
        p + [x]
  }

  /** Removing a key keeps the remaining keys distinct. */
  lemma {:induction false} WithoutDistinct<T>(s: seq<T>, k: string, key: T -> string)
    requires DistinctKeys(s, key)
    ensures DistinctKeys(Without(s, k, key), key)
    decreases |s|
  {
    if s != [] {
      var init, x := s[..|s| - 1], s[|s| - 1];
      assert s == init + [x];
      DistinctSnoc(init, x, key);
      WithoutDistinct(init, k, key);
      DistinctSnoc(Without(init, k, key), x, key);
    }
  }

  /** Removing an absent key changes nothing. */
  lemma {:induction false} WithoutAbsent<T>(s: seq<T>, k: string, key: T -> string)
    requires k !in Keys(s, key)
    ensures Without(s, k, key) == s
    decreases |s|
  {
    if s != [] {
      var init, x := s[..|s| - 1], s[|s| - 1];
      assert s == init + [x];
      KeysSnoc(init, x, key);
      WithoutAbsent(init, k, key);
    }
  }

  /** With distinct keys, removing a present key removes exactly one element. */
  lemma {:induction false} WithoutOne<T>(s: seq<T>, k: string, key: T -> string)
    requires DistinctKeys(s, key) && k in Keys(s, key)
    ensures |Without(s, k, key)| == |s| - 1
    decreases |s|
  {
    var init, x := s[..|s| - 1], s[|s| - 1];
    assert s == init + [x];
    KeysSnoc(init, x, key);
    DistinctSnoc(init, x, key);
    if key(x) == k {
      WithoutAbsent(init, k, key);
    } else {
      WithoutOne(init, k, key);
    }
  }

  /** Whatever holds of every element of `s` holds of every element that removal keeps. */
  lemma {:induction false} WithoutKeeps<T>(s: seq<T>, k: string, key: T -> string, p: T -> bool)
    requires forall i :: 0 <= i < |s| ==> p(s[i])
    ensures forall j :: 0 <= j < |Without(s, k, key)| ==> p(Without(s, k, key)[j])
    decreases |s|
  {
    if s != [] {
      WithoutKeeps(s[..|s| - 1], k, key, p);
    }
  }

  /**
   * Putting `x` in front and de-duplicating keeps `x` first and drops every later element
   * with its key: the new element replaces an old one with the same key.
   */
  lemma {:induction false} KeepFirstCons<T>(x: T, s: seq<T>, key: T -> string)
    ensures KeepFirst([x] + s, key) == [x] + KeepFirst(Without(s, key(x), key), key)
    decreases |s|
  {
    if s == [] {
      assert [x] + s == [] + [x];
    } else {
      var init, y := s[..|s| - 1], s[|s| - 1];
      assert s == init + [y];
      KeepFirstCons(x, init, key);
      KeepFirstConsStep(x, init, y, key);
    }
  }

  /** The inductive step of `KeepFirstCons`: appending `y` to the tail. */
  lemma KeepFirstConsStep<T>(x: T, init: seq<T>, y: T, key: T -> string)
    requires KeepFirst([x] + init, key) == [x] + KeepFirst(Without(init, key(x), key), key)
    ensures KeepFirst([x] + (init + [y]), key) == [x] + KeepFirst(Without(init + [y], key(x), key), key)
  {
    if key(y) == key(x) {
      ConsStepSameKey(x, init, y, key);
    } else if key(y) in Keys(KeepFirst(Without(init, key(x), key), key), key) {
      ConsStepSeenKey(x, init, y, key);
    } else {
      ConsStepNewKey(x, init, y, key);
    }
  }

  /** `y` has the key of the new front element `x`: both sides drop it. */
  lemma ConsStepSameKey<T>(x: T, init: seq<T>, y: T, key: T -> string)
    requires key(y) == key(x)
    requires KeepFirst([x] + init, key) == [x] + KeepFirst(Without(init, key(x), key), key)
    ensures KeepFirst([x] + (init + [y]), key) == [x] + KeepFirst(Without(init + [y], key(x), key), key)
  {
    var a := [x] + init;
    ConsSnoc(x, init, y);
    var kw := KeepFirst(Without(init, key(x), key), key);
    assert key(y) in Keys(KeepFirst(a, key), key) by {
      KeysCons(x, kw, key);
    }
    assert KeepFirst(a + [y], key) == [x] + kw by {
      KeepFirstSnoc(a, y, key);
    }
    assert Without(init + [y], key(x), key) == Without(init, key(x), key) by {
      WithoutSnoc(init, y, key(x), key);
    }
  }

  /** `y` repeats a key already kept from the tail: both sides drop it. */
  lemma ConsStepSeenKey<T>(x: T, init: seq<T>, y: T, key: T -> string)
    requires key(y) != key(x) && key(y) in Keys(KeepFirst(Without(init, key(x), key), key), key)
    requires KeepFirst([x] + init, key) == [x] + KeepFirst(Without(init, key(x), key), key)
    ensures KeepFirst([x] + (init + [y]), key) == [x] + KeepFirst(Without(init + [y], key(x), key), key)
  {
    var a := [x] + init;
    ConsSnoc(x, init, y);
    var w := Without(init, key(x), key);
    var kw := KeepFirst(w, key);
    assert key(y) in Keys(KeepFirst(a, key), key) by {
      KeysCons(x, kw, key);
    }
    assert KeepFirst(a + [y], key) == [x] + kw by {
      KeepFirstSnoc(a, y, key);
    }
    assert Without(init + [y], key(x), key) == w + [y] by {
      WithoutSnoc(init, y, key(x), key);
    }
    assert KeepFirst(w + [y], key) == kw by {
      KeepFirstSnoc(w, y, key);
    }
  }

  /** `y` brings a key not seen before: both sides keep it at the end. */
  lemma ConsStepNewKey<T>(x: T, init: seq<T>, y: T, key: T -> string)
    requires key(y) != key(x) && key(y) !in Keys(KeepFirst(Without(init, key(x), key), key), key)
    requires KeepFirst([x] + init, key) == [x] + KeepFirst(Without(init, key(x), key), key)
    ensures KeepFirst([x] + (init + [y]), key) == [x] + KeepFirst(Without(init + [y], key(x), key), key)
  {
    var a := [x] + init;
    ConsSnoc(x, init, y);
    var w := Without(init, key(x), key);
    var kw := KeepFirst(w, key);
    assert key(y) !in Keys(KeepFirst(a, key), key) by {
      KeysCons(x, kw, key);
    }
    assert KeepFirst(a + [y], key) == ([x] + kw) + [y] by {
      KeepFirstSnoc(a, y, key);
    }
    assert Without(init + [y], key(x), key) == w + [y] by {
      WithoutSnoc(init, y, key(x), key);
    }
    assert KeepFirst(w + [y], key) == kw + [y] by {
      KeepFirstSnoc(w, y, key);
    }
    ConsSnoc(x, kw, y);
  }

  lemma ConsSnoc<T>(x: T, s: seq<T>, y: T)
    ensures ([x] + s) + [y] == [x] + (s + [y])
  {
  }

  lemma KeepFirstSnoc<T>(p: seq<T>, y: T, key: T -> string)
    ensures KeepFirst(p + [y], key) ==
      if key(y) in Keys(KeepFirst(p, key), key) then KeepFirst(p, key) else KeepFirst(p, key) + [y]
  {
    var s := p + [y];
    assert s[..|s| - 1] == p && s[|s| - 1] == y;
  }

  lemma WithoutSnoc<T>(p: seq<T>, y: T, k: string, key: T -> string)
    ensures Without(p + [y], k, key) == if key(y) == k then Without(p, k, key) else Without(p, k, key) + [y]
  {
    var s := p + [y];
    assert s[..|s| - 1] == p && s[|s| - 1] == y;
  }

  // ----- averages -----

  /** The value of `f` that an ad defines, if any; an ad without metrics defines none. */
  function MetricOf(ad: Ad, f: Field): Option<real> {
    if ad.metrics.None? then None else Get(ad.metrics.value, f)
  }

  /** The sum of the values of `f` over the ads that define it (`totals`). */
  function Total(ads: seq<Ad>, f: Field): real
    decreases |ads|
  {
    if ads == [] then 0.0 else Total(ads[..|ads| - 1], f) + MetricOf(ads[|ads| - 1], f).GetOr(0.0)
  }

  /** The number of ads that define `f` (`counts`). */
  function Count(ads: seq<Ad>, f: Field): nat
    decreases |ads|
  {
    if ads == [] then 0 else Count(ads[..|ads| - 1], f) + (if MetricOf(ads[|ads| - 1], f).Some? then 1 else 0)
  }

  /** `Math.round(x * 10) / 10`. */
  function RoundToTenth(x: real): real {
    JsNumbers.Round(x * 10.0) as real / 10.0
  }

  /** `Math.round(x)`. */
  function RoundToUnit(x: real): real {
    JsNumbers.Round(x) as real
  }

  /** One insight field: the rounded mean over the ads that define `f`, undefined when none does. */
  function FieldAverage(ads: seq<Ad>, f: Field): Option<real> {
    var n := Count(ads, f);
    if n == 0 then None
    else
      var mean := Total(ads, f) / n as real;
      Some(if f == Engagement then RoundToUnit(mean) else RoundToTenth(mean))
  }

  /** The insights `computeCampaignAverages` derives from a list of ads. */
  function Averages(ads: seq<Ad>): Option<Metrics> {
    if ads == [] then None
    else Some(Metrics(
      FieldAverage(ads, Quality), FieldAverage(ads, Hostility),
      FieldAverage(ads, Engagement), FieldAverage(ads, Resonance)))
  }

  /** The campaign with its insights recomputed from its ads. */
  function WithAverages(c: Campaign): Campaign {
    c.(insights := Averages(c.ads))
  }

  /** No ad defines `f` exactly when none is counted. */
  lemma {:induction false} CountZeroIff(ads: seq<Ad>, f: Field)
    ensures Count(ads, f) == 0 <==> forall i :: 0 <= i < |ads| ==> MetricOf(ads[i], f).None?
    decreases |ads|
  {
    if ads != [] {
      var init := ads[..|ads| - 1];
      CountZeroIff(init, f);
      assert forall i :: 0 <= i < |init| ==> ads[i] == init[i];
    }
  }

  /**
   * Insights are undefined exactly for an empty ad list; otherwise each field is undefined
   * exactly when no ad defines that metric.
   */
  lemma AveragesDefinedness(ads: seq<Ad>, f: Field)
    ensures Averages(ads).None? <==> ads == []
    ensures ads != [] ==>
      (Get(Averages(ads).value, f).None? <==> forall i :: 0 <= i < |ads| ==> MetricOf(ads[i], f).None?)
  {
    CountZeroIff(ads, f);
  }

  /** A non-empty list of ads without any metrics gets insights whose fields are all undefined. */
  lemma AveragesWithoutMetrics(ads: seq<Ad>)
    requires ads != []
    requires forall i :: 0 <= i < |ads| ==> ads[i].metrics.None?
    ensures Averages(ads) == Some(Metrics(None, None, None, None))
  {
    CountZeroIff(ads, Quality);
    CountZeroIff(ads, Hostility);
    CountZeroIff(ads, Engagement);
    CountZeroIff(ads, Resonance);
  }

  /** The defined values of `f` lie in `[lo, hi]`. */
  predicate ValuesWithin(ads: seq<Ad>, f: Field, lo: real, hi: real) {
    forall i :: 0 <= i < |ads| && MetricOf(ads[i], f).Some? ==> lo <= MetricOf(ads[i], f).value <= hi
  }

  /** `n` copies of `x` added up. */
  function Times(n: nat, x: real): real {
    if n == 0 then 0.0 else Times(n - 1, x) + x
  }

  lemma {:induction false} TimesIsProduct(n: nat, x: real)
    ensures Times(n, x) == n as real * x
  {
    if n > 0 {
      TimesIsProduct(n - 1, x);
      assert (n - 1) as real * x + x == n as real * x;
    }
  }

  /** The total of the defined values lies between `Count` copies of `lo` and of `hi`. */
  lemma {:induction false} TotalWithin(ads: seq<Ad>, f: Field, lo: real, hi: real)
    requires ValuesWithin(ads, f, lo, hi)
    ensures Times(Count(ads, f), lo) <= Total(ads, f) <= Times(Count(ads, f), hi)
    decreases |ads|
  {
    if ads != [] {
      var init := ads[..|ads| - 1];
      assert forall i :: 0 <= i < |init| ==> ads[i] == init[i];
      TotalWithin(init, f, lo, hi);
    }
  }

  lemma MeanWithin(total: real, n: real, lo: real, hi: real)
    requires n > 0.0 && lo * n <= total <= hi * n
    ensures lo <= total / n <= hi
  {
    assert (total / n) * n == total;
  }

  /** Rounding to a tenth or to a unit keeps a value between two integers. */
  lemma RoundingWithin(x: real, lo: int, hi: int)
    requires lo as real <= x <= hi as real
    ensures lo as real <= RoundToTenth(x) <= hi as real
    ensures lo as real <= RoundToUnit(x) <= hi as real
  {
    assert (lo * 10) as real == lo as real * 10.0;
    assert (hi * 10) as real == hi as real * 10.0;
    JsNumbers.RoundMonotone((lo * 10) as real, x * 10.0);
    JsNumbers.RoundMonotone(x * 10.0, (hi * 10) as real);
    JsNumbers.RoundInteger(lo * 10);
    JsNumbers.RoundInteger(hi * 10);
    JsNumbers.RoundMonotone(lo as real, x);
    JsNumbers.RoundMonotone(x, hi as real);
    JsNumbers.RoundInteger(lo);
    JsNumbers.RoundInteger(hi);
  }

  /**
   * Averaging cannot leave the range of the values averaged: when every defined value of `f`
   * lies between the integers `lo` and `hi`, so does the insight.
   */
  lemma FieldAverageWithin(ads: seq<Ad>, f: Field, lo: int, hi: int)
    requires ValuesWithin(ads, f, lo as real, hi as real)
    ensures FieldAverage(ads, f).Some? ==> lo as real <= FieldAverage(ads, f).value <= hi as real
  {
    var n := Count(ads, f);
    if n > 0 {
      TotalWithin(ads, f, lo as real, hi as real);
      RoundedMeanWithin(Total(ads, f), n, lo, hi);
    }
  }

  lemma RoundedMeanWithin(t: real, n: nat, lo: int, hi: int)
    requires n > 0 && Times(n, lo as real) <= t <= Times(n, hi as real)
    ensures lo as real <= RoundToTenth(t / n as real) <= hi as real
    ensures lo as real <= RoundToUnit(t / n as real) <= hi as real
  {
    TimesIsProduct(n, lo as real);
    TimesIsProduct(n, hi as real);
    MeanWithin(t, n as real, lo as real, hi as real);
    RoundingWithin(t / n as real, lo, hi);
  }

  /** Insights read only the ads' metrics: renaming or otherwise editing ads leaves them alone. */
  lemma {:induction false} AveragesReadOnlyMetrics(a: seq<Ad>, b: seq<Ad>)
    requires |a| == |b|
    requires forall i :: 0 <= i < |a| ==> a[i].metrics == b[i].metrics
    ensures Averages(a) == Averages(b)
  {
    forall f: Field ensures Total(a, f) == Total(b, f) && Count(a, f) == Count(b, f) {
      TotalCountReadOnlyMetrics(a, b, f);
    }
  }

  lemma {:induction false} TotalCountReadOnlyMetrics(a: seq<Ad>, b: seq<Ad>, f: Field)
    requires |a| == |b|
    requires forall i :: 0 <= i < |a| ==> a[i].metrics == b[i].metrics
    ensures Total(a, f) == Total(b, f) && Count(a, f) == Count(b, f)
    decreases |a|
  {
    if a != [] {
      TotalCountReadOnlyMetrics(a[..|a| - 1], b[..|b| - 1], f);
    }
  }

  /**
   * `computeCampaignAverages`: one pass over the ads accumulating per-field totals and counts,
   * then the rounded means. Only `insights` changes.
   */
  method ComputeCampaignAverages(c: Campaign) returns (r: Campaign)
    ensures r == WithAverages(c)
  {
    var ads := c.ads;
    if |ads| == 0 {
      return c.(insights := None);
    }
    var tq, th, te, tr := 0.0, 0.0, 0.0, 0.0;
    var cq, ch, ce, cr := 0, 0, 0, 0;
    var i := 0;
    while i < |ads|
      invariant 0 <= i <= |ads|
      invariant tq == Total(ads[..i], Quality) && cq == Count(ads[..i], Quality)
      invariant th == Total(ads[..i], Hostility) && ch == Count(ads[..i], Hostility)
      invariant te == Total(ads[..i], Engagement) && ce == Count(ads[..i], Engagement)
      invariant tr == Total(ads[..i], Resonance) && cr == Count(ads[..i], Resonance)
    {
      var ad := ads[i];
      TotalCountStep(ads, i, Quality);
      TotalCountStep(ads, i, Hostility);
      TotalCountStep(ads, i, Engagement);
      TotalCountStep(ads, i, Resonance);
      if ad.metrics.Some? {
        var m := ad.metrics.value;
        if m.quality.Some? {
          tq, cq := tq + m.quality.value, cq + 1;
        }
        if m.hostility.Some? {
          th, ch := th + m.hostility.value, ch + 1;
        }
        if m.engagement.Some? {
          te, ce := te + m.engagement.value, ce + 1;
        }
        if m.resonance.Some? {
          tr, cr := tr + m.resonance.value, cr + 1;
        }
      }
      i := i + 1;
    }
    assert ads[..i] == ads;
    var insights := Metrics(
      if cq != 0 then Some(RoundToTenth(tq / cq as real)) else None,
      if ch != 0 then Some(RoundToTenth(th / ch as real)) else None,
      if ce != 0 then Some(RoundToUnit(te / ce as real)) else None,
      if cr != 0 then Some(RoundToTenth(tr / cr as real)) else None);
    r := c.(insights := Some(insights));
  }

  /** One more ad adds its value of `f`, if any, to the running total and count. */
  lemma TotalCountStep(ads: seq<Ad>, i: nat, f: Field)
    requires i < |ads|
    ensures Total(ads[..i + 1], f) == Total(ads[..i], f) + MetricOf(ads[i], f).GetOr(0.0)
    ensures Count(ads[..i + 1], f) == Count(ads[..i], f) + (if MetricOf(ads[i], f).Some? then 1 else 0)
  {
    assert ads[..i + 1][..i] == ads[..i];
  }

  /** `dedupeAds`: keeps the first ad of each id, in order. */
  method DedupeAds(list: seq<Ad>) returns (unique: seq<Ad>)
    ensures unique == KeepFirst(list, AdId)
  {
    var seen: set<string> := {};
    unique := [];
    var i := 0;
    while i < |list|
      invariant 0 <= i <= |list|
      invariant unique == KeepFirst(list[..i], AdId)
      invariant seen == Keys(unique, AdId)
    {
      var ad := list[i];
      assert list[..i + 1][..i] == list[..i];
      if ad.id !in seen {
        seen := seen + {ad.id};
        KeysSnoc(unique, ad, AdId);
        unique := unique + [ad];
      }
      i := i + 1;
    }
    assert list[..i] == list;
  }

  /** Every kept campaign with its own ads de-duplicated. */
  function DedupeEachAds(cs: seq<Campaign>): (r: seq<Campaign>)
    ensures |r| == |cs|
  {
    seq(|cs|, i requires 0 <= i < |cs| => cs[i].(ads := KeepFirst(cs[i].ads, AdId)))
  }

  /** What `dedupeCampaigns` returns. */
  function DedupeCampaignList(list: seq<Campaign>): seq<Campaign> {
    DedupeEachAds(KeepFirst(list, CampaignId))
  }

  /** `dedupeCampaigns`: keeps the first campaign of each id, in order, and de-duplicates its ads. */
  method DedupeCampaigns(list: seq<Campaign>) returns (unique: seq<Campaign>)
    ensures unique == DedupeCampaignList(list)
  {
    var seen: set<string> := {};
    unique := [];
    var i := 0;
    while i < |list|
      invariant 0 <= i <= |list|
      invariant unique == DedupeEachAds(KeepFirst(list[..i], CampaignId))
      invariant seen == Keys(KeepFirst(list[..i], CampaignId), CampaignId)
    {
      var campaign := list[i];
      assert list[..i + 1][..i] == list[..i];
      if campaign.id !in seen {
        var kept := KeepFirst(list[..i], CampaignId);
        seen := seen + {campaign.id};
        KeysSnoc(kept, campaign, CampaignId);
        var dedupedAds := DedupeAds(campaign.ads);
        unique := unique + [campaign.(ads := dedupedAds)];
        assert unique == DedupeEachAds(kept + [campaign]);
      }
      i := i + 1;
    }
    assert list[..i] == list;
  }

  /** De-duplicating the campaigns keeps their ids distinct. */
  lemma DedupeCampaignListDistinct(list: seq<Campaign>)
    ensures DistinctKeys(DedupeCampaignList(list), CampaignId)
  {
    var kept := KeepFirst(list, CampaignId);
    assert forall i :: 0 <= i < |kept| ==> DedupeCampaignList(list)[i].id == kept[i].id;
  }

  // ----- the store invariant -----

  /** A campaign's ads have distinct ids and its insights agree with them. */
  predicate CampaignConsistent(c: Campaign) {
    DistinctKeys(c.ads, AdId) && c.insights == Averages(c.ads)
  }

  /** Campaign ids are distinct and every campaign is consistent. */
  predicate StoreInvariant(list: seq<Campaign>) {
    DistinctKeys(list, CampaignId) && forall i :: 0 <= i < |list| ==> CampaignConsistent(list[i])
  }

  /** The two campaigns agree on everything but `ads` and `insights`. */
  predicate SameApartFromAds(a: Campaign, b: Campaign) {
    a.(ads := [], insights := None) == b.(ads := [], insights := None)
  }

  // ----- store operations -----

  /** The name comparison of `addCampaign`: trimmed and lower-cased. */
  function NameKey(name: string): string {
    AsciiLower(JsTrim(name))
  }

  /** An existing entry blocks adding `c`: same id, or same name up to trimming and case. */
  predicate Clashes(entry: Campaign, c: Campaign) {
    entry.id == c.id || NameKey(entry.name) == NameKey(c.name)
  }

  /** The list after `addCampaign(c)`. */
  function AfterAddCampaign(prev: seq<Campaign>, c: Campaign): seq<Campaign> {
    if exists i :: 0 <= i < |prev| && Clashes(prev[i], c) then prev
    else DedupeCampaignList([WithAverages(c)] + prev)
  }

  /** The list after `addAd(campaignId, ad)`. */
  function AfterAddAd(prev: seq<Campaign>, campaignId: string, ad: Ad): (r: seq<Campaign>)
    ensures |r| == |prev|
  {
    seq(|prev|, i requires 0 <= i < |prev| =>
      if prev[i].id != campaignId then prev[i]
      else WithAverages(prev[i].(ads := KeepFirst([ad] + prev[i].ads, AdId))))
  }

  /** The list after `deleteAd(campaignId, adId)`. */
  function AfterDeleteAd(prev: seq<Campaign>, campaignId: string, adId: string): (r: seq<Campaign>)
    ensures |r| == |prev|
  {
    seq(|prev|, i requires 0 <= i < |prev| =>
      if prev[i].id != campaignId then prev[i]
      else WithAverages(prev[i].(ads := Without(prev[i].ads, adId, AdId))))
  }

  /** A field of the `metrics` argument of `updateAdMetrics`: absent, or present (possibly `undefined`). */
  datatype Slot = Absent | Present(value: Option<real>)

  datatype MetricsPatch = MetricsPatch(quality: Slot, hostility: Slot, engagement: Slot, resonance: Slot)

  function SlotOf(p: MetricsPatch, f: Field): Slot {
    match f
    case Quality => p.quality
    case Hostility => p.hostility
    case Engagement => p.engagement
    case Resonance => p.resonance
  }

  /** `{ ...old, ...patch }`: a field present in the patch wins, the others keep their old value. */
  function Merge(prior: Option<Metrics>, p: MetricsPatch): (m: Metrics)
    ensures forall f: Field :: SlotOf(p, f).Present? ==> Get(m, f) == SlotOf(p, f).value
    ensures forall f: Field :: SlotOf(p, f).Absent? ==> Get(m, f) == (if prior.Some? then Get(prior.value, f) else None)
  {
    var o := if prior.Some? then prior.value else Metrics(None, None, None, None);
    Metrics(
      if p.quality.Present? then p.quality.value else o.quality,
      if p.hostility.Present? then p.hostility.value else o.hostility,
      if p.engagement.Present? then p.engagement.value else o.engagement,
      if p.resonance.Present? then p.resonance.value else o.resonance)
  }

  function UpdateMetricsIn(ads: seq<Ad>, adId: string, p: MetricsPatch): (r: seq<Ad>)
    ensures |r| == |ads|
  {
    seq(|ads|, j requires 0 <= j < |ads| =>
      if ads[j].id == adId then ads[j].(metrics := Some(Merge(ads[j].metrics, p))) else ads[j])
  }

  /** The list after `updateAdMetrics(campaignId, adId, metrics)`. */
  function AfterUpdateAdMetrics(prev: seq<Campaign>, campaignId: string, adId: string, p: MetricsPatch): (r: seq<Campaign>)
    ensures |r| == |prev|
  {
    seq(|prev|, i requires 0 <= i < |prev| =>
      if prev[i].id != campaignId then prev[i]
      else WithAverages(prev[i].(ads := UpdateMetricsIn(prev[i].ads, adId, p))))
  }

  function RenameIn(ads: seq<Ad>, adId: string, newName: string): (r: seq<Ad>)
    ensures |r| == |ads|
  {
    seq(|ads|, j requires 0 <= j < |ads| =>
      if ads[j].id == adId then ads[j].(fileName := Some(newName)) else ads[j])
  }

  /** The list after `renameAd(campaignId, adId, newName)`. */
  function AfterRenameAd(prev: seq<Campaign>, campaignId: string, adId: string, newName: string): (r: seq<Campaign>)
    ensures |r| == |prev|
  {
    seq(|prev|, i requires 0 <= i < |prev| =>
      if prev[i].id != campaignId then prev[i]
      else WithAverages(prev[i].(ads := RenameIn(prev[i].ads, adId, newName))))
  }

  /** The list after `deleteCampaign(campaignId)`. */
  function AfterDeleteCampaign(prev: seq<Campaign>, campaignId: string): seq<Campaign> {
    Without(prev, campaignId, CampaignId)
  }

  /** The list after `setCampaignList(list)`: averages computed, then de-duplicated. */
  function AfterSetCampaignList(list: seq<Campaign>): seq<Campaign> {
    DedupeCampaignList(seq(|list|, i requires 0 <= i < |list| => WithAverages(list[i])))
  }

  /** `getCampaignById`: the first campaign with that id. */
  function CampaignById(list: seq<Campaign>, campaignId: string): (r: Option<Campaign>)
    ensures r.Some? <==> campaignId in Keys(list, CampaignId)
    ensures r.Some? ==> r.value.id == campaignId
    ensures r.Some? ==> exists i :: 0 <= i < |list| && list[i] == r.value && IsFirstOfKey(list, CampaignId, i)
    decreases |list|
  {
    if list == [] then None
    else if list[0].id == campaignId then Some(list[0])
    else
      var r := CampaignById(list[1..], campaignId);
      KeysCons(list[0], list[1..], CampaignId);
      assert list == [list[0]] + list[1..];
      if r.Some? then
        var i :| 0 <= i < |list| - 1 && list[1..][i] == r.value && IsFirstOfKey(list[1..], CampaignId, i);
        FirstOfKeyBehind(list, CampaignId, i);
        r
      else r
  }

  /** A first occurrence in the tail stays first when the head has another key. */
  lemma FirstOfKeyBehind<T>(s: seq<T>, key: T -> string, i: nat)
    requires i + 1 < |s| && IsFirstOfKey(s[1..], key, i) && key(s[0]) != key(s[i + 1])
    ensures s[i + 1] == s[1..][i] && IsFirstOfKey(s, key, i + 1)
  {
    forall k | 0 <= k < i + 1 ensures key(s[k]) != key(s[i + 1]) {
      if k > 0 {
        assert s[k] == s[1..][k - 1];
      }
    }
  }

  /** `getCampaignAds`: the ads of that campaign, or none. */
  function CampaignAds(list: seq<Campaign>, campaignId: string): (r: seq<Ad>)
    ensures campaignId !in Keys(list, CampaignId) ==> r == []
    ensures campaignId in Keys(list, CampaignId) ==> r == CampaignById(list, campaignId).value.ads
  {
    match CampaignById(list, campaignId)
    case Some(c) => c.ads
    case None => []
  }

  // ----- properties of the store operations -----

  /** An ad with only the given metrics, for the examples below. */
  function SampleAd(id: string, m: Metrics): Ad {
    Ad(id, "c1", "2025-01-01", "blob:" + id, None, None, None, None, Some(m))
  }

  /**
   * Two ads with quality 8 and 6, hostility 2 and 4, and engagement 50 on the second only
   * average to quality 7.0, hostility 3.0, engagement 50 and no resonance.
   */
  lemma AveragesExample()
    ensures Averages([SampleAd("a1", Metrics(Some(8.0), Some(2.0), None, None)),
                      SampleAd("a2", Metrics(Some(6.0), Some(4.0), Some(50.0), None))])
      == Some(Metrics(Some(7.0), Some(3.0), Some(50.0), None))
  {
    var a1 := SampleAd("a1", Metrics(Some(8.0), Some(2.0), None, None));
    var a2 := SampleAd("a2", Metrics(Some(6.0), Some(4.0), Some(50.0), None));
    var ads := [a1, a2];
    assert ads[..1] == [a1];
    assert [a1][..0] == [];
    assert Total([a1], Quality) == 8.0 && Count([a1], Quality) == 1;
    assert Total([a1], Hostility) == 2.0 && Count([a1], Hostility) == 1;
    assert Total([a1], Engagement) == 0.0 && Count([a1], Engagement) == 0;
    assert Count([a1], Resonance) == 0;
    assert Total(ads, Quality) == 14.0 && Count(ads, Quality) == 2;
    assert Total(ads, Hostility) == 6.0 && Count(ads, Hostility) == 2;
    assert Total(ads, Engagement) == 50.0 && Count(ads, Engagement) == 1;
    assert Count(ads, Resonance) == 0;
    JsNumbers.RoundInteger(70);
    JsNumbers.RoundInteger(30);
    JsNumbers.RoundInteger(50);
  }

  /** Ids are the same at every position. */
  predicate SameIds(a: seq<Campaign>, b: seq<Campaign>) {
    |a| == |b| && forall i :: 0 <= i < |a| ==> a[i].id == b[i].id
  }

  lemma SameIdsDistinct(a: seq<Campaign>, b: seq<Campaign>)
    requires SameIds(a, b) && DistinctKeys(a, CampaignId)
    ensures DistinctKeys(b, CampaignId)
  {
    forall i, j | 0 <= i < j < |b| ensures b[i].id != b[j].id {
      assert a[i].id != a[j].id;
    }
  }

  /** Every campaign's ads unchanged when they are already duplicate-free. */
  lemma DedupeEachAdsOfDistinct(cs: seq<Campaign>)
    requires forall i :: 0 <= i < |cs| ==> DistinctKeys(cs[i].ads, AdId)
    ensures DedupeEachAds(cs) == cs
  {
    forall i | 0 <= i < |cs| ensures DedupeEachAds(cs)[i] == cs[i] {
      KeepFirstOfDistinct(cs[i].ads, AdId);
    }
  }

  /**
   * `addCampaign`: a clash by id or by trimmed, lower-cased name leaves the list as it was;
   * otherwise the campaign, with its averages, becomes the first entry and nothing else moves.
   * Either way the store invariant is kept, given a duplicate-free ad list.
   */
  lemma AddCampaignEffect(prev: seq<Campaign>, c: Campaign)
    requires StoreInvariant(prev) && DistinctKeys(c.ads, AdId)
    ensures (exists i :: 0 <= i < |prev| && Clashes(prev[i], c)) ==> AfterAddCampaign(prev, c) == prev
    ensures (forall i :: 0 <= i < |prev| ==> !Clashes(prev[i], c)) ==>
      AfterAddCampaign(prev, c) == [WithAverages(c)] + prev
    ensures StoreInvariant(AfterAddCampaign(prev, c))
  {
    if forall i :: 0 <= i < |prev| ==> !Clashes(prev[i], c) {
      PrependFresh(prev, WithAverages(c));
    }
  }

  /** A consistent campaign with a fresh id put in front of a valid store is kept by de-duplication. */
  lemma PrependFresh(prev: seq<Campaign>, w: Campaign)
    requires StoreInvariant(prev) && CampaignConsistent(w)
    requires forall i :: 0 <= i < |prev| ==> prev[i].id != w.id
    ensures DedupeCampaignList([w] + prev) == [w] + prev
    ensures StoreInvariant([w] + prev)
  {
    var xs := [w] + prev;
    forall i, j | 0 <= i < j < |xs| ensures xs[i].id != xs[j].id {
      assert xs[j] == prev[j - 1];
      if i > 0 {
        assert xs[i] == prev[i - 1];
      }
    }
    KeepFirstOfDistinct(xs, CampaignId);
    forall i | 0 <= i < |xs| ensures CampaignConsistent(xs[i]) {
      if i > 0 {
        assert xs[i] == prev[i - 1];
      }
    }
    DedupeEachAdsOfDistinct(xs);
  }

  /**
   * `addAd`: the new ad becomes the first ad of the target campaign and replaces any earlier ad
   * with its id; the target's other fields stay, its insights are recomputed, every other
   * campaign is untouched, and an unknown campaign id changes nothing.
   */
  lemma AddAdEffect(prev: seq<Campaign>, campaignId: string, ad: Ad)
    ensures campaignId !in Keys(prev, CampaignId) ==> AfterAddAd(prev, campaignId, ad) == prev
    ensures forall i :: 0 <= i < |prev| && prev[i].id != campaignId ==> AfterAddAd(prev, campaignId, ad)[i] == prev[i]
    ensures forall i :: 0 <= i < |prev| && prev[i].id == campaignId && DistinctKeys(prev[i].ads, AdId) ==>
      var c := AfterAddAd(prev, campaignId, ad)[i];
      c.ads == [ad] + Without(prev[i].ads, ad.id, AdId) && CampaignConsistent(c) && SameApartFromAds(c, prev[i])
    ensures StoreInvariant(prev) ==> StoreInvariant(AfterAddAd(prev, campaignId, ad))
  {
    var r := AfterAddAd(prev, campaignId, ad);
    forall i | 0 <= i < |prev| && prev[i].id == campaignId && DistinctKeys(prev[i].ads, AdId)
      ensures r[i].ads == [ad] + Without(prev[i].ads, ad.id, AdId)
    {
      KeepFirstCons(ad, prev[i].ads, AdId);
      WithoutDistinct(prev[i].ads, ad.id, AdId);
      KeepFirstOfDistinct(Without(prev[i].ads, ad.id, AdId), AdId);
    }
    if StoreInvariant(prev) {
      assert SameIds(prev, r);
      SameIdsDistinct(prev, r);
    }
  }

  /**
   * `deleteAd`: the target campaign keeps, in order, exactly its ads with another id (one fewer
   * when the id was present once) and gets fresh insights; every other campaign is untouched.
   */
  lemma DeleteAdEffect(prev: seq<Campaign>, campaignId: string, adId: string)
    ensures forall i :: 0 <= i < |prev| && prev[i].id != campaignId ==> AfterDeleteAd(prev, campaignId, adId)[i] == prev[i]
    ensures forall i :: 0 <= i < |prev| && prev[i].id == campaignId ==>
      var c := AfterDeleteAd(prev, campaignId, adId)[i];
      c.ads == Without(prev[i].ads, adId, AdId) && adId !in Keys(c.ads, AdId) &&
      c.insights == Averages(c.ads) && SameApartFromAds(c, prev[i])
    ensures forall i ::
      (0 <= i < |prev| && prev[i].id == campaignId && DistinctKeys(prev[i].ads, AdId) && adId in Keys(prev[i].ads, AdId)) ==>
      |AfterDeleteAd(prev, campaignId, adId)[i].ads| == |prev[i].ads| - 1
    ensures StoreInvariant(prev) ==> StoreInvariant(AfterDeleteAd(prev, campaignId, adId))
  {
    var r := AfterDeleteAd(prev, campaignId, adId);
    forall i | 0 <= i < |prev| && prev[i].id == campaignId && DistinctKeys(prev[i].ads, AdId)
      ensures DistinctKeys(r[i].ads, AdId)
      ensures adId in Keys(prev[i].ads, AdId) ==> |r[i].ads| == |prev[i].ads| - 1
    {
      WithoutDistinct(prev[i].ads, adId, AdId);
      if adId in Keys(prev[i].ads, AdId) {
        WithoutOne(prev[i].ads, adId, AdId);
      }
    }
    if StoreInvariant(prev) {
      assert SameIds(prev, r);
      SameIdsDistinct(prev, r);
    }
  }

  /**
   * `updateAdMetrics`: the target's ads keep their number, order and ids; the matching ads get
   * the patch merged over their metrics (see `Merge`), the others are unchanged; insights are
   * recomputed and every other campaign is untouched.
   */
  lemma UpdateAdMetricsEffect(prev: seq<Campaign>, campaignId: string, adId: string, p: MetricsPatch)
    ensures forall i :: 0 <= i < |prev| && prev[i].id != campaignId ==>
      AfterUpdateAdMetrics(prev, campaignId, adId, p)[i] == prev[i]
    ensures forall i :: 0 <= i < |prev| && prev[i].id == campaignId ==>
      var c := AfterUpdateAdMetrics(prev, campaignId, adId, p)[i];
      |c.ads| == |prev[i].ads| && c.insights == Averages(c.ads) && SameApartFromAds(c, prev[i]) &&
      forall j :: 0 <= j < |c.ads| ==>
        c.ads[j].id == prev[i].ads[j].id &&
        (prev[i].ads[j].id != adId ==> c.ads[j] == prev[i].ads[j]) &&
        (prev[i].ads[j].id == adId ==> c.ads[j] == prev[i].ads[j].(metrics := Some(Merge(prev[i].ads[j].metrics, p))))
    ensures StoreInvariant(prev) ==> StoreInvariant(AfterUpdateAdMetrics(prev, campaignId, adId, p))
  {
    var r := AfterUpdateAdMetrics(prev, campaignId, adId, p);
    if StoreInvariant(prev) {
      forall i | 0 <= i < |prev| ensures CampaignConsistent(r[i]) {
        if prev[i].id == campaignId {
          var a, b := prev[i].ads, r[i].ads;
          forall j, k | 0 <= j < k < |b| ensures b[j].id != b[k].id {
            assert a[j].id != a[k].id;
          }
        }
      }
      assert SameIds(prev, r);
      SameIdsDistinct(prev, r);
    }
  }

  /**
   * `renameAd`: only `fileName` of the matching ads changes, number and order of ads are kept,
   * and the recomputed insights equal the previous ones when those were consistent.
   */
  lemma RenameAdEffect(prev: seq<Campaign>, campaignId: string, adId: string, newName: string)
    ensures forall i :: 0 <= i < |prev| && prev[i].id != campaignId ==>
      AfterRenameAd(prev, campaignId, adId, newName)[i] == prev[i]
    ensures forall i :: 0 <= i < |prev| && prev[i].id == campaignId ==>
      var c := AfterRenameAd(prev, campaignId, adId, newName)[i];
      |c.ads| == |prev[i].ads| && SameApartFromAds(c, prev[i]) &&
      (CampaignConsistent(prev[i]) ==> c.insights == prev[i].insights) &&
      forall j :: 0 <= j < |c.ads| ==>
        c.ads[j] == (if prev[i].ads[j].id == adId then prev[i].ads[j].(fileName := Some(newName)) else prev[i].ads[j])
    ensures StoreInvariant(prev) ==> StoreInvariant(AfterRenameAd(prev, campaignId, adId, newName))
  {
    var r := AfterRenameAd(prev, campaignId, adId, newName);
    forall i | 0 <= i < |prev| && prev[i].id == campaignId
      ensures Averages(r[i].ads) == Averages(prev[i].ads)
      ensures DistinctKeys(prev[i].ads, AdId) ==> DistinctKeys(r[i].ads, AdId)
    {
      AveragesReadOnlyMetrics(prev[i].ads, r[i].ads);
      var a, b := prev[i].ads, r[i].ads;
      if DistinctKeys(a, AdId) {
        forall j, k | 0 <= j < k < |b| ensures b[j].id != b[k].id {
          assert a[j].id != a[k].id;
        }
      }
    }
    if StoreInvariant(prev) {
      assert SameIds(prev, r);
      SameIdsDistinct(prev, r);
    }
  }

  /**
   * `deleteCampaign`: no campaign with that id is left, the others keep their order, one entry
   * goes when ids were distinct and the id present, an absent id changes nothing.
   */
  lemma DeleteCampaignEffect(prev: seq<Campaign>, campaignId: string)
    ensures campaignId !in Keys(AfterDeleteCampaign(prev, campaignId), CampaignId)
    ensures Keys(AfterDeleteCampaign(prev, campaignId), CampaignId) == Keys(prev, CampaignId) - {campaignId}
    ensures campaignId !in Keys(prev, CampaignId) ==> AfterDeleteCampaign(prev, campaignId) == prev
    ensures DistinctKeys(prev, CampaignId) && campaignId in Keys(prev, CampaignId) ==>
      |AfterDeleteCampaign(prev, campaignId)| == |prev| - 1
    ensures StoreInvariant(prev) ==> StoreInvariant(AfterDeleteCampaign(prev, campaignId))
  {
    if campaignId !in Keys(prev, CampaignId) {
      WithoutAbsent(prev, campaignId, CampaignId);
    }
    if DistinctKeys(prev, CampaignId) {
      WithoutDistinct(prev, campaignId, CampaignId);
      if campaignId in Keys(prev, CampaignId) {
        WithoutOne(prev, campaignId, CampaignId);
      }
    }
    if StoreInvariant(prev) {
      WithoutKeeps(prev, campaignId, CampaignId, CampaignConsistent);
    }
  }

  /**
   * `setCampaignList`: with duplicate-free ad lists the new list satisfies the store invariant,
   * and when the campaign ids are distinct too it is the input with averages recomputed.
   */
  lemma SetCampaignListEffect(list: seq<Campaign>)
    requires forall i :: 0 <= i < |list| ==> DistinctKeys(list[i].ads, AdId)
    ensures StoreInvariant(AfterSetCampaignList(list))
    ensures DistinctKeys(list, CampaignId) ==>
      AfterSetCampaignList(list) == seq(|list|, i requires 0 <= i < |list| => WithAverages(list[i]))
  {
    var xs := seq(|list|, i requires 0 <= i < |list| => WithAverages(list[i]));
    assert forall i :: 0 <= i < |xs| ==> CampaignConsistent(xs[i]);
    var kept := KeepFirst(xs, CampaignId);
    KeepFirstKeeps(xs, CampaignId, CampaignConsistent);
    DedupeEachAdsOfDistinct(kept);
    if DistinctKeys(list, CampaignId) {
      assert SameIds(list, xs);
      SameIdsDistinct(list, xs);
      KeepFirstOfDistinct(xs, CampaignId);
    }
  }

  /** A campaign whose two ads share the id "a", with quality 8 and 6. */
  function DuplicateAdsSample(): Campaign {
    Campaign("c1", "Launch", "desc", "2025-01-01", None, None, None, None, None,
      [SampleAd("a", Metrics(Some(8.0), None, None, None)), SampleAd("a", Metrics(Some(6.0), None, None, None))])
  }

  /** De-duplication keeps the first of the two ads, whose quality (8.0) differs from the mean of both (7.0). */
  lemma DuplicateAdsSampleFacts()
    ensures var ads := DuplicateAdsSample().ads;
      KeepFirst(ads, AdId) == [ads[0]] &&
      Averages(ads).Some? && Averages(ads).value.quality == Some(7.0) &&
      Averages([ads[0]]).Some? && Averages([ads[0]]).value.quality == Some(8.0)
  {
    var ads := DuplicateAdsSample().ads;
    var a8, a6 := ads[0], ads[1];
    assert ads == [a8, a6];
    assert ads[..1] == [a8];
    assert [a8][..0] == [];
    assert KeepFirst(ads, AdId) == [a8];
    assert Count([a8], Quality) == Count([], Quality) + 1;
    assert Total([a8], Quality) == 8.0 && Count([a8], Quality) == 1;
    assert Total(ads, Quality) == 14.0 && Count(ads, Quality) == 2;
    JsNumbers.RoundInteger(70);
    JsNumbers.RoundInteger(80);
  }

  /**
   * `addCampaign` computes averages before de-duplicating the ads: the campaign keeps the first
   * ad but the mean of both, so the store invariant fails.
   */
  lemma AddCampaignDuplicateAds()
    ensures !StoreInvariant(AfterAddCampaign([], DuplicateAdsSample()))
  {
    var c := DuplicateAdsSample();
    DuplicateAdsSampleFacts();
    var w := WithAverages(c);
    assert [w] + [] == [w];
    assert KeepFirst([w], CampaignId) == [w] by {
      assert [w][..0] == [];
    }
    var r := AfterAddCampaign([], c);
    assert r[0] == w.(ads := [c.ads[0]]);
    assert !CampaignConsistent(r[0]);
  }

  /** `setCampaignList` has the same gap as `addCampaign`. */
  lemma SetCampaignListDuplicateAds()
    ensures !StoreInvariant(AfterSetCampaignList([DuplicateAdsSample()]))
  {
    var c := DuplicateAdsSample();
    DuplicateAdsSampleFacts();
    var w := WithAverages(c);
    assert seq(1, i requires 0 <= i < 1 => WithAverages([c][i])) == [w];
    assert KeepFirst([w], CampaignId) == [w] by {
      assert [w][..0] == [];
    }
    var r := AfterSetCampaignList([c]);
    assert r[0] == w.(ads := [c.ads[0]]);
    assert !CampaignConsistent(r[0]);
  }

  // ----- the store -----

  /** The campaign list cell of the context provider; each method is one of its callbacks. */
  class CampaignStore {
    var campaigns: seq<Campaign>

    /** The store starts empty. */
    constructor ()
      ensures campaigns == []
    {
      campaigns := [];
    }

    /** `addCampaign`. */
    method AddCampaign(c: Campaign)
      modifies this
      ensures campaigns == AfterAddCampaign(old(campaigns), c)
      ensures old(StoreInvariant(campaigns)) && DistinctKeys(c.ads, AdId) ==> StoreInvariant(campaigns)
    {
      if StoreInvariant(campaigns) && DistinctKeys(c.ads, AdId) {
        AddCampaignEffect(campaigns, c);
      }
      if exists i :: 0 <= i < |campaigns| && Clashes(campaigns[i], c) {
        return;
      }
      var withDefaults := ComputeCampaignAverages(c);
      campaigns := DedupeCampaigns([withDefaults] + campaigns);
    }

    /** `addAd`. */
    method AddAd(campaignId: string, ad: Ad)
      modifies this
      ensures campaigns == AfterAddAd(old(campaigns), campaignId, ad)
      ensures old(StoreInvariant(campaigns)) ==> StoreInvariant(campaigns)
    {
      AddAdEffect(campaigns, campaignId, ad);
      campaigns := AfterAddAd(campaigns, campaignId, ad);
    }

    /** `deleteAd`. */
    method DeleteAd(campaignId: string, adId: string)
      modifies this
      ensures campaigns == AfterDeleteAd(old(campaigns), campaignId, adId)
      ensures old(StoreInvariant(campaigns)) ==> StoreInvariant(campaigns)
    {
      DeleteAdEffect(campaigns, campaignId, adId);
      campaigns := AfterDeleteAd(campaigns, campaignId, adId);
    }

    /** `updateAdMetrics`. */
    method UpdateAdMetrics(campaignId: string, adId: string, p: MetricsPatch)
      modifies this
      ensures campaigns == AfterUpdateAdMetrics(old(campaigns), campaignId, adId, p)
      ensures old(StoreInvariant(campaigns)) ==> StoreInvariant(campaigns)
    {
      UpdateAdMetricsEffect(campaigns, campaignId, adId, p);
      campaigns := AfterUpdateAdMetrics(campaigns, campaignId, adId, p);
    }

    /** `renameAd`. */
    method RenameAd(campaignId: string, adId: string, newName: string)
      modifies this
      ensures campaigns == AfterRenameAd(old(campaigns), campaignId, adId, newName)
      ensures old(StoreInvariant(campaigns)) ==> StoreInvariant(campaigns)
    {
      RenameAdEffect(campaigns, campaignId, adId, newName);
      campaigns := AfterRenameAd(campaigns, campaignId, adId, newName);
    }

    /** `deleteCampaign`. */
    method DeleteCampaign(campaignId: string)
      modifies this
      ensures campaigns == AfterDeleteCampaign(old(campaigns), campaignId)
      ensures old(StoreInvariant(campaigns)) ==> StoreInvariant(campaigns)
    {
      DeleteCampaignEffect(campaigns, campaignId);
      campaigns := AfterDeleteCampaign(campaigns, campaignId);
    }

    /** `clearCampaigns`, apart from its removal of the browser's stored copy. */
    method ClearCampaigns()
      modifies this
      ensures campaigns == [] && StoreInvariant(campaigns)
    {
      campaigns := [];
    }

    /** `setCampaignList`: averages for every campaign, then de-duplication. */
    method SetCampaignList(list: seq<Campaign>)
      modifies this
      ensures campaigns == AfterSetCampaignList(list)
      ensures (forall i :: 0 <= i < |list| ==> DistinctKeys(list[i].ads, AdId)) ==> StoreInvariant(campaigns)
    {
      if forall i :: 0 <= i < |list| ==> DistinctKeys(list[i].ads, AdId) {
        SetCampaignListEffect(list);
      }
      var averaged: seq<Campaign> := [];
      for i := 0 to |list|
        invariant averaged == seq(i, j requires 0 <= j < i => WithAverages(list[j]))
      {
        var c := ComputeCampaignAverages(list[i]);
        averaged := averaged + [c];
      }
      campaigns := DedupeCampaigns(averaged);
    }

    /** `getCampaignById`. */
    function GetCampaignById(campaignId: string): (r: Option<Campaign>)
      reads this
      ensures r.Some? <==> campaignId in Keys(campaigns, CampaignId)
      ensures r.Some? ==> r.value.id == campaignId
      ensures r.Some? ==> exists i :: 0 <= i < |campaigns| && campaigns[i] == r.value && IsFirstOfKey(campaigns, CampaignId, i)
    {
      CampaignById(campaigns, campaignId)
    }

    /** `getCampaignAds`. */
    function GetCampaignAds(campaignId: string): (r: seq<Ad>)
      reads this
      ensures campaignId !in Keys(campaigns, CampaignId) ==> r == []
      ensures campaignId in Keys(campaigns, CampaignId) ==> r == CampaignById(campaigns, campaignId).value.ads
    {
      CampaignAds(campaigns, campaignId)
    }
  }
}
