/**
 * The nested daily aggregate of the history import: adding one request to a day and its buckets, the
 * receipt taken of a day, and the check of a receipt against what the live proxy has made of the day since.
 */
module DailyCounters {
  import opened Bytes
  import opened Json

  const COUNTERS: set<string> :=
    {"requests", "promptTokens", "completionTokens", "cachedTokens", "cacheCreationTokens", "cost"}

  datatype Dimension = ByProvider | ByModel | ByAccount | ByApiKey | ByEndpoint | ByReasoning

  function DimensionName(d: Dimension): string
  {
    match d
    case ByProvider => "byProvider"
    case ByModel => "byModel"
    case ByAccount => "byAccount"
    case ByApiKey => "byApiKey"
    case ByEndpoint => "byEndpoint"
    case ByReasoning => "byReasoning"
  }

  lemma DimensionNames(d: Dimension, e: Dimension)
    ensures DimensionName(d) == DimensionName(e) <==> d == e
    ensures DimensionName(d) !in COUNTERS
  {
    var name := DimensionName(d);
    assert name[0] == 'b' && (name[2] == 'P' || name[2] == 'M' || name[2] == 'A' || name[2] == 'E' || name[2] == 'R');
    assert name[2] == 'A' ==> name[3] == 'c' || name[3] == 'p';
  }

  type Fields = map<string, Json>

  // ----- the receipt -----

  /** Numbers under counter names, and whatever dictionaries lead to them. */
  function NumericCounters(v: Json): Fields
  {
    if !v.JObj? then map[] else
    map k | k in v.fields && ((k in COUNTERS && v.fields[k].JNum?) || v.fields[k].JObj?)
      :: if k in COUNTERS then v.fields[k] else JObj(NumericCounters(v.fields[k]))
  }

  predicate AtLeast(current: Option<Json>, n: real)
  {
    current.Some? && current.value.JNum? && current.value.n >= n
  }

  /** The number a receipt's leaf asks for. */
  function LeafMinimum(v: Json): real
  {
    match v
    case JNum(n) => n
    case JBool(b) => if b then 1.0 else 0.0
    case _ => 0.0
  }

  /** `verify_counter_bounds` does not raise. A boolean minimum compares as 0 or 1, any other one raises. */
  predicate Bounded(actual: Option<Json>, minimum: Fields)
    decreases JObj(minimum)
  {
    forall k :: k in minimum ==>
      match minimum[k] {
        case JObj(f) => Bounded(Get(actual, k), f)
        case JNum(_) => AtLeast(Get(actual, k), LeafMinimum(minimum[k]))
        case JBool(_) => AtLeast(Get(actual, k), LeafMinimum(minimum[k]))
        case _ => false
      }
  }

  /** Only numbers below this value. */
  predicate AllNumbers(v: Json)
  {
    match v
    case JNum(_) => true
    case JObj(f) => forall k :: k in f ==> AllNumbers(f[k])
    case _ => false
  }

  /** A dictionary sitting under a counter's name is copied whole, so it must hold numbers only. */
  predicate Receiptable(v: Json)
  {
    v.JObj? ==> forall k :: k in v.fields && v.fields[k].JObj? ==>
      if k in COUNTERS then AllNumbers(v.fields[k]) else Receiptable(v.fields[k])
  }

  lemma {:induction false} WholeCopyPasses(f: Fields)
    ensures Bounded(Some(JObj(f)), f) <==> AllNumbers(JObj(f))
    decreases JObj(f)
  {
    forall k | k in f && f[k].JObj? ensures Bounded(Some(f[k]), f[k].fields) <==> AllNumbers(f[k]) {
      WholeCopyPasses(f[k].fields);
    }
    forall k | k in f ensures Get(Some(JObj(f)), k) == Some(f[k]) {
    }
  }

  /** A fresh receipt verifies against the day it was taken from exactly when the day is receiptable. */
  lemma {:induction false} FreshReceiptVerifies(v: Json)
    ensures Bounded(Some(v), NumericCounters(v)) <==> Receiptable(v)
  {
    if v.JObj? {
      var m := NumericCounters(v);
      forall k | k in v.fields && v.fields[k].JObj?
        ensures Bounded(Some(v.fields[k]), m[k].fields)
                <==> if k in COUNTERS then AllNumbers(v.fields[k]) else Receiptable(v.fields[k])
      {
        if k in COUNTERS {
          WholeCopyPasses(v.fields[k].fields);
        } else {
          FreshReceiptVerifies(v.fields[k]);
        }
      }
      forall k | k in m ensures Get(Some(v), k) == Some(v.fields[k]) {
      }
    }
  }

  // ----- growth -----

  /**
   * What non-negative increments do to a day: no number that counts falls or disappears. Numbers count under
   * a counter's name, and all of them do (`whole`) in a dictionary under such a name.
   */
  predicate Grows(a: Json, b: Option<Json>, whole: bool)
    decreases a, 0
  {
    a.JObj? ==> forall k :: k in a.fields ==> EntryGrows(a.fields[k], Get(b, k), whole || k in COUNTERS)
  }

  /** One entry: a number that counts is still there and no smaller, a dictionary has grown. */
  predicate EntryGrows(v: Json, next: Option<Json>, counts: bool)
    decreases v, 1
  {
    match v
    case JNum(n) => counts ==> AtLeast(next, n)
    case JObj(_) => Grows(v, next, counts)
    case _ => true
  }

  lemma {:induction false} GrowsReflexive(a: Json, whole: bool)
    ensures Grows(a, Some(a), whole)
    decreases a
  {
    if a.JObj? {
      forall k | k in a.fields ensures EntryGrows(a.fields[k], Get(Some(a), k), whole || k in COUNTERS) {
        GrowsReflexive(a.fields[k], whole || k in COUNTERS);
      }
    }
  }

  /** Growing into something without entries means that nothing counted. */
  lemma {:induction false} NothingCounts(a: Json, b: Option<Json>, c: Option<Json>, whole: bool)
    requires Grows(a, b, whole) && !(b.Some? && b.value.JObj?)
    ensures Grows(a, c, whole)
    decreases a
  {
    if a.JObj? {
      forall k | k in a.fields ensures EntryGrows(a.fields[k], Get(c, k), whole || k in COUNTERS) {
        assert EntryGrows(a.fields[k], Get(b, k), whole || k in COUNTERS);
        if a.fields[k].JObj? {
          NothingCounts(a.fields[k], None, Get(c, k), whole || k in COUNTERS);
        }
      }
    }
  }

  lemma {:induction false} GrowsTransitive(a: Json, b: Json, c: Option<Json>, whole: bool)
    requires Grows(a, Some(b), whole) && Grows(b, c, whole)
    ensures Grows(a, c, whole)
    decreases a
  {
    if a.JObj? {
      forall k | k in a.fields ensures EntryGrows(a.fields[k], Get(c, k), whole || k in COUNTERS) {
        EntryTransitive(a, b, c, whole, k);
      }
    }
  }

  lemma {:induction false} EntryTransitive(a: Json, b: Json, c: Option<Json>, whole: bool, k: string)
    requires Grows(a, Some(b), whole) && Grows(b, c, whole) && a.JObj? && k in a.fields
    ensures EntryGrows(a.fields[k], Get(c, k), whole || k in COUNTERS)
    decreases a, 0
  {
    var x, y, inner := a.fields[k], Get(Some(b), k), whole || k in COUNTERS;
    assert EntryGrows(x, y, inner);
    if y.Some? {
      assert EntryGrows(b.fields[k], Get(c, k), inner);
    }
    if x.JObj? {
      if y.Some? && y.value.JObj? {
        GrowsTransitive(x, y.value, Get(c, k), inner);
      } else {
        NothingCounts(x, y, Get(c, k), inner);
      }
    }
  }

  /** Below a name that is no counter a receipt holds dictionaries only. */
  predicate ReceiptShape(m: Fields)
    decreases JObj(m)
  {
    forall k :: k in m && k !in COUNTERS ==> m[k].JObj? && ReceiptShape(m[k].fields)
  }

  lemma {:induction false} ReceiptHasShape(v: Json)
    ensures ReceiptShape(NumericCounters(v))
  {
    if v.JObj? {
      forall k | k in NumericCounters(v) && k !in COUNTERS ensures ReceiptShape(NumericCounters(v)[k].fields) {
        ReceiptHasShape(v.fields[k]);
      }
    }
  }

  /** A minimum that a value without entries meets asks for nothing. */
  lemma {:induction false} NothingAsked(v: Option<Json>, w: Option<Json>, m: Fields)
    requires Bounded(v, m) && !(v.Some? && v.value.JObj?)
    ensures Bounded(w, m)
    decreases JObj(m)
  {
    forall k | k in m ensures m[k].JObj? && Bounded(Get(w, k), m[k].fields) {
      assert Get(v, k) == None;
      NothingAsked(None, Get(w, k), m[k].fields);
    }
  }

  /** A receipt that verified goes on verifying while the day grows. */
  lemma {:induction false} GrowthKeepsBounds(a: Json, b: Option<Json>, m: Fields, whole: bool)
    requires Bounded(Some(a), m) && Grows(a, b, whole) && (whole || ReceiptShape(m))
    ensures Bounded(b, m)
    decreases JObj(m)
  {
    if !a.JObj? {
      NothingAsked(Some(a), b, m);
    } else {
      forall k | k in m && m[k].JObj? ensures Bounded(Get(b, k), m[k].fields) {
        var f, x := m[k].fields, Get(Some(a), k);
        assert Bounded(x, f);
        if x.Some? && x.value.JObj? {
          assert EntryGrows(x.value, Get(b, k), whole || k in COUNTERS);
          GrowthKeepsBounds(x.value, Get(b, k), f, whole || k in COUNTERS);
        } else {
          NothingAsked(x, Get(b, k), f);
        }
      }
      forall k | k in m && !m[k].JObj? ensures AtLeast(Get(b, k), LeafMinimum(m[k])) {
        assert EntryGrows(a.fields[k], Get(b, k), whole || k in COUNTERS);
      }
    }
  }

  // ----- what a receipt asks for -----

  lemma {:induction false} WholeCopyIsGrowth(f: Fields, w: Option<Json>)
    requires AllNumbers(JObj(f))
    ensures Bounded(w, f) <==> Grows(JObj(f), w, true)
    decreases JObj(f)
  {
    forall k | k in f && f[k].JObj?
      ensures Bounded(Get(w, k), f[k].fields) <==> EntryGrows(f[k], Get(w, k), true)
    {
      WholeCopyIsGrowth(f[k].fields, Get(w, k));
    }
    forall k | k in f && f[k].JNum?
      ensures AtLeast(Get(w, k), LeafMinimum(f[k])) <==> EntryGrows(f[k], Get(w, k), true) {
    }
  }

  /** One entry of a receipt is met. */
  predicate Meets(actual: Option<Json>, minimum: Json)
  {
    match minimum
    case JObj(f) => Bounded(actual, f)
    case JNum(n) => AtLeast(actual, n)
    case JBool(b) => AtLeast(actual, if b then 1.0 else 0.0)
    case _ => false
  }

  lemma BoundedMeets(w: Option<Json>, m: Fields)
    ensures Bounded(w, m) <==> forall k :: k in m ==> Meets(Get(w, k), m[k])
  {
  }

  lemma {:induction false} EntryIsGrowth(v: Json, w: Option<Json>, k: string)
    requires Receiptable(v) && v.JObj? && k in v.fields
    ensures var m := NumericCounters(v);
            (k in m ==> Meets(Get(w, k), m[k])) <==> EntryGrows(v.fields[k], Get(w, k), k in COUNTERS)
    decreases v, 0
  {
    var x := v.fields[k];
    if x.JObj? {
      if k in COUNTERS {
        WholeCopyIsGrowth(x.fields, Get(w, k));
      } else {
        ReceiptIsGrowth(x, Get(w, k));
      }
    }
  }

  /** A receipt is met exactly by the values in which no counted number of its day has fallen. */
  lemma {:induction false} ReceiptIsGrowth(v: Json, w: Option<Json>)
    requires Receiptable(v)
    ensures Bounded(w, NumericCounters(v)) <==> Grows(v, w, false)
    decreases v, 1
  {
    hide EntryGrows, Meets, Bounded, COUNTERS, Receiptable;
    var m := NumericCounters(v);
    BoundedMeets(w, m);
    if v.JObj? {
      forall k | k in v.fields
        ensures (k in m ==> Meets(Get(w, k), m[k])) <==> EntryGrows(v.fields[k], Get(w, k), k in COUNTERS)
      {
        EntryIsGrowth(v, w, k);
      }
      assert m.Keys <= v.fields.Keys;
    }
  }
}
