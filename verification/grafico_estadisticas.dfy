/**
 * The statistics chart (frontend/src/componentes/GraficoEstadisticas.jsx):
 * recipes counted per "year-month" key in the order the keys first appear,
 * the tallest bar, the last six keys the chart draws, and the month name
 * read back from a key.
 */
module GraficoEstadisticas {
  import opened Optional
  import opened Strings
  import opened Decimal
  import opened Entities

  // ---------------------------------------------------------------------------
  // Keys
  // ---------------------------------------------------------------------------

  /** A bucket key: a calendar year and 0-based month, or the key of the
      Invalid Date, whose year and month are both NaN. */
  datatype BucketKey = MonthKey(year: int, month: Month) | NaNKey

  /** The key `${año}-${mes}` of a recipe's creation date. */
  function KeyOf(r: Recipe): (k: BucketKey)
    ensures k.NaNKey? <==> CreationMoment(r).None?
    ensures k.MonthKey? ==> k.year == CreationMoment(r).value.year && k.month == CreationMoment(r).value.month
  {
    match CreationMoment(r)
    case Some(m) => MonthKey(m.year, m.month)
    case None => NaNKey
  }

  /** The property name the key is stored under. */
  function KeyText(k: BucketKey): string {
    match k
    case MonthKey(year, month) => IntToString(year) + "-" + NatToString(month)
    case NaNKey => "NaN-NaN"
  }

  lemma NoDashInNumber(n: nat)
    ensures '-' !in NatToString(n)
  {
    var s := NatToString(n);
    assert forall i :: 0 <= i < |s| ==> IsDigit(s[i]);
  }

  /** The digits of a number never spell "NaN". */
  lemma NumberIsNotNaN(n: nat)
    ensures NatToString(n) != "NaN"
  {
    assert IsDigit(NatToString(n)[0]);
  }

  /** `clave.split('-')`: a negative year contributes an empty first piece. */
  lemma KeyPieces(k: BucketKey)
    ensures k.MonthKey? && k.year >= 0 ==>
              Split(KeyText(k), '-') == [NatToString(k.year), NatToString(k.month)]
    ensures k.MonthKey? && k.year < 0 ==>
              Split(KeyText(k), '-') == ["", NatToString(-k.year), NatToString(k.month)]
    ensures k.NaNKey? ==> Split(KeyText(k), '-') == ["NaN", "NaN"]
    ensures k.MonthKey? ==> Split(KeyText(k), '-')[0] != "NaN"
  {
    match k
    case MonthKey(year, month) =>
      var m := NatToString(month);
      NoDashInNumber(month);
      SplitNoSeparator(m, '-');
      if year >= 0 {
        var y := NatToString(year);
        NoDashInNumber(year);
        NumberIsNotNaN(year);
        assert KeyText(k) == y + ['-'] + m;
        SplitAfterPiece(y, '-', m);
      } else {
        var y := NatToString(-year);
        NoDashInNumber(-year);
        assert KeyText(k) == [] + ['-'] + (y + ['-'] + m);
        SplitAfterPiece([], '-', y + ['-'] + m);
        SplitAfterPiece(y, '-', m);
      }
    case NaNKey =>
      assert KeyText(k) == "NaN" + ['-'] + "NaN";
      SplitAfterPiece("NaN", '-', "NaN");
      SplitNoSeparator("NaN", '-');
  }

  lemma NatToStringInjective(a: nat, b: nat)
    requires NatToString(a) == NatToString(b)
    ensures a == b
  {
    NatToStringValue(a);
    NatToStringValue(b);
  }

  /** Distinct keys have distinct texts, so counting per key is counting per
      property name. */
  lemma KeyTextInjective(a: BucketKey, b: BucketKey)
    requires KeyText(a) == KeyText(b)
    ensures a == b
  {
    KeyPieces(a);
    KeyPieces(b);
    match a
    case MonthKey(ya, ma) =>
      match b {
      case MonthKey(yb, mb) =>
        if ya >= 0 && yb >= 0 {
          NatToStringInjective(ya, yb);
          NatToStringInjective(ma, mb);
        } else if ya < 0 && yb < 0 {
          NatToStringInjective(-ya, -yb);
          NatToStringInjective(ma, mb);
        } else {
          assert false;
        }
      case NaNKey =>
        assert false;
      }
    case NaNKey =>
      match b {
      case MonthKey(yb, mb) =>
        assert false;
      case NaNKey =>
      }
  }

  // ---------------------------------------------------------------------------
  // Counting per key
  // ---------------------------------------------------------------------------

  datatype Bucket = Bucket(key: BucketKey, count: nat)

  function KeysOf(h: seq<Bucket>): (r: seq<BucketKey>)
    ensures |r| == |h|
    ensures forall i :: 0 <= i < |h| ==> r[i] == h[i].key
    decreases |h|
  {
    if h == [] then [] else [h[0].key] + KeysOf(h[1..])
  }

  /** Sum of the counts. */
  function Total(h: seq<Bucket>): nat
    decreases |h|
  {
    if h == [] then 0 else h[0].count + Total(h[1..])
  }

  /** `r` lists keys in the order they first appear in `s`: whenever `r`
      puts one key before another, the earlier one occurs in `s` before any
      occurrence of the later one. */
  predicate InFirstAppearanceOrder(r: seq<BucketKey>, s: seq<BucketKey>) {
    forall i, j, q :: 0 <= i < j < |r| && 0 <= q < |s| && s[q] == r[j] ==> r[i] in s[..q]
  }

  /** The keys of `s` in the order they first appear, each once. */
  function Distinct(s: seq<BucketKey>): (r: seq<BucketKey>)
    ensures forall x :: x in r <==> x in s
    ensures forall i, j :: 0 <= i < j < |r| ==> r[i] != r[j]
    ensures InFirstAppearanceOrder(r, s)
    ensures |r| <= |s|
    decreases |s|
  {
    if s == [] then []
    else
      var d := Distinct(s[..|s| - 1]);
      assert s == s[..|s| - 1] + [s[|s| - 1]];
      DistinctOrderStep(s[..|s| - 1], s[|s| - 1], d);
      if s[|s| - 1] in d then d else d + [s[|s| - 1]]
  }

  /** Appending one key keeps the first-appearance order: either the key was
      already listed, or it first appears after everything listed so far. */
  lemma DistinctOrderStep(init: seq<BucketKey>, last: BucketKey, d: seq<BucketKey>)
    requires forall x :: x in d <==> x in init
    requires InFirstAppearanceOrder(d, init)
    ensures InFirstAppearanceOrder(if last in d then d else d + [last], init + [last])
  {
    var s := init + [last];
    var r := if last in d then d else d + [last];
    forall i, j, q | 0 <= i < j < |r| && 0 <= q < |s| && s[q] == r[j]
      ensures r[i] in s[..q]
    {
      if q < |init| {
        assert s[q] == init[q] && s[..q] == init[..q];
        assert init[q] in init;
        assert j < |d|;
        assert r[i] == d[i] && r[j] == d[j];
      } else {
        assert s[..q] == init;
        assert i < |d|;
        assert r[i] == d[i] && d[i] in d;
      }
    }
  }

  /** Object property names are unique. */
  predicate UniqueKeys(h: seq<Bucket>) {
    forall i, j :: 0 <= i < j < |h| ==> h[i].key != h[j].key
  }

  /** One step of the `reduce`: the key's bucket goes up by one, and a key
      seen for the first time gets a new bucket at the end. */
  function Bump(h: seq<Bucket>, k: BucketKey): (r: seq<Bucket>)
    requires UniqueKeys(h)
    ensures KeysOf(r) == if k in KeysOf(h) then KeysOf(h) else KeysOf(h) + [k]
    ensures forall i :: 0 <= i < |h| ==> r[i].count == h[i].count + (if h[i].key == k then 1 else 0)
    ensures k !in KeysOf(h) ==> r[|h|].count == 1
    ensures Total(r) == Total(h) + 1
    decreases |h|
  {
    if h == [] then [Bucket(k, 1)]
    else if h[0].key == k then [Bucket(k, h[0].count + 1)] + h[1..]
    else
      var rest := Bump(h[1..], k);
      assert KeysOf(h) == [h[0].key] + KeysOf(h[1..]);
      assert k in KeysOf(h) <==> k in KeysOf(h[1..]);
      [h[0]] + rest
  }

  /** `estadisticasPorMes` over the keys of the recipes, in order. */
  function Tally(keys: seq<BucketKey>): (h: seq<Bucket>)
    ensures KeysOf(h) == Distinct(keys)
    ensures forall i :: 0 <= i < |h| ==> h[i].count == multiset(keys)[h[i].key]
    ensures Total(h) == |keys|
    decreases |keys|
  {
    if keys == [] then []
    else
      var init := keys[..|keys| - 1];
      var last := keys[|keys| - 1];
      assert keys == init + [last];
      var before := Tally(init);
      BumpCounts(init, last, before);
      Bump(before, last)
  }

  /** Buckets whose keys are the distinct keys of a list have unique keys. */
  lemma DistinctKeysUnique(h: seq<Bucket>, keys: seq<BucketKey>)
    requires KeysOf(h) == Distinct(keys)
    ensures UniqueKeys(h)
  {
    assert forall i :: 0 <= i < |h| ==> KeysOf(h)[i] == h[i].key;
  }

  /** One more key keeps the buckets' keys the distinct keys, in order. */
  lemma BumpKeys(init: seq<BucketKey>, last: BucketKey, before: seq<Bucket>)
    requires KeysOf(before) == Distinct(init)
    ensures UniqueKeys(before)
    ensures KeysOf(Bump(before, last)) == Distinct(init + [last])
  {
    DistinctKeysUnique(before, init);
    var keys := init + [last];
    assert keys[..|keys| - 1] == init;
  }

  /** One more key bumps a correct tally into a correct tally. */
  lemma BumpCounts(init: seq<BucketKey>, last: BucketKey, before: seq<Bucket>)
    requires KeysOf(before) == Distinct(init)
    requires forall i :: 0 <= i < |before| ==> before[i].count == multiset(init)[before[i].key]
    ensures UniqueKeys(before)
    ensures KeysOf(Bump(before, last)) == Distinct(init + [last])
    ensures forall i :: 0 <= i < |Bump(before, last)| ==>
              Bump(before, last)[i].count == multiset(init + [last])[Bump(before, last)[i].key]
  {
    BumpKeys(init, last, before);
    var h := Bump(before, last);
    var m := multiset(init + [last]);
    assert m == multiset(init) + multiset{last};
    forall i | 0 <= i < |h|
      ensures h[i].count == m[h[i].key]
    {
      if i < |before| {
        assert h[i].key == KeysOf(h)[i] == KeysOf(before)[i] == before[i].key;
      } else {
        assert h[i].key == KeysOf(h)[i] == last;
      }
    }
  }

  /** `estadisticasPorMes` for a list of recipes. */
  function Histogram(recipes: seq<Recipe>): seq<Bucket> {
    Tally(KeysOfRecipes(recipes))
  }

  function KeysOfRecipes(recipes: seq<Recipe>): (r: seq<BucketKey>)
    ensures |r| == |recipes|
    ensures forall i :: 0 <= i < |r| ==> r[i] == KeyOf(recipes[i])
    decreases |recipes|
  {
    if recipes == [] then [] else [KeyOf(recipes[0])] + KeysOfRecipes(recipes[1..])
  }

  /** The counts add up to the number of recipes, every bucket holds at least
      one recipe, no key has two buckets, and there are at most as many
      buckets ("meses activos") as recipes. */
  lemma HistogramShape(recipes: seq<Recipe>)
    ensures Total(Histogram(recipes)) == |recipes|
    ensures forall i :: 0 <= i < |Histogram(recipes)| ==> Histogram(recipes)[i].count >= 1
    ensures forall i, j :: 0 <= i < j < |Histogram(recipes)| ==>
              Histogram(recipes)[i].key != Histogram(recipes)[j].key
    ensures |Histogram(recipes)| <= |recipes|
  {
    var keys := KeysOfRecipes(recipes);
    var h := Tally(keys);
    forall i | 0 <= i < |h|
      ensures h[i].count >= 1
    {
      assert h[i].key == KeysOf(h)[i];
      assert h[i].key in keys;
    }
    forall i, j | 0 <= i < j < |h|
      ensures h[i].key != h[j].key
    {
      assert KeysOf(h)[i] != KeysOf(h)[j];
    }
  }

  /** A recipe's key has a bucket, and that bucket counts exactly the
      recipes sharing its key. */
  lemma BucketOfRecipe(recipes: seq<Recipe>, r: Recipe)
    requires r in recipes
    ensures KeyOf(r) in KeysOf(Histogram(recipes))
    ensures forall i :: 0 <= i < |Histogram(recipes)| && Histogram(recipes)[i].key == KeyOf(r) ==>
              Histogram(recipes)[i].count == multiset(KeysOfRecipes(recipes))[KeyOf(r)]
  {
    var keys := KeysOfRecipes(recipes);
    var k :| 0 <= k < |recipes| && recipes[k] == r;
    assert keys[k] == KeyOf(r);
  }

  // ---------------------------------------------------------------------------
  // The bars
  // ---------------------------------------------------------------------------

  /** `Math.max(...counts, 1)`. */
  function MaxCount(h: seq<Bucket>): (m: nat)
    ensures m >= 1
    ensures forall i :: 0 <= i < |h| ==> h[i].count <= m
    ensures m == 1 || exists i :: 0 <= i < |h| && h[i].count == m
    decreases |h|
  {
    if h == [] then 1
    else
      var rest := MaxCount(h[1..]);
      if h[0].count >= rest then h[0].count
      else
        assert rest != 1 ==> exists i :: 1 <= i < |h| && h[i].count == rest by {
          if rest != 1 {
            var j :| 0 <= j < |h[1..]| && h[1..][j].count == rest;
            assert h[j + 1].count == rest;
          }
        }
        rest
  }

  /** `mesesConDatos.slice(-6)`: the last six buckets, or all of them. */
  function LastSix<T>(s: seq<T>): (r: seq<T>)
    ensures |r| == if |s| <= 6 then |s| else 6
    ensures r == s[|s| - |r|..]
  {
    if |s| <= 6 then s else s[|s| - 6..]
  }

  const MonthNames: seq<string> :=
    ["Ene", "Feb", "Mar", "Abr", "May", "Jun", "Jul", "Ago", "Sep", "Oct", "Nov", "Dic"]

  /** What `parseInt` reads from the pieces of a key. */
  lemma LabelPieces(k: BucketKey)
    ensures |Split(KeyText(k), '-')| >= 2
    ensures k.MonthKey? && k.year >= 0 ==> ParseInt(Split(KeyText(k), '-')[1]) == Some(k.month as nat)
    ensures k.MonthKey? && k.year < 0 ==> ParseInt(Split(KeyText(k), '-')[1]) == Some(-k.year)
    ensures k.NaNKey? ==> ParseInt(Split(KeyText(k), '-')[1]).None?
  {
    KeyPieces(k);
    if k.MonthKey? {
      ParseNatToString(k.month);
      if k.year < 0 {
        ParseNatToString(-k.year);
      }
    }
  }

  /** `nombresMeses[parseInt(mesNum)]` for `[año, mesNum] = clave.split('-')`;
      `None` is `undefined`. */
  function MonthLabel(k: BucketKey): (r: Option<string>)
    ensures k.MonthKey? && k.year >= 0 ==> r == Some(MonthNames[k.month])
    ensures k.MonthKey? && k.year < 0 ==> r == (if -k.year < 12 then Some(MonthNames[-k.year]) else None)
    ensures k.NaNKey? ==> r.None?
  {
    LabelPieces(k);
    var parts := Split(KeyText(k), '-');
    var index := if |parts| < 2 then None else ParseInt(parts[1]);
    if index.Some? && index.value < 12 then Some(MonthNames[index.value]) else None
  }

  /** A bar: the month name under it and the count on it. */
  datatype Bar = Bar(monthName: Option<string>, count: nat)

  function BarOf(b: Bucket): Bar {
    Bar(MonthLabel(b.key), b.count)
  }

  /** The bars for the last six buckets of a histogram, left to right. */
  function BarsOf(h: seq<Bucket>): (r: seq<Bar>)
    ensures |r| == |LastSix(h)| <= 6
    ensures forall i :: 0 <= i < |r| ==> r[i] == BarOf(LastSix(h)[i])
    ensures forall i :: 0 <= i < |r| ==> r[i].count <= MaxCount(h)
  {
    var shown := LastSix(h);
    assert forall i :: 0 <= i < |shown| ==> shown[i] == h[|h| - |shown| + i];
    seq(|shown|, i requires 0 <= i < |shown| => BarOf(shown[i]))
  }

  /** The bars the chart draws, left to right: one per bucket of
      `mesesConDatos.slice(-6)`, with that bucket's month label and count. */
  function Bars(recipes: seq<Recipe>): (r: seq<Bar>)
    ensures |r| == |LastSix(Histogram(recipes))| <= 6
    ensures forall i :: 0 <= i < |r| ==> r[i] == BarOf(LastSix(Histogram(recipes))[i])
    ensures forall i :: 0 <= i < |r| ==> 1 <= r[i].count <= MaxCount(Histogram(recipes))
  {
    var h := Histogram(recipes);
    HistogramShape(recipes);
    ShownCountsPositive(h);
    BarsOf(h)
  }

  /** The last six buckets of a histogram whose buckets are all non-empty are
      non-empty. */
  lemma ShownCountsPositive(h: seq<Bucket>)
    requires forall i :: 0 <= i < |h| ==> h[i].count >= 1
    ensures forall i :: 0 <= i < |LastSix(h)| ==> LastSix(h)[i].count >= 1
  {
    var shown := LastSix(h);
    assert forall i :: 0 <= i < |shown| ==> shown[i] == h[|h| - |shown| + i];
  }
}
