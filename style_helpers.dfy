/**
 * The frontend style helpers: the weighted style-match score of a product for a user's style
 * profile, the ranking of products by that score, and the text summary of dominant styles.
 * Scores are exact reals where the source uses floating point. The category list that the scorer
 * walks is a parameter (the constant it imports is not defined in the shared constants).
 */
module StyleHelpers {
  import opened Wrappers
  import Sorting
  import JsBuiltins

  /** A user preference: its category, a value in [0, 1] and an optional weight. */
  datatype Preference = Preference(category: string, value: real, weight: Option<real>)

  /** One style attribute of a product. */
  datatype Attribute = Attribute(category: string, value: real)

  datatype StyleProfile = StyleProfile(preferences: seq<Preference>)

  datatype Product = Product(id: string, styleAttributes: seq<Attribute>)

  function Abs(x: real): (r: real)
    ensures r >= 0.0 && (r == x || r == -x)
  {
    if x < 0.0 then -x else x
  }

  /** `preferences.find(pref => pref.category === category)`: the first entry of that category. */
  function FindPreference(prefs: seq<Preference>, category: string): (r: Option<Preference>)
    ensures r.None? <==> forall i :: 0 <= i < |prefs| ==> prefs[i].category != category
    ensures r.Some? ==> r.value in prefs && r.value.category == category
  {
    if |prefs| == 0 then None
    else if prefs[0].category == category then Some(prefs[0])
    else FindPreference(prefs[1..], category)
  }

  /** `attributes.find(attr => attr.category === category)`: the first entry of that category. */
  function FindAttribute(attrs: seq<Attribute>, category: string): (r: Option<Attribute>)
    ensures r.None? <==> forall i :: 0 <= i < |attrs| ==> attrs[i].category != category
    ensures r.Some? ==> r.value in attrs && r.value.category == category
  {
    if |attrs| == 0 then None
    else if attrs[0].category == category then Some(attrs[0])
    else FindAttribute(attrs[1..], category)
  }

  /** `pref.weight || 1`: an absent or zero weight counts as 1. */
  function EffectiveWeight(p: Preference): (w: real)
    ensures (p.weight.None? || p.weight.value == 0.0) ==> w == 1.0
    ensures p.weight.Some? && p.weight.value != 0.0 ==> w == p.weight.value
  {
    if p.weight.None? || p.weight.value == 0.0 then 1.0 else p.weight.value
  }

  /** `1 - |u - p|`, the agreement of a preference and an attribute on one category. */
  function Agreement(p: Preference, a: Attribute): real {
    1.0 - Abs(p.value - a.value)
  }

  /** `score * weight` for one preference and one attribute. */
  function Weighted(p: Preference, a: Attribute): real {
    Agreement(p, a) * EffectiveWeight(p)
  }

  /** Weighted agreement on one category, 0 when the category is missing on either side. */
  function ScoreAt(prefs: seq<Preference>, attrs: seq<Attribute>, c: string): real {
    var p, a := FindPreference(prefs, c), FindAttribute(attrs, c);
    if p.Some? && a.Some? then Weighted(p.value, a.value) else 0.0
  }

  /** Weight of one category, 0 when the category is missing on either side. */
  function WeightAt(prefs: seq<Preference>, attrs: seq<Attribute>, c: string): real {
    var p, a := FindPreference(prefs, c), FindAttribute(attrs, c);
    if p.Some? && a.Some? then EffectiveWeight(p.value) else 0.0
  }

  /** Sum of the weighted agreements over the categories. */
  function ScoreSum(cats: seq<string>, prefs: seq<Preference>, attrs: seq<Attribute>): real
    decreases |cats|
  {
    if |cats| == 0 then 0.0
    else ScoreSum(cats[..|cats| - 1], prefs, attrs) + ScoreAt(prefs, attrs, cats[|cats| - 1])
  }

  /** Sum of the weights of the categories found on both sides. */
  function WeightSum(cats: seq<string>, prefs: seq<Preference>, attrs: seq<Attribute>): real
    decreases |cats|
  {
    if |cats| == 0 then 0.0
    else WeightSum(cats[..|cats| - 1], prefs, attrs) + WeightAt(prefs, attrs, cats[|cats| - 1])
  }

  /** The style match score: the weighted mean agreement, or 0 when no weight was accumulated. */
  function StyleMatch(cats: seq<string>, profile: StyleProfile, product: Product): real {
    var total := ScoreSum(cats, profile.preferences, product.styleAttributes);
    var weight := WeightSum(cats, profile.preferences, product.styleAttributes);
    if weight > 0.0 then total / weight else 0.0
  }

  /** `calculateStyleMatch`: accumulates total score and total weight over the style categories. */
  method CalculateStyleMatch(cats: seq<string>, profile: StyleProfile, product: Product) returns (score: real)
    ensures score == StyleMatch(cats, profile, product)
  {
    var prefs, attrs := profile.preferences, product.styleAttributes;
    var totalScore, totalWeight := 0.0, 0.0;
    for i := 0 to |cats|
      invariant totalScore == ScoreSum(cats[..i], prefs, attrs)
      invariant totalWeight == WeightSum(cats[..i], prefs, attrs)
    {
      assert cats[..i + 1][..i] == cats[..i];
      var userPreference := FindPreference(prefs, cats[i]);
      var productAttribute := FindAttribute(attrs, cats[i]);
      if userPreference.Some? && productAttribute.Some? {
        var weight := EffectiveWeight(userPreference.value);
        var s := 1.0 - Abs(userPreference.value.value - productAttribute.value.value);
        totalScore := totalScore + s * weight;
        totalWeight := totalWeight + weight;
      }
      assert totalScore == ScoreSum(cats[..i], prefs, attrs) + ScoreAt(prefs, attrs, cats[i]);
    }
    assert cats[..|cats|] == cats;
    score := if totalWeight > 0.0 then totalScore / totalWeight else 0.0;
  }

  /** A category both sides have. */
  predicate Shared(prefs: seq<Preference>, attrs: seq<Attribute>, c: string) {
    FindPreference(prefs, c).Some? && FindAttribute(attrs, c).Some?
  }

  lemma {:induction false} NoSharedWeightZero(cats: seq<string>, prefs: seq<Preference>, attrs: seq<Attribute>)
    requires forall i :: 0 <= i < |cats| ==> !Shared(prefs, attrs, cats[i])
    ensures ScoreSum(cats, prefs, attrs) == 0.0 && WeightSum(cats, prefs, attrs) == 0.0
    decreases |cats|
  {
    if |cats| > 0 {
      NoSharedWeightZero(cats[..|cats| - 1], prefs, attrs);
    }
  }

  /** No category present in both the preferences and the attributes: the score is 0. */
  lemma NoSharedCategoryScoresZero(cats: seq<string>, profile: StyleProfile, product: Product)
    requires forall i :: 0 <= i < |cats| ==> !Shared(profile.preferences, product.styleAttributes, cats[i])
    ensures StyleMatch(cats, profile, product) == 0.0
  {
    NoSharedWeightZero(cats, profile.preferences, product.styleAttributes);
  }

  /** Values in [0, 1] and no negative weights. */
  predicate InRange(profile: StyleProfile, product: Product) {
    && (forall p :: p in profile.preferences ==>
          0.0 <= p.value <= 1.0 && (p.weight.Some? ==> p.weight.value >= 0.0))
    && (forall a :: a in product.styleAttributes ==> 0.0 <= a.value <= 1.0)
  }

  lemma MulBounded(g: real, w: real, r: real)
    requires 0.0 <= g <= 1.0 && w > 0.0 && r == g * w
    ensures 0.0 <= r <= w
  {
  }

  /** A preference and an attribute in range: the weighted agreement lies between 0 and the weight. */
  lemma WeightedBounded(p: Preference, a: Attribute)
    requires 0.0 <= p.value <= 1.0 && (p.weight.Some? ==> p.weight.value >= 0.0)
    requires 0.0 <= a.value <= 1.0
    ensures 0.0 <= Weighted(p, a) <= EffectiveWeight(p)
  {
    MulBounded(Agreement(p, a), EffectiveWeight(p), Weighted(p, a));
  }

  lemma ScoreAtBounded(profile: StyleProfile, product: Product, c: string)
    requires InRange(profile, product)
    ensures 0.0 <= ScoreAt(profile.preferences, product.styleAttributes, c)
                <= WeightAt(profile.preferences, product.styleAttributes, c)
  {
    var prefs, attrs := profile.preferences, product.styleAttributes;
    var p, a := FindPreference(prefs, c), FindAttribute(attrs, c);
    if p.Some? && a.Some? {
      assert p.value in prefs && a.value in attrs;
      WeightedBounded(p.value, a.value);
    }
  }

  lemma {:induction false} SumsBounded(cats: seq<string>, profile: StyleProfile, product: Product)
    requires InRange(profile, product)
    ensures 0.0 <= ScoreSum(cats, profile.preferences, product.styleAttributes)
                <= WeightSum(cats, profile.preferences, product.styleAttributes)
    decreases |cats|
  {
    if |cats| > 0 {
      SumsBounded(cats[..|cats| - 1], profile, product);
      ScoreAtBounded(profile, product, cats[|cats| - 1]);
    }
  }

  lemma DivBounded(t: real, w: real)
    requires 0.0 <= t <= w && w > 0.0
    ensures 0.0 <= t / w <= 1.0
  {
    var q := t / w;
    assert q * w == t;
  }

  /** With values in [0, 1] and non-negative weights, the score lies in [0, 1]. */
  lemma ScoreInUnitInterval(cats: seq<string>, profile: StyleProfile, product: Product)
    requires InRange(profile, product)
    ensures 0.0 <= StyleMatch(cats, profile, product) <= 1.0
  {
    SumsBounded(cats, profile, product);
    var total := ScoreSum(cats, profile.preferences, product.styleAttributes);
    var weight := WeightSum(cats, profile.preferences, product.styleAttributes);
    if weight > 0.0 {
      DivBounded(total, weight);
    }
  }

  lemma {:induction false} EqualValuesSums(cats: seq<string>, prefs: seq<Preference>, attrs: seq<Attribute>)
    requires forall c :: Shared(prefs, attrs, c) ==>
      FindPreference(prefs, c).value.value == FindAttribute(attrs, c).value.value
    ensures ScoreSum(cats, prefs, attrs) == WeightSum(cats, prefs, attrs)
    decreases |cats|
  {
    if |cats| > 0 {
      EqualValuesSums(cats[..|cats| - 1], prefs, attrs);
    }
  }

  lemma {:induction false} SharedGivesWeight(cats: seq<string>, profile: StyleProfile, product: Product, k: nat)
    requires InRange(profile, product)
    requires k < |cats| && Shared(profile.preferences, product.styleAttributes, cats[k])
    ensures WeightSum(cats, profile.preferences, product.styleAttributes) > 0.0
    decreases |cats|
  {
    var prefs, attrs := profile.preferences, product.styleAttributes;
    SumsBoundedWeight(cats[..|cats| - 1], profile, product);
    if k < |cats| - 1 {
      SharedGivesWeight(cats[..|cats| - 1], profile, product, k);
    }
  }

  lemma {:induction false} SumsBoundedWeight(cats: seq<string>, profile: StyleProfile, product: Product)
    requires InRange(profile, product)
    ensures WeightSum(cats, profile.preferences, product.styleAttributes) >= 0.0
    decreases |cats|
  {
    if |cats| > 0 {
      SumsBoundedWeight(cats[..|cats| - 1], profile, product);
    }
  }

  /** Equal values on every shared category, and at least one shared category: the score is exactly 1. */
  lemma EqualValuesScoreOne(cats: seq<string>, profile: StyleProfile, product: Product, k: nat)
    requires InRange(profile, product)
    requires forall c :: Shared(profile.preferences, product.styleAttributes, c) ==>
      FindPreference(profile.preferences, c).value.value == FindAttribute(product.styleAttributes, c).value.value
    requires k < |cats| && Shared(profile.preferences, product.styleAttributes, cats[k])
    ensures StyleMatch(cats, profile, product) == 1.0
  {
    EqualValuesSums(cats, profile.preferences, product.styleAttributes);
    SharedGivesWeight(cats, profile, product, k);
    SelfRatio(ScoreSum(cats, profile.preferences, product.styleAttributes),
      WeightSum(cats, profile.preferences, product.styleAttributes));
  }

  lemma SelfRatio(t: real, w: real)
    requires t == w && w > 0.0
    ensures t / w == 1.0
  {
  }

  /** Every preference with its weight made explicit, as `weight || 1` reads it. */
  function ExplicitWeights(prefs: seq<Preference>): (r: seq<Preference>)
    ensures |r| == |prefs|
    ensures forall i :: 0 <= i < |prefs| ==>
      r[i] == prefs[i].(weight := Some(EffectiveWeight(prefs[i])))
  {
    seq(|prefs|, i requires 0 <= i < |prefs| => prefs[i].(weight := Some(EffectiveWeight(prefs[i]))))
  }

  lemma {:induction false} FindExplicit(prefs: seq<Preference>, c: string)
    ensures var r := FindPreference(ExplicitWeights(prefs), c);
      var p := FindPreference(prefs, c);
      r.Some? == p.Some? && (p.Some? ==> r.value == p.value.(weight := Some(EffectiveWeight(p.value))))
    decreases |prefs|
  {
    if |prefs| > 0 {
      assert ExplicitWeights(prefs)[1..] == ExplicitWeights(prefs[1..]);
      FindExplicit(prefs[1..], c);
    }
  }

  lemma ExplicitAt(prefs: seq<Preference>, attrs: seq<Attribute>, c: string)
    ensures ScoreAt(ExplicitWeights(prefs), attrs, c) == ScoreAt(prefs, attrs, c)
    ensures WeightAt(ExplicitWeights(prefs), attrs, c) == WeightAt(prefs, attrs, c)
  {
    FindExplicit(prefs, c);
  }

  lemma {:induction false} ExplicitSums(cats: seq<string>, prefs: seq<Preference>, attrs: seq<Attribute>)
    ensures ScoreSum(cats, ExplicitWeights(prefs), attrs) == ScoreSum(cats, prefs, attrs)
    ensures WeightSum(cats, ExplicitWeights(prefs), attrs) == WeightSum(cats, prefs, attrs)
    decreases |cats|
  {
    if |cats| > 0 {
      ExplicitSums(cats[..|cats| - 1], prefs, attrs);
      ExplicitAt(prefs, attrs, cats[|cats| - 1]);
    }
  }

  /** A missing or zero weight counts as 1: writing every weight out explicitly changes no score. */
  lemma MissingOrZeroWeightIsOne(cats: seq<string>, profile: StyleProfile, product: Product)
    ensures StyleMatch(cats, StyleProfile(ExplicitWeights(profile.preferences)), product)
         == StyleMatch(cats, profile, product)
  {
    ExplicitSums(cats, profile.preferences, product.styleAttributes);
  }


  lemma {:induction false} FindPreferenceAppendFound(prefs: seq<Preference>, extra: seq<Preference>, c: string)
    requires FindPreference(prefs, c).Some?
    ensures FindPreference(prefs + extra, c) == FindPreference(prefs, c)
    decreases |prefs|
  {
    if prefs[0].category != c {
      assert (prefs + extra)[1..] == prefs[1..] + extra;
      FindPreferenceAppendFound(prefs[1..], extra, c);
    }
  }

  lemma FindPreferenceAppendAbsent(prefs: seq<Preference>, extra: seq<Preference>, c: string)
    requires FindPreference(prefs, c).None?
    requires forall j :: 0 <= j < |extra| ==> extra[j].category != c
    ensures FindPreference(prefs + extra, c).None?
  {
    forall i | 0 <= i < |prefs + extra| ensures (prefs + extra)[i].category != c {
      if i >= |prefs| {
        assert (prefs + extra)[i] == extra[i - |prefs|];
      }
    }
  }

  lemma {:induction false} SumsAgree(cats: seq<string>, p1: seq<Preference>, p2: seq<Preference>, attrs: seq<Attribute>)
    requires forall c :: FindPreference(p1, c) == FindPreference(p2, c)
    ensures ScoreSum(cats, p1, attrs) == ScoreSum(cats, p2, attrs)
    ensures WeightSum(cats, p1, attrs) == WeightSum(cats, p2, attrs)
    decreases |cats|
  {
    if |cats| > 0 {
      SumsAgree(cats[..|cats| - 1], p1, p2, attrs);
      assert FindPreference(p1, cats[|cats| - 1]) == FindPreference(p2, cats[|cats| - 1]);
    }
  }

  /**
   * Only the first preference of a category is looked at: appending preferences whose categories
   * the profile already has leaves every score unchanged.
   */
  lemma LaterDuplicatesIgnored(cats: seq<string>, profile: StyleProfile, extra: seq<Preference>, product: Product)
    requires forall j :: 0 <= j < |extra| ==>
      exists i :: 0 <= i < |profile.preferences| && profile.preferences[i].category == extra[j].category
    ensures StyleMatch(cats, StyleProfile(profile.preferences + extra), product) == StyleMatch(cats, profile, product)
  {
    var prefs := profile.preferences;
    forall c ensures FindPreference(prefs + extra, c) == FindPreference(prefs, c) {
      if FindPreference(prefs, c).Some? {
        FindPreferenceAppendFound(prefs, extra, c);
      } else {
        forall j | 0 <= j < |extra| ensures extra[j].category != c {
          var i :| 0 <= i < |prefs| && prefs[i].category == extra[j].category;
        }
        FindPreferenceAppendAbsent(prefs, extra, c);
      }
    }
    SumsAgree(cats, prefs + extra, prefs, product.styleAttributes);
  }

  // ---------------------------------------------------------------- getRecommendedProducts

  /** A product paired with its style match score. */
  datatype ScoredProduct = ScoredProduct(product: Product, score: real)

  function ScoreOf(s: ScoredProduct): real {
    s.score
  }

  /** `products.map(product => ({product, score: calculateStyleMatch(userProfile, product)}))`. */
  function Scored(cats: seq<string>, profile: StyleProfile, products: seq<Product>): (r: seq<ScoredProduct>)
    ensures |r| == |products|
    ensures forall i :: 0 <= i < |products| ==> r[i] == ScoredProduct(products[i], StyleMatch(cats, profile, products[i]))
  {
    seq(|products|, i requires 0 <= i < |products| => ScoredProduct(products[i], StyleMatch(cats, profile, products[i])))
  }

  function ProductsOf(s: seq<ScoredProduct>): (r: seq<Product>)
    ensures |r| == |s| && forall i :: 0 <= i < |s| ==> r[i] == s[i].product
  {
    seq(|s|, i requires 0 <= i < |s| => s[i].product)
  }

  /** The recommendation: the products ranked by descending score (ties in input order), cut at `limit`. */
  function RecommendedProducts(cats: seq<string>, profile: StyleProfile, products: seq<Product>, limit: int): seq<Product> {
    ProductsOf(JsBuiltins.SliceTo(Sorting.SortDesc(Scored(cats, profile, products), ScoreOf), limit))
  }

  /** `getRecommendedProducts`: scores each product, sorts the pairs in place, keeps the first `limit`. */
  method GetRecommendedProducts(cats: seq<string>, profile: StyleProfile, products: seq<Product>, limit: int)
    returns (r: seq<Product>)
    ensures r == RecommendedProducts(cats, profile, products, limit)
  {
    var scored: seq<ScoredProduct> := [];
    for i := 0 to |products|
      invariant scored == Scored(cats, profile, products[..i])
    {
      var score := CalculateStyleMatch(cats, profile, products[i]);
      scored := scored + [ScoredProduct(products[i], score)];
    }
    assert products[..|products|] == products;
    var a := new ScoredProduct[|scored|](i requires 0 <= i < |scored| => scored[i]);
    assert a[..] == scored;
    Sorting.SortDescInPlace(a, ScoreOf);
    var ranked := a[..];
    var top := JsBuiltins.SliceTo(ranked, limit);
    r := seq(|top|, i requires 0 <= i < |top| => top[i].product);
  }

  /** Every element of the ranked pairs carries its product's own score. */
  lemma RankedScores(cats: seq<string>, profile: StyleProfile, products: seq<Product>)
    ensures forall x :: x in Sorting.SortDesc(Scored(cats, profile, products), ScoreOf) ==>
      x.score == StyleMatch(cats, profile, x.product) && x.product in products
  {
    var s := Scored(cats, profile, products);
    var ranked := Sorting.SortDesc(s, ScoreOf);
    Sorting.SortDescCorrect(s, ScoreOf);
    forall x | x in ranked ensures x.score == StyleMatch(cats, profile, x.product) && x.product in products {
      assert x in multiset(s);
      var k :| 0 <= k < |s| && s[k] == x;
    }
  }

  /** A non-negative limit yields `min(limit, |products|)` recommendations, each one of the products. */
  lemma RecommendationCount(cats: seq<string>, profile: StyleProfile, products: seq<Product>, limit: nat)
    ensures var r := RecommendedProducts(cats, profile, products, limit);
      && |r| == (if limit <= |products| then limit else |products|)
      && forall i :: 0 <= i < |r| ==> r[i] in products
  {
    var ranked := Sorting.SortDesc(Scored(cats, profile, products), ScoreOf);
    var top := JsBuiltins.SliceTo(ranked, limit);
    RankedScores(cats, profile, products);
    forall i | 0 <= i < |top| ensures ProductsOf(top)[i] in products {
      assert top[i] == ranked[i];
      assert ranked[i] in ranked;
      assert ProductsOf(top)[i] == ranked[i].product;
    }
  }

  /** Recommendations come in order of non-increasing style match. */
  lemma RecommendationsOrdered(cats: seq<string>, profile: StyleProfile, products: seq<Product>, limit: int)
    ensures var r := RecommendedProducts(cats, profile, products, limit);
      forall i, j :: 0 <= i < j < |r| ==> StyleMatch(cats, profile, r[i]) >= StyleMatch(cats, profile, r[j])
  {
    var ranked := Sorting.SortDesc(Scored(cats, profile, products), ScoreOf);
    Sorting.SortDescCorrect(Scored(cats, profile, products), ScoreOf);
    RankedScores(cats, profile, products);
    var top := JsBuiltins.SliceTo(ranked, limit);
    forall i, j | 0 <= i < j < |top| ensures ScoreOf(top[i]) >= ScoreOf(top[j]) {
      assert top[i] == ranked[i] && top[j] == ranked[j];
    }
  }

  /** A product left out of the recommendations scores no higher than any product recommended. */
  lemma RecommendationsAreBest(cats: seq<string>, profile: StyleProfile, products: seq<Product>, limit: int, p: Product, q: Product)
    requires p in products && p !in RecommendedProducts(cats, profile, products, limit)
    requires q in RecommendedProducts(cats, profile, products, limit)
    ensures StyleMatch(cats, profile, q) >= StyleMatch(cats, profile, p)
  {
    var s := Scored(cats, profile, products);
    var ranked := Sorting.SortDesc(s, ScoreOf);
    var top := JsBuiltins.SliceTo(ranked, limit);
    var k := |top|;
    assert top == ranked[..k];
    Sorting.TopDominates(s, ScoreOf, k);
    RankedScores(cats, profile, products);
    var x := ScoredProduct(p, StyleMatch(cats, profile, p));
    var ip :| 0 <= ip < |products| && products[ip] == p;
    assert s[ip] == x;
    assert x !in top;
    var iq :| 0 <= iq < |ProductsOf(top)| && ProductsOf(top)[iq] == q;
    var y := top[iq];
    assert ranked[iq] == y;
    assert y in top;
    assert x in multiset(s) - multiset(top);
    assert ScoreOf(y) >= ScoreOf(x);
  }

  // ---------------------------------------------------------------- generateStyleDescription

  /** `preferences.filter(pref => pref.value > 0.7)`, order kept. */
  function Strong(prefs: seq<Preference>): (r: seq<Preference>)
    ensures forall x :: x in r <==> x in prefs && x.value > 0.7
    ensures |r| <= |prefs|
    decreases |prefs|
  {
    if |prefs| == 0 then []
    else if prefs[|prefs| - 1].value > 0.7 then Strong(prefs[..|prefs| - 1]) + [prefs[|prefs| - 1]]
    else Strong(prefs[..|prefs| - 1])
  }

  function ValueOf(p: Preference): real {
    p.value
  }

  /** The dominant styles: the strong preferences by descending value, at most three of them. */
  function DominantStyles(prefs: seq<Preference>): seq<Preference> {
    JsBuiltins.SliceTo(Sorting.SortDesc(Strong(prefs), ValueOf), 3)
  }

  /** The phrase for one category: five named categories have their own, any other is lower-cased. */
  function Describe(category: string): string {
    if category == "Casual" then "relaxed and comfortable"
    else if category == "Formal" then "elegant and sophisticated"
    else if category == "Sporty" then "athletic and energetic"
    else if category == "Bohemian" then "free-spirited and artistic"
    else if category == "Vintage" then "classic and timeless"
    else JsBuiltins.LowerCase(category)
  }

  /** `parts.join(sep)`. */
  function Join(parts: seq<string>, sep: string): (r: string)
    ensures |parts| == 1 ==> r == parts[0]
    decreases |parts|
  {
    if |parts| == 0 then ""
    else if |parts| == 1 then parts[0]
    else Join(parts[..|parts| - 1], sep) + sep + parts[|parts| - 1]
  }

  function Describe3(styles: seq<Preference>): (r: seq<string>)
    ensures |r| == |styles| && forall i :: 0 <= i < |styles| ==> r[i] == Describe(styles[i].category)
  {
    seq(|styles|, i requires 0 <= i < |styles| => Describe(styles[i].category))
  }

  const Eclectic: string :=
    "Your style is eclectic and diverse, " + "incorporating elements from various fashion categories."

  /** The sentence around the joined phrases of the dominant styles. */
  function Predominant(phrases: string): string {
    "Your style is predominantly " + phrases + ", reflecting a unique and personal fashion sense."
  }

  lemma PredominantIsNotEclectic(phrases: string)
    ensures Predominant(phrases) != Eclectic
  {
    assert Predominant(phrases)[14] == 'p';
    assert Eclectic[14] == 'e';
  }

  /** `generateStyleDescription`. */
  function GenerateStyleDescription(profile: StyleProfile): (r: string)
    ensures |Strong(profile.preferences)| == 0 ==> r == Eclectic
  {
    var dominant := DominantStyles(profile.preferences);
    if |dominant| == 0 then Eclectic
    else Predominant(Join(Describe3(dominant), ", "))
  }

  /** At most three dominant styles, each a preference of the profile with value above 0.7, by descending value. */
  lemma DominantStylesShape(prefs: seq<Preference>)
    ensures var d := DominantStyles(prefs);
      && |d| == (if |Strong(prefs)| <= 3 then |Strong(prefs)| else 3)
      && (forall i :: 0 <= i < |d| ==> d[i] in prefs && d[i].value > 0.7)
      && (forall i, j :: 0 <= i < j < |d| ==> d[i].value >= d[j].value)
  {
    var sorted := Sorting.SortDesc(Strong(prefs), ValueOf);
    Sorting.SortDescCorrect(Strong(prefs), ValueOf);
    var d := DominantStyles(prefs);
    forall i | 0 <= i < |d| ensures d[i] in prefs && d[i].value > 0.7 {
      assert d[i] == sorted[i];
      assert sorted[i] in multiset(Strong(prefs));
    }
    forall i, j | 0 <= i < j < |d| ensures d[i].value >= d[j].value {
      assert d[i] == sorted[i] && d[j] == sorted[j];
      assert ValueOf(sorted[i]) >= ValueOf(sorted[j]);
    }
  }

  /** A strong preference left out of the dominant styles is valued no higher than any dominant one. */
  lemma DominantStylesAreStrongest(prefs: seq<Preference>, p: Preference, q: Preference)
    requires p in prefs && p.value > 0.7 && p !in DominantStyles(prefs)
    requires q in DominantStyles(prefs)
    ensures q.value >= p.value
  {
    var s := Strong(prefs);
    var sorted := Sorting.SortDesc(s, ValueOf);
    var d := DominantStyles(prefs);
    assert d == sorted[..|d|];
    Sorting.TopDominates(s, ValueOf, |d|);
    assert p in multiset(s);
    assert p !in multiset(d);
    assert ValueOf(q) >= ValueOf(p);
  }

  /** The eclectic text is returned exactly when no preference has a value above 0.7. */
  lemma EclecticIffNothingStrong(profile: StyleProfile)
    ensures GenerateStyleDescription(profile) == Eclectic
        <==> forall i :: 0 <= i < |profile.preferences| ==> profile.preferences[i].value <= 0.7
  {
    var prefs := profile.preferences;
    DominantStylesShape(prefs);
    var d := DominantStyles(prefs);
    if |d| == 0 {
      forall i | 0 <= i < |prefs| ensures prefs[i].value <= 0.7 {
        assert prefs[i] !in Strong(prefs);
      }
    } else {
      PredominantIsNotEclectic(Join(Describe3(d), ", "));
      assert d[0] in prefs;
    }
  }

  /** A profile with exactly one preference above 0.7 is described by that preference's category alone. */
  lemma SingleDominantStyle(profile: StyleProfile)
    requires |Strong(profile.preferences)| == 1
    ensures GenerateStyleDescription(profile)
      == "Your style is predominantly " + Describe(Strong(profile.preferences)[0].category)
         + ", reflecting a unique and personal fashion sense."
  {
    var strong := Strong(profile.preferences);
    assert strong == [strong[0]];
    assert Sorting.SortDesc(strong, ValueOf) == [strong[0]] by {
      assert strong[..0] == [];
    }
    assert DominantStyles(profile.preferences) == [strong[0]];
    assert Describe3([strong[0]]) == [Describe(strong[0].category)];
  }
}
