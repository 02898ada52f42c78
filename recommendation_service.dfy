/**
 * The recommendation service: the queries it builds (products of the preferred style lines, peer
 * users, similar-product candidates, purchase counts) as in-memory filters and folds, and what
 * each call returns. The ranking, scoring and interaction helpers have empty bodies and return
 * `undefined`; the model keeps that: `RankRecommendations` and `RankSimilarProducts` give `None`,
 * the popularity score is the same for every product, and the preference helpers give no
 * preferences.
 */
module RecommendationService {
  import opened Wrappers
  import JsBuiltins
  import Sorting
  import ProductModel
  import OrderModel
  import opened BackendStore
  import StyleProfileModel
  import OrderService

  type Product = ProductModel.Product
  type Order = OrderModel.Order
  type StylePreference = StyleProfileModel.StylePreference

  /** A user document with its style profile populated: the profile's preferences, if the user has a profile. */
  datatype UserRecord = UserRecord(id: nat, styleProfile: Option<seq<StylePreference>>)

  function FindUser(users: seq<UserRecord>, id: nat): (r: Option<UserRecord>)
    ensures r.Some? ==> r.value in users && r.value.id == id
    ensures r.None? <==> forall i :: 0 <= i < |users| ==> users[i].id != id
    decreases |users|
  {
    if |users| == 0 then None
    else if users[|users| - 1].id == id then Some(users[|users| - 1])
    else FindUser(users[..|users| - 1], id)
  }

  /** `(user.styleProfile?.preferences || []).map(pref => pref.styleLine)`. */
  function PreferredStyleLines(profile: Option<seq<StylePreference>>): (r: seq<string>)
    ensures profile.None? ==> r == []
    ensures profile.Some? ==> |r| == |profile.value| && forall i :: 0 <= i < |r| ==> r[i] == profile.value[i].styleLine
  {
    if profile.None? then []
    else seq(|profile.value|, i requires 0 <= i < |profile.value| => profile.value[i].styleLine)
  }

  /**
   * `Product.find({ styleLine: { $in: lines } })`. A product's style line is a document id and the
   * preferred lines are style-line names; no name casts to a document id, so a non-empty list
   * makes the query fail, and the empty list matches nothing.
   */
  function MatchingProducts(ps: seq<Product>, lines: seq<string>): (r: Result<seq<Product>, ServiceError>)
    ensures r.Success? <==> |lines| == 0
    ensures r.Success? ==> r.value == []
  {
    if |lines| == 0 then Success([]) else Failure(DatabaseError)
  }

  /** The user has a preference on one of the given style lines. */
  predicate PrefersOneOf(u: UserRecord, lines: seq<string>) {
    u.styleProfile.Some? && exists p :: p in u.styleProfile.value && p.styleLine in lines
  }

  /** The peer query: users other than the target with a preference on one of the target's lines. */
  function PeerUsers(users: seq<UserRecord>, lines: seq<string>, target: nat): (r: seq<UserRecord>)
    ensures forall u :: u in r <==> u in users && u.id != target && PrefersOneOf(u, lines)
    decreases |users|
  {
    if |users| == 0 then []
    else
      var u := users[|users| - 1];
      PeerUsers(users[..|users| - 1], lines, target) + (if u.id != target && PrefersOneOf(u, lines) then [u] else [])
  }

  /** Peers are found only through shared style lines: a user without preferred lines has no peers. */
  lemma NoPreferredLinesNoPeers(users: seq<UserRecord>, target: nat)
    ensures PeerUsers(users, [], target) == []
  {
  }

  /** `Order.find({ user: { $in: peers } })`, in collection order. */
  function OrdersOfUsers(orders: seq<Order>, peers: seq<UserRecord>): (r: seq<Order>)
    ensures forall o :: o in r <==> o in orders && exists u :: u in peers && u.id == o.user
    decreases |orders|
  {
    if |orders| == 0 then []
    else
      var o := orders[|orders| - 1];
      OrdersOfUsers(orders[..|orders| - 1], peers) + (if exists u :: u in peers && u.id == o.user then [o] else [])
  }

  /** `rankRecommendations`: its body is empty, so it returns `undefined`. */
  function RankRecommendations(matching: seq<Product>, history: seq<Order>, peerOrders: seq<Order>): Option<seq<Product>> {
    None
  }

  /** `rankSimilarProducts`: its body is empty, so it returns `undefined`. */
  function RankSimilarProducts(product: Product, similar: seq<Product>): Option<seq<Product>> {
    None
  }

  /** `ranked.slice(0, limit)`: a `TypeError` when `ranked` is `undefined`. */
  function SliceRanked(ranked: Option<seq<Product>>, limit: int): (r: Result<seq<Product>, ServiceError>)
    ensures ranked.None? <==> r == Failure(TypeError)
    ensures r.Success? ==> r.value == JsBuiltins.SliceTo(ranked.value, limit)
  {
    if ranked.None? then Failure(TypeError) else Success(JsBuiltins.SliceTo(ranked.value, limit))
  }

  /** The body of `getPersonalizedRecommendations`' `try` block. */
  function PersonalizedSteps(users: seq<UserRecord>, ps: seq<Product>, orders: seq<Order>, userId: nat, limit: int): Result<seq<Product>, ServiceError> {
    match FindUser(users, userId)
    case None => Failure(ApiError(404, "User not found"))
    case Some(user) =>
      var history := OrderService.OrdersOf(orders, userId);
      var lines := PreferredStyleLines(user.styleProfile);
      match MatchingProducts(ps, lines)
      case Failure(e) => Failure(e)
      case Success(matching) =>
        var peers := PeerUsers(users, lines, userId);
        var peerOrders := OrdersOfUsers(orders, peers);
        SliceRanked(RankRecommendations(matching, history, peerOrders), limit)
  }

  /** `getPersonalizedRecommendations`: every failure of the `try` block, the 404 included, becomes a 500. */
  function GetPersonalizedRecommendations(users: seq<UserRecord>, ps: seq<Product>, orders: seq<Order>, userId: nat, limit: int): (r: Result<seq<Product>, ServiceError>)
    ensures PersonalizedSteps(users, ps, orders, userId, limit).Failure? ==>
      r == Failure(ApiError(500, "Error generating personalized recommendations"))
    ensures PersonalizedSteps(users, ps, orders, userId, limit).Success? ==>
      r == PersonalizedSteps(users, ps, orders, userId, limit)
  {
    match PersonalizedSteps(users, ps, orders, userId, limit)
    case Failure(_) => Failure(ApiError(500, "Error generating personalized recommendations"))
    case Success(products) => Success(products)
  }

  /** As written, every call ends in the 500 error: an unknown user, the query or the `undefined` ranking. */
  lemma PersonalizedAlwaysFails(users: seq<UserRecord>, ps: seq<Product>, orders: seq<Order>, userId: nat, limit: int)
    ensures GetPersonalizedRecommendations(users, ps, orders, userId, limit)
         == Failure(ApiError(500, "Error generating personalized recommendations"))
    ensures FindUser(users, userId).None? ==>
      PersonalizedSteps(users, ps, orders, userId, limit) == Failure(ApiError(404, "User not found"))
  {
  }

  /** Some colour of `p` is one of `colors` (`colors: { $in: colors }` on an array path). */
  predicate SharesColour(p: Product, colors: seq<string>) {
    exists c :: c in p.colors && c in colors
  }

  /** The similar-product query for the source product `src`. */
  predicate SimilarCandidate(src: Product, p: Product) {
    && p.id != src.id
    && p.styleLine == src.styleLine
    && SharesColour(p, src.colors)
    && src.basePrice * 0.8 <= p.basePrice <= src.basePrice * 1.2
  }

  function SimilarCandidates(ps: seq<Product>, src: Product): (r: seq<Product>)
    ensures forall p :: p in r <==> p in ps && SimilarCandidate(src, p)
    ensures |r| <= |ps|
    decreases |ps|
  {
    if |ps| == 0 then []
    else
      var p := ps[|ps| - 1];
      SimilarCandidates(ps[..|ps| - 1], src) + (if SimilarCandidate(src, p) then [p] else [])
  }

  /**
   * The candidates never include the source product, share its style line and at least one of its
   * colours, and are priced within the inclusive band from 80 % to 120 % of its price; a product
   * without colours has no candidates.
   */
  lemma CandidatesAreSimilar(ps: seq<Product>, src: Product)
    ensures forall p :: p in SimilarCandidates(ps, src) ==>
      && p.id != src.id && p != src
      && p.styleLine == src.styleLine
      && (exists c :: c in p.colors && c in src.colors)
      && src.basePrice * 0.8 <= p.basePrice <= src.basePrice * 1.2
    ensures src.colors == [] ==> SimilarCandidates(ps, src) == []
  {
    if src.colors == [] && SimilarCandidates(ps, src) != [] {
      assert SimilarCandidates(ps, src)[0] in SimilarCandidates(ps, src);
    }
  }

  /** The body of `getSimilarProducts`' `try` block. */
  function SimilarSteps(ps: seq<Product>, productId: nat, limit: int): Result<seq<Product>, ServiceError> {
    match FindProduct(ps, productId)
    case None => Failure(ApiError(404, "Product not found"))
    case Some(k) =>
      var src := ps[k];
      SliceRanked(RankSimilarProducts(src, SimilarCandidates(ps, src)), limit)
  }

  /** `getSimilarProducts`: every failure of the `try` block becomes a 500. */
  function GetSimilarProducts(ps: seq<Product>, productId: nat, limit: int): (r: Result<seq<Product>, ServiceError>)
    ensures SimilarSteps(ps, productId, limit).Failure? ==> r == Failure(ApiError(500, "Error finding similar products"))
    ensures SimilarSteps(ps, productId, limit).Success? ==> r == SimilarSteps(ps, productId, limit)
  {
    match SimilarSteps(ps, productId, limit)
    case Failure(_) => Failure(ApiError(500, "Error finding similar products"))
    case Success(products) => Success(products)
  }

  /** As written, every call ends in the 500 error, whether or not the product exists. */
  lemma SimilarAlwaysFails(ps: seq<Product>, productId: nat, limit: int)
    ensures GetSimilarProducts(ps, productId, limit) == Failure(ApiError(500, "Error finding similar products"))
    ensures FindProduct(ps, productId).None? ==> SimilarSteps(ps, productId, limit) == Failure(ApiError(404, "Product not found"))
  {
  }

  /** `$unwind: '$items'`: the `product` of every line of every order, orders and lines in collection order. */
  function LineProducts(orders: seq<Order>): (r: seq<Option<nat>>)
    decreases |orders|
  {
    if |orders| == 0 then []
    else
      var items := orders[|orders| - 1].items;
      LineProducts(orders[..|orders| - 1]) + seq(|items|, i requires 0 <= i < |items| => items[i].product)
  }

  /** A line names `x` exactly when some order has a line whose product is `x`. */
  lemma {:induction false} LineProductsMembers(orders: seq<Order>, x: Option<nat>)
    ensures x in LineProducts(orders) <==>
      exists k, i :: 0 <= k < |orders| && 0 <= i < |orders[k].items| && orders[k].items[i].product == x
    decreases |orders|
  {
    if |orders| > 0 {
      var init := orders[..|orders| - 1];
      LineProductsMembers(init, x);
      var items := orders[|orders| - 1].items;
      var tail := seq(|items|, i requires 0 <= i < |items| => items[i].product);
      assert LineProducts(orders) == LineProducts(init) + tail;
      if x in tail {
        var i :| 0 <= i < |tail| && tail[i] == x;
        assert orders[|orders| - 1].items[i].product == x;
      }
      if exists k, i :: 0 <= k < |orders| && 0 <= i < |orders[k].items| && orders[k].items[i].product == x {
        var k, i :| 0 <= k < |orders| && 0 <= i < |orders[k].items| && orders[k].items[i].product == x;
        if k < |orders| - 1 {
          assert init[k] == orders[k];
        } else {
          assert tail[i] == x;
        }
      }
    }
  }

  /** Quantities play no part: two order lists whose lines name the same products give the same lines. */
  lemma {:induction false} LineProductsIgnoreQuantity(orders: seq<Order>, others: seq<Order>)
    requires |orders| == |others|
    requires forall k :: 0 <= k < |orders| ==> |orders[k].items| == |others[k].items|
    requires forall k, i :: 0 <= k < |orders| && 0 <= i < |orders[k].items| ==> orders[k].items[i].product == others[k].items[i].product
    ensures LineProducts(orders) == LineProducts(others)
    decreases |orders|
  {
    if |orders| > 0 {
      LineProductsIgnoreQuantity(orders[..|orders| - 1], others[..|others| - 1]);
    }
  }

  function Count<T(==)>(s: seq<T>, x: T): nat
    decreases |s|
  {
    if |s| == 0 then 0 else Count(s[..|s| - 1], x) + (if s[|s| - 1] == x then 1 else 0)
  }

  lemma {:induction false} CountPositive<T>(s: seq<T>, x: T)
    ensures Count(s, x) > 0 <==> x in s
    decreases |s|
  {
    if |s| > 0 {
      CountPositive(s[..|s| - 1], x);
      assert s == s[..|s| - 1] + [s[|s| - 1]];
    }
  }

  /** The distinct elements of `s`, in the order of their first appearance. */
  function Distinct(s: seq<Option<nat>>): (r: seq<Option<nat>>)
    ensures forall x :: x in r <==> x in s
    ensures forall i, j :: 0 <= i < j < |r| ==> r[i] != r[j]
    decreases |s|
  {
    if |s| == 0 then []
    else
      var init := Distinct(s[..|s| - 1]);
      if s[|s| - 1] in init then init else init + [s[|s| - 1]]
  }

  /** One group of `$group: { _id: '$items.product', count: { $sum: 1 } }`. */
  datatype Popularity = Popularity(product: Option<nat>, count: nat)

  function CountOf(g: Popularity): real {
    g.count as real
  }

  function Groups(keys: seq<Option<nat>>, lines: seq<Option<nat>>): (r: seq<Popularity>)
    ensures |r| == |keys|
    ensures forall i :: 0 <= i < |keys| ==> r[i] == Popularity(keys[i], Count(lines, keys[i]))
  {
    seq(|keys|, i requires 0 <= i < |keys| => Popularity(keys[i], Count(lines, keys[i])))
  }

  /** The aggregation: one group per product, counting order lines, by descending count. */
  function PopularProductIds(orders: seq<Order>): seq<Popularity> {
    var lines := LineProducts(orders);
    Sorting.SortDesc(Groups(Distinct(lines), lines), CountOf)
  }

  /**
   * Each group counts the lines naming its product (one per line, whatever the quantity), every
   * product ordered has exactly one group, and the groups come by descending count.
   */
  lemma PopularProductIdsShape(orders: seq<Order>)
    ensures var groups := PopularProductIds(orders);
      var lines := LineProducts(orders);
      && Sorting.SortedDesc(groups, CountOf)
      && (forall g :: g in groups ==> g.count == Count(lines, g.product) && g.count > 0)
      && (forall x :: x in lines <==> exists g :: g in groups && g.product == x)
      && (forall i, j :: 0 <= i < j < |groups| ==> groups[i].product != groups[j].product)
  {
    var lines := LineProducts(orders);
    var keys := Distinct(lines);
    var unsorted := Groups(keys, lines);
    var groups := PopularProductIds(orders);
    Sorting.SortDescCorrect(unsorted, CountOf);
    forall g | g in groups ensures g in unsorted {
      assert g in multiset(groups);
    }
    forall g | g in groups ensures g.count == Count(lines, g.product) && g.count > 0 {
      var i :| 0 <= i < |unsorted| && unsorted[i] == g;
      CountPositive(lines, keys[i]);
    }
    forall x | x in lines ensures exists g :: g in groups && g.product == x {
      var i :| 0 <= i < |keys| && keys[i] == x;
      assert unsorted[i] in multiset(groups);
    }
    forall i, j | 0 <= i < j < |groups| ensures groups[i].product != groups[j].product {
      DistinctGroups(unsorted, groups, keys, lines, i, j);
    }
  }

  /** Two places of the sorted groups hold two different groups of the unsorted ones, so different products. */
  lemma DistinctGroups(unsorted: seq<Popularity>, groups: seq<Popularity>, keys: seq<Option<nat>>, lines: seq<Option<nat>>, i: nat, j: nat)
    requires unsorted == Groups(keys, lines) && multiset(groups) == multiset(unsorted)
    requires forall a, b :: 0 <= a < b < |keys| ==> keys[a] != keys[b]
    requires i < j < |groups|
    ensures groups[i].product != groups[j].product
  {
    if groups[i].product == groups[j].product {
      assert groups[i] in multiset(unsorted) && groups[j] in multiset(unsorted);
      var a :| 0 <= a < |unsorted| && unsorted[a] == groups[i];
      var b :| 0 <= b < |unsorted| && unsorted[b] == groups[j];
      assert a == b;
      assert groups[i] == groups[j];
      var m := multiset(groups);
      assert groups == groups[..i] + [groups[i]] + groups[i + 1..j] + [groups[j]] + groups[j + 1..];
      assert m[groups[i]] >= 2;
      MultiplicityInGroups(unsorted, keys, lines, a);
    }
  }

  /** Each group occurs once among the unsorted groups, since their products differ. */
  lemma MultiplicityInGroups(unsorted: seq<Popularity>, keys: seq<Option<nat>>, lines: seq<Option<nat>>, a: nat)
    requires unsorted == Groups(keys, lines) && a < |unsorted|
    requires forall x, y :: 0 <= x < y < |keys| ==> keys[x] != keys[y]
    ensures multiset(unsorted)[unsorted[a]] == 1
  {
    assert unsorted == unsorted[..a] + [unsorted[a]] + unsorted[a + 1..];
    assert unsorted[a] !in unsorted[..a];
    assert unsorted[a] !in unsorted[a + 1..] by {
      forall k | a < k < |unsorted| ensures unsorted[k] != unsorted[a] {
      }
    }
    assert multiset(unsorted[..a])[unsorted[a]] == 0;
    assert multiset(unsorted[a + 1..])[unsorted[a]] == 0;
  }

  /** The product query `{ _id: { $in: popularProductIds } }`, with `styleLine: styleLineId` when one is given. */
  predicate PopularMatch(p: Product, groups: seq<Popularity>, styleLineId: Option<nat>) {
    (exists g :: g in groups && g.product == Some(p.id))
    && (styleLineId.Some? ==> p.styleLine == styleLineId.value)
  }

  function PopularQuery(ps: seq<Product>, groups: seq<Popularity>, styleLineId: Option<nat>): (r: seq<Product>)
    ensures forall p :: p in r <==> p in ps && PopularMatch(p, groups, styleLineId)
    ensures |r| <= |ps|
    decreases |ps|
  {
    if |ps| == 0 then []
    else
      var p := ps[|ps| - 1];
      PopularQuery(ps[..|ps| - 1], groups, styleLineId) + (if PopularMatch(p, groups, styleLineId) then [p] else [])
  }

  /**
   * The popularity score: `calculatePopularityScore` returns `undefined`, so the comparator gives
   * NaN, which the sort treats as equal; the same score for every product expresses that.
   */
  function PopularityScore(p: Product): real {
    0.0
  }

  /** `getPopularProducts`: the matching products, ranked by popularity score, then `slice(0, limit)`. */
  function PopularProducts(ps: seq<Product>, orders: seq<Order>, limit: int, styleLineId: Option<nat>): (r: seq<Product>)
    ensures |r| <= |ps|
    ensures limit >= 0 ==> |r| <= limit
  {
    var found := PopularQuery(ps, PopularProductIds(orders), styleLineId);
    JsBuiltins.SliceTo(Sorting.SortDesc(found, PopularityScore), limit)
  }

  /**
   * The ranking keeps the catalogue order, so the result is the first products of the catalogue
   * that were ordered at least once (and are of the given style line): at most `limit` of them for
   * a non-negative limit.
   */
  lemma PopularProductsShape(ps: seq<Product>, orders: seq<Order>, limit: int, styleLineId: Option<nat>)
    ensures var found := PopularQuery(ps, PopularProductIds(orders), styleLineId);
      var r := PopularProducts(ps, orders, limit, styleLineId);
      && r == JsBuiltins.SliceTo(found, limit)
      && (limit >= 0 ==> |r| <= limit)
      && (forall p :: p in r ==>
            && p in ps && Count(LineProducts(orders), Some(p.id)) > 0
            && (styleLineId.Some? ==> p.styleLine == styleLineId.value))
  {
    var groups := PopularProductIds(orders);
    var found := PopularQuery(ps, groups, styleLineId);
    Sorting.SortDescOfSorted(found, PopularityScore);
    PopularProductIdsShape(orders);
    var r := PopularProducts(ps, orders, limit, styleLineId);
    forall p | p in r ensures p in ps && Count(LineProducts(orders), Some(p.id)) > 0 {
      assert p in found;
      var g :| g in groups && g.product == Some(p.id);
      CountPositive(LineProducts(orders), Some(p.id));
    }
  }

  /** `getPopularProducts`, sorting the query's result in place as the source does. */
  method GetPopularProducts(ps: seq<Product>, orders: seq<Order>, limit: int, styleLineId: Option<nat>) returns (r: seq<Product>)
    ensures r == PopularProducts(ps, orders, limit, styleLineId)
  {
    var found := PopularQuery(ps, PopularProductIds(orders), styleLineId);
    var popular := new Product[|found|](i requires 0 <= i < |found| => found[i]);
    assert popular[..] == found;
    Sorting.SortDescInPlace(popular, PopularityScore);
    r := JsBuiltins.SliceTo(popular[..], limit);
  }

  /**
   * `updateUserPreferences`, given the outcome of the user lookup and the populated profile
   * (`null` when the user has none). The interaction helpers return `undefined`; the model
   * assigns no preferences in its place, twice, and saves. Every failure becomes a 500.
   */
  method UpdateUserPreferences(userFound: bool, profile: StyleProfileModel.StyleProfile?, draws: seq<real>)
    returns (r: Result<(), ServiceError>)
    requires StyleProfileModel.Draws(draws)
    modifies profile
    ensures r.Success? <==> userFound && profile != null
    ensures r.Failure? ==> r.error == ApiError(500, "Error updating user preferences")
    ensures r.Success? ==>
      && !profile.quizModified
      && profile.preferences[..] == (if old(profile.quizModified) then StyleProfileModel.CalculateStylePreferences(draws) else [])
      && profile.user == old(profile.user) && profile.quizResponses == old(profile.quizResponses)
  {
    if !userFound || profile == null {
      return Failure(ApiError(500, "Error updating user preferences"));
    }
    var updated: seq<StylePreference> := [];
    profile.SetPreferences(updated);
    var recalculated: seq<StylePreference> := [];
    profile.SetPreferences(recalculated);
    var saved := profile.Save(draws);
    // An empty preferences array always passes validation.
    assert saved.Success?;
    r := Success(());
  }
}
