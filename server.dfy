/** The request handlers of server/index.js that carry logic: the login
    credential match, the recommendation pipeline and action tracking. */
module Server {
  import opened Schema
  import opened Grouping
  import opened Store
  import opened Ml

  // ---------------------------------------------------------------------
  // POST /api/login
  // ---------------------------------------------------------------------

  /** 200 `{ success: true, user: { id, username } }` or 401 'Invalid credentials'. */
  datatype LoginResponse = LoggedIn(id: int, username: string) | InvalidCredentials

  predicate CredentialsMatch(u: User, username: string, password: string) {
    u.username == username && u.password == password
  }

  /** `SELECT * FROM users WHERE username = ? AND password = ?`, first row. */
  function FindUser(users: seq<User>, username: string, password: string): (r: Option<User>)
    ensures r.Some? ==> r.value in users && CredentialsMatch(r.value, username, password)
    ensures r.None? ==> forall u :: u in users ==> !CredentialsMatch(u, username, password)
  {
    if users == [] then None
    else if CredentialsMatch(users[0], username, password) then Some(users[0])
    else FindUser(users[1..], username, password)
  }

  /** Login succeeds exactly when some user row matches both fields, and
      then answers with that row's id and username only. */
  function Login(users: seq<User>, username: string, password: string): (r: LoginResponse)
    ensures r.LoggedIn? <==> exists u :: u in users && CredentialsMatch(u, username, password)
    ensures r.LoggedIn? ==>
              exists u :: u in users && CredentialsMatch(u, username, password) && r.id == u.id && r.username == u.username
  {
    match FindUser(users, username, password)
    case Some(u) => LoggedIn(u.id, u.username)
    case None => InvalidCredentials
  }

  // ---------------------------------------------------------------------
  // GET /api/recommend
  // ---------------------------------------------------------------------

  /** One row of the per-user query: a product id and its three counts. */
  datatype ProductGroup = ProductGroup(productId: string, counts: Counts)

  function GroupIds(groups: seq<ProductGroup>): (ids: seq<string>)
    ensures |ids| == |groups|
    ensures forall i :: 0 <= i < |groups| ==> ids[i] == groups[i].productId
  {
    seq(|groups|, i requires 0 <= i < |groups| => groups[i].productId)
  }

  /** `... FROM actions WHERE userId = ? GROUP BY productId`: one group per
      product the user has any row for, with that product's counts. */
  function UserGroups(actions: seq<Action>, user: string): (groups: seq<ProductGroup>)
    ensures forall g :: g in groups ==> g.counts == Tally(actions, user, g.productId)
    ensures NoDuplicates(GroupIds(groups))
    ensures forall id :: id in GroupIds(groups) <==> exists a :: a in RowsOf(actions, user) && a.productId == id
  {
    var rows := RowsOf(actions, user);
    var productIds := seq(|rows|, i requires 0 <= i < |rows| => rows[i].productId);
    forall id
      ensures id in productIds <==> exists a :: a in rows && a.productId == id
    {
      if id in productIds {
        var k :| 0 <= k < |rows| && productIds[k] == id;
        assert rows[k] in rows;
      }
      if exists a :: a in rows && a.productId == id {
        var a :| a in rows && a.productId == id;
        var k :| 0 <= k < |rows| && rows[k] == a;
        assert productIds[k] == id;
      }
    }
    var ids := Distinct(productIds);
    var groups := seq(|ids|, i requires 0 <= i < |ids| => ProductGroup(ids[i], Tally(actions, user, ids[i])));
    assert GroupIds(groups) == ids;
    groups
  }

  /** A group exists for a product exactly when the user has a row for it. */
  lemma UserGroupsKeys(actions: seq<Action>, user: string, id: string)
    ensures id in GroupIds(UserGroups(actions, user)) <==>
            exists a :: a in actions && a.userId == user && a.productId == id
  {
    var rows := RowsOf(actions, user);
    if exists a :: a in actions && a.userId == user && a.productId == id {
      var a :| a in actions && a.userId == user && a.productId == id;
      assert a in rows;
    }
  }

  /** `userActions.find(a => a.productId === p.id)`. */
  function FindGroup(groups: seq<ProductGroup>, productId: string): (r: Option<ProductGroup>)
    ensures r.Some? ==> r.value in groups && r.value.productId == productId
    ensures r.None? ==> forall g :: g in groups ==> g.productId != productId
    ensures forall i ::
              (0 <= i < |groups| && groups[i].productId == productId &&
               forall j :: 0 <= j < i ==> groups[j].productId != productId) ==> r == Some(groups[i])
  {
    if groups == [] then None
    else if groups[0].productId == productId then Some(groups[0])
    else
      var rest := groups[1..];
      var r := FindGroup(rest, productId);
      assert forall i ::
               (1 <= i < |groups| && groups[i].productId == productId &&
                forall j :: 0 <= j < i ==> groups[j].productId != productId) ==> r == Some(groups[i]) by {
        forall i | 1 <= i < |groups| && groups[i].productId == productId &&
                   forall j :: 0 <= j < i ==> groups[j].productId != productId
          ensures r == Some(groups[i])
        {
          assert rest[i - 1] == groups[i];
          forall j | 0 <= j < i - 1
            ensures rest[j].productId != productId
          {
            assert rest[j] == groups[j + 1];
          }
        }
      }
      r
  }

  /** The counts a product is scored with: its group's, or all zeros when
      the user has no row for it. */
  function ActionsFor(groups: seq<ProductGroup>, productId: string): (c: Counts)
    ensures (forall g :: g in groups ==> g.productId != productId) ==> c == NoActivity
    ensures c == NoActivity || exists g :: g in groups && g.productId == productId && g.counts == c
    ensures forall i ::
              (0 <= i < |groups| && groups[i].productId == productId &&
               forall j :: 0 <= j < i ==> groups[j].productId != productId) ==> c == groups[i].counts
  {
    match FindGroup(groups, productId)
    case Some(g) => g.counts
    case None => NoActivity
  }

  /** For the requesting user, each product is scored with exactly the
      number of that user's view, click and buy rows for it; rows of other
      users do not count, and a product without rows gets (0, 0, 0). */
  lemma ActionsForIsTally(actions: seq<Action>, user: string, productId: string)
    ensures ActionsFor(UserGroups(actions, user), productId) == Tally(actions, user, productId)
    ensures ActionsFor(UserGroups(actions, user), productId) == Tally(RowsOf(actions, user), user, productId)
  {
    var groups := UserGroups(actions, user);
    if FindGroup(groups, productId).None? {
      UserGroupsKeys(actions, user, productId);
      TallyOfInactivePair(actions, user, productId);
    }
    CountKindIgnoresOtherUsers(actions, user, productId, ViewAction);
    CountKindIgnoresOtherUsers(actions, user, productId, ClickAction);
    CountKindIgnoresOtherUsers(actions, user, productId, BuyAction);
  }

  /** `Math.round(x)`: the nearest integer, halves rounded up. */
  function Round(x: real): (n: int)
    ensures x - 0.5 < n as real <= x + 0.5
  {
    (x + 0.5).Floor
  }

  lemma RoundMonotone(x: real, y: real)
    requires x <= y
    ensures Round(x) <= Round(y)
  {
  }

  /** A probability as a rounded integer percentage, always in [0, 100]. */
  function Percent(p: real): (n: int)
    requires 0.0 < p < 1.0
    ensures 0 <= n <= 100
  {
    Round(p * 100.0)
  }

  function CountsAsRaw(c: Counts): RawCounts {
    RawCounts(Numeric(c.view as real), Numeric(c.click as real), Numeric(c.buy as real))
  }

  function WeightsAsRaw(w: Weights): RawWeights {
    RawWeights(Numeric(w.bias), Numeric(w.wView), Numeric(w.wClick), Numeric(w.wBuy))
  }

  /** One entry of the answer: id, name, rounded percentage and the counts
      it was scored from. */
  datatype Recommendation = Recommendation(id: string, name: string, probability: int, actions: Counts)

  function Recommend1(p: Product, groups: seq<ProductGroup>, w: Weights): (r: Recommendation)
    ensures r.id == p.id && r.name == p.name
    ensures 0 <= r.probability <= 100
  {
    var actions := ActionsFor(groups, p.id);
    Recommendation(p.id, p.name, Percent(Predict(CountsAsRaw(actions), WeightsAsRaw(w))), actions)
  }

  /** `products.map(...)`: one entry per catalog product, in catalog order. */
  function ScoreCatalog(products: seq<Product>, groups: seq<ProductGroup>, w: Weights): (recs: seq<Recommendation>)
    ensures |recs| == |products|
    ensures forall i :: 0 <= i < |products| ==> recs[i] == Recommend1(products[i], groups, w)
  {
    seq(|products|, i requires 0 <= i < |products| => Recommend1(products[i], groups, w))
  }

  // The stable descending sort `.sort((a, b) => b.probability - a.probability)`.

  ghost predicate SortedByProbability(s: seq<Recommendation>) {
    forall i, j :: 0 <= i < j < |s| ==> s[i].probability >= s[j].probability
  }

  /** The entries with probability v, in their order in s. */
  function WithProbability(s: seq<Recommendation>, v: int): seq<Recommendation> {
    if s == [] then []
    else WithProbability(s[..|s| - 1], v) + (if s[|s| - 1].probability == v then [s[|s| - 1]] else [])
  }

  lemma WithProbabilitySnoc(s: seq<Recommendation>, r: Recommendation, v: int)
    ensures WithProbability(s + [r], v) == WithProbability(s, v) + (if r.probability == v then [r] else [])
  {
    assert (s + [r])[..|s|] == s;
  }

  /** Places r after every entry whose probability is at least its own. */
  function Insert(sorted: seq<Recommendation>, r: Recommendation): (t: seq<Recommendation>)
    ensures multiset(t) == multiset(sorted) + multiset{r}
    ensures |t| == |sorted| + 1
  {
    if sorted == [] then [r]
    else if sorted[|sorted| - 1].probability >= r.probability then sorted + [r]
    else
      var init, last := sorted[..|sorted| - 1], sorted[|sorted| - 1];
      assert sorted == init + [last];
      Insert(init, r) + [last]
  }

  /** Appending an entry no higher than every other keeps a list ordered. */
  lemma SortedSnoc(s: seq<Recommendation>, x: Recommendation)
    requires SortedByProbability(s)
    requires forall i :: 0 <= i < |s| ==> s[i].probability >= x.probability
    ensures SortedByProbability(s + [x])
  {
  }

  lemma SortedPrefix(s: seq<Recommendation>, n: nat)
    requires SortedByProbability(s) && n <= |s|
    ensures SortedByProbability(s[..n])
  {
  }

  lemma InsertMembers(sorted: seq<Recommendation>, r: Recommendation, i: nat)
    requires i < |Insert(sorted, r)|
    ensures Insert(sorted, r)[i] == r || Insert(sorted, r)[i] in sorted
  {
    var t := Insert(sorted, r);
    assert t[i] in multiset(t);
  }

  lemma {:induction false} InsertSorted(sorted: seq<Recommendation>, r: Recommendation)
    requires SortedByProbability(sorted)
    ensures SortedByProbability(Insert(sorted, r))
  {
    if sorted == [] {
      assert Insert(sorted, r) == [r];
    } else if sorted[|sorted| - 1].probability >= r.probability {
      assert Insert(sorted, r) == sorted + [r];
      SortedSnoc(sorted, r);
    } else {
      var init, last := sorted[..|sorted| - 1], sorted[|sorted| - 1];
      SortedPrefix(sorted, |sorted| - 1);
      InsertSorted(init, r);
      var t := Insert(init, r);
      assert Insert(sorted, r) == t + [last];
      forall i | 0 <= i < |t|
        ensures t[i].probability >= last.probability
      {
        InsertMembers(init, r, i);
        if t[i] != r {
          var k :| 0 <= k < |init| && init[k] == t[i];
          assert sorted[k] == init[k];
        }
      }
      SortedSnoc(t, last);
    }
  }

  /** Insertion keeps the relative order of entries with equal probability
      and puts r after those equal to it. */
  lemma {:induction false} InsertStable(sorted: seq<Recommendation>, r: Recommendation, v: int)
    ensures WithProbability(Insert(sorted, r), v) == WithProbability(sorted, v) + (if r.probability == v then [r] else [])
  {
    if sorted == [] {
      assert Insert(sorted, r) == [] + [r];
      WithProbabilitySnoc([], r, v);
    } else if sorted[|sorted| - 1].probability >= r.probability {
      assert Insert(sorted, r) == sorted + [r];
      WithProbabilitySnoc(sorted, r, v);
    } else {
      var init, last := sorted[..|sorted| - 1], sorted[|sorted| - 1];
      assert Insert(sorted, r) == Insert(init, r) + [last];
      InsertStable(init, r, v);
      WithProbabilitySnoc(Insert(init, r), last, v);
      assert sorted == init + [last];
      WithProbabilitySnoc(init, last, v);
    }
  }

  function SortByProbability(recs: seq<Recommendation>): (sorted: seq<Recommendation>)
    ensures |sorted| == |recs|
    ensures multiset(sorted) == multiset(recs)
  {
    if recs == [] then []
    else
      var init, last := recs[..|recs| - 1], recs[|recs| - 1];
      assert recs == init + [last];
      Insert(SortByProbability(init), last)
  }

  /** The sort orders by non-increasing probability. */
  lemma {:induction false} SortByProbabilitySorted(recs: seq<Recommendation>)
    ensures SortedByProbability(SortByProbability(recs))
  {
    if recs != [] {
      SortByProbabilitySorted(recs[..|recs| - 1]);
      InsertSorted(SortByProbability(recs[..|recs| - 1]), recs[|recs| - 1]);
    }
  }

  /** The sort is stable: entries of equal probability keep their order. */
  lemma {:induction false} SortByProbabilityStable(recs: seq<Recommendation>, v: int)
    ensures WithProbability(SortByProbability(recs), v) == WithProbability(recs, v)
  {
    if recs != [] {
      var init, last := recs[..|recs| - 1], recs[|recs| - 1];
      SortByProbabilityStable(init, v);
      InsertStable(SortByProbability(init), last, v);
    }
  }

  /** The answers of GET /api/recommend. */
  datatype RecommendResponse =
    | Recommendations(userId: string, recommendations: seq<Recommendation>)  // 200
    | UserIdRequired                                                         // 400
    | RecommendFailed                                                        // 500

  /** A query parameter that is absent or empty is falsy. */
  predicate Falsy(s: Option<string>)
    ensures !Falsy(s) <==> s.Some? && |s.value| > 0
  {
    s.None? || s.value == ""
  }

  /** The handler. A falsy userId answers 400 before anything is read. A
      missing weights row makes `predict` dereference undefined, and an
      empty catalog makes `recommendations[0]` undefined; both answer 500. */
  function Recommend(userId: Option<string>, products: seq<Product>, actions: seq<Action>, weights: Option<ModelRow>): (r: RecommendResponse)
    ensures r == UserIdRequired <==> Falsy(userId)
    ensures r == RecommendFailed <==> !Falsy(userId) && (products == [] || weights.None?)
    ensures r.Recommendations? ==> r.userId == userId.value && |r.recommendations| == |products|
  {
    if Falsy(userId) then UserIdRequired
    else if products == [] || weights.None? then RecommendFailed
    else
      var groups := UserGroups(actions, userId.value);
      Recommendations(userId.value, SortByProbability(ScoreCatalog(products, groups, weights.value.weights)))
  }

  /** A successful answer is a reordering of the scored catalog: one entry
      per product carrying its id, its name, an integer percentage in
      [0, 100] and the user's own counts for it; the entries come in
      non-increasing probability, and equal probabilities keep catalog
      order. */
  lemma RecommendSpec(userId: string, products: seq<Product>, actions: seq<Action>, row: ModelRow, v: int)
    requires userId != "" && products != []
    ensures var r := Recommend(Some(userId), products, actions, Some(row));
            var scored := ScoreCatalog(products, UserGroups(actions, userId), row.weights);
            && r.Recommendations?
            && multiset(r.recommendations) == multiset(scored)
            && SortedByProbability(r.recommendations)
            && WithProbability(r.recommendations, v) == WithProbability(scored, v)
            && (forall i :: 0 <= i < |products| ==>
                  scored[i].id == products[i].id && scored[i].name == products[i].name
                  && 0 <= scored[i].probability <= 100
                  && scored[i].actions == Tally(actions, userId, products[i].id))
  {
    var groups := UserGroups(actions, userId);
    var scored := ScoreCatalog(products, groups, row.weights);
    SortByProbabilitySorted(scored);
    SortByProbabilityStable(scored, v);
    forall i | 0 <= i < |products|
      ensures scored[i].actions == Tally(actions, userId, products[i].id)
    {
      ActionsForIsTally(actions, userId, products[i].id);
    }
  }

  /** Of two products whose counts differ only in clicks, the one with more
      clicks never gets the lower percentage when the click weight is
      positive; before rounding its probability is strictly higher. */
  lemma MoreClicksPercentAtLeastAsHigh(a: Product, b: Product, groups: seq<ProductGroup>, w: Weights)
    requires w.wClick > 0.0
    requires ActionsFor(groups, a.id).view == ActionsFor(groups, b.id).view
    requires ActionsFor(groups, a.id).buy == ActionsFor(groups, b.id).buy
    requires ActionsFor(groups, a.id).click < ActionsFor(groups, b.id).click
    ensures Predict(CountsAsRaw(ActionsFor(groups, a.id)), WeightsAsRaw(w))
            < Predict(CountsAsRaw(ActionsFor(groups, b.id)), WeightsAsRaw(w))
    ensures Recommend1(a, groups, w).probability <= Recommend1(b, groups, w).probability
  {
    var pa := Predict(CountsAsRaw(ActionsFor(groups, a.id)), WeightsAsRaw(w));
    var pb := Predict(CountsAsRaw(ActionsFor(groups, b.id)), WeightsAsRaw(w));
    PredictStrictInClicks(CountsAsRaw(ActionsFor(groups, a.id)), CountsAsRaw(ActionsFor(groups, b.id)), WeightsAsRaw(w));
    RoundMonotone(pa * 100.0, pb * 100.0);
  }

  // ---------------------------------------------------------------------
  // POST /api/track
  // ---------------------------------------------------------------------

  /** 200 `{ success: true }`, 400 'Missing required fields', or 500
      'Database error' when the INSERT fails. */
  datatype TrackResponse = TrackOk | MissingRequiredFields | DatabaseError

  /** The handler. A falsy field answers 400; otherwise exactly one row is
      appended, unless the foreign key on `actions.productId` rejects an
      unknown product, which answers 500 and appends nothing. */
  method Track(db: Database, userId: Option<string>, actionType: Option<string>, productId: Option<string>, now: string)
    returns (r: TrackResponse)
    modifies db
    ensures db.users == old(db.users) && db.products == old(db.products)
    ensures db.modelWeights == old(db.modelWeights) && db.trainingLogs == old(db.trainingLogs)
    ensures r == MissingRequiredFields <==> Falsy(userId) || Falsy(actionType) || Falsy(productId)
    ensures r == DatabaseError <==>
              !(Falsy(userId) || Falsy(actionType) || Falsy(productId)) && productId.value !in old(db.ProductIds())
    ensures r == TrackOk ==> db.actions == old(db.actions) + [Action(userId.value, actionType.value, productId.value, now)]
    ensures r != TrackOk ==> db.actions == old(db.actions)
  {
    if Falsy(userId) || Falsy(actionType) || Falsy(productId) {
      return MissingRequiredFields;
    }
    if productId.value !in db.ProductIds() {
      return DatabaseError;
    }
    db.actions := db.actions + [Action(userId.value, actionType.value, productId.value, now)];
    r := TrackOk;
  }
}
