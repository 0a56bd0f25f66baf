/** The recommendation scorer and trainer of server/ml.js: a logistic
    model over per-(user, product) interaction counts, refitted by
    stochastic gradient descent with per-weight floors. */
module Ml {
  import opened Schema
  import opened Grouping
  import opened Store

  const LearningRate: real := 0.01
  const Epochs: nat := 100

  /** The minimum each weight is clamped to after every update. */
  const ViewFloor: real := 0.1
  const ClickFloor: real := 0.5
  const BuyFloor: real := 1.0

  // ---------------------------------------------------------------------
  // The squashing function
  // ---------------------------------------------------------------------

  /** A logistic-shaped squashing function. The model relies only on the
      laws proved here and in SigmoidMonotone: the value lies strictly
      between 0 and 1, reaches one half exactly at z = 0, and grows with z. */
  function Sigmoid(z: real): (p: real)
    ensures 0.0 < p < 1.0
    ensures p >= 0.5 <==> z >= 0.0
  {
    if z >= 0.0 then 1.0 - Half(1.0 + z) else Half(1.0 - z)
  }

  /** 1 / (2d) for d >= 1, which lies in (0, 1/2]. */
  function Half(d: real): (h: real)
    requires d >= 1.0
    ensures 0.0 < h <= 0.5
    ensures d > 1.0 ==> h < 0.5
  {
    1.0 / (2.0 * d)
  }

  lemma HalfAntitone(d: real, e: real)
    requires 1.0 <= d < e
    ensures Half(e) < Half(d)
  {
    var x, y := 2.0 * d, 2.0 * e;
    var a, b := 1.0 / x, 1.0 / y;
    assert a * x == 1.0;
    assert b * y == 1.0;
    MulStrict(b, x, y);
    assert (a - b) * x == a * x - b * x;
    PositiveFactor(a - b, x);
  }

  /** A positive factor keeps a strict order. */
  lemma MulStrict(k: real, x: real, y: real)
    requires k > 0.0 && x < y
    ensures k * x < k * y
  {
    assert k * y - k * x == k * (y - x);
    assert k * (y - x) > 0.0;
  }

  /** If p * x is positive and x is positive, so is p. */
  lemma PositiveFactor(p: real, x: real)
    requires x > 0.0 && p * x > 0.0
    ensures p > 0.0
  {
    if p <= 0.0 {
      MulMonotone(x, p, 0.0);
      assert false;
    }
  }

  /** A ratio c / n of 0 <= c <= n lies in [0, 1], reaching 1 only at
      c = n and 0 only at c = 0. */
  lemma RatioBounds(c: real, n: real)
    requires n > 0.0 && 0.0 <= c <= n
    ensures 0.0 <= c / n <= 1.0
    ensures c / n == 1.0 <==> c == n
    ensures c / n == 0.0 <==> c == 0.0
  {
    var r := c / n;
    assert r * n == c;
    if r < 0.0 {
      MulStrict(n, r, 0.0);
      assert false;
    }
    if r > 1.0 {
      MulStrict(n, 1.0, r);
      assert false;
    }
    if r == 1.0 {
      assert c == n;
    }
    if r == 0.0 {
      assert c == 0.0 * n;
    }
  }

  /** The squashing function is strictly increasing. */
  lemma SigmoidMonotone(a: real, b: real)
    requires a < b
    ensures Sigmoid(a) < Sigmoid(b)
  {
    if a >= 0.0 {
      HalfAntitone(1.0 + a, 1.0 + b);
    } else if b < 0.0 {
      HalfAntitone(1.0 - b, 1.0 - a);
    }
  }

  // ---------------------------------------------------------------------
  // Scoring
  // ---------------------------------------------------------------------

  /** The linear score z = bias + w_view*vc + w_click*cc + w_buy*bc. */
  function Score(w: Weights, vc: real, cc: real, bc: real): (z: real)
    ensures vc == 0.0 && cc == 0.0 && bc == 0.0 ==> z == w.bias
  {
    w.bias + w.wView * vc + w.wClick * cc + w.wBuy * bc
  }

  /** A field of a loosely typed record as `Number(x)` sees it: a number,
      or something that converts to NaN or is absent. */
  datatype RawNumber = Numeric(value: real) | NotNumeric

  /** `Number(x) || 0`: anything that is not a number counts as 0. */
  function Coerce(x: RawNumber): (r: real)
    ensures x.Numeric? ==> r == x.value
    ensures r == 0.0 <==> x.NotNumeric? || x.value == 0.0
  {
    match x
    case Numeric(v) => v
    case NotNumeric => 0.0
  }

  datatype RawCounts = RawCounts(viewCount: RawNumber, clickCount: RawNumber, buyCount: RawNumber)
  datatype RawWeights = RawWeights(bias: RawNumber, wView: RawNumber, wClick: RawNumber, wBuy: RawNumber)

  function CoerceWeights(w: RawWeights): Weights {
    Weights(Coerce(w.bias), Coerce(w.wView), Coerce(w.wClick), Coerce(w.wBuy))
  }

  function RawScore(actions: RawCounts, weights: RawWeights): real {
    Score(CoerceWeights(weights), Coerce(actions.viewCount), Coerce(actions.clickCount), Coerce(actions.buyCount))
  }

  /** `predict`: the purchase likelihood of one (user, product) pair. It
      never fails, is a probability strictly inside (0, 1), and is at
      least one half exactly when the linear score is non-negative. */
  function Predict(actions: RawCounts, weights: RawWeights): (p: real)
    ensures 0.0 < p < 1.0
    ensures p >= 0.5 <==> RawScore(actions, weights) >= 0.0
  {
    Sigmoid(RawScore(actions, weights))
  }

  function ZeroFilled(x: RawNumber): RawNumber {
    Numeric(Coerce(x))
  }

  /** Missing or non-numeric fields score exactly as zeros would. */
  lemma PredictTreatsMissingAsZero(a: RawCounts, w: RawWeights)
    ensures Predict(a, w) == Predict(RawCounts(ZeroFilled(a.viewCount), ZeroFilled(a.clickCount), ZeroFilled(a.buyCount)),
                                     RawWeights(ZeroFilled(w.bias), ZeroFilled(w.wView), ZeroFilled(w.wClick), ZeroFilled(w.wBuy)))
    ensures Predict(RawCounts(NotNumeric, NotNumeric, NotNumeric), w) == Sigmoid(Coerce(w.bias))
  {
  }

  lemma MulMonotone(k: real, x: real, y: real)
    requires k >= 0.0 && x <= y
    ensures k * x <= k * y
  {
    assert k * y - k * x == k * (y - x);
  }

  lemma SumMonotone(bias: real, p1: real, p2: real, p3: real, q1: real, q2: real, q3: real)
    requires p1 <= q1 && p2 <= q2 && p3 <= q3
    ensures bias + p1 + p2 + p3 <= bias + q1 + q2 + q3
  {
  }

  lemma ScoreMonotone(w: Weights, va: real, ca: real, ba: real, vb: real, cb: real, bb: real)
    requires w.wView >= 0.0 && w.wClick >= 0.0 && w.wBuy >= 0.0
    requires va <= vb && ca <= cb && ba <= bb
    ensures Score(w, va, ca, ba) <= Score(w, vb, cb, bb)
  {
    var p1, p2, p3 := w.wView * va, w.wClick * ca, w.wBuy * ba;
    var q1, q2, q3 := w.wView * vb, w.wClick * cb, w.wBuy * bb;
    MulMonotone(w.wView, va, vb);
    MulMonotone(w.wClick, ca, cb);
    MulMonotone(w.wBuy, ba, bb);
    assert Score(w, va, ca, ba) == w.bias + p1 + p2 + p3;
    assert Score(w, vb, cb, bb) == w.bias + q1 + q2 + q3;
    SumMonotone(w.bias, p1, p2, p3, q1, q2, q3);
  }

  /** With non-negative weights, more views, clicks or buys never lower
      the prediction. */
  lemma PredictMonotone(a: RawCounts, b: RawCounts, w: RawWeights)
    requires Coerce(w.wView) >= 0.0 && Coerce(w.wClick) >= 0.0 && Coerce(w.wBuy) >= 0.0
    requires Coerce(a.viewCount) <= Coerce(b.viewCount)
    requires Coerce(a.clickCount) <= Coerce(b.clickCount)
    requires Coerce(a.buyCount) <= Coerce(b.buyCount)
    ensures Predict(a, w) <= Predict(b, w)
  {
    ScoreMonotone(CoerceWeights(w), Coerce(a.viewCount), Coerce(a.clickCount), Coerce(a.buyCount),
                  Coerce(b.viewCount), Coerce(b.clickCount), Coerce(b.buyCount));
    if RawScore(a, w) < RawScore(b, w) {
      SigmoidMonotone(RawScore(a, w), RawScore(b, w));
    }
  }

  /** With a positive click weight, strictly more clicks (all else equal)
      give a strictly higher prediction. */
  lemma PredictStrictInClicks(a: RawCounts, b: RawCounts, w: RawWeights)
    requires Coerce(w.wClick) > 0.0
    requires Coerce(a.viewCount) == Coerce(b.viewCount) && Coerce(a.buyCount) == Coerce(b.buyCount)
    requires Coerce(a.clickCount) < Coerce(b.clickCount)
    ensures Predict(a, w) < Predict(b, w)
  {
    ScoreStrictInClicks(CoerceWeights(w), Coerce(a.viewCount), Coerce(a.clickCount), Coerce(b.clickCount), Coerce(a.buyCount));
    SigmoidMonotone(RawScore(a, w), RawScore(b, w));
  }

  /** With a positive click weight, more clicks give a strictly higher
      score when the other counts are the same. */
  lemma ScoreStrictInClicks(w: Weights, v: real, ca: real, cb: real, bc: real)
    requires w.wClick > 0.0 && ca < cb
    ensures Score(w, v, ca, bc) < Score(w, v, cb, bc)
  {
    var pv, pb := w.wView * v, w.wBuy * bc;
    var p, q := w.wClick * ca, w.wClick * cb;
    assert Score(w, v, ca, bc) == w.bias + pv + p + pb;
    assert Score(w, v, cb, bc) == w.bias + pv + q + pb;
    ProductsOrdered(w.wClick, ca, cb, p, q);
    SumStrict(w.bias + pv, pb, p, q);
  }

  lemma ProductsOrdered(k: real, x: real, y: real, p: real, q: real)
    requires k > 0.0 && x < y && p == k * x && q == k * y
    ensures p < q
  {
    MulStrict(k, x, y);
  }

  lemma SumStrict(s: real, t: real, p: real, q: real)
    requires p < q
    ensures s + p + t < s + q + t
  {
  }

  // ---------------------------------------------------------------------
  // Interaction counts and labels
  // ---------------------------------------------------------------------

  /** The view, click and buy counts of one (user, product) pair. */
  datatype Counts = Counts(view: nat, click: nat, buy: nat)

  const NoActivity: Counts := Counts(0, 0, 0)

  /** The SQL labelling rule: a purchase, at least three clicks or at least
      five views make a positive sample. */
  function Label(c: Counts): (l: nat)
    ensures l <= 1
    ensures l == 1 <==> c.buy > 0 || c.click >= 3 || c.view >= 5
  {
    if c.buy > 0 then 1
    else if c.click >= 3 then 1
    else if c.view >= 5 then 1
    else 0
  }

  predicate Matches(a: Action, user: string, product: string, kind: string) {
    a.userId == user && a.productId == product && a.actionType == kind
  }

  /** `SUM(CASE WHEN actionType = kind THEN 1 ELSE 0 END)` over the rows of
      one (user, product) group. */
  function CountKind(actions: seq<Action>, user: string, product: string, kind: string): (n: nat)
    ensures n <= |actions|
    ensures n == 0 <==> forall a :: a in actions ==> !Matches(a, user, product, kind)
  {
    if actions == [] then 0
    else
      var init := actions[..|actions| - 1];
      assert forall a :: a in actions <==> a in init || a == actions[|actions| - 1];
      CountKind(init, user, product, kind)
        + (if Matches(actions[|actions| - 1], user, product, kind) then 1 else 0)
  }

  lemma {:induction false} CountKindAppend(s: seq<Action>, t: seq<Action>, user: string, product: string, kind: string)
    ensures CountKind(s + t, user, product, kind) == CountKind(s, user, product, kind) + CountKind(t, user, product, kind)
    decreases |t|
  {
    if t == [] {
      assert s + t == s;
    } else {
      var u := t[..|t| - 1];
      CountKindAppend(s, u, user, product, kind);
      assert (s + t)[..|s + t| - 1] == s + u;
      assert (s + t)[|s + t| - 1] == t[|t| - 1];
    }
  }

  /** The rows of one user, in log order. */
  function RowsOf(actions: seq<Action>, user: string): (r: seq<Action>)
    ensures forall a :: a in r <==> a in actions && a.userId == user
  {
    if actions == [] then []
    else
      var init := actions[..|actions| - 1];
      var last := actions[|actions| - 1];
      assert forall a :: a in actions <==> a in init || a == last;
      RowsOf(init, user) + (if last.userId == user then [last] else [])
  }

  /** Rows of other users never contribute to a user's counts. */
  lemma {:induction false} CountKindIgnoresOtherUsers(actions: seq<Action>, user: string, product: string, kind: string)
    ensures CountKind(actions, user, product, kind) == CountKind(RowsOf(actions, user), user, product, kind)
  {
    if actions != [] {
      var init := actions[..|actions| - 1];
      var last := actions[|actions| - 1];
      CountKindIgnoresOtherUsers(init, user, product, kind);
      CountKindAppend(RowsOf(init, user), if last.userId == user then [last] else [], user, product, kind);
    }
  }

  /** The three counts of one (user, product) group. */
  function Tally(actions: seq<Action>, user: string, product: string): (c: Counts)
    ensures c.view + c.click + c.buy <= |actions|
    ensures c == NoActivity <==>
              forall a :: a in actions && a.userId == user && a.productId == product ==>
                a.actionType != ViewAction && a.actionType != ClickAction && a.actionType != BuyAction
  {
    TallyWithinRows(actions, user, product);
    Counts(CountKind(actions, user, product, ViewAction),
           CountKind(actions, user, product, ClickAction),
           CountKind(actions, user, product, BuyAction))
  }

  /** Each row adds to at most one of the three counts. */
  lemma {:induction false} TallyWithinRows(actions: seq<Action>, user: string, product: string)
    ensures CountKind(actions, user, product, ViewAction) + CountKind(actions, user, product, ClickAction)
            + CountKind(actions, user, product, BuyAction) <= |actions|
  {
    if actions != [] {
      TallyWithinRows(actions[..|actions| - 1], user, product);
    }
  }

  /** A pair without any recorded view, click or buy is tallied as zeros. */
  lemma TallyOfInactivePair(actions: seq<Action>, user: string, product: string)
    requires forall a :: a in actions ==> a.userId != user || a.productId != product
    ensures Tally(actions, user, product) == NoActivity
  {
  }

  // ---------------------------------------------------------------------
  // Training data
  // ---------------------------------------------------------------------

  /** One row of the training query: a (user, product) group, its counts
      and its label. */
  datatype Sample = Sample(userId: string, productId: string, counts: Counts, target: nat)

  function PairOf(a: Action): (string, string) {
    (a.userId, a.productId)
  }

  function PairsOf(actions: seq<Action>): (ps: seq<(string, string)>)
    ensures |ps| == |actions|
    ensures forall i :: 0 <= i < |actions| ==> ps[i] == PairOf(actions[i])
  {
    seq(|actions|, i requires 0 <= i < |actions| => PairOf(actions[i]))
  }

  function SampleFor(actions: seq<Action>, key: (string, string)): Sample {
    var c := Tally(actions, key.0, key.1);
    Sample(key.0, key.1, c, Label(c))
  }

  /** The group keys of the training query, each distinct pair once. */
  function TrainingKeys(actions: seq<Action>): (keys: seq<(string, string)>)
    ensures NoDuplicates(keys)
    ensures forall k :: k in keys <==> k in PairsOf(actions)
    ensures |keys| == 0 <==> |actions| == 0
  {
    var keys := Distinct(PairsOf(actions));
    assert |actions| > 0 ==> PairsOf(actions)[0] in keys;
    keys
  }

  /** The training query: `GROUP BY userId, productId` over all actions,
      one labelled sample per distinct pair that has at least one row. */
  function TrainingData(actions: seq<Action>): (samples: seq<Sample>)
    ensures |samples| == 0 <==> |actions| == 0
    ensures forall i :: 0 <= i < |samples| ==> samples[i].target <= 1
  {
    var keys := TrainingKeys(actions);
    seq(|keys|, i requires 0 <= i < |keys| => SampleFor(actions, keys[i]))
  }

  lemma TrainingDataKeys(actions: seq<Action>)
    ensures var samples := TrainingData(actions);
            |samples| == |TrainingKeys(actions)|
            && forall i :: 0 <= i < |samples| ==> (samples[i].userId, samples[i].productId) == TrainingKeys(actions)[i]
  {
  }

  /** Every (user, product) pair with at least one row yields a sample. */
  lemma TrainingDataCoversEveryPair(actions: seq<Action>, a: Action)
    requires a in actions
    ensures var samples := TrainingData(actions);
            exists i :: 0 <= i < |samples| && samples[i].userId == a.userId && samples[i].productId == a.productId
  {
    var keys, samples := TrainingKeys(actions), TrainingData(actions);
    TrainingDataKeys(actions);
    var k :| 0 <= k < |actions| && actions[k] == a;
    assert PairsOf(actions)[k] == PairOf(a);
    assert PairOf(a) in keys;
    var i :| 0 <= i < |keys| && keys[i] == PairOf(a);
    assert samples[i].userId == a.userId && samples[i].productId == a.productId;
  }

  /** No sample comes from a pair without rows. */
  lemma TrainingDataOnlyObservedPairs(actions: seq<Action>, i: nat)
    requires i < |TrainingData(actions)|
    ensures var s := TrainingData(actions)[i];
            exists a :: a in actions && a.userId == s.userId && a.productId == s.productId
  {
    var keys := TrainingKeys(actions);
    TrainingDataKeys(actions);
    assert keys[i] in PairsOf(actions);
    var k :| 0 <= k < |actions| && PairsOf(actions)[k] == keys[i];
    assert actions[k] in actions;
  }

  /** No pair yields two samples. */
  lemma TrainingDataPairsDistinct(actions: seq<Action>, i: nat, j: nat)
    requires i < j < |TrainingData(actions)|
    ensures var samples := TrainingData(actions);
            (samples[i].userId, samples[i].productId) != (samples[j].userId, samples[j].productId)
  {
    TrainingDataKeys(actions);
  }

  /** Each sample carries its pair's counts and the label of those counts. */
  lemma TrainingDataCounts(actions: seq<Action>, i: nat)
    requires i < |TrainingData(actions)|
    ensures var s := TrainingData(actions)[i];
            s.counts == Tally(actions, s.userId, s.productId) && s.target == Label(s.counts)
  {
  }

  // ---------------------------------------------------------------------
  // Stochastic gradient descent
  // ---------------------------------------------------------------------

  function Max(a: real, b: real): (m: real)
    ensures m >= a && m >= b && (m == a || m == b)
  {
    if a >= b then a else b
  }

  predicate Floors(w: Weights) {
    w.wView >= ViewFloor && w.wClick >= ClickFloor && w.wBuy >= BuyFloor
  }

  function SampleScore(w: Weights, s: Sample): real {
    Score(w, s.counts.view as real, s.counts.click as real, s.counts.buy as real)
  }

  /** The gradient update for one sample with the given prediction error:
      the bias moves by lr * error and each weight by lr * error * count,
      clamped to its floor. */
  function Descend(w: Weights, s: Sample, error: real): (w': Weights)
    ensures Floors(w')
  {
    Weights(w.bias + LearningRate * error,
            Max(ViewFloor, w.wView + Gradient(error, s.counts.view as real)),
            Max(ClickFloor, w.wClick + Gradient(error, s.counts.click as real)),
            Max(BuyFloor, w.wBuy + Gradient(error, s.counts.buy as real)))
  }

  /** lr * error * count, the gradient step of one weight. */
  function Gradient(error: real, count: real): real {
    LearningRate * error * count
  }

  /** One per-sample update: error = label - sigmoid(z). Whatever the
      weights were before, afterwards they sit at or above their floors. */
  function Step(w: Weights, s: Sample): (w': Weights)
    ensures Floors(w')
  {
    Descend(w, s, s.target as real - Sigmoid(SampleScore(w, s)))
  }

  /** A positive sample raises the bias and never lowers a weight; a
      negative sample lowers the bias and never raises a weight above where
      it was, unless that is its floor. */
  lemma StepDirection(w: Weights, s: Sample)
    ensures s.target == 1 ==>
              Step(w, s).bias > w.bias && Step(w, s).wView >= w.wView
              && Step(w, s).wClick >= w.wClick && Step(w, s).wBuy >= w.wBuy
    ensures s.target == 0 ==>
              Step(w, s).bias < w.bias && Step(w, s).wView <= Max(ViewFloor, w.wView)
              && Step(w, s).wClick <= Max(ClickFloor, w.wClick) && Step(w, s).wBuy <= Max(BuyFloor, w.wBuy)
  {
    var error := s.target as real - Sigmoid(SampleScore(w, s));
    GradientSign(error, s.counts.view as real);
    GradientSign(error, s.counts.click as real);
    GradientSign(error, s.counts.buy as real);
    assert Step(w, s) == Descend(w, s, error);
  }

  lemma GradientSign(error: real, count: real)
    requires count >= 0.0
    ensures error > 0.0 ==> Gradient(error, count) >= 0.0
    ensures error < 0.0 ==> Gradient(error, count) <= 0.0
  {
  }

  /** The weights after applying the updates for `steps`, in order. */
  function Run(w: Weights, steps: seq<Sample>): (r: Weights)
    ensures |steps| > 0 ==> Floors(r)
    ensures steps == [] ==> r == w
  {
    if steps == [] then w else Step(Run(w, steps[..|steps| - 1]), steps[|steps| - 1])
  }

  lemma RunSnoc(w: Weights, steps: seq<Sample>, s: Sample)
    ensures Run(w, steps + [s]) == Step(Run(w, steps), s)
  {
    assert (steps + [s])[..|steps|] == steps;
  }

  /** The visiting order of training: the sample list repeated once per
      epoch. */
  function Schedule(samples: seq<Sample>, epochs: nat): (sched: seq<Sample>)
    ensures epochs > 0 ==> |sched| >= |samples|
    ensures sched == [] <==> epochs == 0 || samples == []
  {
    if epochs == 0 then [] else Schedule(samples, epochs - 1) + samples
  }

  /** The schedule has exactly epochs * n steps. */
  lemma {:induction false} ScheduleLength(samples: seq<Sample>, epochs: nat)
    ensures |Schedule(samples, epochs)| == epochs * |samples|
  {
    if epochs > 0 {
      ScheduleLength(samples, epochs - 1);
      assert (epochs - 1) * |samples| + |samples| == epochs * |samples|;
    }
  }

  /** Every epoch visits the samples in the same order: step e*n + j of
      the schedule is sample j. */
  lemma {:induction false} ScheduleAt(samples: seq<Sample>, epochs: nat, e: nat, j: nat)
    requires e < epochs && j < |samples|
    ensures e * |samples| + j < |Schedule(samples, epochs)|
    ensures Schedule(samples, epochs)[e * |samples| + j] == samples[j]
  {
    var n := |samples|;
    ScheduleLength(samples, epochs);
    ScheduleLength(samples, epochs - 1);
    assert (epochs - 1) * n + n == epochs * n;
    if e < epochs - 1 {
      ScheduleAt(samples, epochs - 1, e, j);
    } else {
      assert e * n == (epochs - 1) * n;
    }
  }

  /** Training over a non-empty sample list takes exactly 100 * n update
      steps and ends with every weight at or above its floor. */
  lemma TrainingRespectsFloors(w0: Weights, samples: seq<Sample>)
    requires |samples| > 0
    ensures |Schedule(samples, Epochs)| == Epochs * |samples|
    ensures Floors(Run(w0, Schedule(samples, Epochs)))
  {
    ScheduleLength(samples, Epochs);
  }

  /** Applying two update sequences one after the other is applying
      their concatenation. */
  lemma {:induction false} RunAppend(w: Weights, a: seq<Sample>, b: seq<Sample>)
    ensures Run(w, a + b) == Run(Run(w, a), b)
    decreases |b|
  {
    if b == [] {
      assert a + b == a;
    } else {
      var init := b[..|b| - 1];
      RunAppend(w, a, init);
      assert (a + b)[..|a + b| - 1] == a + init;
      assert (a + b)[|a + b| - 1] == b[|b| - 1];
    }
  }

  /** One epoch: `trainingData.forEach(row => ...)`, each row's update
      applied to the four parameters in place. */
  method RunEpoch(bias0: real, wView0: real, wClick0: real, wBuy0: real, samples: seq<Sample>)
    returns (bias: real, wView: real, wClick: real, wBuy: real)
    ensures Weights(bias, wView, wClick, wBuy) == Run(Weights(bias0, wView0, wClick0, wBuy0), samples)
  {
    bias, wView, wClick, wBuy := bias0, wView0, wClick0, wBuy0;
    var i := 0;
    while i < |samples|
      invariant 0 <= i <= |samples|
      invariant Weights(bias, wView, wClick, wBuy) == Run(Weights(bias0, wView0, wClick0, wBuy0), samples[..i])
    {
      var row := samples[i];
      ghost var before := Weights(bias, wView, wClick, wBuy);
      var viewCount, clickCount, buyCount := row.counts.view as real, row.counts.click as real, row.counts.buy as real;
      var target := row.target as real;
      var z := Score(Weights(bias, wView, wClick, wBuy), viewCount, clickCount, buyCount);
      var prediction := Sigmoid(z);
      var error := target - prediction;
      bias := bias + LearningRate * error;
      wView := Max(ViewFloor, wView + Gradient(error, viewCount));
      wClick := Max(ClickFloor, wClick + Gradient(error, clickCount));
      wBuy := Max(BuyFloor, wBuy + Gradient(error, buyCount));
      assert Weights(bias, wView, wClick, wBuy) == Step(before, row);
      RunSnoc(Weights(bias0, wView0, wClick0, wBuy0), samples[..i], row);
      assert samples[..i + 1] == samples[..i] + [row];
      i := i + 1;
    }
    assert samples[..|samples|] == samples;
  }

  /** Step 3 of trainModel: 100 epochs over the same sample order. */
  method Fit(w0: Weights, samples: seq<Sample>) returns (w: Weights)
    ensures w == Run(w0, Schedule(samples, Epochs))
    ensures |samples| > 0 ==> Floors(w)
    ensures |samples| == 0 ==> w == w0
  {
    var bias, wView, wClick, wBuy := w0.bias, w0.wView, w0.wClick, w0.wBuy;
    var epoch := 0;
    while epoch < Epochs
      invariant 0 <= epoch <= Epochs
      invariant Weights(bias, wView, wClick, wBuy) == Run(w0, Schedule(samples, epoch))
    {
      bias, wView, wClick, wBuy := RunEpoch(bias, wView, wClick, wBuy, samples);
      NextEpoch(w0, samples, epoch);
      epoch := epoch + 1;
    }
    w := Weights(bias, wView, wClick, wBuy);
  }

  /** One more epoch is one more pass over the samples. */
  lemma NextEpoch(w0: Weights, samples: seq<Sample>, epoch: nat)
    ensures Run(w0, Schedule(samples, epoch + 1)) == Run(Run(w0, Schedule(samples, epoch)), samples)
  {
    RunAppend(w0, Schedule(samples, epoch), samples);
  }

  // ---------------------------------------------------------------------
  // Accuracy
  // ---------------------------------------------------------------------

  /** The thresholded prediction `sigmoid(z) >= 0.5 ? 1 : 0`, which is 1
      exactly when the linear score is non-negative. */
  function PredictedLabel(w: Weights, s: Sample): (l: nat)
    ensures l <= 1
    ensures l == 1 <==> SampleScore(w, s) >= 0.0
  {
    if Sigmoid(SampleScore(w, s)) >= 0.5 then 1 else 0
  }

  predicate Correct(w: Weights, s: Sample) {
    PredictedLabel(w, s) == s.target
  }

  /** How many samples the thresholded prediction gets right. */
  function CountCorrect(w: Weights, samples: seq<Sample>): (n: nat)
    ensures n <= |samples|
  {
    if samples == [] then 0
    else CountCorrect(w, samples[..|samples| - 1]) + (if Correct(w, samples[|samples| - 1]) then 1 else 0)
  }

  /** All samples are predicted correctly exactly when the count reaches n,
      and none is exactly when it is 0. */
  lemma {:induction false} CountCorrectExtremes(w: Weights, samples: seq<Sample>)
    ensures CountCorrect(w, samples) == |samples| <==> forall i :: 0 <= i < |samples| ==> Correct(w, samples[i])
    ensures CountCorrect(w, samples) == 0 <==> forall i :: 0 <= i < |samples| ==> !Correct(w, samples[i])
  {
    if samples != [] {
      var init := samples[..|samples| - 1];
      CountCorrectExtremes(w, init);
      assert forall i :: 0 <= i < |init| ==> init[i] == samples[i];
    }
  }

  /** `(correct / n) * 100`, a percentage in [0, 100]. */
  function Accuracy(w: Weights, samples: seq<Sample>): (a: real)
    requires |samples| > 0
    ensures 0.0 <= a <= 100.0
    ensures a == 100.0 <==> CountCorrect(w, samples) == |samples|
    ensures a == 0.0 <==> CountCorrect(w, samples) == 0
  {
    var c, n := CountCorrect(w, samples) as real, |samples| as real;
    RatioBounds(c, n);
    (c / n) * 100.0
  }

  /** Step 4 of trainModel: the loop that counts correct predictions. */
  method CountCorrectPredictions(w: Weights, samples: seq<Sample>) returns (correct: nat)
    ensures correct == CountCorrect(w, samples)
    ensures correct <= |samples|
  {
    correct := 0;
    var i := 0;
    while i < |samples|
      invariant 0 <= i <= |samples|
      invariant correct == CountCorrect(w, samples[..i])
    {
      var row := samples[i];
      var z := w.bias + w.wView * row.counts.view as real + w.wClick * row.counts.click as real + w.wBuy * row.counts.buy as real;
      var prediction := if Sigmoid(z) >= 0.5 then 1 else 0;
      assert samples[..i + 1][..i] == samples[..i];
      if prediction == row.target {
        correct := correct + 1;
      }
      i := i + 1;
    }
    assert samples[..|samples|] == samples;
  }

  // ---------------------------------------------------------------------
  // The training run
  // ---------------------------------------------------------------------

  /** Where a storage exception surfaces during a run. */
  datatype FaultStage =
    | ReadActions    // the training query
    | ReadWeights    // loading the singleton weights row
    | WriteWeights   // the UPDATE of the weights row
    | WriteLog       // the INSERT of the SKIPPED or SUCCESS log row

  datatype Fault = Fault(stage: FaultStage, message: string)

  /** The object trainModel resolves to. */
  datatype TrainResult =
    | Trained(accuracy: real, weights: Weights)   // { success: true, accuracy, weights }
    | NoData(message: string)                     // { success: false, message: 'No data' }
    | Failed(error: string)                       // { success: false, error }

  const NoDataMessage: string := "No data"
  const NoDataLogText: string := "No training data available."
  /** The TypeError raised when the weights row is missing and the code
      destructures `undefined`. */
  const MissingRowError: string := "Cannot destructure property 'bias' of 'model' as it is undefined."

  predicate FaultAt(fault: Option<Fault>, stage: FaultStage) {
    fault.Some? && fault.value.stage == stage
  }

  /** `trainModel`. `fault`, when present, is the storage exception raised
      at the given stage; `now` is the Seoul-time clock string. Exactly one
      log row is appended in every case. */
  method TrainModel(db: Database, fault: Option<Fault>, now: string) returns (r: TrainResult)
    modifies db
    ensures db.users == old(db.users) && db.products == old(db.products) && db.actions == old(db.actions)
    ensures |db.trainingLogs| == |old(db.trainingLogs)| + 1
    ensures db.trainingLogs[..|old(db.trainingLogs)|] == old(db.trainingLogs)
    // the training query fails
    ensures FaultAt(fault, ReadActions) ==>
              r == Failed(fault.value.message) && db.modelWeights == old(db.modelWeights)
              && db.trainingLogs == old(db.trainingLogs) + [LogEntry(Error, Text(fault.value.message), now)]
    // no samples: skipped, weights untouched
    ensures !FaultAt(fault, ReadActions) && TrainingData(old(db.actions)) == [] ==>
              db.modelWeights == old(db.modelWeights)
              && (if FaultAt(fault, WriteLog)
                  then r == Failed(fault.value.message)
                       && db.trainingLogs == old(db.trainingLogs) + [LogEntry(Error, Text(fault.value.message), now)]
                  else r == NoData(NoDataMessage)
                       && db.trainingLogs == old(db.trainingLogs) + [LogEntry(Skipped, Text(NoDataLogText), now)])
    // samples but the weights row cannot be loaded
    ensures !FaultAt(fault, ReadActions) && TrainingData(old(db.actions)) != [] && old(db.modelWeights).None?
            && !FaultAt(fault, ReadWeights) ==>
              r == Failed(MissingRowError) && db.modelWeights == old(db.modelWeights)
              && db.trainingLogs == old(db.trainingLogs) + [LogEntry(Error, Text(MissingRowError), now)]
    ensures FaultAt(fault, ReadWeights) && TrainingData(old(db.actions)) != [] ==>
              r == Failed(fault.value.message) && db.modelWeights == old(db.modelWeights)
              && db.trainingLogs == old(db.trainingLogs) + [LogEntry(Error, Text(fault.value.message), now)]
    // a full run
    ensures (fault.None? || fault.value.stage in {WriteWeights, WriteLog})
            && TrainingData(old(db.actions)) != [] && old(db.modelWeights).Some? ==>
              var samples := TrainingData(old(db.actions));
              var w := Run(old(db.modelWeights).value.weights, Schedule(samples, Epochs));
              var acc := Accuracy(w, samples);
              Floors(w)
              && (if fault.None? then
                    r == Trained(acc, w) && db.modelWeights == Some(ModelRow(w, acc, now))
                    && db.trainingLogs == old(db.trainingLogs) + [LogEntry(Success, Learned(acc, w.wView, w.wClick), now)]
                  else
                    r == Failed(fault.value.message)
                    && db.modelWeights == (if fault.value.stage == WriteWeights then old(db.modelWeights) else Some(ModelRow(w, acc, now)))
                    && db.trainingLogs == old(db.trainingLogs) + [LogEntry(Error, Text(fault.value.message), now)])
  {
    var logsBefore := db.trainingLogs;
    if FaultAt(fault, ReadActions) {
      r := Failed(fault.value.message);
      db.trainingLogs := db.trainingLogs + [LogEntry(Error, Text(r.error), now)];
      return;
    }
    var trainingData := TrainingData(db.actions);
    if |trainingData| == 0 {
      if FaultAt(fault, WriteLog) {
        r := Failed(fault.value.message);
        db.trainingLogs := db.trainingLogs + [LogEntry(Error, Text(r.error), now)];
        return;
      }
      db.trainingLogs := db.trainingLogs + [LogEntry(Skipped, Text(NoDataLogText), now)];
      return NoData(NoDataMessage);
    }
    if FaultAt(fault, ReadWeights) {
      r := Failed(fault.value.message);
      db.trainingLogs := db.trainingLogs + [LogEntry(Error, Text(r.error), now)];
      return;
    }
    if db.modelWeights.None? {
      r := Failed(MissingRowError);
      db.trainingLogs := db.trainingLogs + [LogEntry(Error, Text(r.error), now)];
      return;
    }
    var model := db.modelWeights.value.weights;
    var w := Fit(model, trainingData);
    var correctPredictions := CountCorrectPredictions(w, trainingData);
    var accuracy := (correctPredictions as real / |trainingData| as real) * 100.0;
    assert accuracy == Accuracy(w, trainingData);
    if FaultAt(fault, WriteWeights) {
      r := Failed(fault.value.message);
      db.trainingLogs := db.trainingLogs + [LogEntry(Error, Text(r.error), now)];
      return;
    }
    db.modelWeights := Some(ModelRow(w, accuracy, now));
    if FaultAt(fault, WriteLog) {
      r := Failed(fault.value.message);
      db.trainingLogs := db.trainingLogs + [LogEntry(Error, Text(r.error), now)];
      return;
    }
    db.trainingLogs := db.trainingLogs + [LogEntry(Success, Learned(accuracy, w.wView, w.wClick), now)];
    r := Trained(accuracy, w);
  }
}
