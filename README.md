# Aura storefront: recommendation engine, handlers and cart logic in Dafny

This project models the core of the Aura "quiet living" storefront:

- **Scorer and trainer** (`Ml`, server/ml.js). `predict` turns a user's view, click and buy counts for a product into a purchase likelihood: a linear score passed through a sigmoid. Any missing or non-numeric field counts as 0. `trainModel` works in steps:
  - It builds one labelled sample per (user, product) pair.
  - With no samples it logs SKIPPED.
  - Otherwise it runs 100 epochs of per-sample gradient descent, clamping each weight to a floor.
  - It measures accuracy, stores the weights and logs the outcome.
- **Request handlers** (`Server`, server/index.js):
  - Login checks credentials.
  - The recommendation pipeline does per-user grouping, zero-fill, rounding to a percentage and a stable descending sort.
  - Action tracking validates the request and appends one row.
- **Notion adapter** (`Notion`, server/notion.js): it flattens a Notion property bag into a plain object. It also builds the property bags and Seoul-time timestamps that the adapter writes.
- **Front end**:
  - The `App` component state is a class with the cart, view, session user and the tracking requests it sends.
  - The Checkout summary (`Checkout`).
  - The ProductGrid category filter and AI panel (`ProductGrid`).

The SQLite database is one object, `Store.Database`, whose tables are fields. The handlers that change it (`Ml.TrainModel`, `Server.Track`) are methods with `modifies` clauses. The pure parts are functions, and lemmas relate them.

**Where the model departs from the repository:**
- **The sigmoid.** The model has no `Math.exp`. `Ml.Sigmoid` is a rational logistic-shaped function, and the model uses only three laws that are proved about it:
  - 0 < σ(z) < 1.
  - σ(z) ≥ 1/2 exactly when z ≥ 0.
  - σ is strictly increasing.
- **Ranking ties.** The repository describes a product with more clicks as ranked *above* one with fewer. The code rounds every probability to an integer percentage *before* sorting, so two products can tie. The model follows the code: `Server.MoreClicksPercentAtLeastAsHigh` proves strictly higher before rounding, and at least as high after it. Tied entries keep catalog order (`Server.SortByProbabilityStable`).

## Model

| member | source | states |
|---|---|---|
| Grouping.Distinct | server/ml.js:35-36 | The group keys of a `GROUP BY`: no key twice, and exactly the keys that occur in the rows. |
| Store.Database.constructor | server/db.js:14-60 | A fresh database has empty action and log tables and the singleton weights row seeded with bias −1.0, w_view 0.5, w_click 1.5, w_buy 3.0 and accuracy 0. |
| Store.Database.ProductIds | server/db.js:21-40 | The key set the foreign key on `actions.productId` refers to: exactly the ids of the product rows. |
| Ml.Score | server/ml.js:60 | The linear score of a sample. With all counts 0, it is the bias. |
| Ml.Sigmoid | server/ml.js:6-8 | The squashing function lies strictly in (0, 1) and is at least 1/2 exactly when z ≥ 0. |
| Ml.SigmoidMonotone | server/ml.js:6-8 | The squashing function is strictly increasing. |
| Ml.Coerce | server/ml.js:107-114 | `Number(x) \|\| 0`: a number is kept, anything else is 0. The result is 0 exactly when the field is not a number or is 0. |
| Ml.Predict | server/ml.js:106-118 | The prediction is strictly between 0 and 1 for every input, and is ≥ 1/2 exactly when the coerced linear score is ≥ 0. |
| Ml.PredictTreatsMissingAsZero | server/ml.js:107-114 | Replacing every missing or non-numeric field by 0 does not change the prediction. With all counts missing, the prediction is σ(bias). |
| Ml.ScoreMonotone | server/ml.js:116 | With non-negative weights, the linear score never decreases when any count grows. |
| Ml.PredictMonotone | server/ml.js:112-117 | With non-negative weights, more views, clicks or buys never lower the prediction. |
| Ml.ScoreStrictInClicks | server/ml.js:116 | With a positive click weight and the other counts equal, more clicks give a strictly higher linear score. |
| Ml.PredictStrictInClicks | server/ml.js:112-117 | With a positive click weight and other counts equal, strictly more clicks give a strictly higher prediction. |
| Ml.Label | server/ml.js:29-34 | The label is 0 or 1. It is 1 exactly when buy > 0, clicks ≥ 3 or views ≥ 5. |
| Ml.CountKind | server/ml.js:26-28 | A `SUM(CASE …)` count is at most the number of rows. It is 0 exactly when no row of that user, product and kind exists. |
| Ml.CountKindAppend | server/ml.js:26-28 | Counting over a concatenation of rows adds the counts of the parts. |
| Ml.RowsOf | server/index.js:57-58 | `WHERE userId = ?` keeps exactly that user's rows. |
| Ml.CountKindIgnoresOtherUsers | server/index.js:51-60 | A user's counts over the whole log equal the counts over that user's rows alone. Other users' rows never count. |
| Ml.Tally | server/ml.js:26-28 | The three counts of a (user, product) pair together never exceed the number of rows. They are all 0 exactly when the pair has no view, click or buy row. |
| Ml.TallyOfInactivePair | server/index.js:63 | A pair with no rows is tallied as (0, 0, 0). |
| Ml.TrainingKeys | server/ml.js:35-36 | The training groups are the distinct (user, product) pairs of the log. There is none exactly when the log is empty. |
| Ml.TrainingData | server/ml.js:22-39 | There are no samples exactly when there are no action rows, and every label is 0 or 1. |
| Ml.TrainingDataKeys | server/ml.js:22-37 | The i-th sample belongs to the i-th distinct pair. |
| Ml.TrainingDataCoversEveryPair | server/ml.js:22-37 | Every pair that has at least one action row yields a sample. |
| Ml.TrainingDataOnlyObservedPairs | server/ml.js:22-37 | Every sample comes from a pair that has a row. |
| Ml.TrainingDataPairsDistinct | server/ml.js:22-37 | No pair yields two samples. |
| Ml.TrainingDataCounts | server/ml.js:22-37 | Each sample carries its pair's view, click and buy counts and the label of those counts. |
| Ml.Descend | server/ml.js:67-70 | After a gradient update, w_view ≥ 0.1, w_click ≥ 0.5 and w_buy ≥ 1.0, whatever the weights were before. |
| Ml.Step | server/ml.js:59-70 | One per-sample update, with error = label − σ(z), leaves every weight at or above its floor. |
| Ml.StepDirection | server/ml.js:64-70 | A positive sample raises the bias and never lowers a weight. A negative sample lowers the bias and never raises a weight beyond the larger of its old value and its floor. |
| Ml.Run | server/ml.js:52-72 | Any non-empty sequence of updates ends with every floor satisfied. No updates leave the weights unchanged. |
| Ml.Schedule | server/ml.js:49-53 | The training schedule is empty exactly when there are no epochs or no samples. |
| Ml.ScheduleLength | server/ml.js:49-53 | The training schedule has exactly epochs × \|samples\| steps. |
| Ml.ScheduleAt | server/ml.js:52-53 | Step e·n + j of the schedule is sample j, so every epoch visits the samples in the same order. |
| Ml.TrainingRespectsFloors | server/ml.js:49-70 | Training over non-empty data takes 100·n steps and ends with all three floors satisfied. |
| Ml.RunAppend | server/ml.js:52-53 | Applying two update sequences one after the other equals applying their concatenation. |
| Ml.RunEpoch | server/ml.js:53-71 | One epoch's in-place loop leaves the four parameters equal to the specification run over the samples in order. |
| Ml.Fit | server/ml.js:44-72 | The nested epoch loop yields the run over the samples repeated 100 times. Over non-empty data, all floors hold. With no samples, the weights are unchanged. |
| Ml.PredictedLabel | server/ml.js:77-78 | The thresholded prediction is 0 or 1, and is 1 exactly when the linear score is ≥ 0. |
| Ml.CountCorrect | server/ml.js:75-82 | The number of correctly predicted samples is at most n. |
| Ml.CountCorrectExtremes | server/ml.js:75-82 | The count is n exactly when every sample is predicted correctly, and 0 exactly when none is. |
| Ml.Accuracy | server/ml.js:83 | Accuracy lies in [0, 100]. It is 100 exactly when all samples are correct and 0 exactly when none is. |
| Ml.CountCorrectPredictions | server/ml.js:74-82 | The counting loop returns the number of samples whose thresholded prediction equals the label. |
| Ml.TrainModel | server/ml.js:13-101 | Every path appends exactly one log row and leaves users, products and actions alone. No samples gives SKIPPED and "No data" with the weights untouched. A missing weights row or a storage fault gives ERROR and `{success:false, error}`. A full run stores and returns the same weights, which are the 100-epoch run from the stored row and satisfy the floors, with accuracy 100·correct/n and a SUCCESS row. |
| Server.FindUser | server/index.js:23 | The matched row is a user row with both fields equal. No match means no row matches. |
| Server.Login | server/index.js:21-30 | Login succeeds exactly when some user row matches username and password. The payload is that row's id and username only. |
| Server.UserGroups | server/index.js:51-60 | One group per product of the user's rows, no product twice. Each group carries that user's view, click and buy counts for the product. |
| Server.UserGroupsKeys | server/index.js:51-60 | A product has a group exactly when the user has a row for it. |
| Server.FindGroup | server/index.js:63 | `find` returns the first group with the product's id, or nothing when no group has it. |
| Server.ActionsFor | server/index.js:63 | The first group's counts for the product, or (0, 0, 0) when no group has it. |
| Server.ActionsForIsTally | server/index.js:51-63 | Each product is scored with exactly that user's counts for it, with other users' rows ignored and zeros for a product without rows. |
| Server.Round | server/index.js:68 | `Math.round` gives the integer n with x − 1/2 < n ≤ x + 1/2, so halves round up. |
| Server.RoundMonotone | server/index.js:68 | Rounding never reverses an order. |
| Server.Percent | server/index.js:64-68 | The rounded percentage of a probability is an integer in [0, 100]. |
| Server.Recommend1 | server/index.js:62-70 | An entry carries the product's id and name and a percentage in [0, 100]. |
| Server.ScoreCatalog | server/index.js:62-70 | One entry per catalog product, in catalog order. |
| Server.Insert | server/index.js:71 | Insertion adds exactly one entry and keeps the others, as a multiset. |
| Server.InsertSorted | server/index.js:71 | Insertion into a list ordered by non-increasing probability keeps it ordered. |
| Server.InsertStable | server/index.js:71 | Insertion keeps the relative order of equal probabilities and puts the new entry after those equal to it. |
| Server.SortByProbability | server/index.js:71 | Sorting is a permutation of its input. |
| Server.SortByProbabilitySorted | server/index.js:71 | The sorted list has non-increasing probability. |
| Server.SortByProbabilityStable | server/index.js:71 | Entries with equal probability appear in their input order. |
| Server.Falsy | server/index.js:46 | A request field is falsy exactly when it is absent or the empty string. |
| Server.Recommend | server/index.js:44-79 | A falsy userId answers 400. A missing weights row or an empty catalog answers 500. Otherwise the answer is 200 with one entry per product. |
| Server.RecommendSpec | server/index.js:62-74 | A successful answer is a permutation of the scored catalog: one entry per product with its id, name, a percentage in [0, 100] and the user's own counts. It is ordered by non-increasing probability, with ties in catalog order. |
| Server.MoreClicksPercentAtLeastAsHigh | server/index.js:62-71 | With a positive click weight and other counts equal, the product with more clicks has a strictly higher probability and, after rounding, a percentage at least as high. |
| Server.Track | server/index.js:97-114 | A falsy userId, actionType or productId answers 400 and changes nothing. An unknown product violates the foreign key, answers 500 and changes nothing. Otherwise exactly one row is appended. |
| Notion.FirstPlainText | server/notion.js:57 | The first fragment's plain text, or '' when there is no fragment. |
| Notion.OptionNames | server/notion.js:69 | Multi-select option names, same length and same order. |
| Notion.ParseValue | server/notion.js:55-82 | title and rich_text give the first fragment's plain text or ''. number and checkbox pass through, with a null number staying null. select, date and phone_number give their value as a string, and '' exactly when it is absent or empty. multi_select gives the list of names. Any other type gives `val[val.type]`. Only the other types can give undefined. |
| Notion.ParseProperties | server/notion.js:52-85 | The loop fills the object with each entry's flattened value, and its keys are exactly the property bag's keys. |
| Notion.ParsedObject | server/notion.js:53-84 | Properties are assigned in bag order, so the last entry's flattened value is the one stored under its key. |
| Notion.ParsedObjectKeys | server/notion.js:53-84 | The flattened object has exactly the input's keys. |
| Notion.ParsedObjectValues | server/notion.js:53-84 | Each property lands under its own key as its flattened value. When a key repeats, the last entry wins. |
| Notion.ReplaceFirstSpace | server/notion.js:165 | `replace(' ', 'T')` keeps the length, and a string without a space is unchanged. |
| Notion.ReplaceFirstSpaceAt | server/notion.js:165 | Position i becomes 'T' exactly when it holds the first space. Every other character is kept. |
| Notion.NotionTimestamp | server/notion.js:165 | A timestamp is the rewritten clock string followed by "+09:00". |
| Notion.NotionTimestampOfLocaleString | server/notion.js:151-165 | For a "date time" clock string whose date has no space, the timestamp is "dateTtime+09:00", and later spaces are kept. |
| Notion.TrackActionEntries | server/notion.js:161-166 | `trackAction` writes exactly the properties userId, actionType, productId and timestamp. |
| Notion.UpdateWeightsEntries | server/notion.js:197-204 | `updateWeights` writes exactly bias, w_view, w_click, w_buy, accuracy and updated_at. |
| Notion.TrainingLogEntries | server/notion.js:224-229 | `addTrainingLog` writes exactly Name, message and timestamp. |
| Notion.TrackActionRoundTrip | server/notion.js:159-166 | Flattening the bag `trackAction` writes gives back userId, actionType, productId and the timestamp as strings. |
| Notion.UpdateWeightsRoundTrip | server/notion.js:196-205 | Flattening the bag `updateWeights` writes gives back the four weights, the accuracy and the timestamp. |
| Notion.TrainingLogRoundTrip | server/notion.js:223-230 | Flattening the bag `addTrainingLog` writes gives back status, message and timestamp. |
| Checkout.Subtotal | components/Checkout.tsx:20 | The subtotal of an empty cart is 0, and of a one-entry cart that entry's price. |
| Checkout.SubtotalNonNegative | components/Checkout.tsx:20 | With non-negative prices the subtotal is never negative. |
| Checkout.OrderSummary | components/Checkout.tsx:20-22 | Shipping is 0 and the total equals the subtotal. |
| Checkout.SubtotalAppend | components/Checkout.tsx:20 | The subtotal of a concatenation is the sum of the subtotals. |
| Checkout.SubtotalOfPermutation | components/Checkout.tsx:20 | The subtotal depends only on the multiset of entries. Each entry counts once at quantity 1, so a duplicated product is paid once per occurrence. |
| Checkout.SubtotalWithout | components/Checkout.tsx:20 | Removing the entry at i lowers the subtotal by exactly its price. |
| App.SpliceStart | App.tsx:177 | `splice` counts a negative start from the end and clamps it at 0. |
| App.SpliceOne | App.tsx:175-179 | `splice(index, 1)` on a non-empty cart with an index below its length removes exactly one entry. An index at or past the end, or an empty cart, leaves the cart unchanged. |
| App.SpliceOneRemovesEntry | App.tsx:175-179 | With a valid index, exactly the i-th entry is removed, the rest keep their order and the multiset loses that one entry, and the subtotal drops by its price. |
| App.SpliceOnePastEnd | App.tsx:177 | An index at or past the end removes nothing. |
| App.BuyRequests | App.tsx:255 | One buy request per cart entry, duplicates included, in cart order. |
| App.RemoveAt | App.tsx:175-179 | Shifting in place moves every entry after k one place left, so the first n − 1 slots hold the array without entry k. |
| App.AppState.constructor | App.tsx:29-58 | Start on the home view with an empty, closed cart, no tracking sent and the saved user restored. |
| App.AppState.TrackAction | App.tsx:61-75 | Without a user nothing is sent. With one, exactly one request naming the username is sent, and nothing else changes. |
| App.AppState.AddToCart | App.tsx:170-173 | The cart becomes the old cart followed by the product, the drawer opens and the subtotal grows by its price. |
| App.AppState.RemoveFromCart | App.tsx:175-179 | The cart is copied into a fresh array, one entry is spliced out of the copy in place, and the result is installed. The new cart is `splice(index, 1)` of the old one. |
| App.AppState.AddToCartFromDetail | App.tsx:234-237 | Adding from the product page appends the product and also records a view for it. |
| App.AppState.OpenProduct | App.tsx:205-209 | Clicking a grid card records a click and opens that product's page. |
| App.AppState.CompleteCheckout | App.tsx:254-258 | Completing checkout sends one buy per cart entry, duplicates included and nothing without a user, then empties the cart and returns home. |
| ProductGrid.WithCategory | components/ProductGrid.tsx:46 | The filter keeps exactly the products of that category. |
| ProductGrid.FilterProducts | components/ProductGrid.tsx:44-47 | "All" returns the list unchanged. Any other category returns only products of that category. |
| ProductGrid.WithCategoryAppend | components/ProductGrid.tsx:46 | Filtering preserves order: filtering a concatenation concatenates the filtered parts. |
| ProductGrid.WithCategoryMultiplicity | components/ProductGrid.tsx:46 | No matching product is dropped. Each occurs as often as in the catalog, and any other not at all. |
| ProductGrid.FindProduct | components/ProductGrid.tsx:68 | `find` returns the first product with the id, or nothing when no product has it. |
| ProductGrid.CardOf | components/ProductGrid.tsx:67-69 | A recommendation whose id is in the catalog gives one card with the first product of that id and its percentage. An unknown id gives none. |
| ProductGrid.Cards | components/ProductGrid.tsx:67-69 | At most one card per recommendation. Each card shows a catalog product named by some recommendation, with that recommendation's percentage. |
| ProductGrid.CardsOfOne | components/ProductGrid.tsx:67-69 | A single recommendation gives exactly its own card, if any. |
| ProductGrid.CardsAppend | components/ProductGrid.tsx:67-69 | Cards are made recommendation by recommendation: the cards of a concatenation are the cards of each part, in order. So an unknown id is skipped and every known one keeps its card and its place. |
| ProductGrid.CardsWhenAllKnown | components/ProductGrid.tsx:67-69 | When every recommended id is in the catalog, there is one card per recommendation, in order. |
| ProductGrid.TopThree | components/ProductGrid.tsx:67 | `slice(0, 3)` is the first min(3, n) recommendations. |
| ProductGrid.AiPanel | components/ProductGrid.tsx:55-69 | The panel appears exactly when the flag is set and the list is present and non-empty. Its cards are then the cards of the first three recommendations, in order: at most three, each for a catalog product among the first three recommendations. |

## Left out

- **Math.exp and floating point.** `Ml.Sigmoid` stands in for `1 / (1 + e^-z)`: it is rational, not the exact value. Every property above rests only on its three proved laws. Weights, errors and accuracy are exact reals, not IEEE doubles.
- **Log message text.** The `toFixed` formatting of the SUCCESS message is kept as the symbolic `Learned(accuracy, wView, wClick)`.
- **The Notion HTTP calls.** These are `queryDataSource`, `addOrder`, the `get*` table adapters, which only map `parseProperties` over the results, and the `fetch` bodies of `trackAction`, `updateWeights` and `addTrainingLog`. So are `updateWeights`' lookup of the weights page id and its "No model_weights page found" error. The model keeps the property bags and timestamps they send.
- **Reading back a fragment.** A text written as one fragment is assumed to read back as that fragment's `plain_text` (`Notion.Fragment`).
- **Notion values with a known tag but an unusual shape.** A property whose `type` is one the switch names is represented by its typed variant. The parse of malformed payloads, such as a non-array `title`, is not modelled. The flattened object is a map, so its key order is not kept.
- **Express routing and other endpoints.** `/api/products`, with its `JSON.parse` of `features`, and the admin status endpoint are not modelled. `/api/admin/train` only forwards `Ml.TrainModel`'s result.
- **A failing catch-block INSERT.** In `Ml.TrainModel` the ERROR log row written by the catch block (server/ml.js:98) is assumed to succeed. If that INSERT throws too, `trainModel` rejects and no log row is written, so "exactly one log row on every path" holds only under that assumption.
- **Storage exceptions other than the ones modelled.** In `Ml.TrainModel` a failure is a `Fault` parameter at one of four stages. In `Server.Recommend` only the missing weights row and the empty catalog are modelled as causes of 500.
- **GROUP BY order.** SQLite leaves the order of groups unspecified, and its sorter usually returns them in key order. The model uses first appearance in the log. Per-sample gradient descent depends on the visiting order, so the weights, the accuracy and the stored row that `Ml.TrainModel` promises are those of this one order; another order can give other weights. The order of `userActions` does not matter, because product ids are unique there.
- **Clocks.** Every clock string is an opaque `now` parameter. The SKIPPED log row and the seeded weights row take their timestamp from the database clock (`datetime('now', '+9 hours')`); the model uses the same `now`.
- **Request fields that are not strings.** Login credentials and the track fields are strings. A non-string JSON value, such as a numeric id or the falsy number 0, and absent login credentials are not modelled.
- **The debug counts object.** The `actions` field of a recommendation holds only the three counts. The matched group row's `productId` (server/index.js:63, 69) is not kept in `Server.Recommendation`.
- **Number coercion.** `Number(x) || 0` is abstracted as `Ml.RawNumber`: a field either converts to a number or does not. String-to-number parsing is not modelled.
- **App.AppState.RemoveFromCart:** a non-integer index, which JavaScript truncates, is not modelled. Indices are integers.
- **App.AppState.TrackAction:** the request is recorded in `sentTracks` when it is sent. Whether the POST succeeds is not modelled, and the source ignores it too.
- **React and the browser.** Rendering, scrolling, `setTimeout`, `localStorage` writes, the login and AI-recommend fetch handlers, and React's batching of state updates are not modelled. The constructor takes the saved user as a parameter.
- **Presentation components.** Navbar, Hero, About, Journal, Footer, Login, Admin, RecommendModal and CartDrawer only render. The grid's category button list is presentation too.
- **Schema columns.** Product columns that the modelled code does not read (tagline, descriptions, imageUrl, features) are dropped.
