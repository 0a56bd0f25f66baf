/** Rows of the storefront's tables (server/db.js) and the shared
    option type. Everything here is a plain value. */
module Schema {

  datatype Option<+T> = None | Some(value: T)

  /** A catalog row. Only the columns the modelled code reads are kept;
      `price` is an SQL INTEGER. */
  datatype Product = Product(id: string, name: string, price: int, category: string)

  /** A row of `users`. */
  datatype User = User(id: int, username: string, password: string)

  /** A row of the append-only `actions` log. `actionType` is free text;
      the queries only count "view", "click" and "buy". */
  datatype Action = Action(userId: string, actionType: string, productId: string, timestamp: string)

  const ViewAction: string := "view"
  const ClickAction: string := "click"
  const BuyAction: string := "buy"

  /** The four learned parameters of the logistic model. */
  datatype Weights = Weights(bias: real, wView: real, wClick: real, wBuy: real)

  /** The singleton `model_weights` row with id 1. */
  datatype ModelRow = ModelRow(weights: Weights, accuracy: real, updatedAt: string)

  /** The values `INSERT OR IGNORE` writes into the singleton row on first
      start; they override the column defaults. */
  const InitialWeights: Weights := Weights(-1.0, 0.5, 1.5, 3.0)

  datatype LogStatus = Success | Error | Skipped

  /** The message column of a training log row. A successful run's message
      is rendered from the accuracy and two weights with `toFixed`; the
      rendering is kept symbolic. */
  datatype LogMessage = Text(text: string) | Learned(accuracy: real, wView: real, wClick: real)

  datatype LogEntry = LogEntry(status: LogStatus, message: LogMessage, timestamp: string)
}

/** The key enumeration behind an SQL `GROUP BY`: each key once, in order
    of first appearance. */
module Grouping {

  ghost predicate NoDuplicates<T(!new)>(s: seq<T>) {
    forall i, j :: 0 <= i < j < |s| ==> s[i] != s[j]
  }

  function Distinct<T(==,!new)>(s: seq<T>): (d: seq<T>)
    ensures NoDuplicates(d)
    ensures forall x :: x in d <==> x in s
  {
    if s == [] then []
    else
      var d := Distinct(s[..|s| - 1]);
      assert forall x :: x in s <==> x in s[..|s| - 1] || x == s[|s| - 1];
      if s[|s| - 1] in d then d else d + [s[|s| - 1]]
  }
}
