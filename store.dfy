/** The SQLite database of server/db.js as one object whose tables the
    request handlers and the trainer update in place. */
module Store {
  import opened Schema

  class Database {
    var users: seq<User>
    var products: seq<Product>
    /** The `actions` table in insertion (row id) order. */
    var actions: seq<Action>
    /** The `model_weights` row with id 1, if present. */
    var modelWeights: Option<ModelRow>
    /** The `training_logs` table in insertion order. */
    var trainingLogs: seq<LogEntry>

    /** A freshly created database: the tables are created, the singleton
        weights row is seeded with the initial parameters and accuracy 0,
        and the user and product rows are loaded. */
    constructor (users: seq<User>, products: seq<Product>, now: string)
      ensures this.users == users && this.products == products
      ensures actions == [] && trainingLogs == []
      ensures modelWeights == Some(ModelRow(InitialWeights, 0.0, now))
    {
      this.users := users;
      this.products := products;
      actions := [];
      modelWeights := Some(ModelRow(InitialWeights, 0.0, now));
      trainingLogs := [];
    }

    /** The primary-key set of `products`, which the foreign key on
        `actions.productId` refers to. */
    function ProductIds(): (ids: set<string>)
      reads this
      ensures forall i :: 0 <= i < |products| ==> products[i].id in ids
      ensures forall id :: id in ids ==> exists i :: 0 <= i < |products| && products[i].id == id
    {
      set p | p in products :: p.id
    }
  }
}
