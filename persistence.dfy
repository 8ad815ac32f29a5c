/**
 * The persistence engine both components write through. A write is modelled
 * as appending a snapshot of the entity, in call order, to `rows`; identity
 * assignment and upsert semantics of the engine are not modelled.
 */
module Persistence {

  class Store<R> {
    /** Every snapshot written so far, oldest first. */
    var rows: seq<R>

    constructor ()
      ensures rows == []
    {
      rows := [];
    }

    /** Writes one snapshot. */
    method Persist(row: R)
      modifies this
      ensures rows == old(rows) + [row]
    {
      rows := rows + [row];
    }
  }
}
