/** broker/durability.py: the request journal, and what a parsed request carries. */
module Journal {
  import opened Wrappers
  import opened Budget

  type Id = string

  /** What make_response can be asked for: a model's reply or one of the fixed errors. */
  datatype Response =
    | Reply(bytes: string)
    | OutcomeUncertain(id: Id)
    | BudgetExhausted(id: Id)

  datatype Request = Request(id: Id, model: Model)

  /** Response read from a request file, with what parse_request makes of them. */
  datatype Raw = Raw(bytes: string, parsed: Option<Request>)

  datatype RowState = CLAIMED | COMPLETE | UNCERTAIN

  /** The digest column is modelled by the bytes themselves: the hash is taken as injective. */
  datatype Row = Row(digest: Raw, state: RowState, response: Option<Response>)

  type Rows = map<Id, Row>

  datatype Outcome = NEW | CONFLICT | KNOWN(state: RowState, response: Option<Response>)

  function Claimed(rows: Rows, id: Id, raw: Raw): (Rows, Outcome) {
    if id !in rows then (rows[id := Row(raw, CLAIMED, None)], NEW)
    else if rows[id].digest != raw then (rows, CONFLICT)
    else (rows, KNOWN(rows[id].state, rows[id].response))
  }

  /** None is the ValueError for a row that is not claimed. */
  function Finished(rows: Rows, id: Id, response: Response): Option<Rows> {
    if id in rows && rows[id].state == CLAIMED
    then Some(rows[id := rows[id].(state := COMPLETE, response := Some(response))])
    else None
  }

  function Doubted(rows: Rows, id: Id): Rows {
    if id in rows && rows[id].state == CLAIMED then rows[id := rows[id].(state := UNCERTAIN)] else rows
  }

  /** A row keeps its digest, and only CLAIMED is ever left. */
  ghost predicate Evolves(rows: Rows, rows': Rows) {
    forall id <- rows ::
      && id in rows'
      && rows'[id].digest == rows[id].digest
      && (rows[id].state != CLAIMED ==> rows'[id] == rows[id])
  }

  /** Durable rows updated in place, one transaction a method. */
  class Journal {
    var rows: Rows

    constructor (rows: Rows)
      ensures this.rows == rows
    {
      this.rows := rows;
    }

    method Claim(id: Id, raw: Raw) returns (outcome: Outcome)
      modifies this
      ensures (rows, outcome) == Claimed(old(rows), id, raw)
      ensures Evolves(old(rows), rows)
    {
      if id in rows {
        if rows[id].digest != raw {
          return CONFLICT;
        }
        return KNOWN(rows[id].state, rows[id].response);
      }
      rows := rows[id := Row(raw, CLAIMED, None)];
      return NEW;
    }

    method Finish(id: Id, response: Response) returns (ok: bool)
      modifies this
      ensures ok == Finished(old(rows), id, response).Some?
      ensures rows == if ok then Finished(old(rows), id, response).value else old(rows)
      ensures Evolves(old(rows), rows)
    {
      ok := id in rows && rows[id].state == CLAIMED;
      if ok {
        rows := rows[id := rows[id].(state := COMPLETE, response := Some(response))];
      }
    }

    method Uncertain(id: Id)
      modifies this
      ensures rows == Doubted(old(rows), id)
      ensures Evolves(old(rows), rows)
    {
      if id in rows && rows[id].state == CLAIMED {
        rows := rows[id := rows[id].(state := UNCERTAIN)];
      }
    }
  }
}
