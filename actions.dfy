/** The server actions over the Invoice table: find one, list all, create,
    update and delete. Each wraps one storage call, never lets an error escape,
    and answers with the `{status, message, data}` envelope. A thrown storage
    error is the `dbFails` parameter; `update` and `delete` also fail when no row
    has the id. Writes ask for the `/invoices` page to be revalidated on
    success only. */
module InvoiceActions {
  import opened Wrappers
  import opened Invoices

  /** The `ServerActionResponse` envelope (the diagnostic `stack` is not modelled). */
  datatype Response<T> = Response(status: bool, message: string, data: Option<T>)

  const FindOk := "Invoice fetched successfully"
  const FindError := "Error from findInvoice in Server Action"
  const ListOk := "Invoices fetched successfully"
  const ListError := "Error from getInvoices in Server Action"
  const CreateOk := "Invoice created successfully"
  const CreateError := "Error createInvoice from Server Action"
  const UpdateOk := "Invoice updated!"
  const UpdateError := "Error updateInvoice from Server Action"
  const DeleteOk := "Invoice deleted!"
  const DeleteError := "Error deleteInvoice from Server Action"

  /** The path every successful write revalidates. */
  const InvoicesPath := "/invoices"

  /** The answer of every catch block: failed, no data, a fixed message. */
  function Failed<T>(message: string): (r: Response<T>)
    ensures !r.status && r.data.None? && r.message == message
  {
    Response(false, message, None)
  }

  /** The table: rows by primary key, and the next autoincrement value. */
  datatype Db = Db(rows: map<int, Invoice>, nextId: int)

  /** Every row sits under its own id, and every id was handed out already. */
  predicate WellKeyed(db: Db)
  {
    1 <= db.nextId
    && forall k :: k in db.rows ==> 1 <= k < db.nextId && db.rows[k].id == k
  }

  /** A write's answer together with the table after it. */
  datatype Written = Written(response: Response<Invoice>, after: Db)

  /** The rows with ids in [lo, hi), in id order. */
  function RowsBetween(rows: map<int, Invoice>, lo: int, hi: int): (r: seq<Invoice>)
    requires forall k :: k in rows ==> rows[k].id == k
    ensures forall k :: lo <= k < hi && k in rows ==> rows[k] in r
    ensures forall i :: 0 <= i < |r| ==> lo <= r[i].id < hi && r[i].id in rows && rows[r[i].id] == r[i]
    ensures forall i, j :: 0 <= i < j < |r| ==> r[i].id < r[j].id
    decreases hi - lo
  {
    if hi <= lo then []
    else if lo in rows then [rows[lo]] + RowsBetween(rows, lo + 1, hi)
    else RowsBetween(rows, lo + 1, hi)
  }

  /** `findMany()`: every row exactly once, in primary-key order. */
  function Listing(db: Db): (r: seq<Invoice>)
    requires WellKeyed(db)
    ensures forall x :: x in r <==> x in db.rows.Values
    ensures forall i, j :: 0 <= i < j < |r| ==> r[i].id < r[j].id
  {
    var r := RowsBetween(db.rows, 1, db.nextId);
    assert forall x :: x in r ==> x in db.rows.Values by {
      forall x | x in r ensures x in db.rows.Values {
        var i :| 0 <= i < |r| && r[i] == x;
        assert db.rows[r[i].id] == x;
      }
    }
    r
  }

  /** `findInvoice(id)`: `findFirst` answers null when no row has the id, and
      that is still a success. */
  function FindStep(db: Db, id: int, dbFails: bool): (r: Response<Invoice>)
    requires WellKeyed(db)
    ensures r.status <==> !dbFails
    ensures dbFails ==> r == Failed(FindError)
    ensures !dbFails ==> r.message == FindOk && (r.data.Some? <==> id in db.rows)
    ensures r.data.Some? ==> r.data.value.id == id && r.data.value in db.rows.Values
  {
    if dbFails then Failed(FindError)
    else Response(true, FindOk, if id in db.rows then Some(db.rows[id]) else None)
  }

  /** `getInvoices()`: all rows on success. */
  function ListStep(db: Db, dbFails: bool): (r: Response<seq<Invoice>>)
    requires WellKeyed(db)
    ensures r.status <==> !dbFails
    ensures dbFails ==> r == Failed(ListError)
    ensures !dbFails ==> r.message == ListOk && r.data.Some?
                         && (forall x :: x in r.data.value <==> x in db.rows.Values)
  {
    if dbFails then Failed(ListError) else Response(true, ListOk, Some(Listing(db)))
  }

  /** `createInvoice(data)`: inserts the row under a fresh id and returns it. */
  function CreateStep(db: Db, data: InvoiceData, dbFails: bool): (w: Written)
    requires WellKeyed(db)
    ensures WellKeyed(w.after)
    ensures w.response.status <==> !dbFails
    ensures dbFails ==> w.response == Failed(CreateError) && w.after == db
    ensures !dbFails ==>
      var inv := WithId(db.nextId, data);
      db.nextId !in db.rows
      && w.response == Response(true, CreateOk, Some(inv))
      && w.after.rows == db.rows[db.nextId := inv]
      && w.after.nextId > db.nextId
  {
    if dbFails then Written(Failed(CreateError), db)
    else
      var inv := WithId(db.nextId, data);
      Written(Response(true, CreateOk, Some(inv)), Db(db.rows[db.nextId := inv], db.nextId + 1))
  }

  /** `updateInvoice(id, patch)`: fails, changing nothing, when no row has the
      id; otherwise rewrites that row alone. */
  function UpdateStep(db: Db, id: int, patch: InvoicePatch, dbFails: bool): (w: Written)
    requires WellKeyed(db)
    ensures WellKeyed(w.after)
    ensures w.response.status <==> !dbFails && id in db.rows
    ensures !w.response.status ==> w.response == Failed(UpdateError) && w.after == db
    ensures w.response.status ==>
      var inv := ApplyPatch(db.rows[id], patch);
      w.response == Response(true, UpdateOk, Some(inv))
      && w.after == Db(db.rows[id := inv], db.nextId)
  {
    if dbFails || id !in db.rows then Written(Failed(UpdateError), db)
    else
      var inv := ApplyPatch(db.rows[id], patch);
      Written(Response(true, UpdateOk, Some(inv)), Db(db.rows[id := inv], db.nextId))
  }

  /** `deleteInvoice(id)`: fails, changing nothing, when no row has the id;
      otherwise removes that row alone and returns it. */
  function DeleteStep(db: Db, id: int, dbFails: bool): (w: Written)
    requires WellKeyed(db)
    ensures WellKeyed(w.after)
    ensures w.response.status <==> !dbFails && id in db.rows
    ensures !w.response.status ==> w.response == Failed(DeleteError) && w.after == db
    ensures w.response.status ==>
      w.response == Response(true, DeleteOk, Some(db.rows[id]))
      && w.after.rows.Keys == db.rows.Keys - {id}
      && (forall k :: k in w.after.rows ==> w.after.rows[k] == db.rows[k])
      && w.after.nextId == db.nextId
  {
    if dbFails || id !in db.rows then Written(Failed(DeleteError), db)
    else Written(Response(true, DeleteOk, Some(db.rows[id])), Db(db.rows - {id}, db.nextId))
  }

  /** A write revalidates the list page exactly when it succeeded. */
  function Revalidations(r: Response<Invoice>): (paths: seq<string>)
    ensures paths == [] || paths == [InvoicesPath]
    ensures paths != [] <==> r.status
  {
    if r.status then [InvoicesPath] else []
  }

  /** After a successful create, listing the table includes the new row. */
  lemma CreateThenList(db: Db, data: InvoiceData)
    requires WellKeyed(db)
    ensures var w := CreateStep(db, data, false);
            w.response.data.Some? && w.response.data.value in ListStep(w.after, false).data.value
  {
    var w := CreateStep(db, data, false);
    assert w.after.rows[db.nextId] == w.response.data.value;
  }

  /** After a successful delete, listing the table no longer includes any row
      with that id, and still includes every other row. */
  lemma DeleteThenList(db: Db, id: int)
    requires WellKeyed(db)
    requires DeleteStep(db, id, false).response.status
    ensures var listed := ListStep(DeleteStep(db, id, false).after, false).data.value;
            (forall x :: x in listed ==> x.id != id)
            && (forall k :: k in db.rows && k != id ==> db.rows[k] in listed)
  {
    var after := DeleteStep(db, id, false).after;
    forall k | k in db.rows && k != id
      ensures db.rows[k] in after.rows.Values
    {
      assert k in after.rows && after.rows[k] == db.rows[k];
    }
  }

  /** The persisted table, with the log of revalidated paths. */
  class InvoiceStore {
    var rows: map<int, Invoice>
    var nextId: int
    ghost var revalidated: seq<string>

    function State(): Db
      reads this
    {
      Db(rows, nextId)
    }

    ghost predicate Valid()
      reads this
    {
      WellKeyed(State())
    }

    /** An empty table whose ids start at 1. */
    constructor ()
      ensures Valid() && rows == map[] && nextId == 1 && revalidated == []
    {
      rows, nextId := map[], 1;
      revalidated := [];
    }

    method FindInvoice(id: int, dbFails: bool) returns (r: Response<Invoice>)
      requires Valid()
      ensures r == FindStep(State(), id, dbFails)
    {
      if dbFails {
        return Failed(FindError);
      }
      var data := if id in rows then Some(rows[id]) else None;
      r := Response(true, FindOk, data);
    }

    method GetInvoices(dbFails: bool) returns (r: Response<seq<Invoice>>)
      requires Valid()
      ensures r == ListStep(State(), dbFails)
    {
      if dbFails {
        return Failed(ListError);
      }
      r := Response(true, ListOk, Some(Listing(State())));
    }

    method CreateInvoice(data: InvoiceData, dbFails: bool) returns (r: Response<Invoice>)
      requires Valid()
      modifies this
      ensures Valid()
      ensures r == CreateStep(old(State()), data, dbFails).response
      ensures State() == CreateStep(old(State()), data, dbFails).after
      ensures revalidated == old(revalidated) + Revalidations(r)
    {
      if dbFails {
        return Failed(CreateError);
      }
      var inv := WithId(nextId, data);
      rows, nextId := rows[nextId := inv], nextId + 1;
      revalidated := revalidated + [InvoicesPath];
      r := Response(true, CreateOk, Some(inv));
    }

    method UpdateInvoice(id: int, patch: InvoicePatch, dbFails: bool) returns (r: Response<Invoice>)
      requires Valid()
      modifies this
      ensures Valid()
      ensures r == UpdateStep(old(State()), id, patch, dbFails).response
      ensures State() == UpdateStep(old(State()), id, patch, dbFails).after
      ensures revalidated == old(revalidated) + Revalidations(r)
    {
      if dbFails || id !in rows {
        return Failed(UpdateError);
      }
      var inv := ApplyPatch(rows[id], patch);
      rows := rows[id := inv];
      revalidated := revalidated + [InvoicesPath];
      r := Response(true, UpdateOk, Some(inv));
    }

    method DeleteInvoice(id: int, dbFails: bool) returns (r: Response<Invoice>)
      requires Valid()
      modifies this
      ensures Valid()
      ensures r == DeleteStep(old(State()), id, dbFails).response
      ensures State() == DeleteStep(old(State()), id, dbFails).after
      ensures revalidated == old(revalidated) + Revalidations(r)
    {
      if dbFails || id !in rows {
        return Failed(DeleteError);
      }
      var inv := rows[id];
      rows := rows - {id};
      revalidated := revalidated + [InvoicesPath];
      r := Response(true, DeleteOk, Some(inv));
    }
  }
}
