/** The invoice list page: the search/status filter over the fetched rows and
    the two-step delete (pick a row, then confirm in the dialog). */
module InvoiceList {
  import opened Wrappers
  import opened Invoices
  import opened Text
  import opened Seqs
  import opened InvoiceActions
  import opened ConfirmationDialog

  /** The status picker's sentinel for "every status". */
  const AllStatus := -1

  datatype StatusFilterOption = StatusFilterOption(caption: string, value: int)

  const StatusOptions := [
    StatusFilterOption("All Status", AllStatus),
    StatusFilterOption("Unpaid", Unpaid),
    StatusFilterOption("Pending", Pending),
    StatusFilterOption("Paid", Paid)
  ]

  /** The search text occurs in the name, ignoring case. */
  predicate NameMatches(inv: Invoice, search: string)
  {
    Contains(Lower(inv.name), Lower(search))
  }

  predicate StatusMatches(inv: Invoice, status: int)
  {
    status == AllStatus || inv.status == status
  }

  /** The single condition a row must meet to be shown. */
  predicate Shown(inv: Invoice, search: string, status: int)
  {
    NameMatches(inv, search) && StatusMatches(inv, status)
  }

  /** The effect that recomputes the visible rows: a name filter only when the
      search text is non-empty, then a status filter only when a status other
      than the sentinel is picked. */
  function Filter(data: seq<Invoice>, search: string, status: int): (r: seq<Invoice>)
    ensures |r| <= |data|
    ensures search == "" && status == AllStatus ==> r == data
  {
    var byName := if search != "" then Keep(data, inv => NameMatches(inv, search)) else data;
    if status != AllStatus then Keep(byName, (inv: Invoice) => inv.status == status) else byName
  }

  /** The two guarded filters amount to one filter by Shown: skipping the name
      filter for an empty search loses nothing, because every name contains "". */
  lemma FilterIsOnePass(data: seq<Invoice>, search: string, status: int)
    ensures Filter(data, search, status) == Keep(data, inv => Shown(inv, search, status))
  {
    var shown := (inv: Invoice) => Shown(inv, search, status);
    var byName := (inv: Invoice) => NameMatches(inv, search);
    var byStatus := (inv: Invoice) => inv.status == status;
    var any := (inv: Invoice) => true;
    if search == "" {
      forall inv: Invoice ensures NameMatches(inv, search) {
        ContainsEmpty(Lower(inv.name));
      }
    }
    if search != "" && status != AllStatus {
      KeepKeep(data, byName, byStatus, shown);
    } else if search != "" {
      KeepKeep(data, byName, any, shown);
      KeepAll(Keep(data, byName), any);
    } else if status != AllStatus {
      KeepKeep(data, any, byStatus, shown);
      KeepAll(data, any);
    } else {
      KeepAll(data, shown);
    }
  }

  /** Soundness and completeness: a row is shown exactly when it is one of the
      fetched rows and passes both the name check and the status check. */
  lemma FilterMembership(data: seq<Invoice>, search: string, status: int)
    ensures forall inv :: inv in Filter(data, search, status) <==>
      inv in data && Contains(Lower(inv.name), Lower(search))
      && (status == AllStatus || inv.status == status)
  {
    FilterIsOnePass(data, search, status);
  }

  /** The shown rows are the fetched rows with some left out, in their order. */
  lemma FilterKeepsOrder(data: seq<Invoice>, search: string, status: int)
    ensures Subseq(Filter(data, search, status), data)
    ensures |Filter(data, search, status)| <= |data|
  {
    FilterIsOnePass(data, search, status);
  }

  /** An empty search does no name filtering: only the status decides. */
  lemma EmptySearchFiltersNoName(data: seq<Invoice>, status: int)
    ensures Filter(data, "", status) == Keep(data, inv => StatusMatches(inv, status))
  {
    FilterIsOnePass(data, "", status);
    assert forall inv :: Shown(inv, "", status) == StatusMatches(inv, status) by {
      forall inv: Invoice ensures NameMatches(inv, "") {
        ContainsEmpty(Lower(inv.name));
      }
    }
    KeepKeep(data, inv => StatusMatches(inv, status), (inv: Invoice) => true, inv => Shown(inv, "", status));
    KeepAll(Keep(data, inv => StatusMatches(inv, status)), (inv: Invoice) => true);
    KeepKeep(data, inv => StatusMatches(inv, status), (inv: Invoice) => true, inv => StatusMatches(inv, status));
  }

  /** The sentinel status with an empty search shows every fetched row. */
  lemma NoFilterShowsAll(data: seq<Invoice>)
    ensures Filter(data, "", AllStatus) == data
  {
  }

  /** A real status keeps exactly the rows with that status. */
  lemma StatusFilterExact(data: seq<Invoice>, search: string, status: int)
    requires status != AllStatus
    ensures forall inv :: inv in Filter(data, search, status) ==> inv.status == status
    ensures forall inv :: inv in Filter(data, search, status) <==> inv in Filter(data, search, AllStatus) && inv.status == status
  {
    FilterMembership(data, search, status);
    FilterMembership(data, search, AllStatus);
  }

  lemma BetaLacksAc()
    ensures !Contains("beta", "ac")
  {
    assert !Contains("", "ac");
    assert "a"[1..] == "";
    assert !Contains("a", "ac");
    assert "ta"[1..] == "a" && "ta"[0] != 'a';
    assert !Contains("ta", "ac");
    assert "eta"[1..] == "ta" && "eta"[0] != 'a';
    assert !Contains("eta", "ac");
    assert "beta"[1..] == "eta" && "beta"[0] != 'a';
  }

  lemma ExampleNames()
    ensures NameMatches(Invoice(1, "Acme", "INV-1", 10.0, Date(2024, 1, 1), Unpaid), "ac")
  {
    assert Lower("Acme") == "acme";
    assert Lower("ac") == "ac";
    assert "ac" <= "acme";
  }

  /** Searching "ac" over every status shows Acme and not Beta. */
  lemma SearchExample(acme: Invoice, beta: Invoice)
    requires acme == Invoice(1, "Acme", "INV-1", 10.0, Date(2024, 1, 1), Unpaid)
    requires beta == Invoice(2, "Beta", "INV-2", 20.0, Date(2024, 1, 1), Paid)
    ensures Filter([acme, beta], "ac", AllStatus) == [acme]
  {
    ExampleNames();
    BetaLacksAc();
    assert Lower("Beta") == "beta";
    assert Lower("ac") == "ac";
    assert !NameMatches(beta, "ac");
    var shown := inv => Shown(inv, "ac", AllStatus);
    FilterIsOnePass([acme, beta], "ac", AllStatus);
    assert [acme, beta][1..] == [beta] && [beta][1..] == [];
    assert Keep([beta], shown) == [];
    assert Keep([acme, beta], shown) == [acme] + Keep([beta], shown);
  }

  /** Picking Paid with no search shows Beta and not Acme. */
  lemma StatusExample(acme: Invoice, beta: Invoice)
    requires acme == Invoice(1, "Acme", "INV-1", 10.0, Date(2024, 1, 1), Unpaid)
    requires beta == Invoice(2, "Beta", "INV-2", 20.0, Date(2024, 1, 1), Paid)
    ensures Filter([acme, beta], "", Paid) == [beta]
  {
    var shown := inv => Shown(inv, "", Paid);
    FilterIsOnePass([acme, beta], "", Paid);
    assert [acme, beta][1..] == [beta] && [beta][1..] == [];
    ContainsEmpty(Lower("Beta"));
    assert Keep([beta], shown) == [beta] + Keep([], shown);
    assert Keep([acme, beta], shown) == Keep([beta], shown);
  }

  /** The worked example: rows Acme (Unpaid) and Beta (Paid); searching "ac"
      over every status shows Acme alone, and Paid with no search shows Beta alone. */
  lemma FilterExample()
    ensures var acme := Invoice(1, "Acme", "INV-1", 10.0, Date(2024, 1, 1), Unpaid);
            var beta := Invoice(2, "Beta", "INV-2", 20.0, Date(2024, 1, 1), Paid);
            Filter([acme, beta], "ac", AllStatus) == [acme]
            && Filter([acme, beta], "", Paid) == [beta]
  {
    var acme := Invoice(1, "Acme", "INV-1", 10.0, Date(2024, 1, 1), Unpaid);
    var beta := Invoice(2, "Beta", "INV-2", 20.0, Date(2024, 1, 1), Paid);
    SearchExample(acme, beta);
    StatusExample(acme, beta);
  }

  /** The transient notice shown after a delete. */
  datatype Alert = Alert(status: bool, message: string)

  /** A failed delete is rethrown as an `Error` and shown through
      `JSON.stringify`, which writes an `Error` as `{}`. */
  const FailureText := "{}"

  /** The notice for a delete's answer: success carries the action's message,
      failure is an error notice. */
  function AlertFor(r: Response<Invoice>): (a: Alert)
    ensures a.status == r.status
    ensures r.status ==> a.message == r.message
    ensures !r.status ==> a.message == FailureText
  {
    if r.status then Alert(true, r.message) else Alert(false, FailureText)
  }

  /** A confirmed delete that succeeds announces "Invoice deleted!". */
  lemma DeleteSuccessAlert(db: Db, id: int)
    requires WellKeyed(db) && id in db.rows
    ensures AlertFor(DeleteStep(db, id, false).response) == Alert(true, DeleteOk)
  {
  }

  /** The list page's state cells. `deletes` records every id passed to
      `deleteInvoice`, `dialogCalls` every callback the dialog makes. */
  class ListView {
    const store: InvoiceStore
    const data: seq<Invoice>
    var search: string
    var status: int
    var filtered: seq<Invoice>
    var openDialog: bool
    var selected: Option<Invoice>
    var alert: Option<Alert>
    ghost var deletes: seq<int>
    ghost var dialogCalls: seq<Call>

    /** The shown rows are always the filter of the fetched rows by the
      current search and status. It reads only those three cells, so a method
      whose frame leaves them out keeps it: `HandleConfirmDelete` and
      `ConfirmYes` preserve it that way, and the lighter handlers say so in
      their contracts. */
    ghost predicate Valid()
      reads this`filtered, this`search, this`status
    {
      filtered == Filter(data, search, status)
    }

    /** The page as first rendered with the fetched rows. */
    constructor (store: InvoiceStore, data: seq<Invoice>)
      ensures this.store == store && this.data == data
      ensures search == "" && status == AllStatus && filtered == data && Valid()
      ensures !openDialog && selected == None && alert == None
      ensures deletes == [] && dialogCalls == []
    {
      this.store := store;
      this.data := data;
      search, status, filtered := "", AllStatus, data;
      openDialog, selected, alert := false, None, None;
      deletes, dialogCalls := [], [];
    }

    /** Typing in the search box, followed by the filter effect. */
    method SetSearch(text: string)
      modifies this`search, this`filtered
      ensures search == text && Valid()
    {
      search := text;
      filtered := Filter(data, search, status);
    }

    /** Picking a status option, followed by the filter effect. */
    method SetStatus(option: StatusFilterOption)
      modifies this`status, this`filtered
      ensures status == option.value && Valid()
    {
      status := option.value;
      filtered := Filter(data, search, status);
    }

    /** `handleDeleteClick`: remembers the row and opens the dialog; it does
      not delete anything. */
    method HandleDeleteClick(inv: Invoice)
      requires Valid()
      modifies this`selected, this`openDialog
      ensures Valid()
      ensures selected == Some(inv) && openDialog
    {
      selected := Some(inv);
      openDialog := true;
    }

    /** `handleConfirmDelete`: with no selected row nothing happens; otherwise
      the row's id is deleted, the notice reflects the answer, and the dialog
      is closed whatever the answer. */
    method HandleConfirmDelete(dbFails: bool)
      requires store.Valid()
      modifies this`openDialog, this`alert, this`deletes, store
      ensures store.Valid()
      ensures old(selected) == None ==> unchanged(this, store)
      ensures old(selected).Some? ==>
        var w := DeleteStep(old(store.State()), selected.value.id, dbFails);
        store.State() == w.after
        && store.revalidated == old(store.revalidated) + Revalidations(w.response)
        && deletes == old(deletes) + [selected.value.id]
        && alert == Some(AlertFor(w.response))
        && !openDialog
    {
      if selected.Some? {
        var id := selected.value.id;
        deletes := deletes + [id];
        var action := store.DeleteInvoice(id, dbFails);
        alert := Some(AlertFor(action));
        openDialog := false;
      }
    }

    /** "Yes" in this page's dialog: `confirmHandler` with `onConfirm` bound to
      `handleConfirmDelete`, `setOpen` bound to the `openDialog` cell and no
      `handleClose`. */
    method ConfirmYes(dbFails: bool)
      requires store.Valid()
      modifies this`openDialog, this`alert, this`deletes, this`dialogCalls, store
      ensures store.Valid()
      ensures dialogCalls == old(dialogCalls) + ConfirmCalls(true, false)
      ensures !openDialog
      ensures old(selected) == None ==> deletes == old(deletes) && alert == old(alert) && unchanged(store)
      ensures old(selected).Some? ==>
        var w := DeleteStep(old(store.State()), selected.value.id, dbFails);
        deletes == old(deletes) + [selected.value.id]
        && store.State() == w.after
        && store.revalidated == old(store.revalidated) + Revalidations(w.response)
        && alert == Some(AlertFor(w.response))
    {
      dialogCalls := dialogCalls + [OnConfirm];
      HandleConfirmDelete(dbFails);
      openDialog := false;
      dialogCalls := dialogCalls + [SetOpen(false)];
    }

    /** "No" in this page's dialog (or dismissing it): `closeHandler` with no
      `handleClose`, so it only closes; no delete is made. */
    method ConfirmNo()
      requires Valid()
      modifies this`openDialog, this`dialogCalls
      ensures Valid()
      ensures !openDialog
      ensures dialogCalls == old(dialogCalls) + CloseCalls(false)
      ensures deletes == old(deletes)
    {
      openDialog := false;
      dialogCalls := dialogCalls + [SetOpen(false)];
    }

    /** Closing the notice, by hand or when its timer fires. */
    method DismissAlert()
      requires Valid()
      modifies this`alert
      ensures Valid()
      ensures alert == None
    {
      alert := None;
    }
  }
}
