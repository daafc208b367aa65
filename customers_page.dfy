/**
 * The state of the customer list page that its handlers update in place
 * (src/app/customers/page.tsx:90-106, 140-166, 248, 265-312): the customer list, whether
 * the create dialog is open, and the dialog's form.
 */
module CustomersPage {
  import opened Customers

  class Page {
    var data: seq<CustomerRecord>
    var dialogOpen: bool
    var draft: Draft

    /** No two customers share an id: an invariant the create handler preserves. */
    ghost predicate Valid()
      reads this
    {
      UniqueIds(data)
    }

    /** The page mounts with the initial customers, the dialog closed and an empty form dated `today`. */
    constructor(today: string)
      ensures Valid()
      ensures data == InitialCustomers && !dialogOpen && draft == DefaultDraft(today)
    {
      data := InitialCustomers;
      dialogOpen := false;
      draft := DefaultDraft(today);
      InitialIdsUnique();
    }

    /** The "add customer" button. */
    method OpenDialog()
      requires Valid()
      modifies this
      ensures Valid()
      ensures dialogOpen && data == old(data) && draft == old(draft)
    {
      dialogOpen := true;
    }

    /** The dialog's cancel button and its `onClose`. */
    method CloseDialog()
      requires Valid()
      modifies this
      ensures Valid()
      ensures !dialogOpen && data == old(data) && draft == old(draft)
    {
      dialogOpen := false;
    }

    /** A form field's `onChange`: `setNewCustomer({ ...newCustomer, field: value })`, given the updated form. */
    method EditDraft(d: Draft)
      requires Valid()
      modifies this
      ensures Valid()
      ensures draft == d && data == old(data) && dialogOpen == old(dialogOpen)
    {
      draft := d;
    }

    /**
     * `handleCreate`: appends the record built from the form, with the next
     * id, after every existing customer, which stay as they were; then closes
     * the dialog and resets the form to its defaults dated `today`.
     */
    method Create(today: string)
      requires Valid()
      modifies this
      ensures Valid()
      ensures data == old(data) + [BuildRecord(NextId(old(data)), old(draft))]
      ensures |data| == |old(data)| + 1 && data[..|old(data)|] == old(data)
      ensures !dialogOpen && draft == DefaultDraft(today)
    {
      var rec := BuildRecord(NextId(data), draft);
      CreateKeepsIdsUnique(data, draft);
      data := data + [rec];
      ResetDialog(today);
    }

    /** Closes the dialog and resets the form to its defaults dated `today`, keeping the list. */
    method ResetDialog(today: string)
      modifies this
      ensures data == old(data) && !dialogOpen && draft == DefaultDraft(today)
    {
      dialogOpen := false;
      draft := DefaultDraft(today);
    }
  }
}
