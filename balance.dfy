/** The deposit/withdrawal buttons and the transaction popup of the balance
    card (app/components/okane-note-balance.tsx): the card remembers which
    kind of transaction the popup is for, the popup holds its form fields,
    and a submission is forwarded unchanged to the ledger's `addTransaction`. */
module Balance {
  import opened Seqs
  import opened Ledger

  /** The popup's own vocabulary: `'deposit'` and `'withdrawal'`. */
  datatype PopupType = Deposit | Withdrawal

  /** Popup type to ledger category: deposit is income. */
  function CategoryOf(t: PopupType): (c: Category)
    ensures c == Income <==> t == Deposit
  {
    if t == Deposit then Income else Expense
  }

  /** Ledger category to popup type: income is deposit. */
  function PopupTypeOf(c: Category): (t: PopupType)
    ensures t == Deposit <==> c == Income
  {
    if c == Income then Deposit else Withdrawal
  }

  /** The two mappings are inverse bijections. */
  lemma PopupMappingRoundTrip(t: PopupType, c: Category)
    ensures PopupTypeOf(CategoryOf(t)) == t
    ensures CategoryOf(PopupTypeOf(c)) == c
    ensures CategoryOf(t) == Income <==> t == Deposit
  {
  }

  /** `Number(amount)` of the amount field; the empty field (`None`) reads as 0. */
  function AmountValue(amount: Option<int>): (v: int)
    ensures amount.Some? ==> v == amount.value
    ensures amount.None? ==> v == 0
  {
    if amount.Some? then amount.value else 0
  }

  /** What the browser lets through a submit: a whole amount of at least 1
      and a title (the `required`, `min="1"` and `step="1"` attributes). */
  predicate ValidRequest(req: Request) {
    req.amount >= 1 && req.title != ""
  }

  class TransactionPopup {
    /** The amount field; `None` is the empty string. */
    var amount: Option<int>
    var title: string
    var note: string

    constructor ()
      ensures amount == None && title == "" && note == ""
    {
      amount, title, note := None, "", "";
    }

    /** Typing into the form. */
    method Edit(newAmount: Option<int>, newTitle: string, newNote: string)
      modifies this
      ensures amount == newAmount && title == newTitle && note == newNote
    {
      amount, title, note := newAmount, newTitle, newNote;
    }

    /** `handleSubmit`: hand the form on as a request whose category follows
        the popup type, then clear the form. The browser submits only a
        filled-in form. */
    method HandleSubmit(kind: PopupType) returns (req: Request)
      requires amount.Some? && amount.value >= 1 && title != ""
      modifies this
      ensures req == Request(old(amount).value, old(title), old(note), CategoryOf(kind))
      ensures ValidRequest(req)
      ensures req.category == Income <==> kind == Deposit
      ensures amount == None && title == "" && note == ""
    {
      req := Request(AmountValue(amount), title, note, CategoryOf(kind));
      amount, title, note := None, "", "";
    }
  }

  /** The balance card's dialog state, with its popup. */
  class BalancePanel {
    var isDialogOpen: bool
    var transactionType: Category
    const popup: TransactionPopup

    constructor ()
      ensures !isDialogOpen && transactionType == Income && fresh(popup)
      ensures popup.amount == None && popup.title == "" && popup.note == ""
    {
      isDialogOpen := false;
      transactionType := Income;
      popup := new TransactionPopup();
    }

    /** `openTransactionPopup(type)`. */
    method OpenTransactionPopup(kind: PopupType)
      modifies this
      ensures isDialogOpen && transactionType == CategoryOf(kind)
    {
      transactionType := CategoryOf(kind);
      isDialogOpen := true;
    }

    /** `closeTransactionPopup`. */
    method CloseTransactionPopup()
      modifies this
      ensures !isDialogOpen && transactionType == old(transactionType)
    {
      isDialogOpen := false;
    }

    /** `handleAddTransaction`: the request goes to the ledger unchanged. */
    method HandleAddTransaction(req: Request, ledger: LedgerStore, now: int)
      modifies ledger
      ensures ledger.logs == Appended(old(ledger.logs), req, now)
      ensures old(ledger.Valid()) ==> ledger.Valid()
    {
      ledger.AddTransaction(req, now);
    }

    /** A submit of the popup, wired as the card wires it: the popup type is
        derived from `transactionType`, the request goes through
        `handleAddTransaction` and the popup closes. The entry appended has
        the category the card was opened for. */
    method SubmitPopup(ledger: LedgerStore, now: int)
      requires popup.amount.Some? && popup.amount.value >= 1 && popup.title != ""
      modifies this, popup, ledger
      ensures ledger.logs == Appended(old(ledger.logs),
        Request(old(popup.amount).value, old(popup.title), old(popup.note), old(transactionType)), now)
      ensures old(ledger.Valid()) ==> ledger.Valid()
      ensures !isDialogOpen && transactionType == old(transactionType)
      ensures popup.amount == None && popup.title == "" && popup.note == ""
    {
      var req := popup.HandleSubmit(PopupTypeOf(transactionType));
      PopupMappingRoundTrip(PopupTypeOf(transactionType), transactionType);
      HandleAddTransaction(req, ledger, now);
      CloseTransactionPopup();
    }
  }
}
