/** Transactions made one at a time, from drafts in which fields may be missing. */
module ImportDrafts {
  import opened Wrappers
  import opened DedupeKey
  import opened SheetParser
  import opened ImportTable

  /** The key a draft is stored under: its own, or one made of its sheet and row. */
  function KeyOf(d: Draft): string {
    if d.keyed then d.item.tx.dedupeKey else d.item.tx.sheet + ":" + Decimal(d.item.tx.row)
  }

  /** All required fields are there and no time is without a date. */
  predicate Readable(d: Draft) {
    && d.complete && d.item.tx.operationAt.DateTime?
    && (d.item.tx.paymentAt.Some? ==> d.item.tx.paymentAt.value.DateTime?)
  }

  /** Neither the draft's key nor its place in its file is taken. */
  predicate IsNew(rows: map<string, Row>, d: Draft) {
    KeyOf(d) !in rows && forall key <- rows ::
      rows[key].item.fileId != d.item.fileId || rows[key].item.tx.sheet != d.item.tx.sheet
      || rows[key].item.tx.row != d.item.tx.row
  }

  /** The account of the new row: the one the draft names, none, or one in use that has the draft's card. */
  predicate Linked(d: Draft, accounts: seq<Account>, account: Option<nat>) {
    if d.account.Some? then account == d.account
    else if d.item.tx.cardLast4.None? then account.None?
    else account.Some? && account.value < |accounts| && accounts[account.value] == Account(d.item.tx.cardLast4, false)
  }

  lemma InsertableExactly(b: Books, d: Draft, account: Option<nat>)
    ensures Insertable(b, Row(Keyed(d), account)) <==>
            IsNew(b.rows, d) && (account.Some? ==> account.value < |b.accounts|)
  {
    var place := PlaceOf(Row(Keyed(d), account));
    assert forall key <- b.rows :: PlaceOf(b.rows[key]) == place <==>
      b.rows[key].item.fileId == d.item.fileId && b.rows[key].item.tx.sheet == d.item.tx.sheet
      && b.rows[key].item.tx.row == d.item.tx.row;
  }

  /**
   * Which drafts are stored: readable new ones that name no account or an existing one. The row is the draft
   * under its key, linked to its account; every other row stays, at most one account is opened, and none for
   * a draft that names one or has no card, and the data version moves by one.
   */
  lemma CreateExactly(f: Finance, d: Draft)
    ensures CreateOne(f, d).Some? <==>
            Readable(d) && IsNew(f.books.rows, d) && (d.account.Some? ==> d.account.value < |f.books.accounts|)
    ensures CreateOne(f, d).Some? ==>
              var f' := CreateOne(f, d).value;
              && KeyOf(d) in f'.books.rows
              && var row := f'.books.rows[KeyOf(d)];
              && row.item == d.item.(tx := d.item.tx.(dedupeKey := KeyOf(d)))
              && Linked(d, f'.books.accounts, row.account)
              && f'.books.rows == f.books.rows[KeyOf(d) := row]
              && f.books.accounts <= f'.books.accounts && |f'.books.accounts| <= |f.books.accounts| + 1
              && (d.account.Some? || d.item.tx.cardLast4.None? ==> f'.books.accounts == f.books.accounts)
              && f'.version == f.version + 1
  {
    var (accounts, row) := PrepareDraft(f.books.accounts, d);
    if row.Some? { InsertableExactly(Books(f.books.rows, accounts), d, row.value.account); }
  }
}
