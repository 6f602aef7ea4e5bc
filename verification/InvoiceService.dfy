/** The local side of create_deposit_invoice, and the webhook lookup by provider id. */
module InvoiceService {
  import opened Common
  import opened Sums
  import opened Tables
  import opened Services
  import opened Database

  /** _find_wallet_deposit: the row of this provider with this invoice id. */
  method Lookup(db: Db, provider: Provider, invoice: nat) returns (at: Option<nat>)
    ensures at == FindDeposit(db.deposits, provider, invoice)
  {
    var i := |db.deposits|;
    assert db.deposits[..i] == db.deposits;
    while i > 0
      invariant 0 <= i <= |db.deposits|
      invariant FindDeposit(db.deposits, provider, invoice) == FindDeposit(db.deposits[..i], provider, invoice)
    {
      i := i - 1;
      assert db.deposits[..i + 1][..i] == db.deposits[..i];
      if db.deposits[i].provider == provider && db.deposits[i].invoice == invoice {
        return Some(i);
      }
    }
    at := None;
  }

  /** Insert the row of an invoice the provider has issued; its id must be new for the provider. */
  method AddInvoice(db: Db, row: Deposit, issued: Option<nat>) returns (failure: Option<Error>)
    modifies db`deposits
    ensures match NewInvoice(old(db.State()), row, issued)
            case Ok(stored) => failure.None? && db.deposits == old(db.deposits) + [stored]
            case Err(error) => failure == Some(error) && db.deposits == old(db.deposits)
  {
    if issued.None? { return Some(ProviderFailed); }
    var taken := Lookup(db, row.provider, issued.value);
    if taken.Some? { return Some(DuplicateInvoice); }
    db.deposits := db.deposits + [row.(invoice := issued.value)];
    failure := None;
  }
}
