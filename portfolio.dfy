/**
 * The portfolio record: its currency defaults to US dollars and must be one of
 * the supported currencies before the record is written to the database.
 */
module Portfolios {
  import opened Wrappers

  const SupportedCurrencies: seq<string> := ["USD", "EUR", "CAD", "GBP"]
  const DefaultCurrency := "USD"

  /** A validation failure, keyed by the offending field. */
  datatype ValidationError = ValidationError(field: string, message: string)

  datatype Validation = Passed | Failed(error: ValidationError)

  /** What the database holds for a portfolio after a successful save. */
  datatype PortfolioRow = PortfolioRow(
    name: string, description: string, account: nat, strategy: nat, currency: string)

  class Portfolio {
    var name: string
    var description: string
    var account: nat
    var strategy: nat
    var currency: string
    /** The row written by the last successful save, if any. */
    var stored: Option<PortfolioRow>

    /** The database never holds an unsupported currency for this portfolio. */
    ghost predicate Valid()
      reads this
    {
      stored.Some? ==> stored.value.currency in SupportedCurrencies
    }

    /** A new, unsaved portfolio with the default currency. */
    constructor (name: string, description: string, account: nat, strategy: nat)
      ensures this.name == name && this.description == description
      ensures this.account == account && this.strategy == strategy
      ensures currency == DefaultCurrency && stored == None
      ensures Valid() && Clean().Passed?
    {
      this.name := name;
      this.description := description;
      this.account := account;
      this.strategy := strategy;
      currency := DefaultCurrency;
      stored := None;
    }

    function Row(): PortfolioRow
      reads this
    {
      PortfolioRow(name, description, account, strategy, currency)
    }

    /**
     * `clean`: accepts exactly the supported currency codes, compared as
     * written, and otherwise fails on the "currency" field. It changes nothing.
     */
    function Clean(): (r: Validation)
      reads this
      ensures r.Passed? <==> currency in SupportedCurrencies
      ensures r.Failed? ==> r.error == ValidationError("currency", "Unsupported currency.")
    {
      if currency in SupportedCurrencies then Passed
      else Failed(ValidationError("currency", "Unsupported currency."))
    }

    /** `save`: validates, then writes the row; a failed validation writes nothing. */
    method Save() returns (r: Validation)
      modifies this`stored
      ensures r == Clean()
      ensures r.Passed? ==> stored == Some(Row())
      ensures r.Failed? ==> stored == old(stored)
      ensures stored != old(stored) ==> stored.Some? && stored.value.currency in SupportedCurrencies
      ensures old(Valid()) ==> Valid()
    {
      r := Clean();
      if r.Failed? {
        return;
      }
      stored := Some(Row());
    }
  }

  /** The default currency is supported. */
  lemma DefaultCurrencySupported()
    ensures DefaultCurrency in SupportedCurrencies
  {
  }
}
