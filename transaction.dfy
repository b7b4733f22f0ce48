/**
 * The transaction record: saving it derives its total cost from its quantity
 * and unit price, and it renders as "<Type> <quantity> <name> at <price>".
 */
module Transactions {
  import opened Wrappers
  import opened Text

  /** The transaction type codes with their display labels. */
  const TransactionTypes: seq<(string, string)> := [("buy", "Buy"), ("sell", "Sell"), ("dividend", "Dividend")]

  /** What the database holds for a transaction after a save. */
  datatype TransactionRow = TransactionRow(
    portfolio: nat, transactionType: string, name: string, symbol: string,
    quantity: real, pricePerUnit: real, totalCost: real, transactionDate: int)

  class Transaction {
    var portfolio: nat
    var transactionType: string
    var name: string
    var symbol: string
    var quantity: real
    var pricePerUnit: real
    var totalCost: real
    var transactionDate: int
    /** The row written by the last save, if any. */
    var stored: Option<TransactionRow>

    constructor (portfolio: nat, transactionType: string, name: string, symbol: string,
                 quantity: real, pricePerUnit: real, totalCost: real, transactionDate: int)
      ensures this.portfolio == portfolio && this.transactionType == transactionType
      ensures this.name == name && this.symbol == symbol
      ensures this.quantity == quantity && this.pricePerUnit == pricePerUnit
      ensures this.totalCost == totalCost && this.transactionDate == transactionDate
      ensures stored == None
    {
      this.portfolio := portfolio;
      this.transactionType := transactionType;
      this.name := name;
      this.symbol := symbol;
      this.quantity := quantity;
      this.pricePerUnit := pricePerUnit;
      this.totalCost := totalCost;
      this.transactionDate := transactionDate;
      stored := None;
    }

    function Row(): TransactionRow
      reads this
    {
      TransactionRow(portfolio, transactionType, name, symbol, quantity, pricePerUnit, totalCost, transactionDate)
    }

    /**
     * `save`: replaces whatever total cost was set by quantity times unit price,
     * then writes the row. No other field changes.
     */
    method Save()
      modifies this`totalCost, this`stored
      ensures totalCost == quantity * pricePerUnit
      ensures quantity == 0.0 || pricePerUnit == 0.0 ==> totalCost == 0.0
      ensures stored == Some(Row())
    {
      totalCost := quantity * pricePerUnit;
      stored := Some(Row());
    }

    /**
     * The string form, with `fmt` rendering a decimal: for a listed type, its
     * display label, the quantity, the name, and the unit price after "at".
     */
    function ToString(fmt: real -> string): (r: string)
      reads this
      ensures forall i :: 0 <= i < |TransactionTypes| && transactionType == TransactionTypes[i].0 ==>
        TransactionTypes[i].1 <= r
      ensures forall i :: 0 <= i < |TransactionTypes| && transactionType == TransactionTypes[i].0 ==>
        r == TransactionTypes[i].1 + " " + fmt(quantity) + " " + name + " at " + fmt(pricePerUnit)
      ensures |fmt(pricePerUnit)| <= |r| && r[|r| - |fmt(pricePerUnit)|..] == fmt(pricePerUnit)
    {
      var head := Capitalize(transactionType);
      var rest := " " + fmt(quantity) + " " + name + " at " + fmt(pricePerUnit);
      LabelsAreCapitalizedCodes();
      PrefixOfConcat(head, rest);
      head + rest
    }
  }

  /** Each display label is the capitalised type code. */
  lemma {:induction false} LabelsAreCapitalizedCodes()
    ensures forall i :: 0 <= i < |TransactionTypes| ==> Capitalize(TransactionTypes[i].0) == TransactionTypes[i].1
  {
  }
}
