/** The order helpers: the legal entity that books an order, and the net
    amount left after the payment processor's fee. */
module Commerce {

  const UsEntity := "Lattice Semiconductor Corporation"
  const DefaultEntity := "Lattice SG PTE. LTD."

  /** The entity name for a billing country (`set_of_books_id`). */
  function SetOfBooksId(country: string): (r: string)
    ensures r == UsEntity <==> country == "US"
    ensures r == DefaultEntity <==> country != "US"
  {
    if country == "US" then UsEntity else DefaultEntity
  }

  /** The processor fee field: an empty string when no fee was recorded. */
  datatype Fee = Empty | Amount(value: real)

  /** Net amount of an order (`get_net_amount`); an empty fee counts as 0. */
  function NetAmount(orderTotal: real, fee: Fee): (r: real)
    ensures fee.Empty? ==> r == orderTotal
    ensures fee.Amount? ==> r + fee.value == orderTotal
  {
    var deducted := if fee.Empty? then 0.0 else fee.value;
    orderTotal - deducted
  }
}
