/** The `App` component (web-ui/src/App.js): the CRC and USD totals of every stored expense,
    fetched once when it mounts. */
module AppView {
  import opened Wrappers
  import opened Records
  import opened Aggregate

  class App {
    var totals: Totals

    /** `useState({ CRC: 0, USD: 0 })`. */
    constructor ()
      ensures totals == Totals(0.0, 0.0)
    {
      totals := Totals(0.0, 0.0);
    }

    /** The mount effect, given the response of `GET /expenses` (`None` when it fails). */
    method OnFetch(response: Option<seq<Expense>>)
      modifies this`totals
      ensures response.Some? ==> totals == TotalsOf(response.value)
      ensures response.None? ==> totals == old(totals)
    {
      if response.Some? {
        totals := TotalsOf(response.value);
      }
    }
  }
}
