/** The income form's row store as the component keeps it: mutable rows,
    carry-forward and the log of dispatched events, changed in place by the
    form's handlers. Each handler is proved to end in exactly the state that
    the matching function of module LedgerStore specifies, so every lemma
    proved there holds of the form. */
module IncomeForm {
  import opened LedgerRows
  import opened LedgerTotal
  import opened LedgerStore

  class IncomeFormArea {
    var rows: seq<Row>
    var carryForward: Money
    /** Stands in for the dispatcher: every dispatched event is appended here. */
    var events: seq<Event>

    /** The ledger value the fields hold. */
    function State(): Ledger
      reads this
    {
      Ledger(rows, carryForward, events)
    }

    /** The total shown under the rows. */
    function CurrentTotal(): (t: real)
      reads this
      ensures t == Contribution(carryForward) + Sum(rows)
    {
      Total(rows, carryForward)
    }

    /** Mounting: one blank row dated `currDate`, carry-forward 0, nothing dispatched. */
    constructor (currDate: string)
      ensures State() == Initial(currDate)
      ensures CurrentTotal() == 0.0
    {
      rows := [BlankRow(currDate)];
      carryForward := Num(0.0);
      events := [];
    }

    method HandleAddClick(currDate: string)
      modifies this
      ensures State() == AddRow(old(State()), currDate)
      ensures CurrentTotal() == old(CurrentTotal())
    {
      rows := rows + [BlankRow(currDate)];
    }

    /** An input of row `index` changed to the value carried by `e`. */
    method HandleInputChange(index: nat, e: Edit)
      requires index < |rows|
      modifies this
      ensures State() == EditField(old(State()), index, e)
    {
      var list := rows;
      list := list[index := Apply(list[index], e)];
      rows := list;
    }

    /** Input `field` of row `index` gained focus. */
    method HandleFocus(index: nat, field: Field)
      requires index < |rows|
      modifies this
      ensures State() == FocusField(old(State()), index, field)
    {
      var list := rows;
      list := list[index := Apply(list[index], Clear(field))];
      rows := list;
    }

    /** The delete icon of row `index` was clicked. */
    method HandleRemoveClick(index: nat)
      requires index < |rows|
      modifies this
      ensures State() == RemoveRow(old(State()), index)
      ensures CurrentTotal() == old(CurrentTotal()) - Contribution(old(rows[index].amount))
      ensures IdsAccounted(old(State()), State())
    {
      var list := rows;
      if list[index].id.Saved? {
        events := events + [IncomeId(list[index].id.key)];
      }
      list := list[..index] + list[index + 1..];
      rows := list;
      RemoveTotal(old(State()), index);
      RemoveAccountsForIds(old(State()), index);
    }

    /** The carry-forward input changed. */
    method HandleCarryForwardChange(cf: Money)
      modifies this
      ensures State() == SetCarryForward(old(State()), cf)
    {
      carryForward := cf;
    }

    /** The listener for the server's response. */
    method HandleApiResponse(s: Snapshot, currDate: string)
      modifies this
      ensures State() == Reconcile(old(State()), s, currDate)
    {
      if |s.income| == 0 {
        rows := [BlankRow(currDate)];
        carryForward := Num(0.0);
      } else {
        rows := s.income;
        carryForward := s.cf;
      }
    }
  }
}
