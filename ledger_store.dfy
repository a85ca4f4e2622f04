/** The income ledger as a value, and one function per handler of the form.

    A `Ledger` is the form's state: the ordered rows, the carry-forward and
    the log of events the form has dispatched (only deletion intents come
    from these handlers). Each function below is the specification of one
    handler; the class in module IncomeForm performs the same steps in place
    and is proved to end in the state these functions give. */
module LedgerStore {
  import opened LedgerRows
  import opened LedgerTotal

  /** A deletion intent: the row with this server id was removed. */
  datatype Event = IncomeId(id: string)

  /** The payload of the server's response: the period's rows and carry-forward. */
  datatype Snapshot = Snapshot(income: seq<Row>, cf: Money)

  datatype Ledger = Ledger(rows: seq<Row>, carryForward: Money, events: seq<Event>)

  /** The total the form shows for ledger `l`. */
  function TotalOf(l: Ledger): real
  {
    Total(l.rows, l.carryForward)
  }

  /** The state at mount: one blank row and a carry-forward of 0. */
  function Initial(currDate: string): (l: Ledger)
    ensures |l.rows| == 1 && l.rows[0] == BlankRow(currDate)
    ensures l.carryForward == Num(0.0) && l.events == []
    ensures TotalOf(l) == 0.0
  {
    assert [BlankRow(currDate)][1..] == [];
    assert Sum([BlankRow(currDate)]) == 0.0;
    Ledger([BlankRow(currDate)], Num(0.0), [])
  }

  /** "Add Row": a blank row dated today goes to the end. */
  function AddRow(l: Ledger, currDate: string): (l': Ledger)
    ensures |l'.rows| == |l.rows| + 1
    ensures l'.rows[..|l.rows|] == l.rows
    ensures l'.rows[|l.rows|] == BlankRow(currDate)
    ensures l'.carryForward == l.carryForward && l'.events == l.events
    ensures TotalOf(l') == TotalOf(l)
  {
    BlankRowAddsNothing(l.rows, l.carryForward, currDate);
    l.(rows := l.rows + [BlankRow(currDate)])
  }

  /** An input of row `i` changed: only the named field of that row takes the new value. */
  function EditField(l: Ledger, i: nat, e: Edit): (l': Ledger)
    requires i < |l.rows|
    ensures |l'.rows| == |l.rows|
    ensures forall j :: 0 <= j < |l.rows| && j != i ==> l'.rows[j] == l.rows[j]
    ensures Get(l'.rows[i], e.Target()) == e.NewValue()
    ensures forall f :: f != e.Target() ==> Get(l'.rows[i], f) == Get(l.rows[i], f)
    ensures l'.rows[i].id == l.rows[i].id
    ensures l'.carryForward == l.carryForward && l'.events == l.events
  {
    l.(rows := l.rows[i := Apply(l.rows[i], e)])
  }

  /** An input of row `i` gained focus: its field is cleared. */
  function FocusField(l: Ledger, i: nat, f: Field): (l': Ledger)
    requires i < |l.rows|
    ensures |l'.rows| == |l.rows|
    ensures forall j :: 0 <= j < |l.rows| && j != i ==> l'.rows[j] == l.rows[j]
    ensures Get(l'.rows[i], f) == EmptyValue(f)
    ensures forall g :: g != f ==> Get(l'.rows[i], g) == Get(l.rows[i], g)
    ensures l'.rows[i].id == l.rows[i].id
    ensures l'.carryForward == l.carryForward && l'.events == l.events
  {
    EditField(l, i, Clear(f))
  }

  /** The delete icon of row `i` was clicked: a saved row's id is announced,
      then the row is spliced out. */
  function RemoveRow(l: Ledger, i: nat): (l': Ledger)
    requires i < |l.rows|
    ensures |l'.rows| == |l.rows| - 1
    ensures forall j :: 0 <= j < i ==> l'.rows[j] == l.rows[j]
    ensures forall j :: i <= j < |l'.rows| ==> l'.rows[j] == l.rows[j + 1]
    ensures l.rows[i].id.Saved? ==> l'.events == l.events + [IncomeId(l.rows[i].id.key)]
    ensures l.rows[i].id.Unsaved? ==> l'.events == l.events
    ensures l'.carryForward == l.carryForward
  {
    var events := if l.rows[i].id.Saved? then l.events + [IncomeId(l.rows[i].id.key)] else l.events;
    Ledger(l.rows[..i] + l.rows[i + 1..], l.carryForward, events)
  }

  /** The carry-forward input changed. */
  function SetCarryForward(l: Ledger, cf: Money): (l': Ledger)
    ensures l'.carryForward == cf
    ensures l'.rows == l.rows && l'.events == l.events
    ensures TotalOf(l') == Contribution(cf) + Sum(l.rows)
  {
    l.(carryForward := cf)
  }

  /** The server's snapshot arrived: it replaces the rows and carry-forward
      wholesale, or, when it holds no rows, the ledger starts over. */
  function Reconcile(l: Ledger, s: Snapshot, currDate: string): (l': Ledger)
    ensures |s.income| == 0 ==> l' == Initial(currDate).(events := l.events)
    ensures |s.income| != 0 ==> l'.rows == s.income && l'.carryForward == s.cf
    ensures l'.events == l.events
  {
    if |s.income| == 0 then
      Ledger([BlankRow(currDate)], Num(0.0), l.events)
    else
      Ledger(s.income, s.cf, l.events)
  }

  // Totals after each handler

  /** Editing a field other than the amount leaves the total as it was;
      editing the amount moves it by the difference. */
  lemma EditTotal(l: Ledger, i: nat, e: Edit)
    requires i < |l.rows|
    ensures e.Target() != Amount ==> TotalOf(EditField(l, i, e)) == TotalOf(l)
    ensures e.SetAmount? ==>
      TotalOf(EditField(l, i, e)) == TotalOf(l) - Contribution(l.rows[i].amount) + Contribution(e.newAmount)
  {
    SumUpdate(l.rows, i, Apply(l.rows[i], e));
  }

  /** Blanking the amount of row `i` takes that row out of the total. */
  lemma BlankAmountCountsZero(l: Ledger, i: nat)
    requires i < |l.rows|
    ensures TotalOf(EditField(l, i, SetAmount(Blank))) == Contribution(l.carryForward) + Sum(l.rows[..i] + l.rows[i + 1..])
  {
    EditTotal(l, i, SetAmount(Blank));
    SumRemove(l.rows, i);
  }

  /** Focusing the name or flat-number input, the only inputs that clear on focus, keeps the total. */
  lemma FocusKeepsTotal(l: Ledger, i: nat, f: Field)
    requires i < |l.rows|
    requires f == Name || f == FlatNo
    ensures TotalOf(FocusField(l, i, f)) == TotalOf(l)
  {
    EditTotal(l, i, Clear(f));
  }

  /** Removing row `i` takes exactly its amount off the total. */
  lemma RemoveTotal(l: Ledger, i: nat)
    requires i < |l.rows|
    ensures TotalOf(RemoveRow(l, i)) == TotalOf(l) - Contribution(l.rows[i].amount)
  {
    SumRemove(l.rows, i);
  }

  /** Reconciling with snapshot (income, cf) shows cf plus the income's amounts. */
  lemma ReconcileTotal(l: Ledger, s: Snapshot, currDate: string)
    ensures |s.income| == 0 ==> TotalOf(Reconcile(l, s, currDate)) == 0.0
    ensures |s.income| != 0 ==> TotalOf(Reconcile(l, s, currDate)) == Contribution(s.cf) + Sum(s.income)
  {
  }

  // Reconciliation is a replacement, not a merge

  /** The outcome of a reconciliation does not depend on the local rows or carry-forward at all. */
  lemma ReconcileDiscardsLocalState(l1: Ledger, l2: Ledger, s: Snapshot, currDate: string)
    requires l1.events == l2.events
    ensures Reconcile(l1, s, currDate) == Reconcile(l2, s, currDate)
  {
  }

  /** Delivering the same snapshot twice is the same as delivering it once. */
  lemma ReconcileIdempotent(l: Ledger, s: Snapshot, currDate: string)
    ensures Reconcile(Reconcile(l, s, currDate), s, currDate) == Reconcile(l, s, currDate)
  {
  }

  // Deletion intents: a saved id never silently disappears

  /** The server ids held by the rows. */
  function SavedIds(rows: seq<Row>): set<string>
  {
    set j | 0 <= j < |rows| && rows[j].id.Saved? :: rows[j].id.key
  }

  /** The ids announced for deletion. */
  function Announced(events: seq<Event>): set<string>
  {
    set j | 0 <= j < |events| :: events[j].id
  }

  /** Every id saved in `l` is still on a row of `l'` or was announced for
      deletion in `l'`, and no earlier announcement was lost. */
  ghost predicate IdsAccounted(l: Ledger, l': Ledger)
  {
    && SavedIds(l.rows) <= SavedIds(l'.rows) + Announced(l'.events)
    && Announced(l.events) <= Announced(l'.events)
  }

  /** Removal either keeps an id on a surviving row or announces it. */
  lemma RemoveAccountsForIds(l: Ledger, i: nat)
    requires i < |l.rows|
    ensures IdsAccounted(l, RemoveRow(l, i))
  {
    var l' := RemoveRow(l, i);
    forall k | k in SavedIds(l.rows)
      ensures k in SavedIds(l'.rows) + Announced(l'.events)
    {
      var j :| 0 <= j < |l.rows| && l.rows[j].id.Saved? && l.rows[j].id.key == k;
      if j < i {
        assert l'.rows[j] == l.rows[j];
      } else if j > i {
        assert l'.rows[j - 1] == l.rows[j];
      } else {
        assert l'.events[|l.events|] == IncomeId(k);
      }
    }
    forall k | k in Announced(l.events)
      ensures k in Announced(l'.events)
    {
      var j :| 0 <= j < |l.events| && l.events[j].id == k;
      assert l'.events[j] == l.events[j];
    }
  }

  /** Removing a row whose id is null dispatches nothing. */
  lemma RemoveUnsavedIsSilent(l: Ledger, i: nat)
    requires i < |l.rows| && l.rows[i].id.Unsaved?
    ensures RemoveRow(l, i).events == l.events
    ensures SavedIds(RemoveRow(l, i).rows) == SavedIds(l.rows)
  {
    var l' := RemoveRow(l, i);
    forall k | k in SavedIds(l.rows)
      ensures k in SavedIds(l'.rows)
    {
      var j :| 0 <= j < |l.rows| && l.rows[j].id.Saved? && l.rows[j].id.key == k;
      if j < i {
        assert l'.rows[j] == l.rows[j];
      } else {
        assert l'.rows[j - 1] == l.rows[j];
      }
    }
    forall k | k in SavedIds(l'.rows)
      ensures k in SavedIds(l.rows)
    {
      var j :| 0 <= j < |l'.rows| && l'.rows[j].id.Saved? && l'.rows[j].id.key == k;
      if j < i {
        assert l.rows[j] == l'.rows[j];
      } else {
        assert l.rows[j + 1] == l'.rows[j];
      }
    }
  }

  // The form as a state machine driven by user and server actions

  datatype Action =
    | AddClick(date: string)
    | InputChange(index: nat, edit: Edit)
    | InputFocus(index: nat, field: Field)
    | RemoveClick(index: nat)
    | CarryForwardChange(cf: Money)
    | ApiResponse(snapshot: Snapshot, today: string)

  /** Whether the rendered form lets action `a` happen in state `l`: indices
      name rendered rows, only the name and flat-number inputs clear on
      focus, and the delete icon is hidden while exactly one row remains. */
  predicate Enabled(l: Ledger, a: Action)
  {
    match a
    case AddClick(_) => true
    case InputChange(i, _) => i < |l.rows|
    case InputFocus(i, f) => i < |l.rows| && (f == Name || f == FlatNo)
    case RemoveClick(i) => i < |l.rows| && |l.rows| != 1
    case CarryForwardChange(_) => true
    case ApiResponse(_, _) => true
  }

  /** The handler that action `a` runs. */
  function Step(l: Ledger, a: Action): Ledger
    requires Enabled(l, a)
  {
    match a
    case AddClick(d) => AddRow(l, d)
    case InputChange(i, e) => EditField(l, i, e)
    case InputFocus(i, f) => FocusField(l, i, f)
    case RemoveClick(i) => RemoveRow(l, i)
    case CarryForwardChange(cf) => SetCarryForward(l, cf)
    case ApiResponse(s, d) => Reconcile(l, s, d)
  }

  /** The state after a sequence of actions; an action the rendered form
      does not offer has no effect. */
  function Run(l: Ledger, actions: seq<Action>): Ledger
    decreases actions
  {
    if actions == [] then l
    else Run(if Enabled(l, actions[0]) then Step(l, actions[0]) else l, actions[1..])
  }

  /** Every action the form offers keeps at least one row. */
  lemma StepKeepsRows(l: Ledger, a: Action)
    requires |l.rows| > 0 && Enabled(l, a)
    ensures |Step(l, a).rows| > 0
  {
  }

  /** Whatever the user and the server do, the ledger is never left without rows. */
  lemma {:induction false} RunKeepsRows(l: Ledger, actions: seq<Action>)
    requires |l.rows| > 0
    ensures |Run(l, actions).rows| > 0
    decreases actions
  {
    if actions != [] {
      var next := if Enabled(l, actions[0]) then Step(l, actions[0]) else l;
      if Enabled(l, actions[0]) {
        StepKeepsRows(l, actions[0]);
      }
      RunKeepsRows(next, actions[1..]);
    }
  }

  /** From mount on, the form always has a row to show. */
  lemma InitialRunKeepsRows(currDate: string, actions: seq<Action>)
    ensures |Run(Initial(currDate), actions).rows| > 0
  {
    RunKeepsRows(Initial(currDate), actions);
  }

  /** Every local action (anything but the server response) loses no saved id. */
  lemma LocalStepAccountsForIds(l: Ledger, a: Action)
    requires Enabled(l, a) && !a.ApiResponse?
    ensures IdsAccounted(l, Step(l, a))
  {
    var l' := Step(l, a);
    match a
    case RemoveClick(i) =>
      RemoveAccountsForIds(l, i);
    case AddClick(d) =>
      forall k | k in SavedIds(l.rows)
        ensures k in SavedIds(l'.rows)
      {
        var j :| 0 <= j < |l.rows| && l.rows[j].id.Saved? && l.rows[j].id.key == k;
        assert l'.rows[j] == l.rows[j];
      }
    case InputChange(i, e) =>
      forall k | k in SavedIds(l.rows)
        ensures k in SavedIds(l'.rows)
      {
        var j :| 0 <= j < |l.rows| && l.rows[j].id.Saved? && l.rows[j].id.key == k;
        assert l'.rows[j].id == l.rows[j].id;
      }
    case InputFocus(i, f) =>
      forall k | k in SavedIds(l.rows)
        ensures k in SavedIds(l'.rows)
      {
        var j :| 0 <= j < |l.rows| && l.rows[j].id.Saved? && l.rows[j].id.key == k;
        assert l'.rows[j].id == l.rows[j].id;
      }
    case CarryForwardChange(_) =>
  }
}
