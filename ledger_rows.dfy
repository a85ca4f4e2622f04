/** Rows of the income ledger and the field-level edits applied to them.

    A row is one income entry: payer name, flat number, amount, date and the
    identifier the server assigned to it (none while the row exists only in
    the form). The form addresses a field of a row by the name of the input
    element that changed; here that name is the closed datatype `Field`, and
    an edit carries the field together with a value of the right kind. */
module LedgerRows {

  /** An amount as the form holds it: a parsed number, or blank (the empty
      string, null). A blank amount, like the number 0, is falsy and adds
      nothing to the total. */
  datatype Money = Blank | Num(value: real)

  /** The server-side identifier of a row: `Unsaved` stands for null. */
  datatype RowId = Unsaved | Saved(key: string)

  datatype Row = Row(name: string, flatNo: string, amount: Money, date: string, id: RowId)

  /** The four editable fields, named after the inputs that edit them. */
  datatype Field = Name | FlatNo | Amount | Date

  /** The content of one field: text for name, flat number and date, money for the amount. */
  datatype Value = Text(text: string) | Cash(money: Money)

  /** A change of one named field of a row to a new value. */
  datatype Edit =
    | SetName(newName: string)
    | SetFlatNo(newFlatNo: string)
    | SetAmount(newAmount: Money)
    | SetDate(newDate: string)
  {
    /** The field this edit writes. */
    function Target(): Field
    {
      match this
      case SetName(_) => Name
      case SetFlatNo(_) => FlatNo
      case SetAmount(_) => Amount
      case SetDate(_) => Date
    }

    /** The value the written field holds afterwards. */
    function NewValue(): Value
    {
      match this
      case SetName(s) => Text(s)
      case SetFlatNo(s) => Text(s)
      case SetAmount(m) => Cash(m)
      case SetDate(s) => Text(s)
    }
  }

  /** The row a blank line of the form starts from: empty name and flat
      number, amount 0, today's date and no server id. */
  function BlankRow(currDate: string): Row
  {
    Row("", "", Num(0.0), currDate, Unsaved)
  }

  /** Reads field `f` of row `r`. */
  function Get(r: Row, f: Field): Value
  {
    match f
    case Name => Text(r.name)
    case FlatNo => Text(r.flatNo)
    case Amount => Cash(r.amount)
    case Date => Text(r.date)
  }

  /** The empty content of a field: the empty string, or a blank amount. */
  function EmptyValue(f: Field): Value
  {
    if f == Amount then Cash(Blank) else Text("")
  }

  /** The edit that clears field `f`, as focusing an input does. */
  function Clear(f: Field): (e: Edit)
    ensures e.Target() == f
    ensures e.NewValue() == EmptyValue(f)
  {
    match f
    case Name => SetName("")
    case FlatNo => SetFlatNo("")
    case Amount => SetAmount(Blank)
    case Date => SetDate("")
  }

  /** Row `r` with the edited field replaced. */
  function Apply(r: Row, e: Edit): (r': Row)
    ensures Get(r', e.Target()) == e.NewValue()
    ensures forall f :: f != e.Target() ==> Get(r', f) == Get(r, f)
    ensures r'.id == r.id
  {
    match e
    case SetName(s) => r.(name := s)
    case SetFlatNo(s) => r.(flatNo := s)
    case SetAmount(m) => r.(amount := m)
    case SetDate(s) => r.(date := s)
  }

  /** A row is determined by its four fields and its id, so the contract of
      `Apply` pins down its result exactly. */
  lemma RowDeterminedByFields(a: Row, b: Row)
    requires forall f :: Get(a, f) == Get(b, f)
    requires a.id == b.id
    ensures a == b
  {
    assert Get(a, Name) == Get(b, Name);
    assert Get(a, FlatNo) == Get(b, FlatNo);
    assert Get(a, Amount) == Get(b, Amount);
    assert Get(a, Date) == Get(b, Date);
  }
}
