/** The ledger total: the carry-forward plus every row's amount, a falsy
    amount or carry-forward counting as 0.

    The form computes it as a left fold over the rows seeded with the
    carry-forward (`Fold`); `Sum` is an independent, right-recursive
    reference definition of the rows' share, and the lemmas below connect
    the two and say how the total moves when rows are appended, replaced
    or removed. */
module LedgerTotal {
  import opened LedgerRows

  /** What an amount adds to the total: 0 when it is blank, its value otherwise. */
  function Contribution(m: Money): real
  {
    match m
    case Blank => 0.0
    case Num(v) => v
  }

  /** The reduce of the form: starting from `acc`, add each row's amount in order. */
  function Fold(acc: real, rows: seq<Row>): real
    decreases rows
  {
    if rows == [] then acc else Fold(acc + Contribution(rows[0].amount), rows[1..])
  }

  /** Reference definition: the sum of the rows' amounts. */
  function Sum(rows: seq<Row>): real
  {
    if rows == [] then 0.0 else Contribution(rows[0].amount) + Sum(rows[1..])
  }

  lemma {:induction false} FoldIsSum(acc: real, rows: seq<Row>)
    ensures Fold(acc, rows) == acc + Sum(rows)
    decreases rows
  {
    if rows != [] {
      FoldIsSum(acc + Contribution(rows[0].amount), rows[1..]);
    }
  }

  /** The total the form shows for `rows` and carry-forward `cf`. */
  function Total(rows: seq<Row>, cf: Money): (t: real)
    ensures t == Contribution(cf) + Sum(rows)
  {
    FoldIsSum(Contribution(cf), rows);
    Fold(Contribution(cf), rows)
  }

  lemma {:induction false} SumAppend(a: seq<Row>, b: seq<Row>)
    ensures Sum(a + b) == Sum(a) + Sum(b)
  {
    if a == [] {
      assert a + b == b;
    } else {
      assert (a + b)[1..] == a[1..] + b;
      SumAppend(a[1..], b);
    }
  }

  /** Replacing row `i` changes the sum by the difference of the two amounts. */
  lemma {:induction false} SumUpdate(rows: seq<Row>, i: nat, r: Row)
    requires i < |rows|
    ensures Sum(rows[i := r]) == Sum(rows) - Contribution(rows[i].amount) + Contribution(r.amount)
  {
    if i == 0 {
      assert rows[i := r][1..] == rows[1..];
    } else {
      assert rows[i := r][1..] == rows[1..][i - 1 := r];
      SumUpdate(rows[1..], i - 1, r);
    }
  }

  /** Splicing row `i` out takes exactly its amount off the sum. */
  lemma {:induction false} SumRemove(rows: seq<Row>, i: nat)
    requires i < |rows|
    ensures Sum(rows[..i] + rows[i + 1..]) == Sum(rows) - Contribution(rows[i].amount)
  {
    var tail := [rows[i]] + rows[i + 1..];
    assert rows == rows[..i] + tail;
    assert tail[1..] == rows[i + 1..];
    SumAppend(rows[..i], tail);
    SumAppend(rows[..i], rows[i + 1..]);
  }

  /** Appending a row adds exactly its amount to the total. */
  lemma TotalAppendRow(rows: seq<Row>, cf: Money, r: Row)
    ensures Total(rows + [r], cf) == Total(rows, cf) + Contribution(r.amount)
  {
    SumAppend(rows, [r]);
    assert [r][1..] == [];
  }

  /** A blank row adds nothing to the total. */
  lemma BlankRowAddsNothing(rows: seq<Row>, cf: Money, currDate: string)
    ensures Total(rows + [BlankRow(currDate)], cf) == Total(rows, cf)
  {
    TotalAppendRow(rows, cf, BlankRow(currDate));
  }

  /** One row of 500 with a carry-forward of 100 totals 600. */
  lemma ExampleTotal()
    ensures Total([Row("A", "12", Num(500.0), "1-1-2024", Saved("7"))], Num(100.0)) == 600.0
  {
  }
}
