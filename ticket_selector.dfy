/**
 * The ticket selection screen: two counter rows (Indian citizens at 50,
 * foreign citizens at 200), the running total, the NEXT button gated on
 * the total, and the booking draft handed to the verification page.
 * Writing the draft to session storage and navigating are browser I/O;
 * here the draft is returned.
 */
module TicketSelector {
  import opened JsValues
  import TicketRow

  const IndianPrice: int := 50
  const ForeignerPrice: int := 200

  /** `indian * 50 + foreigner * 200` */
  function Total(indian: int, foreigner: int): (t: int)
    ensures indian >= 0 && foreigner >= 0 ==> t >= IndianPrice * indian && t >= ForeignerPrice * foreigner
  {
    indian * 50 + foreigner * 200
  }

  /** `disabled={total === 0}`; the `bookable` prop plays no part. */
  predicate NextDisabled(total: int): (disabled: bool)
    ensures disabled ==> total == 0
    ensures total == 0 ==> disabled
  {
    total == 0
  }

  /** The record `{indian, foreigner, total}` stored under 'booking'. */
  datatype Draft = Draft(indian: int, foreigner: int, total: int)

  /** A draft whose total is the one the selection screen computes. */
  predicate Consistent(d: Draft) {
    d.total == Total(d.indian, d.foreigner)
  }

  /** The props given to one `TicketRow`. */
  datatype RowProps = RowProps(title: string, price: int, count: int)

  /** The rows the screen renders, in order. */
  function Rows(indian: int, foreigner: int): (rows: seq<RowProps>)
    ensures |rows| == 2
    ensures rows[0] == RowProps("Indian Citizen", IndianPrice, indian)
    ensures rows[1] == RowProps("Foreign Citizen", ForeignerPrice, foreigner)
  {
    [RowProps("Indian Citizen", IndianPrice, indian), RowProps("Foreign Citizen", ForeignerPrice, foreigner)]
  }

  /** The sum of price × count over a list of rows. */
  function RowsAmount(rows: seq<RowProps>): int {
    if rows == [] then 0 else rows[0].price * rows[0].count + RowsAmount(rows[1..])
  }

  /** The unit prices shown on the rows are the multipliers of the total. */
  lemma RowPricesMatchTotal(indian: int, foreigner: int)
    ensures RowsAmount(Rows(indian, foreigner)) == Total(indian, foreigner)
  {
    var rows := Rows(indian, foreigner);
    assert rows[1..][1..] == [];
    assert RowsAmount(rows[1..]) == ForeignerPrice * foreigner + RowsAmount(rows[1..][1..]);
  }

  /** With counts that cannot go negative, NEXT is disabled iff no ticket is selected. */
  lemma NextDisabledIffNoTickets(indian: int, foreigner: int)
    requires indian >= 0 && foreigner >= 0
    ensures NextDisabled(Total(indian, foreigner)) <==> indian == 0 && foreigner == 0
  {
  }

  /** Two Indian and one foreign ticket cost 300. */
  lemma TotalExample()
    ensures Total(2, 1) == 300
  {
  }

  /** An accepted click changes the total by exactly the row's unit price, or not at all at 0. */
  lemma TotalAfterClick(indian: int, foreigner: int)
    requires indian >= 0 && foreigner >= 0
    ensures Total(TicketRow.Increment(indian), foreigner) == Total(indian, foreigner) + IndianPrice
    ensures Total(indian, TicketRow.Increment(foreigner)) == Total(indian, foreigner) + ForeignerPrice
    ensures indian > 0 ==> Total(TicketRow.Decrement(indian), foreigner) == Total(indian, foreigner) - IndianPrice
    ensures foreigner > 0 ==> Total(indian, TicketRow.Decrement(foreigner)) == Total(indian, foreigner) - ForeignerPrice
    ensures indian == 0 ==> Total(TicketRow.Decrement(indian), foreigner) == Total(indian, foreigner)
    ensures foreigner == 0 ==> Total(indian, TicketRow.Decrement(foreigner)) == Total(indian, foreigner)
  {
  }

  /** The selection screen's state and its two rows' debounce state. */
  class Selector {
    var indian: int
    var foreigner: int
    const indianRow: TicketRow.RowState
    const foreignerRow: TicketRow.RowState

    ghost predicate Valid()
      reads this, indianRow, foreignerRow
    {
      && indian >= 0 && foreigner >= 0
      && indianRow != foreignerRow
      && indianRow.Valid() && foreignerRow.Valid()
    }

    /** `useState(1)`, `useState(0)` and a fresh row for each category. */
    constructor ()
      ensures Valid()
      ensures indian == 1 && foreigner == 0
      ensures fresh(indianRow) && fresh(foreignerRow)
      ensures indianRow.clicks == [] && foreignerRow.clicks == []
    {
      indian := 1;
      foreigner := 0;
      indianRow := new TicketRow.RowState();
      foreignerRow := new TicketRow.RowState();
    }

    /** The "Total Amount" shown, which is also what the two rows display as price × count. */
    function CurrentTotal(): (t: int)
      reads this
      ensures t == RowsAmount(Rows(indian, foreigner))
    {
      RowPricesMatchTotal(indian, foreigner);
      Total(indian, foreigner)
    }

    /** A click on the Indian row: `setIndian` is called with the row's value iff the click is accepted. */
    method ClickIndian(now: int, button: TicketRow.Button) returns (accepted: bool)
      requires Valid()
      modifies this, indianRow
      ensures Valid()
      ensures accepted <==> TicketRow.Accepts(old(indianRow.lastClick), now)
      ensures indian == (if accepted then TicketRow.Apply(button, old(indian)) else old(indian))
      ensures foreigner == old(foreigner)
      ensures indianRow.clicks == old(indianRow.clicks) + [now]
      ensures unchanged(foreignerRow)
    {
      var change := indianRow.HandleClick(now, button, indian);
      accepted := change.Some?;
      if change.Some? {
        indian := change.value;
      }
    }

    /** A click on the foreign row: `setForeigner` is called iff the click is accepted. */
    method ClickForeigner(now: int, button: TicketRow.Button) returns (accepted: bool)
      requires Valid()
      modifies this, foreignerRow
      ensures Valid()
      ensures accepted <==> TicketRow.Accepts(old(foreignerRow.lastClick), now)
      ensures foreigner == (if accepted then TicketRow.Apply(button, old(foreigner)) else old(foreigner))
      ensures indian == old(indian)
      ensures foreignerRow.clicks == old(foreignerRow.clicks) + [now]
      ensures unchanged(indianRow)
    {
      var change := foreignerRow.HandleClick(now, button, foreigner);
      accepted := change.Some?;
      if change.Some? {
        foreigner := change.value;
      }
    }

    /**
     * A press of NEXT: a disabled button does nothing; otherwise the draft
     * `{indian, foreigner, total}` is produced for the verification page.
     */
    method ClickNext() returns (draft: Option<Draft>)
      requires Valid()
      ensures draft.None? <==> NextDisabled(CurrentTotal())
      ensures draft.Some? ==> draft.value == Draft(indian, foreigner, CurrentTotal())
      ensures draft.Some? ==> Consistent(draft.value) && draft.value.total > 0
    {
      var total := CurrentTotal();
      if total == 0 {
        draft := None;
      } else {
        draft := Some(Draft(indian, foreigner, total));
      }
    }
  }

  /** On first render one Indian ticket is selected, the total is 50 and NEXT is enabled. */
  method InitialScreen() returns (s: Selector, draft: Option<Draft>)
    ensures s.indian == 1 && s.foreigner == 0 && s.CurrentTotal() == 50
    ensures draft == Some(Draft(1, 0, 50))
  {
    s := new Selector();
    draft := s.ClickNext();
  }
}
