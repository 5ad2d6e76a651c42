/**
 * The confirmation sheet shown after OTP verification, as a function from
 * its props to the summary it displays: the ticket lines (one per category
 * with a positive count), the stored total, the contact label and the
 * buttons' state. The booking date is passed through unformatted.
 */
module BookingConfirmModal {
  import opened JsValues
  import TicketSelector

  /** The booking record read back from session storage. */
  datatype BookingData = BookingData(
    placeName: string,
    strapiPlaceId: int,
    backendPlaceId: Option<int>,
    indian: int,
    foreigner: int,
    total: int,
    date: string)

  /** The component's props; `isLoading` may be omitted (None), which means false. */
  datatype Props = Props(
    isOpen: bool,
    bookingData: Option<BookingData>,
    contact: string,
    isEmailLogin: bool,
    isLoading: Option<bool>)

  /** One ticket line: label, count, "ticket" or "tickets", and the subtotal in rupees. */
  datatype TicketLine = TicketLine(heading: string, count: int, noun: string, subtotal: int)

  /** What the sheet displays. */
  datatype Summary = Summary(
    placeName: string,
    date: string,
    lines: seq<TicketLine>,
    contactLabel: string,
    contact: string,
    total: int,
    confirmationChannel: string,
    confirmLabel: string,
    confirmDisabled: bool,
    cancelDisabled: bool)

  const IndianLabel: string := "Indian Citizens"
  const ForeignLabel: string := "Foreign Citizens"

  /** `ticket{count > 1 ? 's' : ''}` */
  function Noun(count: int): (noun: string)
    ensures noun == "tickets" <==> count > 1
    ensures noun == "ticket" <==> count <= 1
  {
    "ticket" + (if count > 1 then "s" else "")
  }

  /** The line for one category, shown only when its count is positive. */
  function LineIfAny(heading: string, count: int, unitPrice: int): (lines: seq<TicketLine>)
    ensures |lines| <= 1
    ensures |lines| == 1 <==> count > 0
    ensures |lines| == 1 ==> lines[0] == TicketLine(heading, count, Noun(count), count * unitPrice)
  {
    if count > 0 then [TicketLine(heading, count, Noun(count), count * unitPrice)] else []
  }

  /** The component: nothing when closed or without booking data, otherwise the summary. */
  function Render(p: Props): (r: Option<Summary>)
    ensures r.None? <==> !p.isOpen || p.bookingData.None?
    ensures r.Some? ==> && r.value.total == p.bookingData.value.total
                        && r.value.placeName == p.bookingData.value.placeName
                        && r.value.contact == p.contact
  {
    if !p.isOpen || p.bookingData.None? then None
    else
      var d := p.bookingData.value;
      var loading := p.isLoading == Some(true);
      Some(Summary(
        d.placeName,
        d.date,
        LineIfAny(IndianLabel, d.indian, 50) + LineIfAny(ForeignLabel, d.foreigner, 200),
        if p.isEmailLogin then "Email" else "Mobile Number",
        p.contact,
        d.total,
        if p.isEmailLogin then "your email" else "SMS",
        if loading then "Processing..." else "Confirm & Proceed to Payment",
        loading,
        loading))
  }

  /** The line with the given label, if the summary shows one. */
  function FindLine(lines: seq<TicketLine>, heading: string): (r: Option<TicketLine>)
    ensures r.Some? ==> r.value in lines && r.value.heading == heading
    ensures r.None? ==> forall l :: l in lines ==> l.heading != heading
  {
    if lines == [] then None
    else if lines[0].heading == heading then Some(lines[0])
    else FindLine(lines[1..], heading)
  }

  /** The sum of the subtotals of the shown lines. */
  function SubtotalSum(lines: seq<TicketLine>): int {
    if lines == [] then 0 else lines[0].subtotal + SubtotalSum(lines[1..])
  }

  /**
   * The Indian line is shown iff `indian > 0`, first, with subtotal
   * `indian * 50`; the foreign line iff `foreigner > 0`, after it, with
   * subtotal `foreigner * 200`; each says "tickets" iff its count exceeds 1.
   */
  lemma ShownLines(p: Props)
    requires p.isOpen && p.bookingData.Some?
    ensures var s := Render(p).value;
            var d := p.bookingData.value;
            && |s.lines| == (if d.indian > 0 then 1 else 0) + (if d.foreigner > 0 then 1 else 0)
            && (FindLine(s.lines, IndianLabel).Some? <==> d.indian > 0)
            && (FindLine(s.lines, ForeignLabel).Some? <==> d.foreigner > 0)
            && (d.indian > 0 ==> s.lines[0] == TicketLine(IndianLabel, d.indian, Noun(d.indian), d.indian * 50))
            && (d.foreigner > 0 ==>
                  s.lines[|s.lines| - 1] == TicketLine(ForeignLabel, d.foreigner, Noun(d.foreigner), d.foreigner * 200))
  {
    var s := Render(p).value;
    var d := p.bookingData.value;
    var a := LineIfAny(IndianLabel, d.indian, 50);
    var b := LineIfAny(ForeignLabel, d.foreigner, 200);
    assert s.lines == a + b;
    if d.indian > 0 {
      assert FindLine(s.lines, IndianLabel) == Some(a[0]);
    } else {
      assert forall l :: l in s.lines ==> l in b;
    }
    if d.foreigner > 0 {
      assert b[0] in s.lines;
      if d.indian > 0 {
        assert s.lines[1..] == b;
      }
      assert FindLine(s.lines, ForeignLabel).Some?;
    } else {
      assert forall l :: l in s.lines ==> l in a;
    }
  }

  /**
   * The displayed total is the stored one, not recomputed; for booking data
   * whose counts and total come from a consistent selection draft, it
   * equals the sum of the shown subtotals.
   */
  lemma TotalMatchesLinesForDraft(p: Props)
    requires p.isOpen && p.bookingData.Some?
    requires p.bookingData.value.indian >= 0 && p.bookingData.value.foreigner >= 0
    requires TicketSelector.Consistent(TicketSelector.Draft(p.bookingData.value.indian,
                                                            p.bookingData.value.foreigner,
                                                            p.bookingData.value.total))
    ensures Render(p).value.total == SubtotalSum(Render(p).value.lines)
  {
    var d := p.bookingData.value;
    var a := LineIfAny(IndianLabel, d.indian, 50);
    var b := LineIfAny(ForeignLabel, d.foreigner, 200);
    SubtotalSumAppend(a, b);
    assert a != [] ==> a[1..] == [];
    assert b != [] ==> b[1..] == [];
  }

  /** A stored total disagreeing with the counts is shown as it is. */
  lemma StaleTotalShownVerbatim()
    ensures var p := Props(true, Some(BookingData("Fort", 1, None, 2, 0, 40, "2026-01-01")), "9999999999", false, None);
            Render(p).value.total == 40 && SubtotalSum(Render(p).value.lines) == 100
  {
    var p := Props(true, Some(BookingData("Fort", 1, None, 2, 0, 40, "2026-01-01")), "9999999999", false, None);
    var lines := Render(p).value.lines;
    assert lines == [TicketLine(IndianLabel, 2, Noun(2), 100)];
    assert lines[1..] == [];
  }

  lemma {:induction false} SubtotalSumAppend(a: seq<TicketLine>, b: seq<TicketLine>)
    ensures SubtotalSum(a + b) == SubtotalSum(a) + SubtotalSum(b)
  {
    if a == [] {
      assert a + b == b;
    } else {
      assert (a + b)[1..] == a[1..] + b;
      SubtotalSumAppend(a[1..], b);
    }
  }

  /** The contact label is "Email" iff the login was by email, and both buttons are disabled iff loading. */
  lemma LabelAndButtons(p: Props)
    requires p.isOpen && p.bookingData.Some?
    ensures Render(p).value.contactLabel == (if p.isEmailLogin then "Email" else "Mobile Number")
    ensures Render(p).value.confirmationChannel == (if p.isEmailLogin then "your email" else "SMS")
    ensures Render(p).value.confirmDisabled <==> p.isLoading == Some(true)
    ensures Render(p).value.cancelDisabled <==> p.isLoading == Some(true)
    ensures p.isLoading == None ==> !Render(p).value.confirmDisabled && !Render(p).value.cancelDisabled
  {
  }
}
