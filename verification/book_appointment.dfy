/** The user's booking form: the hourly slot generator, the reset of the chosen slot
    when the date changes, and the request body built on submit, whose end time is
    derived from the chosen start by a text replacement. */
module BookAppointment {
  import opened Wrappers
  import opened Text
  import opened Ordering

  /** A choice in the time-slot select box. */
  datatype Slot = Slot(start: string, end: string, value: string)

  /** `${hour.toString().padStart(2, '0')}:00` */
  function HourLabel(hour: nat): string {
    TwoDigits(hour) + ":00"
  }

  /** There is a match of `/\d{2}:/` at position `i`. */
  predicate HourAt(s: string, i: nat) {
    i + 2 < |s| && IsDigit(s[i]) && IsDigit(s[i + 1]) && s[i + 2] == ':'
  }

  /** `s.replace(/\d{2}:/, m => (parseInt(m) + 1).toString().padStart(2, '0') + ':')`:
      the leftmost two digits followed by a colon are replaced by their value plus one,
      padded to two digits. A string without such a match is returned unchanged. */
  function NextHour(s: string): (r: string)
    ensures (forall i :: 0 <= i < |s| ==> !HourAt(s, i)) ==> r == s
    decreases |s|
  {
    if |s| < 3 then s
    else if HourAt(s, 0) then TwoDigits(10 * DigitVal(s[0]) + DigitVal(s[1]) + 1) + ":" + s[3..]
    else
      assert forall i :: 0 <= i < |s[1..]| ==> HourAt(s[1..], i) == HourAt(s, i + 1);
      [s[0]] + NextHour(s[1..])
  }

  /** The end time derived on submit for a zero-padded "HH:MM" start is one hour later,
      minutes untouched. */
  lemma NextHourOfLabel(h: nat, minutes: string)
    requires h < 99
    ensures NextHour(TwoDigits(h) + ":" + minutes) == TwoDigits(h + 1) + ":" + minutes
  {
    TwoDigitsShape(h);
    var s := TwoDigits(h) + ":" + minutes;
    assert HourAt(s, 0);
    assert 10 * DigitVal(s[0]) + DigitVal(s[1]) == h;
    assert s[3..] == minutes;
  }

  /** What the generator and the submit handler rely on about an hour label. */
  lemma HourLabelFacts(h: nat)
    requires h < 99
    ensures ClockMinutes(HourLabel(h)) == Some(60 * h)
    ensures NextHour(HourLabel(h)) == HourLabel(h + 1)
  {
    TwoDigitsValue(0);
    TwoDigitsShape(0);
    assert TwoDigits(0) == "00";
    assert HourLabel(h) == TwoDigits(h) + ":" + "00";
    assert HourLabel(h + 1) == TwoDigits(h + 1) + ":" + "00";
    ClockOfTwoDigits(h, "00");
    NextHourOfLabel(h, "00");
  }

  /** The working day's first start and last end, as displayed. */
  lemma OpeningAndClosingLabels()
    ensures HourLabel(9) == "09:00" && HourLabel(17) == "17:00"
  {
    assert DigitChar(0) == '0' && DigitChar(9) == '9';
    TwoDigitsShape(9);
    assert 17 / 10 == 1 && 17 % 10 == 7;
    assert Decimal(1) == ['1'];
    assert Decimal(17) == ['1', '7'];
  }

  /** The slot for the hour starting at `hour`. */
  function HourSlot(hour: nat): Slot {
    Slot(HourLabel(hour), HourLabel(hour + 1), HourLabel(hour))
  }

  /** A slot for a two-digit hour starts on that hour, ends an hour later, and the end
      derived from its value on submit is its own end. */
  lemma HourSlotFacts(h: nat)
    requires h < 98
    ensures HourSlot(h).value == HourSlot(h).start
    ensures ClockMinutes(HourSlot(h).start) == Some(60 * h)
    ensures ClockMinutes(HourSlot(h).end) == Some(60 * (h + 1))
    ensures NextHour(HourSlot(h).value) == HourSlot(h).end
  {
    HourLabelFacts(h);
    HourLabelFacts(h + 1);
  }

  /** The list `generateTimeSlots` builds: eight slots, hour by hour from 09. */
  ghost predicate WorkingDaySlots(slots: seq<Slot>) {
    |slots| == 8 && forall i :: 0 <= i < |slots| ==> slots[i] == HourSlot(9 + i)
  }

  /** Each slot starts 60 minutes after the one before it, from 09:00, lasts an hour,
      and offers its start as the value to submit. */
  lemma SlotsAreConsecutiveHours(slots: seq<Slot>)
    requires WorkingDaySlots(slots)
    ensures forall i :: 0 <= i < |slots| ==> slots[i].value == slots[i].start
    ensures forall i :: 0 <= i < |slots| ==> ClockMinutes(slots[i].start) == Some(60 * (9 + i))
    ensures forall i :: 0 <= i < |slots| ==> ClockMinutes(slots[i].end) == Some(60 * (10 + i))
  {
    forall i | 0 <= i < |slots|
      ensures slots[i].value == slots[i].start
      ensures ClockMinutes(slots[i].start) == Some(60 * (9 + i))
      ensures ClockMinutes(slots[i].end) == Some(60 * (10 + i))
    {
      HourSlotFacts(9 + i);
    }
  }

  /** The end derived on submit from a slot's value is the end that slot displayed. */
  lemma SubmittedEndIsSlotEnd(slots: seq<Slot>)
    requires WorkingDaySlots(slots)
    ensures forall i :: 0 <= i < |slots| ==> NextHour(slots[i].value) == slots[i].end
  {
    forall i | 0 <= i < |slots|
      ensures NextHour(slots[i].value) == slots[i].end
    {
      HourSlotFacts(9 + i);
    }
  }

  /** Because the hours are zero-padded, the list is in text order as well as in
      chronological order. */
  lemma SlotsAreInTextOrder(slots: seq<Slot>)
    requires WorkingDaySlots(slots)
    ensures forall i, j :: 0 <= i < j < |slots| ==> TextLt(slots[i].start, slots[j].start)
  {
    forall i, j | 0 <= i < j < |slots|
      ensures TextLt(slots[i].start, slots[j].start)
    {
      assert slots[i].start == TwoDigits(9 + i) + ":00";
      assert slots[j].start == TwoDigits(9 + j) + ":00";
      TwoDigitsTextOrder(9 + i, 9 + j, ":00");
    }
  }

  /** The first choice starts at 09:00 and the last ends at 17:00. */
  lemma SlotsSpanTheWorkingDay(slots: seq<Slot>)
    requires WorkingDaySlots(slots)
    ensures slots[0].start == "09:00" && slots[7].end == "17:00"
  {
    assert slots[0].start == HourLabel(9) && slots[7].end == HourLabel(17);
    OpeningAndClosingLabels();
  }

  /** `generateTimeSlots`: one slot per hour from 09 to 16, each an hour long. */
  method GenerateTimeSlots() returns (slots: seq<Slot>)
    ensures |slots| == 8
    ensures forall i :: 0 <= i < |slots| ==> slots[i].value == slots[i].start
    ensures forall i :: 0 <= i < |slots| ==> ClockMinutes(slots[i].start) == Some(60 * (9 + i))
    ensures forall i :: 0 <= i < |slots| ==> ClockMinutes(slots[i].end) == Some(60 * (10 + i))
    ensures forall i :: 0 <= i < |slots| ==> NextHour(slots[i].value) == slots[i].end
    ensures WorkingDaySlots(slots)
  {
    slots := [];
    var hour := 9;
    while hour < 17
      invariant 9 <= hour <= 17
      invariant |slots| == hour - 9
      invariant forall i :: 0 <= i < |slots| ==> slots[i] == HourSlot(9 + i)
    {
      slots := slots + [HourSlot(hour)];
      hour := hour + 1;
    }
    SlotsAreConsecutiveHours(slots);
    SubmittedEndIsSlotEnd(slots);
  }

  /** The booking form's fields; `timeSlot` holds the chosen slot's `value`. */
  datatype Form = Form(appointmentDate: string, timeSlot: string, service: string, notes: string)

  /** `handleDateChange`: the new date is stored and the chosen slot is cleared. */
  function ChangeDate(form: Form, date: string): (f: Form)
    ensures f.appointmentDate == date && f.timeSlot == ""
    ensures f.service == form.service && f.notes == form.notes
  {
    form.(appointmentDate := date, timeSlot := "")
  }

  /** The request body sent by `handleSubmit`. */
  datatype Request = Request(
    appointmentDate: string, service: string, notes: string,
    provider: string, start: string, end: string)

  /** `handleSubmit`: the form's fields, the provider from the route, and a time slot
      whose end is derived from the chosen start. */
  function SubmitRequest(form: Form, providerId: string): (req: Request)
    ensures req.provider == providerId && req.start == form.timeSlot
    ensures req.appointmentDate == form.appointmentDate
    ensures req.service == form.service && req.notes == form.notes
    ensures forall h :: 9 <= h < 17 && form.timeSlot == HourLabel(h) ==> req.end == HourLabel(h + 1)
    ensures form.timeSlot == "" ==> req.end == ""
  {
    assert forall h :: 9 <= h < 17 ==> NextHour(HourLabel(h)) == HourLabel(h + 1) by {
      forall h | 9 <= h < 17 ensures NextHour(HourLabel(h)) == HourLabel(h + 1) {
        HourLabelFacts(h);
      }
    }
    Request(form.appointmentDate, form.service, form.notes, providerId,
            form.timeSlot, NextHour(form.timeSlot))
  }
}
