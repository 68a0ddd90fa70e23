/** The patient's booking form: the half-hourly time choices from 9:00 to 17:00. */
module PatientBooking {
  import opened Wrappers
  import opened Text
  import opened Ordering

  /** `${i}:00` or `${i}:30`: the hour is not zero-padded. */
  function HalfHourLabel(hour: nat, half: bool): string {
    Decimal(hour) + (if half then ":30" else ":00")
  }

  /** The label at position `k` of the list. */
  function LabelAt(k: nat): string {
    HalfHourLabel(9 + k / 2, k % 2 == 1)
  }

  /** The two minute fields the list uses. */
  lemma MinuteFields()
    ensures AllDigits("00") && DigitsValue("00") == 0
    ensures AllDigits("30") && DigitsValue("30") == 30
  {
    DigitsValueOfPair('0', '0');
    DigitsValueOfPair('3', '0');
    assert "00" == ['0', '0'] && "30" == ['3', '0'];
  }

  /** Reading a half-hour label back gives its minutes after midnight. */
  lemma HalfHourLabelMinutes(hour: nat, half: bool)
    ensures ClockMinutes(HalfHourLabel(hour, half)) == Some(60 * hour + if half then 30 else 0)
  {
    MinuteFields();
    if half {
      assert HalfHourLabel(hour, half) == Decimal(hour) + ":" + "30";
      ClockOfDecimal(hour, "30");
    } else {
      assert HalfHourLabel(hour, half) == Decimal(hour) + ":" + "00";
      ClockOfDecimal(hour, "00");
    }
  }

  /** Position `k` of the list is `30 * k` minutes after 9:00. */
  lemma LabelAtMinutes(k: nat)
    ensures ClockMinutes(LabelAt(k)) == Some(540 + 30 * k)
  {
    HalfHourLabelMinutes(9 + k / 2, k % 2 == 1);
    assert k == 2 * (k / 2) + k % 2;
  }

  /** Hour `h` owns positions `2 * (h - 9)` (on the hour) and the one after it (half
      past). */
  lemma LabelsOfHour(h: nat)
    requires h >= 9
    ensures LabelAt(2 * (h - 9)) == HalfHourLabel(h, false)
    ensures LabelAt(2 * (h - 9) + 1) == HalfHourLabel(h, true)
  {
    var k := 2 * (h - 9);
    assert k / 2 == h - 9 && k % 2 == 0;
    assert (k + 1) / 2 == h - 9 && (k + 1) % 2 == 1;
  }

  /** A list labelled position by position reads as consecutive half hours from 9:00,
      so no label repeats. */
  lemma HalfHourChoices(slots: seq<string>)
    requires forall k :: 0 <= k < |slots| ==> slots[k] == LabelAt(k)
    ensures forall k :: 0 <= k < |slots| ==> ClockMinutes(slots[k]) == Some(540 + 30 * k)
    ensures forall k, l :: 0 <= k < l < |slots| ==> slots[k] != slots[l]
  {
    forall k | 0 <= k < |slots|
      ensures ClockMinutes(slots[k]) == Some(540 + 30 * k)
    {
      LabelAtMinutes(k);
    }
  }

  /** The time choices: every half hour from 9:00 to 17:00, ending on the hour. */
  method TimeSlots() returns (slots: seq<string>)
    ensures |slots| == 17
    ensures forall k :: 0 <= k < |slots| ==> ClockMinutes(slots[k]) == Some(540 + 30 * k)
    ensures forall k :: 0 <= k < |slots| ==> slots[k] == HalfHourLabel(9 + k / 2, k % 2 == 1)
    ensures forall k, l :: 0 <= k < l < |slots| ==> slots[k] != slots[l]
    ensures slots[0] == "9:00" && slots[16] == "17:00" && "17:30" !in slots
  {
    slots := [];
    var i := 9;
    while i <= 17
      invariant 9 <= i <= 18
      invariant |slots| == if i <= 17 then 2 * (i - 9) else 17
      invariant forall k :: 0 <= k < |slots| ==> slots[k] == LabelAt(k)
    {
      LabelsOfHour(i);
      slots := slots + [HalfHourLabel(i, false)];
      if i < 17 {
        slots := slots + [HalfHourLabel(i, true)];
      }
      i := i + 1;
    }
    HalfHourChoices(slots);
    OpeningAndClosingLabels();
  }

  /** The first choice is 9:00 and the last 17:00; no 17:30 is offered. */
  lemma OpeningAndClosingLabels()
    ensures LabelAt(0) == "9:00" && LabelAt(16) == "17:00"
    ensures forall k :: 0 <= k < 17 ==> LabelAt(k) != "17:30"
  {
    assert Decimal(9) == ['9'];
    assert 17 / 10 == 1 && 17 % 10 == 7;
    assert Decimal(1) == ['1'];
    assert Decimal(17) == ['1', '7'];
    assert "17:30" == HalfHourLabel(17, true);
    HalfHourLabelMinutes(17, true);
    forall k | 0 <= k < 17 ensures LabelAt(k) != "17:30" {
      LabelAtMinutes(k);
    }
  }

  /** Because hours are not padded, the list is not in text order: 10:00 sorts before 9:00. */
  lemma ChoicesAreNotInTextOrder()
    ensures TextLt(LabelAt(2), LabelAt(0))
  {
    assert Decimal(9) == ['9'];
    assert Decimal(1) == ['1'];
    assert Decimal(10) == ['1', '0'];
    assert LabelAt(2) == "10:00";
    assert LabelAt(0) == "9:00";
  }
}
