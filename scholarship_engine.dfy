/** The live deadline status of a scholarship: recurring schemes whose
    deadline has passed are projected into the current (or next) cycle,
    and the status badge is chosen from the days left. `now` is a
    parameter rather than a clock read. */
module ScholarshipEngine {
  import opened Common
  import opened Calendar
  import opened Records

  datatype Status = Open | ClosingSoon | Closed | OpeningSoon | Announced

  /** The badge text. "Opens …" carries the start instant: its locale
      formatting is not modelled. */
  datatype Label =
    | ClosedLabel
    | DeadlinePassed
    | OpensOn(start: Instant)
    | ClosingIn(days: int)
    | ApplicationsOpen
    | ToBeAnnounced

  /** The analysis result; the effective deadline is the instant the
      formatted deadline string shows. */
  datatype ComputedStatus = ComputedStatus(
    status: Status,
    statusLabel: Label,
    effectiveDeadline: Instant,
    daysLeft: Option<int>,
    isAutoRenewed: bool)

  /** Whether the record's dates are projected forward. */
  predicate Renews(s: Scholarship, now: Instant)
  {
    s.isRecurring && s.deadline < now
  }

  /** The deadline after projection: moved into the current year, and on
      into the next year when that is still past. The second move starts
      from the already moved date. */
  function EffectiveEnd(s: Scholarship, now: Instant): Instant
  {
    if !Renews(s, now) then s.deadline
    else
      var e := WithYear(s.deadline, YearOf(now));
      if e < now then WithYear(e, YearOf(now) + 1) else e
  }

  /** The start date after projection: it follows the deadline's moves. */
  function EffectiveStart(s: Scholarship, now: Instant): Option<Instant>
  {
    match s.startDate
    case None => None
    case Some(st) =>
      if !Renews(s, now) then Some(st)
      else
        var a := WithYear(st, YearOf(now));
        if WithYear(s.deadline, YearOf(now)) < now then Some(WithYear(a, YearOf(now) + 1)) else Some(a)
  }

  /** Whole days left until `end`, rounded up. */
  function DaysLeft(end: Instant, now: Instant): (r: int)
    ensures (r - 1) * MsPerDay < end - now <= r * MsPerDay
  {
    CeilDiv(end - now, MsPerDay)
  }

  /** The badge status for the days left and the (effective) start date. */
  function Classify(daysLeft: int, start: Option<Instant>, now: Instant): (r: Status)
    ensures r == Closed <==> daysLeft < 0
    ensures r == OpeningSoon <==> daysLeft >= 0 && start.Some? && now < start.value
    ensures r == ClosingSoon <==> 0 <= daysLeft <= 7 && !(start.Some? && now < start.value)
    ensures r == Open <==> daysLeft > 7 && !(start.Some? && now < start.value)
    ensures r != Announced
  {
    if daysLeft < 0 then Closed
    else if start.Some? && now < start.value then OpeningSoon
    else if daysLeft <= 7 then ClosingSoon
    else Open
  }

  /** A date moved into the current year that is still past lies after
      `now` once moved into the next year. */
  lemma NextYearNotPast(t: Instant, now: Instant)
    requires WithYear(t, YearOf(now)) < now
    ensures WithYear(WithYear(t, YearOf(now)), YearOf(now) + 1) > now
  {
    var e2 := WithYear(WithYear(t, YearOf(now)), YearOf(now) + 1);
    LaterYearIsLater(e2, now);
  }

  /** A projected deadline is never in the past. */
  lemma EffectiveEndNotPast(s: Scholarship, now: Instant)
    requires Renews(s, now)
    ensures EffectiveEnd(s, now) >= now
  {
    if WithYear(s.deadline, YearOf(now)) < now {
      SecondMoveNotPast(s, now);
    }
  }

  lemma SecondMoveNotPast(s: Scholarship, now: Instant)
    requires Renews(s, now)
    requires WithYear(s.deadline, YearOf(now)) < now
    ensures EffectiveEnd(s, now) >= now
  {
    NextYearNotPast(s.deadline, now);
  }

  /** The first half of `ScholarshipEngine.analyze`: the effective dates.
      A recurring record whose deadline has passed has both dates moved
      into the current year, and into the next year when the moved
      deadline is still past. */
  method ProjectDates(s: Scholarship, now: Instant)
    returns (start: Option<Instant>, end: Instant, isAutoRenewed: bool)
    ensures isAutoRenewed <==> Renews(s, now)
    ensures end == EffectiveEnd(s, now)
    ensures start == EffectiveStart(s, now)
    ensures s.isRecurring ==> end >= now
  {
    // `currentYear` is `YearOf(now)`, written out at each use.
    start := s.startDate;
    end := s.deadline;
    isAutoRenewed := false;
    if s.isRecurring && end < now {
      isAutoRenewed := true;
      if start.Some? {
        start := Some(WithYear(start.value, YearOf(now)));
      }
      end := WithYear(end, YearOf(now));
      if end < now {
        if start.Some? {
          start := Some(WithYear(start.value, YearOf(now) + 1));
        }
        end := WithYear(end, YearOf(now) + 1);
      }
      EffectiveEndNotPast(s, now);
    }
  }

  /** `ScholarshipEngine.analyze`: the effective dates, then the status
      from the days left. */
  method Analyze(s: Scholarship, now: Instant) returns (st: ComputedStatus)
    ensures st.isAutoRenewed <==> Renews(s, now)
    ensures st.effectiveDeadline == EffectiveEnd(s, now)
    ensures st.daysLeft == Some(DaysLeft(EffectiveEnd(s, now), now))
    ensures st.status == Classify(st.daysLeft.value, EffectiveStart(s, now), now)
    ensures st.status == OpeningSoon ==> st.statusLabel == OpensOn(EffectiveStart(s, now).value)
    ensures st.status == ClosingSoon ==> st.statusLabel == ClosingIn(st.daysLeft.value)
    ensures st.status == Open ==> st.statusLabel == ApplicationsOpen
    ensures st.status == Closed ==> st.statusLabel == DeadlinePassed
    ensures st.status != Announced
    ensures s.isRecurring ==> st.status != Closed
  {
    var start, end, isAutoRenewed := ProjectDates(s, now);

    var status := Closed;
    var statusLabel := ClosedLabel;
    // `end` is always a `Date` object, so the source's "To Be Announced"
    // branch for a missing deadline is never taken.
    var daysLeft := CeilDiv(end - now, MsPerDay);
    assert daysLeft == DaysLeft(end, now);
    if daysLeft < 0 {
      status := Closed;
      statusLabel := DeadlinePassed;
    } else if start.Some? && now < start.value {
      status := OpeningSoon;
      statusLabel := OpensOn(start.value);
    } else if daysLeft <= 7 {
      status := ClosingSoon;
      statusLabel := ClosingIn(daysLeft);
    } else {
      status := Open;
      statusLabel := ApplicationsOpen;
    }
    assert status == Classify(daysLeft, start, now);
    st := ComputedStatus(status, statusLabel, end, Some(daysLeft), isAutoRenewed);
  }

  /** A record that is not projected keeps its stored dates. */
  lemma NoRenewalKeepsDates(s: Scholarship, now: Instant)
    requires !Renews(s, now)
    ensures EffectiveEnd(s, now) == s.deadline
    ensures EffectiveStart(s, now) == s.startDate
  {
  }

  /** A day and month that exist in every year. */
  lemma EveryYearHas(c: Civil, y: int)
    requires ValidCivil(c)
    requires !(c.month == 2 && c.day == 29)
    ensures ValidCivil(Civil(y, c.month, c.day))
  {
  }

  /** Moving a date that is not February 29 through two years keeps its
      month and day at each step. */
  lemma MovesKeepMonthDay(t: Instant, y1: int, y2: int)
    requires !(CivilOf(t).month == 2 && CivilOf(t).day == 29)
    ensures CivilOf(WithYear(t, y1)) == Civil(y1, CivilOf(t).month, CivilOf(t).day)
    ensures CivilOf(WithYear(WithYear(t, y1), y2)) == Civil(y2, CivilOf(t).month, CivilOf(t).day)
  {
    EveryYearHas(CivilOf(t), y1);
    EveryYearHas(CivilOf(t), y2);
  }

  /** A projected deadline lands in the current or the next year. */
  lemma RenewalYear(s: Scholarship, now: Instant)
    requires Renews(s, now)
    ensures var y := YearOf(EffectiveEnd(s, now));
            y == YearOf(now) || y == YearOf(now) + 1
  {
    if WithYear(s.deadline, YearOf(now)) < now {
      assert YearOf(EffectiveEnd(s, now)) == YearOf(now) + 1;
    } else {
      assert YearOf(EffectiveEnd(s, now)) == YearOf(now);
    }
  }

  /** A projected start date lands in the same year as the deadline. */
  lemma RenewalStartYear(s: Scholarship, now: Instant)
    requires Renews(s, now)
    ensures EffectiveStart(s, now).Some? <==> s.startDate.Some?
    ensures EffectiveStart(s, now).Some? ==>
              YearOf(EffectiveStart(s, now).value) == YearOf(EffectiveEnd(s, now))
  {
    if s.startDate.Some? {
      if WithYear(s.deadline, YearOf(now)) < now {
        assert YearOf(EffectiveEnd(s, now)) == YearOf(now) + 1;
        assert YearOf(EffectiveStart(s, now).value) == YearOf(now) + 1;
      } else {
        assert YearOf(EffectiveEnd(s, now)) == YearOf(now);
        assert YearOf(EffectiveStart(s, now).value) == YearOf(now);
      }
    }
  }

  /** A projected deadline keeps its time of day, and its month and day
      unless it was February 29. */
  lemma RenewalKeepsDate(s: Scholarship, now: Instant)
    requires Renews(s, now)
    ensures TimeInDay(EffectiveEnd(s, now)) == TimeInDay(s.deadline)
    ensures var c := CivilOf(s.deadline);
            !(c.month == 2 && c.day == 29) ==>
              CivilOf(EffectiveEnd(s, now)) == Civil(YearOf(EffectiveEnd(s, now)), c.month, c.day)
  {
    var c := CivilOf(s.deadline);
    if !(c.month == 2 && c.day == 29) {
      MovesKeepMonthDay(s.deadline, YearOf(now), YearOf(now) + 1);
    }
  }

  /** Whatever the dates, a recurring record is never reported closed. */
  lemma RecurringNeverClosed(s: Scholarship, now: Instant)
    requires s.isRecurring
    ensures Classify(DaysLeft(EffectiveEnd(s, now), now), EffectiveStart(s, now), now) != Closed
  {
    if Renews(s, now) {
      EffectiveEndNotPast(s, now);
    }
  }

  /** The boundaries of the "closing soon" window for a one-off record
      without a start date: seven days left is closing soon, anything
      beyond is open, and a deadline a day gone is closed. */
  lemma ClosingSoonWindow(s: Scholarship, now: Instant)
    requires !s.isRecurring && s.startDate == None
    ensures s.deadline == now + 7 * MsPerDay ==>
              Classify(DaysLeft(EffectiveEnd(s, now), now), EffectiveStart(s, now), now) == ClosingSoon
    ensures s.deadline == now + 7 * MsPerDay + 1 ==>
              Classify(DaysLeft(EffectiveEnd(s, now), now), EffectiveStart(s, now), now) == Open
    ensures s.deadline == now - MsPerDay ==>
              Classify(DaysLeft(EffectiveEnd(s, now), now), EffectiveStart(s, now), now) == Closed
    ensures now < s.deadline <= now + 7 * MsPerDay ==>
              Classify(DaysLeft(EffectiveEnd(s, now), now), EffectiveStart(s, now), now) == ClosingSoon
  {
    var d := DaysLeft(EffectiveEnd(s, now), now);
    if s.deadline == now + 7 * MsPerDay {
      assert d == 7;
    }
    if s.deadline == now + 7 * MsPerDay + 1 {
      assert d == 8;
    }
    if s.deadline == now - MsPerDay {
      assert d == -1;
    }
  }
}
