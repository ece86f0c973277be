/**
 * The interview scheduler of app/dashboard/scheduling/page.tsx: Monday-of-week
 * arithmetic, the dates of a working week, the shortlisted-candidate list
 * read from the stored ranking, and the slot table whose book, confirm and
 * remove operations keep at most one booking per (day, time, date).
 *
 * Dates are day numbers; `d % 7` is the day of the week with 0 for Sunday
 * and 1 for Monday, as `Date.getDay` counts.
 */
module Scheduling {
  import opened Wrappers
  import opened Text
  import opened Seqs
  import Candidates

  datatype WeekDay = Mon | Tue | Wed | Thu | Fri

  const WeekDays: seq<WeekDay> := [Mon, Tue, Wed, Thu, Fri]

  /** The position of a day in the working week, Monday first. */
  function DayIndex(d: WeekDay): (i: nat)
    ensures i < |WeekDays| && WeekDays[i] == d
  {
    match d
    case Mon => 0
    case Tue => 1
    case Wed => 2
    case Thu => 3
    case Fri => 4
  }

  /** The bookable times of a day, earliest first. */
  datatype TimeSlot = T0900 | T1000 | T1100 | T1300 | T1400 | T1500

  const TimeSlots: seq<TimeSlot> := [T0900, T1000, T1100, T1300, T1400, T1500]

  /** The label each time is stored and compared as. */
  function TimeText(t: TimeSlot): string {
    match t
    case T0900 => "9:00 AM"
    case T1000 => "10:00 AM"
    case T1100 => "11:00 AM"
    case T1300 => "1:00 PM"
    case T1400 => "2:00 PM"
    case T1500 => "3:00 PM"
  }

  function TimeIndex(t: TimeSlot): (i: nat)
    ensures i < |TimeSlots| && TimeSlots[i] == t
  {
    match t
    case T0900 => 0
    case T1000 => 1
    case T1100 => 2
    case T1300 => 3
    case T1400 => 4
    case T1500 => 5
  }

  /** `getMonday(d)`: step back to the week's Monday; a Sunday belongs to the week before it. */
  method GetMonday(d: int) returns (monday: int)
    ensures monday % 7 == 1
    ensures monday <= d < monday + 7
    ensures d % 7 == 0 ==> monday == d - 6
    ensures d % 7 != 0 ==> monday == d - d % 7 + 1
  {
    var date := d;
    var day := date % 7;
    var diff := date - day + (if day == 0 then -6 else 1);
    date := diff;
    monday := date;
  }

  /** The date of `day` in the week starting on `monday`. */
  function WeekDate(monday: int, day: WeekDay): int {
    monday + DayIndex(day)
  }

  /** `getWeekDates(monday)`: the week's five days receive five consecutive dates. */
  method GetWeekDates(monday: int) returns (dates: map<WeekDay, int>)
    ensures forall d: WeekDay :: d in dates && dates[d] == WeekDate(monday, d)
  {
    dates := map[];
    var i := 0;
    while i < |WeekDays|
      invariant 0 <= i <= |WeekDays|
      invariant forall d: WeekDay :: d in dates <==> DayIndex(d) < i
      invariant forall d: WeekDay :: d in dates ==> dates[d] == monday + DayIndex(d)
    {
      dates := dates[WeekDays[i] := monday + i];
      i := i + 1;
    }
  }

  /** The week's dates are consecutive from Monday to Friday and share Monday's week. */
  lemma WeekDatesConsecutive(monday: int)
    requires monday % 7 == 1
    ensures forall i :: 0 <= i < |WeekDays| ==> WeekDate(monday, WeekDays[i]) == monday + i
    ensures forall d: WeekDay :: WeekDate(monday, d) % 7 == DayIndex(d) + 1
  {
    forall i | 0 <= i < |WeekDays|
      ensures WeekDate(monday, WeekDays[i]) == monday + i
    {
      assert DayIndex(WeekDays[i]) == i by {
        assert WeekDays[DayIndex(WeekDays[i])] == WeekDays[i];
        assert WeekDays == [Mon, Tue, Wed, Thu, Fri];
      }
    }
  }

  // ---------------------------------------------------------------------
  // Shortlisted candidates

  datatype ShortlistedCandidate = ShortlistedCandidate(id: string, name: string, email: string, role: string, score: int)

  const ShortlistThreshold: int := 85

  /** The mapping of the first effect: id, name and role defaults as on the candidates page, email only trimmed. */
  function ToShortlisted(rc: Candidates.RankedCandidate, i: nat): ShortlistedCandidate {
    ShortlistedCandidate(
      OrElse(rc.candidateId, Candidates.GeneratedId(i)),
      Trim(OrElse(rc.candidateName, "Candidate " + NatToString(i + 1))),
      Trim(OrElse(rc.candidateEmail, "")),
      Trim(OrElse(rc.currentRole, "Candidate")),
      rc.score.GetOr(0))
  }

  /** A shortlisted entry agrees with the candidates page's row on id, name, role and score; its email has no fallback. */
  lemma ToShortlistedAgreesWithRow(rc: Candidates.RankedCandidate, i: nat)
    ensures var c := ToShortlisted(rc, i); var row := Candidates.ToCandidateRow(rc, i);
      c.id == row.id && c.name == row.name && c.role == row.role && c.score == row.score
    ensures ToShortlisted(rc, i).email == Trim(OrElse(rc.candidateEmail, ""))
  {
  }

  /** The filter test: score at least 85 and, when any status is stored, stored as shortlisted. */
  predicate Eligible(c: ShortlistedCandidate, statusMap: map<string, string>) {
    && c.score >= ShortlistThreshold
    && (|statusMap| == 0 || (c.id in statusMap && statusMap[c.id] == "shortlisted"))
  }

  function ScoreDescLe(): (le: (ShortlistedCandidate, ShortlistedCandidate) -> bool)
    ensures IsTotalPreorder(le)
  {
    (a: ShortlistedCandidate, b: ShortlistedCandidate) => b.score <= a.score
  }

  /** The first effect's `ranked.map(...)`. */
  function ShortlistRows(ranked: seq<Candidates.RankedCandidate>): (m: seq<ShortlistedCandidate>)
    ensures |m| == |ranked|
    ensures forall i :: 0 <= i < |ranked| ==> m[i] == ToShortlisted(ranked[i], i)
  {
    seq(|ranked|, i requires 0 <= i < |ranked| => ToShortlisted(ranked[i], i))
  }

  /** The candidates offered for booking, best score first. */
  function Shortlist(ranked: seq<Candidates.RankedCandidate>, statusMap: map<string, string>)
    : (r: seq<ShortlistedCandidate>)
    ensures forall c :: c in r <==> c in ShortlistRows(ranked) && Eligible(c, statusMap)
    ensures forall c :: multiset(r)[c] == if Eligible(c, statusMap) then multiset(ShortlistRows(ranked))[c] else 0
    ensures forall i, j :: 0 <= i < j < |r| ==> r[i].score >= r[j].score
  {
    var p := c => Eligible(c, statusMap);
    var kept := Filter(ShortlistRows(ranked), p);
    FilterCounts(ShortlistRows(ranked), p);
    var r := SortBy(kept, ScoreDescLe());
    SameElements(r, kept);
    r
  }

  /**
   * The two pages disagree at 85: with no stored statuses, a candidate
   * scoring exactly 85 is offered here, while the candidates page calls
   * that score "review".
   */
  lemma ThresholdsDiffer(rc: Candidates.RankedCandidate)
    requires rc.score == Some(85)
    ensures ToShortlisted(rc, 0) in Shortlist([rc], map[])
    ensures Candidates.ToCandidateRow(rc, 0).status == Candidates.Review
  {
    var rows := ShortlistRows([rc]);
    assert rows[0] == ToShortlisted(rc, 0) && rows[0] in rows;
    assert Eligible(rows[0], map[]);
    assert Candidates.ToCandidateRow(rc, 0).score == 85;
  }

  // ---------------------------------------------------------------------
  // The slot table

  datatype SlotStatus = Pending | Confirmed

  datatype Slot = Slot(
    candidateId: string,
    candidateName: string,
    candidateEmail: string,
    date: int,
    day: WeekDay,
    time: TimeSlot,
    status: SlotStatus)

  predicate At(s: Slot, day: WeekDay, time: TimeSlot, date: int) {
    s.day == day && s.time == time && s.date == date
  }

  /** At most one booking per (day, time, date). */
  predicate NoDoubleBooking(schedule: seq<Slot>) {
    forall i, j :: 0 <= i < j < |schedule| ==> !At(schedule[j], schedule[i].day, schedule[i].time, schedule[i].date)
  }

  /** `schedule.find(...)` for the key: the first slot booked there, if any. */
  function FindSlot(schedule: seq<Slot>, day: WeekDay, time: TimeSlot, date: int): (r: Option<Slot>)
    ensures r.None? <==> forall i :: 0 <= i < |schedule| ==> !At(schedule[i], day, time, date)
    ensures r.Some? ==> r.value in schedule && At(r.value, day, time, date)
    ensures r.Some? ==> exists i :: 0 <= i < |schedule| && schedule[i] == r.value
                                   && forall j :: 0 <= j < i ==> !At(schedule[j], day, time, date)
  {
    if schedule == [] then None
    else if At(schedule[0], day, time, date) then
      Some(schedule[0])
    else
      var r := FindSlot(schedule[1..], day, time, date);
      assert forall i :: 1 <= i < |schedule| ==> schedule[i] == schedule[1..][i - 1];
      FirstAtShift(schedule, day, time, date, r);
      r
  }

  /** A first match in the tail of `schedule` is a first match in `schedule` when its head does not match. */
  lemma FirstAtShift(schedule: seq<Slot>, day: WeekDay, time: TimeSlot, date: int, r: Option<Slot>)
    requires schedule != [] && !At(schedule[0], day, time, date)
    requires r.Some? ==> exists k :: 0 <= k < |schedule[1..]| && schedule[1..][k] == r.value
                                   && forall j :: 0 <= j < k ==> !At(schedule[1..][j], day, time, date)
    ensures r.Some? ==> exists i :: 0 <= i < |schedule| && schedule[i] == r.value
                                   && forall j :: 0 <= j < i ==> !At(schedule[j], day, time, date)
  {
    if r.Some? {
      var k :| 0 <= k < |schedule[1..]| && schedule[1..][k] == r.value
               && forall j :: 0 <= j < k ==> !At(schedule[1..][j], day, time, date);
      assert schedule[k + 1] == r.value;
      forall j | 0 <= j < k + 1
        ensures !At(schedule[j], day, time, date)
      {
        if j > 0 { assert schedule[j] == schedule[1..][j - 1]; }
      }
    }
  }

  /** `schedule.map(...)` of `confirmSlot`: the slots at the key become confirmed. */
  function ConfirmAt(schedule: seq<Slot>, day: WeekDay, time: TimeSlot, date: int): (r: seq<Slot>)
    ensures |r| == |schedule|
    ensures forall i :: 0 <= i < |schedule| ==>
      r[i] == if At(schedule[i], day, time, date) then schedule[i].(status := Confirmed) else schedule[i]
  {
    seq(|schedule|, i requires 0 <= i < |schedule| =>
      if At(schedule[i], day, time, date) then schedule[i].(status := Confirmed) else schedule[i])
  }

  /** Confirming changes no key, so the table stays free of double bookings. */
  lemma ConfirmKeepsNoDoubleBooking(schedule: seq<Slot>, day: WeekDay, time: TimeSlot, date: int)
    requires NoDoubleBooking(schedule)
    ensures NoDoubleBooking(ConfirmAt(schedule, day, time, date))
  {
    var r := ConfirmAt(schedule, day, time, date);
    forall i, j | 0 <= i < j < |r|
      ensures !At(r[j], r[i].day, r[i].time, r[i].date)
    {
      assert !At(schedule[j], schedule[i].day, schedule[i].time, schedule[i].date);
    }
  }

  /** The filter of `removeSlot`: every slot not at the key, in order. */
  function RemoveAt(schedule: seq<Slot>, day: WeekDay, time: TimeSlot, date: int): (r: seq<Slot>)
    ensures forall s :: s in r <==> s in schedule && !At(s, day, time, date)
    ensures forall s :: multiset(r)[s] == if At(s, day, time, date) then 0 else multiset(schedule)[s]
  {
    var p := s => !At(s, day, time, date);
    FilterCounts(schedule, p);
    Filter(schedule, p)
  }

  /**
   * `removeSlot` keeps the rest in order: removing from a concatenation
   * removes from each part, and a single slot stays exactly when it is not
   * at the key.
   */
  lemma RemoveAtKeepsOrder(a: seq<Slot>, b: seq<Slot>, day: WeekDay, time: TimeSlot, date: int)
    ensures RemoveAt(a + b, day, time, date) == RemoveAt(a, day, time, date) + RemoveAt(b, day, time, date)
    ensures forall x :: RemoveAt([x], day, time, date) == if At(x, day, time, date) then [] else [x]
  {
    FilterAppend(a, b, s => !At(s, day, time, date));
    forall x
      ensures RemoveAt([x], day, time, date) == if At(x, day, time, date) then [] else [x]
    {
      assert [x][1..] == [];
    }
  }

  lemma NoDoubleBookingTail(schedule: seq<Slot>)
    requires schedule != [] && NoDoubleBooking(schedule)
    ensures NoDoubleBooking(schedule[1..])
    ensures forall y :: y in schedule[1..] ==> !At(y, schedule[0].day, schedule[0].time, schedule[0].date)
  {
    var tail := schedule[1..];
    forall i, j | 0 <= i < j < |tail|
      ensures !At(tail[j], tail[i].day, tail[i].time, tail[i].date)
    {
      assert tail[i] == schedule[i + 1] && tail[j] == schedule[j + 1];
    }
    forall y | y in tail
      ensures !At(y, schedule[0].day, schedule[0].time, schedule[0].date)
    {
      var k :| 0 <= k < |tail| && tail[k] == y;
      assert schedule[k + 1] == y;
    }
  }

  lemma NoDoubleBookingCons(x: Slot, t: seq<Slot>)
    requires NoDoubleBooking(t)
    requires forall y :: y in t ==> !At(y, x.day, x.time, x.date)
    ensures NoDoubleBooking([x] + t)
  {
    var r := [x] + t;
    forall i, j | 0 <= i < j < |r|
      ensures !At(r[j], r[i].day, r[i].time, r[i].date)
    {
      if i == 0 {
        assert r[j] == t[j - 1] && r[j] in t;
      } else {
        assert r[i] == t[i - 1] && r[j] == t[j - 1];
      }
    }
  }

  lemma {:induction false} FilterKeepsNoDoubleBooking(schedule: seq<Slot>, p: Slot -> bool)
    requires NoDoubleBooking(schedule)
    ensures NoDoubleBooking(Filter(schedule, p))
    decreases |schedule|
  {
    if schedule != [] {
      var x := schedule[0];
      NoDoubleBookingTail(schedule);
      FilterKeepsNoDoubleBooking(schedule[1..], p);
      var t := Filter(schedule[1..], p);
      if p(x) {
        NoDoubleBookingCons(x, t);
      }
    }
  }

  /** Appending a slot whose key is free keeps the table free of double bookings. */
  lemma BookKeepsNoDoubleBooking(schedule: seq<Slot>, x: Slot)
    requires NoDoubleBooking(schedule)
    requires FindSlot(schedule, x.day, x.time, x.date).None?
    ensures NoDoubleBooking(schedule + [x])
  {
    var r := schedule + [x];
    forall i, j | 0 <= i < j < |r|
      ensures !At(r[j], r[i].day, r[i].time, r[i].date)
    {
      if j == |schedule| {
        assert !At(schedule[i], x.day, x.time, x.date);
      } else {
        assert r[i] == schedule[i] && r[j] == schedule[j];
      }
    }
  }

  /** Removing keeps the rest double-booking free and leaves nothing at the key. */
  lemma RemoveKeepsNoDoubleBooking(schedule: seq<Slot>, day: WeekDay, time: TimeSlot, date: int)
    requires NoDoubleBooking(schedule)
    ensures NoDoubleBooking(RemoveAt(schedule, day, time, date))
    ensures FindSlot(RemoveAt(schedule, day, time, date), day, time, date).None?
  {
    FilterKeepsNoDoubleBooking(schedule, s => !At(s, day, time, date));
    var r := RemoveAt(schedule, day, time, date);
    forall i | 0 <= i < |r|
      ensures !At(r[i], day, time, date)
    {
      assert r[i] in r;
    }
  }

  /** The upcoming list's order, as written: date first, then the time's text. */
  predicate UpcomingLeAsWritten(a: Slot, b: Slot) {
    a.date < b.date || (a.date == b.date && LexLe(TimeText(a.time), TimeText(b.time)))
  }

  /** The evidently intended order: date first, then the time of day. */
  predicate UpcomingLe(a: Slot, b: Slot) {
    a.date < b.date || (a.date == b.date && TimeIndex(a.time) <= TimeIndex(b.time))
  }

  lemma UpcomingLeIsTotalPreorder()
    ensures IsTotalPreorder(UpcomingLe)
  {
  }

  lemma UpcomingLeAsWrittenIsTotalPreorder()
    ensures IsTotalPreorder(UpcomingLeAsWritten)
  {
    forall a: Slot, b: Slot
      ensures UpcomingLeAsWritten(a, b) || UpcomingLeAsWritten(b, a)
    {
      LexLeTotal(TimeText(a.time), TimeText(b.time));
    }
    forall a: Slot, b: Slot, c: Slot | UpcomingLeAsWritten(a, b) && UpcomingLeAsWritten(b, c)
      ensures UpcomingLeAsWritten(a, c)
    {
      if a.date == b.date == c.date {
        LexLeTransitive(TimeText(a.time), TimeText(b.time), TimeText(c.time));
      }
    }
  }

  /** `upcomingInterviews` as written: the schedule sorted by its `date time` text. */
  function UpcomingAsWritten(schedule: seq<Slot>): (r: seq<Slot>)
    ensures multiset(r) == multiset(schedule)
    ensures SortedBy(r, UpcomingLeAsWritten)
  {
    UpcomingLeAsWrittenIsTotalPreorder();
    SortBy(schedule, UpcomingLeAsWritten)
  }

  /** `upcomingInterviews` in time order: a reordering of the schedule, earliest first. */
  function Upcoming(schedule: seq<Slot>): (r: seq<Slot>)
    ensures multiset(r) == multiset(schedule) && |r| == |schedule|
    ensures forall i, j :: 0 <= i < j < |r| ==>
      r[i].date < r[j].date || (r[i].date == r[j].date && TimeIndex(r[i].time) <= TimeIndex(r[j].time))
  {
    UpcomingLeIsTotalPreorder();
    var r := SortBy(schedule, UpcomingLe);
    assert forall i, j :: 0 <= i < j < |r| ==> UpcomingLe(r[i], r[j]);
    r
  }

  /** The sort as written lists a 10:00 AM interview before the 9:00 AM one of the same day. */
  lemma UpcomingAsWrittenMisorders(early: Slot, late: Slot)
    requires early.date == late.date && early.time == T0900 && late.time == T1000
    ensures UpcomingAsWritten([early, late]) == [late, early]
    ensures Upcoming([early, late]) == [early, late]
  {
    assert !UpcomingLeAsWritten(early, late) by {
      assert TimeText(early.time)[0] == '9' && TimeText(late.time)[0] == '1';
    }
    assert !UpcomingLe(late, early);
    var w := UpcomingAsWritten([early, late]);
    TwoElements(w, early, late);
    assert UpcomingLeAsWritten(w[0], w[1]);
    var u := Upcoming([early, late]);
    TwoElements(u, early, late);
    assert UpcomingLe(u[0], u[1]);
  }

  /**
   * What a successful invite confirms, as written: the slot at the preview's
   * day and time in the week on screen, whatever week the preview is from.
   */
  function InviteConfirmAsWritten(schedule: seq<Slot>, weekStart: int, preview: Slot): (r: seq<Slot>)
    ensures |r| == |schedule|
    ensures forall i :: 0 <= i < |schedule| && At(schedule[i], preview.day, preview.time, WeekDate(weekStart, preview.day)) ==>
      r[i] == schedule[i].(status := Confirmed)
    ensures forall i :: 0 <= i < |schedule| && schedule[i].date != WeekDate(weekStart, preview.day) ==>
      r[i] == schedule[i]
    ensures forall i :: 0 <= i < |schedule| && !At(schedule[i], preview.day, preview.time, WeekDate(weekStart, preview.day)) ==>
      r[i] == schedule[i]
  {
    ConfirmAt(schedule, preview.day, preview.time, WeekDate(weekStart, preview.day))
  }

  /** What a successful invite evidently should confirm: the previewed booking itself. */
  function InviteConfirm(schedule: seq<Slot>, preview: Slot): (r: seq<Slot>)
    ensures |r| == |schedule|
    ensures forall i :: 0 <= i < |schedule| && schedule[i] == preview ==> r[i] == preview.(status := Confirmed)
    ensures forall i :: 0 <= i < |schedule| && !At(schedule[i], preview.day, preview.time, preview.date) ==>
      r[i] == schedule[i]
  {
    ConfirmAt(schedule, preview.day, preview.time, preview.date)
  }

  /**
   * A preview opened from the upcoming list may belong to another week. The
   * handler as written then leaves the invited booking pending; the
   * corrected one confirms it.
   */
  lemma InviteAsWrittenMissesOtherWeek(preview: Slot, weekStart: int)
    requires preview.status.Pending? && preview.date != WeekDate(weekStart, preview.day)
    ensures InviteConfirmAsWritten([preview], weekStart, preview) == [preview]
    ensures InviteConfirm([preview], preview) == [preview.(status := Confirmed)]
  {
    assert !At([preview][0], preview.day, preview.time, WeekDate(weekStart, preview.day));
  }

  datatype InviteResult = Thrown(message: Option<string>) | Responded(ok: bool, error: Option<string>)

  class SchedulingPage {
    var shortlisted: seq<ShortlistedCandidate>
    var schedule: seq<Slot>
    /** The schedule kept in localStorage. */
    var saved: Option<seq<Slot>>
    var weekStart: int
    var selectedCandidate: Option<ShortlistedCandidate>
    var showEmailPreview: bool
    var previewSlot: Option<Slot>
    var sending: bool
    var sent: bool
    var sendError: string

    /**
     * The page mounting on day `today`: the week of today, the shortlist
     * from the stored ranking and statuses, and the stored schedule.
     */
    constructor (today: int, ranked: seq<Candidates.RankedCandidate>, statusMap: map<string, string>, saved0: Option<seq<Slot>>)
      ensures weekStart % 7 == 1 && weekStart <= today < weekStart + 7
      ensures shortlisted == Shortlist(ranked, statusMap)
      ensures schedule == saved0.GetOr([]) && saved == saved0
      ensures selectedCandidate == None && previewSlot == None && !showEmailPreview
      ensures !sending && !sent && sendError == ""
    {
      var monday := GetMonday(today);
      weekStart := monday;
      shortlisted := Shortlist(ranked, statusMap);
      schedule := if saved0.Some? then saved0.value else [];
      saved := saved0;
      selectedCandidate, previewSlot, showEmailPreview := None, None, false;
      sending, sent, sendError := false, false, "";
    }

    method SaveSchedule(updated: seq<Slot>)
      modifies this`schedule, this`saved
      ensures schedule == updated && saved == Some(updated)
    {
      schedule := updated;
      saved := Some(updated);
    }

    /** `bookSlot(day, time)`: a pending booking for the selected candidate, if the key is free. */
    method BookSlot(day: WeekDay, time: TimeSlot)
      modifies this`schedule, this`saved, this`selectedCandidate
      ensures old(selectedCandidate).None? || FindSlot(old(schedule), day, time, WeekDate(weekStart, day)).Some? ==>
        schedule == old(schedule) && saved == old(saved) && selectedCandidate == old(selectedCandidate)
      ensures old(selectedCandidate).Some? && FindSlot(old(schedule), day, time, WeekDate(weekStart, day)).None? ==>
        && schedule == old(schedule) + [Slot(old(selectedCandidate).value.id, old(selectedCandidate).value.name,
                                             old(selectedCandidate).value.email, WeekDate(weekStart, day), day, time, Pending)]
        && saved == Some(schedule)
        && selectedCandidate == None
      ensures NoDoubleBooking(old(schedule)) ==> NoDoubleBooking(schedule)
    {
      if selectedCandidate.None? {
        return;
      }
      var weekDates := GetWeekDates(weekStart);
      if FindSlot(schedule, day, time, weekDates[day]).Some? {
        return;
      }
      var c := selectedCandidate.value;
      var newSlot := Slot(c.id, c.name, c.email, weekDates[day], day, time, Pending);
      if NoDoubleBooking(schedule) {
        BookKeepsNoDoubleBooking(schedule, newSlot);
      }
      SaveSchedule(schedule + [newSlot]);
      selectedCandidate := None;
    }

    /** `confirmSlot(day, time)` in the week on screen. */
    method ConfirmSlot(day: WeekDay, time: TimeSlot)
      modifies this`schedule, this`saved
      ensures schedule == ConfirmAt(old(schedule), day, time, WeekDate(weekStart, day)) && saved == Some(schedule)
      ensures NoDoubleBooking(old(schedule)) ==> NoDoubleBooking(schedule)
    {
      var weekDates := GetWeekDates(weekStart);
      if NoDoubleBooking(schedule) {
        ConfirmKeepsNoDoubleBooking(schedule, day, time, weekDates[day]);
      }
      SaveSchedule(ConfirmAt(schedule, day, time, weekDates[day]));
    }

    /** `removeSlot(day, time)`: drops the bookings at the key; closes a preview of that day and time. */
    method RemoveSlot(day: WeekDay, time: TimeSlot)
      modifies this`schedule, this`saved, this`showEmailPreview, this`previewSlot
      ensures schedule == RemoveAt(old(schedule), day, time, WeekDate(old(weekStart), day)) && saved == Some(schedule)
      ensures NoDoubleBooking(old(schedule)) ==> NoDoubleBooking(schedule)
      ensures old(previewSlot).Some? && old(previewSlot).value.day == day && old(previewSlot).value.time == time ==>
        previewSlot == None && !showEmailPreview
      ensures !(old(previewSlot).Some? && old(previewSlot).value.day == day && old(previewSlot).value.time == time) ==>
        previewSlot == old(previewSlot) && showEmailPreview == old(showEmailPreview)
    {
      var weekDates := GetWeekDates(weekStart);
      if NoDoubleBooking(schedule) {
        RemoveKeepsNoDoubleBooking(schedule, day, time, weekDates[day]);
      }
      SaveSchedule(RemoveAt(schedule, day, time, weekDates[day]));
      if previewSlot.Some? && previewSlot.value.day == day && previewSlot.value.time == time {
        showEmailPreview := false;
        previewSlot := None;
      }
    }

    method PrevWeek()
      modifies this`weekStart
      ensures weekStart == old(weekStart) - 7 && weekStart % 7 == old(weekStart) % 7
    {
      weekStart := weekStart - 7;
    }

    method NextWeek()
      modifies this`weekStart
      ensures weekStart == old(weekStart) + 7 && weekStart % 7 == old(weekStart) % 7
    {
      weekStart := weekStart + 7;
    }

    /** A candidate button: selects the candidate, or deselects it when already selected; closes the preview. */
    method SelectCandidate(c: ShortlistedCandidate)
      modifies this`selectedCandidate, this`showEmailPreview, this`previewSlot
      ensures old(selectedCandidate).Some? && old(selectedCandidate).value.id == c.id ==> selectedCandidate == None
      ensures !(old(selectedCandidate).Some? && old(selectedCandidate).value.id == c.id) ==> selectedCandidate == Some(c)
      ensures previewSlot == None && !showEmailPreview
    {
      selectedCandidate := if selectedCandidate.Some? && selectedCandidate.value.id == c.id then None else Some(c);
      showEmailPreview := false;
      previewSlot := None;
    }

    /** Clicking a booked cell or an upcoming interview opens its invite preview. */
    method OpenPreview(slot: Slot)
      modifies this`previewSlot, this`showEmailPreview, this`sent, this`sendError
      ensures previewSlot == Some(slot) && showEmailPreview && !sent && sendError == ""
    {
      previewSlot := Some(slot);
      showEmailPreview := true;
      sent := false;
      sendError := "";
    }

    /**
     * `handleSendInvite` with the request's result as a parameter. On
     * success it confirms, as written, the slot at the preview's day and time
     * in the week on screen (see InviteConfirmAsWritten and InviteConfirm).
     */
    method SendInvite(result: InviteResult)
      modifies this`sending, this`sent, this`sendError, this`schedule, this`saved
      ensures old(previewSlot).None? ==>
        sending == old(sending) && sent == old(sent) && sendError == old(sendError)
        && schedule == old(schedule) && saved == old(saved)
      ensures old(previewSlot).Some? ==> !sending
      ensures old(previewSlot).Some? && result.Responded? && result.ok ==>
        sent && sendError == "" && schedule == InviteConfirmAsWritten(old(schedule), weekStart, old(previewSlot).value)
        && saved == Some(schedule)
      ensures NoDoubleBooking(old(schedule)) ==> NoDoubleBooking(schedule)
      ensures old(previewSlot).Some? && result.Responded? && !result.ok ==>
        !sent && sendError == OrElse(result.error, "Invite failed") && schedule == old(schedule) && saved == old(saved)
      ensures old(previewSlot).Some? && result.Thrown? ==>
        !sent && sendError == result.message.GetOr("Network error") && schedule == old(schedule) && saved == old(saved)
    {
      if previewSlot.None? {
        return;
      }
      var preview := previewSlot.value;
      sending := true;
      sent := false;
      sendError := "";
      match result {
        case Responded(ok, error) =>
          if !ok {
            sendError := OrElse(error, "Invite failed");
          } else {
            sent := true;
            ConfirmSlot(preview.day, preview.time);
          }
        case Thrown(message) =>
          sendError := if message.Some? then message.value else "Network error";
      }
      sending := false;
    }
  }
}
