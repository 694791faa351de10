/** Member status and renewal reminders (hooks/useGymData.ts,
    `calculateMemberStatus` and `calculateReminders`). Both dates are taken at
    local midnight, so the difference in milliseconds is a whole number of
    days and `Math.ceil` of it is exact. */
module StatusEngine {
  import opened Wrappers
  import opened Text
  import opened Entities

  const MillisPerDay: int := 1000 * 60 * 60 * 24

  /** `Math.ceil(a / b)` for a positive divisor. */
  function CeilDiv(a: int, b: int): (q: int)
    requires b > 0
    ensures (q - 1) * b < a <= q * b
  {
    -((-a) / b)
  }

  /** `daysLeft`, as the source computes it from two midnights. */
  function DaysLeftMillis(expiryMidnight: int, todayMidnight: int): int {
    CeilDiv(expiryMidnight - todayMidnight, MillisPerDay)
  }

  /** With dates as day numbers, `daysLeft` is the plain difference. */
  function DaysLeft(expiryDay: Day, today: Day): int {
    expiryDay - today
  }

  lemma DaysLeftAgrees(expiryDay: Day, today: Day)
    ensures DaysLeftMillis(expiryDay * MillisPerDay, today * MillisPerDay) == DaysLeft(expiryDay, today)
  {
    var d := expiryDay - today;
    assert expiryDay * MillisPerDay - today * MillisPerDay == d * MillisPerDay;
    var q := DaysLeftMillis(expiryDay * MillisPerDay, today * MillisPerDay);
    assert (q - 1) * MillisPerDay < d * MillisPerDay <= q * MillisPerDay;
    assert (q - 1) < d <= q;
  }

  /** The three-way classification of `daysLeft`. */
  function Classify(daysLeft: int): (s: Status)
    ensures s == Expired <==> daysLeft < 0
    ensures s == Expiring <==> 0 <= daysLeft <= 7
    ensures s == Active <==> daysLeft > 7
  {
    if daysLeft < 0 then Expired
    else if daysLeft <= 7 then Expiring
    else Active
  }

  /** Position of a status on the way from expired to active. */
  function Rank(s: Status): nat {
    match s
    case Expired => 0
    case Expiring => 1
    case Active => 2
  }

  /** A later expiry never gives a worse status, and as the days pass a
      member's status only moves towards expired. */
  lemma ClassifyMonotone(d1: int, d2: int)
    requires d1 <= d2
    ensures Rank(Classify(d1)) <= Rank(Classify(d2))
  {
  }

  /** `calculateMemberStatus(expiryDate)`. The payload of a renewal carries
      no `expiryDate` key, and `new Date(undefined)` is an invalid date whose
      `daysLeft` is NaN: both comparisons fail and the result is "active".
      `None` stands for that missing date. */
  function MemberStatus(expiry: Option<Day>, today: Day): (s: Status)
    ensures expiry.Some? ==> s == Classify(DaysLeft(expiry.value, today))
    ensures expiry.None? ==> s == Active
  {
    match expiry
    case Some(e) => Classify(DaysLeft(e, today))
    case None => Active
  }

  /** The reminder window of `calculateReminders`: `0 < daysLeft <= 7`. */
  predicate InReminderWindow(m: Member, today: Day) {
    0 < DaysLeft(m.expiryDay, today) <= 7
  }

  /** "N month" with an "s" when N > 1. */
  function PlanLabel(months: int): (r: string)
    ensures r == IntToString(months) + (if months > 1 then " months" else " month")
  {
    IntToString(months) + " month" + (if months > 1 then "s" else "")
  }

  function ToReminder(m: Member, today: Day): (r: Reminder)
    ensures r.id == m.id && r.memberName == m.name && r.phone == m.phone
    ensures r.daysLeft == DaysLeft(m.expiryDay, today)
    ensures r.status == "pending" && r.plan == PlanLabel(m.planDuration)
  {
    Reminder(m.id, m.name, DaysLeft(m.expiryDay, today), PlanLabel(m.planDuration), "pending", m.phone)
  }

  /** The filter-then-map stage, before sorting. */
  function Candidates(ms: seq<Member>, today: Day): seq<Reminder>
    decreases |ms|
  {
    if |ms| == 0 then []
    else
      var first := if InReminderWindow(ms[0], today) then [ToReminder(ms[0], today)] else [];
      first + Candidates(ms[1..], today)
  }

  /** Place `r` before the first reminder whose `daysLeft` is not smaller:
      `r` came earlier in the input than all of `sorted`, so ties keep input
      order. */
  function Insert(r: Reminder, sorted: seq<Reminder>): seq<Reminder>
    decreases |sorted|
  {
    if |sorted| == 0 then [r]
    else if r.daysLeft <= sorted[0].daysLeft then [r] + sorted
    else [sorted[0]] + Insert(r, sorted[1..])
  }

  /** `.sort((a, b) => a.daysLeft - b.daysLeft)`; `Array.prototype.sort` is
      stable, and so is this insertion sort. */
  function SortByDaysLeft(rs: seq<Reminder>): seq<Reminder>
    decreases |rs|
  {
    if |rs| == 0 then [] else Insert(rs[0], SortByDaysLeft(rs[1..]))
  }

  /** `calculateReminders(members)` on day `today`. */
  function Reminders(ms: seq<Member>, today: Day): seq<Reminder> {
    SortByDaysLeft(Candidates(ms, today))
  }

  ghost predicate SortedByDaysLeft(rs: seq<Reminder>) {
    forall i, j :: 0 <= i < j < |rs| ==> rs[i].daysLeft <= rs[j].daysLeft
  }

  /** The reminders with `daysLeft == k`, in order. */
  function WithDaysLeft(rs: seq<Reminder>, k: int): seq<Reminder>
    decreases |rs|
  {
    if |rs| == 0 then []
    else (if rs[0].daysLeft == k then [rs[0]] else []) + WithDaysLeft(rs[1..], k)
  }

  lemma {:induction false} WithDaysLeftAppend(a: seq<Reminder>, b: seq<Reminder>, k: int)
    ensures WithDaysLeft(a + b, k) == WithDaysLeft(a, k) + WithDaysLeft(b, k)
    decreases |a|
  {
    if |a| == 0 {
      assert a + b == b;
    } else {
      assert (a + b)[0] == a[0];
      assert (a + b)[1..] == a[1..] + b;
      WithDaysLeftAppend(a[1..], b, k);
      AppendAssoc(if a[0].daysLeft == k then [a[0]] else [], WithDaysLeft(a[1..], k), WithDaysLeft(b, k));
    }
  }

  ghost predicate AllAtLeast(rs: seq<Reminder>, b: int) {
    forall i :: 0 <= i < |rs| ==> b <= rs[i].daysLeft
  }

  lemma {:induction false} InsertBound(r: Reminder, s: seq<Reminder>, b: int)
    requires AllAtLeast(s, b) && b <= r.daysLeft
    ensures AllAtLeast(Insert(r, s), b)
    decreases |s|
  {
    if |s| > 0 && r.daysLeft > s[0].daysLeft {
      InsertBound(r, s[1..], b);
    }
  }

  lemma {:induction false} InsertPermutes(r: Reminder, s: seq<Reminder>)
    ensures multiset(Insert(r, s)) == multiset(s) + multiset{r}
    decreases |s|
  {
    if |s| > 0 && r.daysLeft > s[0].daysLeft {
      InsertPermutes(r, s[1..]);
      assert s == [s[0]] + s[1..];
    }
  }

  lemma {:induction false} InsertSorted(r: Reminder, s: seq<Reminder>)
    requires SortedByDaysLeft(s)
    ensures SortedByDaysLeft(Insert(r, s))
    decreases |s|
  {
    if |s| > 0 {
      if r.daysLeft > s[0].daysLeft {
        var t := Insert(r, s[1..]);
        InsertSorted(r, s[1..]);
        InsertBound(r, s[1..], s[0].daysLeft);
        assert Insert(r, s) == [s[0]] + t;
      } else {
        assert AllAtLeast(s, s[0].daysLeft);
      }
    }
  }

  lemma {:induction false} InsertWithDaysLeft(r: Reminder, s: seq<Reminder>, k: int)
    ensures WithDaysLeft(Insert(r, s), k) == WithDaysLeft([r], k) + WithDaysLeft(s, k)
    decreases |s|
  {
    if |s| == 0 {
    } else if r.daysLeft <= s[0].daysLeft {
      WithDaysLeftAppend([r], s, k);
    } else {
      InsertWithDaysLeft(r, s[1..], k);
      WithDaysLeftAppend([s[0]], Insert(r, s[1..]), k);
      WithDaysLeftAppend([s[0]], s[1..], k);
      assert [s[0]] + s[1..] == s;
    }
  }

  /** The sort puts the reminders in non-decreasing `daysLeft` order, is a
      permutation of its input, and is stable: for every value of `daysLeft`
      the reminders with that value come out in the order they went in. */
  lemma SortByDaysLeftCorrect(rs: seq<Reminder>)
    ensures SortedByDaysLeft(SortByDaysLeft(rs))
    ensures multiset(SortByDaysLeft(rs)) == multiset(rs)
    ensures forall k :: WithDaysLeft(SortByDaysLeft(rs), k) == WithDaysLeft(rs, k)
  {
    SortIsSorted(rs);
    SortPermutes(rs);
    forall k ensures WithDaysLeft(SortByDaysLeft(rs), k) == WithDaysLeft(rs, k) {
      SortIsStable(rs, k);
    }
  }

  lemma {:induction false} SortIsSorted(rs: seq<Reminder>)
    ensures SortedByDaysLeft(SortByDaysLeft(rs))
    decreases |rs|
  {
    if |rs| > 0 {
      SortIsSorted(rs[1..]);
      InsertSorted(rs[0], SortByDaysLeft(rs[1..]));
    }
  }

  lemma {:induction false} SortPermutes(rs: seq<Reminder>)
    ensures multiset(SortByDaysLeft(rs)) == multiset(rs)
    decreases |rs|
  {
    if |rs| > 0 {
      SortPermutes(rs[1..]);
      InsertPermutes(rs[0], SortByDaysLeft(rs[1..]));
      assert rs == [rs[0]] + rs[1..];
    }
  }

  lemma {:induction false} SortIsStable(rs: seq<Reminder>, k: int)
    ensures WithDaysLeft(SortByDaysLeft(rs), k) == WithDaysLeft(rs, k)
    decreases |rs|
  {
    if |rs| > 0 {
      SortIsStable(rs[1..], k);
      InsertWithDaysLeft(rs[0], SortByDaysLeft(rs[1..]), k);
      WithDaysLeftAppend([rs[0]], rs[1..], k);
      assert rs == [rs[0]] + rs[1..];
    }
  }

  lemma {:induction false} CandidatesAppend(a: seq<Member>, b: seq<Member>, today: Day)
    ensures Candidates(a + b, today) == Candidates(a, today) + Candidates(b, today)
    decreases |a|
  {
    if |a| == 0 {
      assert a + b == b;
    } else {
      assert (a + b)[0] == a[0];
      assert (a + b)[1..] == a[1..] + b;
      CandidatesAppend(a[1..], b, today);
      var first := if InReminderWindow(a[0], today) then [ToReminder(a[0], today)] else [];
      AppendAssoc(first, Candidates(a[1..], today), Candidates(b, today));
    }
  }

  lemma {:induction false} CandidatesMembers(ms: seq<Member>, today: Day)
    ensures forall r :: r in Candidates(ms, today) <==>
      exists m :: m in ms && InReminderWindow(m, today) && r == ToReminder(m, today)
    decreases |ms|
  {
    if |ms| > 0 {
      CandidatesMembers(ms[1..], today);
      assert ms == [ms[0]] + ms[1..];
      assert forall m :: m in ms <==> m == ms[0] || m in ms[1..];
    }
  }

  /** `calculateReminders` produces one reminder per member in the window,
      in non-decreasing `daysLeft` order, ties in member order: the result is
      the sorted permutation of the filtered-and-mapped members, and a member
      outside the window contributes nothing. */
  lemma RemindersCorrect(ms: seq<Member>, today: Day)
    ensures SortedByDaysLeft(Reminders(ms, today))
    ensures multiset(Reminders(ms, today)) == multiset(Candidates(ms, today))
    ensures forall k :: WithDaysLeft(Reminders(ms, today), k) == WithDaysLeft(Candidates(ms, today), k)
    ensures forall r :: r in Reminders(ms, today) ==> 0 < r.daysLeft <= 7 && r.status == "pending"
  {
    var cs := Candidates(ms, today);
    SortByDaysLeftCorrect(cs);
    CandidatesInWindow(ms, today);
    forall r | r in Reminders(ms, today)
      ensures 0 < r.daysLeft <= 7 && r.status == "pending"
    {
      assert r in multiset(Reminders(ms, today));
      assert r in multiset(cs);
      assert r in cs;
    }
  }

  lemma {:induction false} CandidatesInWindow(ms: seq<Member>, today: Day)
    ensures forall r :: r in Candidates(ms, today) ==> 0 < r.daysLeft <= 7 && r.status == "pending"
    decreases |ms|
  {
    if |ms| > 0 {
      CandidatesInWindow(ms[1..], today);
    }
  }

  /** A member has a reminder exactly when `0 < daysLeft <= 7`. */
  lemma ReminderIffWindow(ms: seq<Member>, m: Member, today: Day)
    requires m in ms
    ensures ToReminder(m, today) in Reminders(ms, today) <==> InReminderWindow(m, today)
  {
    RemindersCorrect(ms, today);
    CandidatesMembers(ms, today);
    var r := ToReminder(m, today);
    assert r in Reminders(ms, today) <==> r in Candidates(ms, today) by {
      assert r in Reminders(ms, today) <==> r in multiset(Reminders(ms, today));
    }
    if r in Candidates(ms, today) {
      var m' :| m' in ms && InReminderWindow(m', today) && r == ToReminder(m', today);
      assert DaysLeft(m'.expiryDay, today) == DaysLeft(m.expiryDay, today);
    }
  }

  /** Every reminder stands for a member in the window, and carries that
      member's id, name and phone. */
  lemma ReminderHasMember(ms: seq<Member>, r: Reminder, today: Day)
    requires r in Reminders(ms, today)
    ensures exists m :: (m in ms && InReminderWindow(m, today)
      && r.id == m.id && r.memberName == m.name && r.phone == m.phone
      && r.daysLeft == DaysLeft(m.expiryDay, today) && r.plan == PlanLabel(m.planDuration))
  {
    RemindersCorrect(ms, today);
    CandidatesMembers(ms, today);
    assert r in multiset(Reminders(ms, today));
    assert r in Candidates(ms, today);
    var m :| m in ms && InReminderWindow(m, today) && r == ToReminder(m, today);
  }

  /** The boundary the source keeps: a member due today is "expiring" but
      gets no reminder. */
  lemma DueTodayHasNoReminder(ms: seq<Member>, m: Member, today: Day)
    requires m in ms && m.expiryDay == today
    ensures Classify(DaysLeft(m.expiryDay, today)) == Expiring
    ensures ToReminder(m, today) !in Reminders(ms, today)
  {
    ReminderIffWindow(ms, m, today);
  }
}
