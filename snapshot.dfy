/** The snapshot a fetch builds for one account (hooks/useGymData.ts,
    `fetcher`): every member's status is recomputed, a payment without a
    status gets "done", a sub-query that returned no data becomes an empty
    list, and the reminders are computed from the recomputed members. */
module Snapshot {
  import opened Wrappers
  import opened Text
  import opened Entities
  import opened StatusEngine

  /** The signed-in account as the auth service reports it. */
  datatype AuthUser = AuthUser(id: string, email: Option<string>, metadataName: Option<string>)

  /** The owner's row of the `users` table; every column may be null. */
  datatype Profile = Profile(
    name: Option<string>,
    email: Option<string>,
    phone: Option<string>,
    gymName: Option<string>,
    role: Option<string>)

  datatype UserData = UserData(id: string, ownerName: string, email: string, phone: string, gymName: string, role: string)

  /** What the seven parallel reads returned; `None` is a `null` data field. */
  datatype RawSnapshot = RawSnapshot(
    profile: Option<Profile>,
    branches: Option<seq<Branch>>,
    members: Option<seq<Member>>,
    payments: Option<seq<Payment>>,
    plans: Option<seq<Plan>>,
    staff: Option<seq<StaffMember>>,
    attendance: Option<seq<AttendanceRecord>>)

  datatype Snapshot = Snapshot(
    user: Option<UserData>,
    branches: seq<Branch>,
    currentBranch: Option<Branch>,
    staff: seq<StaffMember>,
    members: seq<Member>,
    payments: seq<Payment>,
    plans: seq<Plan>,
    attendance: seq<AttendanceRecord>,
    activityLog: seq<ActivityEntry>,
    reminders: seq<Reminder>)

  /** The cache before anything was fetched (SWR `data` undefined). */
  const EmptySnapshot := Snapshot(None, [], None, [], [], [], [], [], [], [])

  /** `email.split("@")[0]` */
  function BeforeAt(email: string): (r: string)
    ensures r == Split(email, '@')[0]
    ensures '@' !in r
  {
    email[..IndexOf(email, '@')]
  }

  /** `profile?.name || authUser?.user_metadata?.name ||
      authUser?.email?.split("@")[0] || "User"` */
  function OwnerName(profile: Option<Profile>, auth: Option<AuthUser>): (r: string)
    ensures r != ""
  {
    var fromProfile := if profile.Some? then profile.value.name else None;
    var fromMetadata := if auth.Some? then auth.value.metadataName else None;
    var fromEmail := if auth.Some? && auth.value.email.Some? then Some(BeforeAt(auth.value.email.value)) else None;
    OrElse(fromProfile, OrElse(fromMetadata, OrElse(fromEmail, "User")))
  }

  function ProfileField(profile: Option<Profile>, f: Profile -> Option<string>): Option<string> {
    if profile.Some? then f(profile.value) else None
  }

  function MakeUserData(userId: string, profile: Option<Profile>, auth: Option<AuthUser>): (u: UserData)
    ensures u.id == userId && u.ownerName != "" && u.gymName != "" && u.role != ""
    ensures u.gymName == OrElse(ProfileField(profile, (p: Profile) => p.gymName), "My Gym")
    ensures u.role == OrElse(ProfileField(profile, (p: Profile) => p.role), "owner")
  {
    var authEmail := if auth.Some? then auth.value.email else None;
    UserData(
      userId,
      OwnerName(profile, auth),
      OrElse(ProfileField(profile, (p: Profile) => p.email), OrElse(authEmail, "")),
      OrElse(ProfileField(profile, (p: Profile) => p.phone), ""),
      OrElse(ProfileField(profile, (p: Profile) => p.gymName), "My Gym"),
      OrElse(ProfileField(profile, (p: Profile) => p.role), "owner"))
  }

  /** `{...member, status: calculateMemberStatus(member.expiry_date)}` */
  function WithStatus(m: Member, today: Day): Member {
    m.(status := Classify(DaysLeft(m.expiryDay, today)))
  }

  function RecomputeStatuses(ms: seq<Member>, today: Day): seq<Member> {
    seq(|ms|, i requires 0 <= i < |ms| => WithStatus(ms[i], today))
  }

  /** `{...payment, status: payment.status || "done"}` */
  function WithDefaultStatus(p: Payment): Payment {
    p.(status := Some(OrElse(p.status, "done")))
  }

  function DefaultPaymentStatuses(ps: seq<Payment>): seq<Payment> {
    seq(|ps|, i requires 0 <= i < |ps| => WithDefaultStatus(ps[i]))
  }

  /** The snapshot `fetcher(userId)` returns, `auth` being the signed-in
      account the fetcher closes over and `today` the day it runs. */
  function Fetch(raw: RawSnapshot, userId: string, auth: Option<AuthUser>, today: Day): Snapshot {
    var branches := raw.branches.GetOr([]);
    var members := RecomputeStatuses(raw.members.GetOr([]), today);
    Snapshot(
      Some(MakeUserData(userId, raw.profile, auth)),
      branches,
      if |branches| > 0 then Some(branches[0]) else None,
      raw.staff.GetOr([]),
      members,
      DefaultPaymentStatuses(raw.payments.GetOr([])),
      raw.plans.GetOr([]),
      raw.attendance.GetOr([]),
      [],
      Reminders(members, today))
  }

  /** Every member's status is the one its expiry date gives on `today`. */
  ghost predicate StatusesCurrent(ms: seq<Member>, today: Day) {
    forall i :: 0 <= i < |ms| ==> ms[i].status == Classify(DaysLeft(ms[i].expiryDay, today))
  }

  /** What a fetch guarantees: the stored status is discarded and recomputed
      for every member, a payment keeps a non-empty status and otherwise
      reads "done", counts and order are kept (only the status changes), a
      missing sub-result is an empty list, and the reminders are those of the
      recomputed members. */
  lemma FetchNormalises(raw: RawSnapshot, userId: string, auth: Option<AuthUser>, today: Day)
    ensures var s := Fetch(raw, userId, auth, today);
      && StatusesCurrent(s.members, today)
      && |s.members| == |raw.members.GetOr([])|
      && (forall i :: 0 <= i < |s.members| ==> s.members[i] == raw.members.GetOr([])[i].(status := s.members[i].status))
      && |s.payments| == |raw.payments.GetOr([])|
      && (forall i :: 0 <= i < |s.payments| ==>
            var p := raw.payments.GetOr([])[i];
            s.payments[i] == p.(status := Some(if Truthy(p.status) then p.status.value else "done")))
      && (raw.members.None? ==> s.members == [])
      && (raw.payments.None? ==> s.payments == [])
      && (raw.plans.None? ==> s.plans == [])
      && (raw.attendance.None? ==> s.attendance == [])
      && s.activityLog == []
      && s.reminders == Reminders(s.members, today)
      && s.user.Some? && s.user.value.id == userId
  {
  }

  /** Fetching the same rows again on the same day yields the same statuses
      and reminders: recomputing a recomputed list changes nothing. */
  lemma RecomputeIdempotent(ms: seq<Member>, today: Day)
    ensures RecomputeStatuses(RecomputeStatuses(ms, today), today) == RecomputeStatuses(ms, today)
    ensures Reminders(RecomputeStatuses(ms, today), today) == Reminders(ms, today)
  {
    CandidatesIgnoreStatus(ms, RecomputeStatuses(ms, today), today);
  }

  /** Reminders read only the expiry date, id, name, phone and plan duration,
      so lists that differ only in statuses have the same reminders. */
  lemma {:induction false} CandidatesIgnoreStatus(a: seq<Member>, b: seq<Member>, today: Day)
    requires |a| == |b|
    requires forall i :: 0 <= i < |a| ==> b[i] == a[i].(status := b[i].status)
    ensures Candidates(a, today) == Candidates(b, today)
    decreases |a|
  {
    if |a| > 0 {
      CandidatesIgnoreStatus(a[1..], b[1..], today);
      assert ToReminder(a[0], today) == ToReminder(b[0], today);
    }
  }

  /** The owner name is never empty: it falls back to the e-mail's local
      part and finally to "User". */
  lemma OwnerNameFallbacks(auth: AuthUser)
    ensures OwnerName(None, Some(auth)) ==
      if Truthy(auth.metadataName) then auth.metadataName.value
      else if auth.email.Some? && BeforeAt(auth.email.value) != "" then BeforeAt(auth.email.value)
      else "User"
  {
  }
}
