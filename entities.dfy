/** The records the gym application keeps for one owner account: members,
    payments, plans, attendance records, branches and staff, and the derived
    renewal reminders. Calendar dates are whole day numbers (days since
    1970-01-01); an optional field the store may leave `null` or a caller may
    leave `undefined` is an `Option`. */
module Entities {
  import opened Wrappers

  type Day = int

  /** Lifecycle status of a member, always derived from the expiry date. */
  datatype Status = Active | Expiring | Expired

  /** The text the source stores and renders for a status. */
  function StatusName(s: Status): (r: string)
    ensures r in {"active", "expiring", "expired"}
  {
    match s
    case Active => "active"
    case Expiring => "expiring"
    case Expired => "expired"
  }

  lemma StatusNameInjective(a: Status, b: Status)
    ensures StatusName(a) == StatusName(b) <==> a == b
  {
  }

  datatype Member = Member(
    id: string,
    name: string,
    email: string,
    phone: string,
    planDuration: int,      // months
    joiningDay: Day,
    expiryDay: Day,
    status: Status,
    qrToken: Option<string>)

  /** `status` is kept as text: the cache writes "done" or "pending", other
      code compares it with "completed". */
  datatype Payment = Payment(
    id: string,
    memberId: string,
    memberName: Option<string>,
    amount: int,
    paymentDay: Option<Day>,
    paymentMethod: string,
    status: Option<string>,
    planName: Option<string>)

  datatype Plan = Plan(
    id: string,
    name: string,
    price: int,
    duration: int,          // months
    features: Option<seq<string>>)

  /** `checkInDay` is the local calendar day of the check-in instant and
      `checkInClock` its "hh:mm a" rendering. */
  datatype AttendanceRecord = AttendanceRecord(
    id: string,
    memberId: string,
    memberName: string,
    checkInDay: Day,
    checkInClock: string)

  datatype Branch = Branch(id: string, name: string)

  datatype StaffMember = StaffMember(id: string, name: string)

  datatype ActivityEntry = ActivityEntry(kind: string, description: string)

  /** A page toast: title, description, and whether it is the destructive
      (error) variant. */
  datatype Notice = Notice(title: string, description: string, destructive: bool)

  /** A renewal reminder: never stored, recomputed from the members. */
  datatype Reminder = Reminder(
    id: string,
    memberName: string,
    daysLeft: int,
    plan: string,
    status: string,
    phone: string)

  function MemberId(m: Member): string { m.id }
  function PaymentId(p: Payment): string { p.id }
  function PlanId(p: Plan): string { p.id }
}
