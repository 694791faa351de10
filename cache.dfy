/** The per-account cache and its `dispatch` actions (hooks/useGymData.ts).
    Every action that changes a collection first publishes an optimistic
    snapshot, then sends one write to the store, and on the store's answer
    either publishes the confirmed snapshot, logs an activity and shows a
    success toast, or shows "Error: <message>" and asks for a refetch while
    the optimistic snapshot stays in place.

    The store is not modelled: what it answers is the `reply` parameter, and
    what the cache asked of it is appended to `writes`. The two readings of
    the clock and the random suffix of a QR token are parameters too. */
module Cache {
  import opened Wrappers
  import opened Text
  import opened Entities
  import opened StatusEngine
  import opened ListOps
  import opened Snapshot

  /** What the store answered a write with: the row it wrote (`()` for a
      delete or a profile update), or the error message it reported. */
  datatype Reply<T> = Confirmed(row: T) | Failed(message: string)

  datatype Toast = Success(text: string) | Failure(text: string)

  /** One write sent to the store. The member update and delete carry no
      owner: they are filtered by row id only, while every payment and plan
      write is also filtered by the owner's id. */
  datatype StoreWrite =
    | InsertMember(owner: string, name: string, email: string, phone: string, joinDay: Day,
                   planDuration: int, expiryDay: Day, memberStatus: Status, qrToken: string)
    | UpdateMember(id: string, name: string, email: string, phone: string, newJoinDay: Option<Day>,
                   newPlanDuration: Option<int>, newExpiryDay: Option<Day>, memberStatus: Status)
    | DeleteMember(id: string)
    | InsertPayment(owner: string, memberId: string, memberName: string, amount: int,
                    paymentMethod: string, paymentDay: Day, paymentStatus: string)
    | UpdatePayment(id: string, owner: string, memberName: string, amount: int, paymentMethod: string,
                    paymentDay: Day, newStatus: Option<string>, planName: Option<string>)
    | DeletePayment(id: string, owner: string)
    | InsertPlan(owner: string, name: string, price: int, duration: int, features: seq<string>)
    | UpdatePlan(id: string, owner: string, name: string, price: int, duration: int, features: seq<string>)
    | DeletePlan(id: string, owner: string)
    | UpdateProfile(id: string, name: string, email: string, gymName: string)
    | LogActivity(owner: string, kind: string, description: string)

  /** Payload of ADD_MEMBER. */
  datatype NewMember = NewMember(name: string, email: string, phone: string, planDuration: int, joinDay: Day, expiryDay: Day)

  /** Payload of UPDATE_MEMBER. The edit form sends camelCase keys
      (`planDuration`, `joinDate`, `expiryDate`); a renewal sends the row's
      own snake_case keys (`plan_duration`, `joining_date`, `expiry_date`)
      and `status: "active"`. Which spelling was used decides what the
      action does with the dates. */
  datatype MemberChanges =
    | Edit(id: string, name: string, email: string, phone: string, planDuration: int, joinDay: Day, expiryDay: Day)
    | Renew(id: string, name: string, email: string, phone: string, planDuration: int, joinDay: Day, expiryDay: Day)

  /** Payload of ADD_PAYMENT. */
  datatype NewPayment = NewPayment(memberName: string, amount: int, mode: string, paymentDay: Option<Day>, planName: Option<string>)

  /** Payload of UPDATE_PAYMENT; `None` is a key the payload leaves out. */
  datatype PaymentChanges = PaymentChanges(
    id: string, memberName: string, amount: int, mode: string,
    paymentDay: Option<Day>, status: Option<string>, planName: Option<string>)

  /** Payload of ADD_PLAN and UPDATE_PLAN (`id` is ignored by ADD_PLAN). */
  datatype PlanChanges = PlanChanges(id: string, name: string, price: int, duration: int, features: Option<seq<string>>)

  /** Payload of UPDATE_PROFILE. */
  datatype ProfileChanges = ProfileChanges(name: string, email: string, gymName: string)

  /** The message of the `TypeError` raised by reading `id` of a null user. */
  const NullUserMessage := "Cannot read properties of null (reading 'id')"

  /** The rupee sign as the source file's bytes decode under Windows-1252. */
  const Rupee := "â‚¹"

  function ErrorToast(message: string): Toast {
    Failure("Error: " + message)
  }

  /** `temp-${Date.now()}` */
  function TempId(clock: nat): string {
    "temp-" + NatToString(clock)
  }

  /** `${authUser.id}-${Date.now()}-${random}` */
  function QrToken(uid: string, clock: nat, nonce: string): string {
    uid + "-" + NatToString(clock) + "-" + nonce
  }

  /** `{...data, members: ms, reminders: calculateReminders(ms)}` */
  function WithMembers(s: Snapshot, ms: seq<Member>, today: Day): Snapshot {
    s.(members := ms, reminders := Reminders(ms, today))
  }

  function Always<T>(x: T): T -> T {
    _ => x
  }

  function MemberWithId(id: string): Member -> bool {
    (m: Member) => m.id == id
  }

  function MemberNamed(name: string): Member -> bool {
    (m: Member) => m.name == name
  }

  function PaymentWithId(id: string): Payment -> bool {
    (p: Payment) => p.id == id
  }

  function PlanWithId(id: string): Plan -> bool {
    (p: Plan) => p.id == id
  }

  /** The optimistic row ADD_MEMBER shows until the store answers. */
  function ProvisionalMember(p: NewMember, clock: nat, st: Status, token: string): Member {
    Member(TempId(clock), p.name, p.email, p.phone, p.planDuration, p.joinDay, p.expiryDay, st, Some(token))
  }

  /** `calculateMemberStatus(payload.expiryDate)`: a renewal has no
      `expiryDate` key, so the date is invalid and the status "active". */
  function ChangeStatus(c: MemberChanges, today: Day): Status {
    MemberStatus(if c.Edit? then Some(c.expiryDay) else None, today)
  }

  /** `{...m, ...payload, status}`: of an edit's keys only `id`, `name`,
      `email` and `phone` are fields of a member; a renewal's keys are all
      fields, and its status is overridden by the computed one. */
  function MergeMember(m: Member, c: MemberChanges, today: Day): Member {
    var st := ChangeStatus(c, today);
    if c.Edit? then m.(id := c.id, name := c.name, email := c.email, phone := c.phone, status := st)
    else m.(id := c.id, name := c.name, email := c.email, phone := c.phone, planDuration := c.planDuration,
            joiningDay := c.joinDay, expiryDay := c.expiryDay, status := st)
  }

  function MergeMemberFn(c: MemberChanges, today: Day): Member -> Member {
    (m: Member) => MergeMember(m, c, today)
  }

  /** The update UPDATE_MEMBER sends: the camelCase keys of an edit, and
      `undefined` (a column left unchanged) for the dates of a renewal. */
  function MemberUpdate(c: MemberChanges, st: Status): StoreWrite {
    if c.Edit? then UpdateMember(c.id, c.name, c.email, c.phone, Some(c.joinDay), Some(c.planDuration), Some(c.expiryDay), st)
    else UpdateMember(c.id, c.name, c.email, c.phone, None, None, None, st)
  }

  /** `{...p, ...payload}`: only `id`, `amount` and `status` are shared keys. */
  function MergePayment(p: Payment, c: PaymentChanges): Payment {
    p.(id := c.id, amount := c.amount, status := if c.status.Some? then c.status else p.status)
  }

  function MergePaymentFn(c: PaymentChanges): Payment -> Payment {
    (p: Payment) => MergePayment(p, c)
  }

  /** `{...p, ...payload}` for a plan: every key is a field. */
  function MergePlan(p: Plan, c: PlanChanges): Plan {
    p.(id := c.id, name := c.name, price := c.price, duration := c.duration,
       features := if c.features.Some? then c.features else p.features)
  }

  function MergePlanFn(c: PlanChanges): Plan -> Plan {
    (p: Plan) => MergePlan(p, c)
  }

  function Quoted(s: string): string {
    "\"" + s + "\""
  }

  class GymCache {
    /** The signed-in account; `None` after sign-out. */
    var authUser: Option<AuthUser>
    /** The snapshot last handed to `mutate`. */
    var data: Snapshot
    /** The day the snapshot's reminders were computed on. */
    var remindersDay: Day
    /** Every write sent to the store, in order. */
    var writes: seq<StoreWrite>
    var toasts: seq<Toast>
    /** A refetch was requested (`mutate(key)` without data). */
    var revalidationPending: bool

    /** The reminders always belong to the members next to them. */
    ghost predicate Valid()
      reads this
    {
      data.reminders == Reminders(data.members, remindersDay)
    }

    constructor (user: Option<AuthUser>)
      ensures Valid()
      ensures authUser == user && data == EmptySnapshot && writes == [] && toasts == [] && !revalidationPending
    {
      authUser := user;
      data := EmptySnapshot;
      remindersDay := 0;
      writes := [];
      toasts := [];
      revalidationPending := false;
    }

    /** A fetch for the signed-in account replaces the snapshot; without an
        account there is no cache key and nothing is fetched. */
    method Revalidate(raw: RawSnapshot, today: Day)
      requires Valid()
      modifies this
      ensures Valid()
      ensures authUser == old(authUser) && writes == old(writes) && toasts == old(toasts)
      ensures authUser.Some? ==> data == Fetch(raw, authUser.value.id, authUser, today) && !revalidationPending
      ensures authUser.None? ==> data == old(data) && revalidationPending == old(revalidationPending)
    {
      if authUser.Some? {
        data := Fetch(raw, authUser.value.id, authUser, today);
        remindersDay := today;
        revalidationPending := false;
      }
    }

    /** `logout`: the account is dropped and, if there was one, its cached
        snapshot is cleared. */
    method Logout()
      requires Valid()
      modifies this
      ensures Valid()
      ensures authUser.None?
      ensures old(authUser).Some? ==> data == EmptySnapshot
      ensures old(authUser).None? ==> data == old(data)
      ensures writes == old(writes) && toasts == old(toasts) && revalidationPending == old(revalidationPending)
    {
      if authUser.Some? {
        data := EmptySnapshot;
      }
      authUser := None;
    }

    /** ADD_MEMBER. The QR token and the temporary id each read the clock:
        `tokenClock` and `clock` are those two readings. */
    method AddMember(p: NewMember, today: Day, tokenClock: nat, clock: nat, nonce: string, reply: Reply<Member>)
      returns (published: seq<Snapshot>)
      requires Valid()
      modifies this
      ensures Valid() && authUser == old(authUser)
      ensures old(authUser).None? ==>
        && published == [] && data == old(data) && writes == old(writes)
        && toasts == old(toasts) + [Failure("Please log in first.")]
        && revalidationPending == old(revalidationPending)
      ensures old(authUser).Some? ==>
        var uid := old(authUser).value.id;
        var st := MemberStatus(Some(p.expiryDay), today);
        var token := QrToken(uid, tokenClock, nonce);
        var optimistic := WithMembers(old(data), [ProvisionalMember(p, clock, st, token)] + old(data).members, today);
        var insert := InsertMember(uid, p.name, p.email, p.phone, p.joinDay, p.planDuration, p.expiryDay, st, token);
        match reply
        case Confirmed(row) =>
          var final := WithMembers(old(data), [row.(status := st)] + Without(old(data).members, MemberId, TempId(clock)), today);
          && published == [optimistic, final] && data == final
          && writes == old(writes) + [insert, LogActivity(uid, "member_added", "Member " + Quoted(p.name) + " added")]
          && toasts == old(toasts) + [Success("Member added successfully!")]
          && revalidationPending == old(revalidationPending)
        case Failed(msg) =>
          && published == [optimistic] && data == optimistic
          && writes == old(writes) + [insert]
          && toasts == old(toasts) + [ErrorToast(msg)]
          && revalidationPending
    {
      if authUser.None? {
        toasts := toasts + [Failure("Please log in first.")];
        return [];
      }
      var uid := authUser.value.id;
      var before := data;
      var st := MemberStatus(Some(p.expiryDay), today);
      var token := QrToken(uid, tokenClock, nonce);
      var optimistic := WithMembers(before, [ProvisionalMember(p, clock, st, token)] + before.members, today);
      data, remindersDay := optimistic, today;
      published := [optimistic];
      writes := writes + [InsertMember(uid, p.name, p.email, p.phone, p.joinDay, p.planDuration, p.expiryDay, st, token)];
      match reply {
        case Failed(msg) =>
          toasts := toasts + [ErrorToast(msg)];
          revalidationPending := true;
        case Confirmed(row) =>
          var final := WithMembers(before, [row.(status := st)] + Without(before.members, MemberId, TempId(clock)), today);
          data := final;
          published := published + [final];
          writes := writes + [LogActivity(uid, "member_added", "Member " + Quoted(p.name) + " added")];
          toasts := toasts + [Success("Member added successfully!")];
      }
    }

    /** UPDATE_MEMBER */
    method UpdateMemberAction(c: MemberChanges, today: Day, reply: Reply<Member>)
      returns (published: seq<Snapshot>)
      requires Valid()
      modifies this
      ensures Valid() && authUser == old(authUser)
      ensures old(authUser).None? ==>
        && published == [] && data == old(data) && writes == old(writes) && toasts == old(toasts)
        && revalidationPending == old(revalidationPending)
      ensures old(authUser).Some? ==>
        var uid := old(authUser).value.id;
        var st := ChangeStatus(c, today);
        var optimistic := WithMembers(old(data), ReplaceWhere(old(data).members, MemberId, c.id, MergeMemberFn(c, today)), today);
        match reply
        case Confirmed(row) =>
          var final := WithMembers(old(data), ReplaceWhere(old(data).members, MemberId, c.id, Always(row.(status := st))), today);
          && published == [optimistic, final] && data == final
          && writes == old(writes) + [MemberUpdate(c, st), LogActivity(uid, "member_updated", "Member " + Quoted(c.name) + " updated")]
          && toasts == old(toasts) + [Success("Member updated successfully!")]
          && revalidationPending == old(revalidationPending)
        case Failed(msg) =>
          && published == [optimistic] && data == optimistic
          && writes == old(writes) + [MemberUpdate(c, st)]
          && toasts == old(toasts) + [ErrorToast(msg)]
          && revalidationPending
    {
      if authUser.None? {
        return [];
      }
      var uid := authUser.value.id;
      var before := data;
      var st := ChangeStatus(c, today);
      var optimistic := WithMembers(before, ReplaceWhere(before.members, MemberId, c.id, MergeMemberFn(c, today)), today);
      data, remindersDay := optimistic, today;
      published := [optimistic];
      writes := writes + [MemberUpdate(c, st)];
      match reply {
        case Failed(msg) =>
          toasts := toasts + [ErrorToast(msg)];
          revalidationPending := true;
        case Confirmed(row) =>
          var final := WithMembers(before, ReplaceWhere(before.members, MemberId, c.id, Always(row.(status := st))), today);
          data := final;
          published := published + [final];
          writes := writes + [LogActivity(uid, "member_updated", "Member " + Quoted(c.name) + " updated")];
          toasts := toasts + [Success("Member updated successfully!")];
      }
    }

    /** DELETE_MEMBER. Without an account the action fails on reading the
        null user's id, before anything is published. */
    method DeleteMemberAction(id: string, today: Day, reply: Reply<()>)
      returns (published: seq<Snapshot>)
      requires Valid()
      modifies this
      ensures Valid() && authUser == old(authUser)
      ensures old(authUser).None? ==>
        && published == [] && data == old(data) && writes == old(writes)
        && toasts == old(toasts) + [ErrorToast(NullUserMessage)]
        && revalidationPending == old(revalidationPending)
      ensures old(authUser).Some? ==>
        var uid := old(authUser).value.id;
        var optimistic := WithMembers(old(data), Without(old(data).members, MemberId, id), today);
        var found := FindFirst(old(data).members, MemberWithId(id));
        && published == [optimistic] && data == optimistic
        && (reply.Confirmed? ==>
              && writes == old(writes) + [DeleteMember(id)]
                 + (if found.Some? then [LogActivity(uid, "member_deleted", "Member " + Quoted(found.value.name) + " deleted")] else [])
              && toasts == old(toasts) + [Success("Member deleted successfully!")]
              && revalidationPending == old(revalidationPending))
        && (reply.Failed? ==>
              && writes == old(writes) + [DeleteMember(id)]
              && toasts == old(toasts) + [ErrorToast(reply.message)]
              && revalidationPending)
    {
      if authUser.None? {
        toasts := toasts + [ErrorToast(NullUserMessage)];
        return [];
      }
      var uid := authUser.value.id;
      var before := data;
      var optimistic := WithMembers(before, Without(before.members, MemberId, id), today);
      data, remindersDay := optimistic, today;
      published := [optimistic];
      var found := FindFirst(before.members, MemberWithId(id));
      writes := writes + [DeleteMember(id)];
      match reply {
        case Failed(msg) =>
          toasts := toasts + [ErrorToast(msg)];
          revalidationPending := true;
        case Confirmed(_) =>
          if found.Some? {
            writes := writes + [LogActivity(uid, "member_deleted", "Member " + Quoted(found.value.name) + " deleted")];
          }
          toasts := toasts + [Success("Member deleted successfully!")];
      }
    }

    /** ADD_PAYMENT: the payment is attached to the first member whose name
        is exactly the one given. */
    method AddPayment(p: NewPayment, today: Day, clock: nat, reply: Reply<Payment>)
      returns (published: seq<Snapshot>)
      requires Valid()
      modifies this
      ensures Valid() && authUser == old(authUser)
      ensures old(authUser).None? ==>
        && published == [] && data == old(data) && writes == old(writes)
        && toasts == old(toasts) + [Failure("Please log in first.")]
        && revalidationPending == old(revalidationPending)
      ensures old(authUser).Some? && FindFirst(old(data).members, MemberNamed(p.memberName)).None? ==>
        && published == [] && data == old(data) && writes == old(writes)
        && toasts == old(toasts) + [Failure("Member not found")]
        && revalidationPending == old(revalidationPending)
      ensures old(authUser).Some? && FindFirst(old(data).members, MemberNamed(p.memberName)).Some? ==>
        var uid := old(authUser).value.id;
        var member := FindFirst(old(data).members, MemberNamed(p.memberName)).value;
        var day := p.paymentDay.GetOr(today);
        var provisional := Payment(TempId(clock), member.id, Some(p.memberName), p.amount, Some(day), p.mode, Some("done"), p.planName);
        var optimistic := old(data).(payments := [provisional] + old(data).payments);
        var insert := InsertPayment(uid, member.id, p.memberName, p.amount, p.mode, day, "done");
        match reply
        case Confirmed(row) =>
          var final := old(data).(payments := [row] + Without(old(data).payments, PaymentId, TempId(clock)));
          && published == [optimistic, final] && data == final
          && writes == old(writes) + [insert, LogActivity(uid, "payment_added",
               "Payment of " + Rupee + IntToString(p.amount) + " added for " + p.memberName)]
          && toasts == old(toasts) + [Success("Payment added successfully!")]
          && revalidationPending == old(revalidationPending)
        case Failed(msg) =>
          && published == [optimistic] && data == optimistic
          && writes == old(writes) + [insert]
          && toasts == old(toasts) + [ErrorToast(msg)]
          && revalidationPending
    {
      if authUser.None? {
        toasts := toasts + [Failure("Please log in first.")];
        return [];
      }
      var found := FindFirst(data.members, MemberNamed(p.memberName));
      if found.None? {
        toasts := toasts + [Failure("Member not found")];
        return [];
      }
      var uid := authUser.value.id;
      var member := found.value;
      var before := data;
      var day := p.paymentDay.GetOr(today);
      var provisional := Payment(TempId(clock), member.id, Some(p.memberName), p.amount, Some(day), p.mode, Some("done"), p.planName);
      var optimistic := before.(payments := [provisional] + before.payments);
      data := optimistic;
      published := [optimistic];
      writes := writes + [InsertPayment(uid, member.id, p.memberName, p.amount, p.mode, day, "done")];
      match reply {
        case Failed(msg) =>
          toasts := toasts + [ErrorToast(msg)];
          revalidationPending := true;
        case Confirmed(row) =>
          var final := before.(payments := [row] + Without(before.payments, PaymentId, TempId(clock)));
          data := final;
          published := published + [final];
          writes := writes + [LogActivity(uid, "payment_added",
            "Payment of " + Rupee + IntToString(p.amount) + " added for " + p.memberName)];
          toasts := toasts + [Success("Payment added successfully!")];
      }
    }

    /** UPDATE_PAYMENT */
    method UpdatePaymentAction(c: PaymentChanges, today: Day, reply: Reply<Payment>)
      returns (published: seq<Snapshot>)
      requires Valid()
      modifies this
      ensures Valid() && authUser == old(authUser)
      ensures old(authUser).None? ==>
        && published == [] && data == old(data) && writes == old(writes) && toasts == old(toasts)
        && revalidationPending == old(revalidationPending)
      ensures old(authUser).Some? ==>
        var uid := old(authUser).value.id;
        var optimistic := old(data).(payments := ReplaceWhere(old(data).payments, PaymentId, c.id, MergePaymentFn(c)));
        var update := UpdatePayment(c.id, uid, c.memberName, c.amount, c.mode, c.paymentDay.GetOr(today), c.status, c.planName);
        match reply
        case Confirmed(row) =>
          var final := old(data).(payments := ReplaceWhere(old(data).payments, PaymentId, c.id, Always(row)));
          && published == [optimistic, final] && data == final
          && writes == old(writes) + [update, LogActivity(uid, "payment_updated", "Payment for " + c.memberName + " updated")]
          && toasts == old(toasts) + [Success("Payment updated successfully!")]
          && revalidationPending == old(revalidationPending)
        case Failed(msg) =>
          && published == [optimistic] && data == optimistic
          && writes == old(writes) + [update]
          && toasts == old(toasts) + [ErrorToast(msg)]
          && revalidationPending
    {
      if authUser.None? {
        return [];
      }
      var uid := authUser.value.id;
      var before := data;
      var optimistic := before.(payments := ReplaceWhere(before.payments, PaymentId, c.id, MergePaymentFn(c)));
      data := optimistic;
      published := [optimistic];
      writes := writes + [UpdatePayment(c.id, uid, c.memberName, c.amount, c.mode, c.paymentDay.GetOr(today), c.status, c.planName)];
      match reply {
        case Failed(msg) =>
          toasts := toasts + [ErrorToast(msg)];
          revalidationPending := true;
        case Confirmed(row) =>
          var final := before.(payments := ReplaceWhere(before.payments, PaymentId, c.id, Always(row)));
          data := final;
          published := published + [final];
          writes := writes + [LogActivity(uid, "payment_updated", "Payment for " + c.memberName + " updated")];
          toasts := toasts + [Success("Payment updated successfully!")];
      }
    }

    /** DELETE_PAYMENT */
    method DeletePaymentAction(id: string, reply: Reply<()>)
      returns (published: seq<Snapshot>)
      requires Valid()
      modifies this
      ensures Valid() && authUser == old(authUser)
      ensures old(authUser).None? ==>
        && published == [] && data == old(data) && writes == old(writes) && toasts == old(toasts)
        && revalidationPending == old(revalidationPending)
      ensures old(authUser).Some? ==>
        var uid := old(authUser).value.id;
        var optimistic := old(data).(payments := Without(old(data).payments, PaymentId, id));
        var found := FindFirst(old(data).payments, PaymentWithId(id));
        && published == [optimistic] && data == optimistic
        && (reply.Confirmed? ==>
              && writes == old(writes) + [DeletePayment(id, uid)]
                 + (if found.Some? then [LogActivity(uid, "payment_deleted", "Payment for " + Shown(found.value.memberName) + " deleted")] else [])
              && toasts == old(toasts) + [Success("Payment deleted successfully!")]
              && revalidationPending == old(revalidationPending))
        && (reply.Failed? ==>
              && writes == old(writes) + [DeletePayment(id, uid)]
              && toasts == old(toasts) + [ErrorToast(reply.message)]
              && revalidationPending)
    {
      if authUser.None? {
        return [];
      }
      var uid := authUser.value.id;
      var before := data;
      var optimistic := before.(payments := Without(before.payments, PaymentId, id));
      data := optimistic;
      published := [optimistic];
      var found := FindFirst(before.payments, PaymentWithId(id));
      writes := writes + [DeletePayment(id, uid)];
      match reply {
        case Failed(msg) =>
          toasts := toasts + [ErrorToast(msg)];
          revalidationPending := true;
        case Confirmed(_) =>
          if found.Some? {
            writes := writes + [LogActivity(uid, "payment_deleted", "Payment for " + Shown(found.value.memberName) + " deleted")];
          }
          toasts := toasts + [Success("Payment deleted successfully!")];
      }
    }

    /** ADD_PLAN: missing features become the empty list. */
    method AddPlan(c: PlanChanges, clock: nat, reply: Reply<Plan>)
      returns (published: seq<Snapshot>)
      requires Valid()
      modifies this
      ensures Valid() && authUser == old(authUser)
      ensures old(authUser).None? ==>
        && published == [] && data == old(data) && writes == old(writes)
        && toasts == old(toasts) + [Failure("Please log in first.")]
        && revalidationPending == old(revalidationPending)
      ensures old(authUser).Some? ==>
        var uid := old(authUser).value.id;
        var features := c.features.GetOr([]);
        var optimistic := old(data).(plans := [Plan(TempId(clock), c.name, c.price, c.duration, Some(features))] + old(data).plans);
        var insert := InsertPlan(uid, c.name, c.price, c.duration, features);
        match reply
        case Confirmed(row) =>
          var final := old(data).(plans := [row] + Without(old(data).plans, PlanId, TempId(clock)));
          && published == [optimistic, final] && data == final
          && writes == old(writes) + [insert, LogActivity(uid, "plan_added", "Plan " + Quoted(c.name) + " added")]
          && toasts == old(toasts) + [Success("Plan added successfully!")]
          && revalidationPending == old(revalidationPending)
        case Failed(msg) =>
          && published == [optimistic] && data == optimistic
          && writes == old(writes) + [insert]
          && toasts == old(toasts) + [ErrorToast(msg)]
          && revalidationPending
    {
      if authUser.None? {
        toasts := toasts + [Failure("Please log in first.")];
        return [];
      }
      var uid := authUser.value.id;
      var before := data;
      var features := c.features.GetOr([]);
      var optimistic := before.(plans := [Plan(TempId(clock), c.name, c.price, c.duration, Some(features))] + before.plans);
      data := optimistic;
      published := [optimistic];
      writes := writes + [InsertPlan(uid, c.name, c.price, c.duration, features)];
      match reply {
        case Failed(msg) =>
          toasts := toasts + [ErrorToast(msg)];
          revalidationPending := true;
        case Confirmed(row) =>
          var final := before.(plans := [row] + Without(before.plans, PlanId, TempId(clock)));
          data := final;
          published := published + [final];
          writes := writes + [LogActivity(uid, "plan_added", "Plan " + Quoted(c.name) + " added")];
          toasts := toasts + [Success("Plan added successfully!")];
      }
    }

    /** UPDATE_PLAN */
    method UpdatePlanAction(c: PlanChanges, reply: Reply<Plan>)
      returns (published: seq<Snapshot>)
      requires Valid()
      modifies this
      ensures Valid() && authUser == old(authUser)
      ensures old(authUser).None? ==>
        && published == [] && data == old(data) && writes == old(writes) && toasts == old(toasts)
        && revalidationPending == old(revalidationPending)
      ensures old(authUser).Some? ==>
        var uid := old(authUser).value.id;
        var optimistic := old(data).(plans := ReplaceWhere(old(data).plans, PlanId, c.id, MergePlanFn(c)));
        var update := UpdatePlan(c.id, uid, c.name, c.price, c.duration, c.features.GetOr([]));
        match reply
        case Confirmed(row) =>
          var final := old(data).(plans := ReplaceWhere(old(data).plans, PlanId, c.id, Always(row)));
          && published == [optimistic, final] && data == final
          && writes == old(writes) + [update, LogActivity(uid, "plan_updated", "Plan " + Quoted(c.name) + " updated")]
          && toasts == old(toasts) + [Success("Plan updated successfully!")]
          && revalidationPending == old(revalidationPending)
        case Failed(msg) =>
          && published == [optimistic] && data == optimistic
          && writes == old(writes) + [update]
          && toasts == old(toasts) + [ErrorToast(msg)]
          && revalidationPending
    {
      if authUser.None? {
        return [];
      }
      var uid := authUser.value.id;
      var before := data;
      var optimistic := before.(plans := ReplaceWhere(before.plans, PlanId, c.id, MergePlanFn(c)));
      data := optimistic;
      published := [optimistic];
      writes := writes + [UpdatePlan(c.id, uid, c.name, c.price, c.duration, c.features.GetOr([]))];
      match reply {
        case Failed(msg) =>
          toasts := toasts + [ErrorToast(msg)];
          revalidationPending := true;
        case Confirmed(row) =>
          var final := before.(plans := ReplaceWhere(before.plans, PlanId, c.id, Always(row)));
          data := final;
          published := published + [final];
          writes := writes + [LogActivity(uid, "plan_updated", "Plan " + Quoted(c.name) + " updated")];
          toasts := toasts + [Success("Plan updated successfully!")];
      }
    }

    /** DELETE_PLAN */
    method DeletePlanAction(id: string, reply: Reply<()>)
      returns (published: seq<Snapshot>)
      requires Valid()
      modifies this
      ensures Valid() && authUser == old(authUser)
      ensures old(authUser).None? ==>
        && published == [] && data == old(data) && writes == old(writes) && toasts == old(toasts)
        && revalidationPending == old(revalidationPending)
      ensures old(authUser).Some? ==>
        var uid := old(authUser).value.id;
        var optimistic := old(data).(plans := Without(old(data).plans, PlanId, id));
        var found := FindFirst(old(data).plans, PlanWithId(id));
        && published == [optimistic] && data == optimistic
        && (reply.Confirmed? ==>
              && writes == old(writes) + [DeletePlan(id, uid)]
                 + (if found.Some? then [LogActivity(uid, "plan_deleted", "Plan " + Quoted(found.value.name) + " deleted")] else [])
              && toasts == old(toasts) + [Success("Plan deleted successfully!")]
              && revalidationPending == old(revalidationPending))
        && (reply.Failed? ==>
              && writes == old(writes) + [DeletePlan(id, uid)]
              && toasts == old(toasts) + [ErrorToast(reply.message)]
              && revalidationPending)
    {
      if authUser.None? {
        return [];
      }
      var uid := authUser.value.id;
      var before := data;
      var optimistic := before.(plans := Without(before.plans, PlanId, id));
      data := optimistic;
      published := [optimistic];
      var found := FindFirst(before.plans, PlanWithId(id));
      writes := writes + [DeletePlan(id, uid)];
      match reply {
        case Failed(msg) =>
          toasts := toasts + [ErrorToast(msg)];
          revalidationPending := true;
        case Confirmed(_) =>
          if found.Some? {
            writes := writes + [LogActivity(uid, "plan_deleted", "Plan " + Quoted(found.value.name) + " deleted")];
          }
          toasts := toasts + [Success("Plan deleted successfully!")];
      }
    }

    /** UPDATE_PROFILE: nothing is published; success asks for a refetch,
        failure has its own message and asks for none. */
    method UpdateProfileAction(c: ProfileChanges, reply: Reply<()>)
      requires Valid()
      modifies this
      ensures Valid() && authUser == old(authUser) && data == old(data)
      ensures old(authUser).None? ==>
        writes == old(writes) && toasts == old(toasts) && revalidationPending == old(revalidationPending)
      ensures old(authUser).Some? ==>
        && writes == old(writes) + [UpdateProfile(old(authUser).value.id, c.name, c.email, c.gymName)]
        && (reply.Confirmed? ==>
              toasts == old(toasts) + [Success("Profile updated successfully!")] && revalidationPending)
        && (reply.Failed? ==>
              && toasts == old(toasts) + [Failure("Failed to update profile: " + reply.message)]
              && revalidationPending == old(revalidationPending))
    {
      if authUser.None? {
        return;
      }
      writes := writes + [UpdateProfile(authUser.value.id, c.name, c.email, c.gymName)];
      match reply {
        case Failed(msg) =>
          toasts := toasts + [Failure("Failed to update profile: " + msg)];
        case Confirmed(_) =>
          revalidationPending := true;
          toasts := toasts + [Success("Profile updated successfully!")];
      }
    }
  }
  /** The confirmed list of an add: the stored row first, then every earlier
      entry except a leftover with the temporary id, in order. */
  lemma ConfirmedInsertList<T>(s: seq<T>, row: T, key: T -> string, temp: string)
    ensures var l := [row] + Without(s, key, temp);
      && l[0] == row
      && (forall x :: x in s && key(x) != temp ==> x in l[1..])
      && (forall x :: x in l[1..] ==> x in s && key(x) != temp)
      && |l| == |s| + 1 - CountId(s, key, temp)
  {
    WithoutCorrect(s, key, temp);
    var l := [row] + Without(s, key, temp);
    assert l[1..] == Without(s, key, temp);
  }

  /** Two different clock readings give different temporary ids, so the
      confirmed list drops only the row this add put there. */
  lemma TempIdInjective(a: nat, b: nat)
    ensures TempId(a) == TempId(b) <==> a == b
  {
    if TempId(a) == TempId(b) {
      assert NatToString(a) == TempId(a)[5..];
      assert NatToString(b) == TempId(b)[5..];
      NatToStringValue(a);
      NatToStringValue(b);
    }
  }

  /** After a member is deleted, no member and no reminder carries its id,
      and every other member is still there. */
  lemma DeleteMemberEffect(ms: seq<Member>, id: string, today: Day)
    ensures forall m :: m in Without(ms, MemberId, id) ==> m in ms && m.id != id
    ensures forall m :: m in ms && m.id != id ==> m in Without(ms, MemberId, id)
    ensures forall r :: r in Reminders(Without(ms, MemberId, id), today) ==> r.id != id
  {
    var rest := Without(ms, MemberId, id);
    WithoutCorrect(ms, MemberId, id);
    forall r | r in Reminders(rest, today)
      ensures r.id != id
    {
      ReminderHasMember(rest, r, today);
    }
  }

  /** An edit shows the new name, e-mail and phone and a status computed
      from the new expiry date, while the row on screen keeps its old dates
      and plan length; the store is sent all of them. */
  lemma EditMerge(m: Member, c: MemberChanges, today: Day)
    requires c.Edit?
    ensures var r := MergeMember(m, c, today);
      && r.name == c.name && r.email == c.email && r.phone == c.phone
      && r.joiningDay == m.joiningDay && r.expiryDay == m.expiryDay && r.planDuration == m.planDuration
      && r.status == Classify(DaysLeft(c.expiryDay, today)) && r.qrToken == m.qrToken
    ensures MemberUpdate(c, ChangeStatus(c, today)).newExpiryDay == Some(c.expiryDay)
  {
  }

  /** A renewal shows the new dates with status "active", but the store is
      sent no dates at all: only name, e-mail, phone and the status. */
  lemma RenewMerge(m: Member, c: MemberChanges, today: Day)
    requires c.Renew?
    ensures var r := MergeMember(m, c, today);
      && r.joiningDay == c.joinDay && r.expiryDay == c.expiryDay && r.planDuration == c.planDuration
      && r.status == Active
    ensures MemberUpdate(c, ChangeStatus(c, today)) == UpdateMember(c.id, c.name, c.email, c.phone, None, None, None, Active)
  {
  }
}
