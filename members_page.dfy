/** The member list page (components/pages/Members.tsx): the search and
    status filter, the add/edit form that turns into an ADD_MEMBER or
    UPDATE_MEMBER action, and renewal. Adding months to a calendar date is
    the parameter `addMonths`. */
module MembersPage {
  import opened Wrappers
  import opened Text
  import opened Entities
  import opened ListOps
  import opened Cache

  /** The name or e-mail contains the term ignoring case, or the phone
      contains it as typed. */
  predicate MatchesSearch(m: Member, term: string) {
    Contains(Lower(m.name), Lower(term)) || Contains(Lower(m.email), Lower(term)) || Contains(m.phone, term)
  }

  /** The status filter; `None` is "all". */
  predicate MatchesStatus(m: Member, filter: Option<Status>) {
    filter.None? || m.status == filter.value
  }

  function Listed(term: string, filter: Option<Status>): Member -> bool {
    (m: Member) => MatchesSearch(m, term) && MatchesStatus(m, filter)
  }

  /** `filteredMembers` */
  function FilteredMembers(ms: seq<Member>, term: string, filter: Option<Status>): seq<Member> {
    Filter(ms, Listed(term, filter))
  }

  /** A member is listed exactly when it matches the search and the filter. */
  lemma FilteredMembersCorrect(ms: seq<Member>, term: string, filter: Option<Status>)
    ensures forall m :: m in FilteredMembers(ms, term, filter) <==>
      m in ms && MatchesSearch(m, term) && MatchesStatus(m, filter)
    ensures |FilteredMembers(ms, term, filter)| <= |ms|
  {
    FilterCorrect(ms, Listed(term, filter));
  }

  /** Filtering keeps the members' order: the list of a concatenation is the
      concatenation of the lists. */
  lemma FilteredMembersAppend(a: seq<Member>, b: seq<Member>, term: string, filter: Option<Status>)
    ensures FilteredMembers(a + b, term, filter) == FilteredMembers(a, term, filter) + FilteredMembers(b, term, filter)
  {
    FilterAppend(a, b, Listed(term, filter));
  }

  /** An empty search with the "all" filter lists every member. */
  lemma EmptySearchListsAll(ms: seq<Member>)
    ensures FilteredMembers(ms, "", None) == ms
  {
    forall i | 0 <= i < |ms|
      ensures Listed("", None)(ms[i])
    {
      ContainsEmpty(Lower(ms[i].name));
    }
    FilterAll(ms, Listed("", None));
  }

  /** The add/edit form. */
  datatype MemberForm = MemberForm(name: string, email: string, phone: string, planId: string, planDuration: int, joiningDay: Day)

  function BlankForm(planId: string, today: Day): MemberForm {
    MemberForm("", "", "", planId, 1, today)
  }

  /** `plans[0]?.id || ""` */
  function FirstPlanId(plans: seq<Plan>): string {
    if |plans| > 0 then plans[0].id else ""
  }

  datatype MemberAction = AddAction(payload: NewMember) | UpdateAction(changes: MemberChanges)

  predicate FormComplete(f: MemberForm) {
    f.name != "" && f.email != "" && f.phone != "" && f.planId != ""
  }

  /** `selectedPlan?.duration || 1` */
  function PlanMonths(plans: seq<Plan>, planId: string): int {
    var selected := FindFirst(plans, PlanWithId(planId));
    if selected.Some? && selected.value.duration != 0 then selected.value.duration else 1
  }

  /** The action a complete form dispatches: UPDATE_MEMBER when an edit is
      under way (`editingId` truthy), ADD_MEMBER otherwise. */
  function SubmitAction(f: MemberForm, editingId: Option<string>, plans: seq<Plan>, addMonths: (Day, int) -> Day): MemberAction {
    var months := PlanMonths(plans, f.planId);
    var expiry := addMonths(f.joiningDay, months);
    if Truthy(editingId) then UpdateAction(Edit(editingId.value, f.name, f.email, f.phone, months, f.joiningDay, expiry))
    else AddAction(NewMember(f.name, f.email, f.phone, months, f.joiningDay, expiry))
  }

  /** The expiry sent is the joining day plus the selected plan's months,
      and the plan length sent is those same months; a plan that is not
      found counts as one month. */
  lemma SubmitActionDates(f: MemberForm, editingId: Option<string>, plans: seq<Plan>, addMonths: (Day, int) -> Day)
    ensures var a := SubmitAction(f, editingId, plans, addMonths);
      var months := if a.AddAction? then a.payload.planDuration else a.changes.planDuration;
      var expiry := if a.AddAction? then a.payload.expiryDay else a.changes.expiryDay;
      && expiry == addMonths(f.joiningDay, months)
      && (FindFirst(plans, PlanWithId(f.planId)).None? ==> months == 1)
      && (forall p :: (p in plans && p.id == f.planId && p.duration != 0
            && (forall q :: q in plans && q.id == f.planId ==> q == p)) ==> months == p.duration)
      && (a.UpdateAction? <==> Truthy(editingId))
      && (a.UpdateAction? ==> a.changes.Edit? && a.changes.id == editingId.value)
  {
  }

  /** `handleRenewMember(id)`: the renewal UPDATE_MEMBER for a listed
      member, joining today and expiring its plan's months later. */
  function RenewChanges(ms: seq<Member>, id: string, today: Day, addMonths: (Day, int) -> Day): (c: Option<MemberChanges>)
    ensures c.Some? <==> exists m :: m in ms && m.id == id
  {
    var found := FindFirst(ms, MemberWithId(id));
    if found.None? then None
    else
      var m := found.value;
      Some(Renew(m.id, m.name, m.email, m.phone, m.planDuration, today, addMonths(today, m.planDuration)))
  }

  /** The renew button is shown for members that are not active. */
  predicate RenewOffered(m: Member) {
    m.status != Active
  }

  /** A renewal carries the member's own id, name, e-mail, phone and plan
      length, and dates from today; once merged into the cached row the row
      reads "active", so the renew button disappears. */
  lemma RenewHidesButton(ms: seq<Member>, id: string, today: Day, addMonths: (Day, int) -> Day, row: Member)
    requires RenewChanges(ms, id, today, addMonths).Some?
    ensures var c := RenewChanges(ms, id, today, addMonths).value;
      && c.Renew? && c.id == id && c.joinDay == today
      && (exists m :: m in ms && m.id == id && c.name == m.name && c.planDuration == m.planDuration
            && c.expiryDay == addMonths(today, m.planDuration))
      && !RenewOffered(MergeMember(row, c, today))
  {
    var m := FindFirst(ms, MemberWithId(id)).value;
    assert m in ms && m.id == id;
  }

  class MembersView {
    var searchTerm: string
    var filterStatus: Option<Status>
    var showAddModal: bool
    var editingId: Option<string>
    var form: MemberForm

    constructor (today: Day)
      ensures searchTerm == "" && filterStatus.None? && !showAddModal && editingId.None?
      ensures form == BlankForm("", today)
    {
      searchTerm := "";
      filterStatus := None;
      showAddModal := false;
      editingId := None;
      form := BlankForm("", today);
    }

    /** The "Add Member" button and the `triggerAddMember` event: a blank
        form preset to the first plan. */
    method OpenAdd(plans: seq<Plan>, today: Day)
      modifies this
      ensures editingId.None? && form == BlankForm(FirstPlanId(plans), today) && showAddModal
      ensures searchTerm == old(searchTerm) && filterStatus == old(filterStatus)
    {
      editingId := None;
      form := BlankForm(FirstPlanId(plans), today);
      showAddModal := true;
    }

    /** `handleEditMember`: the member's fields, and the first plan's id
        since a member row carries no plan id. */
    method Edit(m: Member, plans: seq<Plan>)
      modifies this
      ensures editingId == Some(m.id) && showAddModal
      ensures form == MemberForm(m.name, m.email, m.phone, FirstPlanId(plans), m.planDuration, m.joiningDay)
      ensures searchTerm == old(searchTerm) && filterStatus == old(filterStatus)
    {
      editingId := Some(m.id);
      form := MemberForm(m.name, m.email, m.phone, FirstPlanId(plans), m.planDuration, m.joiningDay);
      showAddModal := true;
    }

    /** `handleAddMember`: an incomplete form does nothing; a complete one
        dispatches its action, ends the edit, resets the form and closes the
        modal (whatever the action's outcome, which the cache reports). */
    method Submit(plans: seq<Plan>, today: Day, addMonths: (Day, int) -> Day) returns (action: Option<MemberAction>)
      modifies this
      ensures !FormComplete(old(form)) ==>
        action.None? && form == old(form) && editingId == old(editingId) && showAddModal == old(showAddModal)
      ensures FormComplete(old(form)) ==>
        && action == Some(SubmitAction(old(form), old(editingId), plans, addMonths))
        && form == BlankForm("", today) && !showAddModal
        && editingId == (if Truthy(old(editingId)) then None else old(editingId))
      ensures searchTerm == old(searchTerm) && filterStatus == old(filterStatus)
    {
      if !FormComplete(form) {
        return None;
      }
      action := Some(SubmitAction(form, editingId, plans, addMonths));
      if Truthy(editingId) {
        editingId := None;
      }
      form := BlankForm("", today);
      showAddModal := false;
    }
  }
}
