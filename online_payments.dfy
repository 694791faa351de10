/** The online payments page (components/pages/OnlinePayments.tsx): creating
    a payment link through the payment-link endpoint and keeping the list of
    links created in this session. `handleCreatePaymentLink` awaits the
    endpoint, so it is modelled as the part before the request
    (`BeginCreatePaymentLink`) and the part after the reply
    (`CompleteCreatePaymentLink`); the reply and the clock are parameters. */
module OnlinePaymentsPage {
  import opened Wrappers
  import opened Text
  import opened Entities
  import opened ListOps
  import opened Cache

  // ---- Number.parseInt(s) with no radix ----

  /** The white space and line terminators `parseInt` skips. */
  predicate IsJsSpace(c: char) {
    || c == ' ' || c == '\t' || c == '\n' || c == '\r'
    || c == '\U{000B}' || c == '\U{000C}' || c == '\U{00A0}' || c == '\U{FEFF}'
    || c == '\U{1680}' || ('\U{2000}' <= c <= '\U{200A}')
    || c == '\U{2028}' || c == '\U{2029}' || c == '\U{202F}' || c == '\U{205F}' || c == '\U{3000}'
  }

  function TrimStart(s: string): (r: string)
    ensures |r| <= |s| && r == s[|s| - |r|..]
    ensures |r| > 0 ==> !IsJsSpace(r[0])
    decreases |s|
  {
    if |s| > 0 && IsJsSpace(s[0]) then TrimStart(s[1..]) else s
  }

  predicate IsDecimal(c: char) {
    '0' <= c <= '9'
  }

  predicate IsHex(c: char) {
    IsDecimal(c) || 'a' <= c <= 'f' || 'A' <= c <= 'F'
  }

  /** Length of the longest prefix of decimal digits. */
  function DecimalRun(s: string): (k: nat)
    ensures k <= |s|
    ensures forall i :: 0 <= i < k ==> IsDecimal(s[i])
    ensures k < |s| ==> !IsDecimal(s[k])
    decreases |s|
  {
    if |s| > 0 && IsDecimal(s[0]) then 1 + DecimalRun(s[1..]) else 0
  }

  /** Length of the longest prefix of hexadecimal digits. */
  function HexRun(s: string): (k: nat)
    ensures k <= |s|
    ensures forall i :: 0 <= i < k ==> IsHex(s[i])
    ensures k < |s| ==> !IsHex(s[k])
    decreases |s|
  {
    if |s| > 0 && IsHex(s[0]) then 1 + HexRun(s[1..]) else 0
  }

  function HexDigit(c: char): (d: nat)
    requires IsHex(c)
    ensures d < 16
  {
    if IsDecimal(c) then c as int - '0' as int
    else if 'a' <= c <= 'f' then c as int - 'a' as int + 10
    else c as int - 'A' as int + 10
  }

  function HexValue(s: string): nat
    requires forall i :: 0 <= i < |s| ==> IsHex(s[i])
    decreases |s|
  {
    if |s| == 0 then 0 else 16 * HexValue(s[..|s| - 1]) + HexDigit(s[|s| - 1])
  }

  /** The digits after the white space and the sign: a `0x`/`0X` prefix
      switches to base 16, and the longest run of digits is read. */
  function ParseMagnitude(u: string): (r: Option<nat>)
    ensures r.Some? ==> |u| > 0 && IsDecimal(u[0])
  {
    if |u| >= 2 && u[0] == '0' && (u[1] == 'x' || u[1] == 'X') then
      var h := u[2..];
      var k := HexRun(h);
      if k == 0 then None else Some(HexValue(h[..k]))
    else
      var k := DecimalRun(u);
      if k == 0 then None else Some(DigitsValue(u[..k]))
  }

  /** `Number.parseInt(s)`: leading white space is skipped, one sign is
      taken and the magnitude is read; no digits is `NaN`, here `None`. */
  function ParseInt(s: string): Option<int> {
    var t := TrimStart(s);
    var negative := |t| > 0 && t[0] == '-';
    var u := if |t| > 0 && (t[0] == '-' || t[0] == '+') then t[1..] else t;
    match ParseMagnitude(u)
    case None => None
    case Some(v) => Some(if negative then -(v as int) else v as int)
  }

  lemma {:induction false} DecimalRunAppend(a: string, b: string)
    requires forall i :: 0 <= i < |a| ==> IsDecimal(a[i])
    requires |b| == 0 || !IsDecimal(b[0])
    ensures DecimalRun(a + b) == |a|
    decreases |a|
  {
    if |a| > 0 {
      assert (a + b)[1..] == a[1..] + b;
      DecimalRunAppend(a[1..], b);
    } else {
      assert a + b == b;
    }
  }

  /** The magnitude of printed digits followed by a non-digit is the number. */
  lemma ParseMagnitudeDigits(n: nat, rest: string)
    requires |rest| == 0 || (!IsDecimal(rest[0]) && rest[0] != 'x' && rest[0] != 'X')
    ensures ParseMagnitude(NatToString(n) + rest) == Some(n)
  {
    var digits := NatToString(n);
    var u := digits + rest;
    assert |u| >= 2 ==> u[1] == (if |digits| >= 2 then digits[1] else rest[0]);
    DecimalRunAppend(digits, rest);
    assert u[..|digits|] == digits;
    NatToStringValue(n);
  }

  /** Text that starts with a digit is read from its first character. */
  lemma ParseIntUnsigned(u: string)
    requires |u| > 0 && IsDecimal(u[0])
    ensures ParseInt(u) == if ParseMagnitude(u).Some? then Some(ParseMagnitude(u).value as int) else None
  {
    assert TrimStart(u) == u;
  }

  /** A minus sign followed by a digit negates the magnitude. */
  lemma ParseIntNegative(u: string, m: nat)
    requires |u| > 0 && IsDecimal(u[0])
    requires ParseMagnitude(u) == Some(m)
    ensures ParseInt("-" + u) == Some(-(m as int))
  {
    var s := "-" + u;
    assert TrimStart(s) == s;
    assert s[1..] == u;
  }

  lemma ParseIntReadsNatural(n: nat, rest: string)
    requires |rest| == 0 || (!IsDecimal(rest[0]) && rest[0] != 'x' && rest[0] != 'X')
    ensures ParseInt(IntToString(n) + rest) == Some(n)
  {
    ParseMagnitudeDigits(n, rest);
    ParseIntUnsigned(NatToString(n) + rest);
  }

  lemma ParseIntReadsNegated(n: nat, rest: string)
    requires n > 0
    requires |rest| == 0 || (!IsDecimal(rest[0]) && rest[0] != 'x' && rest[0] != 'X')
    ensures ParseInt(IntToString(-(n as int)) + rest) == Some(-(n as int))
  {
    var digits := NatToString(n);
    var u := digits + rest;
    assert u[0] == digits[0];
    ParseMagnitudeDigits(n, rest);
    ParseIntNegative(u, n);
    AppendAssoc("-", digits, rest);
  }

  /** `parseInt` reads back what `${i}` prints, whatever non-digit text
      follows it (other than an `x` that would make a hexadecimal prefix). */
  lemma ParseIntReadsInteger(i: int, rest: string)
    requires |rest| == 0 || (!IsDecimal(rest[0]) && rest[0] != 'x' && rest[0] != 'X')
    ensures ParseInt(IntToString(i) + rest) == Some(i)
  {
    if i < 0 {
      ParseIntReadsNegated(-i, rest);
    } else {
      ParseIntReadsNatural(i, rest);
    }
  }

  /** Text with no digit after the white space and sign reads as `NaN`. */
  lemma ParseIntNoDigits(s: string)
    requires forall i :: 0 <= i < |s| ==> !IsHex(s[i])
    ensures ParseInt(s).None?
  {
  }

  // ---- the link form ----

  /** `Number.parseInt(customAmount) || plan.price`: a custom amount that
      reads as a non-zero number, otherwise the plan's price. */
  function LinkAmount(customAmount: string, price: int): int {
    var parsed := ParseInt(customAmount);
    if parsed.Some? && parsed.value != 0 then parsed.value else price
  }

  /** The recorded amount is the number typed when it is a non-zero
      number, and the plan's price when it is zero. */
  lemma LinkAmountTyped(i: int, price: int)
    ensures LinkAmount(IntToString(i), price) == if i != 0 then i else price
  {
    ParseIntReadsInteger(i, "");
    assert IntToString(i) + "" == IntToString(i);
  }

  /** An empty field, or text without a digit, records the plan's price. */
  lemma LinkAmountFallback(text: string, price: int)
    requires forall k :: 0 <= k < |text| ==> !IsHex(text[k])
    ensures LinkAmount(text, price) == price
  {
    ParseIntNoDigits(text);
  }

  /** `customAmount || plan.price` as sent to the endpoint: the text typed,
      or the plan's price when nothing was typed. */
  datatype RequestAmount = TypedAmount(text: string) | PlanPrice(price: int)

  datatype LinkRequest = LinkRequest(
    amount: RequestAmount,
    memberName: string,
    memberEmail: string,
    planName: string,
    gymId: Option<string>)

  /** The endpoint's JSON body, or the error the call threw. */
  datatype LinkReply = Answered(error: Option<string>, linkId: string, url: string) | Threw(message: string)

  datatype PaymentLink = PaymentLink(
    id: string,
    url: string,
    amount: int,
    memberName: string,
    planName: string,
    active: bool,
    createdMillis: int)

  /** What the handler holds across the request. */
  datatype PendingLink = PendingLink(member: Member, plan: Plan, customAmount: string)

  const MissingInformation := Notice("Missing Information", "Please select a member and plan", true)
  const LinkCreated := Notice("Payment Link Created", "Share this link with the member to collect payment", false)

  predicate LinkFailed(reply: LinkReply) {
    reply.Threw? || Truthy(reply.error)
  }

  function FailureMessage(reply: LinkReply): string
    requires LinkFailed(reply)
  {
    if reply.Threw? then reply.message else reply.error.value
  }

  /** The WhatsApp share text; it names the member and carries the link. */
  function WhatsAppMessage(memberName: string, url: string): (r: string)
    ensures Contains(r, url) && Contains(r, memberName)
  {
    var tail := ", here's your payment link for MuscleDesk membership: ";
    var r := "Hi " + memberName + tail + url;
    ContainsMiddle("Hi " + memberName + tail, url, "");
    assert "Hi " + memberName + tail + url + "" == r;
    ContainsMiddle("Hi ", memberName, tail + url);
    assert "Hi " + memberName + (tail + url) == r;
    r
  }

  class PaymentLinksView {
    /** The member list as it was when the page mounted. */
    var members: seq<Member>
    var selectedMember: string
    var selectedPlan: string
    var customAmount: string
    var links: seq<PaymentLink>
    var loading: bool
    var toasts: seq<Notice>
    var requests: seq<LinkRequest>
    var clipboard: Option<string>

    constructor (stateMembers: seq<Member>)
      ensures members == stateMembers
      ensures selectedMember == "" && selectedPlan == "" && customAmount == ""
      ensures links == [] && !loading && toasts == [] && requests == [] && clipboard.None?
    {
      members := stateMembers;
      selectedMember, selectedPlan, customAmount := "", "", "";
      links, loading, toasts, requests, clipboard := [], false, [], [], None;
    }

    /** `handleCreatePaymentLink` up to the request: both selections are
        required, an unknown member or plan ends the handler silently, and
        otherwise `loading` is set and exactly one request is sent. */
    method BeginCreatePaymentLink(plans: seq<Plan>, gymId: Option<string>) returns (pending: Option<PendingLink>)
      modifies this
      ensures (old(selectedMember) == "" || old(selectedPlan) == "") ==>
        && pending.None? && toasts == old(toasts) + [MissingInformation]
        && requests == old(requests) && loading == old(loading)
      ensures old(selectedMember) != "" && old(selectedPlan) != "" ==>
        var m := FindFirst(members, MemberWithId(selectedMember));
        var p := FindFirst(plans, PlanWithId(selectedPlan));
        && ((m.None? || p.None?) ==>
              pending.None? && toasts == old(toasts) && requests == old(requests) && loading == old(loading))
        && ((m.Some? && p.Some?) ==>
              && pending == Some(PendingLink(m.value, p.value, customAmount))
              && loading && toasts == old(toasts)
              && requests == old(requests) + [LinkRequest(
                   if customAmount != "" then TypedAmount(customAmount) else PlanPrice(p.value.price),
                   m.value.name, m.value.email, p.value.name, gymId)])
      ensures members == old(members) && links == old(links) && clipboard == old(clipboard)
      ensures selectedMember == old(selectedMember) && selectedPlan == old(selectedPlan) && customAmount == old(customAmount)
    {
      if selectedMember == "" || selectedPlan == "" {
        toasts := toasts + [MissingInformation];
        return None;
      }
      var member := FindFirst(members, MemberWithId(selectedMember));
      var plan := FindFirst(plans, PlanWithId(selectedPlan));
      if member.None? || plan.None? {
        return None;
      }
      loading := true;
      var amount := if customAmount != "" then TypedAmount(customAmount) else PlanPrice(plan.value.price);
      requests := requests + [LinkRequest(amount, member.value.name, member.value.email, plan.value.name, gymId)];
      pending := Some(PendingLink(member.value, plan.value, customAmount));
    }

    /** `handleCreatePaymentLink` after the reply: an error (thrown, or a
        truthy `error` field) is reported and adds no link; otherwise one
        active link is put first and the form is reset. `loading` is
        cleared on every path. */
    method CompleteCreatePaymentLink(pending: PendingLink, reply: LinkReply, nowMillis: int)
      modifies this
      ensures !loading
      ensures LinkFailed(reply) ==>
        && links == old(links)
        && toasts == old(toasts) + [Notice("Error Creating Link", FailureMessage(reply), true)]
        && selectedMember == old(selectedMember) && selectedPlan == old(selectedPlan) && customAmount == old(customAmount)
      ensures !LinkFailed(reply) ==>
        && links == [PaymentLink(reply.linkId, reply.url, LinkAmount(pending.customAmount, pending.plan.price),
                                 pending.member.name, pending.plan.name, true, nowMillis)] + old(links)
        && toasts == old(toasts) + [LinkCreated]
        && selectedMember == "" && selectedPlan == "" && customAmount == ""
      ensures members == old(members) && requests == old(requests) && clipboard == old(clipboard)
    {
      if LinkFailed(reply) {
        toasts := toasts + [Notice("Error Creating Link", FailureMessage(reply), true)];
      } else {
        RecordLink(PaymentLink(reply.linkId, reply.url, LinkAmount(pending.customAmount, pending.plan.price),
                               pending.member.name, pending.plan.name, true, nowMillis));
      }
      loading := false;
    }

    /** The success path: the new link goes first, a toast confirms it and
        the form is reset. */
    method RecordLink(link: PaymentLink)
      modifies this
      ensures links == [link] + old(links)
      ensures toasts == old(toasts) + [LinkCreated]
      ensures selectedMember == "" && selectedPlan == "" && customAmount == ""
      ensures members == old(members) && requests == old(requests) && clipboard == old(clipboard)
      ensures loading == old(loading)
    {
      links := [link] + links;
      toasts := toasts + [LinkCreated];
      selectedMember, selectedPlan, customAmount := "", "", "";
    }

    /** `copyToClipboard(url)` */
    method CopyLink(url: string)
      modifies this
      ensures clipboard == Some(url)
      ensures toasts == old(toasts) + [Notice("Copied!", "Payment link copied to clipboard", false)]
      ensures links == old(links) && requests == old(requests) && loading == old(loading)
      ensures members == old(members)
      ensures selectedMember == old(selectedMember) && selectedPlan == old(selectedPlan) && customAmount == old(customAmount)
    {
      clipboard := Some(url);
      toasts := toasts + [Notice("Copied!", "Payment link copied to clipboard", false)];
    }
  }
}
