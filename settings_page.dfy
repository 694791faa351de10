/** Notification preferences as the settings page stores them: a JSON object
    of flags under one `localStorage` key. `JSON.stringify` and
    `JSON.parse` are modelled on the subset of JSON those objects use: an
    object whose values are `true`, `false` or `null`, with no white space. */
module NotificationJson {
  import opened Wrappers
  import opened Text

  datatype JsonLiteral = JTrue | JFalse | JNull

  type Pair = (string, JsonLiteral)

  function LiteralText(v: JsonLiteral): string {
    match v
    case JTrue => "true"
    case JFalse => "false"
    case JNull => "null"
  }

  /** A key `JSON.stringify` writes without escapes, and that this parser
      reads back. */
  predicate PlainKey(k: string) {
    '"' !in k && '\\' !in k
  }

  function PairText(p: Pair): string {
    "\"" + p.0 + "\":" + LiteralText(p.1)
  }

  function PairTexts(ps: seq<Pair>): seq<string> {
    seq(|ps|, i requires 0 <= i < |ps| => PairText(ps[i]))
  }

  /** `JSON.stringify` of an object with these keys and values, in order. */
  function Stringify(ps: seq<Pair>): string {
    "{" + Join(PairTexts(ps), ",") + "}"
  }

  /** The literal at the start of `s` and its length. */
  function ParseLiteral(s: string): (r: Option<(JsonLiteral, nat)>)
    ensures r.Some? ==> 0 < r.value.1 <= |s|
  {
    if StartsWith(s, "true") then Some((JTrue, 4))
    else if StartsWith(s, "false") then Some((JFalse, 5))
    else if StartsWith(s, "null") then Some((JNull, 4))
    else None
  }

  /** One member at the start of `s`, `"key":literal`, and the text after
      it. */
  function ParseMember(s: string): (r: Option<(Pair, string)>)
    ensures r.Some? ==> |r.value.1| < |s|
  {
    if |s| == 0 || s[0] != '"' then None
    else
      var body := s[1..];
      var k := IndexOf(body, '"');
      if k == |body| || '\\' in body[..k] then None
      else
        var after := body[k + 1..];
        if |after| == 0 || after[0] != ':' then None
        else
          var lit := ParseLiteral(after[1..]);
          if lit.None? then None
          else Some(((body[..k], lit.value.0), after[1..][lit.value.1..]))
  }

  /** The members of a non-empty object body, separated by commas. */
  function ParseMembers(s: string): Option<seq<Pair>>
    decreases |s|
  {
    match ParseMember(s)
    case None => None
    case Some((p, rest)) =>
      if rest == "" then Some([p])
      else if rest[0] != ',' then None
      else
        match ParseMembers(rest[1..])
        case None => None
        case Some(more) => Some([p] + more)
  }

  /** `JSON.parse` on the subset; `None` is the `SyntaxError` it throws. */
  function ParseObject(s: string): Option<seq<Pair>> {
    if |s| < 2 || s[0] != '{' || s[|s| - 1] != '}' then None
    else
      var body := s[1..|s| - 1];
      if body == "" then Some([]) else ParseMembers(body)
  }

  lemma ParseLiteralText(v: JsonLiteral, tail: string)
    ensures ParseLiteral(LiteralText(v) + tail) == Some((v, |LiteralText(v)|))
  {
    var s := LiteralText(v) + tail;
    assert s[..|LiteralText(v)|] == LiteralText(v);
    assert s[0] == LiteralText(v)[0];
  }

  /** A written member is read back, and the text after it is left over. */
  lemma ParseMemberText(p: Pair, tail: string)
    requires PlainKey(p.0)
    ensures ParseMember(PairText(p) + tail) == Some((p, tail))
  {
    var lit := LiteralText(p.1);
    var s := PairText(p) + tail;
    var after := ":" + lit + tail;
    assert s[1..] == p.0 + ['"'] + after;
    IndexOfPrefix(p.0, '"', after);
    assert s[1..][..|p.0|] == p.0;
    assert s[1..][|p.0| + 1..] == after;
    assert after[1..] == lit + tail;
    ParseLiteralText(p.1, tail);
    assert (lit + tail)[|lit|..] == tail;
  }

  /** One member followed by nothing parses as that member. */
  lemma ParsePairAlone(p: Pair)
    requires PlainKey(p.0)
    ensures ParseMembers(PairText(p) + "") == Some([p])
  {
    ParseMemberText(p, "");
  }

  /** One member followed by a comma and more text parses as that member
      followed by the members of the text. */
  lemma ParsePairThen(p: Pair, rest: string)
    requires PlainKey(p.0)
    ensures ParseMembers(PairText(p) + ("," + rest)) ==
      if ParseMembers(rest).None? then None else Some([p] + ParseMembers(rest).value)
  {
    ParseMemberText(p, "," + rest);
    assert ("," + rest)[1..] == rest;
  }

  /** The written members of a list are the first member's text, then a
      comma and the written members of the rest. */
  lemma PairTextsCons(ps: seq<Pair>)
    requires |ps| >= 2
    ensures Join(PairTexts(ps), ",") == PairText(ps[0]) + ("," + Join(PairTexts(ps[1..]), ","))
  {
    var texts := PairTexts(ps);
    assert texts[1..] == PairTexts(ps[1..]);
    AppendAssoc(PairText(ps[0]), ",", Join(texts[1..], ","));
  }

  lemma ParseMembersSingle(p: Pair)
    requires PlainKey(p.0)
    ensures ParseMembers(Join(PairTexts([p]), ",")) == Some([p])
  {
    ParsePairAlone(p);
    assert Join(PairTexts([p]), ",") == PairText(p) + "";
  }

  lemma ParseMembersCons(ps: seq<Pair>)
    requires |ps| >= 2 && PlainKey(ps[0].0)
    requires ParseMembers(Join(PairTexts(ps[1..]), ",")) == Some(ps[1..])
    ensures ParseMembers(Join(PairTexts(ps), ",")) == Some(ps)
  {
    var rest := Join(PairTexts(ps[1..]), ",");
    PairTextsCons(ps);
    ParsePairThen(ps[0], rest);
    assert [ps[0]] + ps[1..] == ps;
    assert ParseMembers(PairText(ps[0]) + ("," + rest)) == Some(ps);
  }

  lemma {:induction false} ParseMembersJoin(ps: seq<Pair>)
    requires |ps| >= 1
    requires forall i :: 0 <= i < |ps| ==> PlainKey(ps[i].0)
    ensures ParseMembers(Join(PairTexts(ps), ",")) == Some(ps)
    decreases |ps|
  {
    if |ps| == 1 {
      ParseMembersSingle(ps[0]);
      assert ps == [ps[0]];
    } else {
      ParseMembersJoin(ps[1..]);
      ParseMembersCons(ps);
    }
  }

  /** Parsing what `Stringify` wrote gives back the same keys and values in
      the same order. */
  lemma ParseStringify(ps: seq<Pair>)
    requires forall i :: 0 <= i < |ps| ==> PlainKey(ps[i].0)
    ensures ParseObject(Stringify(ps)) == Some(ps)
  {
    var s := Stringify(ps);
    assert s[1..|s| - 1] == Join(PairTexts(ps), ",");
    if |ps| >= 1 {
      ParseMembersJoin(ps);
    }
  }

  /** `obj[key]`: the last member with that key, as `JSON.parse` keeps the
      last of duplicate keys. */
  function Lookup(ps: seq<Pair>, key: string): (r: Option<JsonLiteral>)
    ensures r.None? <==> forall i :: 0 <= i < |ps| ==> ps[i].0 != key
    ensures r.Some? ==> exists i :: 0 <= i < |ps| && ps[i] == (key, r.value)
    decreases |ps|
  {
    if |ps| == 0 then None
    else if ps[|ps| - 1].0 == key then Some(ps[|ps| - 1].1)
    else
      var r := Lookup(ps[..|ps| - 1], key);
      assert forall i :: 0 <= i < |ps| - 1 ==> ps[..|ps| - 1][i] == ps[i];
      r
  }

  /** `obj[key] ?? true` for a flag: only an explicit `false` turns it off. */
  predicate FlagOr(ps: seq<Pair>, key: string) {
    Lookup(ps, key) != Some(JFalse)
  }

  function Literal(b: bool): JsonLiteral {
    if b then JTrue else JFalse
  }
}

/** The settings page (components/pages/Settings.tsx): profile save,
    notification preferences, password change and the Excel export rows.
    The store, the auth service and `localStorage` are fields and reply
    parameters. */
module SettingsPage {
  import opened Wrappers
  import opened Text
  import opened Entities
  import opened Cache
  import opened NotificationJson

  const StorageKey := "notificationSettings"

  datatype NotificationFlags = NotificationFlags(email: bool, push: bool, membershipExpiry: bool, paymentReminders: bool)

  const AllOn := NotificationFlags(true, true, true, true)

  /** The object `handleSaveNotifications` stores. */
  function FlagPairs(f: NotificationFlags): seq<Pair> {
    [("email", Literal(f.email)), ("push", Literal(f.push)),
     ("membershipExpiry", Literal(f.membershipExpiry)), ("paymentReminders", Literal(f.paymentReminders))]
  }

  function FlagsOf(ps: seq<Pair>): NotificationFlags {
    NotificationFlags(FlagOr(ps, "email"), FlagOr(ps, "push"), FlagOr(ps, "membershipExpiry"), FlagOr(ps, "paymentReminders"))
  }

  datatype LoadResult = Loaded(flags: NotificationFlags) | Unreadable

  /** The load in the mount effect: no stored text (or empty text) keeps the
      current flags; text that does not parse is the `SyntaxError`. */
  function LoadFlags(storage: map<string, string>, current: NotificationFlags): LoadResult {
    if StorageKey !in storage || storage[StorageKey] == "" then Loaded(current)
    else
      var parsed := ParseObject(storage[StorageKey]);
      if parsed.None? then Unreadable else Loaded(FlagsOf(parsed.value))
  }

  /** A stored object is read flag by flag: a flag is off only when the
      object holds `false` for it, so a missing key (or `null`) loads as on. */
  lemma StoredObjectLoads(storage: map<string, string>, ps: seq<Pair>, current: NotificationFlags)
    requires forall i :: 0 <= i < |ps| ==> PlainKey(ps[i].0)
    ensures LoadFlags(storage[StorageKey := Stringify(ps)], current) == Loaded(FlagsOf(ps))
    ensures (forall i :: 0 <= i < |ps| ==> ps[i].0 != "email") ==> FlagsOf(ps).email
    ensures (forall i :: 0 <= i < |ps| ==> ps[i].0 != "push") ==> FlagsOf(ps).push
    ensures (forall i :: 0 <= i < |ps| ==> ps[i].0 != "membershipExpiry") ==> FlagsOf(ps).membershipExpiry
    ensures (forall i :: 0 <= i < |ps| ==> ps[i].0 != "paymentReminders") ==> FlagsOf(ps).paymentReminders
    ensures !FlagsOf(ps).email ==> exists i :: 0 <= i < |ps| && ps[i] == ("email", JFalse)
  {
    ParseStringify(ps);
    assert Stringify(ps)[0] == '{';
  }

  /** The saved object reads back as the flags it was made from. */
  lemma FlagPairsRead(f: NotificationFlags)
    ensures FlagsOf(FlagPairs(f)) == f
  {
    var ps := FlagPairs(f);
    assert ps[..3][..2][..1] == [("email", Literal(f.email))];
    assert Lookup(ps[..3][..2][..1], "email") == Some(Literal(f.email));
    assert Lookup(ps[..3][..2], "email") == Some(Literal(f.email));
    assert Lookup(ps[..3], "email") == Some(Literal(f.email));
    assert Lookup(ps[..3][..2], "push") == Some(Literal(f.push));
    assert Lookup(ps[..3], "push") == Some(Literal(f.push));
    assert Lookup(ps[..3], "membershipExpiry") == Some(Literal(f.membershipExpiry));
  }

  /** Saving then loading restores the four flags, whatever was current. */
  lemma NotificationsRoundTrip(storage: map<string, string>, f: NotificationFlags, current: NotificationFlags)
    ensures LoadFlags(storage[StorageKey := Stringify(FlagPairs(f))], current) == Loaded(f)
  {
    var ps := FlagPairs(f);
    assert forall i :: 0 <= i < |ps| ==> PlainKey(ps[i].0) by {
      assert PlainKey("email") && PlainKey("push") && PlainKey("membershipExpiry") && PlainKey("paymentReminders");
    }
    StoredObjectLoads(storage, ps, current);
    FlagPairsRead(f);
  }

  /** `{}` loads every flag as on. */
  lemma EmptyObjectLoadsAllOn(storage: map<string, string>, current: NotificationFlags)
    ensures LoadFlags(storage[StorageKey := "{}"], current) == Loaded(AllOn)
  {
    ParseStringify([]);
    assert Stringify([]) == "{}";
  }

  /** The password rule: the confirmation must match, and only then the
      length (at least 6) is checked. */
  function PasswordProblem(newPassword: string, confirmPassword: string): (r: Option<string>)
    ensures r.None? <==> newPassword == confirmPassword && |newPassword| >= 6
    ensures newPassword != confirmPassword ==> r == Some("New passwords don't match!")
    ensures newPassword == confirmPassword && |newPassword| < 6 ==> r == Some("Password must be at least 6 characters")
  {
    if newPassword != confirmPassword then Some("New passwords don't match!")
    else if |newPassword| < 6 then Some("Password must be at least 6 characters")
    else None
  }

  // ---- the Excel export ----

  datatype Cell = TextCell(text: string) | NumberCell(number: int) | DayCell(day: Day) | EmptyCell

  type Row = seq<(string, Cell)>

  function OptionalText(o: Option<string>): Cell {
    if o.Some? then TextCell(o.value) else EmptyCell
  }

  /** `p.features?.join(", ") || ""` */
  function FeaturesText(features: Option<seq<string>>): (r: string)
    ensures features.None? ==> r == ""
    ensures features.Some? ==> forall k :: 0 <= k < |features.value| ==> Contains(r, features.value[k])
  {
    if features.None? then ""
    else
      var r := Join(features.value, ", ");
      assert forall k :: 0 <= k < |features.value| ==> Contains(r, features.value[k]) by {
        forall k | 0 <= k < |features.value| {
          JoinContains(features.value, ", ", k);
        }
      }
      r
  }

  const MemberHeaders := ["Name", "Email", "Phone", "Joining Date", "Expiry Date", "Status", "Plan Duration"]
  const PaymentHeaders := ["Member", "Amount", "Payment Method", "Payment Date", "Status", "Plan"]
  const PlanHeaders := ["Name", "Duration", "Price", "Features"]

  function MemberRow(m: Member): Row {
    [("Name", TextCell(m.name)), ("Email", TextCell(m.email)), ("Phone", TextCell(m.phone)),
     ("Joining Date", DayCell(m.joiningDay)), ("Expiry Date", DayCell(m.expiryDay)),
     ("Status", TextCell(StatusName(m.status))), ("Plan Duration", NumberCell(m.planDuration))]
  }

  function PaymentRow(p: Payment): Row {
    [("Member", OptionalText(p.memberName)), ("Amount", NumberCell(p.amount)),
     ("Payment Method", TextCell(p.paymentMethod)),
     ("Payment Date", if p.paymentDay.Some? then DayCell(p.paymentDay.value) else EmptyCell),
     ("Status", OptionalText(p.status)), ("Plan", OptionalText(p.planName))]
  }

  function PlanRow(p: Plan): Row {
    [("Name", TextCell(p.name)), ("Duration", NumberCell(p.duration)), ("Price", NumberCell(p.price)),
     ("Features", TextCell(FeaturesText(p.features)))]
  }

  function Headers(r: Row): seq<string> {
    seq(|r|, i requires 0 <= i < |r| => r[i].0)
  }

  type Sheet = (string, seq<Row>)

  /** The workbook `handleExportToExcel` writes: the Members, Payments and
      Plans sheets, one row per entity in list order. */
  function Workbook(members: seq<Member>, payments: seq<Payment>, plans: seq<Plan>): (wb: seq<Sheet>)
    ensures |wb| == 3 && wb[0].0 == "Members" && wb[1].0 == "Payments" && wb[2].0 == "Plans"
    ensures |wb[0].1| == |members| && |wb[1].1| == |payments| && |wb[2].1| == |plans|
  {
    [("Members", seq(|members|, i requires 0 <= i < |members| => MemberRow(members[i]))),
     ("Payments", seq(|payments|, i requires 0 <= i < |payments| => PaymentRow(payments[i]))),
     ("Plans", seq(|plans|, i requires 0 <= i < |plans| => PlanRow(plans[i])))]
  }

  /** Each row of a sheet has that sheet's columns, in order, and each cell
      holds its entity's field: a member's status by name, a payment's
      optional fields as empty cells when missing, a plan's features joined. */
  lemma WorkbookRows(members: seq<Member>, payments: seq<Payment>, plans: seq<Plan>)
    ensures var wb := Workbook(members, payments, plans);
      && (forall i :: 0 <= i < |members| ==>
            var m, row := members[i], wb[0].1[i];
            && Headers(row) == MemberHeaders
            && row[0].1 == TextCell(m.name) && row[1].1 == TextCell(m.email)
            && row[2].1 == TextCell(m.phone) && row[3].1 == DayCell(m.joiningDay)
            && row[4].1 == DayCell(m.expiryDay) && row[5].1 == TextCell(StatusName(m.status))
            && row[6].1 == NumberCell(m.planDuration))
      && (forall i :: 0 <= i < |payments| ==>
            var p, row := payments[i], wb[1].1[i];
            && Headers(row) == PaymentHeaders
            && row[0].1 == (if p.memberName.Some? then TextCell(p.memberName.value) else EmptyCell)
            && row[1].1 == NumberCell(p.amount)
            && row[2].1 == TextCell(p.paymentMethod)
            && row[3].1 == (if p.paymentDay.Some? then DayCell(p.paymentDay.value) else EmptyCell)
            && row[4].1 == (if p.status.Some? then TextCell(p.status.value) else EmptyCell)
            && row[5].1 == (if p.planName.Some? then TextCell(p.planName.value) else EmptyCell))
      && (forall i :: 0 <= i < |plans| ==>
            var p, row := plans[i], wb[2].1[i];
            && Headers(row) == PlanHeaders
            && row[0].1 == TextCell(p.name) && row[1].1 == NumberCell(p.duration)
            && row[2].1 == NumberCell(p.price)
            && row[3].1 == TextCell(if p.features.Some? then Join(p.features.value, ", ") else ""))
  {
  }

  class SettingsView {
    var gymName: string
    var ownerName: string
    var email: string
    var flags: NotificationFlags
    var newPassword: string
    var confirmPassword: string
    /** `localStorage` */
    var storage: map<string, string>
    var toasts: seq<Toast>
    /** Passwords sent to the auth service. */
    var passwordUpdates: seq<string>
    var profileWrites: seq<StoreWrite>
    /** Cache keys passed to `mutate`. */
    var revalidations: seq<string>

    constructor (stored: map<string, string>)
      ensures gymName == "" && ownerName == "" && email == ""
      ensures flags == AllOn && newPassword == "" && confirmPassword == ""
      ensures storage == stored && toasts == [] && passwordUpdates == [] && profileWrites == [] && revalidations == []
    {
      gymName, ownerName, email := "", "", "";
      flags := AllOn;
      newPassword, confirmPassword := "", "";
      storage := stored;
      toasts, passwordUpdates, profileWrites, revalidations := [], [], [], [];
    }

    /** The notification part of the mount effect. Text that does not parse
        makes the effect throw before any flag is set. */
    method LoadNotifications() returns (result: LoadResult)
      modifies this
      ensures result == LoadFlags(storage, old(flags))
      ensures result.Loaded? ==> flags == result.flags
      ensures result.Unreadable? ==> flags == old(flags)
      ensures storage == old(storage) && toasts == old(toasts) && newPassword == old(newPassword)
      ensures confirmPassword == old(confirmPassword) && gymName == old(gymName) && ownerName == old(ownerName) && email == old(email)
      ensures passwordUpdates == old(passwordUpdates) && profileWrites == old(profileWrites) && revalidations == old(revalidations)
    {
      result := LoadFlags(storage, flags);
      if result.Loaded? {
        flags := result.flags;
      }
    }

    /** `handleSaveNotifications` */
    method SaveNotifications()
      modifies this
      ensures storage == old(storage)[StorageKey := Stringify(FlagPairs(flags))]
      ensures toasts == old(toasts) + [Success("Notification settings saved!")]
      ensures flags == old(flags) && newPassword == old(newPassword) && confirmPassword == old(confirmPassword)
      ensures gymName == old(gymName) && ownerName == old(ownerName) && email == old(email)
      ensures passwordUpdates == old(passwordUpdates) && profileWrites == old(profileWrites) && revalidations == old(revalidations)
    {
      storage := storage[StorageKey := Stringify(FlagPairs(flags))];
      toasts := toasts + [Success("Notification settings saved!")];
    }

    /** `handleChangePassword`: a failed check reports its problem and calls
        nothing; otherwise one update is sent, and only a successful one
        clears both fields. */
    method ChangePassword(reply: Reply<()>)
      modifies this
      ensures PasswordProblem(old(newPassword), old(confirmPassword)).Some? ==>
        && toasts == old(toasts) + [Failure(PasswordProblem(old(newPassword), old(confirmPassword)).value)]
        && passwordUpdates == old(passwordUpdates)
        && newPassword == old(newPassword) && confirmPassword == old(confirmPassword)
      ensures PasswordProblem(old(newPassword), old(confirmPassword)).None? ==>
        && passwordUpdates == old(passwordUpdates) + [old(newPassword)]
        && (reply.Confirmed? ==>
              toasts == old(toasts) + [Success("Password changed successfully!")]
              && newPassword == "" && confirmPassword == "")
        && (reply.Failed? ==>
              toasts == old(toasts) + [Failure("Failed to change password: " + reply.message)]
              && newPassword == old(newPassword) && confirmPassword == old(confirmPassword))
      ensures flags == old(flags) && storage == old(storage)
      ensures gymName == old(gymName) && ownerName == old(ownerName) && email == old(email)
      ensures profileWrites == old(profileWrites) && revalidations == old(revalidations)
    {
      var problem := PasswordProblem(newPassword, confirmPassword);
      if problem.Some? {
        toasts := toasts + [Failure(problem.value)];
        return;
      }
      passwordUpdates := passwordUpdates + [newPassword];
      match reply {
        case Confirmed(_) =>
          toasts := toasts + [Success("Password changed successfully!")];
          newPassword, confirmPassword := "", "";
        case Failed(msg) =>
          toasts := toasts + [Failure("Failed to change password: " + msg)];
      }
    }

    /** `handleSaveProfile`: nothing is written without a signed-in user;
        a successful write refreshes that user's cache entry. */
    method SaveProfile(authId: Option<string>, reply: Reply<()>)
      modifies this
      ensures !Truthy(authId) ==>
        && toasts == old(toasts) + [Failure("Please log in first")]
        && profileWrites == old(profileWrites) && revalidations == old(revalidations)
      ensures Truthy(authId) ==>
        && profileWrites == old(profileWrites) + [UpdateProfile(authId.value, ownerName, email, gymName)]
        && (reply.Confirmed? ==>
              revalidations == old(revalidations) + ["gym-data-" + authId.value]
              && toasts == old(toasts) + [Success("Profile updated successfully!")])
        && (reply.Failed? ==>
              revalidations == old(revalidations)
              && toasts == old(toasts) + [Failure("Failed to update profile: " + reply.message)])
      ensures gymName == old(gymName) && ownerName == old(ownerName) && email == old(email)
      ensures flags == old(flags) && storage == old(storage) && passwordUpdates == old(passwordUpdates)
      ensures newPassword == old(newPassword) && confirmPassword == old(confirmPassword)
    {
      if !Truthy(authId) {
        toasts := toasts + [Failure("Please log in first")];
        return;
      }
      profileWrites := profileWrites + [UpdateProfile(authId.value, ownerName, email, gymName)];
      match reply {
        case Confirmed(_) =>
          revalidations := revalidations + ["gym-data-" + authId.value];
          toasts := toasts + [Success("Profile updated successfully!")];
        case Failed(msg) =>
          toasts := toasts + [Failure("Failed to update profile: " + msg)];
      }
    }

    /** `handleClearCache` */
    method ClearCache()
      modifies this
      ensures storage == map[]
      ensures toasts == old(toasts) + [Success("Cache cleared! Please refresh the page.")]
      ensures flags == old(flags) && passwordUpdates == old(passwordUpdates)
      ensures profileWrites == old(profileWrites) && revalidations == old(revalidations)
      ensures gymName == old(gymName) && ownerName == old(ownerName) && email == old(email)
      ensures newPassword == old(newPassword) && confirmPassword == old(confirmPassword)
    {
      storage := map[];
      toasts := toasts + [Success("Cache cleared! Please refresh the page.")];
    }
  }
}
