/** The attendance page (components/pages/Attendance.tsx): the records of the
    selected day, the attendance rate, the check-in guards, the CSV export,
    the member search, and the QR and manual check-in handlers. A check-in
    instant is a number of milliseconds; the day it falls on and its
    "hh:mm a" rendering are already in each record. */
module AttendancePage {
  import opened Wrappers
  import opened Text
  import opened Entities
  import opened ListOps
  import opened Snapshot
  import opened Cache

  const QrPrefix := "MDQR_"

  function OnDay(day: Day): AttendanceRecord -> bool {
    (a: AttendanceRecord) => a.checkInDay == day
  }

  /** `todayAttendance`: the records whose check-in falls on `selectedDay`. */
  function TodayAttendance(att: seq<AttendanceRecord>, selectedDay: Day): seq<AttendanceRecord> {
    Filter(att, OnDay(selectedDay))
  }

  /** Exactly the records of the selected day are kept, in order, so
      `presentToday` counts them. */
  lemma TodayAttendanceCorrect(att: seq<AttendanceRecord>, selectedDay: Day)
    ensures forall a :: a in TodayAttendance(att, selectedDay) <==> a in att && a.checkInDay == selectedDay
    ensures |TodayAttendance(att, selectedDay)| <= |att|
  {
    FilterCorrect(att, OnDay(selectedDay));
  }

  /** `Math.round(present / total * 100)`, or 0 without members; the
      quotient is taken exactly and halves round up. */
  function AttendanceRate(total: nat, present: nat): (r: int)
    ensures total == 0 ==> r == 0
    ensures total > 0 ==> r * (2 * total) <= 200 * present + total < r * (2 * total) + 2 * total
    ensures total > 0 && present <= total ==> 0 <= r <= 100
  {
    if total == 0 then 0
    else
      var n := 200 * present + total;
      var d := 2 * total;
      DivBounds(n, d);
      if present <= total then
        assert n < 101 * d;
        BelowMultiple(n / d, 101, d);
        n / d
      else
        n / d
  }

  lemma DivBounds(n: nat, d: int)
    requires d > 0
    ensures 0 <= n / d && (n / d) * d <= n < (n / d) * d + d
  {
  }

  lemma BelowMultiple(a: int, b: int, d: int)
    requires d > 0 && a * d < b * d
    ensures a < b
  {
  }

  predicate AlreadyCheckedIn(todayAtt: seq<AttendanceRecord>, memberId: string) {
    exists a :: a in todayAtt && a.memberId == memberId
  }

  /** The per-member check-in button is disabled while a request runs, for
      an expired member, and for a member already checked in that day. */
  predicate CheckInDisabled(loading: bool, m: Member, todayAtt: seq<AttendanceRecord>) {
    loading || m.status == Expired || AlreadyCheckedIn(todayAtt, m.id)
  }

  /** A member with a record on the selected day cannot be checked in again
      from the list. */
  lemma CheckedInMemberDisabled(att: seq<AttendanceRecord>, day: Day, m: Member, a: AttendanceRecord)
    requires a in att && a.memberId == m.id && a.checkInDay == day
    ensures CheckInDisabled(false, m, TodayAttendance(att, day))
  {
    TodayAttendanceCorrect(att, day);
  }

  /** The manual search: name containing the query ignoring case, or phone
      containing it as typed. */
  function NameOrPhone(query: string): Member -> bool {
    (m: Member) => Contains(Lower(m.name), Lower(query)) || Contains(m.phone, query)
  }

  function SearchMembers(ms: seq<Member>, query: string): seq<Member> {
    Filter(ms, NameOrPhone(query))
  }

  lemma SearchMembersCorrect(ms: seq<Member>, query: string)
    ensures forall m :: m in SearchMembers(ms, query) <==>
      m in ms && (Contains(Lower(m.name), Lower(query)) || Contains(m.phone, query))
  {
    FilterCorrect(ms, NameOrPhone(query));
  }

  const CsvHeader: seq<string> := ["Member Name", "Phone", "Check-In Time", "Status"]

  /** One CSV row: the record's name and time, and the member's phone
      (`"-"` when unknown or empty) and status (`"active"` when unknown). */
  function CsvRow(a: AttendanceRecord, members: seq<Member>): (r: seq<string>)
    ensures |r| == 4 && r[0] == a.memberName && r[2] == a.checkInClock
    ensures (forall m :: m in members ==> m.id != a.memberId) ==> r[1] == "-" && r[3] == "active"
    ensures forall m :: (m in members && m.id == a.memberId && m.phone != ""
      && (forall m' :: m' in members && m'.id == a.memberId ==> m' == m)) ==> r[1] == m.phone && r[3] == StatusName(m.status)
  {
    var found := FindFirst(members, MemberWithId(a.memberId));
    [a.memberName,
     if found.Some? && found.value.phone != "" then found.value.phone else "-",
     a.checkInClock,
     if found.Some? then StatusName(found.value.status) else "active"]
  }

  function CsvLines(todayAtt: seq<AttendanceRecord>, members: seq<Member>): seq<seq<string>> {
    [CsvHeader] + seq(|todayAtt|, i requires 0 <= i < |todayAtt| => CsvRow(todayAtt[i], members))
  }

  function JoinRows(lines: seq<seq<string>>): seq<string> {
    seq(|lines|, i requires 0 <= i < |lines| => Join(lines[i], ","))
  }

  /** `exportAttendance`: cells joined by "," and rows by "\n". */
  function ExportCsv(todayAtt: seq<AttendanceRecord>, members: seq<Member>): string {
    Join(JoinRows(CsvLines(todayAtt, members)), "\n")
  }

  predicate PlainCell(s: string) {
    ',' !in s && '\n' !in s
  }

  /** When no name, time or phone holds a comma or a line break, the export
      reads back as the header followed by one row per record of the day. */
  lemma ExportCsvReadsBack(todayAtt: seq<AttendanceRecord>, members: seq<Member>)
    requires forall a :: a in todayAtt ==> PlainCell(a.memberName) && PlainCell(a.checkInClock)
    requires forall m :: m in members ==> PlainCell(m.phone)
    ensures var lines := Split(ExportCsv(todayAtt, members), '\n');
      && |lines| == |todayAtt| + 1
      && Split(lines[0], ',') == CsvHeader
      && forall i :: 0 <= i < |todayAtt| ==> Split(lines[i + 1], ',') == CsvRow(todayAtt[i], members)
  {
    var lines := CsvLines(todayAtt, members);
    var rows := JoinRows(lines);
    forall i | 0 <= i < |lines|
      ensures '\n' !in rows[i]
      ensures Split(rows[i], ',') == lines[i]
    {
      if i == 0 {
        HeaderPlain();
      } else {
        RowPlain(todayAtt[i - 1], members);
      }
      LineReadsBack(lines[i]);
    }
    SplitJoin(rows, '\n');
  }

  /** A line of plain cells joins without a line break and splits back
      into its cells. */
  lemma LineReadsBack(line: seq<string>)
    requires |line| >= 1 && forall j :: 0 <= j < |line| ==> PlainCell(line[j])
    ensures '\n' !in Join(line, ",")
    ensures Split(Join(line, ","), ',') == line
  {
    JoinAvoids(line, ",", '\n');
    SplitJoin(line, ',');
  }

  lemma HeaderPlain()
    ensures forall j :: 0 <= j < |CsvHeader| ==> PlainCell(CsvHeader[j])
  {
  }

  lemma StatusNamePlain(s: Status)
    ensures PlainCell(StatusName(s))
  {
  }

  lemma RowPlain(a: AttendanceRecord, members: seq<Member>)
    requires PlainCell(a.memberName) && PlainCell(a.checkInClock)
    requires forall m :: m in members ==> PlainCell(m.phone)
    ensures forall j :: 0 <= j < 4 ==> PlainCell(CsvRow(a, members)[j])
  {
    var found := FindFirst(members, MemberWithId(a.memberId));
    if found.Some? {
      assert PlainCell(found.value.phone);
      StatusNamePlain(found.value.status);
    }
  }

  /** The account's own QR tokens begin with the account id, so the scanner
      accepts one only when the account id itself begins with "MDQR_". */
  lemma IssuedTokenScans(uid: string, clock: nat, nonce: string)
    ensures StartsWith(QrToken(uid, clock, nonce), QrPrefix) <==> StartsWith(uid, QrPrefix)
  {
    var token := QrToken(uid, clock, nonce);
    if |uid| >= |QrPrefix| {
      assert token[..|QrPrefix|] == uid[..|QrPrefix|];
    } else {
      assert token[|uid|] == '-';
      assert QrPrefix[|uid|] != '-';
    }
  }

  /** The arguments of the `check_in_by_qr` call (the device id is left out). */
  datatype QrCheckIn = QrCheckIn(userId: Option<string>, token: string, branchId: Option<string>)

  datatype AttendanceInsert = AttendanceInsert(userId: Option<string>, memberId: string, memberName: string, checkInMillis: int)

  /** How the check-in call ended: it threw (with a possibly empty message),
      or it answered with `success`, an error text and the member's name. */
  datatype RpcOutcome =
    | RpcThrew(message: Option<string>)
    | RpcAnswered(success: bool, error: Option<string>, memberName: Option<string>)

  datatype InsertOutcome = Inserted | InsertFailed(message: Option<string>)

  function UserIdOf(s: Snapshot): Option<string> {
    if s.user.Some? then Some(s.user.value.id) else None
  }

  function BranchIdOf(s: Snapshot): Option<string> {
    if s.currentBranch.Some? then Some(s.currentBranch.value.id) else None
  }

  /** The toast a scan that passed the prefix check ends with. */
  function ScanNotice(outcome: RpcOutcome): (n: Notice)
    ensures n.destructive <==> !(outcome.RpcAnswered? && outcome.success)
  {
    match outcome
    case RpcThrew(msg) => Notice("Error", OrElse(msg, "Failed to process QR code."), true)
    case RpcAnswered(success, error, name) =>
      if !success then Notice("Check-In Failed", OrElse(error, "Could not check in member."), true)
      else Notice("Check-In Successful", Shown(name) + " has been marked present.", false)
  }

  function InsertNotice(memberName: string, outcome: InsertOutcome): (n: Notice)
    ensures n.destructive <==> outcome.InsertFailed?
  {
    match outcome
    case Inserted => Notice("Check-In Successful", memberName + " has been marked present.", false)
    case InsertFailed(msg) => Notice("Error", OrElse(msg, "Failed to record attendance."), true)
  }

  class AttendanceView {
    var loading: bool
    var isScanning: bool
    /** A camera scanner is held. */
    var scannerOpen: bool
    var manualMemberId: string
    var toasts: seq<Notice>
    var rpcCalls: seq<QrCheckIn>
    var inserts: seq<AttendanceInsert>

    constructor ()
      ensures !loading && !isScanning && !scannerOpen && manualMemberId == ""
      ensures toasts == [] && rpcCalls == [] && inserts == []
    {
      loading, isScanning, scannerOpen, manualMemberId := false, false, false, "";
      toasts, rpcCalls, inserts := [], [], [];
    }

    /** `handleQrCodeScan`: text without the "MDQR_" prefix is refused with
        no call; otherwise the check-in call is made, a refusal keeps the
        scanner running, and a success stops and releases it. */
    method HandleQrCodeScan(s: Snapshot, decoded: string, outcome: RpcOutcome)
      modifies this
      ensures !StartsWith(decoded, QrPrefix) ==>
        && rpcCalls == old(rpcCalls) && loading == old(loading)
        && isScanning == old(isScanning) && scannerOpen == old(scannerOpen)
        && toasts == old(toasts) + [Notice("Invalid QR Code", "This is not a valid MuscleDesk member QR code.", true)]
      ensures StartsWith(decoded, QrPrefix) ==>
        && rpcCalls == old(rpcCalls) + [QrCheckIn(UserIdOf(s), decoded, BranchIdOf(s))]
        && !loading
        && toasts == old(toasts) + [ScanNotice(outcome)]
        && (outcome.RpcAnswered? && outcome.success ==> !isScanning && !scannerOpen)
        && (!(outcome.RpcAnswered? && outcome.success) ==> isScanning == old(isScanning) && scannerOpen == old(scannerOpen))
      ensures inserts == old(inserts) && manualMemberId == old(manualMemberId)
    {
      if !StartsWith(decoded, QrPrefix) {
        toasts := toasts + [Notice("Invalid QR Code", "This is not a valid MuscleDesk member QR code.", true)];
        return;
      }
      loading := true;
      rpcCalls := rpcCalls + [QrCheckIn(UserIdOf(s), decoded, BranchIdOf(s))];
      toasts := toasts + [ScanNotice(outcome)];
      if outcome.RpcAnswered? && outcome.success {
        isScanning := false;
        scannerOpen := false;
      }
      loading := false;
    }

    /** `recordAttendance`: one insert, a toast for its outcome, and
        `loading` cleared on both paths. */
    method RecordAttendance(s: Snapshot, memberId: string, memberName: string, instant: int, outcome: InsertOutcome)
      modifies this
      ensures inserts == old(inserts) + [AttendanceInsert(UserIdOf(s), memberId, memberName, instant)]
      ensures toasts == old(toasts) + [InsertNotice(memberName, outcome)]
      ensures !loading
      ensures isScanning == old(isScanning) && scannerOpen == old(scannerOpen)
      ensures manualMemberId == old(manualMemberId) && rpcCalls == old(rpcCalls)
    {
      loading := true;
      inserts := inserts + [AttendanceInsert(UserIdOf(s), memberId, memberName, instant)];
      toasts := toasts + [InsertNotice(memberName, outcome)];
      loading := false;
    }

    /** `handleManualCheckIn`: nothing for an empty or unknown id, a notice
        and no insert for a member already checked in on the selected day,
        otherwise one insert and the id field cleared. */
    method HandleManualCheckIn(s: Snapshot, selectedDay: Day, instant: int, outcome: InsertOutcome)
      modifies this
      ensures var found := FindFirst(s.members, MemberWithId(old(manualMemberId)));
        && (old(manualMemberId) == "" || found.None? ==>
              inserts == old(inserts) && toasts == old(toasts) && manualMemberId == old(manualMemberId)
              && loading == old(loading))
        && (old(manualMemberId) != "" && found.Some?
            && AlreadyCheckedIn(TodayAttendance(s.attendance, selectedDay), found.value.id) ==>
              && inserts == old(inserts) && manualMemberId == old(manualMemberId) && loading == old(loading)
              && toasts == old(toasts) + [Notice("Already Checked In", found.value.name + " has already checked in today.", false)])
        && (old(manualMemberId) != "" && found.Some?
            && !AlreadyCheckedIn(TodayAttendance(s.attendance, selectedDay), found.value.id) ==>
              && inserts == old(inserts) + [AttendanceInsert(UserIdOf(s), found.value.id, found.value.name, instant)]
              && toasts == old(toasts) + [InsertNotice(found.value.name, outcome)]
              && manualMemberId == "" && !loading)
      ensures isScanning == old(isScanning) && scannerOpen == old(scannerOpen) && rpcCalls == old(rpcCalls)
    {
      if manualMemberId == "" {
        return;
      }
      var found := FindFirst(s.members, MemberWithId(manualMemberId));
      if found.None? {
        return;
      }
      var member := found.value;
      if AlreadyCheckedIn(TodayAttendance(s.attendance, selectedDay), member.id) {
        toasts := toasts + [Notice("Already Checked In", member.name + " has already checked in today.", false)];
        return;
      }
      RecordAttendance(s, member.id, member.name, instant, outcome);
      manualMemberId := "";
    }
  }

  /** A manual check-in never records a second check-in for the same day:
      whenever it inserts, the member had no record on the selected day. */
  lemma ManualCheckInOncePerDay(att: seq<AttendanceRecord>, day: Day, memberId: string)
    requires !AlreadyCheckedIn(TodayAttendance(att, day), memberId)
    ensures forall a :: a in att && a.checkInDay == day ==> a.memberId != memberId
  {
    TodayAttendanceCorrect(att, day);
  }
}
