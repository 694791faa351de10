/** The statistics behind the AI recommendations endpoint
    (app/api/ai/recommendations/route.ts): the posted members and payments
    are summarised into a prompt, the prompt goes to a text generator, and
    the reply is the generated text or an error with status 500. Instants
    are milliseconds; the current instant and the generator are parameters. */
module Recommendations {
  import opened Wrappers
  import opened Text
  import opened ListOps
  import StatusEngine

  /** A posted member as the route reads it: `new Date(m.expiry_date)` gives
      an instant, or an invalid date (`None`) for a missing or unparseable
      value, against which every comparison is false. */
  datatype PostedMember = PostedMember(expiryMillis: Option<int>)

  /** A posted payment: its amount and its `status`, if any. */
  datatype PostedPayment = PostedPayment(amount: int, status: Option<string>)

  /** `expiry > new Date()`: strictly after the current instant, with no
      rounding to midnight. */
  predicate ActiveAt(m: PostedMember, now: int) {
    m.expiryMillis.Some? && m.expiryMillis.value > now
  }

  /** `Math.ceil((expiry - now) / 86400000)` */
  function DaysUntil(expiryMillis: int, now: int): int {
    StatusEngine.CeilDiv(expiryMillis - now, StatusEngine.MillisPerDay)
  }

  /** `daysLeft > 0 && daysLeft <= 7` */
  predicate ExpiringAt(m: PostedMember, now: int) {
    m.expiryMillis.Some? && 0 < DaysUntil(m.expiryMillis.value, now) <= 7
  }

  function ActiveMembers(ms: seq<PostedMember>, now: int): seq<PostedMember> {
    Filter(ms, (m: PostedMember) => ActiveAt(m, now))
  }

  function ExpiringMembers(ms: seq<PostedMember>, now: int): seq<PostedMember> {
    Filter(ms, (m: PostedMember) => ExpiringAt(m, now))
  }

  /** The lists hold exactly the members passing each test. */
  lemma MemberListsCorrect(ms: seq<PostedMember>, now: int)
    ensures forall m :: m in ActiveMembers(ms, now) <==> m in ms && ActiveAt(m, now)
    ensures forall m :: m in ExpiringMembers(ms, now) <==> m in ms && ExpiringAt(m, now)
  {
    FilterCorrect(ms, (m: PostedMember) => ActiveAt(m, now));
    FilterCorrect(ms, (m: PostedMember) => ExpiringAt(m, now));
  }

  /** A positive ceiling of days means the expiry is still ahead. */
  lemma ExpiringIsActive(m: PostedMember, now: int)
    requires ExpiringAt(m, now)
    ensures ActiveAt(m, now)
  {
    var q := DaysUntil(m.expiryMillis.value, now);
    assert (q - 1) * StatusEngine.MillisPerDay < m.expiryMillis.value - now;
    assert 0 <= (q - 1) * StatusEngine.MillisPerDay;
  }

  /** Hence no more members are expiring than are active, and neither count
      exceeds the total. */
  lemma {:induction false} ExpiringAtMostActive(ms: seq<PostedMember>, now: int)
    ensures |ExpiringMembers(ms, now)| <= |ActiveMembers(ms, now)| <= |ms|
    decreases |ms|
  {
    if |ms| > 0 {
      ExpiringAtMostActive(ms[1..], now);
      if ExpiringAt(ms[0], now) {
        ExpiringIsActive(ms[0], now);
      }
    }
  }

  /** `p.status === "completed"` */
  predicate Completed(p: PostedPayment) {
    p.status == Some("completed")
  }

  /** Every amount, added up. */
  function Sum(ps: seq<PostedPayment>): int
    decreases |ps|
  {
    if |ps| == 0 then 0 else ps[0].amount + Sum(ps[1..])
  }

  /** `totalRevenue`: amounts of completed payments, in one pass. */
  function TotalRevenue(ps: seq<PostedPayment>): int
    decreases |ps|
  {
    if |ps| == 0 then 0
    else (if Completed(ps[0]) then ps[0].amount else 0) + TotalRevenue(ps[1..])
  }

  /** The one-pass total is the sum over the completed payments, as the
      source writes it with `filter` and `reduce`. */
  lemma {:induction false} RevenueIsSumOfCompleted(ps: seq<PostedPayment>)
    ensures TotalRevenue(ps) == Sum(Filter(ps, Completed))
    decreases |ps|
  {
    if |ps| > 0 {
      RevenueIsSumOfCompleted(ps[1..]);
      assert Filter(ps, Completed) == (if Completed(ps[0]) then [ps[0]] else []) + Filter(ps[1..], Completed);
      SumAppend(if Completed(ps[0]) then [ps[0]] else [], Filter(ps[1..], Completed));
    }
  }

  lemma {:induction false} SumAppend(a: seq<PostedPayment>, b: seq<PostedPayment>)
    ensures Sum(a + b) == Sum(a) + Sum(b)
    decreases |a|
  {
    if |a| == 0 {
      assert a + b == b;
    } else {
      assert (a + b)[1..] == a[1..] + b;
      SumAppend(a[1..], b);
    }
  }

  /** Pending, failed or status-less payments add nothing. */
  lemma {:induction false} RevenueIgnoresIncomplete(ps: seq<PostedPayment>)
    requires forall i :: 0 <= i < |ps| ==> !Completed(ps[i])
    ensures TotalRevenue(ps) == 0
    decreases |ps|
  {
    if |ps| > 0 {
      RevenueIgnoresIncomplete(ps[1..]);
    }
  }

  /** Adding payments adds their completed amounts and nothing else. */
  lemma {:induction false} RevenueAppend(a: seq<PostedPayment>, b: seq<PostedPayment>)
    ensures TotalRevenue(a + b) == TotalRevenue(a) + TotalRevenue(b)
    decreases |a|
  {
    if |a| == 0 {
      assert a + b == b;
    } else {
      assert (a + b)[1..] == a[1..] + b;
      RevenueAppend(a[1..], b);
    }
  }

  /** With non-negative amounts the revenue lies between 0 and the sum of
      all amounts. */
  lemma {:induction false} RevenueBounds(ps: seq<PostedPayment>)
    requires forall i :: 0 <= i < |ps| ==> ps[i].amount >= 0
    ensures 0 <= TotalRevenue(ps) <= Sum(ps)
    decreases |ps|
  {
    if |ps| > 0 {
      RevenueBounds(ps[1..]);
    }
  }

  /** `payments.length || 1` */
  function Divisor(ps: seq<PostedPayment>): (n: int)
    ensures n >= 1
    ensures |ps| > 0 ==> n == |ps|
  {
    if |ps| == 0 then 1 else |ps|
  }

  /** `Math.round(total / n)`: the quotient taken exactly and rounded to the
      nearest integer, halves towards plus infinity. */
  function RoundedAverage(total: int, n: int): (r: int)
    requires n >= 1
    ensures r * (2 * n) <= 2 * total + n < r * (2 * n) + 2 * n
  {
    var q := (2 * total + n) / (2 * n);
    FloorDivBounds(2 * total + n, 2 * n);
    q
  }

  lemma FloorDivBounds(a: int, b: int)
    requires b > 0
    ensures (a / b) * b <= a < (a / b) * b + b
  {
  }

  /** The rounded average is the integer nearest the exact average: it is
      within half a payment of `total / n`. */
  lemma RoundedAverageNearest(total: int, n: int)
    requires n >= 1
    ensures 2 * (RoundedAverage(total, n) * n - total) <= n
    ensures -n < 2 * (RoundedAverage(total, n) * n - total)
  {
    var r := RoundedAverage(total, n);
    assert r * (2 * n) == 2 * (r * n);
  }

  /** A whole average needs no rounding. */
  lemma RoundedAverageExact(k: int, n: int)
    requires n >= 1
    ensures RoundedAverage(k * n, n) == k
  {
    assert 2 * (k * n) + n == k * (2 * n) + n;
    DivUnique(2 * (k * n) + n, 2 * n, k);
  }

  /** The floor quotient is the one multiple bracketing the dividend. */
  lemma DivUnique(a: int, b: int, q: int)
    requires b > 0 && q * b <= a < q * b + b
    ensures a / b == q
  {
    FloorDivBounds(a, b);
    var r := a / b;
    assert r * b < (q + 1) * b;
    assert q * b < (r + 1) * b;
    MulLess(r, q + 1, b);
    MulLess(q, r + 1, b);
  }

  /** The figures the prompt reports. */
  datatype Statistics = Statistics(
    totalMembers: nat,
    activeMembers: nat,
    expiringMembers: nat,
    totalRevenue: int,
    averagePayment: int)

  function Summarise(ms: seq<PostedMember>, ps: seq<PostedPayment>, now: int): (s: Statistics)
    ensures s.totalMembers == |ms|
    ensures s.expiringMembers <= s.activeMembers <= s.totalMembers
    ensures s.averagePayment == RoundedAverage(TotalRevenue(ps), Divisor(ps))
  {
    ExpiringAtMostActive(ms, now);
    Statistics(
      |ms|,
      |ActiveMembers(ms, now)|,
      |ExpiringMembers(ms, now)|,
      TotalRevenue(ps),
      RoundedAverage(TotalRevenue(ps), Divisor(ps)))
  }

  /** Without payments the average is 0. */
  lemma NoPaymentsAverageZero(ms: seq<PostedMember>, now: int)
    ensures Summarise(ms, [], now).averagePayment == 0
    ensures Summarise(ms, [], now).totalRevenue == 0
  {
    RoundedAverageExact(0, 1);
  }

  function PromptIntro(): string {
    Role() + "\n\nGym Data:\n"
  }

  function Role(): string {
    "You are an expert gym business consultant. Analyze this gym's data and provide "
    + "5-6 specific, actionable recommendations to grow the business."
  }

  /** `context || "No additional context"` */
  function ContextText(context: Option<string>): string {
    OrElse(context, "No additional context")
  }

  /** The five figures, one line each. */
  function StatLines(s: Statistics): string {
    "- Total Members: " + IntToString(s.totalMembers) + "\n"
    + "- Active Members: " + IntToString(s.activeMembers) + "\n"
    + "- Members Expiring Soon (7 days): " + IntToString(s.expiringMembers) + "\n"
    + "- Total Revenue: " + Rupee() + IntToString(s.totalRevenue) + "\n"
    + "- Average Payment: " + Rupee() + IntToString(s.averagePayment) + "\n"
  }

  function Rupee(): string {
    "\U{20B9}"
  }

  function ContextLine(context: Option<string>): string {
    "- Recent Context: " + ContextText(context)
  }

  function PromptOutro(): string {
    FocusAreas() + Closing()
  }

  function FocusAreas(): string {
    "\n\nFocus on:\n1. Member retention strategies\n2. Revenue optimization\n"
    + "3. Operational improvements\n4. Marketing tactics\n5. Customer engagement\n\n"
  }

  function Closing(): string {
    "Provide recommendations in a numbered list format with specific actions "
    + "the gym owner can take immediately. Be concise and actionable."
  }

  function Prompt(s: Statistics, context: Option<string>): string {
    PromptIntro() + StatLines(s) + ContextLine(context) + PromptOutro()
  }

  /** The prompt carries the statistics lines. */
  lemma PromptShowsStatistics(s: Statistics, context: Option<string>)
    ensures Contains(Prompt(s, context), StatLines(s))
  {
    ContainsSecondOfFour(PromptIntro(), StatLines(s), ContextLine(context), PromptOutro());
  }

  /** The prompt carries the context line. */
  lemma PromptShowsContextLine(s: Statistics, context: Option<string>)
    ensures Contains(Prompt(s, context), ContextLine(context))
  {
    ContainsMiddle(PromptIntro() + StatLines(s), ContextLine(context), PromptOutro());
  }

  /** The context line shows the posted context when it is a non-empty
      string, and the fallback text otherwise. */
  lemma PromptShowsContext(s: Statistics, context: Option<string>)
    ensures Truthy(context) ==> Contains(Prompt(s, context), context.value)
    ensures !Truthy(context) ==> Contains(Prompt(s, context), "No additional context")
  {
    PromptShowsContextLine(s, context);
    ContainsSuffix("- Recent Context: ", ContextText(context));
    ContainsTransitive(Prompt(s, context), ContextLine(context), ContextText(context));
  }

  /** The request body as `request.json()` delivers it: either it could not
      be read into members, payments and context, or it could. */
  datatype Request =
    | Malformed(message: string)
    | Posted(members: seq<PostedMember>, payments: seq<PostedPayment>, context: Option<string>)

  /** What the text generator does with a prompt. */
  datatype Generation = Generated(text: string) | GenerationFailed(message: string)

  datatype Body = Recommendations(text: string) | ErrorBody(error: string)

  datatype Response = Response(status: int, body: Body)

  /** What the prompt is made of; the generator receives its text,
      `Prompt(stats, context)`, so any generator of text is a function of
      these two. */
  datatype PromptInput = PromptInput(stats: Statistics, context: Option<string>) {
    function Text(): string {
      Prompt(stats, context)
    }
  }

  /** The prompt a well-formed request leads to. */
  function PromptFor(req: Request, now: int): (p: PromptInput)
    requires req.Posted?
    ensures p.stats.totalMembers == |req.members|
    ensures p.stats.totalRevenue == TotalRevenue(req.payments)
    ensures p.context == req.context
  {
    PromptInput(Summarise(req.members, req.payments, now), req.context)
  }

  /** Something threw: the body could not be read or the generator failed. */
  predicate Threw(req: Request, now: int, generate: PromptInput -> Generation) {
    req.Malformed? || generate(PromptFor(req, now)).GenerationFailed?
  }

  /** `POST`: summarise, prompt, generate; any exception becomes
      `{ error: message }` with status 500, and otherwise the generated text
      is the body, with status 200. */
  function Post(req: Request, now: int, generate: PromptInput -> Generation): (r: Response)
    ensures r.status == 500 <==> Threw(req, now, generate)
    ensures r.status == 200 <==> !Threw(req, now, generate)
    ensures r.status == 200 <==> r.body.Recommendations?
    ensures r.status == 500 <==> r.body.ErrorBody?
    ensures req.Malformed? ==> r.body == ErrorBody(req.message)
    ensures req.Posted? ==> match generate(PromptFor(req, now))
      case Generated(t) => r.body == Recommendations(t)
      case GenerationFailed(e) => r.body == ErrorBody(e)
  {
    match req
    case Malformed(e) => Response(500, ErrorBody(e))
    case Posted(_, _, _) =>
      match generate(PromptFor(req, now))
      case Generated(t) => Response(200, Recommendations(t))
      case GenerationFailed(e) => Response(500, ErrorBody(e))
  }

  /** The route's `expiry > now` and the dashboard's day count agree for an
      expiry posted as the midnight (UTC) of day `e`, at any instant of day
      `today`: the member is active exactly when at least one day is left.
      A member expiring today is "expiring" on the dashboard but not active
      here. */
  lemma ActiveMatchesDaysLeft(e: int, today: int, t: int)
    requires 0 <= t < StatusEngine.MillisPerDay
    ensures ActiveAt(PostedMember(Some(e * StatusEngine.MillisPerDay)), today * StatusEngine.MillisPerDay + t)
            <==> StatusEngine.DaysLeft(e, today) > 0
  {
    var D := StatusEngine.MillisPerDay;
    var d := e - today;
    assert e * D - (today * D + t) == d * D - t;
    if d > 0 {
      assert d * D >= D;
    } else {
      assert d * D <= 0;
    }
  }

  /** At any instant of the day, the route's ceiling of days to a midnight
      expiry is the whole number of days the dashboard counts, so the route's
      expiring members are those in the dashboard's reminder window. */
  lemma DaysUntilMidnight(e: int, today: int, t: int)
    requires 0 <= t < StatusEngine.MillisPerDay
    ensures DaysUntil(e * StatusEngine.MillisPerDay, today * StatusEngine.MillisPerDay + t)
            == StatusEngine.DaysLeft(e, today)
  {
    var D := StatusEngine.MillisPerDay;
    var d := e - today;
    var q := DaysUntil(e * D, today * D + t);
    assert e * D - (today * D + t) == d * D - t;
    assert (q - 1) * D < d * D - t <= q * D;
    assert (q - 1) * D < d * D;
    assert (d - 1) * D < q * D;
    MulLess(q - 1, d, D);
    MulLess(d - 1, q, D);
  }

  lemma MulLess(a: int, b: int, D: int)
    requires D > 0 && a * D < b * D
    ensures a < b
  {
  }

  lemma ExpiringMatchesReminderWindow(e: int, today: int, t: int)
    requires 0 <= t < StatusEngine.MillisPerDay
    ensures ExpiringAt(PostedMember(Some(e * StatusEngine.MillisPerDay)), today * StatusEngine.MillisPerDay + t)
            <==> 0 < StatusEngine.DaysLeft(e, today) <= 7
  {
    DaysUntilMidnight(e, today, t);
  }
}
