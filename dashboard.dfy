/**
 * The dashboard's derived values: the relative-date label of a notification,
 * the days left until the next draw, the participation-status labels and
 * colours, the payment and entry-status labels, and the recent-activity list.
 * Instants are millisecond timestamps (`getTime()`); `None` stands for the NaN
 * an unparsable date string gives.
 */
module Dashboard {
  import opened Basics
  import opened Strings

  /** `1000 * 60 * 60 * 24`. */
  const DayMs: nat := 1000 * 60 * 60 * 24

  function Abs(x: int): (r: nat)
    ensures r == x || r == -x
  {
    if x < 0 then -x else x
  }

  /** `Math.floor(Math.abs(now - date) / DayMs)`: whole days between the instants, either way round. */
  function DiffDays(nowMs: int, dateMs: int): (d: nat)
    ensures d * DayMs <= Abs(nowMs - dateMs) < (d + 1) * DayMs
  {
    Abs(nowMs - dateMs) / DayMs
  }

  /** Past and future instants at the same distance are the same number of days away. */
  lemma DiffDaysSymmetric(nowMs: int, dateMs: int)
    ensures DiffDays(nowMs, dateMs) == DiffDays(dateMs, nowMs)
  {
    assert Abs(nowMs - dateMs) == Abs(dateMs - nowMs);
  }

  /** What `formatDateRelative` shows; `Absolute` is `formatDate(dateString)`, whose locale text is not modelled. */
  datatype RelativeDate = Label(text: string) | Absolute(dateString: string)

  /**
   * `formatDateRelative`: "Today" within a day, "Yesterday" within two, "N
   * days ago" below a week, the absolute date from a week on and for an
   * unparsable date (every comparison with NaN is false).
   */
  function FormatDateRelative(dateString: string, dateMs: Option<int>, nowMs: int): (r: RelativeDate)
    ensures dateMs.None? ==> r == Absolute(dateString)
    ensures dateMs.Some? ==> var gap := Abs(nowMs - dateMs.value);
      && (r == Label("Today") <==> gap < DayMs)
      && (r == Label("Yesterday") <==> DayMs <= gap < 2 * DayMs)
      && (r.Label? && r != Label("Today") && r != Label("Yesterday") <==> 2 * DayMs <= gap < 7 * DayMs)
      && (r == Absolute(dateString) <==> 7 * DayMs <= gap)
  {
    if dateMs.None? then Absolute(dateString)
    else
      var diffDays := DiffDays(nowMs, dateMs.value);
      if diffDays == 0 then Label("Today")
      else if diffDays == 1 then Label("Yesterday")
      else if diffDays < 7 then Label(NatToString(diffDays) + " days ago")
      else Absolute(dateString)
  }

  /** Between two and six days the label names the number of whole days. */
  lemma DaysAgoLabel(dateString: string, dateMs: int, nowMs: int)
    requires 2 * DayMs <= Abs(nowMs - dateMs) < 7 * DayMs
    ensures var n := Abs(nowMs - dateMs) / DayMs;
      2 <= n <= 6 && FormatDateRelative(dateString, Some(dateMs), nowMs) == Label([DigitChar(n)] + " days ago")
  {
    var n := DiffDays(nowMs, dateMs);
    assert 2 <= n;
  }

  /** A date the same distance in the past or in the future gets the same label. */
  lemma RelativeDateSymmetric(dateString: string, nowMs: int, delta: int)
    ensures FormatDateRelative(dateString, Some(nowMs - delta), nowMs)
         == FormatDateRelative(dateString, Some(nowMs + delta), nowMs)
  {
    assert Abs(nowMs - (nowMs - delta)) == Abs(nowMs - (nowMs + delta));
  }

  /**
   * `getDaysUntilDraw`: `Math.ceil(Math.abs(draw - now) / DayMs)`, the days
   * rounded up; NaN (here `None`) for an unparsable draw date.
   */
  function DaysUntilDraw(drawMs: Option<int>, nowMs: int): (r: Option<nat>)
    ensures r.Some? <==> drawMs.Some?
    ensures drawMs.Some? ==> var gap := Abs(drawMs.value - nowMs);
      && (r.value - 1) * DayMs < gap <= r.value * DayMs
      && (r.value == 0 <==> drawMs.value == nowMs)
      && DiffDays(drawMs.value, nowMs) <= r.value <= DiffDays(drawMs.value, nowMs) + 1
  {
    if drawMs.None? then None
    else
      var gap := Abs(drawMs.value - nowMs);
      Some((gap + DayMs - 1) / DayMs)
  }

  /** The participation statuses the two switches name. */
  predicate KnownStatus(s: string) {
    s == "selected" || s == "not_selected" || s == "pending"
  }

  /** The classes `getStatusColor` falls back to. */
  const DefaultStatusColor: string := "bg-gray-200 text-gray-700"

  /** `getStatusColor`: one colour per known status, grey for any other string. */
  function StatusColor(status: string): (c: string)
    ensures !KnownStatus(status) <==> c == DefaultStatusColor
  {
    if status == "selected" then "bg-voyage-success text-white"
    else if status == "not_selected" then "bg-voyage-error text-white"
    else if status == "pending" then "bg-voyage-warning text-white"
    else DefaultStatusColor
  }

  /** `getStatusText`: a label per known status, "Unknown" for any other string. */
  function StatusText(status: string): (t: string)
    ensures !KnownStatus(status) <==> t == "Unknown"
  {
    if status == "selected" then "Selected"
    else if status == "not_selected" then "Not Selected"
    else if status == "pending" then "Pending"
    else "Unknown"
  }

  /** The two switches agree on what is known, and tell the known statuses apart. */
  lemma StatusMappingsAgree(s: string, t: string)
    ensures StatusText(s) == "Unknown" <==> StatusColor(s) == DefaultStatusColor
    ensures KnownStatus(s) && KnownStatus(t) && s != t ==>
      StatusText(s) != StatusText(t) && StatusColor(s) != StatusColor(t)
  {
  }

  /** The labels of the three known statuses. */
  lemma StatusTextTable()
    ensures StatusText("selected") == "Selected"
    ensures StatusText("not_selected") == "Not Selected"
    ensures StatusText("pending") == "Pending"
  {
  }

  /** The payment card's label: "Paid", "Pending", and "Unpaid" for every other value. */
  function PaymentLabel(paymentStatus: string): (l: string)
    ensures l == "Paid" <==> paymentStatus == "paid"
    ensures l == "Pending" <==> paymentStatus == "pending"
    ensures l == "Unpaid" <==> paymentStatus != "paid" && paymentStatus != "pending"
  {
    if paymentStatus == "paid" then "Paid"
    else if paymentStatus == "pending" then "Pending"
    else "Unpaid"
  }

  /** The status card's label: "Winner!", "Draw Pending", and "Active Entry" for every other value. */
  function EntryStatusLabel(status: string): (l: string)
    ensures l == "Winner!" <==> status == "selected"
    ensures l == "Draw Pending" <==> status == "pending"
    ensures l == "Active Entry" <==> status != "selected" && status != "pending"
  {
    if status == "selected" then "Winner!"
    else if status == "pending" then "Draw Pending"
    else "Active Entry"
  }

  datatype Participation = Participation(id: int, date: string, status: string, paid: bool)

  /** How many participations the recent-activity card shows. */
  const RecentLimit: nat := 3

  /** `participations.slice(0, 3)`: the first three, or all of them when there are fewer. */
  function RecentActivity(ps: seq<Participation>): (r: seq<Participation>)
    ensures |r| == if |ps| < RecentLimit then |ps| else RecentLimit
    ensures r <= ps
  {
    if |ps| < RecentLimit then ps else ps[..RecentLimit]
  }
}
