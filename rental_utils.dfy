/**
 * The rental rules of the DVD-rental dashboard: due date, rental status,
 * days overdue, late fee, and the label and badge shown for a status.
 * Instants are integer milliseconds since the epoch; "now" is a parameter.
 * Money is an exact `real`.
 */
module RentalUtils {
  import opened Wrappers

  /** Milliseconds in one day (1000 * 60 * 60 * 24). */
  const DayMs: int := 86400000

  datatype RentalStatus = Returned | Outstanding | Overdue

  /** The status as the string the API and the UI use. */
  function StatusName(s: RentalStatus): (name: string)
    ensures name in {"returned", "outstanding", "overdue"}
  {
    match s
    case Returned => "returned"
    case Outstanding => "outstanding"
    case Overdue => "overdue"
  }

  /** Due date: the rental instant advanced by `duration` whole days. */
  function DueDate(rentalDate: int, duration: int): (due: int)
    ensures due - rentalDate == duration * DayMs
  {
    rentalDate + duration * DayMs
  }

  datatype StatusInfo = StatusInfo(status: RentalStatus, daysOverdue: int)

  /** `Math.ceil(ms / DayMs)`. */
  function CeilDays(ms: int): (d: int)
    ensures (d - 1) * DayMs < ms <= d * DayMs
  {
    -((-ms) / DayMs)
  }

  /**
   * Status of a rental: a truthy (non-empty) return date means returned;
   * otherwise overdue when now is strictly after the due date, else outstanding.
   */
  function GetRentalStatus(returnDate: Option<string>, dueDate: int, now: int): (r: StatusInfo)
    ensures (returnDate.Some? && returnDate.value != "") ==> r == StatusInfo(Returned, 0)
    ensures !(returnDate.Some? && returnDate.value != "") && now > dueDate ==>
              r.status == Overdue && r.daysOverdue >= 1
              && (r.daysOverdue - 1) * DayMs < now - dueDate <= r.daysOverdue * DayMs
    ensures !(returnDate.Some? && returnDate.value != "") && now <= dueDate ==>
              r == StatusInfo(Outstanding, 0)
  {
    if returnDate.Some? && returnDate.value != "" then StatusInfo(Returned, 0)
    else if now > dueDate then StatusInfo(Overdue, CeilDays(now - dueDate))
    else StatusInfo(Outstanding, 0)
  }

  /**
   * Late fee: days overdue times 150% of the rental rate, so no days cost
   * nothing and a non-negative rate never gives a negative fee.
   */
  function CalculateLateFee(daysOverdue: int, rentalRate: real): (fee: real)
    ensures daysOverdue == 0 ==> fee == 0.0
    ensures daysOverdue >= 0 && rentalRate >= 0.0 ==> fee >= 0.0
    ensures daysOverdue > 0 && rentalRate > 0.0 ==> fee > rentalRate
  {
    daysOverdue as real * (rentalRate * 1.5)
  }

  /** For a non-negative rate the fee never falls as the days grow, and is never negative. */
  lemma LateFeeMonotone(d1: int, d2: int, rentalRate: real)
    requires 0 <= d1 <= d2 && rentalRate >= 0.0
    ensures 0.0 <= CalculateLateFee(d1, rentalRate) <= CalculateLateFee(d2, rentalRate)
  {
    var k := rentalRate * 1.5;
    assert CalculateLateFee(d2 - d1, rentalRate) >= 0.0;
    assert (d2 - d1) as real * k == d2 as real * k - d1 as real * k;
  }

  /** Badge classes for a status name; an unknown name gets the grey badge. */
  function BadgeClasses(status: string): (c: string)
    ensures status == "returned" ==> c == "bg-green-100 text-green-800"
    ensures status == "outstanding" ==> c == "bg-yellow-100 text-yellow-800"
    ensures status == "overdue" ==> c == "bg-red-100 text-red-800"
    ensures status !in {"returned", "outstanding", "overdue"} ==> c == "bg-gray-100 text-gray-800"
  {
    match status
    case "returned" => "bg-green-100 text-green-800"
    case "outstanding" => "bg-yellow-100 text-yellow-800"
    case "overdue" => "bg-red-100 text-red-800"
    case _ => "bg-gray-100 text-gray-800"
  }

  /** Display text for a status name; an unknown name reads "unknown". */
  function StatusText(status: string): (t: string)
    ensures status == "returned" ==> t == "반납됨"
    ensures status == "outstanding" ==> t == "대여 중"
    ensures status == "overdue" ==> t == "연체"
    ensures status !in {"returned", "outstanding", "overdue"} ==> t == "알 수 없음"
  {
    match status
    case "returned" => "반납됨"
    case "outstanding" => "대여 중"
    case "overdue" => "연체"
    case _ => "알 수 없음"
  }

  /** Each of the three statuses has its own text and badge, none of them the fallback. */
  lemma StatusPresentationDistinct(s: RentalStatus, t: RentalStatus)
    ensures StatusText(StatusName(s)) != "알 수 없음"
    ensures BadgeClasses(StatusName(s)) != "bg-gray-100 text-gray-800"
    ensures s != t ==> StatusText(StatusName(s)) != StatusText(StatusName(t))
    ensures s != t ==> BadgeClasses(StatusName(s)) != BadgeClasses(StatusName(t))
  {
  }

  /** The summary shown for one rental (the locale-formatted due date is not modelled). */
  datatype RentalSummary = RentalSummary(
    dueDate: int,
    status: RentalStatus,
    daysOverdue: int,
    lateFee: real,
    statusText: string,
    statusClasses: string)

  function GetRentalSummary(rentalDate: int, returnDate: Option<string>, duration: int,
                            rentalRate: real, now: int): (s: RentalSummary)
    ensures s.dueDate == DueDate(rentalDate, duration)
    ensures StatusInfo(s.status, s.daysOverdue) == GetRentalStatus(returnDate, s.dueDate, now)
    ensures s.lateFee == CalculateLateFee(s.daysOverdue, rentalRate)
    ensures s.statusText == StatusText(StatusName(s.status))
    ensures s.statusClasses == BadgeClasses(StatusName(s.status))
  {
    var due := DueDate(rentalDate, duration);
    var info := GetRentalStatus(returnDate, due, now);
    RentalSummary(due, info.status, info.daysOverdue, CalculateLateFee(info.daysOverdue, rentalRate),
                  StatusText(StatusName(info.status)), BadgeClasses(StatusName(info.status)))
  }

  /** Only an overdue summary can carry a late fee. */
  lemma SummaryFeeOnlyWhenOverdue(rentalDate: int, returnDate: Option<string>, duration: int,
                                  rentalRate: real, now: int)
    ensures var s := GetRentalSummary(rentalDate, returnDate, duration, rentalRate, now);
            s.status != Overdue ==> s.daysOverdue == 0 && s.lateFee == 0.0
  {
  }

  /** A summary is overdue exactly when unreturned and now is past rental date plus duration. */
  lemma SummaryOverdueIff(rentalDate: int, returnDate: Option<string>, duration: int,
                          rentalRate: real, now: int)
    ensures var s := GetRentalSummary(rentalDate, returnDate, duration, rentalRate, now);
            s.status == Overdue <==>
              (returnDate.None? || returnDate.value == "") && now > rentalDate + duration * DayMs
  {
  }
}
