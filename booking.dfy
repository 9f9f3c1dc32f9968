/**
 * The booking wizard: a three-step flow (choose a service, choose a date and
 * a time, enter customer details) over a draft booking, the per-step guard
 * that enables the forward and submit buttons, the list of bookable dates and
 * the date label shown on each date button.
 *
 * Dates are modelled as day offsets from today (1 = tomorrow) together with
 * today's weekday (0 = Sunday); the weekday of offset `i` is `(w + i) % 7`.
 */
module Booking {
  import opened Wrappers
  import opened Text

  // ------------------------------------------------------------ data model

  /** An entry of the fixed service catalog. */
  datatype Service = Service(id: int, name: string, duration: nat, price: nat,
                             description: string, popular: bool)

  const Services: seq<Service> := [
    Service(1, "經典法式美甲", 75, 1580, "優雅白尖設計，展現指尖經典魅力", true),
    Service(2, "奶茶色系凝膠", 90, 1880, "溫柔奶茶色調，打造知性優雅氣質", false),
    Service(3, "裸粉漸層設計", 105, 2280, "細膩漸層技法，呈現自然光澤美感", false),
    Service(4, "珍珠光澤護理", 120, 2680, "深層護理配合珍珠光澤，奢華保養體驗", false),
    Service(5, "法式延甲造型", 135, 3280, "專業延甲技術，量身打造完美指型", false)
  ]

  /** The time slots offered on every bookable date. */
  const AvailableTimes: seq<string> := ["10:00", "11:30", "13:00", "14:30", "16:00", "17:30", "19:00"]

  datatype CustomerInfo = CustomerInfo(name: string, phone: string, email: string, notes: string)

  /** The keys of `CustomerInfo`. */
  datatype CustomerField = NameField | PhoneField | EmailField | NotesField

  /** The draft booking: `service` is `None` until one is chosen. */
  datatype BookingData = BookingData(service: Option<Service>, date: string, time: string,
                                     customerInfo: CustomerInfo)

  const EmptyCustomerInfo := CustomerInfo("", "", "", "")
  const EmptyBookingData := BookingData(None, "", "", EmptyCustomerInfo)

  function CustomerValue(c: CustomerInfo, f: CustomerField): string {
    match f
    case NameField => c.name
    case PhoneField => c.phone
    case EmailField => c.email
    case NotesField => c.notes
  }

  /** `{ ...c, [f]: v }` */
  function WithCustomerField(c: CustomerInfo, f: CustomerField, v: string): (r: CustomerInfo)
    ensures CustomerValue(r, f) == v
    ensures forall g | g != f :: CustomerValue(r, g) == CustomerValue(c, g)
  {
    match f
    case NameField => c.(name := v)
    case PhoneField => c.(phone := v)
    case EmailField => c.(email := v)
    case NotesField => c.(notes := v)
  }

  /** `catalog.find(s => s.id === id)`, with `undefined` as `None`. */
  function FindService(catalog: seq<Service>, id: int): (r: Option<Service>)
    ensures r.None? <==> forall k :: 0 <= k < |catalog| ==> catalog[k].id != id
    ensures r.Some? ==> exists k :: 0 <= k < |catalog| && catalog[k] == r.value && r.value.id == id
                                    && forall j :: 0 <= j < k ==> catalog[j].id != id
  {
    if catalog == [] then None
    else if catalog[0].id == id then Some(catalog[0])
    else
      var r := FindService(catalog[1..], id);
      assert forall k :: 0 < k < |catalog| ==> catalog[k] == catalog[1..][k - 1];
      r
  }

  /** Every catalog id selects its own entry; any other id selects nothing. */
  lemma CatalogLookup(id: int)
    ensures FindService(Services, id).Some? <==> 1 <= id <= 5
    ensures 1 <= id <= 5 ==> FindService(Services, id) == Some(Services[id - 1])
  {
    ServiceIds();
    var r := FindService(Services, id);
    if r.Some? {
      var k :| 0 <= k < |Services| && Services[k] == r.value && r.value.id == id
               && forall j :: 0 <= j < k ==> Services[j].id != id;
    }
  }

  /** The catalog lists ids 1 to 5 in order. */
  lemma ServiceIds()
    ensures |Services| == 5
    ensures forall k :: 0 <= k < |Services| ==> Services[k].id == k + 1
  {
  }

  // ---------------------------------------------------------- the guard

  /** `phone.replace(/[\s-]/g, "")` */
  function StripSpaceAndHyphen(s: string): (r: string)
    ensures |r| <= |s|
  {
    if s == [] then []
    else (if IsSpace(s[0]) || s[0] == '-' then [] else [s[0]]) + StripSpaceAndHyphen(s[1..])
  }

  /**
   * `/^\d{9,}$/.test(StripSpaceAndHyphen(phone))`; without the rewriting:
   * only digits, whitespace and hyphens, and at least nine digits.
   */
  function IsBookingPhone(phone: string): (ok: bool)
    ensures ok <==> (forall j :: 0 <= j < |phone| ==> PhoneChar(phone[j])) && CountDigits(phone) >= 9
  {
    StripAllDigitsIff(phone);
    var t := StripSpaceAndHyphen(phone);
    |t| >= 9 && AllDigits(t)
  }

  /** A character the phone field may hold: a digit, whitespace or a hyphen. */
  predicate PhoneChar(c: char) {
    IsDigit(c) || IsSpace(c) || c == '-'
  }

  function CountDigits(s: string): nat {
    if s == [] then 0 else (if IsDigit(s[0]) then 1 else 0) + CountDigits(s[1..])
  }

  lemma {:induction false} CountDigitsAll(s: string)
    requires AllDigits(s)
    ensures CountDigits(s) == |s|
  {
    if s != [] {
      assert IsDigit(s[0]);
      CountDigitsAll(s[1..]);
    }
  }

  /** After stripping, the phone is all digits exactly when it held only digits, spaces and hyphens. */
  lemma {:induction false} StripAllDigitsIff(s: string)
    ensures AllDigits(StripSpaceAndHyphen(s)) <==> forall j :: 0 <= j < |s| ==> PhoneChar(s[j])
    ensures AllDigits(StripSpaceAndHyphen(s)) ==> |StripSpaceAndHyphen(s)| == CountDigits(s)
  {
    if s != [] {
      StripAllDigitsIff(s[1..]);
      var head := if IsSpace(s[0]) || s[0] == '-' then [] else [s[0]];
      var t := StripSpaceAndHyphen(s[1..]);
      assert StripSpaceAndHyphen(s) == head + t;
      assert forall j :: 0 < j < |s| ==> s[j] == s[1..][j - 1];
      if AllDigits(head + t) {
        assert AllDigits(t) by {
          forall j | 0 <= j < |t| ensures IsDigit(t[j]) { assert t[j] == (head + t)[|head| + j]; }
        }
        if head != [] { assert (head + t)[0] == s[0]; }
      }
    }
  }

  /** `canProceed()` for the given step and draft. */
  function CanProceedAt(step: int, d: BookingData): (ok: bool)
    ensures step == 1 ==> (ok <==> d.service.Some?)
    ensures step == 2 ==> (ok <==> d.date != "" && d.time != "")
    ensures step == 3 ==> (ok <==> !AllSpace(d.customerInfo.name)
                                   && (forall j :: 0 <= j < |d.customerInfo.phone| ==> PhoneChar(d.customerInfo.phone[j]))
                                   && CountDigits(d.customerInfo.phone) >= 9)
    ensures (step < 1 || 3 < step) ==> !ok
  {
    TrimEmptyIff(d.customerInfo.name);
    match step
    case 1 => d.service.Some?
    case 2 => d.date != "" && d.time != ""
    case 3 => Trim(d.customerInfo.name) != "" && IsBookingPhone(d.customerInfo.phone)
    case _ => false
  }

  lemma {:induction false} StripAppend(a: string, b: string)
    ensures StripSpaceAndHyphen(a + b) == StripSpaceAndHyphen(a) + StripSpaceAndHyphen(b)
  {
    if a == [] {
      assert a + b == b;
    } else {
      assert (a + b)[0] == a[0] && (a + b)[1..] == a[1..] + b;
      StripAppend(a[1..], b);
    }
  }

  lemma {:induction false} StripDigits(s: string)
    requires AllDigits(s)
    ensures StripSpaceAndHyphen(s) == s
  {
    if s != [] {
      assert !IsSpace(s[0]) && s[0] != '-' by { assert IsDigit(s[0]); }
      StripDigits(s[1..]);
      assert s == [s[0]] + s[1..];
    }
  }

  /** Digit groups joined by hyphens pass once they hold nine digits or more, as in `0912-345-678`. */
  lemma HyphenatedPhonePasses(a: string, b: string, c: string)
    requires AllDigits(a) && AllDigits(b) && AllDigits(c) && |a| + |b| + |c| >= 9
    ensures IsBookingPhone(a + "-" + b + "-" + c)
  {
    StripHyphenated(a, b, c);
    assert AllDigits(a + b + c) by {
      DigitsAppend(a, b);
      DigitsAppend(a + b, c);
    }
  }

  /** Stripping three digit groups joined by hyphens leaves the groups run together. */
  lemma StripHyphenated(a: string, b: string, c: string)
    requires AllDigits(a) && AllDigits(b) && AllDigits(c)
    ensures StripSpaceAndHyphen(a + "-" + b + "-" + c) == a + b + c
  {
    var x1 := a + "-";
    var x2 := x1 + b;
    var x3 := x2 + "-";
    assert StripSpaceAndHyphen("-") == [];
    StripDigits(a);
    StripAppend(a, "-");
    assert StripSpaceAndHyphen(x1) == a;
    StripDigits(b);
    StripAppend(x1, b);
    assert StripSpaceAndHyphen(x2) == a + b;
    StripAppend(x2, "-");
    assert StripSpaceAndHyphen(x3) == a + b;
    StripDigits(c);
    StripAppend(x3, c);
  }

  lemma DigitsAppend(x: string, y: string)
    requires AllDigits(x) && AllDigits(y)
    ensures AllDigits(x + y)
  {
    assert forall j :: |x| <= j < |x + y| ==> (x + y)[j] == y[j - |x|];
  }

  /** Fewer than nine digits fail, as `091234` and the empty string do. */
  lemma ShortPhoneFails(phone: string)
    requires CountDigits(phone) < 9
    ensures !IsBookingPhone(phone)
  {
  }

  /** Any character other than a digit, whitespace or a hyphen fails, as the `a` in `0912a45678` does. */
  lemma ForeignCharacterFails(phone: string, j: int)
    requires 0 <= j < |phone| && !PhoneChar(phone[j])
    ensures !IsBookingPhone(phone)
  {
  }

  // ------------------------------------------------------- bookable dates

  /** Weekday (0 = Sunday) of the day `offset` days after a day whose weekday is `w`. */
  function WeekdayOf(w: int, offset: int): (d: int)
    ensures 0 <= d < 7
  {
    (w + offset) % 7
  }

  /** The offsets `1..n` that do not fall on a Sunday, ascending. */
  function OpenDays(w: int, n: nat): (r: seq<int>)
    ensures forall k :: 0 <= k < |r| ==> 1 <= r[k] <= n && WeekdayOf(w, r[k]) != 0
    ensures forall k, l :: 0 <= k < l < |r| ==> r[k] < r[l]
    ensures |r| <= n
  {
    if n == 0 then []
    else OpenDays(w, n - 1) + (if WeekdayOf(w, n) != 0 then [n] else [])
  }

  /** Every open day up to `n` is listed. */
  lemma {:induction false} OpenDaysComplete(w: int, n: nat, d: int)
    requires 1 <= d <= n && WeekdayOf(w, d) != 0
    ensures d in OpenDays(w, n)
  {
    var p := OpenDays(w, n - 1);
    if d < n {
      OpenDaysComplete(w, n - 1, d);
      assert OpenDays(w, n) == p + (if WeekdayOf(w, n) != 0 then [n] else []);
    } else {
      assert OpenDays(w, n) == p + [d];
    }
  }

  /** Scanning further only appends. */
  lemma {:induction false} OpenDaysPrefix(w: int, m: nat, n: nat)
    requires m <= n
    ensures |OpenDays(w, m)| <= |OpenDays(w, n)|
    ensures OpenDays(w, m) == OpenDays(w, n)[..|OpenDays(w, m)|]
  {
    if m < n {
      OpenDaysPrefix(w, m, n - 1);
      var p := OpenDays(w, n - 1);
      assert OpenDays(w, n)[..|p|] == p;
    }
  }

  /** The weekday advances by one from one day to the next, Saturday wrapping to Sunday. */
  lemma WeekdayStep(w: int, d: int)
    ensures WeekdayOf(w, d + 1) == if WeekdayOf(w, d) == 6 then 0 else WeekdayOf(w, d) + 1
  {
  }

  /** The number of open days among offsets `1..n`. */
  function OpenCount(w: int, n: nat): nat {
    if n == 0 then 0 else OpenCount(w, n - 1) + if WeekdayOf(w, n) != 0 then 1 else 0
  }

  lemma {:induction false} OpenDaysLength(w: int, n: nat)
    ensures |OpenDays(w, n)| == OpenCount(w, n)
  {
    if n > 0 {
      OpenDaysLength(w, n - 1);
    }
  }

  lemma OpenCountStep(w: int, m: nat)
    ensures OpenCount(w, m + 1) == OpenCount(w, m) + if WeekdayOf(w, m + 1) != 0 then 1 else 0
  {
  }

  /** Any seven consecutive days hold exactly one Sunday. */
  lemma OpenCountWeek(w: int, n: nat)
    ensures OpenCount(w, n + 7) == OpenCount(w, n) + 6
  {
    WeekdayStep(w, n + 1);
    WeekdayStep(w, n + 2);
    WeekdayStep(w, n + 3);
    WeekdayStep(w, n + 4);
    WeekdayStep(w, n + 5);
    WeekdayStep(w, n + 6);
    OpenCountStep(w, n);
    OpenCountStep(w, n + 1);
    OpenCountStep(w, n + 2);
    OpenCountStep(w, n + 3);
    OpenCountStep(w, n + 4);
    OpenCountStep(w, n + 5);
    OpenCountStep(w, n + 6);
  }

  /** Among the first 25 days at least 21 are open, so the 21-date cap is always reached. */
  lemma OpenDaysEnough(w: int)
    ensures |OpenDays(w, 25)| >= 21
  {
    WeekdayStep(w, 1);
    WeekdayStep(w, 2);
    WeekdayStep(w, 3);
    OpenCountStep(w, 0);
    OpenCountStep(w, 1);
    OpenCountStep(w, 2);
    OpenCountStep(w, 3);
    OpenCountWeek(w, 4);
    OpenCountWeek(w, 11);
    OpenCountWeek(w, 18);
    OpenDaysLength(w, 25);
  }

  /** `getAvailableDates()`: the open days of the next 30, cut at 21. */
  function AvailableDateOffsets(w: int): seq<int> {
    var all := OpenDays(w, 30);
    if |all| <= 21 then all else all[..21]
  }

  /** The 21-date cap is always reached, within the first 25 days. */
  lemma AvailableDatesFull(w: int)
    ensures |AvailableDateOffsets(w)| == 21 && |OpenDays(w, 25)| >= 21
    ensures AvailableDateOffsets(w) == OpenDays(w, 25)[..21]
  {
    OpenDaysEnough(w);
    OpenDaysPrefix(w, 25, 30);
    var all := OpenDays(w, 30);
    var head := OpenDays(w, 25);
    assert all[..21] == head[..21];
  }

  /**
   * The bookable dates: exactly 21, each 1 to 25 days ahead, never on a
   * Sunday, strictly ascending.
   */
  lemma AvailableDatesSound(w: int)
    ensures var r := AvailableDateOffsets(w);
      && |r| == 21
      && (forall k :: 0 <= k < |r| ==> 1 <= r[k] <= 25 && WeekdayOf(w, r[k]) != 0)
      && (forall k, l :: 0 <= k < l < |r| ==> r[k] < r[l])
  {
    AvailableDatesFull(w);
    var head := OpenDays(w, 25);
    assert forall k :: 0 <= k < 21 ==> AvailableDateOffsets(w)[k] == head[k];
  }

  /** No open day up to a bookable date is skipped. */
  lemma AvailableDatesComplete(w: int, d: int)
    requires 1 <= d && WeekdayOf(w, d) != 0
    requires exists i :: 0 <= i < |AvailableDateOffsets(w)| && d <= AvailableDateOffsets(w)[i]
    ensures d in AvailableDateOffsets(w)
  {
    var all := OpenDays(w, 30);
    var r := AvailableDateOffsets(w);
    var i :| 0 <= i < |r| && d <= r[i];
    AvailableDatesFull(w);
    AvailableDatesSound(w);
    assert d <= r[20];
    assert r == all[..21];
    OpenDaysComplete(w, 30, d);
    var k :| 0 <= k < |all| && all[k] == d;
    if k > 20 {
      assert false;
    }
    assert r[k] == d;
  }

  /** The scan loop of `getAvailableDates`, stopping at the 21st date. */
  method GetAvailableDates(todayWeekday: int) returns (dates: seq<int>)
    ensures dates == AvailableDateOffsets(todayWeekday)
  {
    dates := [];
    var i := 1;
    while i <= 30
      invariant 1 <= i <= 31
      invariant dates == OpenDays(todayWeekday, i - 1)
      invariant |dates| < 21
    {
      if WeekdayOf(todayWeekday, i) != 0 {
        dates := dates + [i];
      }
      if |dates| >= 21 {
        OpenDaysPrefix(todayWeekday, i, 30);
        return;
      }
      i := i + 1;
    }
  }

  // -------------------------------------------------------- date labels

  const Weekdays: seq<string> := ["週日", "週一", "週二", "週三", "週四", "週五", "週六"]

  /** What a date button shows: `M.DD` and the short weekday name. */
  datatype DateLabel = DateLabel(date: string, weekday: string)

  /** `formatDate`, with the calendar month, day of month and weekday (0 = Sunday) given. */
  function FormatDate(month: nat, day: nat, weekday: int): (r: DateLabel)
    requires 0 <= weekday < 7
    ensures r.weekday == Weekdays[weekday]
  {
    DateLabel(NatToString(month) + "." + PadStart(NatToString(day), 2, '0'), Weekdays[weekday])
  }

  /** The first position of `c` in `s`, if any. */
  function IndexOf(s: string, c: char): (r: Option<nat>)
    ensures r.None? <==> c !in s
    ensures r.Some? ==> r.value < |s| && s[r.value] == c && c !in s[..r.value]
  {
    if s == [] then None
    else if s[0] == c then Some(0)
    else match IndexOf(s[1..], c)
      case None => None
      case Some(k) =>
        assert s[..k + 1] == [s[0]] + s[1..][..k];
        Some(k + 1)
  }

  /** Reads a `M.DD` label back into month and day. */
  function ParseDateLabel(s: string): Option<(nat, nat)> {
    match IndexOf(s, '.')
    case None => None
    case Some(k) =>
      if AllDigits(s[..k]) && AllDigits(s[k + 1..]) then Some((ParseNat(s[..k]), ParseNat(s[k + 1..])))
      else None
  }

  /** The first `.` of `m + "." + d` is the one after `m` when `m` has none. */
  lemma IndexOfSeparator(m: string, d: string)
    requires '.' !in m
    ensures IndexOf(m + "." + d, '.') == Some(|m|)
  {
    var s := m + "." + d;
    assert s[|m|] == '.';
    assert forall j :: 0 <= j < |m| ==> s[j] == m[j];
  }

  lemma DigitsHaveNoDot(m: string)
    requires AllDigits(m)
    ensures '.' !in m
  {
    forall j | 0 <= j < |m| ensures m[j] != '.' {
      assert IsDigit(m[j]);
    }
  }

  /** A label `m.d` built from two digit strings reads back as their values, the dot right after `m`. */
  lemma ParseLabelParts(m: string, d: string)
    requires AllDigits(m) && AllDigits(d)
    ensures IndexOf(m + "." + d, '.') == Some(|m|)
    ensures ParseDateLabel(m + "." + d) == Some((ParseNat(m), ParseNat(d)))
  {
    var s := m + "." + d;
    DigitsHaveNoDot(m);
    IndexOfSeparator(m, d);
    assert s[..|m|] == m && s[|m| + 1..] == d;
  }

  /**
   * The day part of the label: a digit string with the day's value, two
   * characters below 10 and the unpadded digits from 10 on.
   */
  lemma PaddedDay(day: nat)
    ensures AllDigits(PadStart(NatToString(day), 2, '0'))
    ensures ParseNat(PadStart(NatToString(day), 2, '0')) == day
    ensures |PadStart(NatToString(day), 2, '0')| == if day < 10 then 2 else |NatToString(day)|
    ensures |PadStart(NatToString(day), 2, '0')| >= 2
  {
    ParseNatToString(day);
    PadStartZeroValue(NatToString(day), 2);
    if day >= 10 {
      assert |NatToString(day / 10)| >= 1;
    }
  }

  /** A one-digit day is padded with a single leading zero. */
  lemma SmallDayPadded(day: nat)
    requires day < 10
    ensures PadStart(NatToString(day), 2, '0') == ['0', DigitChar(day)]
  {
    assert NatToString(day) == [DigitChar(day)];
  }

  /** The character right after the `.` of a label is the first of its day part. */
  lemma LabelDayStart(m: string, d: string)
    requires |d| >= 2
    ensures |m + "." + d| == |m| + 1 + |d|
    ensures (m + "." + d)[|m| + 1] == d[0]
  {
  }

  /**
   * The label reads back as the month and day it was made from, and its first
   * `.` comes right after the unpadded month.
   */
  lemma FormatDateRoundTrip(month: nat, day: nat, weekday: int)
    requires 0 <= weekday < 7
    ensures ParseDateLabel(FormatDate(month, day, weekday).date) == Some((month, day))
    ensures IndexOf(FormatDate(month, day, weekday).date, '.') == Some(|NatToString(month)|)
  {
    var m := NatToString(month);
    var d := PadStart(NatToString(day), 2, '0');
    assert FormatDate(month, day, weekday).date == m + "." + d;
    ParseNatToString(month);
    PaddedDay(day);
    ParseLabelParts(m, d);
  }

  /**
   * After the month and the dot the day takes exactly two characters below
   * 10, a leading zero and the digit, and its own digits from 10 on.
   */
  lemma FormatDateDayPadding(month: nat, day: nat, weekday: int)
    requires 0 <= weekday < 7
    ensures |FormatDate(month, day, weekday).date|
            == |NatToString(month)| + 1 + (if day < 10 then 2 else |NatToString(day)|)
    ensures day < 10 ==> FormatDate(month, day, weekday).date[|NatToString(month)| + 1] == '0'
  {
    var m := NatToString(month);
    var d := PadStart(NatToString(day), 2, '0');
    assert FormatDate(month, day, weekday).date == m + "." + d;
    PaddedDay(day);
    LabelDayStart(m, d);
    if day < 10 {
      SmallDayPadded(day);
    }
  }

  /** Only weekday 0 is labelled Sunday, so no bookable date carries the Sunday label. */
  lemma AvailableDatesNeverSundayLabel(w: int, month: nat, day: nat, k: int)
    requires 0 <= k < |AvailableDateOffsets(w)|
    ensures FormatDate(month, day, WeekdayOf(w, AvailableDateOffsets(w)[k])).weekday != "週日"
  {
    AvailableDatesSound(w);
    var wd := WeekdayOf(w, AvailableDateOffsets(w)[k]);
    assert Weekdays[wd] != Weekdays[0];
  }

  // ----------------------------------------------------------- the wizard

  /** The confirmation shown after a submission. */
  datatype Notice = Notice(title: string, message: string)

  const SubmittedNotice := Notice("預約成功！", "我們會在24小時內與您確認預約詳情，期待為您提供最優質的服務。")

  /** The wizard's mutable state: the current step and the draft booking. */
  class BookingWizard {
    var step: int
    var draft: BookingData

    ghost predicate Valid()
      reads this
    {
      1 <= step <= 3
    }

    /** The guard of the forward and submit buttons. */
    function CanProceed(): bool
      reads this
    {
      CanProceedAt(step, draft)
    }

    constructor ()
      ensures Valid() && step == 1 && draft == EmptyBookingData
    {
      step := 1;
      draft := EmptyBookingData;
    }

    /** `nextStep`: moves forward unless at the last step; does not consult the guard. */
    method NextStep()
      requires Valid()
      modifies this
      ensures Valid()
      ensures step == if old(step) < 3 then old(step) + 1 else old(step)
      ensures draft == old(draft)
    {
      if step < 3 {
        step := step + 1;
      }
    }

    /** `prevStep`: moves back unless at the first step. */
    method PrevStep()
      requires Valid()
      modifies this
      ensures Valid()
      ensures step == if old(step) > 1 then old(step) - 1 else old(step)
      ensures draft == old(draft)
    {
      if step > 1 {
        step := step - 1;
      }
    }

    /** `handleServiceSelect`: the catalog entry with that id, or none. */
    method HandleServiceSelect(serviceId: int)
      modifies this
      ensures step == old(step)
      ensures draft == old(draft).(service := FindService(Services, serviceId))
    {
      var service := FindService(Services, serviceId);
      draft := draft.(service := service);
    }

    /** A date button: overwrites the date. */
    method SelectDate(date: string)
      modifies this
      ensures step == old(step) && draft == old(draft).(date := date)
    {
      draft := draft.(date := date);
    }

    /** A time button, one per offered slot: overwrites the time. */
    method SelectTime(time: string)
      requires time in AvailableTimes
      modifies this
      ensures step == old(step) && draft == old(draft).(time := time)
    {
      draft := draft.(time := time);
    }

    /** `handleCustomerInfoChange`: overwrites one customer field. */
    method HandleCustomerInfoChange(field: CustomerField, value: string)
      modifies this
      ensures step == old(step)
      ensures draft.service == old(draft.service) && draft.date == old(draft.date) && draft.time == old(draft.time)
      ensures CustomerValue(draft.customerInfo, field) == value
      ensures forall g | g != field :: CustomerValue(draft.customerInfo, g) == CustomerValue(old(draft.customerInfo), g)
    {
      draft := draft.(customerInfo := WithCustomerField(draft.customerInfo, field, value));
    }

    /**
     * `handleSubmit`: hands back the confirmation and the submitted draft
     * (what the page shows and logs) and resets the wizard.
     */
    method HandleSubmit() returns (notice: Notice, submitted: BookingData)
      modifies this
      ensures notice == SubmittedNotice && submitted == old(draft)
      ensures Valid() && step == 1 && draft == EmptyBookingData
    {
      notice := SubmittedNotice;
      submitted := draft;
      step := 1;
      draft := EmptyBookingData;
    }

    /** `closeModalAndReset`: the same reset when the confirmation is dismissed. */
    method CloseModalAndReset()
      modifies this
      ensures Valid() && step == 1 && draft == EmptyBookingData
    {
      step := 1;
      draft := EmptyBookingData;
    }

    /** The forward button, which is only enabled before the last step and while the guard holds. */
    method PressNext()
      requires Valid() && step < 3 && CanProceed()
      modifies this
      ensures Valid() && step == old(step) + 1 && draft == old(draft)
    {
      NextStep();
    }

    /** The submit button, shown at the last step and only enabled while the guard holds. */
    method PressSubmit() returns (notice: Notice, submitted: BookingData)
      requires Valid() && step == 3 && CanProceed()
      modifies this
      ensures submitted == old(draft) && CanProceedAt(3, submitted)
      ensures notice == SubmittedNotice
      ensures Valid() && step == 1 && draft == EmptyBookingData
    {
      notice, submitted := HandleSubmit();
    }
  }

  /**
   * A complete booking through the enabled buttons only: choose a service, a
   * slot and the customer details, then submit; for instance the name `王小明`
   * with the phone `0912345678`.
   */
  method BookingScenario(date: string, time: string, name: string, phone: string)
    requires date != [] && time in AvailableTimes
    requires name != [] && !IsSpace(name[0])
    requires AllDigits(phone) && |phone| >= 9
  {
    var wizard := new BookingWizard();
    assert !wizard.CanProceed();
    wizard.HandleServiceSelect(1);
    CatalogLookup(1);
    wizard.PressNext();
    assert wizard.step == 2 && !wizard.CanProceed();
    wizard.SelectDate(date);
    wizard.SelectTime(time);
    wizard.PressNext();
    assert wizard.step == 3;
    wizard.HandleCustomerInfoChange(NameField, name);
    wizard.HandleCustomerInfoChange(PhoneField, phone);
    CountDigitsAll(phone);
    var notice, submitted := wizard.PressSubmit();
    assert submitted.service == Some(Services[0]) && submitted.customerInfo.name == name;
    assert wizard.step == 1 && wizard.draft == EmptyBookingData;
  }
}
