/** GET /api/analytics (src/app/api/analytics/route.ts): the dashboard's
    figures for the last `days` days of one organization. The database is
    left out: the route receives the organization's customers and the
    period's invoices (ascending by issue date) as values, amounts are
    integers, and the current time, the day-of-week of past dates, their
    `MM-DD` labels and the random noise of the simulated series are
    parameters. Fractions are exact rationals rounded as `Math.round` does. */
module Analytics {
  import opened Values
  import opened Text
  import opened ApiHelpers

  // ---- period ----

  /** `Math.min(365, Math.max(1, parseInt(period)))`, the period defaulting
      to 30; `None` is a missing parameter. */
  function Days(period: Option<int>): (r: int)
    ensures 1 <= r <= 365
    ensures period.None? ==> r == 30
    ensures period.Some? ==> (r == period.value <==> 1 <= period.value <= 365)
    ensures period.Some? && period.value < 1 ==> r == 1
    ensures period.Some? && period.value > 365 ==> r == 365
  {
    Min(365, Max(1, period.GetOr(30)))
  }

  // ---- customers ----

  /** The selected customer columns; `createdAt` in milliseconds. */
  datatype CustomerRow = CustomerRow(status: string, createdAt: int)

  /** `customers.filter(c => c.status === status).length` */
  function CountStatus(cs: seq<CustomerRow>, status: string): (r: nat)
    ensures r <= |cs|
  {
    if cs == [] then 0
    else CountStatus(cs[..|cs| - 1], status) + (if cs[|cs| - 1].status == status then 1 else 0)
  }

  /** Customers created at or after the start of the period. */
  function CountSince(cs: seq<CustomerRow>, startDate: int): (r: nat)
    ensures r <= |cs|
  {
    if cs == [] then 0
    else CountSince(cs[..|cs| - 1], startDate) + (if cs[|cs| - 1].createdAt >= startDate then 1 else 0)
  }

  /** A customer's status is one of the three the schema allows, so the
      three slices of the status distribution add up to every customer. */
  lemma {:induction false} StatusCountsSum(cs: seq<CustomerRow>)
    requires forall i :: 0 <= i < |cs| ==> cs[i].status in {"ACTIVE", "INACTIVE", "CHURNED"}
    ensures CountStatus(cs, "ACTIVE") + CountStatus(cs, "INACTIVE") + CountStatus(cs, "CHURNED") == |cs|
  {
    if cs != [] {
      var init := cs[..|cs| - 1];
      assert forall i :: 0 <= i < |init| ==> init[i] == cs[i];
      StatusCountsSum(init);
    }
  }

  /** A status count is the number of positions holding that status. */
  lemma {:induction false} CountStatusCounts(cs: seq<CustomerRow>, status: string)
    ensures CountStatus(cs, status) == |set i | 0 <= i < |cs| && cs[i].status == status|
  {
    if cs != [] {
      var n := |cs| - 1;
      var init := cs[..n];
      CountStatusCounts(init, status);
      var a := set i | 0 <= i < |init| && init[i].status == status;
      var b := set i | 0 <= i < |cs| && cs[i].status == status;
      if cs[n].status == status {
        assert b == a + {n};
      } else {
        assert b == a;
      }
    }
  }

  // ---- invoices and monthly buckets ----

  /** The selected invoice columns; `issuedAt` as its ISO-8601 rendering. */
  datatype InvoiceRow = InvoiceRow(amount: int, status: string, issuedAt: string)

  /** `toISOString().slice(0, 7)`, the `YYYY-MM` of the issue date. */
  function MonthKey(issuedAt: string): string {
    if |issuedAt| >= 7 then issuedAt[..7] else issuedAt
  }

  /** The sum of the amounts of the PAID invoices. */
  function PaidTotal(invs: seq<InvoiceRow>): int {
    if invs == [] then 0
    else
      var last := invs[|invs| - 1];
      PaidTotal(invs[..|invs| - 1]) + (if last.status == "PAID" then last.amount else 0)
  }

  /** The sum of the amounts of the PAID invoices issued in `month`. */
  function PaidInMonth(invs: seq<InvoiceRow>, month: string): int {
    if invs == [] then 0
    else
      var last := invs[|invs| - 1];
      PaidInMonth(invs[..|invs| - 1], month) + (if last.status == "PAID" && MonthKey(last.issuedAt) == month then last.amount else 0)
  }

  /** `monthlyRevenue` after the loop has seen `invs`. */
  function Buckets(invs: seq<InvoiceRow>): map<string, int> {
    if invs == [] then map[]
    else
      var m := Buckets(invs[..|invs| - 1]);
      var last := invs[|invs| - 1];
      if last.status == "PAID" then
        var k := MonthKey(last.issuedAt);
        m[k := (if k in m then m[k] else 0) + last.amount]
      else m
  }

  /** The keys of `monthlyRevenue` in insertion order, the order
      `Object.entries` lists them in. */
  function KeyOrder(invs: seq<InvoiceRow>): seq<string> {
    if invs == [] then []
    else
      var ks := KeyOrder(invs[..|invs| - 1]);
      var last := invs[|invs| - 1];
      if last.status == "PAID" && MonthKey(last.issuedAt) !in ks then ks + [MonthKey(last.issuedAt)] else ks
  }

  /** The bucketing loop. */
  method BuildBuckets(invs: seq<InvoiceRow>) returns (m: map<string, int>)
    ensures m == Buckets(invs)
  {
    m := map[];
    for i := 0 to |invs|
      invariant m == Buckets(invs[..i])
    {
      assert invs[..i + 1][..i] == invs[..i];
      if invs[i].status == "PAID" {
        var key := MonthKey(invs[i].issuedAt);
        m := m[key := (if key in m then m[key] else 0) + invs[i].amount];
      }
    }
    assert invs[..|invs|] == invs;
  }

  /** A month has a bucket iff some PAID invoice was issued in it, and the
      bucket holds exactly the PAID amounts of that month. */
  lemma {:induction false} BucketContents(invs: seq<InvoiceRow>, month: string)
    ensures month in Buckets(invs) <==> exists i :: 0 <= i < |invs| && invs[i].status == "PAID" && MonthKey(invs[i].issuedAt) == month
    ensures month in Buckets(invs) ==> Buckets(invs)[month] == PaidInMonth(invs, month)
  {
    if invs != [] {
      var init := invs[..|invs| - 1];
      BucketContents(init, month);
      assert forall i :: 0 <= i < |init| ==> init[i] == invs[i];
      var last := invs[|invs| - 1];
      if month !in Buckets(init) {
        PaidInMonthAbsent(init, month);
      }
    }
  }

  lemma {:induction false} PaidInMonthAbsent(invs: seq<InvoiceRow>, month: string)
    requires forall i :: 0 <= i < |invs| ==> !(invs[i].status == "PAID" && MonthKey(invs[i].issuedAt) == month)
    ensures PaidInMonth(invs, month) == 0
  {
    if invs != [] {
      var init := invs[..|invs| - 1];
      assert forall i :: 0 <= i < |init| ==> init[i] == invs[i];
      PaidInMonthAbsent(init, month);
    }
  }

  /** The insertion-order key list lists every bucket once. */
  lemma {:induction false} KeyOrderKeys(invs: seq<InvoiceRow>)
    ensures Distinct(KeyOrder(invs))
    ensures forall k :: k in KeyOrder(invs) <==> k in Buckets(invs)
  {
    if invs != [] {
      KeyOrderKeys(invs[..|invs| - 1]);
    }
  }

  // ---- the sum of a map's values ----

  /** The sum of the values of `m`. */
  ghost function Total(m: map<string, int>): int
    decreases |m|
  {
    if m == map[] then 0
    else
      var k :| k in m;
      assert |m - {k}| < |m| by { assert m.Keys - {k} < m.Keys; }
      m[k] + Total(m - {k})
  }

  /** Any key may be taken out first. */
  lemma {:induction false} TotalPick(m: map<string, int>, k: string)
    requires k in m
    ensures Total(m) == m[k] + Total(m - {k})
    decreases |m|
  {
    var j :| j in m && Total(m) == m[j] + Total(m - {j});
    if j != k {
      assert (m - {j}).Keys < m.Keys && (m - {k}).Keys < m.Keys;
      TotalPick(m - {j}, k);
      TotalPick(m - {k}, j);
      assert m - {j} - {k} == m - {k} - {j};
    }
  }

  lemma TotalUpdate(m: map<string, int>, k: string, v: int)
    ensures Total(m[k := v]) == Total(m) - (if k in m then m[k] else 0) + v
  {
    TotalPick(m[k := v], k);
    assert m[k := v] - {k} == m - {k};
    if k in m {
      TotalPick(m, k);
    } else {
      assert m - {k} == m;
    }
  }

  /** The buckets add up to the PAID total. */
  lemma {:induction false} BucketsTotal(invs: seq<InvoiceRow>)
    ensures Total(Buckets(invs)) == PaidTotal(invs)
  {
    if invs != [] {
      var init := invs[..|invs| - 1];
      BucketsTotal(init);
      var last := invs[|invs| - 1];
      if last.status == "PAID" {
        var m := Buckets(init);
        var k := MonthKey(last.issuedAt);
        TotalUpdate(m, k, (if k in m then m[k] else 0) + last.amount);
      }
    }
  }

  // ---- ordering of the month keys ----

  predicate Distinct(s: seq<string>) {
    forall i, j :: 0 <= i < j < |s| ==> s[i] != s[j]
  }

  /** Code-point order, which is what `localeCompare` gives on `YYYY-MM`
      keys. */
  predicate Less(a: string, b: string) {
    if a == [] then b != []
    else if b == [] then false
    else a[0] < b[0] || (a[0] == b[0] && Less(a[1..], b[1..]))
  }

  lemma {:induction false} LessIrreflexive(a: string)
    ensures !Less(a, a)
  {
    if a != [] {
      LessIrreflexive(a[1..]);
    }
  }

  lemma {:induction false} LessTransitive(a: string, b: string, c: string)
    requires Less(a, b) && Less(b, c)
    ensures Less(a, c)
  {
    if a != [] && b != [] && c != [] && a[0] == b[0] && b[0] == c[0] {
      LessTransitive(a[1..], b[1..], c[1..]);
    }
  }

  lemma {:induction false} LessTotal(a: string, b: string)
    requires a != b
    ensures Less(a, b) || Less(b, a)
  {
    if a != [] && b != [] && a[0] == b[0] {
      assert a == [a[0]] + a[1..] && b == [b[0]] + b[1..];
      LessTotal(a[1..], b[1..]);
    }
  }

  predicate Sorted(s: seq<string>) {
    forall i, j :: 0 <= i < j < |s| ==> Less(s[i], s[j])
  }

  /** Insert `k` into a sorted list, keeping it sorted. */
  function Insert(s: seq<string>, k: string): seq<string> {
    if s == [] then [k]
    else if Less(k, s[0]) then [k] + s
    else if k == s[0] then s
    else [s[0]] + Insert(s[1..], k)
  }

  lemma {:induction false} InsertKeeps(s: seq<string>, k: string)
    requires Sorted(s)
    ensures Sorted(Insert(s, k))
    ensures forall x :: x in Insert(s, k) <==> x in s || x == k
  {
    if s != [] && !Less(k, s[0]) && k != s[0] {
      LessTotal(k, s[0]);
      var rest := s[1..];
      assert Sorted(rest) by {
        forall i, j | 0 <= i < j < |rest| ensures Less(rest[i], rest[j]) { assert rest[i] == s[i + 1] && rest[j] == s[j + 1]; }
      }
      InsertKeeps(rest, k);
      var r := Insert(s, k);
      forall i, j | 0 <= i < j < |r| ensures Less(r[i], r[j]) {
        if i == 0 {
          var x := r[j];
          assert x in Insert(rest, k);
          if x != k {
            var t :| 0 <= t < |rest| && rest[t] == x;
            assert s[t + 1] == x;
          }
        }
      }
    } else if s != [] && Less(k, s[0]) {
      var r := Insert(s, k);
      forall i, j | 0 <= i < j < |r| ensures Less(r[i], r[j]) {
        if i == 0 && j > 1 {
          LessTransitive(k, s[0], s[j - 1]);
        }
      }
    }
  }

  /** `.sort(([a], [b]) => a.localeCompare(b))` on the keys. */
  function Sort(ks: seq<string>): seq<string> {
    if ks == [] then [] else Insert(Sort(ks[..|ks| - 1]), ks[|ks| - 1])
  }

  lemma {:induction false} SortKeeps(ks: seq<string>)
    ensures Sorted(Sort(ks))
    ensures forall x :: x in Sort(ks) <==> x in ks
  {
    if ks != [] {
      var init := ks[..|ks| - 1];
      SortKeeps(init);
      InsertKeeps(Sort(init), ks[|ks| - 1]);
      assert ks == init + [ks[|ks| - 1]];
    }
  }

  lemma SortedDistinct(s: seq<string>)
    requires Sorted(s)
    ensures Distinct(s)
  {
    forall i, j | 0 <= i < j < |s| ensures s[i] != s[j] {
      if s[i] == s[j] { LessIrreflexive(s[i]); }
    }
  }

  lemma {:induction false} DistinctCard(s: seq<string>)
    requires Distinct(s)
    ensures |set x | x in s| == |s|
  {
    if s != [] {
      var init := s[..|s| - 1];
      var last := s[|s| - 1];
      assert Distinct(init);
      DistinctCard(init);
      assert (set x | x in s) == (set x | x in init) + {last};
      assert last !in init;
    }
  }

  // ---- the revenue timeline ----

  /** The timeline's month keys: the buckets in ascending order. */
  function TimelineKeys(invs: seq<InvoiceRow>): (ks: seq<string>)
    ensures forall k :: k in ks <==> k in Buckets(invs)
  {
    KeyOrderKeys(invs);
    SortKeeps(KeyOrder(invs));
    Sort(KeyOrder(invs))
  }

  datatype Point = Point(month: string, revenue: int)

  /** `revenueTimeline`: one labelled point per bucket, by ascending key. */
  function Timeline(invs: seq<InvoiceRow>): seq<Point> {
    var ks := TimelineKeys(invs);
    var m := Buckets(invs);
    seq(|ks|, i requires 0 <= i < |ks| => Point(FormatMonth(ks[i]), m[ks[i]]))
  }

  /** The sum of the revenues of a timeline. */
  function RevenueSum(points: seq<Point>): int {
    if points == [] then 0 else points[0].revenue + RevenueSum(points[1..])
  }

  /** The sum of the values of `m` at `ks`. */
  function SumOver(m: map<string, int>, ks: seq<string>): int {
    if ks == [] then 0 else (if ks[0] in m then m[ks[0]] else 0) + SumOver(m, ks[1..])
  }

  lemma {:induction false} SumOverRestrict(m: map<string, int>, k: string, ks: seq<string>)
    requires k !in ks
    ensures SumOver(m - {k}, ks) == SumOver(m, ks)
  {
    if ks != [] {
      SumOverRestrict(m, k, ks[1..]);
    }
  }

  /** Listing every key once adds up to the whole map. */
  lemma {:induction false} SumOverTotal(m: map<string, int>, ks: seq<string>)
    requires Distinct(ks) && forall k :: k in ks <==> k in m
    ensures SumOver(m, ks) == Total(m)
  {
    if ks == [] {
      assert m == map[];
    } else {
      var k := ks[0];
      var rest := ks[1..];
      TotalPick(m, k);
      assert k !in rest by {
        forall i | 0 <= i < |rest| ensures rest[i] != k { assert rest[i] == ks[i + 1]; }
      }
      assert Distinct(rest) by {
        forall i, j | 0 <= i < j < |rest| ensures rest[i] != rest[j] { assert rest[i] == ks[i + 1] && rest[j] == ks[j + 1]; }
      }
      assert forall x :: x in rest <==> x in m - {k} by {
        assert forall x :: x in ks <==> x == k || x in rest;
      }
      SumOverRestrict(m, k, rest);
      SumOverTotal(m - {k}, rest);
    }
  }

  lemma {:induction false} RevenueSumOver(points: seq<Point>, m: map<string, int>, ks: seq<string>)
    requires |points| == |ks| && forall i :: 0 <= i < |ks| ==> ks[i] in m && points[i].revenue == m[ks[i]]
    ensures RevenueSum(points) == SumOver(m, ks)
  {
    if ks != [] {
      RevenueSumOver(points[1..], m, ks[1..]);
    }
  }

  /** The timeline has one point per bucket, its keys ascend strictly, each
      point carries the PAID revenue of its month, and the points add up
      to the PAID total. */
  lemma TimelineFacts(invs: seq<InvoiceRow>)
    ensures |Timeline(invs)| == |Buckets(invs)|
    ensures Sorted(TimelineKeys(invs))
    ensures forall i :: 0 <= i < |Timeline(invs)| ==>
      Timeline(invs)[i] == Point(FormatMonth(TimelineKeys(invs)[i]), PaidInMonth(invs, TimelineKeys(invs)[i]))
    ensures RevenueSum(Timeline(invs)) == PaidTotal(invs)
  {
    var ks := TimelineKeys(invs);
    var m := Buckets(invs);
    SortKeeps(KeyOrder(invs));
    SortedDistinct(ks);
    DistinctCard(ks);
    assert (set x | x in ks) == m.Keys;
    forall i | 0 <= i < |ks| ensures m[ks[i]] == PaidInMonth(invs, ks[i]) {
      BucketContents(invs, ks[i]);
    }
    RevenueSumOver(Timeline(invs), m, ks);
    SumOverTotal(m, ks);
    BucketsTotal(invs);
  }

  // ---- formatMonth ----

  const MonthNames: seq<string> := ["Jan", "Feb", "Mar", "Apr", "May", "Jun", "Jul", "Aug", "Sep", "Oct", "Nov", "Dec"]

  predicate IsDigit(c: char) {
    '0' <= c <= '9'
  }

  /** The longest prefix of decimal digits. */
  function LeadingDigits(s: string): (r: string)
    ensures |r| <= |s| && r == s[..|r|]
    ensures forall i :: 0 <= i < |r| ==> IsDigit(r[i])
    ensures |r| == |s| || !IsDigit(s[|r|])
  {
    if s != [] && IsDigit(s[0]) then [s[0]] + LeadingDigits(s[1..]) else []
  }

  function DigitsValue(d: string): nat
    requires forall i :: 0 <= i < |d| ==> IsDigit(d[i])
  {
    if d == [] then 0 else DigitsValue(d[..|d| - 1]) * 10 + DigitValue(d[|d| - 1])
  }

  function DigitValue(c: char): nat
    requires IsDigit(c)
  {
    c as int - '0' as int
  }

  /** `parseInt(s, 10)` on a string without sign or leading blanks; `None`
      is NaN. */
  function ParseInt(s: string): Option<nat> {
    var d := LeadingDigits(s);
    if d == [] then None else Some(DigitsValue(d))
  }

  /** `monthNames[parseInt(month) - 1]`, rendered the way a template
      literal renders it: `undefined` when there is no such entry. */
  function MonthName(month: Option<string>): string {
    if month.None? then "undefined"
    else
      var n := ParseInt(month.value);
      if n.Some? && 1 <= n.value <= 12 then MonthNames[n.value - 1] else "undefined"
  }

  /** `formatMonth(yearMonth)`: the part after the first `-` names the
      month, the part before it is the year. */
  function FormatMonth(yearMonth: string): string {
    var parts := Split(yearMonth, '-');
    MonthName(if |parts| >= 2 then Some(parts[1]) else None) + " " + parts[0]
  }

  /** The two-digit rendering of a month number. */
  function TwoDigits(m: nat): string
    requires m < 100
  {
    [DigitChar(m / 10), DigitChar(m % 10)]
  }

  /** `formatMonth("YYYY-MM")` is the three-letter name of month MM, a
      space and the year when MM is 01 to 12, and `undefined` and the year
      otherwise. */
  lemma FormatMonthOfKey(year: string, month: nat)
    requires '-' !in year && month < 100
    ensures 1 <= month <= 12 ==> FormatMonth(year + "-" + TwoDigits(month)) == MonthNames[month - 1] + " " + year
    ensures !(1 <= month <= 12) ==> FormatMonth(year + "-" + TwoDigits(month)) == "undefined " + year
  {
    KeyParts(year, month);
    ParseTwoDigits(month);
  }

  lemma KeyParts(year: string, month: nat)
    requires '-' !in year && month < 100
    ensures Split(year + "-" + TwoDigits(month), '-') == [year, TwoDigits(month)]
  {
    var td := TwoDigits(month);
    assert '-' !in td by { assert td == [td[0], td[1]]; }
    SplitAppend(year, '-', td);
    SplitNoSep(year, '-');
    SplitNoSep(td, '-');
  }

  lemma ParseTwoDigits(month: nat)
    requires month < 100
    ensures ParseInt(TwoDigits(month)) == Some(month)
  {
    var td := TwoDigits(month);
    var d0, d1 := td[0], td[1];
    assert IsDigit(d0) && IsDigit(d1);
    assert td[1..][1..] == [];
    assert LeadingDigits(td[1..]) == [d1] + LeadingDigits(td[1..][1..]);
    assert LeadingDigits(td) == td;
    assert td[..1] == [d0] && td[..1][..0] == [];
    assert DigitValue(d0) == month / 10 && DigitValue(d1) == month % 10;
    assert DigitsValue(td) == DigitsValue(td[..1]) * 10 + DigitValue(d1);
  }

  // ---- KPIs ----

  /** `Math.round(a / b)` for `b >= 1`: the nearest integer, halves
      rounding up. */
  function RoundDiv(a: int, b: int): (r: int)
    requires b >= 1
    ensures b * (2 * r - 1) <= 2 * a < b * (2 * r + 1)
  {
    var q := (2 * a + b) / (2 * b);
    assert (2 * b) * q + (2 * a + b) % (2 * b) == 2 * a + b;
    q
  }

  /** A whole number divided by one rounds to itself. */
  lemma RoundDivOne(a: int)
    ensures RoundDiv(a, 1) == a
  {
    var r := RoundDiv(a, 1);
    assert 2 * r - 1 <= 2 * a < 2 * r + 1;
  }

  /** `mrr`: the PAID total over the number of months with revenue, that
      number taken as at least one. */
  function Mrr(invs: seq<InvoiceRow>): int {
    RoundDiv(PaidTotal(invs), Max(1, |Buckets(invs)|))
  }

  /** The churn rate in tenths of a percent: `Math.round(rate * 10) / 10`
      of `churned / all * 100`, and 0 for an organization without
      customers. */
  function ChurnTenths(churned: nat, all: nat): (r: int)
    ensures all == 0 ==> r == 0
    ensures all > 0 ==> all * (2 * r - 1) <= 2000 * churned < all * (2 * r + 1)
  {
    if all > 0 then RoundDiv(1000 * churned, all) else 0
  }

  /** With no more churned customers than customers the rate lies between
      0 and 100.0 percent. */
  lemma ChurnRange(churned: nat, all: nat)
    requires churned <= all
    ensures 0 <= ChurnTenths(churned, all) <= 1000
  {
    if all > 0 {
      RoundDivBounds(1000 * churned, all, 1000);
    }
  }

  /** A rounded quotient stays within the range of the exact one. */
  lemma RoundDivBounds(a: int, b: int, h: int)
    requires b >= 1 && 0 <= a <= b * h
    ensures 0 <= RoundDiv(a, b) <= h
  {
    var r := RoundDiv(a, b);
    if r > h {
      assert b * (2 * r - 1) >= b * (2 * h + 1) by { MulMono(2 * h + 1, 2 * r - 1, b); }
    }
    if r < 0 {
      assert b * (2 * r + 1) <= b * 0 by { MulMono(2 * r + 1, 0, b); }
    }
  }

  lemma MulMono(x: int, y: int, c: int)
    requires x <= y && c >= 0
    ensures c * x <= c * y
  {
  }

  /** Without a PAID invoice there is no bucket and both the total and the
      monthly average are 0; with PAID revenue all in one month the
      average is the total. */
  lemma MrrExtremes(invs: seq<InvoiceRow>)
    ensures |Buckets(invs)| == 0 ==> PaidTotal(invs) == 0 && Mrr(invs) == 0
    ensures |Buckets(invs)| == 1 ==> Mrr(invs) == PaidTotal(invs)
  {
    BucketsTotal(invs);
    if |Buckets(invs)| == 0 {
      assert Buckets(invs) == map[];
      RoundDivOne(0);
    } else if |Buckets(invs)| == 1 {
      RoundDivOne(PaidTotal(invs));
    }
  }

  // ---- the simulated daily series ----

  datatype DailyPoint = DailyPoint(date: string, users: int)

  /** 120 users on a Sunday (0) or a Saturday (6), 280 otherwise. */
  function BaseUsers(dayOfWeek: int): int {
    if dayOfWeek == 0 || dayOfWeek == 6 then 120 else 280
  }

  /** `generateDailyActiveData(days)` for today and the `min(days, 30)`
      days before it, oldest first. `dayOfWeek(i)` and `dateLabel(i)` describe
      the date `i` days ago and `draw(i)` is its `Math.floor(Math.random() * 60)`. */
  method GenerateDailyActive(days: int, dayOfWeek: int -> int, dateLabel: int -> string, draw: int -> int) returns (data: seq<DailyPoint>)
    ensures |data| == Max(0, Min(days, 30) + 1)
    ensures forall j :: 0 <= j < |data| ==>
      var i := Min(days, 30) - j;
      data[j] == DailyPoint(dateLabel(i), BaseUsers(dayOfWeek(i)) + draw(i) - 30)
  {
    var n := Min(days, 30);
    data := [];
    var i := n;
    while i >= 0
      invariant i <= n && |data| == n - i
      invariant n >= 0 ==> i >= -1
      invariant n < 0 ==> i == n
      invariant forall j :: 0 <= j < |data| ==> data[j] == DailyPoint(dateLabel(n - j), BaseUsers(dayOfWeek(n - j)) + draw(n - j) - 30)
    {
      data := data + [DailyPoint(dateLabel(i), BaseUsers(dayOfWeek(i)) + draw(i) - 30)];
      i := i - 1;
    }
    assert |data| == Max(0, n + 1);
  }

  /** A draw in 0..59 keeps a weekend day between 90 and 149 users and a
      weekday between 250 and 309. */
  lemma UsersBounds(dayOfWeek: int, d: int)
    requires 0 <= d < 60
    ensures dayOfWeek == 0 || dayOfWeek == 6 ==> 90 <= BaseUsers(dayOfWeek) + d - 30 <= 149
    ensures !(dayOfWeek == 0 || dayOfWeek == 6) ==> 250 <= BaseUsers(dayOfWeek) + d - 30 <= 309
  {
  }

  // ---- the route ----

  datatype Kpi = Kpi(mrr: int, newCustomers: nat, churnTenths: int, nrrTenths: int, totalRevenue: int, activeCustomers: nat)

  datatype Slice = Slice(name: string, value: nat, fill: string)

  datatype Report = Report(kpi: Kpi, revenueTimeline: seq<Point>, statusDistribution: seq<Slice>, dailyActive: seq<DailyPoint>, period: int)

  /** `statusDistribution` */
  function Distribution(cs: seq<CustomerRow>): seq<Slice> {
    [ Slice("Active", CountStatus(cs, "ACTIVE"), "hsl(var(--chart-2))"),
      Slice("Inactive", CountStatus(cs, "INACTIVE"), "hsl(var(--chart-4))"),
      Slice("Churned", CountStatus(cs, "CHURNED"), "hsl(var(--chart-1))") ]
  }

  /** GET: 401 without a user; otherwise the report for the period, whose
      daily series runs from `min(days, 30)` days ago up to today.
      `startDate` is the instant `days` days before now. */
  method Get(user: Option<SessionUser>, period: Option<int>, customers: seq<CustomerRow>, invoices: seq<InvoiceRow>,
             startDate: int, dayOfWeek: int -> int, dateLabel: int -> string, draw: int -> int)
    returns (resp: Response<Report>)
    ensures user.None? ==> resp == Failure(401, ErrorBody("Unauthorized", None))
    ensures user.Some? ==> resp.Success? && resp.status == 200
    ensures user.Some? ==>
      var r := resp.data;
      && r.period == Days(period)
      && r.kpi == Kpi(Mrr(invoices), CountSince(customers, startDate),
                      ChurnTenths(CountStatus(customers, "CHURNED"), |customers|),
                      if PaidTotal(invoices) > 0 then 1052 else 1000,
                      PaidTotal(invoices), CountStatus(customers, "ACTIVE"))
      && r.revenueTimeline == Timeline(invoices)
      && r.statusDistribution == Distribution(customers)
      && |r.dailyActive| == Min(Days(period), 30) + 1
      && forall j :: 0 <= j < |r.dailyActive| ==>
           var i := Min(Days(period), 30) - j;
           r.dailyActive[j] == DailyPoint(dateLabel(i), BaseUsers(dayOfWeek(i)) + draw(i) - 30)
  {
    if user.None? {
      return Error("Unauthorized", 401);
    }
    var days := Days(period);
    var buckets := BuildBuckets(invoices);
    var total := PaidTotal(invoices);
    var churned := CountStatus(customers, "CHURNED");
    var kpi := Kpi(RoundDiv(total, Max(1, |buckets|)), CountSince(customers, startDate),
                   ChurnTenths(churned, |customers|), if total > 0 then 1052 else 1000,
                   total, CountStatus(customers, "ACTIVE"));
    var daily := GenerateDailyActive(days, dayOfWeek, dateLabel, draw);
    return SuccessResponse(Report(kpi, Timeline(invoices), Distribution(customers), daily, days), None);
  }
}
