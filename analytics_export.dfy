/** GET /api/analytics/export (src/app/api/analytics/export/route.ts): a CSV
    download of the organization's invoices (`type=revenue`, the default) or
    customers (`type=customers`); any other type downloads an empty body.
    Records arrive in the order the database returns them; timestamps are
    their ISO-8601 renderings. Fields are written as they are: nothing is
    escaped, so a field holding a comma, a quote or a line break produces a
    malformed row. */
module AnalyticsExport {
  import opened Values
  import opened Text

  datatype InvoiceRecord = InvoiceRecord(id: string, amount: int, status: string, issuedAt: string, paidAt: Option<string>)

  datatype CustomerRecord = CustomerRecord(id: string, name: string, email: string, company: Option<string>, status: string, createdAt: string)

  const RevenueHeader: string := "ID,Amount,Status,Issued At,Paid At"
  const CustomersHeader: string := "ID,Name,Email,Company,Status,Created At"

  /** `searchParams.get("type") ?? "revenue"` */
  function ExportType(typeParam: Option<string>): string {
    typeParam.GetOr("revenue")
  }

  /** The fields of an invoice row; a missing payment date is empty. */
  function InvoiceFields(inv: InvoiceRecord): seq<string> {
    [inv.id, IntToString(inv.amount), inv.status, inv.issuedAt, inv.paidAt.GetOr("")]
  }

  function Quoted(s: string): string {
    "\"" + s + "\""
  }

  /** The fields of a customer row: name, email and company in double
      quotes, a missing company as `""`. */
  function CustomerFields(c: CustomerRecord): seq<string> {
    [c.id, Quoted(c.name), Quoted(c.email), Quoted(c.company.GetOr("")), c.status, c.createdAt]
  }

  /** Lines, each followed by a line feed. */
  function LinesText(lines: seq<string>): string {
    if lines == [] then "" else lines[0] + "\n" + LinesText(lines[1..])
  }

  function InvoiceLines(invoices: seq<InvoiceRecord>): seq<string> {
    seq(|invoices|, i requires 0 <= i < |invoices| => Join(InvoiceFields(invoices[i]), ","))
  }

  function CustomerLines(customers: seq<CustomerRecord>): seq<string> {
    seq(|customers|, i requires 0 <= i < |customers| => Join(CustomerFields(customers[i]), ","))
  }

  function RevenueCsv(invoices: seq<InvoiceRecord>): string {
    LinesText([RevenueHeader] + InvoiceLines(invoices))
  }

  function CustomersCsv(customers: seq<CustomerRecord>): string {
    LinesText([CustomersHeader] + CustomerLines(customers))
  }

  /** The body for an export type. */
  function ExportBody(exportType: string, invoices: seq<InvoiceRecord>, customers: seq<CustomerRecord>): string {
    if exportType == "revenue" then RevenueCsv(invoices)
    else if exportType == "customers" then CustomersCsv(customers)
    else ""
  }

  /** `${type}-export-${date}.csv`, with `date` the first ten characters of
      the current ISO timestamp. */
  function Filename(exportType: string, nowIso: string): string {
    exportType + "-export-" + (if |nowIso| >= 10 then nowIso[..10] else nowIso) + ".csv"
  }

  lemma {:induction false} LinesTextSnoc(lines: seq<string>, line: string)
    ensures LinesText(lines + [line]) == LinesText(lines) + line + "\n"
  {
    if lines == [] {
      assert LinesText([line]) == line + "\n" + "";
    } else {
      assert (lines + [line])[1..] == lines[1..] + [line];
      LinesTextSnoc(lines[1..], line);
      Assoc(lines[0] + "\n", LinesText(lines[1..]), line + "\n");
      Assoc(LinesText(lines[1..]), line, "\n");
      Assoc(lines[0] + "\n", LinesText(lines[1..]) + line, "\n");
    }
  }

  lemma InvoiceLinesSnoc(invoices: seq<InvoiceRecord>, i: nat)
    requires i < |invoices|
    ensures InvoiceLines(invoices[..i + 1]) == InvoiceLines(invoices[..i]) + [Join(InvoiceFields(invoices[i]), ",")]
  {
    var a, b := InvoiceLines(invoices[..i + 1]), InvoiceLines(invoices[..i]) + [Join(InvoiceFields(invoices[i]), ",")];
    assert forall k :: 0 <= k < |a| ==> a[k] == b[k];
  }

  lemma CustomerLinesSnoc(customers: seq<CustomerRecord>, i: nat)
    requires i < |customers|
    ensures CustomerLines(customers[..i + 1]) == CustomerLines(customers[..i]) + [Join(CustomerFields(customers[i]), ",")]
  {
    var a, b := CustomerLines(customers[..i + 1]), CustomerLines(customers[..i]) + [Join(CustomerFields(customers[i]), ",")];
    assert forall k :: 0 <= k < |a| ==> a[k] == b[k];
  }

  /** The revenue loop: the header, then one row per invoice. */
  method BuildRevenueCsv(invoices: seq<InvoiceRecord>) returns (csv: string)
    ensures csv == RevenueCsv(invoices)
  {
    csv := RevenueHeader + "\n";
    assert csv == LinesText([RevenueHeader]);
    for i := 0 to |invoices|
      invariant csv == LinesText([RevenueHeader] + InvoiceLines(invoices[..i]))
    {
      var row := Join(InvoiceFields(invoices[i]), ",");
      InvoiceLinesSnoc(invoices, i);
      LinesTextSnoc([RevenueHeader] + InvoiceLines(invoices[..i]), row);
      Assoc([RevenueHeader], InvoiceLines(invoices[..i]), [row]);
      csv := csv + row + "\n";
    }
    assert invoices[..|invoices|] == invoices;
  }

  /** The customers loop: the header, then one row per customer. */
  method BuildCustomersCsv(customers: seq<CustomerRecord>) returns (csv: string)
    ensures csv == CustomersCsv(customers)
  {
    csv := CustomersHeader + "\n";
    assert csv == LinesText([CustomersHeader]);
    for i := 0 to |customers|
      invariant csv == LinesText([CustomersHeader] + CustomerLines(customers[..i]))
    {
      var row := Join(CustomerFields(customers[i]), ",");
      CustomerLinesSnoc(customers, i);
      LinesTextSnoc([CustomersHeader] + CustomerLines(customers[..i]), row);
      Assoc([CustomersHeader], CustomerLines(customers[..i]), [row]);
      csv := csv + row + "\n";
    }
    assert customers[..|customers|] == customers;
  }

  /** The CSV response: its body and its attachment file name. */
  datatype ExportResponse = Unauthorized | Csv(body: string, filename: string)

  /** GET: refuse without a user; otherwise build the body for the requested
      type (revenue by default). */
  method Export(user: Option<string>, typeParam: Option<string>, invoices: seq<InvoiceRecord>, customers: seq<CustomerRecord>, nowIso: string)
    returns (resp: ExportResponse)
    ensures user.None? ==> resp == Unauthorized
    ensures user.Some? ==> resp == Csv(ExportBody(ExportType(typeParam), invoices, customers), Filename(ExportType(typeParam), nowIso))
  {
    if user.None? {
      return Unauthorized;
    }
    var exportType := ExportType(typeParam);
    var body := "";
    if exportType == "revenue" {
      body := BuildRevenueCsv(invoices);
    } else if exportType == "customers" {
      body := BuildCustomersCsv(customers);
    }
    return Csv(body, Filename(exportType, nowIso));
  }

  /** Without a `type` parameter the revenue export is produced; any type
      other than the two known ones gives an empty body. */
  lemma ExportTypes(typeParam: Option<string>, invoices: seq<InvoiceRecord>, customers: seq<CustomerRecord>)
    ensures typeParam.None? ==> ExportBody(ExportType(typeParam), invoices, customers) == RevenueCsv(invoices)
    ensures typeParam.Some? && typeParam.value != "revenue" && typeParam.value != "customers" ==>
      ExportBody(ExportType(typeParam), invoices, customers) == ""
  {
  }

  /** The download is named after the export type. */
  lemma FilenameStartsWithType(exportType: string, nowIso: string)
    ensures StartsWith(Filename(exportType, nowIso), exportType)
    ensures StartsWith(Filename(exportType, nowIso), exportType + "-export-")
  {
    var f := Filename(exportType, nowIso);
    var d := if |nowIso| >= 10 then nowIso[..10] else nowIso;
    Assoc(exportType, "-export-", d + ".csv");
    Assoc(exportType + "-export-", d, ".csv");
    PrefixOfAppend(exportType + "-export-", d + ".csv");
    PrefixOfAppend(exportType, "-export-" + (d + ".csv"));
  }

  /** The lines of a text made of line-feed-free lines are those lines, then
      the empty remainder after the last line feed. */
  lemma {:induction false} SplitLinesText(lines: seq<string>)
    requires forall i :: 0 <= i < |lines| ==> '\n' !in lines[i]
    ensures Split(LinesText(lines), '\n') == lines + [""]
  {
    if lines != [] {
      var rest := lines[1..];
      assert forall i :: 0 <= i < |rest| ==> '\n' !in rest[i] by {
        forall i | 0 <= i < |rest| ensures '\n' !in rest[i] { assert rest[i] == lines[i + 1]; }
      }
      SplitLinesText(rest);
      assert LinesText(lines) == lines[0] + ['\n'] + LinesText(rest);
      SplitAppend(lines[0], '\n', LinesText(rest));
      SplitNoSep(lines[0], '\n');
      HeadCons(lines);
      Assoc([lines[0]], rest, [""]);
    }
  }

  predicate NoBreak(s: string) {
    '\n' !in s
  }

  predicate NoComma(s: string) {
    ',' !in s
  }

  lemma IntToStringPlain(i: int)
    ensures NoBreak(IntToString(i)) && NoComma(IntToString(i))
  {
    var r := IntToString(i);
    assert forall k :: 0 <= k < |r| ==> r[k] != '\n' && r[k] != ',';
  }

  /** When no field holds a line break, the revenue export has exactly one
      line per invoice after the header, in input order, each ended by a
      line feed. */
  lemma RevenueLines(invoices: seq<InvoiceRecord>)
    requires forall i :: 0 <= i < |invoices| ==>
      NoBreak(invoices[i].id) && NoBreak(invoices[i].status) && NoBreak(invoices[i].issuedAt) && NoBreak(invoices[i].paidAt.GetOr(""))
    ensures Split(RevenueCsv(invoices), '\n') == [RevenueHeader] + InvoiceLines(invoices) + [""]
    ensures |Split(RevenueCsv(invoices), '\n')| == |invoices| + 2
  {
    var ls := [RevenueHeader] + InvoiceLines(invoices);
    forall i | 0 <= i < |ls| ensures '\n' !in ls[i] {
      if i > 0 {
        assert ls[i] == Join(InvoiceFields(invoices[i - 1]), ",");
        InvoiceLineNoBreak(invoices[i - 1]);
      }
    }
    SplitLinesText(ls);
  }

  lemma InvoiceLineNoBreak(inv: InvoiceRecord)
    requires NoBreak(inv.id) && NoBreak(inv.status) && NoBreak(inv.issuedAt) && NoBreak(inv.paidAt.GetOr(""))
    ensures '\n' !in Join(InvoiceFields(inv), ",")
  {
    IntToStringPlain(inv.amount);
    NotInJoin(InvoiceFields(inv), ",", '\n');
  }

  /** The same for the customers export. */
  lemma CustomerLinesCount(customers: seq<CustomerRecord>)
    requires forall i :: 0 <= i < |customers| ==>
      forall f :: 0 <= f < |CustomerFields(customers[i])| ==> NoBreak(CustomerFields(customers[i])[f])
    ensures Split(CustomersCsv(customers), '\n') == [CustomersHeader] + CustomerLines(customers) + [""]
    ensures |Split(CustomersCsv(customers), '\n')| == |customers| + 2
  {
    var ls := [CustomersHeader] + CustomerLines(customers);
    forall i | 0 <= i < |ls| ensures '\n' !in ls[i] {
      if i > 0 {
        assert ls[i] == Join(CustomerFields(customers[i - 1]), ",");
        NotInJoin(CustomerFields(customers[i - 1]), ",", '\n');
      }
    }
    SplitLinesText(ls);
  }

  /** A revenue row read back at its commas gives the five fields, the last
      one empty for an unpaid invoice, provided no field holds a comma. */
  lemma InvoiceRowFields(inv: InvoiceRecord)
    requires NoComma(inv.id) && NoComma(inv.status) && NoComma(inv.issuedAt) && NoComma(inv.paidAt.GetOr(""))
    ensures Split(Join(InvoiceFields(inv), ","), ',') == InvoiceFields(inv)
    ensures inv.paidAt.None? ==> Split(Join(InvoiceFields(inv), ","), ',')[4] == ""
  {
    IntToStringPlain(inv.amount);
    SplitJoin(InvoiceFields(inv), ',');
  }

  /** A customer row read back at its commas gives the six fields, with
      name, email and company quoted and a missing company as `""`,
      provided no field holds a comma. */
  lemma CustomerRowFields(c: CustomerRecord)
    requires NoComma(c.id) && NoComma(c.name) && NoComma(c.email) && NoComma(c.company.GetOr("")) && NoComma(c.status) && NoComma(c.createdAt)
    ensures Split(Join(CustomerFields(c), ","), ',') == CustomerFields(c)
    ensures c.company.None? ==> Split(Join(CustomerFields(c), ","), ',')[3] == "\"\""
  {
    var fs := CustomerFields(c);
    forall i | 0 <= i < |fs| ensures ',' !in fs[i] {
    }
    SplitJoin(fs, ',');
  }
}
