/** The printable invoice (lib/invoice-generator.tsx, `generateInvoiceHTML`):
    the HTML document is the concatenation of its sections, each a template
    over the invoice data. The stylesheet inside `<style>` is fixed text and
    is the parameter `stylesheet`; the date as `toLocaleDateString` renders it
    is the parameter `localeDate`. Amounts are whole numbers. */
module Invoice {
  import opened Text

  datatype InvoiceItem = InvoiceItem(description: string, quantity: int, rate: int, amount: int)

  datatype InvoiceData = InvoiceData(
    invoiceNumber: string,
    date: string,
    gymName: string,
    gymAddress: string,
    gymPhone: string,
    gymEmail: string,
    customerName: string,
    customerPhone: string,
    customerEmail: string,
    items: seq<InvoiceItem>,
    subtotal: int,
    tax: int,
    total: int,
    paymentMethod: string,
    paymentStatus: string)

  function Rupee(): string { "\U{20B9}" }
  function Cell(): string { "<td style=\"padding: 12px; border-bottom: 1px solid #e5e7eb;" }

  /** One row of the items table. */
  function ItemRow(item: InvoiceItem): string {
    "\n    <tr>\n      " + Cell() + "\">" + item.description + "</td>\n      "
    + Cell() + " text-align: center;\">" + IntToString(item.quantity) + "</td>\n      "
    + Cell() + " text-align: right;\">" + Rupee() + LocaleInt(item.rate) + "</td>\n      "
    + Cell() + " text-align: right; font-weight: 600;\">" + Rupee() + LocaleInt(item.amount) + "</td>\n    </tr>\n  "
  }

  /** `items.map(...).join("")` */
  function ItemsHtml(items: seq<InvoiceItem>): string {
    ConcatMap(items, ItemRow)
  }

  /** The rows of a concatenation of item lists are the rows of the first
      followed by the rows of the second: one row per item, in order. */
  lemma ItemsHtmlAppend(a: seq<InvoiceItem>, b: seq<InvoiceItem>)
    ensures ItemsHtml(a + b) == ItemsHtml(a) + ItemsHtml(b)
  {
    ConcatMapAppend(a, b, ItemRow);
  }

  lemma ItemsHtmlSingle(item: InvoiceItem)
    ensures ItemsHtml([item]) == ItemRow(item)
  {
    ConcatMapSingle(item, ItemRow);
  }

  /** Every item's row appears in the table. */
  lemma ItemsHtmlHasEveryRow(items: seq<InvoiceItem>, k: int)
    requires 0 <= k < |items|
    ensures Contains(ItemsHtml(items), ItemRow(items[k]))
  {
    ConcatMapContains(items, ItemRow, k);
  }

  predicate Paid(status: string) {
    status == "completed"
  }

  function BadgeClass(status: string): string {
    if Paid(status) then "status-paid" else "status-pending"
  }

  function BadgeText(status: string): string {
    if Paid(status) then "PAID" else "PENDING"
  }

  function StatusLine(status: string): string {
    if Paid(status) then "Paid in Full" else "Pending Payment"
  }

  function TaxLabel(tax: int): string {
    if tax > 0 then "18% GST" else "0%"
  }

  /** The customer e-mail paragraph, present only for a non-empty address. */
  function EmailParagraph(email: string): string {
    if email != "" then "<p>" + email + "</p>" else ""
  }

  function TitleTag(invoiceNumber: string): string {
    "<title>Invoice " + invoiceNumber + "</title>"
  }

  function HeadSection(d: InvoiceData, stylesheet: string): string {
    "\n<!DOCTYPE html>\n<html>\n<head>\n  <meta charset=\"utf-8\">\n  " + TitleTag(d.invoiceNumber)
    + HeadTail(stylesheet)
  }

  function HeadTail(stylesheet: string): string {
    "\n  <style>" + stylesheet + "</style>\n</head>\n<body>\n  <div class=\"invoice-container\">\n"
  }

  function CompanyInfo(d: InvoiceData): string {
    "    <div class=\"header\">\n      <div class=\"company-info\">\n        <h1>" + d.gymName
    + "</h1>\n        <p>" + d.gymAddress + "</p>\n        <p>Phone: " + d.gymPhone
    + "</p>\n        <p>Email: " + d.gymEmail + "</p>\n      </div>\n      <div class=\"invoice-details\">\n        <h2>INVOICE</h2>\n        "
  }

  function NumberLine(invoiceNumber: string): string {
    "<p><strong>#" + invoiceNumber + "</strong></p>"
  }

  function DetailsTail(d: InvoiceData, localeDate: string): string {
    "\n        <p>Date: " + localeDate
    + "</p>\n        <p>\n          <span class=\"status-badge " + BadgeClass(d.paymentStatus) + "\">\n            "
    + BadgeText(d.paymentStatus) + "\n          </span>\n        </p>\n      </div>\n    </div>\n\n"
  }

  function HeaderSection(d: InvoiceData, localeDate: string): string {
    CompanyInfo(d) + NumberLine(d.invoiceNumber) + DetailsTail(d, localeDate)
  }

  function BillTo(d: InvoiceData): string {
    "    <div class=\"billing-info\">\n      <div class=\"section\">\n        <h3>Bill To:</h3>\n        <p><strong>"
    + d.customerName + "</strong></p>\n        <p>" + d.customerPhone + "</p>\n        "
  }

  function BillingSection(d: InvoiceData): string {
    BillTo(d) + EmailParagraph(d.customerEmail) + "\n      </div>\n    </div>\n\n"
  }

  function TableHead(): string {
    "    <table>\n      <thead>\n        <tr>\n          <th>Description</th>\n"
    + "          <th style=\"text-align: center; width: 100px;\">Qty</th>\n"
    + "          <th style=\"text-align: right; width: 120px;\">Rate</th>\n"
    + "          <th style=\"text-align: right; width: 120px;\">Amount</th>\n        </tr>\n      </thead>\n      <tbody>\n        "
  }

  function TableSection(d: InvoiceData): string {
    TableHead() + ItemsHtml(d.items) + "\n      </tbody>\n    </table>\n\n"
  }

  function TotalsSection(d: InvoiceData): string {
    "    <div class=\"totals\">\n      <div class=\"totals-row\">\n        <div class=\"totals-label\">Subtotal:</div>\n        <div class=\"totals-value\">"
    + Rupee() + LocaleInt(d.subtotal) + "</div>\n      </div>\n      <div class=\"totals-row\">\n        <div class=\"totals-label\">Tax ("
    + TaxLabel(d.tax) + "):</div>\n        <div class=\"totals-value\">" + Rupee() + LocaleInt(d.tax)
    + "</div>\n      </div>\n      <div class=\"totals-row total-row\">\n        <div class=\"totals-label\">Total:</div>\n        <div class=\"totals-value\">"
    + Rupee() + LocaleInt(d.total) + "</div>\n      </div>\n    </div>\n\n"
  }

  function MethodLine(paymentMethod: string): string {
    "<p><strong>Payment Method:</strong> " + Upper(paymentMethod) + "</p>"
  }

  function StatusParagraph(status: string): string {
    "<p><strong>Payment Status:</strong> " + StatusLine(status) + "</p>"
  }

  function StatusTail(status: string): string {
    "\n      " + StatusParagraph(status) + "\n    </div>\n\n"
  }

  function PaymentSection(d: InvoiceData): string {
    "    <div class=\"payment-info\">\n      " + MethodLine(d.paymentMethod) + StatusTail(d.paymentStatus)
  }

  function FooterSection(): string {
    "    <div class=\"footer\">\n      <p>Thank you for your business!</p>\n"
    + "      <p>This is a computer-generated invoice and does not require a signature.</p>\n"
    + "      <p>Generated by MuscleDesk - Gym Management Software</p>\n    </div>\n  </div>\n</body>\n</html>\n  "
  }

  /** `generateInvoiceHTML(data)` */
  function InvoiceHtml(d: InvoiceData, localeDate: string, stylesheet: string): string {
    HeadSection(d, stylesheet) + HeaderSection(d, localeDate) + BillingSection(d)
    + TableSection(d) + TotalsSection(d) + PaymentSection(d) + FooterSection()
  }

  /** The invoice shows "PAID" and "Paid in Full" exactly when the status is
      "completed"; any other status, including the cache's "done" and
      "pending", shows "PENDING" and "Pending Payment". */
  lemma PaidIffCompleted(status: string)
    ensures BadgeText(status) == "PAID" <==> status == "completed"
    ensures BadgeClass(status) == "status-paid" <==> status == "completed"
    ensures StatusLine(status) == "Paid in Full" <==> status == "completed"
    ensures status != "completed" ==>
      BadgeText(status) == "PENDING" && BadgeClass(status) == "status-pending" && StatusLine(status) == "Pending Payment"
  {
  }

  /** A payment the cache recorded reads as pending on its invoice. */
  lemma CachePaymentsShowPending()
    ensures BadgeText("done") == "PENDING" && BadgeText("pending") == "PENDING"
    ensures StatusLine("done") == "Pending Payment"
  {
  }

  /** The tax label is the GST rate exactly when tax was charged. */
  lemma TaxLabelIff(tax: int)
    ensures TaxLabel(tax) == "18% GST" <==> tax > 0
    ensures TaxLabel(tax) == "0%" <==> tax <= 0
  {
  }

  /** What occurs in one of seven parts occurs in their concatenation. */
  lemma ContainsInParts(h: string, e: string, b: string, t: string, o: string, p: string, f: string, sub: string)
    ensures Contains(h, sub) ==> Contains(h + e + b + t + o + p + f, sub)
    ensures Contains(e, sub) ==> Contains(h + e + b + t + o + p + f, sub)
    ensures Contains(b, sub) ==> Contains(h + e + b + t + o + p + f, sub)
    ensures Contains(t, sub) ==> Contains(h + e + b + t + o + p + f, sub)
    ensures Contains(p, sub) ==> Contains(h + e + b + t + o + p + f, sub)
  {
    if Contains(h, sub) {
      ContainsLeft(h, e, sub);
    }
    if Contains(e, sub) {
      ContainsRight(h, e, sub);
    }
    if Contains(h + e, sub) {
      ContainsLeft(h + e, b, sub);
    }
    if Contains(b, sub) {
      ContainsRight(h + e, b, sub);
    }
    if Contains(h + e + b, sub) {
      ContainsLeft(h + e + b, t, sub);
    }
    if Contains(t, sub) {
      ContainsRight(h + e + b, t, sub);
    }
    if Contains(h + e + b + t, sub) {
      ContainsLeft(h + e + b + t, o, sub);
    }
    if Contains(p, sub) {
      ContainsRight(h + e + b + t + o, p, sub);
    }
    if Contains(h + e + b + t + o, sub) {
      ContainsLeft(h + e + b + t + o, p, sub);
    }
    if Contains(h + e + b + t + o + p, sub) {
      ContainsLeft(h + e + b + t + o + p, f, sub);
    }
  }

  /** The invoice number is in the title. */
  lemma InvoiceShowsTitle(d: InvoiceData, localeDate: string, stylesheet: string)
    ensures Contains(InvoiceHtml(d, localeDate, stylesheet), TitleTag(d.invoiceNumber))
  {
    var title := TitleTag(d.invoiceNumber);
    ContainsMiddle("\n<!DOCTYPE html>\n<html>\n<head>\n  <meta charset=\"utf-8\">\n  ", title, HeadTail(stylesheet));
    ContainsInParts(HeadSection(d, stylesheet), HeaderSection(d, localeDate), BillingSection(d), TableSection(d),
      TotalsSection(d), PaymentSection(d), FooterSection(), title);
  }

  /** The invoice number is in the header. */
  lemma InvoiceShowsNumber(d: InvoiceData, localeDate: string, stylesheet: string)
    ensures Contains(InvoiceHtml(d, localeDate, stylesheet), NumberLine(d.invoiceNumber))
  {
    var number := NumberLine(d.invoiceNumber);
    ContainsMiddle(CompanyInfo(d), number, DetailsTail(d, localeDate));
    ContainsInParts(HeadSection(d, stylesheet), HeaderSection(d, localeDate), BillingSection(d), TableSection(d),
      TotalsSection(d), PaymentSection(d), FooterSection(), number);
  }

  /** The payment method is shown upper-cased. */
  lemma InvoiceShowsMethod(d: InvoiceData, localeDate: string, stylesheet: string)
    ensures Contains(InvoiceHtml(d, localeDate, stylesheet), MethodLine(d.paymentMethod))
  {
    var m := MethodLine(d.paymentMethod);
    ContainsMiddle("    <div class=\"payment-info\">\n      ", m, StatusTail(d.paymentStatus));
    ContainsInParts(HeadSection(d, stylesheet), HeaderSection(d, localeDate), BillingSection(d), TableSection(d),
      TotalsSection(d), PaymentSection(d), FooterSection(), m);
  }

  /** The payment status line is in the invoice. */
  lemma InvoiceShowsStatus(d: InvoiceData, localeDate: string, stylesheet: string)
    ensures Contains(InvoiceHtml(d, localeDate, stylesheet), StatusParagraph(d.paymentStatus))
  {
    var s := StatusParagraph(d.paymentStatus);
    ContainsMiddle("\n      ", s, "\n    </div>\n\n");
    ContainsRight("    <div class=\"payment-info\">\n      " + MethodLine(d.paymentMethod), StatusTail(d.paymentStatus), s);
    ContainsInParts(HeadSection(d, stylesheet), HeaderSection(d, localeDate), BillingSection(d), TableSection(d),
      TotalsSection(d), PaymentSection(d), FooterSection(), s);
  }

  /** Every item has its row in the invoice. */
  lemma InvoiceShowsItems(d: InvoiceData, localeDate: string, stylesheet: string, k: int)
    requires 0 <= k < |d.items|
    ensures Contains(InvoiceHtml(d, localeDate, stylesheet), ItemRow(d.items[k]))
  {
    var row := ItemRow(d.items[k]);
    ItemsHtmlHasEveryRow(d.items, k);
    ContainsRight(TableHead(), ItemsHtml(d.items), row);
    ContainsLeft(TableHead() + ItemsHtml(d.items), "\n      </tbody>\n    </table>\n\n", row);
    ContainsInParts(HeadSection(d, stylesheet), HeaderSection(d, localeDate), BillingSection(d), TableSection(d),
      TotalsSection(d), PaymentSection(d), FooterSection(), row);
  }

  /** The customer's e-mail paragraph is in the invoice. */
  lemma InvoiceCustomerEmail(d: InvoiceData, localeDate: string, stylesheet: string)
    ensures Contains(InvoiceHtml(d, localeDate, stylesheet), EmailParagraph(d.customerEmail))
  {
    var para := EmailParagraph(d.customerEmail);
    ContainsMiddle(BillTo(d), para, "\n      </div>\n    </div>\n\n");
    ContainsInParts(HeadSection(d, stylesheet), HeaderSection(d, localeDate), BillingSection(d), TableSection(d),
      TotalsSection(d), PaymentSection(d), FooterSection(), para);
  }

  /** The paragraph is empty exactly when there is no address, and holds the
      address otherwise. */
  lemma EmailParagraphIff(email: string)
    ensures EmailParagraph(email) == "" <==> email == ""
    ensures email != "" ==> EmailParagraph(email) == "<p>" + email + "</p>"
  {
  }
}
