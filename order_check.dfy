/**
 * The guest order lookup (src/app/orders/check/page.tsx): the phone checks
 * that gate the request, the displayed orders, the displayed subtotal and
 * shipping line, and the status labels with their fallback.
 *
 * The phone pattern is the JavaScript regular expression
 * `(84|0[3|5|7|8|9])+([0-9]{8})\b` tested without anchors, written out as a
 * predicate. Its character class also holds a literal '|'.
 */
module OrderCheck {
  import opened Wrappers
  import opened Text

  // ---------------------------------------------------------------- the phone pattern

  /** One repetition of `(84|0[3|5|7|8|9])`; every alternative is two characters long. */
  predicate PhoneToken(a: char, b: char) {
    (a == '8' && b == '4') ||
    (a == '0' && (b == '3' || b == '|' || b == '5' || b == '7' || b == '8' || b == '9'))
  }

  /** `t` is one or more tokens. */
  predicate Tokens(t: string)
    decreases |t|
  {
    |t| >= 2 && PhoneToken(t[0], t[1]) && (|t| == 2 || Tokens(t[2..]))
  }

  /** A regular-expression word character `[A-Za-z0-9_]`. */
  predicate IsWordChar(c: char) {
    ('a' <= c <= 'z') || ('A' <= c <= 'Z') || IsDigit(c) || c == '_'
  }

  /** `\b` at offset e: exactly one side of e is a word character. */
  predicate WordBoundary(s: string, e: int)
    requires 0 <= e <= |s|
  {
    (e > 0 && IsWordChar(s[e - 1])) != (e < |s| && IsWordChar(s[e]))
  }

  /** The pattern matches `s[i..j+8]`: tokens in `s[i..j]`, eight digits, then `\b`. */
  predicate MatchAt(s: string, i: int, j: int) {
    0 <= i < j && j + 8 <= |s| && Tokens(s[i..j]) && AllDigits(s[j..j + 8]) && WordBoundary(s, j + 8)
  }

  /** `phoneRegex.test(phone)`: a match anywhere in the string. */
  ghost predicate PhonePattern(s: string) {
    exists i, j :: MatchAt(s, i, j)
  }

  /** A match whose token part is the single token right before the digits. */
  predicate ShortMatchAt(s: string, j: int) {
    2 <= j && j + 8 <= |s| && PhoneToken(s[j - 2], s[j - 1]) && AllDigits(s[j..j + 8]) && WordBoundary(s, j + 8)
  }

  lemma {:induction false} TokensEndWithToken(t: string)
    requires Tokens(t)
    ensures PhoneToken(t[|t| - 2], t[|t| - 1])
    decreases |t|
  {
    if |t| > 2 {
      TokensEndWithToken(t[2..]);
    }
  }

  /** The repetition `+` adds nothing to what the test accepts: a match exists exactly when
      one token directly precedes eight digits and a word boundary. */
  lemma PhonePatternShort(s: string)
    ensures PhonePattern(s) <==> exists j :: ShortMatchAt(s, j)
  {
    if PhonePattern(s) {
      var i, j :| MatchAt(s, i, j);
      TokensEndWithToken(s[i..j]);
      assert s[i..j][|s[i..j]| - 2] == s[j - 2] && s[i..j][|s[i..j]| - 1] == s[j - 1];
      assert ShortMatchAt(s, j);
    }
    if exists j :: ShortMatchAt(s, j) {
      var j :| ShortMatchAt(s, j);
      assert Tokens(s[j - 2..j]);
      assert MatchAt(s, j - 2, j);
    }
  }

  /** The test in a form that can run: some end position of a token works. */
  predicate PhoneAccepted(s: string) {
    exists j :: 2 <= j <= |s| - 8 && ShortMatchAt(s, j)
  }

  lemma PhoneAcceptedIsPattern(s: string)
    ensures PhoneAccepted(s) <==> PhonePattern(s)
  {
    PhonePatternShort(s);
  }

  /** The placeholder number passes. */
  lemma PlaceholderPasses()
    ensures PhonePattern("0912345678")
  {
    var s := "0912345678";
    assert s[0..2] == "09" && s[2..10] == "12345678";
    assert Tokens(s[0..2]);
    assert MatchAt(s, 0, 2);
  }

  /** The literal '|' of the character class makes "0|" a token: "0|" followed by any eight
      digits and a word boundary passes. */
  lemma BarIsAcceptedAsPrefix(digits: string, suffix: string)
    requires |digits| == 8 && AllDigits(digits)
    requires suffix == [] || !IsWordChar(suffix[0])
    ensures PhonePattern("0|" + digits + suffix)
  {
    var s := "0|" + digits + suffix;
    assert s[0..2] == "0|" && s[2..10] == digits;
    assert 10 < |s| ==> s[10] == suffix[0];
    assert ShortMatchAt(s, 2);
    PhonePatternShort(s);
  }

  /** Without anchors, text around a number does not matter as long as a word boundary
      follows the eight digits. */
  lemma SurroundingTextAccepted(prefix: string, suffix: string)
    requires suffix == [] || !IsWordChar(suffix[0])
    ensures PhonePattern(prefix + "0912345678" + suffix)
  {
    var s := prefix + "0912345678" + suffix;
    var j := |prefix| + 2;
    assert s[j - 2..j] == "09";
    assert s[j..j + 8] == "12345678";
    assert j + 8 < |s| ==> s[j + 8] == suffix[0];
    assert ShortMatchAt(s, j);
    PhonePatternShort(s);
  }

  // ---------------------------------------------------------------- search handler

  const BlankPhoneMessage := "Vui lòng nhập số điện thoại!"
  const BadPhoneMessage := "Số điện thoại không hợp lệ!"
  const NoOrdersMessage := "Không tìm thấy đơn hàng nào với số điện thoại này."
  const LookupFailedMessage := "Có lỗi xảy ra khi kiểm tra đơn hàng!"

  datatype OrderItem = OrderItem(id: int, productName: string, quantity: int, price: int, subtotal: Option<int>)

  datatype Order = Order(
    id: int, orderNumber: string, customerPhone: string, subtotal: int, shippingFee: int,
    discount: int, totalPayment: int, status: string, paymentStatus: string, items: seq<OrderItem>)

  /** The lookup's answer: `response.data?.data`, or a thrown error with its backend message. */
  datatype LookupReply = Answered(data: Option<seq<Order>>) | LookupFailed(message: Option<string>)

  datatype SearchPage = SearchPage(
    phone: string, orders: seq<Order>, loading: bool, searched: bool,
    notices: seq<string>, requests: seq<string>)

  /** handleSearch: two guards with no request, then one lookup whose result replaces the
      displayed orders. */
  function Search(page: SearchPage, reply: LookupReply): (r: SearchPage)
    ensures r.phone == page.phone
    ensures IsBlank(page.phone) ==> r == page.(notices := page.notices + [BlankPhoneMessage])
    ensures !IsBlank(page.phone) && !PhonePattern(page.phone) ==>
              r == page.(notices := page.notices + [BadPhoneMessage])
    ensures !IsBlank(page.phone) && PhonePattern(page.phone) ==>
              r.requests == page.requests + [page.phone] && r.searched && !r.loading
    ensures !IsBlank(page.phone) && PhonePattern(page.phone) && reply.Answered? ==>
              r.orders == reply.data.GetOr([])
    ensures !IsBlank(page.phone) && PhonePattern(page.phone) && reply.LookupFailed? ==> r.orders == []
  {
    if IsBlank(page.phone) then page.(notices := page.notices + [BlankPhoneMessage])
    else if (PhoneAcceptedIsPattern(page.phone); !PhoneAccepted(page.phone)) then
      page.(notices := page.notices + [BadPhoneMessage])
    else
      var sent := page.(requests := page.requests + [page.phone], searched := true);
      match reply
      case Answered(data) =>
        var found := data.GetOr([]);
        var notice := if |found| == 0 then NoOrdersMessage else "Tìm thấy " + Show(|found|) + " đơn hàng!";
        sent.(orders := found, notices := page.notices + [notice], loading := false)
      case LookupFailed(message) =>
        var notice := if message.Some? && message.value != "" then message.value else LookupFailedMessage;
        sent.(orders := [], notices := page.notices + [notice], loading := false)
  }

  // ---------------------------------------------------------------- order summary

  const DisplayedShipping: int := 30000

  /** `items.reduce((sum, item) => sum + (item.subtotal || 0), 0)` */
  function DisplayedSubtotal(items: seq<OrderItem>): int {
    if items == [] then 0 else items[0].subtotal.GetOr(0) + DisplayedSubtotal(items[1..])
  }

  /** The displayed subtotal adds up over any split of the item list, and an item without a
      subtotal contributes nothing. */
  lemma {:induction false} DisplayedSubtotalConcat(a: seq<OrderItem>, b: seq<OrderItem>)
    ensures DisplayedSubtotal(a + b) == DisplayedSubtotal(a) + DisplayedSubtotal(b)
  {
    if a == [] {
      assert a + b == b;
    } else {
      assert (a + b)[1..] == a[1..] + b;
      DisplayedSubtotalConcat(a[1..], b);
    }
  }

  lemma MissingSubtotalCountsZero(a: seq<OrderItem>, x: OrderItem, b: seq<OrderItem>)
    requires x.subtotal.None?
    ensures DisplayedSubtotal(a + [x] + b) == DisplayedSubtotal(a + b)
  {
    DisplayedSubtotalConcat(a + [x], b);
    DisplayedSubtotalConcat(a, [x]);
    DisplayedSubtotalConcat(a, b);
  }

  /** The shipping line shows 30000 whatever the order's own fee. */
  function DisplayedShippingOf(order: Order): (fee: int)
    ensures fee == 30000
  {
    DisplayedShipping
  }

  // ---------------------------------------------------------------- labels

  const StatusLabels: map<string, string> := map[
    "PENDING_PAYMENT" := "Chờ thanh toán", "PAID" := "Đã thanh toán", "PROCESSING" := "Đang xử lý",
    "SHIPPING" := "Đang giao", "DELIVERED" := "Đã giao", "CANCELLED" := "Đã hủy"]

  const PaymentStatusLabels: map<string, string> := map[
    "PENDING" := "Chờ thanh toán", "COMPLETED" := "Đã thanh toán", "FAILED" := "Thất bại"]

  /** `labels[code] || code`: the known label, else the raw code. */
  function LabelOr(labels: map<string, string>, code: string): (shown: string)
    ensures code !in labels ==> shown == code
    ensures code in labels && labels[code] != "" ==> shown == labels[code]
  {
    if code in labels && labels[code] != "" then labels[code] else code
  }

  lemma UnknownStatusShowsCode(code: string)
    requires code !in StatusLabels && code !in PaymentStatusLabels
    ensures LabelOr(StatusLabels, code) == code && LabelOr(PaymentStatusLabels, code) == code
  {
  }
}
