/**
 * The checkout page (src/app/checkout/page.tsx): totals with a constant
 * shipping fee, the province/district cascade, the quantity guard and the
 * payment submission with its two validation guards.
 */
module Checkout {
  import opened Wrappers
  import opened Text
  import opened CartContext
  import opened Locations
  import opened Storage
  import CartPage

  const ShippingFee: int := 30000
  const Discount: int := 0

  const MissingFieldsMessage := "Vui lòng điền đầy đủ thông tin bắt buộc!"
  const MissingLocationMessage := "Vui lòng chọn Tỉnh/Thành phố và Quận/Huyện!"
  const LinkFailedMessage := "Không thể tạo liên kết thanh toán. Vui lòng thử lại!"
  const GenericErrorMessage := "Đã xảy ra lỗi. Vui lòng thử lại!"
  const PendingOrderKey := "pendingOrderCode"

  // ---------------------------------------------------------------- totals

  /** `totalPrice + shippingFee - discount`: here the fee is charged on every total. */
  function FinalTotal(total: Option<int>): (r: Option<int>)
    ensures r.Some? <==> total.Some?
    ensures total.Some? ==> r.value == total.value + 30000
  {
    AddNumbers(total, Some(ShippingFee - Discount))
  }

  /** The checkout and cart pages quote the same final total except on a total of 0 or less,
      where the checkout page still adds the fee. */
  lemma FinalTotalsAgreeOnPositiveTotals(total: Option<int>)
    ensures FinalTotal(total) == CartPage.FinalTotal(total) <==> !(total.Some? && total.value <= 0)
  {
  }

  /** Rendering with an empty cart sends the browser to /cart. */
  function EmptyCartRedirect(items: seq<CartLine>): (target: Option<string>)
    ensures target.Some? <==> items == []
    ensures target.Some? ==> target.value == "/cart"
  {
    if |items| == 0 then Some("/cart") else None
  }

  // ---------------------------------------------------------------- province / district cascade

  datatype SelectOption = SelectOption(value: string, caption: string)

  datatype CheckoutForm = CheckoutForm(
    name: string, phone: string, email: string, province: string,
    district: string, address: string, note: string)

  /** The form together with the two select boxes and the current district options. */
  datatype Selection = Selection(
    form: CheckoutForm, selectedProvince: Option<SelectOption>,
    selectedDistrict: Option<SelectOption>, districts: seq<SelectOption>)

  function CaptionOf(o: Option<SelectOption>): string {
    if o.Some? then o.value.caption else ""
  }

  function WardOptions(wards: seq<Ward>): seq<SelectOption> {
    if wards == [] then [] else [SelectOption(wards[0].codename, wards[0].name)] + WardOptions(wards[1..])
  }

  /** The options offered under a province choice: the wards of the first province whose
      codename is the option's value, else none. */
  function DistrictOptions(provinces: seq<Province>, selected: Option<SelectOption>): seq<SelectOption> {
    match selected
    case None => []
    case Some(o) =>
      match FindProvince(provinces, o.value)
      case None => []
      case Some(p) => WardOptions(p.wards)
  }

  /** handleProvinceChange */
  function ProvinceChanged(s: Selection, provinces: seq<Province>, option: Option<SelectOption>): (r: Selection)
    ensures r.selectedProvince == option && r.selectedDistrict == None
    ensures r.form.district == "" && r.form.province == CaptionOf(option)
    ensures r.form.(province := s.form.province, district := s.form.district) == s.form
  {
    Selection(
      s.form.(province := CaptionOf(option), district := ""),
      option, None, DistrictOptions(provinces, option))
  }

  /** handleDistrictChange */
  function DistrictChanged(s: Selection, option: Option<SelectOption>): (r: Selection)
    ensures r.selectedDistrict == option && r.form.district == CaptionOf(option)
    ensures r.selectedProvince == s.selectedProvince && r.districts == s.districts
    ensures r.form.(district := s.form.district) == s.form
  {
    s.(selectedDistrict := option, form := s.form.(district := CaptionOf(option)))
  }

  /** The cascade's invariant: the options belong to the chosen province, the form shows the
      chosen captions, and a chosen district is one of the options. */
  ghost predicate Consistent(s: Selection, provinces: seq<Province>) {
    && s.districts == DistrictOptions(provinces, s.selectedProvince)
    && s.form.province == CaptionOf(s.selectedProvince)
    && s.form.district == CaptionOf(s.selectedDistrict)
    && (s.selectedDistrict.Some? ==> s.selectedDistrict.value in s.districts)
  }

  /** Choosing or clearing a province re-establishes the invariant from any state. */
  lemma ProvinceChangedConsistent(s: Selection, provinces: seq<Province>, option: Option<SelectOption>)
    ensures Consistent(ProvinceChanged(s, provinces, option), provinces)
  {
  }

  /** Choosing one of the offered districts, or clearing it, keeps the invariant. */
  lemma DistrictChangedConsistent(s: Selection, provinces: seq<Province>, option: Option<SelectOption>)
    requires Consistent(s, provinces)
    requires option.Some? ==> option.value in s.districts
    ensures Consistent(DistrictChanged(s, option), provinces)
  {
  }

  /** Each ward becomes one option, in order, valued by its codename and labelled by its name. */
  lemma {:induction false} WardOptionsAt(wards: seq<Ward>)
    ensures |WardOptions(wards)| == |wards|
    ensures forall i :: 0 <= i < |wards| ==>
      WardOptions(wards)[i] == SelectOption(wards[i].codename, wards[i].name)
  {
    if wards != [] {
      WardOptionsAt(wards[1..]);
    }
  }

  // ---------------------------------------------------------------- quantity controls

  /** handleQuantityChange: only a quantity of at least 1 reaches updateQuantity. */
  function QuantityChanged(items: seq<CartLine>, line: CartLine, newQuantity: int): seq<CartLine> {
    if newQuantity >= 1 then Updated(items, line.product.id, newQuantity) else items
  }

  /** No line can be removed from the checkout page: every line keeps its place, product and
      customization. */
  lemma QuantityControlsNeverRemove(items: seq<CartLine>, line: CartLine, newQuantity: int)
    ensures |QuantityChanged(items, line, newQuantity)| == |items|
    ensures forall i :: 0 <= i < |items| ==>
      QuantityChanged(items, line, newQuantity)[i].product == items[i].product &&
      QuantityChanged(items, line, newQuantity)[i].customization == items[i].customization
  {
    if newQuantity >= 1 {
      UpdatedPositive(items, line.product.id, newQuantity);
    }
  }

  // ---------------------------------------------------------------- payment request

  datatype PaymentItem = PaymentItem(
    productId: int, name: string, price: Option<nat>, quantity: int,
    customization: Option<Customization>)

  datatype CustomerInfo = CustomerInfo(
    name: string, email: string, phone: string, province: string, district: string, address: string)

  datatype PaymentRequest = PaymentRequest(
    items: seq<PaymentItem>, customer: CustomerInfo, note: string,
    totalPrice: Option<int>, shippingFee: int, discount: int, finalTotal: Option<int>)

  /** One cart line as sent: the digits of its price, its quantity and its customization. */
  function PaymentItemOf(line: CartLine): PaymentItem {
    PaymentItem(line.product.id, line.product.name, UnitPrice(line.product.price), line.quantity, line.customization)
  }

  function PaymentItems(items: seq<CartLine>): seq<PaymentItem> {
    if items == [] then [] else [PaymentItemOf(items[0])] + PaymentItems(items[1..])
  }

  /** `orderData` */
  function OrderData(items: seq<CartLine>, form: CheckoutForm): PaymentRequest {
    var total := PriceTotal(items);
    PaymentRequest(
      PaymentItems(items),
      CustomerInfo(form.name, form.email, form.phone, form.province, form.district, form.address),
      form.note, total, ShippingFee, Discount, FinalTotal(total))
  }

  function ItemAmount(item: PaymentItem): Option<int> {
    var extra := if item.customization.Some? then item.customization.value.price else 0;
    if item.price.Some? then Some((item.price.value + extra) * item.quantity) else None
  }

  /** The amount a receiver can recompute from the sent items alone. */
  function ItemsAmount(items: seq<PaymentItem>): Option<int> {
    if items == [] then Some(0) else AddNumbers(ItemAmount(items[0]), ItemsAmount(items[1..]))
  }

  /** The payload has one item per cart line in cart order, and its items add up to the
      totalPrice it carries; finalTotal is that plus the fee. */
  lemma {:induction false} OrderDataMatchesCart(items: seq<CartLine>, form: CheckoutForm)
    ensures |OrderData(items, form).items| == |items|
    ensures forall i :: 0 <= i < |items| ==> OrderData(items, form).items[i] == PaymentItemOf(items[i])
    ensures ItemsAmount(OrderData(items, form).items) == OrderData(items, form).totalPrice
    ensures OrderData(items, form).finalTotal == FinalTotal(OrderData(items, form).totalPrice)
  {
    if items != [] {
      OrderDataMatchesCart(items[1..], form);
    }
  }

  /** The first failing guard of handlePayment, if any: name/phone/address before
      province/district. */
  function FormGuard(form: CheckoutForm): (r: Option<string>)
    ensures r.None? <==> form.name != "" && form.phone != "" && form.address != ""
                         && form.province != "" && form.district != ""
    ensures r == Some(MissingLocationMessage) ==>
              form.name != "" && form.phone != "" && form.address != ""
    ensures form.name == "" || form.phone == "" || form.address == "" ==> r == Some(MissingFieldsMessage)
    ensures (form.name != "" && form.phone != "" && form.address != ""
             && (form.province == "" || form.district == "")) ==> r == Some(MissingLocationMessage)
  {
    if form.name == "" || form.phone == "" || form.address == "" then Some(MissingFieldsMessage)
    else if form.province == "" || form.district == "" then Some(MissingLocationMessage)
    else None
  }

  /** What `paymentAPI.create` produced: a response, or a thrown request error carrying the
      backend's `errors` array and/or `message`. */
  datatype CreateReply =
    | Created(success: bool, paymentUrl: string, orderCode: nat)
    | RequestFailed(errors: Option<seq<string>>, message: Option<string>)

  /** The notifications of a failed request: every backend error (an empty array gives none),
      else a non-empty message, else a generic text. */
  function ErrorNotices(errors: Option<seq<string>>, message: Option<string>): (r: seq<string>)
    ensures errors.Some? ==> r == errors.value
    ensures errors.None? ==> |r| == 1
    ensures errors.None? && message.Some? && message.value != "" ==> r == [message.value]
    ensures errors.None? && (message.None? || message.value == "") ==> r == [GenericErrorMessage]
  {
    if errors.Some? then errors.value
    else if message.Some? && message.value != "" then [message.value]
    else [GenericErrorMessage]
  }

  class CheckoutPage {
    var selection: Selection
    var isProcessing: bool
    var notices: seq<string>
    var sent: seq<PaymentRequest>
    var location: Option<string>
    const storage: KeyValueStore

    constructor (storage: KeyValueStore)
      ensures this.storage == storage && !isProcessing && notices == [] && sent == [] && location == None
      ensures selection == Selection(CheckoutForm("", "", "", "", "", "", ""), None, None, [])
    {
      this.storage := storage;
      selection := Selection(CheckoutForm("", "", "", "", "", "", ""), None, None, []);
      isProcessing := false;
      notices := [];
      sent := [];
      location := None;
    }

    /** handlePayment: the guards, then one request, then the redirect or the error notices. */
    method HandlePayment(items: seq<CartLine>, reply: CreateReply)
      modifies this, storage
      ensures selection == old(selection)
      ensures FormGuard(selection.form).Some? ==>
        && notices == old(notices) + [FormGuard(selection.form).value]
        && sent == old(sent) && isProcessing == old(isProcessing)
        && location == old(location) && storage.entries == old(storage.entries)
      ensures FormGuard(selection.form).None? ==> sent == old(sent) + [OrderData(items, selection.form)]
      ensures FormGuard(selection.form).None? && reply.Created? && reply.success && reply.paymentUrl != "" ==>
        && isProcessing && location == Some(reply.paymentUrl) && notices == old(notices)
        && storage.entries == old(storage.entries)[PendingOrderKey := Show(reply.orderCode)]
      ensures FormGuard(selection.form).None? && reply.Created? && !(reply.success && reply.paymentUrl != "") ==>
        && !isProcessing && location == old(location) && notices == old(notices) + [LinkFailedMessage]
        && storage.entries == old(storage.entries)
      ensures FormGuard(selection.form).None? && reply.RequestFailed? ==>
        && !isProcessing && location == old(location)
        && notices == old(notices) + ErrorNotices(reply.errors, reply.message)
        && storage.entries == old(storage.entries)
    {
      var form := selection.form;
      if form.name == "" || form.phone == "" || form.address == "" {
        notices := notices + [MissingFieldsMessage];
        return;
      }
      if form.province == "" || form.district == "" {
        notices := notices + [MissingLocationMessage];
        return;
      }
      isProcessing := true;
      sent := sent + [OrderData(items, form)];
      match reply {
        case Created(success, url, code) =>
          if success && url != "" {
            storage.SetItem(PendingOrderKey, Show(code));
            location := Some(url);
          } else {
            notices := notices + [LinkFailedMessage];
            isProcessing := false;
          }
        case RequestFailed(errors, message) =>
          notices := notices + ErrorNotices(errors, message);
          isProcessing := false;
      }
    }
  }
}
