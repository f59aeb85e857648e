/**
 * The address book (src/app/addresses/page.tsx): the eleven-field form,
 * the province and district pickers fed by the reference data, opening the
 * form to add or to edit, the submit guard choosing between update and add,
 * and the delete / set-default actions.
 */
module Addresses {
  import opened Wrappers
  import opened Locations

  /** The page remembered as the post-login target when there is no session. */
  const OwnPath := "/addresses"
  const FieldsMissing := "Vui lòng điền đầy đủ thông tin bắt buộc"
  const Updated := "Cập nhật địa chỉ thành công"
  const Added := "Thêm địa chỉ thành công"
  const UpdateFailed := "Không thể cập nhật địa chỉ"
  const AddFailed := "Không thể thêm địa chỉ"
  const Deleted := "Đã xóa địa chỉ"
  const DeleteFailed := "Không thể xóa địa chỉ"
  const MadeDefault := "Đã đặt làm địa chỉ mặc định"
  const DefaultFailed := "Không thể đặt làm địa chỉ mặc định"

  datatype AddressType = Home | Office | Other

  datatype Address = Address(
    id: int, fullName: string, phone: string, address: string,
    province: string, provinceCode: string, district: string, districtCode: string,
    ward: Option<string>, wardCode: Option<string>, isDefault: bool, kind: AddressType)

  datatype AddressForm = AddressForm(
    fullName: string, phone: string, address: string,
    province: string, provinceCode: string, district: string, districtCode: string,
    ward: string, wardCode: string, isDefault: bool, kind: AddressType)

  const EmptyForm := AddressForm("", "", "", "", "", "", "", "", "", false, Home)

  /** A picker option; `code` is the numeric code the source turns into a string. */
  datatype LocationOption = LocationOption(value: string, caption: string, code: int)

  /** The editor's state: the form, the district options, the address being edited (none when
      adding) and whether the form is open. */
  datatype Editor = Editor(form: AddressForm, districts: seq<LocationOption>, editing: Option<Address>, showForm: bool)

  /** The province picker's options. */
  function ProvinceOptions(provinces: seq<Province>): (r: seq<LocationOption>)
    ensures |r| == |provinces|
    ensures forall i :: 0 <= i < |r| ==> r[i] == LocationOption(provinces[i].codename, provinces[i].name, provinces[i].code)
  {
    seq(|provinces|, i requires 0 <= i < |provinces| => LocationOption(provinces[i].codename, provinces[i].name, provinces[i].code))
  }

  /** A province's wards, offered as districts. */
  function DistrictOptions(p: Province): (r: seq<LocationOption>)
    ensures |r| == |p.wards|
    ensures forall i :: 0 <= i < |r| ==> r[i] == LocationOption(p.wards[i].codename, p.wards[i].name, p.wards[i].code)
  {
    seq(|p.wards|, i requires 0 <= i < |p.wards| => LocationOption(p.wards[i].codename, p.wards[i].name, p.wards[i].code))
  }

  /** handleProvinceChange: clearing the picker changes nothing; a choice sets the province,
      empties district and ward, and loads that province's wards (none if the code is unknown). */
  function ProvinceChanged(e: Editor, provinces: seq<Province>, selected: Option<LocationOption>): (r: Editor)
    ensures selected.None? ==> r == e
    ensures selected.Some? ==>
      && r.form == e.form.(province := selected.value.caption, provinceCode := selected.value.value,
                           district := "", districtCode := "", ward := "", wardCode := "")
      && r.editing == e.editing && r.showForm == e.showForm
    ensures selected.Some? ==>
      match FindProvince(provinces, selected.value.value)
      case Some(p) => r.districts == DistrictOptions(p)
      case None => r.districts == []
  {
    match selected
    case None => e
    case Some(o) =>
      var districts := match FindProvince(provinces, o.value)
                       case Some(p) => DistrictOptions(p)
                       case None => [];
      e.(form := e.form.(province := o.caption, provinceCode := o.value,
                         district := "", districtCode := "", ward := "", wardCode := ""),
         districts := districts)
  }

  /** handleDistrictChange: a choice sets the district and empties the ward. */
  function DistrictChanged(e: Editor, selected: Option<LocationOption>): (r: Editor)
    ensures selected.None? ==> r == e
    ensures selected.Some? ==>
      r == e.(form := e.form.(district := selected.value.caption, districtCode := selected.value.value,
                              ward := "", wardCode := ""))
  {
    match selected
    case None => e
    case Some(o) => e.(form := e.form.(district := o.caption, districtCode := o.value, ward := "", wardCode := ""))
  }

  /** resetForm: leaves whether the form is shown alone. */
  function Reset(e: Editor): (r: Editor)
    ensures r == Editor(EmptyForm, [], None, e.showForm)
  {
    Editor(EmptyForm, [], None, e.showForm)
  }

  /** openAddForm */
  function OpenAddForm(e: Editor): (r: Editor)
    ensures r.form == EmptyForm && r.districts == [] && r.editing.None? && r.showForm
  {
    Reset(e).(showForm := true)
  }

  /** The form filled from a stored address; a missing ward is shown empty. */
  function FormOf(a: Address): AddressForm {
    AddressForm(a.fullName, a.phone, a.address, a.province, a.provinceCode, a.district, a.districtCode,
                a.ward.GetOr(""), a.wardCode.GetOr(""), a.isDefault, a.kind)
  }

  /** openEditForm: the district options are loaded only when the address's province is
      found; otherwise the previous options stay. */
  function OpenEditForm(e: Editor, provinces: seq<Province>, a: Address): (r: Editor)
    ensures r.form == FormOf(a) && r.editing == Some(a) && r.showForm
    ensures match FindProvince(provinces, a.provinceCode)
            case Some(p) => r.districts == DistrictOptions(p)
            case None => r.districts == e.districts
  {
    var districts := match FindProvince(provinces, a.provinceCode)
                     case Some(p) => DistrictOptions(p)
                     case None => e.districts;
    Editor(FormOf(a), districts, Some(a), true)
  }

  /** Whatever the previous state, an address whose fields are all present reappears field
      for field in the editor, and a form edited without changes carries the stored address
      back. */
  lemma EditShowsStoredAddress(e: Editor, provinces: seq<Province>, a: Address)
    requires a.ward.Some? && a.wardCode.Some?
    ensures var f := OpenEditForm(e, provinces, a).form;
            Address(a.id, f.fullName, f.phone, f.address, f.province, f.provinceCode, f.district, f.districtCode,
                    Some(f.ward), Some(f.wardCode), f.isDefault, f.kind) == a
  {
  }

  /** `!full_name || !phone || !address || !province || !district` */
  predicate Complete(form: AddressForm) {
    form.fullName != "" && form.phone != "" && form.address != "" && form.province != "" && form.district != ""
  }

  datatype SaveRequest = UpdateAddress(id: int, form: AddressForm) | AddAddress(form: AddressForm)

  datatype SubmitOutcome = SubmitOutcome(editor: Editor, request: Option<SaveRequest>, notice: string, reload: bool)

  /** handleSubmit, given whether the save succeeds. */
  function Submit(e: Editor, succeeded: bool): (o: SubmitOutcome)
    ensures o.request.None? <==> !Complete(e.form)
    ensures !Complete(e.form) ==> o == SubmitOutcome(e, None, FieldsMissing, false)
    ensures Complete(e.form) ==>
      o.request == Some(if e.editing.Some? then UpdateAddress(e.editing.value.id, e.form) else AddAddress(e.form))
    ensures Complete(e.form) && succeeded ==>
      && o.editor == Editor(EmptyForm, [], None, false) && o.reload
      && o.notice == if e.editing.Some? then Updated else Added
    ensures Complete(e.form) && !succeeded ==>
      && o.editor == e && !o.reload
      && o.notice == if e.editing.Some? then UpdateFailed else AddFailed
  {
    if !Complete(e.form) then SubmitOutcome(e, None, FieldsMissing, false)
    else
      var request := if e.editing.Some? then UpdateAddress(e.editing.value.id, e.form) else AddAddress(e.form);
      if succeeded then
        SubmitOutcome(Reset(e.(showForm := false)), Some(request), if e.editing.Some? then Updated else Added, true)
      else
        SubmitOutcome(e, Some(request), if e.editing.Some? then UpdateFailed else AddFailed, false)
  }

  /** Editing a complete stored address and saving it sends an update of that very address. */
  lemma EditThenSaveUpdates(e: Editor, provinces: seq<Province>, a: Address, succeeded: bool)
    requires a.fullName != "" && a.phone != "" && a.address != "" && a.province != "" && a.district != ""
    ensures Submit(OpenEditForm(e, provinces, a), succeeded).request == Some(UpdateAddress(a.id, FormOf(a)))
  {
  }

  /** A new form is refused until the required fields are typed. */
  lemma NewFormIsRefused(e: Editor, succeeded: bool)
    ensures Submit(OpenAddForm(e), succeeded).request.None?
  {
    assert !Complete(OpenAddForm(e).form);
  }

  /** A province choice followed by a district choice leaves a form whose ward is empty and
      whose province and district are the ones picked. */
  lemma PickProvinceThenDistrict(e: Editor, provinces: seq<Province>, p: LocationOption, d: LocationOption)
    ensures var f := DistrictChanged(ProvinceChanged(e, provinces, Some(p)), Some(d)).form;
            f.provinceCode == p.value && f.districtCode == d.value && f.ward == "" && f.wardCode == ""
            && f.fullName == e.form.fullName && f.phone == e.form.phone && f.address == e.form.address
  {
  }

  /** loadAddresses: unlike the order list, a failure empties the list. */
  function Loaded(previous: seq<Address>, reply: Option<Option<seq<Address>>>): (r: seq<Address>)
    ensures reply.None? ==> r == []
    ensures reply.Some? && reply.value.Some? ==> r == reply.value.value
    ensures reply.Some? && reply.value.None? ==> r == previous
  {
    match reply
    case None => []
    case Some(addresses) => addresses.GetOr(previous)
  }

  /** handleDelete / handleSetDefault: the request is sent after the confirmation (deleting
      only), the list reloads on success. */
  datatype ActionOutcome = ActionOutcome(sentRequest: bool, notice: Option<string>, reload: bool)

  function Delete(confirmed: bool, succeeded: bool): (o: ActionOutcome)
    ensures !confirmed ==> o == ActionOutcome(false, None, false)
    ensures confirmed ==> o.sentRequest && (o.reload <==> succeeded) && o.notice == Some(if succeeded then Deleted else DeleteFailed)
  {
    if !confirmed then ActionOutcome(false, None, false)
    else ActionOutcome(true, Some(if succeeded then Deleted else DeleteFailed), succeeded)
  }

  function SetDefault(succeeded: bool): (o: ActionOutcome)
    ensures o.sentRequest && (o.reload <==> succeeded) && o.notice == Some(if succeeded then MadeDefault else DefaultFailed)
  {
    ActionOutcome(true, Some(if succeeded then MadeDefault else DefaultFailed), succeeded)
  }

  /** getTypeLabel */
  function TypeLabel(kind: AddressType): (caption: string)
    ensures kind == Home ==> caption == "Nhà riêng"
    ensures kind == Office ==> caption == "Văn phòng"
    ensures kind == Other ==> caption == "Khác"
  {
    match kind
    case Home => "Nhà riêng"
    case Office => "Văn phòng"
    case Other => "Khác"
  }
}
