/**
 * The contact form (src/app/contact/page.tsx): the required-field guard, a
 * cleared form after a message is accepted, the typed data kept after a
 * failure.
 */
module Contact {
  import opened Wrappers

  const FieldsMissing := "Vui lòng điền đầy đủ thông tin bắt buộc!"
  const Thanks := "Cảm ơn bạn đã liên hệ! Chúng tôi sẽ phản hồi sớm nhất có thể."
  const SendFailed := "Có lỗi xảy ra. Vui lòng thử lại sau!"

  datatype ContactForm = ContactForm(name: string, email: string, phone: string, message: string)

  const EmptyForm := ContactForm("", "", "", "")

  datatype ContactPage = ContactPage(form: ContactForm, isSubmitting: bool, notices: seq<string>, sent: seq<ContactForm>)

  /** Name, email and phone are required; the message is not. */
  predicate Complete(form: ContactForm) {
    form.name != "" && form.email != "" && form.phone != ""
  }

  /** handleSubmit, given whether the backend accepts the message. */
  function Submit(page: ContactPage, accepted: bool): (r: ContactPage)
    ensures Complete(page.form) ==> !r.isSubmitting
    ensures !Complete(page.form) ==>
      r == page.(notices := page.notices + [FieldsMissing])
    ensures Complete(page.form) ==> r.sent == page.sent + [page.form]
    ensures Complete(page.form) && accepted ==>
      r.form == EmptyForm && r.notices == page.notices + [Thanks]
    ensures Complete(page.form) && !accepted ==>
      r.form == page.form && r.notices == page.notices + [SendFailed]
  {
    if !Complete(page.form) then page.(notices := page.notices + [FieldsMissing])
    else
      var sent := page.sent + [page.form];
      if accepted then ContactPage(EmptyForm, false, page.notices + [Thanks], sent)
      else ContactPage(page.form, false, page.notices + [SendFailed], sent)
  }

  /** An accepted message cannot be sent twice by pressing the button again: the cleared
      form fails the guard. A refused one can be retried as typed. */
  lemma NoDoubleSend(page: ContactPage)
    requires Complete(page.form)
    ensures Submit(Submit(page, true), true).sent == page.sent + [page.form]
    ensures Submit(Submit(page, false), true).sent == page.sent + [page.form, page.form]
  {
    assert !Complete(EmptyForm);
  }
}
