/** The contact page's form state (app/contact/page.tsx): the four fields, the
    two-phase submission with its simulated delay as an explicit completion step, the
    "send another message" reset, and which view and button label are shown. */
module Contact {
  import opened Translations

  /** The `name` attribute of the four inputs. */
  datatype Field = Name | Email | Subject | Message

  datatype FormData = FormData(name: string, email: string, subject: string, message: string) {
    function Get(f: Field): string {
      match f
      case Name => name
      case Email => email
      case Subject => subject
      case Message => message
    }

    /** `{...prev, [field]: value}`: the field gets the value, the other three keep theirs. */
    function With(f: Field, value: string): (r: FormData)
      ensures r.Get(f) == value
      ensures forall g :: g != f ==> r.Get(g) == Get(g)
    {
      match f
      case Name => this.(name := value)
      case Email => this.(email := value)
      case Subject => this.(subject := value)
      case Message => this.(message := value)
    }
  }

  const EmptyForm: FormData := FormData("", "", "", "")

  class ContactPage {
    var formData: FormData
    var isSubmitting: bool
    var submitted: bool

    /** The first render: four empty fields, not submitting, not submitted. */
    constructor ()
      ensures formData == EmptyForm && !isSubmitting && !submitted
    {
      formData := EmptyForm;
      isSubmitting := false;
      submitted := false;
    }

    /** `handleChange` for the input named f. */
    method HandleChange(f: Field, value: string)
      modifies this`formData
      ensures formData == old(formData).With(f, value)
      ensures formData.Get(f) == value
      ensures forall g :: g != f ==> formData.Get(g) == old(formData).Get(g)
    {
      formData := formData.With(f, value);
    }

    /** `handleSubmit` up to its `await`: only the submitting flag changes. */
    method BeginSubmit()
      modifies this`isSubmitting
      ensures isSubmitting
    {
      isSubmitting := true;
    }

    /** `handleSubmit` after the delay: submitted, no longer submitting, fields cleared. */
    method CompleteSubmit()
      modifies this
      ensures !isSubmitting && submitted && formData == EmptyForm
    {
      isSubmitting := false;
      submitted := true;
      formData := EmptyForm;
    }

    /** The "send another message" button: back to the form, whose fields stay as the
        completion left them. */
    method SendAnother()
      modifies this`submitted
      ensures !submitted
    {
      submitted := false;
    }

    /** A whole submission from any state: once it completes and the visitor asks to
        send another, the empty form is shown again. */
    method SubmitThenSendAnother()
      modifies this
      ensures !isSubmitting && !submitted && formData == EmptyForm
    {
      BeginSubmit();
      CompleteSubmit();
      SendAnother();
    }
  }

  datatype SubmitButton = SubmitButton(disabled: bool, caption: string)

  datatype View =
    | SuccessPanel(heading: string, thanks: string, again: string)
    | Form(button: SubmitButton)

  /** What the right-hand column shows: the success panel exactly when submitted, worded
      in English only for "en"; otherwise the form, whose button is disabled and reads
      the dictionary's "sending" text while a submission is in flight. */
  function ViewFor(submitted: bool, isSubmitting: bool, locale: Locale): (v: View)
    ensures v.SuccessPanel? <==> submitted
    ensures v.SuccessPanel? ==>
      v.heading == (if locale == En then "Message sent!" else "Message envoyé !")
    ensures v.SuccessPanel? ==>
      v.again == (if locale == En then "Send another message" else "Envoyer un autre message")
    ensures v.Form? ==> v.button.disabled == isSubmitting
    ensures v.Form? ==>
      v.button.caption == (if isSubmitting then TranslationsFor(locale).formSending
                           else TranslationsFor(locale).formSend)
  {
    if submitted then
      if locale == En then
        SuccessPanel("Message sent!",
          "Thank you for reaching out. I'll get back to you as soon as possible.",
          "Send another message")
      else
        SuccessPanel("Message envoyé !",
          "Merci de m'avoir contacté. Je vous répondrai dès que possible.",
          "Envoyer un autre message")
    else
      var t := TranslationsFor(locale);
      Form(SubmitButton(isSubmitting, if isSubmitting then t.formSending else t.formSend))
  }

  /** The button reads differently while sending, in both languages, so a visitor can
      tell an in-flight submission from an idle form. */
  lemma SendingIsVisible(locale: Locale)
    ensures ViewFor(false, true, locale).button.caption != ViewFor(false, false, locale).button.caption
    ensures ViewFor(false, true, locale).button.disabled && !ViewFor(false, false, locale).button.disabled
  {
  }
}
