/**
 * The contact section of the home page: its form and status state, the change,
 * submit and "Send Another" handlers, and the request body it builds field by
 * field.
 */
module ContactSection {
  import opened Wrappers
  import opened ContactForm

  /** The request body, built as an object literal naming the four fields one by one. */
  function RequestBody(form: Form): (body: Body)
    ensures body == Serialize(form)
  {
    [("name", form.name), ("email", form.email), ("project", form.project), ("message", form.message)]
  }

  class ContactSection {
    var form: Form
    var status: Status

    ghost predicate Valid()
      reads this
    {
      Consistent(form, status)
    }

    constructor ()
      ensures Valid()
      ensures form == EmptyForm && status == Idle
    {
      form := EmptyForm;
      status := Idle;
    }

    /**
     * A change event from one of the four inputs. The inputs exist only while
     * the form is on screen, and the project select emits only its options.
     */
    method HandleChange(field: Field, value: string)
      requires Valid()
      requires FormShown(status)
      requires field == Project ==> value in ProjectOptions
      modifies this
      ensures Valid()
      ensures form == WithField(old(form), field, value) && status == old(status)
    {
      form := WithField(form, field, value);
    }

    /** The first half of the submit handler: mark the form as sending and build the body to post. */
    method Submit() returns (body: Body)
      requires Valid()
      modifies this
      ensures Valid()
      ensures status == Sending && form == old(form)
      ensures body == RequestBody(old(form))
      ensures Member(body, "project") == Some(old(form).project) && old(form).project in ProjectOptions
    {
      status := Sending;
      body := RequestBody(form);
      ProjectMemberIsAnOption(form);
    }

    /** The second half of the submit handler, once the POST has answered or thrown. */
    method Settle(response: Response)
      requires Valid()
      modifies this
      ensures Valid()
      ensures status == StatusAfter(response) && form == FormAfter(old(form), response)
    {
      if response == Ok {
        status := Success;
        form := EmptyForm;
      } else {
        status := Error;
      }
    }

    /** "Send Another": back to the idle form, which a successful send has already cleared. */
    method SendAnother()
      requires Valid()
      modifies this
      ensures Valid()
      ensures status == Idle && form == old(form)
      ensures old(status) == Success ==> form == EmptyForm
    {
      status := Idle;
    }
  }

  /**
   * A visitor fills in all four fields and sends; the service answers ok;
   * they click "Send Another". The body carries the four values, the success
   * panel replaces the form, and the form comes back empty and idle.
   */
  method SendThenSendAnother(name: string, email: string, project: string, message: string)
    returns (body: Body, sentStatus: Status, sentForm: Form, againStatus: Status, againForm: Form)
    requires project in ProjectOptions
    ensures body == [("name", name), ("email", email), ("project", project), ("message", message)]
    ensures SuccessPanelShown(sentStatus) && sentForm == EmptyForm
    ensures againStatus == Idle && againForm == EmptyForm && FormShown(againStatus) && !ErrorBannerShown(againStatus)
  {
    var section := new ContactSection();
    section.HandleChange(Name, name);
    section.HandleChange(Email, email);
    section.HandleChange(Project, project);
    section.HandleChange(Message, message);
    body := section.Submit();
    section.Settle(Ok);
    sentStatus, sentForm := section.status, section.form;
    section.SendAnother();
    againStatus, againForm := section.status, section.form;
  }
}
