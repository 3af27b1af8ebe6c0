/**
 * The stand-alone contact page: the same form and status state and handlers
 * as the contact section, except that it posts the whole form record.
 */
module ContactPage {
  import opened Wrappers
  import opened ContactForm

  /** The request body: `JSON.stringify(form)`, the whole form record. */
  function RequestBody(form: Form): (body: Body)
    ensures MemberNames(body) == ["name", "email", "project", "message"]
    ensures Member(body, "name") == Some(form.name) && Member(body, "email") == Some(form.email)
    ensures Member(body, "project") == Some(form.project) && Member(body, "message") == Some(form.message)
  {
    SerializeCarriesTheForm(form);
    Serialize(form)
  }

  class ContactPage {
    var form: Form
    var status: Status

    ghost predicate Valid()
      reads this
    {
      Consistent(form, status)
    }

    constructor ()
      ensures Valid()
      ensures form == EmptyForm && status == Idle
    {
      form := EmptyForm;
      status := Idle;
    }

    /**
     * A change event from one of the four inputs. The inputs exist only while
     * the form is on screen, and the project select emits only its options.
     */
    method HandleChange(field: Field, value: string)
      requires Valid()
      requires FormShown(status)
      requires field == Project ==> value in ProjectOptions
      modifies this
      ensures Valid()
      ensures form == WithField(old(form), field, value) && status == old(status)
    {
      form := WithField(form, field, value);
    }

    /** The first half of the submit handler: mark the form as sending and build the body to post. */
    method Submit() returns (body: Body)
      requires Valid()
      modifies this
      ensures Valid()
      ensures status == Sending && form == old(form)
      ensures body == RequestBody(old(form))
      ensures Member(body, "project") == Some(old(form).project) && old(form).project in ProjectOptions
    {
      status := Sending;
      body := RequestBody(form);
      ProjectMemberIsAnOption(form);
    }

    /** The second half of the submit handler, once the POST has answered or thrown. */
    method Settle(response: Response)
      requires Valid()
      modifies this
      ensures Valid()
      ensures status == StatusAfter(response) && form == FormAfter(old(form), response)
    {
      if response == Ok {
        status := Success;
        form := EmptyForm;
      } else {
        status := Error;
      }
    }

    /** "Send Another": back to the idle form, which a successful send has already cleared. */
    method SendAnother()
      requires Valid()
      modifies this
      ensures Valid()
      ensures status == Idle && form == old(form)
      ensures old(status) == Success ==> form == EmptyForm
    {
      status := Idle;
    }
  }

  /**
   * A send that fails (`failure` is a response without `ok` or a thrown
   * error) shows the error banner and keeps what was typed; sending again
   * posts the same body, and an ok answer then clears the form.
   */
  method FailThenRetry(filled: Form, failure: Response)
    returns (failedStatus: Status, keptForm: Form, first: Body, second: Body, finalStatus: Status, finalForm: Form)
    requires filled.project in ProjectOptions
    requires failure != Ok
    ensures ErrorBannerShown(failedStatus) && keptForm == filled
    ensures first == second && Member(first, "email") == Some(filled.email)
    ensures SuccessPanelShown(finalStatus) && finalForm == EmptyForm
  {
    var page := new ContactPage();
    page.HandleChange(Name, filled.name);
    page.HandleChange(Email, filled.email);
    page.HandleChange(Project, filled.project);
    page.HandleChange(Message, filled.message);
    first := page.Submit();
    page.Settle(failure);
    failedStatus, keptForm := page.status, page.form;
    second := page.Submit();
    page.Settle(Ok);
    finalStatus, finalForm := page.status, page.form;
    SerializeCarriesTheForm(filled);
    assert Key(Email) == "email";
  }
}
