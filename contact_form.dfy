/**
 * The contact form shared by the home page's contact section and the contact
 * page: a four-field form record, a four-valued submission status, what a
 * settled submission does to both, what the form shows in each status, and
 * the JSON body sent to the form service.
 */
module ContactForm {
  import opened Wrappers

  datatype Status = Idle | Sending | Success | Error

  /** The four inputs; each one's `name` attribute is the key it updates. */
  datatype Field = Name | Email | Project | Message

  datatype Form = Form(name: string, email: string, project: string, message: string)

  const EmptyForm: Form := Form("", "", "", "")

  /** The keys of the form record, in the order the record declares them. */
  const Fields: seq<Field> := [Name, Email, Project, Message]

  /** The `name` attribute of a field's input, which is also its key in the record. */
  function Key(field: Field): (key: string)
    ensures key in ["name", "email", "project", "message"]
  {
    match field
    case Name => "name"
    case Email => "email"
    case Project => "project"
    case Message => "message"
  }

  /** Distinct fields have distinct keys. */
  lemma KeysDistinct(a: Field, b: Field)
    ensures Key(a) == Key(b) <==> a == b
  {
  }

  function Get(form: Form, field: Field): string {
    match field
    case Name => form.name
    case Email => form.email
    case Project => form.project
    case Message => form.message
  }

  /** A change event, `{ ...prev, [name]: value }`: the named field takes the value, the others keep theirs. */
  function WithField(form: Form, field: Field, value: string): (updated: Form)
    ensures Get(updated, field) == value
    ensures forall other | other != field :: Get(updated, other) == Get(form, other)
  {
    match field
    case Name => form.(name := value)
    case Email => form.(email := value)
    case Project => form.(project := value)
    case Message => form.(message := value)
  }

  /** The values the project select offers, its placeholder first. */
  const ProjectOptions: seq<string> := ["", "New Website", "Website Redesign", "Landing Page", "Other"]

  /** How the POST to the form service ended: a response with `ok` set, one without, or a thrown error. */
  datatype Response = Ok | NotOk | Threw

  /** The status a settled submission leaves: success exactly for an ok response, otherwise error. */
  function StatusAfter(response: Response): (status: Status)
    ensures status == Success <==> response == Ok
    ensures status != Success ==> status == Error
  {
    if response == Ok then Success else Error
  }

  /** The form a settled submission leaves: cleared after an ok response, kept for a retry otherwise. */
  function FormAfter(form: Form, response: Response): (next: Form)
    ensures response == Ok ==> next == EmptyForm
    ensures response != Ok ==> next == form
  {
    if response == Ok then EmptyForm else form
  }

  /**
   * What holds of every state the rendered component can reach: the project
   * is one of the select's values, and a successful send has left the form
   * empty (the form is not on screen while the success panel shows, so no
   * change event can refill it).
   */
  ghost predicate Consistent(form: Form, status: Status) {
    && form.project in ProjectOptions
    && (status == Success ==> form == EmptyForm)
  }

  lemma InitiallyConsistent()
    ensures Consistent(EmptyForm, Idle)
  {
  }

  /** The submit button, part of the form, is disabled while a submission is on its way, never beside the error banner. */
  predicate SubmitDisabled(status: Status): (disabled: bool)
    ensures disabled ==> FormShown(status) && !ErrorBannerShown(status)
  {
    status == Sending
  }

  /** The error banner inside the form: shown in the status a failed submission leaves. */
  predicate ErrorBannerShown(status: Status): (shown: bool)
    ensures shown ==> FormShown(status)
    ensures shown <==> status == StatusAfter(NotOk)
  {
    status == Error
  }

  /** The success panel, which replaces the form: shown in the status an ok response leaves. */
  predicate SuccessPanelShown(status: Status): (shown: bool)
    ensures shown <==> status == StatusAfter(Ok)
  {
    status == Success
  }

  /** The form, on screen in every status but success. */
  predicate FormShown(status: Status): (shown: bool)
    ensures shown <==> status in [Idle, Sending, Error]
  {
    !SuccessPanelShown(status)
  }

  /**
   * Every status shows exactly one of: the plain form, the form with a
   * disabled button, the form with the error banner, the success panel.
   */
  lemma ViewsPartitionStatuses(status: Status)
    ensures FormShown(status) <==> !SuccessPanelShown(status)
    ensures ErrorBannerShown(status) ==> FormShown(status) && !SubmitDisabled(status)
    ensures SubmitDisabled(status) ==> FormShown(status) && !ErrorBannerShown(status)
    ensures (status == Idle) <==> FormShown(status) && !SubmitDisabled(status) && !ErrorBannerShown(status)
  {
  }

  /** A JSON object: its members, as key and string value, in order. */
  type Body = seq<(string, string)>

  /** The value of the first member named `key`, if there is one. */
  function Member(body: Body, key: string): (value: Option<string>)
    ensures value.Some? <==> exists i | 0 <= i < |body| :: body[i].0 == key
    ensures value.Some? ==> exists i | 0 <= i < |body| ::
      body[i] == (key, value.value) && forall j | 0 <= j < i :: body[j].0 != key
  {
    if body == [] then None
    else if body[0].0 == key then Some(body[0].1)
    else Member(body[1..], key)
  }

  /** The member names of a body, in order. */
  function MemberNames(body: Body): (names: seq<string>)
    ensures |names| == |body|
    ensures forall i | 0 <= i < |body| :: names[i] == body[i].0
  {
    if body == [] then [] else [body[0].0] + MemberNames(body[1..])
  }

  /** The members for `fields`, in that order, each the field's key and the form's value for it. */
  function Members(form: Form, fields: seq<Field>): (body: Body)
    ensures |body| == |fields|
    ensures forall i | 0 <= i < |fields| :: body[i] == (Key(fields[i]), Get(form, fields[i]))
  {
    if fields == [] then [] else [(Key(fields[0]), Get(form, fields[0]))] + Members(form, fields[1..])
  }

  /** `JSON.stringify(form)`: one member per key of the record, in the record's order. */
  function Serialize(form: Form): (body: Body)
    ensures MemberNames(body) == ["name", "email", "project", "message"]
  {
    var body := Members(form, Fields);
    var names := MemberNames(body);
    assert names[0] == "name" && names[1] == "email" && names[2] == "project" && names[3] == "message";
    body
  }

  /**
   * The serialized form has exactly the members name, email, project and
   * message, in that order, and each carries the form's value for that field.
   */
  lemma SerializeCarriesTheForm(form: Form)
    ensures MemberNames(Serialize(form)) == ["name", "email", "project", "message"]
    ensures Member(Serialize(form), "name") == Some(form.name)
    ensures Member(Serialize(form), "email") == Some(form.email)
    ensures Member(Serialize(form), "project") == Some(form.project)
    ensures Member(Serialize(form), "message") == Some(form.message)
  {
    var names := MemberNames(Serialize(form));
    assert names[0] == "name" && names[1] == "email" && names[2] == "project" && names[3] == "message";
    SerializedMemberAt(form, 0);
    SerializedMemberAt(form, 1);
    SerializedMemberAt(form, 2);
    SerializedMemberAt(form, 3);
  }

  lemma SerializedMemberAt(form: Form, k: nat)
    requires k < |Fields|
    ensures Member(Serialize(form), Key(Fields[k])) == Some(Get(form, Fields[k]))
  {
    var body := Serialize(form);
    assert forall i | 0 <= i < k :: Fields[i] != Fields[k];
    MemberAtDistinctKey(body, Fields, k);
  }

  /**
   * In a body whose names are the keys of `fields`, the member named after
   * `fields[k]` is the one at position `k` when no earlier field is the same.
   */
  lemma {:induction false} MemberAtDistinctKey(body: Body, fields: seq<Field>, k: nat)
    requires |body| == |fields| && k < |fields|
    requires forall i | 0 <= i < |body| :: body[i].0 == Key(fields[i])
    requires forall i | 0 <= i < k :: fields[i] != fields[k]
    ensures Member(body, Key(fields[k])) == Some(body[k].1)
    decreases k
  {
    if k > 0 {
      KeysDistinct(fields[0], fields[k]);
      MemberAtDistinctKey(body[1..], fields[1..], k - 1);
    }
  }

  /** The posted project member is the form's project, one of the select's options. */
  lemma ProjectMemberIsAnOption(form: Form)
    requires Consistent(form, Sending)
    ensures Member(Serialize(form), "project") == Some(form.project) && form.project in ProjectOptions
  {
    SerializeCarriesTheForm(form);
  }

  /** The body the form service receives determines the form it was built from. */
  lemma SerializeInjective(a: Form, b: Form)
    requires Serialize(a) == Serialize(b)
    ensures a == b
  {
    SerializeCarriesTheForm(a);
    SerializeCarriesTheForm(b);
  }
}
