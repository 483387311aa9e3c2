/** The new-project form: a name and a description that must not be blank. */
module ProjectForms {
  import opened Wrappers
  import opened Json
  import opened Effects
  import opened Text

  const NameRequired := "Project Name is required"
  const DescriptionRequired := "Project Description is required"
  const FillFieldsNotice := "Please fill all the required fields!"
  const CreatedNotice := "Project created successfully!"
  const CreateEndpoint := "/projects/create_project"
  const SuccessMessage := "success"

  datatype ProjectField = Name | Description

  type ProjectErrors = map<ProjectField, string>

  /** A string is blank when it consists of white space only (the empty string included). */
  predicate Blank(s: string) {
    forall i :: 0 <= i < |s| ==> IsWhitespace(s[i])
  }

  /** The record `validateForm` fills. */
  function FormErrors(name: string, description: string): ProjectErrors {
    var none: ProjectErrors := map[];
    var e := if Blank(name) then none[Name := NameRequired] else none;
    if Blank(description) then e[Description := DescriptionRequired] else e
  }

  /** Each field is flagged exactly when it trims to the empty string, always with its
      "required" message; the form is accepted exactly when neither is blank. */
  lemma FormErrorsIff(name: string, description: string)
    ensures var e := FormErrors(name, description);
      && (Name in e <==> Trim(name) == "")
      && (Description in e <==> Trim(description) == "")
      && (Name in e ==> e[Name] == NameRequired)
      && (Description in e ==> e[Description] == DescriptionRequired)
      && (e == map[] <==> !Blank(name) && !Blank(description))
  {
    TrimEmptyIff(name);
    TrimEmptyIff(description);
    FlaggedFields(Blank(name), Blank(description));
  }

  /** The record as a function of which fields are blank. */
  lemma FlaggedFields(nameBlank: bool, descriptionBlank: bool)
    ensures var none: ProjectErrors := map[];
      var e := if descriptionBlank then (if nameBlank then none[Name := NameRequired] else none)[Description := DescriptionRequired]
               else (if nameBlank then none[Name := NameRequired] else none);
      && (Name in e <==> nameBlank) && (Description in e <==> descriptionBlank)
      && (Name in e ==> e[Name] == NameRequired)
      && (Description in e ==> e[Description] == DescriptionRequired)
      && (e == map[] <==> !nameBlank && !descriptionBlank)
  {
    var none: ProjectErrors := map[];
    if nameBlank { assert Name in none[Name := NameRequired]; }
    if descriptionBlank { assert Description in none[Description := DescriptionRequired]; }
  }

  /** The reply of the create call. */
  datatype CreateReply = CreateReply(message: Option<string>, projectId: Option<int>)

  /** `{...formdata, user_id}`; an `undefined` user id is dropped when the body is serialised. */
  function CreateBody(name: string, description: string, user: Option<User>): Object {
    [Field("name", JString(name)), Field("description", JString(description))]
    + OptionalField("user_id", if user.Some? then Some(JNumber(user.value.userId as real)) else None)
  }

  /** Whether the reply reports a created project. */
  predicate Created(reply: Call<CreateReply>) {
    reply.Answered? && reply.body.message == Some(SuccessMessage)
  }

  /** What follows the create request in the log. */
  function ReplyEvents(reply: Call<CreateReply>): (es: seq<Event>)
    ensures Created(reply) ==> es == [Notify(CreatedNotice, Success), Callback("onSuccess", IdJson(reply.body.projectId))]
    ensures reply.Threw? ==> es == [Notify(reply.message, Error)]
    ensures reply.Answered? && !Created(reply) ==> es == []
  {
    match reply
    case Threw(m) => [Notify(m, Error)]
    case Answered(b) =>
      if b.message == Some(SuccessMessage) then [Notify(CreatedNotice, Success), Callback("onSuccess", IdJson(b.projectId))]
      else []
  }

  class ProjectFormPage {
    const user: Option<User>
    var name: string
    var description: string
    var errors: ProjectErrors
    var isSubmitting: bool
    var log: seq<Event>

    constructor (user: Option<User>)
      ensures this.user == user && name == "" && description == "" && errors == map[] && !isSubmitting && log == []
    {
      this.user := user;
      name, description, errors, isSubmitting, log := "", "", map[], false, [];
    }

    /** `handleInputChange`. */
    method HandleInputChange(field: ProjectField, value: string)
      modifies this`name, this`description, this`errors
      ensures field == Name ==> name == value && description == old(description)
      ensures field == Description ==> description == value && name == old(name)
      ensures errors == ClearError(old(errors), field)
    {
      if field == Name { name := value; } else { description := value; }
      if field in errors && errors[field] != "" {
        errors := errors[field := ""];
      }
    }

    /** `validateForm`. */
    method ValidateForm() returns (ok: bool)
      modifies this`errors
      ensures errors == FormErrors(name, description)
      ensures ok <==> !Blank(name) && !Blank(description)
    {
      var trimmedName := Trim(name);
      var trimmedDescription := Trim(description);
      TrimEmptyIff(name);
      TrimEmptyIff(description);
      var validationErrors: ProjectErrors := map[];
      if trimmedName == "" {
        validationErrors := validationErrors[Name := NameRequired];
      }
      if trimmedDescription == "" {
        validationErrors := validationErrors[Description := DescriptionRequired];
      }
      errors := validationErrors;
      ok := |validationErrors| == 0;
      assert ok <==> validationErrors == map[];
    }

    /** The part of `handleSubmit` after the form passed validation: the project is posted, and
        only a reply whose message is "success" clears the fields and hands the new project's id
        to `onSuccess`. */
    method Send(reply: Call<CreateReply>)
      modifies this`name, this`description, this`isSubmitting, this`log
      ensures !isSubmitting
      ensures log == old(log) + [Request(HttpPost, CreateEndpoint, CreateBody(old(name), old(description), user))] + ReplyEvents(reply)
      ensures Created(reply) ==> name == "" && description == ""
      ensures !Created(reply) ==> name == old(name) && description == old(description)
    {
      isSubmitting := true;
      ghost var sent := old(log) + [Request(HttpPost, CreateEndpoint, CreateBody(name, description, user))];
      log := log + [Request(HttpPost, CreateEndpoint, CreateBody(name, description, user))];
      match reply {
      case Threw(m) =>
        log := log + [Notify(m, Error)];
      case Answered(b) =>
        if b.message == Some(SuccessMessage) {
          log := log + [Notify(CreatedNotice, Success)];
          name, description := "", "";
          log := log + [Callback("onSuccess", IdJson(b.projectId))];
          ConcatAssoc(sent, [Notify(CreatedNotice, Success)], [Callback("onSuccess", IdJson(b.projectId))]);
        }
      }
      isSubmitting := false;
    }

    /** `handleSubmit`: a blank field gets a notice and no request; otherwise the form is sent.
        `isSubmitting` is false after every attempt that was sent. */
    method HandleSubmit(reply: Call<CreateReply>)
      modifies this`name, this`description, this`errors, this`isSubmitting, this`log
      ensures errors == FormErrors(old(name), old(description))
      ensures Blank(old(name)) || Blank(old(description)) ==>
        log == old(log) + [Notify(FillFieldsNotice, Error)] &&
        name == old(name) && description == old(description) && isSubmitting == old(isSubmitting)
      ensures !Blank(old(name)) && !Blank(old(description)) ==>
        !isSubmitting &&
        log == old(log) + [Request(HttpPost, CreateEndpoint, CreateBody(old(name), old(description), user))] + ReplyEvents(reply) &&
        (Created(reply) ==> name == "" && description == "") &&
        (!Created(reply) ==> name == old(name) && description == old(description))
    {
      var ok := ValidateForm();
      if ok {
        assert !Blank(old(name)) && !Blank(old(description));
        Send(reply);
      } else {
        assert Blank(old(name)) || Blank(old(description));
        log := log + [Notify(FillFieldsNotice, Error)];
      }
    }
  }
}
