/** The dataset upload form: a name, a description and a file are validated, the file is sent
    first, and the dataset details naming the returned file id are sent second. */
module DatasetForms {
  import opened Wrappers
  import opened Json
  import opened Effects
  import opened Text

  const NameRequired := "Dataset name is required"
  const NameRange := "Name must be between 1 and 50 characters"
  const DescriptionRequired := "Dataset description is required"
  const DescriptionRange := "Description must be between 1 and 500 characters"
  const FileRequired := "Dataset file is required"
  const MaxNameLength := 50
  const MaxDescriptionLength := 500

  const UploadEndpoint := "/projects/upload_file"
  const DetailsEndpoint := "/projects/add_dataset_details"
  const DashboardPath := "/dashboard"
  const UploadFailedPrefix := "File upload failed: "
  const MissingFileId := "Failed to get file ID from upload response"
  const UploadedNotice := "Dataset uploaded successfully!"
  const DetailsFailedNotice := "Failed to add dataset details"
  const CorrectErrorsNotice := "Please correct the errors before submitting"

  datatype DatasetField = Name | Description | FileInput

  type DatasetErrors = map<DatasetField, string>

  /** A file chosen in the browser; only its name matters to the form. */
  datatype LocalFile = LocalFile(name: string)

  /** The record `validateForm` fills, rule by rule. */
  function FormErrors(name: string, description: string, hasFile: bool): DatasetErrors {
    var none: DatasetErrors := map[];
    var e := if name == "" then none[Name := NameRequired]
             else if Utf16Length(name) < 1 || Utf16Length(name) > MaxNameLength then none[Name := NameRange]
             else none;
    var e' := if description == "" then e[Description := DescriptionRequired]
              else if Utf16Length(description) < 1 || Utf16Length(description) > MaxDescriptionLength then e[Description := DescriptionRange]
              else e;
    if !hasFile then e'[FileInput := FileRequired] else e'
  }

  /** `FormErrors` as the three updates `validateForm` makes one after the other. */
  lemma FormErrorsSteps(name: string, description: string, hasFile: bool, e1: DatasetErrors, e2: DatasetErrors, e3: DatasetErrors)
    requires e1 == if name == "" then map[Name := NameRequired]
                   else if Utf16Length(name) < 1 || Utf16Length(name) > MaxNameLength then map[Name := NameRange]
                   else map[]
    requires e2 == if description == "" then e1[Description := DescriptionRequired]
                   else if Utf16Length(description) < 1 || Utf16Length(description) > MaxDescriptionLength then e1[Description := DescriptionRange]
                   else e1
    requires e3 == if !hasFile then e2[FileInput := FileRequired] else e2
    ensures e3 == FormErrors(name, description, hasFile)
  {
  }

  /** The form is accepted exactly when the name is 1 to 50 UTF-16 code units long
      (`name.length`), the description 1 to 500, and a file is chosen. */
  lemma FormErrorsEmptyIff(name: string, description: string, hasFile: bool)
    ensures FormErrors(name, description, hasFile) == map[] <==>
      1 <= Utf16Length(name) <= MaxNameLength && 1 <= Utf16Length(description) <= MaxDescriptionLength && hasFile
  {
    if !(1 <= Utf16Length(name) <= MaxNameLength) { assert Name in FormErrors(name, description, hasFile); }
    if !(1 <= Utf16Length(description) <= MaxDescriptionLength) { assert Description in FormErrors(name, description, hasFile); }
    if !hasFile { assert FileInput in FormErrors(name, description, hasFile); }
  }

  /** Which message each field gets: a missing value is reported as missing, an over-long one
      as out of range, and a missing file always. */
  lemma FormErrorsMessages(name: string, description: string, hasFile: bool)
    ensures var e := FormErrors(name, description, hasFile);
      && (Name in e <==> name == "" || Utf16Length(name) > MaxNameLength)
      && (Name in e ==> e[Name] == if name == "" then NameRequired else NameRange)
      && (Description in e <==> description == "" || Utf16Length(description) > MaxDescriptionLength)
      && (Description in e ==> e[Description] == if description == "" then DescriptionRequired else DescriptionRange)
      && (FileInput in e <==> !hasFile)
      && (FileInput in e ==> e[FileInput] == FileRequired)
  {
  }

  /** The bounds count code units: a name of 26 emoji has 26 characters but a length of 52,
      so it is out of range. */
  lemma EmojiNameOutOfRange(description: string, hasFile: bool)
    ensures var name := seq(26, _ => '\U{1F600}');
      Name in FormErrors(name, description, hasFile) && FormErrors(name, description, hasFile)[Name] == NameRange
  {
    var name := seq(26, _ => '\U{1F600}');
    Utf16LengthAstral(name);
  }

  /** `total || 100`: a missing or zero total falls back to 100. */
  function Divisor(total: Option<nat>): (d: nat)
    ensures d > 0
  {
    if total.Some? && total.value != 0 then total.value else 100
  }

  /** `p` is `loaded * 100 / d` rounded to the nearest whole number, halves rounding up. */
  predicate NearestPercent(loaded: nat, d: nat, p: nat) {
    2 * d * p <= 200 * loaded + d < 2 * d * (p + 1)
  }

  /** `Math.round(loaded * 100 / (total || 100))` for the byte counts of a progress event. */
  function Percent(loaded: nat, total: Option<nat>): (p: nat)
    ensures NearestPercent(loaded, Divisor(total), p)
  {
    var m := 2 * Divisor(total);
    var x := 200 * loaded + Divisor(total);
    DivisionBounds(x, m);
    x / m
  }

  /** Integer division rounds down: the quotient times the divisor lies within one divisor
      below the dividend. */
  lemma DivisionBounds(x: nat, m: nat)
    requires m > 0
    ensures m * (x / m) <= x < m * (x / m + 1)
  {
    assert m * (x / m + 1) == m * (x / m) + m;
  }

  /** A positive factor can be cancelled from a strict inequality between products. */
  lemma CancelFactor(c: nat, a: nat, b: nat)
    requires c > 0 && c * a < c * b
    ensures a < b
  {
  }

  /** The nearest whole percentage is unique, so `Percent` is the rounding of the exact ratio
      and no other number is. */
  lemma PercentIsUnique(loaded: nat, total: Option<nat>, q: nat)
    requires NearestPercent(loaded, Divisor(total), q)
    ensures q == Percent(loaded, total)
  {
    var m := 2 * Divisor(total);
    var p := Percent(loaded, total);
    CancelFactor(m, q, p + 1);
    CancelFactor(m, p, q + 1);
  }

  /** Progress never passes 100 while no more than the total has been sent, and a finished
      upload shows exactly 100. */
  lemma PercentBounded(loaded: nat, total: nat)
    requires 0 < total && loaded <= total
    ensures Percent(loaded, Some(total)) <= 100
    ensures loaded == total ==> Percent(loaded, Some(total)) == 100
  {
    var p := Percent(loaded, Some(total));
    assert 2 * total * p <= 200 * loaded + total < 2 * total * 101;
    CancelFactor(2 * total, p, 101);
    if loaded == total {
      PercentIsUnique(loaded, Some(total), 100);
    }
  }

  /** Without a usable total the divisor is 100, so the bar shows the raw byte count, which can
      go past 100. */
  lemma PercentWithoutTotal(loaded: nat, total: Option<nat>)
    requires total.None? || total.value == 0
    ensures Percent(loaded, total) == loaded
  {
    PercentIsUnique(loaded, total, loaded);
  }

  /** One `onUploadProgress` event. */
  datatype Progress = Progress(loaded: nat, total: Option<nat>)

  /** The reply of the upload call and of the details call. */
  datatype UploadReply = UploadReply(fileId: Option<string>)
  datatype DetailsReply = DetailsReply(datasetId: Option<int>, message: Option<string>)

  /** The multipart body of the upload: the file and the user id as text (`""` when signed
      out). */
  function UploadBody(file: LocalFile, user: Option<User>): Object {
    [Field("file", JString(file.name)),
     Field("user_id", JString(if user.Some? then Decimal(user.value.userId) else ""))]
  }

  /** What `uploadFile` resolves to (`Ok`) or rejects with (`Err`, a message). */
  function UploadResult(file: Option<LocalFile>, reply: Call<UploadReply>): (r: Result<Option<string>, string>)
  {
    if file.None? then Ok(None)
    else match reply
      case Threw(m) => Err(UploadFailedPrefix + m)
      case Answered(b) => if TruthyText(b.fileId) then Ok(Some(b.fileId.value)) else Err(UploadFailedPrefix + MissingFileId)
  }

  /** No file means no upload; a file id comes back only from a reply that carries a
      non-empty one, and every failure is reported under the upload prefix. */
  lemma UploadResultCases(file: Option<LocalFile>, reply: Call<UploadReply>)
    ensures file.None? <==> UploadResult(file, reply) == Ok(None)
    ensures UploadResult(file, reply).Ok? && UploadResult(file, reply).value.Some? <==>
      file.Some? && reply.Answered? && TruthyText(reply.body.fileId)
    ensures UploadResult(file, reply).Ok? && UploadResult(file, reply).value.Some? ==>
      UploadResult(file, reply).value.value == reply.body.fileId.value != ""
    ensures UploadResult(file, reply).Err? ==> StartsWith(UploadResult(file, reply).error, UploadFailedPrefix)
  {
  }

  /** `{...formData, file_id, user_id: user?.user_id, project_id: user?.project_id}`;
      `undefined` ids are dropped when the body is serialised. */
  function DetailsBody(name: string, description: string, fileId: string, user: Option<User>): Object {
    [Field("name", JString(name))] + ([Field("description", JString(description))] + ([Field("file_id", JString(fileId))]
    + UserIds(user)))
  }

  function UserIds(user: Option<User>): Object {
    OptionalField("user_id", if user.Some? then Some(JNumber(user.value.userId as real)) else None)
    + OptionalField("project_id", if user.Some? then IdJson(user.value.projectId) else None)
  }

  lemma UserIdsFields(user: Option<User>)
    ensures Keys(UserIds(user)) == (if user.Some? then ["user_id"] else [])
      + (if user.Some? && user.value.projectId.Some? then ["project_id"] else [])
    ensures Get(UserIds(user), "user_id").Some? <==> user.Some?
    ensures Get(UserIds(user), "project_id").Some? <==> user.Some? && user.value.projectId.Some?
  {
    var u := OptionalField("user_id", if user.Some? then Some(JNumber(user.value.userId as real)) else None);
    var p := OptionalField("project_id", if user.Some? then IdJson(user.value.projectId) else None);
    KeysConcat(u, p);
    GetConcat(u, p, "user_id");
    GetConcat(u, p, "project_id");
  }

  /** The details body carries the form's text and the uploaded file's id, and the user's ids
      only when someone is signed in. */
  lemma DetailsBodyFields(name: string, description: string, fileId: string, user: Option<User>)
    ensures var b := DetailsBody(name, description, fileId, user);
      && Get(b, "name") == Some(JString(name))
      && Get(b, "description") == Some(JString(description))
      && Get(b, "file_id") == Some(JString(fileId))
      && (Get(b, "user_id").Some? <==> user.Some?)
      && (Get(b, "project_id").Some? <==> user.Some? && user.value.projectId.Some?)
  {
    var ids := UserIds(user);
    var c := [Field("file_id", JString(fileId))] + ids;
    var b := [Field("description", JString(description))] + c;
    UserIdsFields(user);
    GetCons(Field("name", JString(name)), b, "file_id");
    GetCons(Field("description", JString(description)), c, "file_id");
    GetCons(Field("name", JString(name)), b, "user_id");
    GetCons(Field("description", JString(description)), c, "user_id");
    GetCons(Field("file_id", JString(fileId)), ids, "user_id");
    GetCons(Field("name", JString(name)), b, "project_id");
    GetCons(Field("description", JString(description)), c, "project_id");
    GetCons(Field("file_id", JString(fileId)), ids, "project_id");
  }

  /** The bar after a run of progress events: the last event's percentage, or what it showed
      before when no event came. */
  function Shown(progress: seq<Progress>, before: nat): nat {
    if progress == [] then before
    else Percent(progress[|progress| - 1].loaded, progress[|progress| - 1].total)
  }

  /** Whether the form passes `validateForm`. */
  predicate Acceptable(name: string, description: string, file: Option<LocalFile>) {
    1 <= Utf16Length(name) <= MaxNameLength && 1 <= Utf16Length(description) <= MaxDescriptionLength && file.Some?
  }

  /** Whether the details reply names the new dataset. */
  predicate Saved(reply: Call<DetailsReply>) {
    reply.Answered? && TruthyId(reply.body.datasetId)
  }

  /** What follows the details request in the log: the success notice, `onSuccess` and the
      dashboard, or one error notice with the server's message, the default or the thrown one. */
  function DetailsEvents(reply: Call<DetailsReply>): (es: seq<Event>)
    ensures Saved(reply) <==> Navigate(DashboardPath) in es
    ensures |es| == if Saved(reply) then 3 else 1
  {
    match reply
    case Threw(m) => [Notify(m, Error)]
    case Answered(d) =>
      if TruthyId(d.datasetId) then [Notify(UploadedNotice, Success), Callback("onSuccess", None), Navigate(DashboardPath)]
      else [Notify(if TruthyText(d.message) then d.message.value else DetailsFailedNotice, Error)]
  }

  /** Whether a valid form's submission ends with a stored dataset: the upload gave a file id
      and the details reply names the dataset. */
  predicate Stored(file: LocalFile, uploadReply: Call<UploadReply>, detailsReply: Call<DetailsReply>) {
    UploadResult(Some(file), uploadReply).Ok? && Saved(detailsReply)
  }

  /** The events of a valid form's submission: the upload, then either its failure notice or
      the details request and what follows it. */
  function SubmitEvents(name: string, description: string, file: LocalFile, user: Option<User>,
                        uploadReply: Call<UploadReply>, detailsReply: Call<DetailsReply>): seq<Event> {
    [Request(HttpPost, UploadEndpoint, UploadBody(file, user))] +
    match UploadResult(Some(file), uploadReply)
    case Err(m) => [Notify(m, Error)]
    case Ok(id) =>
      [Request(HttpPost, DetailsEndpoint, DetailsBody(name, description, id.GetOr(""), user))] + DetailsEvents(detailsReply)
  }

  /** A valid form always sends its file first; the details go out exactly when the upload
      returned a file id, and name that id; the dashboard opens exactly when the dataset was
      stored. */
  lemma SubmitEventsCases(name: string, description: string, file: LocalFile, user: Option<User>,
                          uploadReply: Call<UploadReply>, detailsReply: Call<DetailsReply>)
    ensures var es := SubmitEvents(name, description, file, user, uploadReply, detailsReply);
      && es[0] == Request(HttpPost, UploadEndpoint, UploadBody(file, user))
      && (|es| > 2 <==> uploadReply.Answered? && TruthyText(uploadReply.body.fileId))
      && (uploadReply.Answered? && TruthyText(uploadReply.body.fileId) ==>
            es[1] == Request(HttpPost, DetailsEndpoint, DetailsBody(name, description, uploadReply.body.fileId.value, user)))
      && (Navigate(DashboardPath) in es <==> Stored(file, uploadReply, detailsReply))
  {
    UploadResultCases(Some(file), uploadReply);
    var es := SubmitEvents(name, description, file, user, uploadReply, detailsReply);
    if Stored(file, uploadReply, detailsReply) {
      assert es[2..] == DetailsEvents(detailsReply);
      assert Navigate(DashboardPath) in es[2..];
    }
  }

  /** `SubmitEvents` after a failed upload. */
  lemma SubmitEventsOnFailure(name: string, description: string, file: LocalFile, user: Option<User>,
                              uploadReply: Call<UploadReply>, detailsReply: Call<DetailsReply>, m: string)
    requires UploadResult(Some(file), uploadReply) == Err(m)
    ensures SubmitEvents(name, description, file, user, uploadReply, detailsReply) ==
      [Request(HttpPost, UploadEndpoint, UploadBody(file, user))] + [Notify(m, Error)]
    ensures !Stored(file, uploadReply, detailsReply)
  {
  }

  /** `SubmitEvents` after an upload that gave a file id. */
  lemma SubmitEventsOnUpload(name: string, description: string, file: LocalFile, user: Option<User>,
                             uploadReply: Call<UploadReply>, detailsReply: Call<DetailsReply>, id: Option<string>)
    requires UploadResult(Some(file), uploadReply) == Ok(id)
    ensures id.Some?
    ensures SubmitEvents(name, description, file, user, uploadReply, detailsReply) ==
      [Request(HttpPost, UploadEndpoint, UploadBody(file, user))] +
      ([Request(HttpPost, DetailsEndpoint, DetailsBody(name, description, id.value, user))] + DetailsEvents(detailsReply))
    ensures Stored(file, uploadReply, detailsReply) <==> Saved(detailsReply)
  {
    UploadResultCases(Some(file), uploadReply);
  }

  class DatasetFormPage {
    const user: Option<User>
    var name: string
    var description: string
    var file: Option<LocalFile>
    var fileName: string
    var errors: DatasetErrors
    var isSubmitting: bool
    var uploadProgress: nat
    var log: seq<Event>

    constructor (user: Option<User>)
      ensures this.user == user
      ensures name == "" && description == "" && file.None? && fileName == ""
      ensures errors == map[] && !isSubmitting && uploadProgress == 0 && log == []
    {
      this.user := user;
      name, description, file, fileName := "", "", None, "";
      errors, isSubmitting, uploadProgress, log := map[], false, 0, [];
    }

    /** `handleInputChange` for the name or the description input. */
    method HandleInputChange(field: DatasetField, value: string)
      requires field != FileInput
      modifies this`name, this`description, this`errors
      ensures field == Name ==> name == value && description == old(description)
      ensures field == Description ==> description == value && name == old(name)
      ensures errors == ClearError(old(errors), field)
    {
      if field == Name { name := value; } else { description := value; }
      if field in errors && errors[field] != "" {
        errors := errors[field := ""];
      }
    }

    /** `handleFileChange`: the first chosen file, if any, becomes the form's file. */
    method HandleFileChange(files: seq<LocalFile>)
      modifies this`file, this`fileName, this`errors
      ensures files == [] ==> file == old(file) && fileName == old(fileName) && errors == old(errors)
      ensures files != [] ==>
        file == Some(files[0]) && fileName == files[0].name &&
        errors == ClearError(old(errors), FileInput)
    {
      if |files| > 0 {
        file := Some(files[0]);
        fileName := files[0].name;
        if FileInput in errors && errors[FileInput] != "" {
          errors := errors[FileInput := ""];
        }
      }
    }

    /** `clearFile`: drops the file and its name and nothing else. */
    method ClearFile()
      modifies this`file, this`fileName
      ensures file.None? && fileName == ""
    {
      file := None;
      fileName := "";
    }

    /** `validateForm`. */
    method ValidateForm() returns (ok: bool)
      modifies this`errors
      ensures errors == FormErrors(name, description, file.Some?)
      ensures ok <==> 1 <= Utf16Length(name) <= MaxNameLength && 1 <= Utf16Length(description) <= MaxDescriptionLength && file.Some?
    {
      var validationErrors: DatasetErrors := map[];
      var nameLength, descriptionLength := Utf16Length(name), Utf16Length(description);
      if name == "" {
        validationErrors := validationErrors[Name := NameRequired];
      } else if nameLength < 1 || nameLength > MaxNameLength {
        validationErrors := validationErrors[Name := NameRange];
      }
      ghost var afterName := validationErrors;
      if description == "" {
        validationErrors := validationErrors[Description := DescriptionRequired];
      } else if descriptionLength < 1 || descriptionLength > MaxDescriptionLength {
        validationErrors := validationErrors[Description := DescriptionRange];
      }
      ghost var afterDescription := validationErrors;
      if file.None? {
        validationErrors := validationErrors[FileInput := FileRequired];
      }
      FormErrorsSteps(name, description, file.Some?, afterName, afterDescription, validationErrors);
      errors := validationErrors;
      ok := |validationErrors| == 0;
      FormErrorsEmptyIff(name, description, file.Some?);
      assert ok <==> validationErrors == map[];
    }

    /** `uploadFile`: with a file, posts it, lets each reported progress event set the bar, and
        resolves to the reply's file id or rejects. */
    method UploadFile(reply: Call<UploadReply>, progress: seq<Progress>) returns (r: Result<Option<string>, string>)
      modifies this`uploadProgress, this`log
      ensures r == UploadResult(file, reply)
      ensures file.None? ==> uploadProgress == old(uploadProgress) && log == old(log)
      ensures file.Some? ==> log == old(log) + [Request(HttpPost, UploadEndpoint, UploadBody(file.value, user))]
      ensures file.Some? ==> uploadProgress == Shown(progress, old(uploadProgress))
    {
      if file.None? {
        return Ok(None);
      }
      log := log + [Request(HttpPost, UploadEndpoint, UploadBody(file.value, user))];
      for k := 0 to |progress|
        invariant log == old(log) + [Request(HttpPost, UploadEndpoint, UploadBody(file.value, user))]
        invariant uploadProgress == Shown(progress[..k], old(uploadProgress))
      {
        uploadProgress := Percent(progress[k].loaded, progress[k].total);
        assert progress[..k + 1][k] == progress[k];
      }
      assert progress[..|progress|] == progress;
      match reply
      case Threw(m) =>
        r := Err(UploadFailedPrefix + m);
      case Answered(b) =>
        if TruthyText(b.fileId) {
          r := Ok(Some(b.fileId.value));
        } else {
          r := Err(UploadFailedPrefix + MissingFileId);
        }
    }

    /** The second half of `handleSubmit`: posts the details and, only when the reply names the
        new dataset, resets the form, calls `onSuccess` and opens the dashboard. */
    method SendDetails(fileId: string, reply: Call<DetailsReply>)
      modifies this`name, this`description, this`file, this`fileName, this`uploadProgress, this`log
      ensures log == old(log) + [Request(HttpPost, DetailsEndpoint, DetailsBody(old(name), old(description), fileId, user))]
                              + DetailsEvents(reply)
      ensures Saved(reply) ==> name == "" && description == "" && file.None? && fileName == "" && uploadProgress == 0
      ensures !Saved(reply) ==>
        name == old(name) && description == old(description) && file == old(file) &&
        fileName == old(fileName) && uploadProgress == old(uploadProgress)
    {
      log := log + [Request(HttpPost, DetailsEndpoint, DetailsBody(name, description, fileId, user))];
      match reply
      case Threw(m) =>
        log := log + [Notify(m, Error)];
      case Answered(d) =>
        if TruthyId(d.datasetId) {
          log := log + [Notify(UploadedNotice, Success)];
          name, description := "", "";
          file := None;
          fileName := "";
          uploadProgress := 0;
          log := log + [Callback("onSuccess", None), Navigate(DashboardPath)];
        } else {
          log := log + [Notify(if TruthyText(d.message) then d.message.value else DetailsFailedNotice, Error)];
        }
    }

    /** The `try` block of `handleSubmit`: upload the file, then, when it gave a file id, send
        the details. */
    method TrySubmit(uploadReply: Call<UploadReply>, progress: seq<Progress>, detailsReply: Call<DetailsReply>)
      requires file.Some?
      modifies this`uploadProgress, this`log, this`name, this`description, this`file, this`fileName
      ensures log == old(log) + SubmitEvents(old(name), old(description), old(file).value, user, uploadReply, detailsReply)
      ensures Stored(old(file).value, uploadReply, detailsReply) ==>
        name == "" && description == "" && file.None? && fileName == "" && uploadProgress == 0
      ensures !Stored(old(file).value, uploadReply, detailsReply) ==>
        name == old(name) && description == old(description) && file == old(file) && fileName == old(fileName) &&
        uploadProgress == Shown(progress, old(uploadProgress))
    {
      ghost var n0, d0, f0 := name, description, file.value;
      ghost var upload := Request(HttpPost, UploadEndpoint, UploadBody(f0, user));
      var up := UploadFile(uploadReply, progress);
      if up.Err? {
        log := log + [Notify(up.error, Error)];
        SubmitEventsOnFailure(n0, d0, f0, user, uploadReply, detailsReply, up.error);
        ConcatAssoc(old(log), [upload], [Notify(up.error, Error)]);
      } else {
        SubmitEventsOnUpload(n0, d0, f0, user, uploadReply, detailsReply, up.value);
        SendDetails(up.value.value, detailsReply);
        ConcatAssoc(old(log), [upload], [Request(HttpPost, DetailsEndpoint, DetailsBody(n0, d0, up.value.value, user))] + DetailsEvents(detailsReply));
      }
    }

    /** The part of `handleSubmit` after a form passed validation: the progress bar is reset,
        and `isSubmitting` is set around the attempt. */
    method Submit(uploadReply: Call<UploadReply>, progress: seq<Progress>, detailsReply: Call<DetailsReply>)
      requires Acceptable(name, description, file)
      modifies this`isSubmitting, this`uploadProgress, this`log
      modifies this`name, this`description, this`file, this`fileName
      ensures !isSubmitting
      ensures log == old(log) + SubmitEvents(old(name), old(description), old(file).value, user, uploadReply, detailsReply)
      ensures Stored(old(file).value, uploadReply, detailsReply) ==>
        name == "" && description == "" && file.None? && fileName == "" && uploadProgress == 0
      ensures !Stored(old(file).value, uploadReply, detailsReply) ==>
        name == old(name) && description == old(description) && file == old(file) && fileName == old(fileName) &&
        uploadProgress == Shown(progress, 0)
    {
      isSubmitting := true;
      uploadProgress := 0;
      TrySubmit(uploadReply, progress, detailsReply);
      isSubmitting := false;
    }

    /** `handleSubmit`. An invalid form only gets a notice and sends nothing; a valid one
        uploads the file, then sends the details, and is reset only when both succeed.
        `isSubmitting` is false after every attempt that got past validation. */
    method HandleSubmit(uploadReply: Call<UploadReply>, progress: seq<Progress>, detailsReply: Call<DetailsReply>)
      modifies this`errors, this`isSubmitting, this`uploadProgress, this`log
      modifies this`name, this`description, this`file, this`fileName
      ensures errors == FormErrors(old(name), old(description), old(file).Some?)
      ensures !Acceptable(old(name), old(description), old(file)) ==>
        log == old(log) + [Notify(CorrectErrorsNotice, Error)] &&
        name == old(name) && description == old(description) && file == old(file) && fileName == old(fileName) &&
        uploadProgress == old(uploadProgress) && isSubmitting == old(isSubmitting)
      ensures Acceptable(old(name), old(description), old(file)) ==>
        !isSubmitting &&
        log == old(log) + SubmitEvents(old(name), old(description), old(file).value, user, uploadReply, detailsReply)
      ensures Acceptable(old(name), old(description), old(file)) && Stored(old(file).value, uploadReply, detailsReply) ==>
        name == "" && description == "" && file.None? && fileName == "" && uploadProgress == 0
      ensures Acceptable(old(name), old(description), old(file)) && !Stored(old(file).value, uploadReply, detailsReply) ==>
        name == old(name) && description == old(description) && file == old(file) && fileName == old(fileName) &&
        uploadProgress == Shown(progress, 0)
    {
      var ok := ValidateForm();
      if ok {
        Submit(uploadReply, progress, detailsReply);
      } else {
        log := log + [Notify(CorrectErrorsNotice, Error)];
      }
    }
  }
}
