/** What the pages do to the outside world, written down as an event log, and what the
    outside world answers. */
module Effects {
  import opened Wrappers
  import opened Json

  /** The outcome of one awaited network call: its reply body, or the error it rejected with
      (an axios error is an `Error`, so it always carries a message). */
  datatype Call<T> = Answered(body: T) | Threw(message: string)

  /** The severities `useNotification` accepts; its default is `Success`. */
  datatype Severity = Success | Info | Warning | Error

  datatype Verb = HttpGet | HttpPost

  datatype Event =
    | Request(verb: Verb, endpoint: string, params: Object)   // an HTTP call and its body or query
    | Wait(ms: nat)                                           // an awaited `setTimeout`
    | Notify(message: string, severity: Severity)             // a snackbar notification
    | Navigate(path: string)                                  // a router navigation
    | Callback(name: string, arg: Option<Json>)               // a call of a parent's callback prop

  /** The signed-in user of the authentication context. */
  datatype User = User(userId: int, projectId: Option<int>, preprocessId: Option<int>, email: string)

  /** JavaScript truthiness of an optional number: absent and `0` are falsy. */
  predicate TruthyId(id: Option<int>) { id.Some? && id.value != 0 }

  /** JavaScript truthiness of an optional string: absent and `""` are falsy. */
  predicate TruthyText(s: Option<string>) { s.Some? && s.value != "" }

  function IdJson(id: Option<int>): Option<Json> {
    match id
    case Some(n) => Some(JNumber(n as real))
    case None => None
  }

  /** A field whose value may be `undefined`; `JSON.stringify` leaves such a field out. */
  function OptionalField(k: string, v: Option<Json>): Object {
    match v
    case Some(x) => [Field(k, x)]
    case None => []
  }

  /** The change handlers of the forms: a truthy error on the edited field is set to `""`. */
  function ClearError<F>(errors: map<F, string>, f: F): map<F, string> {
    if f in errors && errors[f] != "" then errors[f := ""] else errors
  }

  /** Editing a field leaves every other field's error as it was and leaves the edited one
      falsy. */
  lemma ClearErrorOnlyField<F>(errors: map<F, string>, f: F)
    ensures var r := ClearError(errors, f);
      forall g :: g != f ==> (g in r <==> g in errors) && (g in r ==> r[g] == errors[g])
    ensures var r := ClearError(errors, f); (f in r <==> f in errors) && (f in r ==> r[f] == "")
  {
  }
}
