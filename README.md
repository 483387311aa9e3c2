# No-code ML front end, modelled in Dafny

This project models the browser front end of a no-code machine-learning workbench and the two
forecasting notebooks that ship with it. In the front end a user registers, logs in, creates a
project, uploads a dataset, previews it, and picks preprocessing methods per column. They then
build and train models and generate plots. The notebooks turn a time series into sliding-window
samples, cut those into training and test parts, train a gradient-boosted model round by round,
and forecast recursively.

Each page is a `class` whose fields are the page's state. Each handler is a `method` that
changes those fields, and its contract states the new state. What a page sends to the outside
world goes into an event log, one `Event` per action:

- a request, with its verb, endpoint and body;
- an awaited timer;
- a notification, with its severity;
- a navigation;
- a call of a parent's callback.

What the outside world answers is a parameter: `Call<T>` is either a reply body or the message
of the error the call rejected with. Polling loops read a sequence of such replies, one per
status query.

The pure parts are functions with lemmas about them: validation rules, the model and plot
tables, the request bodies that are built, header formatting and the percentage bar. JSON
objects keep their key order (`Json.Object`), because the pages build bodies by spreading and
`JSON.stringify` drops `undefined` members.

Modules:

- **Shared**
  - `Wrappers`: Option and Result.
  - `Json`: ordered objects.
  - `Effects`: replies, events, the user, JavaScript truthiness.
  - `Text`: `\s`, `trim`, decimal text.
  - `EmailPattern`: the e-mail regular expression used by registration and login.
- **Pages**
  - `TrainModel`, `VisualizeDataSet`, `PlotCard`, `PlotForm`, `Register`, `Login`.
  - `DatasetForms`, `ProjectForms`, `Preprocessing`, `ModelBuilder`, `DatasetPreview`.
- **Notebooks**
  - `Sequences`: `create_sequences` and the train/test cut.
  - `Forecast`: the boosting epochs and the recursive forecast.

## Model

| member | source | states |
|---|---|---|
| TrainModel.NormaliseResultFields | src/pages/TrainModel.tsx:110-113 | normalising a result keeps its keys, their order and every member but `metrics`; string metrics become the parsed JSON, or `[]` when parsing fails |
| TrainModel.NormaliseTwice | src/pages/TrainModel.tsx:110-113 | normalising twice equals normalising once, unless a string metric decodes to another string |
| TrainModel.ReplyEvents | src/pages/TrainModel.tsx:105-131 | the events after one status reply never include another status query or the timeout notice |
| TrainModel.LoopStep | src/pages/TrainModel.tsx:100-134 | while the loop condition holds and a reply is left, the loop is one iteration followed by the loop on the remaining replies |
| TrainModel.PendingEventsStep | src/pages/TrainModel.tsx:100-133 | each pending round adds exactly one status query and one 5000 ms wait |
| TrainModel.SkipPending | src/pages/TrainModel.tsx:100-134 | `k` pending replies within the 900-attempt budget leave the loop running with `k` attempts and `k` query-and-wait rounds logged |
| TrainModel.StopAt | src/pages/TrainModel.tsx:100-136 | the first non-pending reply after `k` pending ones is the last reply read; the run ends with the code after the loop |
| TrainModel.PollRunsOut | src/pages/TrainModel.tsx:100-136 | when only pending replies arrive, the run stops after 900 attempts or when the replies run out, whichever comes first |
| TrainModel.PollAttempts | src/pages/TrainModel.tsx:96-101 | the attempt count is one more than the pending replies read, capped at 900; the poll stays unfinished only when the replies ran out first |
| TrainModel.PollQueries | src/pages/TrainModel.tsx:100-104 | the number of status queries in the log equals the number of attempts |
| TrainModel.IterationQueries | src/pages/TrainModel.tsx:101-104 | one pass of the loop adds one attempt and one status query |
| TrainModel.FinishQueries | src/pages/TrainModel.tsx:136-140 | the code after the loop sends no status query |
| TrainModel.PendingEventsFacts | src/pages/TrainModel.tsx:100-133 | `k` pending rounds hold `k` status queries and no notification |
| TrainModel.PollCompletedInline | src/pages/TrainModel.tsx:107-125 | a `completed` reply with a result stores the normalised result, shows the success notice and ends the poll |
| TrainModel.PollCompletedInlineNotices | src/pages/TrainModel.tsx:107-125 | an inline result is announced exactly once, as a success |
| TrainModel.PollFailed | src/pages/TrainModel.tsx:127-131 | a `failed` reply clears the results, shows "Training failed" and ends the poll |
| TrainModel.PollFailedNotices | src/pages/TrainModel.tsx:127-131 | a failure is announced exactly once and never as a success |
| TrainModel.PollQueryRaises | src/pages/TrainModel.tsx:137-140 | a status query that raises clears the results and shows the status-check error |
| TrainModel.PollCompletedFallback | src/pages/TrainModel.tsx:115-125 | a `completed` reply without a result waits 500 ms and fetches the stored result; it stores that result only when present, and shows the success notice |
| TrainModel.PollFallbackRaises | src/pages/TrainModel.tsx:115-140 | a fallback fetch that raises ends in the `catch` with no success notice |
| TrainModel.FallbackKeepsEncodedMetrics | src/pages/TrainModel.tsx:109-122 | the inline path decodes string metrics but the fallback path stores them still encoded |
| TrainModel.PollUnknownStatus | src/pages/TrainModel.tsx:105-134 | any other status waits once more and then leaves the loop without touching the results |
| TrainModel.PollTimesOut | src/pages/TrainModel.tsx:98-136 | 900 pending replies give 900 query-and-wait rounds followed by the timeout notice |
| TrainModel.PollTimeoutIff | src/pages/TrainModel.tsx:136 | the timeout notice appears exactly when the counter reached 900 and the 900th reply did not raise |
| TrainModel.CompletedAtLastAttemptAlsoTimesOut | src/pages/TrainModel.tsx:107-136 | a `completed` reply on the 900th attempt is reported both as a success and as a timeout |
| TrainModel.OwnerFields | src/pages/TrainModel.tsx:153-154 | the owner part of a body holds only `project_id` and `user_id`; `user_id` is present exactly when a user is signed in, and carries their id |
| TrainModel.PayloadTail | src/pages/TrainModel.tsx:147-155 | the body starts with `type` and `model`; every other key is looked up in the members after them |
| TrainModel.RestLacksTarget | src/pages/TrainModel.tsx:150-155 | the members after `target` never hold a `target` key |
| TrainModel.PayloadTarget | src/pages/TrainModel.tsx:150 | the body has `target` exactly when the problem is not clustering, with the chosen column |
| TrainModel.PayloadClusters | src/pages/TrainModel.tsx:152 | the body has `n_clusters` exactly when the model is `kmeans`; a number that did not parse is sent as `null` |
| TrainModel.PayloadOwner | src/pages/TrainModel.tsx:153-154 | the body has `user_id` exactly when a user is signed in, and it carries that user's id |
| TrainModel.TrainPayloadFields | src/pages/TrainModel.tsx:147-155 | the posted body: `type` and `model` always; `target` exactly when the problem is not clustering; `n_clusters` exactly for `kmeans`; `user_id` exactly when a user is signed in |
| TrainModel.EnabledSubmitSendsOfferedTarget | src/pages/TrainModel.tsx:254-256 | an enabled submit has a known problem type, sends a target only for non-clustering problems, and that target is a column `getAvailableTargets` offered |
| TrainModel.ClusterCountOnlyForClustering | src/pages/TrainModel.tsx:152 | with a model taken from the table, `n_clusters` is sent only for clustering, and then with no target |
| TrainModel.KmeansOnlyForClustering | src/pages/TrainModel.tsx:25-52 | K-means is offered for clustering and for no other problem type |
| TrainModel.TrainModelPage.constructor | src/pages/TrainModel.tsx:58-66 | the initial page: not loading, no results, empty selections, three clusters |
| TrainModel.TrainModelPage.ChangeProblemType | src/pages/TrainModel.tsx:198 | choosing a problem type clears the model, the target and the features |
| TrainModel.TrainModelPage.SelectModel | src/pages/TrainModel.tsx:210 | the model select sets the model and keeps the selections consistent |
| TrainModel.TrainModelPage.SelectTarget | src/pages/TrainModel.tsx:221 | the target select sets the target |
| TrainModel.TrainModelPage.SelectFeatures | src/pages/TrainModel.tsx:234 | the feature select sets the features |
| TrainModel.TrainModelPage.PollTrainingStatus | src/pages/TrainModel.tsx:94-141 | the loop leaves the results and the log exactly as the polling function of the replies says |
| TrainModel.TrainModelPage.FinishPoll | src/pages/TrainModel.tsx:136-140 | the code after the loop: the `catch`, or the timeout check |
| TrainModel.TrainModelPage.PollOnce | src/pages/TrainModel.tsx:101-133 | one pass: one status query, the new status, whether it raised, the new results and the events of that reply |
| TrainModel.TrainModelPage.HandleSubmit | src/pages/TrainModel.tsx:143-173 | posts the payload, then: polls when a truthy task id comes back; stores an inline result with the success notice; changes nothing for any other reply; clears the results with "Training failed" on an error; loading is cleared by the `finally` block, so it stays set exactly when a task id was polled and the replies ran out before the poll ended |
| TrainModel.TrainModelPage.FetchExisting | src/pages/TrainModel.tsx:69-91 | without a truthy project id and user id nothing is fetched; otherwise the stored result is normalised and kept, a missing one clears the results, and an error clears them and is reported |
| VisualizeDataSet.FailureMessage | src/pages/VisualizeDataSet.tsx:39 | the reply's message when it is non-empty, else "Failed to generate plot" |
| VisualizeDataSet.PlotPendingEventsCons | src/pages/VisualizeDataSet.tsx:26-43 | each pending round is one status query followed by a 2000 ms wait |
| VisualizeDataSet.PlotOutcome | src/pages/VisualizeDataSet.tsx:23-49 | the poll's outcome is decided by the first reply that is not pending, after one query and one wait per pending reply |
| VisualizeDataSet.PlotSucceeds | src/pages/VisualizeDataSet.tsx:30-37 | a `success` reply appends exactly one plot, with the reply's image and a fresh id, after the existing ones |
| VisualizeDataSet.PlotFails | src/pages/VisualizeDataSet.tsx:38-40 | a `failed` reply sets the error to its message, or to the default, and adds no plot |
| VisualizeDataSet.PlotRaises | src/pages/VisualizeDataSet.tsx:45-48 | a status query that raises sets the polling error and leaves the list alone |
| VisualizeDataSet.PlotUnknownStatus | src/pages/VisualizeDataSet.tsx:26-44 | any other status ends the loop after the wait and changes nothing |
| VisualizeDataSet.PlotHasNoAttemptBound | src/pages/VisualizeDataSet.tsx:26 | any number of pending replies keeps the loop polling: it has no attempt limit |
| VisualizeDataSet.PlotPendingQueries | src/pages/VisualizeDataSet.tsx:26-43 | `k` pending rounds send `k` status queries and no notification |
| VisualizeDataSet.PlotKeepsExisting | src/pages/VisualizeDataSet.tsx:36 | whatever the replies, the existing plots stay at the front of the list, in order, and at most one plot is added |
| VisualizeDataSet.WithoutId | src/pages/VisualizeDataSet.tsx:70-72 | deleting keeps exactly the plots whose id differs, so none with that id is left |
| VisualizeDataSet.WithoutIdConcat | src/pages/VisualizeDataSet.tsx:71 | filtering distributes over concatenation, so the kept plots keep their order |
| VisualizeDataSet.WithoutAbsentId | src/pages/VisualizeDataSet.tsx:71 | deleting an id that no plot carries changes nothing |
| VisualizeDataSet.WithoutIdIdempotent | src/pages/VisualizeDataSet.tsx:71 | deleting twice is deleting once |
| VisualizeDataSet.Cards | src/pages/VisualizeDataSet.tsx:92-99 | one card per plot |
| VisualizeDataSet.CardOfPlot | src/pages/VisualizeDataSet.tsx:97 | card `i` shows its image as a PNG data URL prefixed once, and its Delete button removes that plot |
| VisualizeDataSet.PlotRequestFields | src/pages/VisualizeDataSet.tsx:55 | the plot body is the form data with the user's ids spread over it; other keys are unchanged |
| VisualizeDataSet.FormPlotRequest | src/pages/VisualizeDataSet.tsx:55 | a form submission's body carries the form's fields untouched and the user's ids beside them |
| VisualizeDataSet.VisualizeDataSetPage.constructor | src/pages/VisualizeDataSet.tsx:15-17 | no plots, not loading, no error |
| VisualizeDataSet.VisualizeDataSetPage.PollPlotStatus | src/pages/VisualizeDataSet.tsx:23-49 | the loop leaves the list, the error and the log as the polling function of the replies says |
| VisualizeDataSet.VisualizeDataSetPage.HandleFormSubmit | src/pages/VisualizeDataSet.tsx:51-68 | posts the plot request; a truthy task id is polled from a cleared error; a reply without one just clears the error; a failed post sets "Failed to generate plot"; loading is cleared by the `finally` block, so it stays set exactly when a task id was polled and the replies ran out while still pending |
| VisualizeDataSet.VisualizeDataSetPage.HandleDelete | src/pages/VisualizeDataSet.tsx:70-72 | the list loses exactly the plots with that id |
| PlotCard.ImageSource | src/components/AllCards/PlotCard.tsx:17 | an image starting with `data:image` is kept; any other is prefixed with the PNG data-URL header |
| PlotCard.ImageSourceIdempotent | src/components/AllCards/PlotCard.tsx:17 | normalising a source again changes nothing |
| PlotCard.ImageSourceOfPngUrl | src/components/AllCards/PlotCard.tsx:17 | an image the page already prefixed is shown as it is, so it is never prefixed twice |
| PlotForm.PayloadGet | src/components/Forms/PlotForm.tsx:50-54 | each key of the payload holds what the assignment for that key put there |
| PlotForm.PayloadKeys | src/components/Forms/PlotForm.tsx:50-54 | the payload's keys are `plotType` followed by the flagged fields, in assignment order |
| PlotForm.PlotDataFields | src/components/Forms/PlotForm.tsx:49-55 | the payload always names the plot type; it carries each axis and the hue exactly when the row lists them, and an aggregation exactly when the row needs one |
| PlotForm.MenuTypesHaveConfig | src/components/Forms/PlotForm.tsx:39 | every plot type the menu offers has a configuration row |
| PlotForm.NoConfigOnlyPlotType | src/components/Forms/PlotForm.tsx:39-54 | with no row (the empty or an unknown type) the payload holds only `plotType` |
| PlotForm.PairplotSendsNoAxes | src/components/Forms/PlotForm.tsx:26 | `pairplot` sends no axis and no hue, despite its hue flag |
| PlotForm.PieSendsNoHue | src/components/Forms/PlotForm.tsx:25 | `pie` never sends a hue but always an aggregation |
| PlotForm.AggregationMenus | src/components/Forms/PlotForm.tsx:17-30 | a row has an aggregation list exactly when it needs an aggregation, which is `bar` and `pie` |
| PlotForm.AggregationCounts | src/components/Forms/PlotForm.tsx:20-25 | `bar` offers four aggregations and `pie` two |
| PlotForm.SubmitEnabledIff | src/components/Forms/PlotForm.tsx:127 | a disabled button would send only the empty plot type, and every type the menu offers enables it |
| PlotForm.PlotFormState.constructor | src/components/Forms/PlotForm.tsx:33-37 | every selection starts empty |
| PlotForm.PlotFormState.ChoosePlotType | src/components/Forms/PlotForm.tsx:41-47 | choosing a different plot type resets the axes, hue and aggregation; choosing the same one keeps them |
| PlotForm.PlotFormState.HandleSubmit | src/components/Forms/PlotForm.tsx:49-62 | hands over the payload of the current selections and resets every field |
| Register.FormData.With | src/pages/Register.tsx:74-77 | `{...formData, [field]: v}` changes that field alone |
| Register.Digits | src/pages/Register.tsx:71 | the digits of the input, in order, and nothing else |
| Register.DigitsConcat | src/pages/Register.tsx:71 | removing non-digits works piece by piece |
| Register.DigitsFixedIff | src/pages/Register.tsx:71 | a string is left unchanged exactly when it is all digits |
| Register.SanitiseSecretKeyFacts | src/pages/Register.tsx:70-72 | the sanitised key has at most four characters, all digits, and is the leading part of the input's digits |
| Register.SanitiseSecretKeyIdempotent | src/pages/Register.tsx:70-72 | sanitising twice is sanitising once |
| Register.DigitsValueBound | src/pages/Register.tsx:152 | the number a digit string spells is below ten to the power of its length |
| Register.SecretKeyNumberBound | src/pages/Register.tsx:152 | a sanitised key is sent as a number below 10000 |
| Register.StepErrorsEmptyIff | src/pages/Register.tsx:93-130 | a step records no error exactly when the form meets that step's rules, lengths counted in UTF-16 code units as `.length` does |
| Register.StepErrorsFields | src/pages/Register.tsx:93-130 | only the current step's fields are flagged, each with a non-empty message, and a step past the last flags nothing |
| Register.EmailStepMessages | src/pages/Register.tsx:103-108 | an empty address is reported as missing, never as malformed; a non-empty one is malformed exactly when it fails the pattern |
| Register.PasswordStepMessages | src/pages/Register.tsx:109-119 | the password and its confirmation get their missing, too-short (under 8 UTF-16 code units) and mismatch messages by the rules' precedence |
| Register.SecretKeyStepMessages | src/pages/Register.tsx:120-125 | an empty key is missing; any other `.length` but four is the wrong length |
| Register.RegisterPage.constructor | src/pages/Register.tsx:52-62 | an empty form, no errors, step 0 |
| Register.RegisterPage.HandleInputChange | src/pages/Register.tsx:64-85 | the field gets its value (the key sanitised first) and its error, if set, is cleared to `""` |
| Register.RegisterPage.ValidateStep | src/pages/Register.tsx:93-130 | the errors become the current step's errors, and the result says whether there are none |
| Register.RegisterPage.HandleNext | src/pages/Register.tsx:132-136 | the step advances by one exactly when the current step validates |
| Register.RegisterPage.HandleBack | src/pages/Register.tsx:138-140 | the step goes back by one |
| Register.RegisterPage.HandleRegister | src/pages/Register.tsx:142-170 | an invalid step sends nothing; otherwise it posts the body and then either shows the success notice and navigates to `/login`, or takes the server's errors (or `{}`) |
| EmailPattern.ValidEmailMatchesPattern | src/pages/Register.tsx:87-90 | the address test accepts exactly the strings the pattern `^[^\s@]+@[^\s@]+\.[^\s@]+$` matches |
| EmailPattern.ValidEmailImpliesPattern | src/pages/Register.tsx:88 | an accepted address has a non-empty local part, `@`, a domain label, a dot and a non-empty rest, none of them holding white space or `@` |
| EmailPattern.PatternImpliesValidEmail | src/pages/Register.tsx:88 | every string of that shape is accepted |
| EmailPattern.SplitImpliesValidEmail | src/pages/Register.tsx:88 | an explicit split into the pattern's parts makes the address accepted |
| EmailPattern.EmptyIsNotValid | src/pages/Login.tsx:73-76 | the empty address is never accepted |
| Text.Utf16Length | src/pages/Login.tsx:90 | `s.length` counts UTF-16 code units: at least one and at most two per character, and zero exactly for the empty string |
| Text.Utf16LengthIsSize | src/pages/Login.tsx:90 | the length equals the number of characters exactly when no character lies above U+FFFF |
| Text.Utf16LengthAstral | src/pages/Login.tsx:90 | characters above U+FFFF count twice each |
| Text.Utf16LengthConcat | src/pages/Login.tsx:90 | the length of a concatenation is the sum of the lengths |
| Login.FormErrorsEmptyIff | src/pages/Login.tsx:78-96 | the form passes exactly when the e-mail matches the pattern and the password is at least 8 UTF-16 code units long |
| Login.FormErrorsMessages | src/pages/Login.tsx:81-92 | each field is flagged with its missing message when empty, and otherwise with its malformed or too-short message, the password's length counted in UTF-16 code units |
| Login.FourEmojiPasswordIsLongEnough | src/pages/Login.tsx:90 | four emoji are eight code units, so that password is not too short |
| Login.LoginPage.constructor | src/pages/Login.tsx:42-46 | empty credentials and no errors |
| Login.LoginPage.HandleEmailChange | src/pages/Login.tsx:51-60 | sets the e-mail and clears its error if one is set |
| Login.LoginPage.HandlePasswordChange | src/pages/Login.tsx:62-71 | sets the password and clears its error if one is set |
| Login.LoginPage.ValidateForm | src/pages/Login.tsx:78-96 | the errors become the form's errors, and the result says whether the e-mail matches and the password is at least 8 UTF-16 code units long |
| Login.LoginPage.HandleLogin | src/pages/Login.tsx:98-114 | an invalid form calls nothing; a valid one calls `login`, navigates to the dashboard only when it returns true, and on an axios error takes the server's errors (or `{}`) |
| DatasetForms.FormErrorsEmptyIff | src/components/Forms/DatasetForms.tsx:83-104 | the form passes exactly when the name is 1 to 50 UTF-16 code units long, the description 1 to 500, and a file is chosen |
| DatasetForms.FormErrorsMessages | src/components/Forms/DatasetForms.tsx:86-100 | a missing value gets its "required" message and an over-long one (in UTF-16 code units) its length message; the file gets its message exactly when absent |
| DatasetForms.EmojiNameOutOfRange | src/components/Forms/DatasetForms.tsx:88 | a name of 26 emoji has length 52 and gets the range message |
| DatasetForms.Percent | src/components/Forms/DatasetForms.tsx:119-121 | the percentage is the exact ratio `loaded * 100 / (total or 100)` rounded half up |
| DatasetForms.PercentIsUnique | src/components/Forms/DatasetForms.tsx:119-121 | only one whole number lies within half a unit of the exact ratio, so the percentage is that rounding |
| DatasetForms.PercentBounded | src/components/Forms/DatasetForms.tsx:119-121 | the bar never passes 100 while no more than the total has been sent, and it shows exactly 100 when all of it has |
| DatasetForms.PercentWithoutTotal | src/components/Forms/DatasetForms.tsx:120 | without a usable total, the bar shows the raw byte count |
| DatasetForms.UploadResult | src/components/Forms/DatasetForms.tsx:106-138 | what `uploadFile` resolves to or rejects with |
| DatasetForms.UploadResultCases | src/components/Forms/DatasetForms.tsx:107-137 | no file gives no id; a file id comes back only from a reply that has one; any other reply, or an error, rejects with the "File upload failed: " message |
| DatasetForms.UserIdsFields | src/components/Forms/DatasetForms.tsx:159-160 | the user's two ids are present exactly when they are defined |
| DatasetForms.DetailsBodyFields | src/components/Forms/DatasetForms.tsx:156-161 | the details body carries the name, the description, the uploaded file id and the user's ids |
| DatasetForms.DetailsEvents | src/components/Forms/DatasetForms.tsx:164-175 | a reply naming the dataset gives the success notice, `onSuccess` and the navigation to the dashboard; any other gives the reply's message or the default failure notice |
| DatasetForms.SubmitEventsCases | src/components/Forms/DatasetForms.tsx:140-184 | a valid form always sends its file first; the details go out exactly when the upload gave a file id, and the dashboard is reached exactly when the dataset is stored |
| DatasetForms.DatasetFormPage.constructor | src/components/Forms/DatasetForms.tsx:39-47 | empty fields, no file, no errors, progress 0 |
| DatasetForms.DatasetFormPage.HandleInputChange | src/components/Forms/DatasetForms.tsx:51-64 | sets the named text field and clears its error if set |
| DatasetForms.DatasetFormPage.HandleFileChange | src/components/Forms/DatasetForms.tsx:66-76 | the first chosen file, if any, becomes the file and its name; an empty choice changes nothing |
| DatasetForms.DatasetFormPage.ClearFile | src/components/Forms/DatasetForms.tsx:78-81 | drops the file and its name and nothing else |
| DatasetForms.DatasetFormPage.ValidateForm | src/components/Forms/DatasetForms.tsx:83-104 | the errors become the form's errors, and the result says whether the name is 1 to 50 and the description 1 to 500 UTF-16 code units long and a file is chosen |
| DatasetForms.DatasetFormPage.UploadFile | src/components/Forms/DatasetForms.tsx:106-138 | posts the file, the progress bar follows the last event, and the result is the upload's outcome |
| DatasetForms.DatasetFormPage.SendDetails | src/components/Forms/DatasetForms.tsx:156-175 | posts the details; only a reply naming the dataset resets the form and moves on |
| DatasetForms.DatasetFormPage.TrySubmit | src/components/Forms/DatasetForms.tsx:144-177 | the upload and then, only with a file id, the details request; the form is reset exactly when the dataset was stored, and otherwise keeps its fields and shows the last upload progress |
| DatasetForms.DatasetFormPage.Submit | src/components/Forms/DatasetForms.tsx:141-184 | a valid form's submission: the progress bar starts at 0, the log is the submission's events, the form is reset exactly when the dataset was stored, and it is no longer submitting afterwards |
| DatasetForms.DatasetFormPage.HandleSubmit | src/components/Forms/DatasetForms.tsx:140-188 | an invalid form gets the correct-the-errors notice and sends nothing; a valid one is submitted and is no longer submitting afterwards |
| ProjectForms.FormErrorsIff | src/components/Forms/ProjectForms.tsx:61-74 | a field is flagged exactly when it trims to the empty string, always with its "required" message |
| ProjectForms.ReplyEvents | src/components/Forms/ProjectForms.tsx:89-98 | a "success" reply gives the created notice and `onSuccess(project_id)`; an error gives its message; any other reply gives nothing |
| ProjectForms.ProjectFormPage.constructor | src/components/Forms/ProjectForms.tsx:35-40 | empty fields, no errors, not submitting |
| ProjectForms.ProjectFormPage.HandleInputChange | src/components/Forms/ProjectForms.tsx:48-59 | sets the named field and clears its error if set |
| ProjectForms.ProjectFormPage.ValidateForm | src/components/Forms/ProjectForms.tsx:61-74 | the errors become the form's errors, and the result says whether neither field is blank |
| ProjectForms.ProjectFormPage.Send | src/components/Forms/ProjectForms.tsx:82-101 | posts the project; the fields are cleared exactly when it was created; it is not submitting afterwards |
| ProjectForms.ProjectFormPage.HandleSubmit | src/components/Forms/ProjectForms.tsx:76-102 | a blank field gets the fill-the-fields notice and no request; otherwise the form is sent |
| Preprocessing.Lookup | src/pages/Preprocessing.tsx:39 | a column's method is present exactly when the record has the column |
| Preprocessing.ColumnMethods | src/pages/Preprocessing.tsx:37-44 | one entry per column, in order, holding that column's method or `undefined` |
| Preprocessing.DefaultsReachConfig | src/pages/Preprocessing.tsx:15-27 | with the records built at mount, every configuration entry carries the default method |
| Preprocessing.ChoiceChangesOneColumn | src/pages/Preprocessing.tsx:88-93 | choosing a method changes that column's entries only, and every one of them |
| Preprocessing.PreprocessingPage.constructor | src/pages/Preprocessing.tsx:15-27 | every numerical column starts as "standard" and every categorical one as "onehot", with no other key |
| Preprocessing.PreprocessingPage.ChooseScaling | src/pages/Preprocessing.tsx:88-93 | sets one column's scaling method |
| Preprocessing.PreprocessingPage.ChooseEncoding | src/pages/Preprocessing.tsx:114-118 | sets one column's encoding method |
| Preprocessing.PreprocessingPage.HandleSubmit | src/pages/Preprocessing.tsx:31-61 | posts the configuration; only a reply writes `preprocess_id` onto the signed-in user, and it is followed by the saved notice; an error shows its message |
| Preprocessing.FillWith | src/pages/Preprocessing.tsx:16-19 | the record maps exactly the listed columns, each to the given method |
| ModelBuilder.EntryNames | src/pages/ModelBuilder.tsx:107 | one model name per table entry, in table order |
| ModelBuilder.FindParams | src/pages/ModelBuilder.tsx:108 | the lookup fails exactly when no entry has that name, and otherwise returns that entry's parameters |
| ModelBuilder.FindParamsAt | src/pages/ModelBuilder.tsx:108 | an entry whose name no earlier entry has is the one the lookup returns |
| ModelBuilder.ModelsForProblem | src/pages/ModelBuilder.tsx:107 | no models before a problem type is chosen, then that table's model names in order |
| ModelBuilder.ParamsForModel | src/pages/ModelBuilder.tsx:108 | no parameters until both a problem type and a model are chosen; then `undefined` exactly when the table has no such model, and otherwise that table entry's parameters |
| ModelBuilder.MenuFacts | src/pages/ModelBuilder.tsx:11-57 | four models per problem type, in table order |
| ModelBuilder.ParamCounts | src/pages/ModelBuilder.tsx:11-57 | how many optional hyperparameters each model offers |
| ModelBuilder.MenuModelsHaveParams | src/pages/ModelBuilder.tsx:107-108 | every model a menu offers gets exactly its own table entry's parameter list |
| ModelBuilder.ModelBuilderPage.constructor | src/pages/ModelBuilder.tsx:60-73 | empty selections, no hyperparameters, not loading, no result |
| ModelBuilder.ModelBuilderPage.HandleParamChange | src/pages/ModelBuilder.tsx:75-77 | exactly one hyperparameter changes; an existing key keeps its place and a new one goes last |
| ModelBuilder.ModelBuilderPage.ChooseTarget | src/pages/ModelBuilder.tsx:133 | sets the target |
| ModelBuilder.ModelBuilderPage.ChooseProblemType | src/pages/ModelBuilder.tsx:149-153 | sets the problem type and clears the model and the hyperparameters |
| ModelBuilder.ModelBuilderPage.ChooseModel | src/pages/ModelBuilder.tsx:169-172 | sets the model and clears the hyperparameters |
| ModelBuilder.ModelBuilderPage.HandleSubmit | src/pages/ModelBuilder.tsx:79-105 | posts the payload; a reply becomes the result and a failure the fixed failure message; both notices use the default severity; loading is false afterwards |
| DatasetPreview.UnderscoresToSpaces | src/pages/DatasetPreview.tsx:69 | every underscore becomes a space and nothing else changes |
| DatasetPreview.CapitaliseWords | src/pages/DatasetPreview.tsx:69 | upper-cases exactly the word characters that start a word, and keeps the length |
| DatasetPreview.HeaderNameChars | src/pages/DatasetPreview.tsx:69 | the header keeps the key's length, turns underscores into spaces and upper-cases each word start |
| DatasetPreview.HeaderNameIdempotent | src/pages/DatasetPreview.tsx:69 | a header has no underscores, and formatting it again changes nothing |
| DatasetPreview.ColumnDefs | src/pages/DatasetPreview.tsx:67-70 | one column per key, in key order, with the key as its field and its formatted header |
| DatasetPreview.RowKeys | src/pages/DatasetPreview.tsx:67 | an object gives its own keys and an array or string its indices; `null` raises; other values give none |
| DatasetPreview.ColumnsFromFirstRow | src/pages/DatasetPreview.tsx:66-70 | the columns come from the first row alone |
| DatasetPreview.ResolvedProjectId | src/pages/DatasetPreview.tsx:37-44 | a truthy user project id wins; otherwise a non-empty stored value; otherwise none |
| DatasetPreview.StoredIdOutlivesUser | src/pages/DatasetPreview.tsx:38-43 | once a user's id has been stored, a later render without it still finds the project |
| DatasetPreview.NonEmptyRows | src/pages/DatasetPreview.tsx:57-63 | rows exist exactly when the reply's `dataset` is a non-empty array, and they are that array's items |
| DatasetPreview.DatasetPreviewPage.constructor | src/pages/DatasetPreview.tsx:21-25 | no rows, no columns, loading |
| DatasetPreview.DatasetPreviewPage.ResolveProjectId | src/pages/DatasetPreview.tsx:37-44 | returns the resolved id and writes the user's id to storage exactly when it wins |
| DatasetPreview.DatasetPreviewPage.FetchDataset | src/pages/DatasetPreview.tsx:46-88 | missing info is reported with nothing fetched; otherwise it fetches, calls the setters, and loads rows and columns from a non-empty dataset; an empty one warns and an error reports; loading is false after |
| Sequences.ColumnOne | src/assets/XGboost_4U.py:125 | column 1 of each row, in order |
| Sequences.Windows | src/assets/XGboost_4U.py:123-124 | `len - input_size - output_size + 1` samples; sample `i` is rows `i` to `i + input_size - 1` |
| Sequences.Targets | src/assets/XGboost_4U.py:125 | one target per sample: column 1 of the `output_size` rows after it |
| Sequences.Samples | src/assets/XGboost_4U.py:113-127 | an error exactly when there are fewer rows than `input_size + output_size` (or no column 1), the too-few-rows error taking precedence |
| Sequences.CreateSequences | src/assets/XGboost_4U.py:113-127 | the loop builds exactly the samples and targets of the specification, or raises its errors; the recurrent-network notebook's copy (LSTM_4U.py lines 204-218) is the same |
| Sequences.SamplesSlide | src/assets/XGboost_4U.py:124 | the next sample is this one without its first row, followed by the row after it |
| Sequences.TargetFollowsSample | src/assets/XGboost_4U.py:124-125 | the `j`-th value of target `i` is column 1 of row `i + input_size + j`, right after the sample (LSTM_4U.py lines 215-216 alike) |
| Sequences.NotebookSamples | src/assets/XGboost_4U.py:133-140 | with 400 rows in and 1 out, a frame of `n` rows gives `n - 400` samples, each with the single next column-1 value as its target; both notebooks use these sizes (LSTM_4U.py lines 224-231) |
| Sequences.TrainTestPartition | src/assets/XGboost_4U.py:175-177 | the training and test parts concatenate back to the input; the training part has `split_index + 1` samples or all of them; a cut past the end leaves no test samples; the recurrent-network notebook cuts the same way (LSTM_4U.py lines 271-273) |
| Sequences.TrainTestAligned | src/assets/XGboost_4U.py:176-177 | cutting samples and targets at the same index keeps every sample paired with its target, in both notebooks |
| Forecast.Regressor.constructor | src/assets/XGboost_4U.py:222 | the regressor with its objective, learning rate and starting number of rounds |
| Forecast.TrainEpochs | src/assets/XGboost_4U.py:224-232 | each epoch adds one boosting round and records exactly one validation loss, that of the model with the rounds it then has |
| Forecast.TrainingCell | src/assets/XGboost_4U.py:219-232 | thirty losses, the first from a two-round model; the model evaluated afterwards has thirty-one rounds |
| Forecast.NextWindow | src/assets/XGboost_4U.py:275-277 | the next window is the previous one without its first element, with the prediction appended; its length does not change |
| Forecast.PredictionsLength | src/assets/XGboost_4U.py:269-272 | `n` steps give `n` predictions |
| Forecast.PredictionsSlide | src/assets/XGboost_4U.py:268-277 | prediction `k` is made from the window-length values just before it in "first window, then the forecast so far" |
| Forecast.PredictionsFeedBack | src/assets/XGboost_4U.py:268-277 | once the forecast is longer than the window, the model sees only its own predictions |
| Forecast.ForecastResult | src/assets/XGboost_4U.py:265-277 | raises exactly when there is no test sample, or when a prediction must be written into a window without features |
| Forecast.RecursiveForecast | src/assets/XGboost_4U.py:265-277 | the loop yields exactly the specified forecast, or raises its errors |
| Forecast.ForecastCoversTestSet | src/assets/XGboost_4U.py:265 | with a test sample, the forecast has one entry per step of the horizon (`len(y_test)`) |

## Left out

- HTTP, timers and the clock are not executed. Replies are inputs, timers are `Wait` events, and each `Date.now()` is a `freshId` parameter. The cache-busting `t` query parameter is left out of the logged requests.
- Rendering, styling, the show/hide toggles, the background video and `console` output are left out, because they change no state the handlers read.
- Objects are ordered lists of members in insertion order. JavaScript lists integer-like keys such as `"1"` ahead of the others, in ascending order; that is not modelled, because no object the pages build uses such a key.
- Each page takes the signed-in user as a fixed value. The preprocessing page writes `preprocess_id` onto the shared user object (src/pages/Preprocessing.tsx:53) and the model builder later reads it (src/pages/ModelBuilder.tsx:67); the model states the write and takes the user each page starts with as its input, without modelling the sharing.
- The in-place write `X[0][0][2] = 0` right after the samples are built (src/assets/XGboost_4U.py:147, and the same line in LSTM_4U.py) is not modelled. It zeroes column 2 of the first row of the first sample; the model's samples are the ones `create_sequences` returns, before that write.
- Prototype keys such as `constructor` or `__proto__` are not modelled, because the pages only look up keys they wrote themselves.
- An axios error whose `response.data` is not an error record is not modelled: such data is taken to be absent, giving `{}`.
- A `response.data` that is `null` is not modelled in the dataset and project forms. That would be a `TypeError` inside the `try`. Replies there are records whose fields may be missing.
- VisualizeDataSet.SpreadField: spreading an `undefined` id over the form data keeps a field the data already had. JavaScript would instead drop such a field when serialising. `VisualizeDataSet.FormPlotRequest` shows the form never produces either id.
- Register.RegisterPage.HandleBack: it has no guard against going below step 0, as in the source. The button is shown only on later steps, and rendering is not modelled.
- DatasetForms.DatasetFormPage.HandleSubmit: the "Failed to upload file" branch (src/components/Forms/DatasetForms.tsx:149-153) is not modelled. It cannot be reached, because validation guarantees a file, and the upload then either returns an id or rejects.
- DatasetForms.DatasetFormPage.HandleInputChange: it is stated for the two text inputs only. The file input goes through `HandleFileChange`.
- ModelBuilder.ModelsForProblem: it requires a problem type the select offers. For any other value `Object.keys(undefined)` would raise during rendering.
- ModelBuilder hyperparameter values are kept as the strings the inputs produce, as in the source. No numeric conversion is modelled.
- The plain select setters of the pages are modelled only where the source does more than set one field.
- Notebook numerics are not modelled: the pandas cleaning, LOESS smoothing, rolling statistics, scaling, network and gradient-boosting fitting, error measures and plotting. They are floating-point work inside foreign libraries. Predictions and validation losses are function parameters.
- `int(0.8*len(d))` is floating-point arithmetic, so the split index is a parameter.
- The `TypeError` raised for input that is not a data frame is not modelled: the model's input is always a matrix.
- Negative window sizes are not modelled: the notebooks use positive constants.
- The reshape and ravel steps (src/assets/XGboost_4U.py:195-198) are not modelled. The forecast starts from a sample that is given already flattened.
- The `train_test_split` of the training part (src/assets/XGboost_4U.py:205) is not modelled: its shuffling is random.
- Forecast.NextWindow: `np.roll` shifts the flattened window by one feature, not by one frame row. The model states this shift as the source does; it does not claim the window stays a sequence of whole rows.
