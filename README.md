# NoCodeML client state logic in Dafny

This project models the client-side state logic of the NoCodeML web application. That application is a React front end over Firebase authentication and a small REST training service. The model covers:

- the three-step **project-creation wizard**: project details, dataset upload and model configuration, ending in a multipart training request;
- the **Datasets** and **Endpoints** tables: case-insensitive search, sort by column and direction, the sort-header toggle, row selection and "select all", status toggling, deletion after confirmation, and the generated client snippets;
- the **route guard** that decides between the loading view, a redirect to `/login` or `/verify-email`, and the protected page;
- the **registration** and **profile** forms: ordered validation before any Firebase call, and the translation of Firebase error codes into messages;
- the **prediction** page: the feature-input object, the missing-input check, the request body, the input kind of each feature, and the clear-form reset;
- the **dashboard** helpers (relative-time labels, activity icons, statistics defaults) and the **account-details** card.

Each React component that keeps state is a class whose fields are its `useState` variables. Each event handler is a method, whose `ensures` gives the whole new state through a `State()` snapshot. Pure expressions (filters, sorts, switches, validators) are functions with contracts, and lemmas relate them.

Everything outside the browser becomes a parameter of the handler that receives it:

- the CSV parser's result;
- the training and prediction services' answers;
- the `window.confirm` answer;
- the outcome of each Firebase call;
- the current time.

Shared modules:

- `Text`: `toLowerCase`, `includes`, `trim`, UTF-16 `length`, `join`, `||` on strings, and an order standing in for `localeCompare`.
- `Lists`: `filter`, remove and toggle, subsequences, and a stable insertion sort standing in for `Array.prototype.sort`.
- `TableSort`: the sort header and the column comparators.
- `Json`: `JSON.stringify` of a string list, with a decoder and a round-trip lemma.
- `Passwords`: the password checks shared by registration and the profile page.

## Model

| member | source | states |
|---|---|---|
| NewProject.Wizard.constructor | src/components/projects/NewProject.js:10-37 | Step 1, nothing entered, settings 80 % / advanced off / "accuracy" / no task type; the target is not a feature. |
| NewProject.Wizard.SetProjectName | src/components/projects/NewProject.js:324 | Typing a name changes only the project name. |
| NewProject.Wizard.SetProjectDescription | src/components/projects/NewProject.js:335 | Typing a description changes only the project description. |
| NewProject.Wizard.HandleFileChange | src/components/projects/NewProject.js:40-93 | No file: nothing changes. Unaccepted type: only the error changes, to "Please upload a CSV, Excel, or JSON file". Otherwise the file and its name are stored first. Then a parsed CSV sets the columns to the header fields, the preview, and clears the error. A parse error only sets the error text. Any other accepted type gets Column1..Column5, the placeholder preview and the limited-preview message. The target-not-a-feature invariant holds throughout. |
| NewProject.AfterFileChange | src/components/projects/NewProject.js:40-93 | The state after a file selection, as described for HandleFileChange. |
| NewProject.FileChangeKeepsColumnsOnFailure | src/components/projects/NewProject.js:45-76 | An unaccepted file changes only the error. A CSV parse failure keeps columns, preview, target and features, while the file is already replaced. |
| NewProject.CsvPreview | src/components/projects/NewProject.js:60-70 | Headers are the parsed fields. The preview has min(5, n) rows, and cell (i, j) is record i's value for header j, or undefined when the record lacks it. |
| NewProject.ProjectRow | src/components/projects/NewProject.js:67 | A record projected onto the header order, cell for cell. |
| NewProject.PreviewRows | src/components/projects/NewProject.js:66-68 | The first min(limit, n) records, each projected. |
| NewProject.FirstAccepted | src/components/projects/NewProject.js:106-110 | The first file of an accepted type: none exactly when no file is accepted, otherwise an accepted file with no accepted file before it. |
| NewProject.Wizard.HandleDrop | src/components/projects/NewProject.js:101-119 | An empty drop changes nothing. Otherwise the first accepted file goes through the file-change logic, and a drop with none sets the unsupported-type message. |
| NewProject.FeaturesForTarget | src/components/projects/NewProject.js:127 | The target is not in the result. A column is in the result iff it is available and not the target. Order is preserved, and no duplicates are introduced. |
| NewProject.Wizard.HandleTargetColumnChange | src/components/projects/NewProject.js:122-128 | Sets the target and resets the features to every other available column. Establishes the invariant. |
| NewProject.ToggleFeature | src/components/projects/NewProject.js:131-139 | Toggling the target returns the list unchanged. Any other column is removed if present, keeping the rest in order, and appended at the end if absent. Other columns keep their membership, the target never enters, and no duplicates arise. |
| NewProject.Wizard.HandleFeatureColumnToggle | src/components/projects/NewProject.js:131-139 | Only the feature list changes, as ToggleFeature says; the invariant is preserved. |
| NewProject.Wizard.HandleTrainingPercentageChange | src/components/projects/NewProject.js:142-148 | Only the training percentage changes. |
| NewProject.Wizard.HandleOptimizationMetricChange | src/components/projects/NewProject.js:151-156 | Only the optimization metric changes. |
| NewProject.Wizard.ToggleAdvancedOptions | src/components/projects/NewProject.js:159-164 | Only the advanced-options flag changes, to its negation. |
| NewProject.DefaultTaskTypeCases | src/components/projects/NewProject.js:167-174 | Only predictor, classifier and cluster give a task type, and each gives a different one. |
| NewProject.Wizard.SetProjectType | src/components/projects/NewProject.js:177-184 | Sets the type. When the value changed and is non-empty, the task type becomes the default for it and nothing else in the settings changes. |
| NewProject.Wizard.HandleTaskTypeChange | src/components/projects/NewProject.js:502-506 | Only the task type changes. |
| NewProject.PayloadFields | src/components/projects/NewProject.js:199-221 | Field names in append order: file, target_column, task_type, feature_columns, project_name, project_description, optimization_metric, then training_percentage only with advanced options. Each field carries the matching state value. |
| NewProject.PayloadFeatureColumns | src/components/projects/NewProject.js:208 | The feature_columns text decodes back to exactly the selected features, in order. |
| Json.ListRoundTrip | src/components/projects/NewProject.js:208 | Decoding `JSON.stringify` of any string list gives that list back. |
| NewProject.SubmitErrorText | src/components/projects/NewProject.js:229-256 | A failed submission always has a message. For an error status it is the service's detail, or "Failed to train model" when there is none. For a thrown error it is its message, or "Failed to create project. Please try again." when there is none. |
| NewProject.Wizard.HandleCreateProject | src/components/projects/NewProject.js:187-260 | A missing name, type, file, target, task type or empty feature list sets "Please fill in all required fields" and sends nothing. Otherwise it sends exactly the payload. Success marks the model ready, keeps the training id if one came back, and redirects with the success message. Failure sets the error text. Loading ends false. |
| NewProject.Wizard.GoToNextStep | src/components/projects/NewProject.js:263-277 | Step 1 needs a name and a type, step 2 a file, each with its message. A successful advance adds 1 to the step and clears the error, and nothing else changes. |
| NewProject.Wizard.GoToPreviousStep | src/components/projects/NewProject.js:280-283 | Subtracts 1 from the step and clears the error; nothing else changes. |
| Datasets.FilterDatasets | src/components/datasets/Datasets.js:103-107 | Keeps a dataset exactly when the lower-cased term occurs in its lower-cased name, description or a tag. Order is preserved and multiplicities are kept. |
| Datasets.EmptySearchKeepsAll | src/components/datasets/Datasets.js:103-107 | An empty search term keeps every dataset. |
| Datasets.SortDatasets | src/components/datasets/Datasets.js:110-127 | A permutation of its input, ordered by name, date, size or rows in the chosen direction. Tied datasets keep their input order. An unknown column keeps the order. |
| Datasets.SortByRowsAscending | src/components/datasets/Datasets.js:124-125 | Sorting by rows ascending puts fewer rows first. |
| TableSort.SortRows | src/components/datasets/Datasets.js:110-127 | The sort by one column: a permutation, pairwise ordered by the column's key, unchanged when the column has no key. It is stable: rows the comparator ties come out in their input order. |
| TableSort.ComparatorIsPreorder | src/components/endpoints/Endpoints.js:117-136 | The column comparators are total and transitive, so the stable sort's order is well defined. |
| TableSort.NextSort | src/components/datasets/Datasets.js:139-148 | Clicking the current column flips the direction; another column is selected in ascending order. |
| TableSort.ClickTwice | src/components/endpoints/Endpoints.js:150-159 | Two clicks on the current column restore the state; on a new column they leave it descending. |
| Datasets.DatasetsPage.HandleSortChange | src/components/datasets/Datasets.js:139-148 | Only the sort column and direction change, as NextSort says. |
| Datasets.DatasetsPage.ToggleDatasetSelection | src/components/datasets/Datasets.js:151-157 | The id is removed if selected, otherwise appended; every other id keeps its membership. |
| Datasets.SelectAll | src/components/datasets/Datasets.js:160-166 | Equal lengths clear the selection, otherwise every filtered id is selected in order. |
| Datasets.SelectAllTwice | src/components/datasets/Datasets.js:160-166 | From a selection of another length, select-all selects exactly the filtered ids and a second click clears them. |
| Datasets.SelectAllComparesLengths | src/components/datasets/Datasets.js:161 | A one-id selection of a different dataset still clears when one dataset is shown. |
| Datasets.DatasetsPage.SelectAllDatasets | src/components/datasets/Datasets.js:160-166 | Only the selection changes, as SelectAll says for the current filtered list. |
| Datasets.RemoveSelected | src/components/datasets/Datasets.js:172 | Removes exactly the datasets whose id is selected; the rest stay, in order. |
| Datasets.DatasetsPage.DeleteSelectedDatasets | src/components/datasets/Datasets.js:169-175 | Unconfirmed: nothing changes. Confirmed: the selected datasets go and the selection empties. |
| Datasets.RemoveById | src/components/datasets/Datasets.js:348 | Removes exactly the datasets with that id; the rest stay, in order. |
| Datasets.DatasetsPage.DeleteDataset | src/components/datasets/Datasets.js:346-349 | Unconfirmed: nothing changes. Confirmed: only that id goes, and the selection is left as it was. |
| Datasets.DatasetsPage.constructor | src/components/datasets/Datasets.js:9-15 | Empty list, loading, sorted by date descending, nothing selected. |
| Datasets.DatasetsPage.FinishLoading | src/components/datasets/Datasets.js:88-91 | The delivered list replaces the datasets and loading ends. |
| Datasets.DatasetsPage.SetSearchTerm | src/components/datasets/Datasets.js:207 | Typing in the search box changes only the search term; the filtered and sorted lists follow from it. |
| Endpoints.FilterEndpoints | src/components/endpoints/Endpoints.js:111-114 | Keeps an endpoint exactly when the lower-cased term occurs in its lower-cased name or description, in order. |
| Endpoints.SortEndpoints | src/components/endpoints/Endpoints.js:117-136 | A permutation ordered by name, date, total requests or status in the chosen direction. Tied endpoints (several with status "active", say) keep their input order. An unknown key keeps the order. |
| Endpoints.EndpointsPage.HandleSortChange | src/components/endpoints/Endpoints.js:150-159 | Only the sort column and direction change, as NextSort says. |
| Endpoints.ToggledStatus | src/components/endpoints/Endpoints.js:165 | The new status is inactive exactly when the old one was active, and active otherwise (deploying included). |
| Endpoints.ToggleStatus | src/components/endpoints/Endpoints.js:162-170 | Same length. Endpoints with another id are unchanged; those with this id change only their status. |
| Endpoints.ToggleStatusTwice | src/components/endpoints/Endpoints.js:162-170 | Toggling twice restores the list when the targeted endpoints are active or inactive. |
| Endpoints.EndpointsPage.ToggleEndpointStatus | src/components/endpoints/Endpoints.js:162-170 | Only the endpoint list changes, as ToggleStatus says. |
| Endpoints.RemoveById | src/components/endpoints/Endpoints.js:175 | Removes exactly the endpoints with that id; the rest stay, in order. |
| Endpoints.EndpointsPage.DeleteEndpoint | src/components/endpoints/Endpoints.js:173-177 | Unconfirmed: nothing changes. Confirmed: only the list changes, as RemoveById says. |
| Endpoints.EndpointsPage.ViewEndpointDetails | src/components/endpoints/Endpoints.js:180-183 | Only the selected endpoint changes, to the one given. |
| Endpoints.EndpointsPage.CloseEndpointDetails | src/components/endpoints/Endpoints.js:185-187 | Only the selected endpoint changes, to none. |
| Endpoints.EndpointsPage.constructor | src/components/endpoints/Endpoints.js:9-15 | Empty list, loading, sorted by date descending, no details open. |
| Endpoints.EndpointsPage.FinishLoading | src/components/endpoints/Endpoints.js:96-99 | The delivered list replaces the endpoints and loading ends. |
| Endpoints.EndpointsPage.SetSearchTerm | src/components/endpoints/Endpoints.js:296 | Typing in the search box changes only the search term; the filtered and sorted lists follow from it. |
| Endpoints.CurlCommand | src/components/endpoints/Endpoints.js:190-202 | The cURL snippet opens with `curl -X POST `, and the endpoint's URL follows it verbatim. |
| Endpoints.PythonExample | src/components/endpoints/Endpoints.js:204-226 | The Python snippet opens with the `requests` and `json` imports and `url = "`, and the endpoint's URL follows it verbatim. |
| Endpoints.JavaScriptExample | src/components/endpoints/Endpoints.js:228-250 | The JavaScript snippet opens with `fetch('`, and the endpoint's URL follows it verbatim. |
| Endpoints.StatusBadgeClass | src/components/endpoints/Endpoints.js:253-264 | One of the three classes: the active class iff active, the deploying class iff deploying, the inactive class for everything else. |
| Endpoints.ModelTypeIcon | src/components/endpoints/Endpoints.js:267-278 | The robot icon exactly for types other than classifier, predictor and cluster. |
| Endpoints.ModelTypeIconsDistinct | src/components/endpoints/Endpoints.js:267-278 | Classifier, predictor and cluster each get an icon of their own, different from each other and from the robot: two types share an icon only when neither is one of the three. |
| ProtectedRoute.Guard | src/components/layout/ProtectedRoute.js:11-37 | The loading view iff loading. Otherwise: /login iff there is no user; /verify-email iff verification is required and the user is unverified; the page in all other cases. Every redirect carries the current pathname and replaces history. |
| ProtectedRoute.VerificationOnlyWhenAsked | src/components/layout/ProtectedRoute.js:11-37 | With the default option, any signed-in user reaches the page, verified or not. |
| ProtectedRoute.VerificationOnlyNarrows | src/components/layout/ProtectedRoute.js:32-34 | Requiring verification can only turn rendering the page into the /verify-email redirect. |
| Text.MessageOr | src/components/auth/Register.js:57 | `message \|\| fallback`: the message when non-empty, else the fallback; never empty. |
| Passwords.PasswordProblem | src/components/auth/Register.js:26-34 | No problem iff the passwords match and are at least 6 UTF-16 units long; a mismatch is reported before the length. |
| Passwords.AstralCharactersCountTwice | src/components/auth/Register.js:31 | Three characters outside the Basic Multilingual Plane already pass the length check. |
| Register.RegisterErrorText | src/components/auth/Register.js:50-58 | The three error codes map to their fixed messages; anything else gives the error's message, else "Failed to create account"; never empty. |
| Register.MismatchReportedFirst | src/components/auth/Register.js:26-34 | Mismatched passwords always give "Passwords do not match", even when too short. |
| Register.FailureAlwaysExplained | src/components/auth/Register.js:47-58 | A failed registration always leaves a form error to show. |
| Register.RegisterForm.HandleRegister | src/components/auth/Register.js:21-62 | A failed check sets its message, makes no call and leaves loading alone. Otherwise the call gets email, password and name. Success clears the error and goes to the dashboard with the created banner. Failure sets the mapped message. Loading ends false. |
| Register.RegisterForm.HandleGoogleRegister | src/components/auth/Register.js:65-78 | The form goes to the dashboard iff sign-in succeeded. Failure gives the message, else "Failed to sign up with Google". Loading ends false. |
| Register.RegisterForm.constructor | src/components/auth/Register.js:9-14 | Empty fields, not loading, no error. |
| Register.RegisterForm.SetFields | src/components/auth/Register.js:107-146 | The four inputs change only the name, email, password and confirmation fields. |
| Profile.NameProblem | src/components/dashboard/Profile.js:27-30 | "Name cannot be empty" exactly when the name trims to nothing. |
| Profile.BlankNamesRefused | src/components/dashboard/Profile.js:27 | The refused names are exactly those made only of JavaScript whitespace. |
| Profile.EmailProblem | src/components/dashboard/Profile.js:52-60 | No problem iff the email is not blank and a current password is given; a blank email is reported first. |
| Profile.EmailChecksOrdered | src/components/dashboard/Profile.js:52-60 | With both a blank email and no current password, the blank email is what is reported. |
| Profile.NewPasswordProblem | src/components/dashboard/Profile.js:94-107 | Mismatch, then length, then a missing current password; no problem iff all three pass. |
| Profile.EmailErrorText | src/components/dashboard/Profile.js:77-83 | Wrong password gives "Incorrect password", a taken email "Email is already in use", anything else the message or "Failed to update email"; never empty. |
| Profile.PasswordErrorText | src/components/dashboard/Profile.js:126-130 | Wrong password gives "Incorrect current password", anything else the message or "Failed to update password"; never empty. |
| Profile.WrongPasswordWording | src/components/dashboard/Profile.js:77-127 | A wrong current password is worded differently by the two forms. |
| Profile.ChainCalls | src/components/dashboard/Profile.js:66-117 | Re-authentication comes first; its failure skips the update and is the outcome. The pair succeeds iff both calls do. |
| Profile.ProfilePage.constructor | src/components/dashboard/Profile.js:12-21 | Name and email from the signed-in user (or empty), everything else empty or off. |
| Profile.ProfilePage.SetDisplayName | src/components/dashboard/Profile.js:194 | Typing a name changes only the display name field. |
| Profile.ProfilePage.SetEmail | src/components/dashboard/Profile.js:227 | Typing an email changes only the email field. |
| Profile.ProfilePage.SetPasswords | src/components/dashboard/Profile.js:281-305 | The password form's inputs change only the current, new and confirmation password fields. |
| Profile.ProfilePage.SetEditingEmail | src/components/dashboard/Profile.js:208-245 | The Change Email and Cancel buttons set only whether the email form is open. |
| Profile.ProfilePage.SetEditingPassword | src/components/dashboard/Profile.js:262-312 | The Change Password and Cancel buttons set only whether the password form is open. |
| Profile.ProfilePage.HandleUpdateProfile | src/components/dashboard/Profile.js:23-46 | The message is cleared on entry. A blank name gives its message and no call. Otherwise the untrimmed name is saved, and success or failure sets the message. Loading ends false. |
| Profile.ProfilePage.HandleUpdateEmail | src/components/dashboard/Profile.js:48-87 | A failed check gives its message and no call. Otherwise re-authentication and then the update. Success leaves email editing and forgets the current password; failure sets the mapped message. |
| Profile.ProfilePage.HandleUpdatePassword | src/components/dashboard/Profile.js:89-134 | A failed check gives its message and no call. Otherwise re-authentication and then the update. Success clears all three password fields and leaves password editing; failure sets the mapped message. |
| Profile.ProfilePage.HandleDeleteAccount | src/components/dashboard/Profile.js:136-149 | A confirmed request logs out and goes to /login. A failed logout sets the message, else "Failed to delete account"; otherwise nothing changes. |
| Predict.LookupAbsent | src/components/predictions/Predict.js:323 | A key is absent exactly when it is not among the keys. |
| Predict.SetInput | src/components/predictions/Predict.js:154-159 | The feature gets the value. Every other feature's value is unchanged. An existing key keeps its place; a new key goes last. |
| Predict.SetInputUnique | src/components/predictions/Predict.js:154-159 | Setting a value never duplicates a key. |
| Predict.EmptyInputsShape | src/components/predictions/Predict.js:44-50 | Every listed feature maps to '' and nothing else is present. The keys are unique, they are exactly the features, and they come in the order of each feature's first occurrence; with no repeated feature they equal the feature list. |
| Predict.BuildEmptyInputs | src/components/predictions/Predict.js:44-50 | The forEach loop builds exactly EmptyInputs. |
| Predict.Missing | src/components/predictions/Predict.js:168 | The keys whose value is '', in key order. Empty iff every value is filled. With unique keys, a feature is listed iff its value is ''. |
| Predict.FreshInputsAllMissing | src/components/predictions/Predict.js:44-50 | Right after initialising or clearing, every key is missing. |
| Predict.ClearedFormIsIncomplete | src/components/predictions/Predict.js:458-466 | A form cleared over a non-empty feature list cannot be submitted. |
| Predict.InputKindFor | src/components/predictions/Predict.js:313-368 | A select (with that feature's options) iff categorical and options exist; else a number input iff numerical; else text. |
| Predict.CategoricalWithoutOptions | src/components/predictions/Predict.js:317-347 | A categorical feature without options falls back to a number or text input. |
| Predict.LoadErrorText | src/components/predictions/Predict.js:27-59 | 'Model not found' for a 404; otherwise the detail or the fallback; never empty. |
| Predict.PredictPage.constructor | src/components/predictions/Predict.js:12-18 | Loading, no model, empty inputs, no prediction, status 'loading'. |
| Predict.PredictPage.FinishModelLoad | src/components/predictions/Predict.js:21-61 | Success stores the model, starts every listed feature at '', takes the status or 'ready', and leaves the error as it was. Failure sets the error and status 'failed'. Loading ends false. |
| Predict.PredictPage.HandleInputChange | src/components/predictions/Predict.js:154-159 | Only this feature's value changes; keys stay unique. |
| Predict.PredictPage.HandleMakePrediction | src/components/predictions/Predict.js:162-213 | The prediction is dropped. Missing inputs give the message listing them, joined by ", ", and no request. Otherwise the body is {model_id, features}. Success stores the result and clears the error; failure gives the detail or "Failed to make prediction". makingPrediction ends false. |
| Predict.PredictPage.ClearForm | src/components/predictions/Predict.js:458-466 | Every listed feature back to '' and no prediction; without a feature list nothing changes. |
| Dashboard.ActivityIcon | src/components/dashboard/Dashboard.js:137-150 | The pushpin exactly for types other than model, dataset, endpoint and prediction. |
| Dashboard.ActivityIconsDistinct | src/components/dashboard/Dashboard.js:137-150 | Model, dataset, endpoint and prediction each get an icon of their own, different from each other and from the pushpin: two types share an icon only when neither is one of the four. |
| Dashboard.FloorDiv | src/components/dashboard/Dashboard.js:158 | `Math.floor(a / b)` for a positive divisor: the q with b·q ≤ a < b·(q+1). |
| Dashboard.AgeOf | src/components/dashboard/Dashboard.js:152-176 | 'Unknown' iff the timestamp is falsy. Otherwise the bucket is fixed by elapsed time: under 1 minute (future included), 1–59 minutes, 1–23 hours, 24–47 hours ('Yesterday'), 2–6 days, or a date. Each count is the floor of the elapsed time in its unit. |
| Dashboard.OlderNeverNewer | src/components/dashboard/Dashboard.js:156-171 | An older activity never gets a newer bucket, nor a smaller count within the same bucket. |
| Dashboard.FormatTimestamp | src/components/dashboard/Dashboard.js:152-176 | The label for each range of elapsed time: 'Unknown' for a falsy stamp, 'Just now' under a minute (and in the future), '<m> minutes ago' under an hour, '<h> hours ago' under a day, 'Yesterday' under two days, '<d> days ago' under a week, else the locale date; each count is the whole number of elapsed units. |
| Dashboard.FutureIsJustNow | src/components/dashboard/Dashboard.js:158-160 | A future timestamp reads 'Just now'. |
| Dashboard.EpochIsUnknown | src/components/dashboard/Dashboard.js:153 | The number 0 is falsy, so it reads 'Unknown'. |
| Dashboard.LoadedStats | src/components/dashboard/Dashboard.js:62-69 | With a document, each count is its field or 0; with none, the counts stay as they were. |
| AuthDetails.AuthProvider | src/components/auth/AuthDetails.js:9-17 | "Unknown" with no providers. Otherwise, from the first provider: google.com gives "Google", password gives "Email/Password", and any other id is shown as is. |
| AuthDetails.ProviderLabelUsesFirst | src/components/auth/AuthDetails.js:11 | Only the first provider decides the label. |
| AuthDetails.TimeLabel | src/components/auth/AuthDetails.js:20-33 | A missing or empty time gives "Not available"; a present one is rendered by the locale. |
| AuthDetails.Initial | src/components/auth/AuthDetails.js:47 | One letter: the first character of a non-empty name, upper-cased, else "U". |
| AuthDetails.AvatarOf | src/components/auth/AuthDetails.js:39-49 | The photo (alt: the name or "User") when there is one, else the placeholder letter. |
| AuthDetails.Render | src/components/auth/AuthDetails.js:5-91 | Nothing iff there is no user. Otherwise the user's avatar, the provider label, both time labels, the email or "Not available", the name row (showing the user's name) only for a non-empty name, the verified badge exactly when the email is verified, and the uid. |
| AuthDetails.NoMetadataNoTimes | src/components/auth/AuthDetails.js:21-29 | Without metadata both times read "Not available". |

## Behaviour worth knowing

The code does the following in cases a reader might not expect:

- A CSV parse error does not keep the previous dataset. The new file and its name are stored before parsing starts; only the columns and preview stay.
- Choosing a target resets the features to all other available columns. It does not just remove the target from the current features.
- The feature selection is an ordered list: toggling appends at the end.
- The submit handler has no in-flight guard of its own. Only the disabled button prevents a second submission.
- An accepted non-CSV file sets the "For best results…" hint through the error field.
- The task type follows the project type only when the type actually changes to a non-empty value, because the effect depends on `projectType`.
- The single-row dataset delete leaves the selection alone, so a deleted id can stay selected.
- Select-all compares lengths, not sets.
- The prediction request is posted to `/send_training`, the same path as training.
- A numeric timestamp of 0 is falsy and reads 'Unknown'.

## Left out

- Network and Firebase I/O: every `fetch`, Firebase auth call and Firestore read is replaced by an outcome parameter. The Firestore activity query (`orderBy`, `limit(5)`) is not modelled.
- The CSV parser: its `meta.fields` and `data` are given as input. Excel and JSON contents are never read by the client.
- Asynchrony: each handler runs to completion with its outcomes given. Interleavings of a pending parse or request with other handlers are not modelled, and neither is the `loading` value observed while a call is pending.
- `localeCompare` is abstracted as lexicographic order on code points. It depends on the locale.
- `toLowerCase`/`toUpperCase` fold ASCII letters only. Full Unicode case mapping is not modelled.
- `parseFloat(size)` in the dataset sort is abstracted as an integer field `sizeKey` of each dataset. The model does not compute it from the size text.
- `Date` arithmetic is in whole milliseconds. Invalid dates (NaN) and date strings passed to `new Date` are not modelled; `toLocaleString`/`toLocaleDateString` are parameters.
- Timers: the simulated 800 ms load delays are collapsed into `FinishLoading`. The Predict polling loop (`setInterval`), the notification auto-dismiss and the Settings page timers are not modelled.
- Predict's mock-model fallback effect and the development-mode mock prediction are not modelled. They use `Math.random` and depend on effect ordering.
- Predict.PredictPage.HandleMakePrediction: requires `modelInfo` to be loaded, because the form that calls it only renders then. The `TypeError` a null model would raise inside the handler is not modelled.
- Predict.PredictPage.ClearForm: with no feature list the source's `forEach` throws a `TypeError` before any state is set. The model leaves the state unchanged and does not model the exception.
- Predict.Entry: JavaScript objects enumerate integer-like keys before other keys. The model keeps plain insertion order, which differs only for feature names such as "1".
- NewProject.DefaultTaskType: a project type naming an `Object.prototype` member (such as "constructor") would read that member from the mapping object. The model gives '' for every other type.
- Register/Profile: the `error` value shown from the auth context is not modelled, and neither is its reset on unmount.
- AuthDetails.Initial: takes the first code point. JavaScript's `displayName[0]` is the first UTF-16 unit, which differs for names that start outside the Basic Multilingual Plane.
- The prediction result rendering (`formatPredictionResult`) is not modelled: percentages and `toFixed` are floating point.
- ModelTraining.js, Settings.js, ForgotPassword.js, VerifyEmail.js and the routing and layout components are not part of this model. They are timers and random progress, boolean toggles, relays of a single Firebase call, or rendering only.
- Rendering, navigation, `navigator.clipboard` and `window.confirm` itself are not modelled. Navigations are returned as values and the confirmation is a parameter.
