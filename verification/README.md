# Recipe book client: a Dafny model of its rules

The client is a React application for keeping recipes. Users sign up or sign in and create recipes with a title, a description, comma-separated ingredients and one preparation step per line. They edit and delete recipes in a list that can be narrowed to the last week or month. They see usage and monthly statistics, and they upgrade from the "plus" plan (at most 10 recipes) to "premium" (unlimited). They also upload a profile image. The components hold a set of small, sequential rules between their network calls. This project states those rules as pure Dafny functions and proves what the components promise about them.

The model is organised as follows:

- **Shared helpers** (`Optional`, `Strings`, `Decimal`, `Seqs`, `Classifier`, `Entities`) model the JavaScript operations the components use: `includes`, `toLowerCase`, `trim`, `split`, `join`, `filter`, `map`, `parseInt` and `${n}`. They also define:
  - the records received from the API;
  - the ingredient and step parsers, which creation and editing share;
  - the shape of a reply, which is success, error status or exception.
- **`Classifier`** is an ordered first-match rule table. Both error classifiers are instances of it:
  - `traducirError`, in `Traducciones`;
  - `obtenerClaveError`, in `SubirImagen`.
- **One module per component or page**, named after it: `FormularioReceta`, `ListaRecetas`, `Dashboard`, `GraficoEstadisticas`, `InformeUso`, `ActualizarPlan`, `Register`, `Login`, `ImageUtils`, `SubirImagen` and `MobileSlice`. Each handler becomes a function whose result records three things:
  - the component state it leaves;
  - the request it sent, if any;
  - the callback or alert it produced.

Things outside the client are parameters:

- the current time, as week and month cutoffs or a (year, month) pair;
- the browser viewport, where `None` means there is no window;
- the answer to `window.confirm`;
- the user kept in local storage;
- how image compression ends: with a blob, with a null blob, or never;
- every remote reply, which is a `Reply` value: `Ok` carrying the body, `Refused` carrying the body's `error` field, or `Threw` carrying an exception message.

A date field is absent, unparseable, or a moment. For `fechaCreacion`, absent covers every value `||` skips: missing, null, the empty string, 0 and false. For `createdAt`, absent means missing, while a null there is `new Date(null)`, the moment with time value 0 (1 January 1970), and so a valid date. A moment has a time value and a local calendar year and 0-based month. An unparseable date, or an absent one, is the Invalid Date: it compares false with every cutoff, and its statistics key is "NaN-NaN".

## Model

| member | source | states |
|---|---|---|
| Classifier.FirstMatch | frontend/src/utils/traducciones.js:8-161 | the branch taken passes its test and no earlier branch does; no branch is taken only when none passes |
| Classifier.FirstMatchFrom | frontend/src/utils/traducciones.js:8-161 | the first passing branch at or after a position, and that every branch skipped fails |
| Classifier.MatchingRuleBounds | frontend/src/utils/traducciones.js:8-161 | a branch whose test passes is never skipped: it or an earlier branch is taken |
| Traducciones.Translate | frontend/src/utils/traducciones.js:2-165 | the result is never empty. A missing or empty message gives "Error desconocido". A recognised message gives the text of the first branch whose test passes on its lower-case form. Any other message keeps its length and every character except the first, which is upper-cased |
| Traducciones.CaseInsensitive | frontend/src/utils/traducciones.js:5 | two messages with the same lower-case form take the same branch, and get the same text when a branch is taken |
| Traducciones.InvalidTokenShadowsExpired | frontend/src/utils/traducciones.js:20-26 | a message mentioning "token" and "invalid" takes the invalid-session branch or an earlier one, and is never reported as an expired session |
| Traducciones.NoAutorizadoIsUnauthorized | frontend/src/utils/traducciones.js:28-30 | "no autorizado" is always caught by the unauthorized branch or an earlier one |
| Traducciones.PermissionOnlyNotAuthorized | frontend/src/utils/traducciones.js:74-76 | the permissions branch is taken only for "not authorized", and never for "no autorizado" (its second alternative is dead) |
| Traducciones.SpecificNotFoundFirst | frontend/src/utils/traducciones.js:137-139 | "user not found" and "recipe not found" are reported by their own branch or an earlier one, never by the generic not-found branch (traducciones.js:137) that also matches them |
| Strings.Capitalize | frontend/src/utils/traducciones.js:168-170 | the text keeps its length, its first character is upper-cased, and every other character is unchanged |
| Strings.ToLower | frontend/src/utils/traducciones.js:5 | lower-casing keeps the length and maps each character on its own |
| Strings.Trim | frontend/src/componentes/FormularioReceta.jsx:33 | the result has no blank at either end, is empty exactly for all-blank text, and leaves trimmed text unchanged |
| Strings.TrimIsSlice | frontend/src/componentes/FormularioReceta.jsx:33 | trimming only removes: the result is a slice of the text with nothing but whitespace before and after it |
| Strings.Split | frontend/src/componentes/FormularioReceta.jsx:47 | there is always at least one piece and no piece contains the separator |
| Strings.SplitCount | frontend/src/componentes/FormularioReceta.jsx:47 | there is one piece more than there are separators |
| Strings.SplitJoin | frontend/src/componentes/ListaRecetas.jsx:62-82 | splitting a join of separator-free pieces gives the pieces back |
| Seqs.Filter | frontend/src/componentes/ListaRecetas.jsx:12 | every element kept passes, the kept elements are an in-order subsequence, and their number is the number of passing elements |
| Entities.CreationMoment | frontend/src/componentes/ListaRecetas.jsx:15 | `fechaCreacion` decides when present; the creation time falls back to `createdAt` only when `fechaCreacion` is missing |
| Entities.ParseIngredients | frontend/src/componentes/FormularioReceta.jsx:47 | every name is trimmed and non-empty; there are at most (commas + 1) names; they are an in-order subsequence of the trimmed comma-separated pieces, and there are exactly as many as there are non-empty pieces, so every non-empty piece is kept |
| Entities.ParseSteps | frontend/src/componentes/FormularioReceta.jsx:48 | the steps are the non-blank lines, untrimmed, in order, and as many as there are non-blank lines |
| Entities.DraftOf | frontend/src/componentes/FormularioReceta.jsx:44-49 | the title and description are sent as typed, and the two lists are exactly what the ingredient and step parsers return: every ingredient name trimmed and non-empty, every step a non-blank single line |
| Entities.IngredientsRoundTrip | frontend/src/componentes/ListaRecetas.jsx:62 | re-parsing the ", "-joined names gives the ingredient list back when every name is trimmed, non-empty and comma-free; a missing list comes back empty |
| Entities.StepsRoundTrip | frontend/src/componentes/ListaRecetas.jsx:63 | re-parsing the newline-joined steps gives the list back when every step is a non-blank single line |
| Entities.PlanLabel | frontend/src/pages/Dashboard.jsx:117 | the upper-cased plan, or "PLUS" when the plan is missing or empty; never empty |
| Entities.FailureMessage | frontend/src/componentes/FormularioReceta.jsx:62-64 | a refusal gives its `error` field, or the fallback when the field is missing or empty; an exception gives its own message |
| FormularioReceta.MaxRecipes | frontend/src/componentes/FormularioReceta.jsx:15-21 | the limit is unbounded exactly for "premium", and 10 for "plus" and every other plan |
| FormularioReceta.CanAdd | frontend/src/componentes/FormularioReceta.jsx:23 | a recipe may be added exactly when the plan is premium or there are fewer than 10 |
| FormularioReceta.Guard | frontend/src/componentes/FormularioReceta.jsx:28-36 | the submit goes ahead exactly when a recipe may be added and the title is not blank; the limit error takes precedence over the title error |
| FormularioReceta.Submit | frontend/src/componentes/FormularioReceta.jsx:25-77 | a draft is sent exactly when the guards pass. A stopped submit changes only the error. Success hands over the created recipe and clears every field and the error. Failure keeps the fields and shows the translated, non-empty failure message. Loading ends false once a draft was sent |
| FormularioReceta.LimitCheckedFirst | frontend/src/componentes/FormularioReceta.jsx:28-36 | at the limit nothing is sent and the limit error is shown, even with a blank title |
| FormularioReceta.TitleSentUntrimmed | frontend/src/componentes/FormularioReceta.jsx:45 | an accepted title is sent exactly as typed |
| FormularioReceta.SubmitDisabled | frontend/src/componentes/FormularioReceta.jsx:138 | the button is disabled exactly while loading or while the title trims to nothing. Below the limit and not loading, it is disabled exactly for the submits the title guard of `manejarEnvio` would stop |
| FormularioReceta.EnabledSubmitIsSent | frontend/src/componentes/FormularioReceta.jsx:136-138 | below the limit, a submit from an enabled button always sends the draft |
| FormularioReceta.View | frontend/src/componentes/FormularioReceta.jsx:79-93 | the form is replaced by a notice exactly at the limit, with the plus notice exactly for "plus". The other plans get the generic notice. The counter is the count followed by "/10 recetas" on the plus plan and by " recetas" otherwise. The remaining count (10 − count) is shown exactly for "plus" with 8 or more recipes |
| FormularioReceta.WarningRange | frontend/src/componentes/FormularioReceta.jsx:156-158 | the near-limit warning only ever says 1 or 2 remaining |
| FormularioReceta.CounterShowsCount | frontend/src/componentes/FormularioReceta.jsx:93 | the counter text reads back, via `parseInt`, as the recipe count |
| Decimal.ParseLeadingNumber | frontend/src/componentes/FormularioReceta.jsx:93 | `parseInt` of `${n}` followed by a non-digit is n |
| ListaRecetas.FilterRecipes | frontend/src/componentes/ListaRecetas.jsx:12-29 | the result is an in-order subsequence of the list. "all" and unknown filter values keep everything. "week" and "month" keep exactly the recipes created at or after their cutoff. Every kept recipe passes the filter test, and there are exactly as many as the recipes that pass it |
| ListaRecetas.HeaderCount | frontend/src/componentes/ListaRecetas.jsx:118 | the header count is the number of recipes that pass the filter test; it never exceeds the number of recipes, and equals it under "all" |
| ListaRecetas.WeekWithinMonth | frontend/src/componentes/ListaRecetas.jsx:18-26 | with the month cutoff no later than the week cutoff, every recipe of the week view is in the month view |
| ListaRecetas.UndatedOnlyInHistory | frontend/src/componentes/ListaRecetas.jsx:15-26 | a recipe without a usable date is never shown under "week" or "month" |
| ListaRecetas.StartEdit | frontend/src/componentes/ListaRecetas.jsx:58-64 | editing starts on the recipe's id and title; a missing description, ingredient list or step list becomes "" |
| ListaRecetas.CancelEdit | frontend/src/componentes/ListaRecetas.jsx:66-72 | no recipe is being edited and all four buffers are empty |
| ListaRecetas.SaveEdit | frontend/src/componentes/ListaRecetas.jsx:74-107 | the buffers are sent through the shared parsers. Success hands over the updated recipe and ends the edit, keeping the buffers. A refusal alerts with the translated `error` field (no fallback), and an exception with its translated message; both leave the edit open |
| ListaRecetas.EditRoundTrip | frontend/src/componentes/ListaRecetas.jsx:58-82 | saving an untouched edit sends the recipe's own title, ingredients and steps, when the names and steps are well formed |
| ListaRecetas.CancelForgetsEdit | frontend/src/componentes/ListaRecetas.jsx:66-72 | starting an edit and cancelling it leaves the idle state |
| Dashboard.Loaded | frontend/src/pages/Dashboard.jsx:23-49 | loading ends. Success replaces the list. A failure keeps the list and shows the translated error, which is never empty |
| Dashboard.AddRecipe | frontend/src/pages/Dashboard.jsx:51-54 | the new recipe is first, the previous list follows intact, the length grows by one and the error is cleared |
| Dashboard.DeleteById | frontend/src/pages/Dashboard.jsx:56-58 | the result is an in-order subsequence holding exactly the recipes with another id. Its length is the old length minus the number of recipes with that id |
| Dashboard.DeleteAbsent | frontend/src/pages/Dashboard.jsx:57 | deleting an id that is not present leaves the list unchanged |
| Dashboard.DeleteIdempotent | frontend/src/pages/Dashboard.jsx:57 | deleting the same id twice is deleting it once |
| Dashboard.ReplaceById | frontend/src/pages/Dashboard.jsx:60-64 | the length is kept; each position holds the update when its id matches, and its old recipe otherwise |
| Dashboard.DeleteAfterReplace | frontend/src/pages/Dashboard.jsx:56-64 | an update followed by deleting its id is the same as deleting the id |
| Dashboard.EffectivePlan | frontend/src/pages/Dashboard.jsx:174 | the panels get the user's plan when it is a non-empty string, and "plus" otherwise |
| Dashboard.BadgeNamesEffectivePlan | frontend/src/pages/Dashboard.jsx:117 | the header badge is always the upper-cased plan the panels are given |
| GraficoEstadisticas.KeyOf | frontend/src/componentes/GraficoEstadisticas.jsx:6-9 | a recipe's key is its creation year and month, or the NaN key exactly when it has no usable date |
| GraficoEstadisticas.KeyPieces | frontend/src/componentes/GraficoEstadisticas.jsx:106 | splitting a key on '-' gives year and month digits; a negative year adds an empty first piece; the NaN key gives "NaN" twice |
| GraficoEstadisticas.KeyTextInjective | frontend/src/componentes/GraficoEstadisticas.jsx:9 | different keys have different texts, so counting per key is counting per property name |
| GraficoEstadisticas.Distinct | frontend/src/componentes/GraficoEstadisticas.jsx:18 | each key once, every key present, no more than the input, and in first-appearance order: a key listed before another occurs in the input before every occurrence of the other |
| GraficoEstadisticas.Bump | frontend/src/componentes/GraficoEstadisticas.jsx:11-14 | the key's bucket goes up by one and no other bucket changes. A new key gets a bucket of 1 at the end. The total grows by one |
| GraficoEstadisticas.Tally | frontend/src/componentes/GraficoEstadisticas.jsx:5-16 | the bucket keys are the distinct keys in first-appearance order, each bucket counts the occurrences of its key, and the counts sum to the number of recipes |
| GraficoEstadisticas.HistogramShape | frontend/src/componentes/GraficoEstadisticas.jsx:5-18 | the counts sum to the number of recipes. Every bucket holds at least one recipe. No key has two buckets. There are at most as many buckets as recipes |
| GraficoEstadisticas.BucketOfRecipe | frontend/src/componentes/GraficoEstadisticas.jsx:5-16 | every recipe's key has a bucket, and that bucket counts exactly the recipes sharing the key |
| GraficoEstadisticas.MaxCount | frontend/src/componentes/GraficoEstadisticas.jsx:19 | the maximum is at least 1 and at least every count, and is either 1 or one of the counts |
| GraficoEstadisticas.LastSix | frontend/src/componentes/GraficoEstadisticas.jsx:105 | the last min(6, n) buckets, as a suffix |
| GraficoEstadisticas.MonthLabel | frontend/src/componentes/GraficoEstadisticas.jsx:163 | a key with a non-negative year is labelled with its month's name. For a negative year the name comes from the year's digits, or is missing from 12 on. The NaN key has no name |
| GraficoEstadisticas.Bars | frontend/src/componentes/GraficoEstadisticas.jsx:105-108 | one bar per bucket of the last six buckets, in order, each with that bucket's month label and count; so at most six bars, each with a count between 1 and the maximum |
| InformeUso.ThisMonthCount | frontend/src/componentes/InformeUso.jsx:8-12 | the count never exceeds the total, and is zero exactly when no recipe was created in the given year and month |
| InformeUso.ThisMonthIsChartBucket | frontend/src/componentes/InformeUso.jsx:8-12 | this month's count equals the number of recipes in the chart's bucket for this month |
| InformeUso.Usage | frontend/src/componentes/InformeUso.jsx:14 | 100 for every plan but "plus"; for "plus", total/10 as a percentage |
| InformeUso.BarWidth | frontend/src/componentes/InformeUso.jsx:35 | a premium plan's bar is always full |
| InformeUso.PlusBarFits | frontend/src/componentes/InformeUso.jsx:14 | a plus plan's bar width exceeds 100% exactly above 10 recipes (the track clips the bar on screen) |
| InformeUso.Available | frontend/src/componentes/InformeUso.jsx:42-44 | a count is shown exactly for "plus", and it adds up with the total to 10 |
| InformeUso.AvailableGoesNegative | frontend/src/componentes/InformeUso.jsx:43 | the available count is not clamped: above 10 recipes it is negative |
| InformeUso.AvailableAgreesWithForm | frontend/src/componentes/InformeUso.jsx:42-44 | for "plus", recipes show as available exactly when the creation form allows another |
| ActualizarPlan.Promote | frontend/src/componentes/ActualizarPlan.jsx:46-50 | the stored user keeps every field and value except `plan`, which becomes "premium"; nothing else is added |
| ActualizarPlan.Upgrade | frontend/src/componentes/ActualizarPlan.jsx:11-63 | "premium" and every plan other than "plus" get their guard message without a request. Declining the confirmation changes nothing. Only a confirmed "plus" sends the request. Success stores the promoted user with the success message. Failure shows the translated error. Loading ends false after a request |
| ActualizarPlan.UpgradeLiftsLimit | frontend/src/componentes/ActualizarPlan.jsx:46-53 | after a successful upgrade the dashboard's effective plan, computed from the saved user, is "premium", and under that plan the form accepts another recipe at any count |
| ActualizarPlan.UpgradedIsSuccess | frontend/src/componentes/ActualizarPlan.jsx:127 | the success message is shown in green |
| ActualizarPlan.PlainTextIsError | frontend/src/componentes/ActualizarPlan.jsx:127 | a text with neither 'é' nor '¡' is shown in red |
| ActualizarPlan.AlreadyPremiumIsError | frontend/src/componentes/ActualizarPlan.jsx:12-15 | the already-premium guard message is shown in red |
| ActualizarPlan.PlusOnlyIsError | frontend/src/componentes/ActualizarPlan.jsx:17-20 | the plus-only guard message is shown in red |
| Register.Check | frontend/src/pages/Register.jsx:30-38 | the sign-up goes ahead exactly when the passwords match and have at least 6 characters; a mismatch is reported before the length |
| Register.Submit | frontend/src/pages/Register.jsx:26-66 | the error shown before is cleared first, so it is not an input. The request is made exactly when the checks pass, and a failed check shows its message. Success stores the returned session with no error. Failure shows the translated, non-empty message |
| Register.MismatchCheckedFirst | frontend/src/pages/Register.jsx:30-38 | mismatched passwords are reported as such even when too short |
| Register.LengthBoundary | frontend/src/pages/Register.jsx:35 | a 6-character password passes and a 5-character one is rejected |
| Register.Disabled | frontend/src/pages/Register.jsx:68 | the button is disabled exactly when a field is empty, the passwords differ or loading. So a submit from an enabled button never stops at the mismatch check, and mismatched passwords always disable it |
| Register.EnabledSubmitChecksOnlyLength | frontend/src/pages/Register.jsx:68 | from an enabled button only the length check can still fail |
| Login.Check | frontend/src/pages/Login.jsx:28-31 | the sign-in goes ahead exactly when both fields are non-empty; otherwise it shows "Usuario y contraseña son requeridos" |
| Login.Submit | frontend/src/pages/Login.jsx:24-59 | the request is made exactly when both fields are filled. Success stores the session with no error. Failure shows the translated, non-empty message |
| Login.Disabled | frontend/src/pages/Login.jsx:61 | the button is disabled exactly when a field is empty or loading |
| Login.ButtonMatchesCheck | frontend/src/pages/Login.jsx:61 | an enabled button always passes the check; once it passes, only loading disables the button |
| ImageUtils.ValidateImage | frontend/src/utils/imageUtils.js:1-14 | a file is accepted exactly when its type is one of the four image types and its size is at most 5 MiB. A wrong type gives the format error. A supported but oversized file gives the size error |
| ImageUtils.TypeCheckedFirst | frontend/src/utils/imageUtils.js:5-11 | an oversized file of the wrong type gets the format error |
| ImageUtils.SizeBoundary | frontend/src/utils/imageUtils.js:9 | exactly 5 MiB is accepted; one byte more gets the size error |
| SubirImagen.ErrorKey | frontend/src/componentes/SubirImagen.jsx:74-96 | the key is always one of the six keys; a missing, empty or unrecognised message gives the generic key |
| SubirImagen.ErrorKeyCaseInsensitive | frontend/src/componentes/SubirImagen.jsx:77 | messages with the same lower-case form get the same key |
| SubirImagen.FormatErrorKey | frontend/src/componentes/SubirImagen.jsx:79-81 | the format error of the image check gets the invalid-format key |
| SubirImagen.SizeErrorKey | frontend/src/componentes/SubirImagen.jsx:82-84 | the size error of the image check gets the too-large key once lower-cased |
| SubirImagen.SizePatternKey | frontend/src/componentes/SubirImagen.jsx:82-84 | any message lower-casing to the size pattern gets the too-large key, even though the format branch is tried first |
| SubirImagen.NeedsCompression | frontend/src/componentes/SubirImagen.jsx:26 | compression runs exactly above 1 MiB. A file too small to compress never fails the 5 MB size check, so every file that check rejects was over the compression threshold |
| SubirImagen.SelectFile | frontend/src/componentes/SubirImagen.jsx:18-72 | compression happens exactly for valid files above 1 MiB. The file is posted to the host exactly when it is valid and, if compressed, compression yielded a blob. If compression never settles, the state stays as the start left it: loading, no error, nothing sent. The URL is published exactly when the file was posted, the host returns a non-empty URL and the API stores it. On success the preview is the new URL with no error. On any other end the preview reverts to the current image (or ""), an error is shown, and loading ends |
| SubirImagen.Failed | frontend/src/componentes/SubirImagen.jsx:65-71 | a failure shows the message's key, restores the previous image and ends loading |
| SubirImagen.RejectedFileKeys | frontend/src/componentes/SubirImagen.jsx:23 | a wrong type shows the invalid-format key and an oversized file the too-large key; a rejected file is never compressed nor posted to the host |
| SubirImagen.Start | frontend/src/componentes/SubirImagen.jsx:20-21 | a selection clears the error and starts loading, which closes the picker |
| SubirImagen.SelectorReopens | frontend/src/componentes/SubirImagen.jsx:21-104 | the picker is closed while an upload runs. It opens again exactly when the selection does not hang at compression: after success, a rejected file, a null blob, a host failure or an API failure. A compression that never settles keeps it closed |
| MobileSlice.InitialState | frontend/src/slices/mobileSlice.js:5-12 | mobile exactly when there is a window at most 768 wide; portrait, sidebar closed, bottom navigation on, no touch flag |
| MobileSlice.SetViewport | frontend/src/slices/mobileSlice.js:14-19 | without a window nothing changes. With one, mobile means width at most 768 and portrait means height strictly greater than width. Nothing else changes |
| MobileSlice.SquareIsLandscape | frontend/src/slices/mobileSlice.js:17 | a square viewport is landscape |
| MobileSlice.SetViewportIdempotent | frontend/src/slices/mobileSlice.js:14-19 | applying the same viewport twice is applying it once |
| MobileSlice.InitialOrientationIsAGuess | frontend/src/slices/mobileSlice.js:7 | every window at least as wide as it is tall starts portrait, and only the first viewport update makes it landscape |
| MobileSlice.ToggleSidebar | frontend/src/slices/mobileSlice.js:20-22 | only `sidebarOpen` changes, and it flips |
| MobileSlice.ToggleTwice | frontend/src/slices/mobileSlice.js:20-22 | toggling twice is the identity |
| MobileSlice.SetTouchEnabled | frontend/src/slices/mobileSlice.js:23-25 | `touchEnabled` becomes the payload and nothing else changes |
| MobileSlice.ToggleCommutesWithTouch | frontend/src/slices/mobileSlice.js:20-25 | the sidebar and touch reducers commute |

## Left out

- Network, storage and browser calls (`fetch`, `localStorage`, `window.confirm`, `alert`, `console`, `navigate`, Redux `dispatch`) are left out; their results are parameters, and the stored or dispatched values are part of each handler's result.
- `authSlice` (the `loginStart`, `loginSuccess` and `loginFailure` reducers) is not part of this model; `loading` enters the button predicates as a parameter.
- The i18n lookup `t(...)` in the image uploader: SubirImagen.SelectFile shows the key ("errors." + key) instead of its translated text, and takes the translated "errors.images.updateError" text as a parameter.
- Image compression, object URLs and the image host's upload (`comprimirImagen`, `crearUrlImagen`, the Cloudinary request) are left out. Only whether compression runs, how it ends (a blob, a null blob, or never, since `comprimirImagen` sets no error handler) and what the host answers are modelled.
- The clock: `new Date()`, `setDate`/`setMonth` overflow, time zones and daylight saving are left out; the cutoffs and the current year and month are parameters.
- Floating point: the bar heights, hsl colours and the monthly average with `toFixed` in the chart are not modelled.
- InformeUso.Usage: the percentage is exact, whereas the source computes `(total / 10) * 100` in floating point (which gives 110.00000000000001 for 11 recipes).
- Strings.ToLower: only the letters of Basic Latin and Latin-1 with a one-character case partner are mapped; the rest of Unicode case mapping (and characters such as ß or ÿ whose partner lies elsewhere) is not modelled.
- Strings.ToUpper: same restriction as ToLower.
- Register.Check: the length is counted in characters, whereas JavaScript counts UTF-16 code units, so characters outside the Basic Multilingual Plane count once here and twice in the source.
- Decimal.ParseInt: leading whitespace and a sign are not skipped; the model only reads texts the chart itself produced, which have neither.
- Entities.PlanOf: a `plan` field that is not a string is treated as missing.
- GraficoEstadisticas.Bump: it requires the buckets to have distinct keys, which an object's property names always have.
- ActualizarPlan.Promote: a stored user that does not parse as a JSON object is not modelled.
- MobileSlice.SetTouchEnabled: the payload is a boolean; other payload values are not modelled.
- Rendering, inline styles and the constant text tables are left out, except the texts the handlers set.
- Routing and wiring (`App.jsx`, layouts, `Logout.jsx`, the viewport listener, the store and the API URL constants) are left out.
- The delete handler of the recipe list (`manejarEliminar`) is left out; the list change it triggers is Dashboard.DeleteById.
