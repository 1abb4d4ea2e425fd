# Plant-disease app: decision rules, verified

This project models the decision and aggregation rules of a small web app for orchard owners. The app is a Flask server with MySQL plus browser scripts. Users register farms and trees and upload leaf photos, which a classifier labels with a disease. The app then shows per-user statistics, a report of nearby disease counts and an outbreak alert. Administrators see site-wide metrics, users and feedback.

The model is written in Dafny, one module per source file:

- **Server side.**
  - `StatisticsModel`: the severity index, tree health scores, the regional count of diseased scans and the geo-outbreak rule.
  - `AdminModel`: the zero-filled disease distribution and the system metrics.
  - `ApiUtils`: `format_date_to_iso` and `json_response`.
  - `UserRoutes`, `AdminRoutes`, `AuthRoutes` and `ScanRoutes`: each route's status code and message for each request and lookup result.
- **Browser side.**
  - `Session` (utils.js): JWT payload reading, login state, redirects and validators.
  - `ApiClient` (api.js): the token store and how `apiCall` prepares and settles a request.
  - One module per page script: `AuthForms`, `TreeDetail`, `AdminFeedbacks`, `Settings`, `ScanPage`, `RegionalReport`, `UserStatistic` and `AdminDashboard`.
- **Shared modules.**
  - `Text`: string and number text.
  - `Ordered`: insertion-ordered dictionaries.
  - `Ranking`: the stable descending sort used by Python's `sorted(reverse=True)` and by JavaScript's comparator sort.
  - `PyValue` and `JsValue`: Python and JSON values with their truthiness.
  - `Http`: a view's reply. An escaped exception, or a view that returns `None`, becomes Flask's 500.
  - `Browser`: localStorage, recorded navigations and alerts, and a variable that holds a Chart.js instance.

The code that changes state is modelled with classes whose methods update fields. This covers the token store, the page variables, the chart variables and the upload folder. The server's accumulation loops are methods with loop invariants, each proved against a specification function.

Everything the code gets from outside is a parameter of the model:

- database rows and lookups;
- the current time;
- the haversine distance;
- `float()` and `parseFloat` on text;
- `fetch` results;
- `JSON.stringify`, and the token decoding done by `atob`, `decodeURIComponent` and `JSON.parse`;
- number-to-text conversion and URL encoding;
- `confirm()` answers and URL parameters.

Numbers are exact: integers are unbounded and ratios are `real`.

## Model

| member | source | states |
|---|---|---|
| PyValue.Get | backend/api/user_routes.py:56-60 | `dict.get(key)` yields `None` for a key the body does not hold |
| PyValue.GetOr | backend/api/user_routes.py:106-111 | `dict.get(key, default)` yields the default exactly when the key is absent, the stored value otherwise |
| PyValue.ToFloat | backend/models/statistics_model.py:155-160 | `float(None)` fails (the `TypeError` the loop skips) |
| StatisticsModel.SeverityScale | backend/models/statistics_model.py:15-24 | the severity index is at most 3; it is 0 for `Healthy` and for every class outside the eight trained classes (config.py:22-31), and at least 1 for each of the seven disease classes |
| StatisticsModel.TreeHealthScores | backend/models/statistics_model.py:102-126 | no result set gives no scores; otherwise one score per row, in row order, with the row's date and class and the class's severity (0 when unlisted) |
| StatisticsModel.Location | backend/models/statistics_model.py:155-160 | a scan has a position exactly when both coordinates convert with `float` |
| StatisticsModel.TallySnoc | backend/models/statistics_model.py:167 | counting one more scan adds one to its class and leaves the other counts alone |
| StatisticsModel.PutSum | backend/models/statistics_model.py:167 | storing a count changes the dictionary's total by the new value minus the old one |
| StatisticsModel.TallyCounts | backend/models/statistics_model.py:154-169 | the counting loop gives each class once, with the number of its scans, and the counts add up to the number of scans counted |
| StatisticsModel.TallyPositive | backend/models/statistics_model.py:167 | no class is stored with a count of 0 |
| StatisticsModel.RegionalCountsMeaning | backend/models/statistics_model.py:128-169 | the regional dictionary counts, per class, the scans whose coordinates convert and whose distance is at most the radius (inclusive), in first-seen order |
| StatisticsModel.RegionalDiseaseData | backend/models/statistics_model.py:128-169 | the loop over the scans builds exactly that dictionary |
| StatisticsModel.BucketsOfSnoc | backend/models/statistics_model.py:221-248 | one more nearby scan from another user goes to the current week when uploaded on or after its start and to the baseline otherwise, and to the diseased count when its severity is above 0 |
| StatisticsModel.NearbyBuckets | backend/models/statistics_model.py:221-248 | the inner loop computes those four counters |
| StatisticsModel.BucketsPartition | backend/models/statistics_model.py:221-248 | diseased scans never outnumber scans in either week; the two weeks together hold every counted scan; scans from the user's own farms are never counted (line 223) |
| StatisticsModel.AlertsExactly | backend/models/statistics_model.py:251-259 | a farm alerts exactly when both weeks have scans, the baseline has a diseased scan, current prevalence is at least 10% and the rise is at least 20%, stated in whole numbers |
| StatisticsModel.NoAlertWithoutBaseline | backend/models/statistics_model.py:254-259 | without a diseased baseline scan the increase stays 0 and no alert is raised |
| StatisticsModel.GeoTaggedFarms | backend/models/statistics_model.py:199 | a farm is kept exactly when its latitude and longitude are both truthy |
| StatisticsModel.OutbreakDataKeys | backend/models/statistics_model.py:205-265 | the outbreak dictionary is keyed by the names of exactly the farms that alert, each once |
| StatisticsModel.GeoOutbreakRisk | backend/models/statistics_model.py:172-270 | no geo-tagged farm gives the "No geo-tagged farms" answer; risk is found exactly when some geo-tagged farm alerts for the week starting 7 days before now; the outbreaks are those farms |
| StatisticsModel.CheckGeoOutbreakRisk | backend/models/statistics_model.py:172-270 | a failed farm query, whose None the farm filter at line 199 cannot iterate, raises; otherwise the method's loops compute that report |
| AdminModel.Seed | backend/models/admin_model.py:53 | the seeded distribution holds each configured class once, at 0, and nothing else |
| AdminModel.OverwriteMeaning | backend/models/admin_model.py:54-55 | after the loop a class holds the count of its last row, or its seeded value when no row names it; keys stay unique |
| AdminModel.Limit | backend/models/admin_model.py:42-45 | `LIMIT n` keeps a prefix of at most n rows, all of them when there are no more |
| AdminModel.AdminModel.GetDiseaseDistribution | backend/models/admin_model.py:33-57 | a failed query gives `{}`; otherwise the seeded classes overwritten by the limited rows |
| AdminModel.DistributionMeaning | backend/models/admin_model.py:47-57 | every configured class appears; one without a row shows 0; one with a row shows its count; no other name appears |
| AdminModel.GetSystemMetrics | backend/models/admin_model.py:21-31 | the metrics exist only when all four counts do, under the keys total_users, total_scans, total_farms, total_trees in that order |
| ApiUtils.FormatDateToIso | backend/api/utils.py:4-23 | dates become their ISO text; lists and dicts keep their shape and keys and are converted element by element; anything else is returned as is; no date survives |
| ApiUtils.DateFreeUnchanged | backend/api/utils.py:4-23 | a value without dates comes back unchanged |
| ApiUtils.FormatIdempotent | backend/api/utils.py:4-23 | converting twice is the same as converting once |
| ApiUtils.JsonResponse | backend/api/utils.py:25-49 | the body has keys status, message, data in that order; `None` data becomes `{}`; the data is date-free; the status code is passed through |
| UserRoutes.PyInt | backend/api/user_routes.py:37 | `int()` of a string parses it, with surrounding whitespace, an optional sign and single underscores between digits; of an int returns it; of None, a list or a dict fails |
| Text.UnderscoreGroupsParse | backend/api/user_routes.py:37 | `int()` reads digits with one underscore between two groups as the digits joined: "1_000" is 1000 |
| Text.DoubledUnderscoreRejected | backend/api/user_routes.py:37 | `int()` rejects two underscores in a row, as in "1__0" |
| Text.EdgeUnderscoreRejected | backend/api/user_routes.py:37 | `int()` rejects a leading or a trailing underscore, as in "_1" and "1_" |
| UserRoutes.TokenRequired | backend/api/user_routes.py:25-45 | a request that `@jwt_required()` turns away gets that check's own answer; an identity `int()` rejects answers 401 with the identity message; otherwise the view runs with the parsed id |
| UserRoutes.IssuedIdentityAccepted | backend/api/user_routes.py:33-44 | the decimal text of any user id is accepted and yields that id |
| UserRoutes.CreateFarm | backend/api/user_routes.py:51-70 | 400 exactly when farm_name is falsy; otherwise 201 with the new id when the insert returns one, else 500 |
| UserRoutes.MergeFarm | backend/api/user_routes.py:106-111 | each field takes the request's value when the key is present, even when null, and keeps the stored one otherwise |
| UserRoutes.MergeFarmUnchanged | backend/api/user_routes.py:106-111 | a body without farm keys changes nothing, and merging the same body twice is merging it once |
| UserRoutes.UpdateFarm | backend/api/user_routes.py:90-115 | a missing farm answers 404; otherwise the merged fields are stored, answering 200 or 500 |
| UserRoutes.CreateTree | backend/api/user_routes.py:126-146 | 400 exactly when farm_id or tree_name is falsy; then 404 exactly when the farm is not the user's; for a valid request on the user's farm, 201 with the new tree id when the insert returns a truthy id, else 500 |
| UserRoutes.MergeTree | backend/api/user_routes.py:184-186 | each tree field takes the request's value when the key is present and keeps the stored one otherwise |
| UserRoutes.MergeTreeUnchanged | backend/api/user_routes.py:184-186 | a body without tree keys changes nothing; merging is idempotent |
| UserRoutes.UpdateTree | backend/api/user_routes.py:164-190 | a missing tree answers 404 "Tree not found"; someone else's tree answers 404 "unauthorized access"; a 200 only for the owner's tree |
| UserRoutes.PyLen | backend/api/user_routes.py:269 | `len()` of a string is its length |
| UserRoutes.UpdatePassword | backend/api/user_routes.py:263-276 | 400 when a password is missing or the new one is shorter than 6; 401 exactly when the user is missing or the current password does not verify; once it verifies, 200 "Password updated successfully. Please log in again." when the new hash is stored and 500 when storing fails; a new password without a length fails |
| UserRoutes.SendEmailCode | backend/api/user_routes.py:278-286 | 200 exactly when new_email is truthy and the user exists, 400 otherwise |
| UserRoutes.ConfirmEmailChange | backend/api/user_routes.py:288-297 | 200 exactly when the code is the string "123456", 401 otherwise |
| UserRoutes.TopTwoHighest | backend/api/user_routes.py:352-355 | the entries considered are min(2, n) of the regional entries, in non-increasing count order; no entry left out has a higher count than a picked one; among equal counts the earliest entries of the data are picked, in data order |
| UserRoutes.WithTreatmentFacts | backend/api/user_routes.py:355-362 | the kept entries come from the list in its order, each with a treatment record whose two texts it carries; every entry that has a treatment record is kept |
| UserRoutes.WithTreatmentComplete | backend/api/user_routes.py:355-362 | every entry that has a treatment record is kept, with that record's organic and chemical texts |
| UserRoutes.TopTreatmentsMeaning | backend/api/user_routes.py:349-362 | at most two top treatments, each one of the two highest regional classes with its count and treatment texts, in non-increasing count order; each of the two highest classes that has a treatment record appears |
| UserRoutes.RegionalStatistics | backend/api/user_routes.py:327-377 | missing coordinates answer 400; a coordinate `float` rejects answers 400 "Invalid latitude or longitude format."; two coordinates that both parse always give the regional data: the counts within 5 km, their top treatments, and the message that says whether any were found |
| UserRoutes.UserTotalScans | backend/models/statistics_model.py:85-100 | the row's total when it has a 'total' key; 0 when the query failed or the row lacks the key |
| UserRoutes.UserStatistics | backend/api/user_routes.py:398-420 | a None total answers 500; a total equal to 0 answers the empty period with 200; otherwise 200 with the total, distribution and tree counts as given |
| UserRoutes.FailedCountReadsAsNoScans | backend/api/user_routes.py:404-406 | a failed count query is answered with the empty period; the 500 is reached only for a row whose 'total' is None |
| UserRoutes.StatisticsOfQuery | backend/api/user_routes.py:402-420 | a failed count query answers 500; the empty period only when the database counted 0; data only for a non-zero total, which it reports |
| AdminRoutes.AdminGate | backend/api/admin_routes.py:22-33 | a missing user or a role other than "admin" answers 403; an admin runs the view |
| AdminRoutes.AdminRequiredOutcomes | backend/api/admin_routes.py:18-34 | a request that `@jwt_required()` turns away gets that check's own answer; an identity `int()` rejects answers 401; a non-admin gets 403; the view runs exactly for an integer identity of an admin |
| AdminRoutes.StatusUpdatedMessageNames | backend/api/admin_routes.py:104 | the success message starts with "Feedback ", reads back the feedback id and ends with the status |
| AdminRoutes.UpdateFeedbackStatus | backend/api/admin_routes.py:93-105 | 400 exactly when the status is not one of new, in_review, resolved; for an allowed status, 200 with the message naming the id and status exactly when the update succeeds, 500 when it fails |
| AdminRoutes.UpdateDisease | backend/api/admin_routes.py:122-138 | 400 exactly when one of the three texts is falsy; 200 exactly when all are given and the update succeeds |
| AdminRoutes.TruncateIso | backend/api/admin_routes.py:86 | `split('.')[0]` is the longest dot-free prefix of the ISO text |
| AdminRoutes.FormatFeedback | backend/api/admin_routes.py:84-86 | a falsy submitted_at is left alone; a date is replaced by its ISO text without fractional seconds and nothing else changes; any other truthy value fails |
| AdminRoutes.FormatFeedbacks | backend/api/admin_routes.py:79-91 | the loop rewrites every feedback in place, or stops at the first one that fails and leaves the rest unchanged |
| AuthRoutes.Signup | backend/api/auth_routes.py:14-34 | 400 exactly when a field is falsy; 409 exactly when the email is taken; 201 exactly when the user is created; 500 "Database error during signup" exactly when the fields pass, the email is free and the insert returns a falsy id |
| AuthRoutes.SignupTakenCreatesNothing | backend/api/auth_routes.py:25-29 | with the email taken the answer does not depend on the creation step, which is never reached |
| AuthRoutes.Signin | backend/api/auth_routes.py:37-66 | 400 exactly when email or password is falsy; 401 for an unknown email or a wrong password; a token exactly when the email is known and the password verifies, issued for the decimal text of the user id, with id, username, email and role |
| AuthRoutes.SigninIdentityRoundTrip | backend/api/auth_routes.py:52 | the identity put in a token is accepted by the token check of user_routes.py:33-44 and yields the same user id |
| AuthRoutes.Logout | backend/api/auth_routes.py:69-72 | always answers 200 |
| AuthRoutes.ForgotPassword | backend/api/auth_routes.py:75-82 | 400 without an email, the same 200 answer for any email |
| ScanRoutes.Extension | backend/api/scan_routes.py:19-20 | `rsplit('.', 1)[1]` exists exactly when the name holds a dot, is dot-free, and is what follows some dot of the name |
| ScanRoutes.AllowedFileMeaning | backend/api/scan_routes.py:17-20 | a name is allowed exactly when the text after its last dot, lower-cased, is png, jpg or jpeg (config.py:39) |
| ScanRoutes.OrNone | backend/api/scan_routes.py:71-74 | `x if x else None` keeps a form field only when it is present and non-empty |
| ScanRoutes.TreatmentTexts | backend/api/scan_routes.py:100-103 | a missing disease record gives "N/A" for both treatments, otherwise the record's two texts |
| ScanRoutes.UploadFolder.Save | backend/api/scan_routes.py:54 | saving adds the path to the upload folder |
| ScanRoutes.UploadFolder.RemoveIfExists | backend/api/scan_routes.py:108-109 | removing leaves the folder without the path, whether or not it was there |
| ScanRoutes.SaveAndAnalyze | backend/api/scan_routes.py:45-115 | a `ValueError` answers 400 with its text; another failure answers 500; a falsy image id answers 500 "Failed to save image metadata"; success returns the id, class, confidence, raw output and treatments; the saved file stays exactly on success and is removed on every failure |
| ScanRoutes.StoredName | backend/api/scan_routes.py:47-50 | the stored name is the uuid, a dot and the lower-cased extension of the secured name, and exists only when that name keeps a dot |
| ScanRoutes.UploadAndAnalyze | backend/api/scan_routes.py:22-115 | 503 without a model; 400 without an image; 400 for an empty file name; a disallowed extension falls off the end of the view (500); for an allowed file with an extension, the ValueError text as 400, the two 500s, or success exactly when the analysis and the metadata insert succeed, recording "uploads/" + the stored name with the optional fields cleared to None when empty; no failure leaves a new file |
| Ordered.Get | backend/models/statistics_model.py:167 | `dict.get(k)` is present exactly when the key is, and is the value stored under it |
| Ordered.Put | backend/models/admin_model.py:55 | `d[k] = v` overwrites in place when k is a key and appends otherwise; afterwards k maps to v and every other key keeps its value; keys stay unique |
| Ranking.SortDescCorrect | backend/api/user_routes.py:352 | `sorted(..., reverse=True)` by count gives a non-increasing permutation that keeps the original order of equal counts |
| AdminModel.AdminModel.constructor | backend/models/admin_model.py:10-13 | passing None for the classes gives an empty class list |
| Session.ToBase64 | src/static/js/utils.js:13 | every `-` becomes `+`, every `_` becomes `/`, every other character stays, and the length is kept |
| Session.DecodeJwt | src/static/js/utils.js:10-22 | a token without a second dot-separated segment gives null; otherwise the payload is the decoding of that segment in standard base64, or null when decoding fails |
| Session.PayloadSegmentOnly | src/static/js/utils.js:12 | for header.payload.signature only the payload segment is decoded, whatever the header and signature are |
| Session.NoDotNoPayload | src/static/js/utils.js:12-20 | a token with no dot decodes to null |
| Session.IsLoggedIn | src/static/js/utils.js:29-46 | without the token getter or a token the user is logged out; with a truthy `exp` the answer is whether it is later than now in seconds; otherwise it is whether the payload is truthy |
| Session.NumericExpiry | src/static/js/utils.js:41-45 | a numeric expiry logs in exactly until `exp * 1000` milliseconds, and an expiry of 0 falls through to the payload check |
| Session.LoggedInEarlier | src/static/js/utils.js:41-43 | a token valid now was valid at every earlier time |
| Session.AuthRedirect | src/static/js/utils.js:54-64 | it goes to /dashboard exactly when logged in, asked to and not already there; to /login exactly when logged out, asked to and not already there; nowhere else |
| Session.CheckAuthAndRedirect | src/static/js/utils.js:54-64 | the window records that redirect and nothing else |
| Session.WellFormedIsPattern | src/static/js/utils.js:74 | the scan-based test is exactly the regular expression: no whitespace, one `@` not first, and a `.` inside the domain with a character on each side |
| Session.LowerKeepsPattern | src/static/js/utils.js:75 | lower-casing does not change whether an address matches |
| Session.ValidateEmailMeaning | src/static/js/utils.js:73-76 | validateEmail accepts exactly the addresses that match the pattern as typed |
| Session.PasswordRuleMatchesServer | src/static/js/utils.js:83-85 | the client's 6-character rule is the server's check at backend/api/user_routes.py:269 |
| ApiClient.SetAuthToken | src/static/js/api.js:15-17 | the token is stored under "authToken" and every other item stays |
| ApiClient.RemoveAuthToken | src/static/js/api.js:19-21 | the token is gone and every other item stays |
| ApiClient.Prepared | src/static/js/api.js:33-62 | the URL is origin + endpoint; a truthy non-FormData body is stringified and announced as application/json; an auth token becomes a Bearer header; GET and HEAD send no body |
| ApiClient.Settle | src/static/js/api.js:64-106 | a 401 on an authenticated call throws the token message; 204 resolves to "Operation successful"; a non-JSON body resolves when ok and otherwise throws the status and the first 100 characters; a JSON error throws its message or the status line; a value is returned only for a 2xx answer |
| ApiClient.FailureText | src/static/js/auth.js:46 | `error.message \|\| fallback` shows the message unless it is empty |
| ApiClient.ApiCall | src/static/js/api.js:33-107 | without a needed token nothing is sent, the call throws and the page goes to /login; otherwise the request above is sent and settled; a 401 on an authenticated call also removes the token and goes to /login; no other call touches storage or location |
| ApiClient.Signin | src/static/js/api.js:128-143 | the credentials are posted without auth; the token is stored exactly when the answer has a truthy token; it never navigates |
| ApiClient.Logout | src/static/js/api.js:149-154 | the token is removed and the page goes to /login |
| AuthForms.LoginCheck | src/static/js/auth.js:26-33 | the login form passes exactly when the email and password are valid; a bad email is reported first |
| AuthForms.SignupCheck | src/static/js/auth.js:63-78 | the signup form passes exactly when all four checks hold, reported in the order username, email, password, confirmation |
| AuthForms.ResetCheck | src/static/js/auth.js:134-141 | a mismatch is reported before the length rule; the form passes exactly when both hold |
| AuthForms.PrefilledCode | src/static/js/auth.js:120-124 | a non-empty `code` URL parameter fills the reset code; otherwise the field keeps its value |
| AuthForms.SignupBody | src/static/js/api.js:120 | the signup body carries username, email and password |
| AuthForms.ResetBody | src/static/js/auth.js:145-149 | the reset body carries email, code and new_password |
| AuthForms.AuthPage.Start | src/static/js/auth.js:5 | a logged-in visitor is sent to /dashboard unless already there, and the reset code is prefilled |
| AuthForms.AuthPage.SubmitLogin | src/static/js/auth.js:16-48 | a failed check shows its message and sends nothing; otherwise signin is called; success shows the server's message and goes to /dashboard; failure shows the error or the fallback |
| AuthForms.AuthPage.SubmitSignup | src/static/js/auth.js:51-91 | a failed check shows its message; otherwise signup is posted without auth; success shows the message with " Redirecting to login..." and goes to /login; failure shows the error or "Signup failed." |
| AuthForms.AuthPage.SubmitForgot | src/static/js/auth.js:95-115 | the email is posted without auth; success shows the message and the reset link; failure shows the error or the fallback |
| AuthForms.AuthPage.SubmitReset | src/static/js/auth.js:126-162 | a failed check shows its message in the colour the line already had (the stylesheet's, or the last attempt's); otherwise the email, the code as it stands in the code field at submission, and the new password are posted; success shows the reply's message in green and goes to /login; failure shows the error or the fallback in red |
| TreeDetail.WithoutSign | src/static/js/tree_detail.js:29 | `parseInt` drops one leading sign before reading digits |
| TreeDetail.TreeIdFromUrl | src/static/js/tree_detail.js:25-33 | an id exists exactly when the path has a third `/`-piece, the second piece is "tree" and `parseInt` reads a number from the third; the id is that piece verbatim |
| TreeDetail.TreePathRoundTrip | src/static/js/tree_detail.js:25-33 | for /tree/&lt;id&gt; followed by nothing or a further `/` segment, the page reads back exactly &lt;id&gt; |
| TreeDetail.DigitFirstAccepted | src/static/js/tree_detail.js:29 | any piece that starts with a decimal digit (and is not a hexadecimal prefix) passes the `isNaN` test |
| TreeDetail.PathPieces | src/static/js/tree_detail.js:26-28 | splitting /first/id... on `/` puts first and id in pieces 1 and 2 |
| TreeDetail.OtherPagesHaveNoTreeId | src/static/js/tree_detail.js:29-32 | a path whose first segment is not "tree" yields no id |
| TreeDetail.ScanLink | src/static/js/tree_detail.js:82 | the scan link targets /scan?farm_id= |
| TreeDetail.SplitPair | src/static/js/tree_detail.js:82 | a query of two `&`-free fields splits back into those two fields |
| TreeDetail.ScanLinkQuery | src/static/js/tree_detail.js:82 | the scan link's query splits into exactly farm_id=&lt;farm&gt; and tree_id=&lt;tree&gt; when neither id holds `&` |
| TreeDetail.CardOf | src/static/js/tree_detail.js:108-125 | a card carries the image id and class, with the status class "healthy" exactly for the class "Healthy", "default" otherwise |
| TreeDetail.ScanHistory.Render | src/static/js/tree_detail.js:94-129 | the count is the number of images; the empty notice shows exactly when there are none; one card per image, in order |
| AdminFeedbacks.SubjectSnippet | src/static/js/admin_feedbacks.js:59 | a subject of at most 50 characters is shown whole; a longer one as its first 50 characters and "..." |
| AdminFeedbacks.StatusClass | src/static/js/admin_feedbacks.js:60 | `replace('_', '-')` changes only the first underscore and keeps the length |
| AdminFeedbacks.SecondUnderscoreKept | src/static/js/admin_feedbacks.js:60 | a status with two underscores keeps the second one |
| AdminFeedbacks.DisabledOptions | src/static/js/admin_feedbacks.js:70-75 | an option is disabled exactly when it is the feedback's current status |
| AdminFeedbacks.OneOptionDisabled | src/static/js/admin_feedbacks.js:70-75 | at most one option is disabled, and one is exactly when the status is one of the three |
| AdminFeedbacks.FeedbackTable.Show | src/static/js/admin_feedbacks.js:27-85 | no feedback shows the empty row; otherwise one row per feedback in order, with its snippet, status class and disabled options |
| AdminFeedbacks.StatusSelect.HandleStatusUpdate | src/static/js/admin_feedbacks.js:91-116 | an empty choice does nothing; a cancelled confirmation clears the choice and sends nothing; otherwise the status is PUT with auth; success shows the message and reloads the list; failure shows the error or the fallback and restores the original status |
| AdminFeedbacks.Gate | src/static/js/admin_feedbacks.js:5-15 | the list loads exactly for a logged-in admin token; anyone else gets the redirect of checkAuthAndRedirect(true), one alert and a move to /dashboard |
| Settings.SavedTheme | src/static/js/settings.js:20 | the theme is the stored "userTheme" whenever a non-empty one is stored, and "light" when none (or an empty one) is; it is "dark" exactly when "dark" is stored |
| Settings.AccountDecision | src/static/js/settings.js:65-100 | a blank username is rejected first; a non-blank invalid new email is rejected next; a rename is chosen only with no new email and a changed username; a code is sent exactly for a valid new email that differs from the current one |
| Settings.ConfirmCheck | src/static/js/settings.js:111-118 | with no pending email the first message is shown; the check passes exactly with a pending email and a trimmed code of 6 characters |
| Settings.PasswordCheck | src/static/js/settings.js:160-165 | a mismatch is reported before length; the form passes exactly when the passwords agree and have at least 6 characters |
| Settings.PreferencesData | src/static/js/settings.js:207-211 | the request carries theme, email_alerts and low_confidence_alerts as chosen |
| Settings.SettingsPage.ApplySavedTheme | src/static/js/settings.js:19-31 | the dark class is on exactly when "dark" is stored, and the selector shows the saved theme |
| Settings.SettingsPage.LoadUserProfile | src/static/js/settings.js:36-48 | the profile is fetched with auth and kept when the call resolves; a failure or a null profile shows "Failed to load user profile." |
| Settings.SettingsPage.ApplyAccountStep | src/static/js/settings.js:75-102 | a rename PUTs the username and updates the local copy on success; a code request POSTs the new email and on success marks it pending and shows the code step; a failure shows the error or the fallback and changes nothing else |
| Settings.SettingsPage.SubmitAccount | src/static/js/settings.js:62-107 | a username change is never sent while a new email is entered; the pending email changes only after a successful code request, to the trimmed new email |
| Settings.SettingsPage.ConfirmEmail | src/static/js/settings.js:110-141 | a failed check shows its message; otherwise the pending email and trimmed code are posted; success shows the server's message, then the logout removes the token and goes to /login |
| Settings.SettingsPage.SubmitPassword | src/static/js/settings.js:153-183 | a failed check shows its message; otherwise both passwords are PUT; success shows its message and logs out; failure shows the error or the fallback |
| Settings.SettingsPage.SavePreferences | src/static/js/settings.js:195-229 | the preferences are PUT; on success the theme is stored and applied; on failure storage and theme are unchanged and the error is shown |
| ScanPage.TreeChoice | src/static/js/scan.js:88-90 | an option's value is the tree's id as text and its label the tree's name, empty when the name is null or missing |
| ScanPage.FirstNullish | src/static/js/scan.js:87-92 | the loop adds options up to the first null tree, whose id read throws |
| ScanPage.TreeDropdown.Populate | src/static/js/scan.js:73-104 | without a farm only the quick-scan option remains, disabled; otherwise the farm's trees are fetched and appended after it in order; a complete load enables the list and preselects the URL's tree when offered; a failure disables it and shows "Failed to load trees for this farm." |
| ScanPage.UploadFields | src/static/js/scan.js:136-146 | the form carries the image first, then tree_id exactly when one is chosen, and never the farm |
| ScanPage.HealthyIgnoresCase | src/static/js/scan.js:178 | a class is healthy exactly when it spells "healthy" in any letter case |
| ScanPage.TreatmentText | src/static/js/scan.js:213-219 | a recorded treatment is shown unless it is falsy or "N/A", in which case the default sentence is |
| ScanPage.TreatmentTextShown | src/static/js/scan.js:213-219 | what is shown is never empty and never "N/A" |
| ScanPage.Render | src/static/js/scan.js:175-244 | header, status tag, status class and colour follow the healthy test; treatments fall back as above; probabilities are a non-increasing permutation of the raw output; the gallery link names the image |
| ScanPage.TiesKeepServiceOrder | src/static/js/scan.js:229-230 | equal probabilities keep the order the service listed them in |
| ScanPage.ScanForm.Submit | src/static/js/scan.js:129-167 | without a file nothing is sent; otherwise the upload is posted with auth; success shows the results; failure shows the error or the hint and no results |
| RegionalReport.ColorOr | src/static/js/regional_report.js:144 | a disease in the colour map gets its colour, any other name the fallback |
| RegionalReport.GenerateCheck | src/static/js/regional_report.js:72-77 | the report is requested exactly when both coordinates are non-empty; otherwise the message asks for both |
| RegionalReport.RegionalEndpoint | src/static/js/regional_report.js:104 | the request goes to /api/user/regional-stats? |
| RegionalReport.EndpointQuery | src/static/js/regional_report.js:104 | its query splits into exactly latitude=&lt;lat&gt; and longitude=&lt;lon&gt; when neither holds `&` |
| RegionalReport.TotalAppend | src/static/js/regional_report.js:196-197 | the reduce total of two lists joined is the sum of their totals |
| RegionalReport.TotalPermutation | src/static/js/regional_report.js:196-197 | the total does not depend on the order of the entries |
| RegionalReport.SeverityShown | src/static/js/regional_report.js:218 | a listed disease with a non-zero index shows the index; every other disease shows "N/A" (`\|\| 'N/A'`) |
| RegionalReport.SeverityShownAgreesWithServer | src/static/js/regional_report.js:13-22 | the page's severity table agrees with the server's (backend/models/statistics_model.py:15-24): a positive server severity is the one shown, and "N/A" is shown exactly for severity 0 |
| RegionalReport.SeverityColor | src/static/js/regional_report.js:219 | severity 3 or more is red, at least 2 orange, anything else (including "N/A") green |
| RegionalReport.HealthyShownGreen | src/static/js/regional_report.js:218-219 | Healthy and unknown diseases show "N/A" in green |
| RegionalReport.RegionalChart | src/static/js/regional_report.js:141-159 | the doughnut has one label, value and colour per disease, in the answer's key order, colours from the map or #cccccc |
| RegionalReport.RegionalPage.RenderSummaryTable | src/static/js/regional_report.js:192-243 | one row per disease in non-increasing count order, each with its severity and colour, and a TOTAL row holding the sum of the counts |
| RegionalReport.RegionalPage.RenderTopTreatments | src/static/js/regional_report.js:248-285 | one card per threat in order, numbered from 1, with the treatment texts or their fallbacks and the colour map's border or #333 |
| RegionalReport.RegionalPage.Generate | src/static/js/regional_report.js:71-127 | missing coordinates show the prompt and change nothing else (table, cards, chart message and chart); otherwise the endpoint is fetched; no regional data shows the server's message or the default and destroys the chart; data replaces the chart, fills table and cards and reports success; a failure shows the error and destroys the chart |
| RegionalReport.TotalRowAddsUp | src/static/js/regional_report.js:213-237 | the rows of the sorted table add up to the TOTAL row |
| RegionalReport.RowsTotalOf | src/static/js/regional_report.js:216-234 | the rows built from the entries carry exactly the entries' counts, so they add up to the entries' total |
| Browser.ChartSlot.DestroyIfAny | src/static/js/regional_report.js:112 | `if (chart) chart.destroy()` leaves no live chart and keeps the variable |
| Browser.ChartSlot.Replace | src/static/js/regional_report.js:146-150 | the old chart is destroyed before the new one is assigned, so exactly one chart is live |
| UserStatistic.FormQuery | src/static/js/user_statistic.js:107-112 | the query string is empty exactly when no parameter was appended, and a single parameter is `name=value` with the value encoded |
| UserStatistic.StatisticsEndpoint | src/static/js/user_statistic.js:104-116 | each of the four combinations of empty and non-empty dates gives the bare endpoint or the endpoint with exactly the non-empty dates, start before end |
| UserStatistic.DiseaseChart | src/static/js/user_statistic.js:156-197 | a pie with one slice per class in order, its count as the value, green exactly for 'Healthy' and orange for every other class |
| UserStatistic.TreeChart | src/static/js/user_statistic.js:202-244 | a bar chart in one colour with one bar per tree, labelled by tree_name with count as its height |
| UserStatistic.LoadAsWritten | src/static/js/user_statistic.js:121-151 | as written: data draws both charts; an empty period or a failure replaces the canvases with text, so every later run throws on the missing canvas and throws again in its catch |
| UserStatistic.RunAsWritten | src/static/js/user_statistic.js:121-151 | one outcome per load in a sequence of loads |
| UserStatistic.ChartsNeverReturn | src/static/js/user_statistic.js:130-157 | after one empty or failed load, no later load draws a chart and each ends with an uncaught error |
| UserStatistic.LaterRunsFail | src/static/js/user_statistic.js:145-157 | once the canvases are gone every load fails, whatever it receives |
| UserStatistic.EmptyThenDataShowsNoChart | src/static/js/user_statistic.js:130-157 | an empty period followed by a period with one scan shows the no-data message, then no chart and the getContext error |
| UserStatistic.StatisticsPage.Load | src/static/js/user_statistic.js:121-151 | corrected: data replaces both charts and restores the canvases, an empty period or a failure shows its texts and message and leaves the charts as they were, and the GET goes to the endpoint for the dates |
| AdminDashboard.AccessTarget | src/static/js/admin_dashboard.js:12-33 | the page stays exactly for a logged-in admin; a logged-out visitor is sent to /login and a logged-in non-admin to /dashboard |
| AdminDashboard.Start | src/static/js/admin_dashboard.js:6-37 | data is loaded exactly when `AccessTarget` lets the page stay (a logged-in admin); otherwise one alert and one navigation to `AccessTarget`'s target are added, and nothing else |
| AdminDashboard.MetricText | src/static/js/admin_dashboard.js:70-74 | a missing or falsy metric shows as 0, any other as its text |
| AdminDashboard.MetricCards | src/static/js/admin_dashboard.js:65-75 | four cards in the order users, scans, farms, trees; a missing metrics object shows 0 in each |
| AdminDashboard.SliceColors | src/static/js/admin_dashboard.js:131 | the slice colours are the first min(n, 8) palette entries |
| AdminDashboard.DistributionChart | src/static/js/admin_dashboard.js:109-131 | a doughnut with one slice per class in order with its count, coloured by the palette prefix |
| AdminDashboard.PercentSumScales | src/static/js/admin_dashboard.js:170 | the unrounded percentages add up to the total over the divisor, times 100 |
| AdminDashboard.PercentagesAddUp | src/static/js/admin_dashboard.js:167-170 | when there were scans, the unrounded percentages of all classes add up to exactly 100 |
| AdminDashboard.ItemOf | src/static/js/admin_dashboard.js:168-179 | the line of a class holds its name, count and share of the total, with palette colour `index % 8` |
| AdminDashboard.MarkersMatchSlices | src/static/js/admin_dashboard.js:173 | the first eight markers have their slice's colour; the colour list passed to the chart covers only the first eight classes, and later markers repeat the colour eight places up |
| AdminDashboard.LineOf | src/static/js/admin_dashboard.js:207-209 | a user line shows the role upper-cased, in red exactly when the role is the string 'admin', else green |
| AdminDashboard.RoleColourIsCaseSensitive | src/static/js/admin_dashboard.js:209 | 'Admin' is shown as ADMIN but in green, while 'admin' is red |
| AdminDashboard.ListedPercentagesAddUp | src/static/js/admin_dashboard.js:167-185 | the unrounded percentages of the lines in a rendered list, before `toFixed(1)`, add up to exactly 100 |
| AdminDashboard.AdminDashboardPage.RenderDistributionList | src/static/js/admin_dashboard.js:163-186 | with scans, one line per class in order, whose unrounded percentages add up to 100; with a zero total, the no-data line; nothing else on the page changes |
| AdminDashboard.AdminDashboardPage.LoadMetrics | src/static/js/admin_dashboard.js:57-131 | GET /api/admin/metrics; data fills the four cards and, when non-empty, replaces the chart and fills the list; an empty distribution or a failure shows its texts; once the canvas has been replaced the chart is never redrawn, and the empty and failed paths throw from the catch after marking the grid failed |
| AdminDashboard.AdminDashboardPage.LoadUsers | src/static/js/admin_dashboard.js:192-222 | GET /api/admin/users; an array shows its first eight users in order and a "View All" count exactly when there are more than eight; anything else, or a user whose line throws, leaves only the failure line |
| AdminDashboard.ListedRows | src/static/js/admin_dashboard.js:203-212 | the lines of the first eight users, in order, exist exactly when none of them throws |

## Left out

- SQL and MySQL are not modelled. Every query result, insert result and lookup is an input, so the SQL wrapper classes are not part of this model.
- `get_user_disease_distribution` and `get_user_scans_by_tree` are inputs of the statistics route. Apart from the query text, each returns the rows or, when the query fails, `{}` or `[]`; the route passes them on unchanged. `get_user_total_scans` is modelled by `UserRoutes.UserTotalScans`. `get_all_users` is left out; its behaviour is the query text.
- `@jwt_required()` is an input: its verdict on the request, with its own reply for a missing or invalid token, is a `UserRoutes.JwtCheck`.
- UserRoutes.RegionalStatistics: the `except Exception` 500 "Could not retrieve regional statistics." is not modelled. Apart from `float()`'s ValueError, which is modelled, the steps that could raise are the model getters, and those are inputs here.
- UserRoutes.UserStatistics: the `except Exception` 500 "Failed to retrieve user statistics" is not modelled. The getters that could raise are inputs here.
- UserRoutes.PyInt: non-ASCII digits and Unicode whitespace, which Python's `int()` also accepts, are rejected. Only ASCII text is modelled.
- Routes outside the core are left out. This covers farm and tree listing and deletion, gallery and image routes, profile, preferences, feedback creation, the outbreak-alert route, metrics, users, feedback and disease listing, and `get_gallery`. Each only maps a model result to a status code.
- The haversine distance, the current time, `uuid4`, `secure_filename`, file I/O and the ML classifier are parameters. The classifier is backend/ml_model, which is not part of this model.
- Floating point is not modelled: prevalence ratios and percentages are exact reals.
- `toFixed`, the percentage strings of outbreak entries and number printing are formatting only. The number text is a parameter.
- DOM structure, CSS, Chart.js options and tooltips, legends, button labels and disabled states, `form.reset`, image previews and `console.error` are left out.
- Geolocation and FileReader are left out.
- Timers (`setTimeout`) are taken to fire: the navigation they schedule is recorded directly.
- `displayMessage` is defined in a script that is not part of this model. Its calls are recorded as `Browser.Notice` values.
- JavaScript strings are treated as sequences of characters, not UTF-16 code units. Case mapping covers ASCII letters only.
- A JSON object's keys keep insertion order. JavaScript puts integer-like keys first, and that ordering is not modelled; nor are prototype keys.
- Replies with many fields are given as typed values (`StatsReply`, `MetricsReply`, the regional and scan replies) instead of raw JSON where only their shape matters. A property read on `null` is modelled as `undefined` where the script would throw only on a malformed reply.
- user_statistic.js declares `const StatsAPI` twice, at lines 17 and 104, which as a script is a SyntaxError. Only the later definitions (lines 104-244) are modelled. The statistics page's own start and auth check is not modelled.
- Navigation is recorded, not performed. Each `window.location.href` assignment appends its target, and the page ends at the last one. Unloading the page, which would stop the script, is not modelled.
- Page methods that call the API take `apiCall`'s settled outcome (`ApiClient.Outcome`) as a parameter. Where `apiCall` itself removes the token and goes to /login (a missing token, api.js:48-52; a 401, api.js:68-71), that effect belongs to `ApiClient.ApiCall` and is stated there. When a page method's contract says that storage and navigations are unchanged on a thrown outcome, it means the page's own handler changes nothing.
- AdminFeedbacks.FeedbackTable.Show: models the table once the list has arrived. The "Fetching data..." row and the failure row with the error message are not modelled.

## Findings

| source | as written | input that shows it | evidently intended | confidence | as-written member | corrected member |
|---|---|---|---|---|---|---|
| src/static/js/user_statistic.js:130-150 | the empty-period branch and the catch block replace the canvases' parent elements with text, so the canvases are gone from the page | load a period with no scans, then a period with one scan: the second load throws at `getContext` on the missing canvas, and its catch throws again reading `parentElement` | a later load with data draws both charts again | not executed | UserStatistic.ChartsNeverReturn | UserStatistic.StatisticsPage.Load |
| backend/api/user_routes.py:404-406 | `get_user_total_scans` (backend/models/statistics_model.py:100) turns a failed query into 0, so the route answers 200 "No scans found for the selected period." and its 500 branch for a None total is never taken | the count query fails and `execute_query` returns None | the failure answers 500 "Failed to retrieve statistics data due to a server error." | not executed | UserRoutes.FailedCountReadsAsNoScans | UserRoutes.StatisticsOfQuery |
