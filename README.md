# med_kit — a Dafny model of the sample-kit service

med_kit tracks medical sampling kits. Each kit is a *product* with a
date-stamped numeric *barcode*. Staff mint products, and patients scan a
kit and submit a questionnaire (*profile*) with their personal data and
sample time. Staff record when the sample arrives and attach the lab
*report*, either an uploaded PDF or a link. Users log in with a password
or through WeChat. They hold a signed token and a role (`User`, `Staff` or
`Admin`). Request guards check the token and the role before a handler
runs. The repository also contains an older version of the service,
built on a document store, with its own routes and its own JWT guard.

This project models the following parts of the service:

- the error taxonomy and the JSON envelopes (`Responses`, `LegacyResponses`);
- the path-parameter parsers and profile deserialisers (`Models`, `ProductIds`);
- the request guards and token issuing (`Auth`, `LegacyAuth`);
- the barcode generator, as a class with its state (`Barcode`);
- a relational store with the query semantics the handlers rely on (`Store`);
- every handler of the current service (`ProductRoutes`, `ProfileRoutes`,
  `ReportRoutes`, `UserRoutes`);
- every handler of the older service (`LegacyRoutes`).

Helper modules:

- `Wrappers` holds `Option` and `Result`.
- `Text` holds ASCII digits, lower-casing and zero-padded decimals.
- `Time` holds instants, the integer widths the code converts between, and
  Rust's truncating division.

The store is a `Database` class. Its fields are one map per table, keyed
by id, and a serial counter per table. The handlers that write to it are
methods with `modifies db`, and their `ensures` state every table's new
contents. Its queries behave as follows:

- A lookup by a non-key column (`LIMIT 1`, `first`) returns the row with
  the lowest id.
- A listing is ordered by id, 10 rows to a page, at offset `page * 10`. That
  product is computed in 32-bit arithmetic, wrapping as a release build
  does, and then widened.
- A negative offset is a database error.

Signing, verifying and hashing (JWT, Argon2, HMAC) are function-valued
parameters, and so are WeChat's replies. The model assumes nothing about
them beyond what each lemma states in its `requires`.

## Model

| member | source | states |
|---|---|---|
| Responses.ErrorMessage | src/auxiliary/responses.rs:56-79 | every error has a non-empty fixed message; store errors say "not found" exactly when the row was missing |
| Responses.MessagesDistinguishErrors | src/auxiliary/responses.rs:58-78 | two errors share a message only if both are store errors of the same kind |
| Responses.RespondTo | src/auxiliary/responses.rs:56-89 | every error is answered with status 500 and an envelope with `success = false`, the error's message and no code |
| Responses.Build | src/auxiliary/responses.rs:45-50 | building a success never fails, sets `success` and keeps the data |
| Responses.FromStoreError | src/auxiliary/responses.rs:92-96 | a store error is wrapped unchanged |
| LegacyResponses.ErrorMessage | src/responses.rs:39-46 | a missing row and the two product errors have fixed non-empty messages; any other store error shows the store's own description |
| LegacyResponses.RespondTo | src/responses.rs:38-56 | a legacy error is answered through the JSON responder, status 200, with `success = false` and its message |
| LegacyResponses.Build | src/responses.rs:27-32 | a legacy success envelope carries the data with `success = true` |
| LegacyResponses.FromStoreError | src/responses.rs:59-63 | a legacy store error is wrapped unchanged, into the variant that corresponds to the current store error |
| LegacyResponses.AgreesWithCurrent | src/responses.rs:39-46 | the legacy and current messages agree on every error except a store error other than not-found, whose description the legacy one shows |
| Models.RoleFromParam | src/models/users.rs:22-29 | a role parameter parses exactly when it lower-cases to `user`, `staff` or `admin` |
| Models.RoleFromAnyCasing | src/models/users.rs:22-29 | parsing ignores letter case |
| Models.RoleNameRoundTrip | src/models/users.rs:13-29 | every role's name parses back to that role |
| Models.StageFromParam | src/models/products.rs:21-28 | a stage parameter parses exactly when it lower-cases to one of the accepted keywords |
| Models.StageFromAnyCasing | src/models/products.rs:21-28 | stage parsing ignores letter case |
| Models.SampledNotParsable | src/models/products.rs:12-28 | the `Sampled` stage has no keyword, so no parameter selects it |
| Models.MillisToDateTime | src/models/profiles.rs:60-66 | a value outside i64 is refused; otherwise it decodes exactly when `ms / 1000`, truncated toward zero, is within the calendar's range, to that many whole seconds, and panics when it is not |
| Models.SameSecondSameInstant | src/models/profiles.rs:60-66 | timestamps within the same second decode to the same instant |
| Models.NegativeMillisTruncate | src/models/profiles.rs:60-66 | negative timestamps truncate toward zero, not down |
| Models.DecodeNewProfile | src/models/profiles.rs:25-58 | a profile body decodes exactly when a given user id fits in 32 bits and the birth date decodes; a missing user id reads as 0 and a missing submit time as the epoch; the personal fields pass through unchanged and the birth date is the decoded one |
| Models.DecodeSampleTime | src/models/profiles.rs:42-45 | the sample time decodes exactly as the millisecond decoder does, including refusal and panic |
| Auth.DeserializeNumericDate | src/auth/user_auth.rs:124-131 | an expiry decodes exactly when it is an i64 within the calendar's range, as that many whole seconds |
| Auth.NumericDateRoundTrip | src/auth/user_auth.rs:115-131 | serialising an expiry and reading it back gives the same instant truncated to whole seconds |
| Auth.DecodeClaims | src/auth/user_auth.rs:33-39 | a token's claims are read exactly when the library accepts the token, the user id fits in 32 bits and the expiry decodes; id and role are kept |
| Auth.PresentedCredential | src/auth/user_auth.rs:51-68 | the `Authorization` header wins over the `token` cookie; a header not starting with `Bearer` is refused; a `Bearer` header whose byte 7 is not a character boundary panics, and otherwise its characters from 7 on are the token |
| Auth.Authenticate | src/auth/user_auth.rs:50-85 | a malformed header is a token error, a failed decode or missing credential is an auth error (401), a bare `Bearer` panics, and otherwise the caller's id and role come from the claims |
| Auth.UserDigestFromRequest | src/auth/user_auth.rs:50-85 | the user guard succeeds exactly when authentication does |
| Auth.StaffAuthFromRequest | src/auth/staff_auth.rs:19-72 | the staff guard lets staff and admins through and refuses users with 403 |
| Auth.AdminAuthFromRequest | src/auth/admin_auth.rs:16-57 | the admin guard lets only admins through |
| Auth.LegacyStaffAuthFromRequest | src/user/staff_auth.rs:16-57 | the older staff guard admits staff and admins and refuses users with 403 |
| Auth.HeaderTakesPrecedence | src/auth/user_auth.rs:51-68 | when a header is present the cookie is ignored |
| Auth.NonBearerHeaderRejected | src/auth/user_auth.rs:52-66 | a header not starting with `Bearer` is refused with a token error |
| Auth.BearerHeaderDecoded | src/auth/user_auth.rs:52-64 | a `Bearer` header with an ASCII seventh character authenticates as the claims its suffix decodes to |
| Auth.BareBearerPanics | src/auth/user_auth.rs:52-55 | the header `Bearer` alone, too short to cut at byte 7, makes every guard panic |
| Auth.NonAsciiCutPanics | src/auth/user_auth.rs:52-55 | a `Bearer` header whose seventh character is not ASCII makes every guard panic, byte 7 falling inside that character |
| Auth.CookieDecoded | src/auth/user_auth.rs:68-81 | without a header, the `token` cookie authenticates as its claims |
| Auth.DecodeFailureIsAuthError | src/auth/user_auth.rs:54-80 | a token the library refuses is an auth error |
| Auth.MissingCredentialIsAuthError | src/auth/user_auth.rs:68-82 | no header and no cookie is an auth error |
| Auth.RoleGates | src/auth/staff_auth.rs:19-72 | each guard admits exactly the roles it names |
| Auth.PrivilegeMonotone | src/auth/admin_auth.rs:16-57 | whoever passes the admin guard passes the staff guard, the two staff guards admit the same callers, and staff callers pass the user guard |
| Auth.GenTokenCookie | src/auth/user_auth.rs:88-106 | the issued cookie is `token`, expires a week later and carries the user's id and role; an encoding failure is a token error |
| Auth.IssuedCookieAuthenticates | src/auth/user_auth.rs:88-106 | a cookie just issued authenticates as the user it was issued to, given only that the library decodes what it signed |
| Barcode.FromParam | src/auxiliary/product_barcode.rs:18-24 | a barcode parameter is accepted exactly when every character is a digit |
| Barcode.DatePrefix | src/auxiliary/product_barcode.rs:64 | the date part is six digits: the year modulo 100, the month and the day |
| Barcode.FormatBarcode | src/auxiliary/product_barcode.rs:64 | a barcode is all digits: the date prefix, then at least 8 digits whose value is the index; 14 digits for an index below 10^8 |
| Barcode.FormatBarcodeInjective | src/auxiliary/product_barcode.rs:62-64 | on one date, different indices give different barcodes |
| Barcode.Fresh | src/auxiliary/product_barcode.rs:44-52 | a fresh generator starts at index 0 on the current date |
| Barcode.Advance | src/auxiliary/product_barcode.rs:54-65 | on a new day of the month the index resets to 0; the index handed out is the one stored, and the stored index grows by one |
| Barcode.SameDayConsecutive | src/auxiliary/product_barcode.rs:54-65 | two requests on the same day of the month get consecutive indices, hence different barcodes within one month |
| Barcode.SameDayNumberNoReset | src/auxiliary/product_barcode.rs:56-61 | the reset compares only the day of the month, so the same day number a month later does not reset |
| Barcode.Restore | src/auxiliary/product_barcode.rs:79-92 | a saved state is restored as saved; a missing or unreadable one gives a fresh generator |
| Barcode.BarcodeGenerator.constructor | src/auxiliary/product_barcode.rs:44-52 | a new generator's state is fresh at the current time |
| Barcode.BarcodeGenerator.Load | src/auxiliary/product_barcode.rs:79-92 | loading sets the state to the restored one |
| Barcode.BarcodeGenerator.Get | src/auxiliary/product_barcode.rs:54-65 | `get` returns the formatted barcode of the advanced state and stores the advanced state |
| Barcode.GetTwiceSameDate | src/auxiliary/product_barcode.rs:54-65 | two calls on the same date return different barcodes |
| ProductIds.FromParam | src/product_id.rs:8-14 | the legacy product id is accepted exactly when every character is ASCII alphanumeric, the empty id included |
| ProductIds.BarcodesAreProductIds | src/product_id.rs:8-14 | every all-digit barcode is also accepted as a legacy product id |
| Store.First | src/routes/product.rs:69-76 | a non-key lookup returns the matching row with the lowest id, or not-found when none matches |
| Store.Count | src/routes/product.rs:32-39 | the count is the number of matching rows: at most the table size, 0 exactly when no row matches, and the table size exactly when every row does |
| Store.UpdateWhere | src/routes/reports.rs:58-70 | a filtered update changes every matching row and only those |
| Store.PageOffset | src/routes/product.rs:109 | the offset is `page * 10` wrapped to 32 bits |
| Store.ListPage | src/routes/product.rs:122-131 | a page is at most 10 rows, drawn from the matching rows in id order; a negative offset is a database error |
| Store.ListPageSound | src/routes/product.rs:103-113 | every row of a page matches the filter |
| ProductRoutes.InitProduct | src/routes/product.rs:24-60 | the generator always advances; a barcode already on exactly one row is a duplicate; otherwise an `Initialized` row is inserted and the QR link is returned |
| ProductRoutes.GetProductDigest | src/routes/product.rs:63-94 | the first product with the barcode is returned exactly when the caller may view it, with each refusal's error |
| ProductRoutes.DigestVisibility | src/routes/product.rs:77-93 | once submitted, the profile's owner and staff see the product and other users are refused |
| ProductRoutes.GetProducts | src/routes/product.rs:117-132 | a page of all products in id order |
| ProductRoutes.GetFilteredProducts | src/routes/product.rs:97-114 | the page of products in the requested stage, in id order from offset `page * 10`; every row is in that stage; a negative offset is a database error |
| ProductRoutes.GetProduct | src/routes/product.rs:135-149 | the first product with the barcode, or not-found |
| ProductRoutes.GetProfileByProduct | src/routes/product.rs:152-172 | the profile linked to the barcode's first product; an unknown barcode or profile is not-found and an unlinked product a missing-profile error |
| ProductRoutes.SubmitSampleTime | src/routes/product.rs:175-235 | for the profile's owner, staff or an admin the sample time is written to the linked profile, and a `Submitted` or `Sampled` product makes every product with the barcode `Sampled`; an unlinked product, a missing profile or another user is refused and nothing changes |
| ProductRoutes.GetProductStatistics | src/routes/product.rs:238-285 | the statistics are the total and the count in each stage |
| ProductRoutes.StagesPartitionProducts | src/routes/product.rs:238-285 | the four stage counts add up to the total |
| ProfileRoutes.AfterSubmission | src/routes/profile.rs:46-57 | the submitted product is linked to the new profile and becomes `Submitted`, all else kept |
| ProfileRoutes.FiledProfile | src/routes/profile.rs:30-45 | the stored profile keeps the submitted data, is owned by the caller and stamped with the current time |
| ProfileRoutes.SubmitProfile | src/routes/profile.rs:14-65 | an unknown barcode is not-found; a product past `Initialized` is a reuse error; otherwise one profile is added and only that product is linked and `Submitted` |
| ProfileRoutes.SubmissionKeepsSelection | src/routes/profile.rs:46-57 | after a submission the barcode still selects the same, now `Submitted`, row |
| ProfileRoutes.SubmitTwice | src/routes/profile.rs:31-38 | a second submission for the same barcode is a reuse error and adds nothing |
| ProfileRoutes.GetProfile | src/routes/profile.rs:68-73 | the profile with the id, or not-found |
| ReportRoutes.FinishKeepsSelection | src/routes/reports.rs:58-70 | finishing keeps the barcode's selection; its rows are `Finished` and linked, other rows untouched |
| ReportRoutes.FileReport | src/routes/reports.rs:50-74 | the report is stored and the barcode's products finished; success exactly when one product matched |
| ReportRoutes.UploadReport | src/routes/reports.rs:26-75 | a failed file write is a server error with nothing stored; otherwise the report is filed under `<uuid>.pdf` with the download link |
| ReportRoutes.PublishedUrl | src/routes/reports.rs:149-160 | the link is the given one or the download base plus the filename; a missing filename is refused even when a link is given |
| ReportRoutes.PublishReport | src/routes/reports.rs:144-193 | a published report is filed like an upload, under the chosen link |
| ReportRoutes.FiledReportIsServed | src/routes/reports.rs:128-141 | after a filing that matched one product, the report's link is served and the product is `Finished` and linked |
| ReportRoutes.RemoveReport | src/routes/reports.rs:111-125 | a report is deleted exactly when it exists; deleting nothing is an input error |
| ReportRoutes.GetReports | src/routes/reports.rs:97-108 | a page of all reports |
| ReportRoutes.GetFilteredReports | src/routes/reports.rs:78-94 | the page of the uploader's reports, in id order from offset `page * 10`; every row is theirs; a negative offset is a database error |
| ReportRoutes.GetReportUrl | src/routes/reports.rs:128-141 | the report's download link, or not-found |
| UserRoutes.CookieJar.Add | src/routes/user.rs:45-82 | adding a cookie replaces any cookie of that name |
| UserRoutes.CookieJar.Remove | src/routes/user.rs:254-259 | removing a cookie deletes that name only |
| UserRoutes.IssueLogin | src/routes/user.rs:45-82 | a login answers the user's digest and sets a token cookie; a token failure is a server error |
| UserRoutes.Deliver | src/routes/user.rs:45-82 | the cookie is set exactly when the login succeeded |
| UserRoutes.LoginOutcome | src/routes/user.rs:45-82 | unknown user, unset password, a password-verifier error and a wrong password are each reported exactly when they occur; otherwise the user is logged in |
| UserRoutes.Login | src/routes/user.rs:45-82 | the login handler answers `LoginOutcome` and sets its cookie |
| UserRoutes.RegisteredUser | src/routes/user.rs:85-140 | a registered user has role `User`, the hashed password and no WeChat id |
| UserRoutes.Register | src/routes/user.rs:85-140 | a taken username is refused; a hashing failure is a server error; otherwise the user is inserted and logged in |
| UserRoutes.RegisterThenLogin | src/routes/user.rs:45-140 | a freshly registered user can log in with the same password |
| UserRoutes.WechatUser | src/routes/user.rs:262-348 | a WeChat user has role `User`, the nickname as username and the openid |
| UserRoutes.WechatLogin | src/routes/user.rs:262-348 | a missing openid or userinfo is refused; a known openid logs that user in without inserting; otherwise one user is inserted and logged in |
| UserRoutes.WechatUserFoundAgain | src/routes/user.rs:262-348 | after a first WeChat login the same openid finds the same user |
| UserRoutes.VerifyLogin | src/routes/user.rs:27-42 | the caller's user row, or not-found |
| UserRoutes.Logout | src/routes/user.rs:254-259 | the `token` cookie is removed |
| UserRoutes.ChangeUserRole | src/routes/user.rs:181-197 | the role changes exactly when the user exists; otherwise a server error |
| UserRoutes.RemoveUser | src/routes/user.rs:200-214 | the user is deleted exactly when present; otherwise a server error |
| UserRoutes.ChangePassword | src/routes/user.rs:217-251 | only the caller's own row can be changed, and the new hash is stored |
| UserRoutes.ChangedPasswordLogsIn | src/routes/user.rs:217-251 | after a change the new password logs in |
| UserRoutes.GetUsers | src/routes/user.rs:143-160 | the page of users with the requested role, in id order from offset `page * 10`; every row has that role; a negative offset is a database error |
| UserRoutes.GetAllUsers | src/routes/user.rs:163-178 | a page of all users |
| UserRoutes.GetUserStatistics | src/routes/user.rs:351-388 | the total and the count for each role |
| UserRoutes.RolesPartitionUsers | src/routes/user.rs:351-388 | the three role counts add up to the total |
| LegacyRoutes.GenStdJsonResponse | src/routes.rs:94-105 | status 200, `success` exactly when data is present, data and message kept |
| LegacyRoutes.FirstMatch | src/routes.rs:128-157 | `find_one` picks the first document in insertion order that matches, and none only when none matches |
| LegacyRoutes.FirstMatchAppend | src/routes.rs:128-157 | appending a document changes the first match only when there was none and the new one matches |
| LegacyRoutes.YearField | src/routes.rs:109 | a year from 0 to 9999 is written as four digits with its value |
| LegacyRoutes.Stamp | src/routes.rs:109 | the minute stamp is 12 digits holding the year, month, day, hour and minute |
| LegacyRoutes.NewUuidShape | src/routes.rs:109-113 | a new product id is 16 digits: the minute stamp and 4 random digits |
| LegacyRoutes.NewProduct | src/routes.rs:107-126 | a document with the new uuid, `init: false` and `delete: false` is appended and the uuid returned |
| LegacyRoutes.InitProduct | src/routes.rs:128-157 | a known uuid is reported as existing with nothing written; an unknown one gets a new `{uuid, init: false}` document |
| LegacyRoutes.QueryProfile | src/routes.rs:159-192 | always succeeds: `exist` is whether some document has the uuid, `init` the first such document's flag |
| LegacyRoutes.InitThenQuery | src/routes.rs:128-192 | after `init_product` on an unknown uuid, a query finds it, not yet initialised |
| LegacyRoutes.GetProfile | src/routes.rs:194-227 | a missing and an unfilled document are refused with their own messages; an initialised one answers its form, and one without a form panics |
| LegacyRoutes.GetProfileTotal | src/routes.rs:159-227 | on the documents the handlers leave, `get_profile` never panics and succeeds exactly when the query reports the document existing and initialised |
| LegacyRoutes.ErrcodeMessage | src/routes.rs:255-283 | errcode 0 is success; -1, 40029 and 45011 have their own messages and any other code a generic one |
| LegacyRoutes.SubmitProfile | src/routes.rs:229-327 | missing and initialised documents are answered with nothing written; a WeChat code is exchanged for the openid, a non-zero errcode refused with its message and a failed exchange panics; otherwise the form is set on the first matching document and the count says whether it changed |
| LegacyRoutes.Login | src/routes.rs:343-410 | an unknown user, a mismatched HMAC and a signing failure are refused with their messages; otherwise a `JWT` cookie holds the signed claims, expiring a week later |
| LegacyRoutes.RawRegister | src/routes.rs:412-454 | a taken username is refused; otherwise a document with the username and the HMAC of the password is appended |
| LegacyRoutes.RegisterThenLogin | src/routes.rs:343-454 | after registering a new username, logging in with the same password succeeds exactly when the token can be signed |
| LegacyAuth.JwtAuthService | src/auth.rs:25-44 | the guard passes exactly when the `JWT` cookie decodes, with a distinct refusal for a missing and an invalid cookie |
| LegacyAuth.OnlyJwtCookieMatters | src/auth.rs:25-44 | no cookie other than `JWT` affects the guard |
| LegacyAuth.LoginCookiePasses | src/auth.rs:25-44 | the cookie a login sets passes the guard |
| LegacyAuth.VerifyTokenAsWritten | src/routes.rs:330-341 | as written, the handler decodes the cookie's `JWT=<token>` display text and panics when that fails to decode |
| LegacyAuth.VerifyToken | src/routes.rs:330-341 | behind the guard, the handler answers the username of the `JWT` cookie's claims |
| LegacyAuth.VerifyTokenPanicsOnValidToken | src/routes.rs:330-341 | a token the guard accepts still makes the as-written handler panic |
| LegacyAuth.LoginThenVerify | src/routes.rs:330-410 | a token issued at login verifies to the username that logged in |

## Findings

| source | as written | input that shows it | evidently intended | confidence | as-written member | corrected member |
|---|---|---|---|---|---|---|
| src/routes.rs:333-337 | `verify_token` decodes `cookie.to_string()`, which is `JWT=<token>`, and unwraps the result | any request whose `JWT` cookie holds a valid token: the guard accepts it, then the handler decodes the prefixed text, fails and panics | decode the cookie's value, the token the guard already accepted, and answer its username | medium, not executed; it rests on the cookie library displaying a cookie as `name=value` and the JWT library refusing that text | LegacyAuth.VerifyTokenAsWritten, LegacyAuth.VerifyTokenPanicsOnValidToken | LegacyAuth.VerifyToken |

## Left out

- Database, file-system and network failures are not modelled. This covers:
  - the handlers' branches for a failed connection or statement;
  - the older service's insert, query and update error messages;
  - the server-error branches of `submit_sample_time`'s updates.
- Zero-row insert or update branches are not modelled. An insert always adds one row, and a keyed update of a row just read always touches it. So the `0 =>` arms of `init_product` and `submit_profile` cannot be reached here.
- Signing, verifying and hashing are uninterpreted parameters. This covers the JWT library, Argon2 and HMAC, and the lemmas state as `requires` what they need of them.
- The WeChat HTTP calls become the `openid` and `nickname` option parameters. The access-token cache in `src/auxiliary/wechat_access_token.rs` is not part of this model.
- Storing the uploaded PDF becomes the `stored` parameter, and the 20 MB size limit is not modelled.
- The uuid of a new report is generated by the store. It becomes the `reportId` parameter, required to be unused. Uuids are modelled as integers.
- Clock readings become `DateTime`/`Instant` parameters. `init_product` reads the clock twice, and the two readings are separate parameters. Calendar arithmetic (day of month, formatting) takes the date as given.
- Barcode.BarcodeGenerator.Get: the index is an unbounded `nat`, so the 32-bit overflow of `next_index` and a negative index in a saved state are not modelled. The read-then-write locking and the `save`/`Drop` persistence are not modelled either.
- Barcode.FromParam: accepts ASCII digits only, whereas Rust's `is_numeric` also accepts other Unicode numerals.
- ProfileRoutes.SubmitProfile: the code sets the new profile's id to 0 and inserts the full row. Every submission after the first would then collide on the key, and `Profile` is not declared insertable (src/models/profiles.rs:7), so the insert as written may not compile. The model gives the new profile the table's next serial id.
- Store.First: a `LIMIT 1` query without `ORDER BY` may return any matching row. The model fixes the choice as the lowest id.
- Rendering the responses' JSON is not modelled, and neither are the framework wiring, CORS, error catchers and the web front end. A guard's 401/403 status is modelled, but a handler error is always answered with 500.
- `get_users` and `change_user_role` have their admin guard commented out, so the model gives them no guard.
- The timestamp serialiser emits seconds, not the milliseconds its doc comment mentions; the model follows the code.
- The older service's `Profile` struct is not part of this model. Its form is modelled with the `openID` field the handlers read.
- Store.PageOffset: follows a release build, where `page * 10` wraps around in 32 bits; a debug build panics on that overflow instead, which is not modelled.
- Only the first `Authorization` header of a request is modelled, and header names are matched exactly, whereas the framework matches them without regard to case.
