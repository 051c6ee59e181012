# go-boilerplate core, modelled in Dafny

This project models the domain and service layers of `go-boilerplate`, a Go HTTP API. The modelled parts are:

- one-time login codes (OTP) and their table;
- two generations of authentication: OTP-based in `internal/domain/user`, and password-and-session in `internal/modules/auth`, `internal/modules/user` and `internal/modules/session`;
- the `fault` error taxonomy;
- pagination and search-parameter validation;
- duplicate-key detection on Postgres errors;
- categories with soft delete and reactivation;
- two generations of product CRUD, with a cache-aside read.

What the system depends on is reduced to abstract collaborators:

- **Tables** are classes holding a sequence of rows (`Store.Table`, `CodeRepository.CodeTable`).
- **The Redis cache** is a class holding a map with hit, miss and error outcomes (`Cache.Cache`).
- **Each driver or cache failure** is an `Option<Error>` parameter: `Some(e)` means that statement failed.
- **Time** is an integer clock in nanoseconds, passed in. One reading is used per call.
- **Access and refresh tokens** are their claims: user id and expiry.
- **Foreign helpers** are parameters: hashing, password matching, the e-mail rule, ids, random digits, the user-agent parser, `Slugify` and `ExtractFieldFromDetail`.

`Fault.Error` models Go's `error` values that reach the services:

- `FaultPtr` is a `*Fault`;
- `FaultVal` is a `Fault` value from the older constructors in `pkg/fault/instances.go`;
- `Pq` is a `*pq.Error`;
- `Wrapped` is `fmt.Errorf` with `%w`;
- `Plain` is any other error.

`GetTag` walks the unwrap chain as a loop and is proved equal to a recursive reading of the chain. It only recognises `*Fault`, so an error built by the value constructors has no tag. The HTTP writers also disagree about the older faults: `NewHTTPError` sends a value-constructed fault as 500, while `NewHTTPResponse` sends it with its own status. `FaultValue.GenerationsDisagree` states this.

The codes table keeps two invariants through every write: ids are unique, and each user has at most one active code. Each service method is tied by its postcondition to a function of the old state. Examples are `CodeService.VerifyOutcome` and `ModuleUserService.CreateUserOutcome`. The lemmas beside those functions prove what the source promises about them.

Some behaviours of the source as written are kept in the model:

- `price * 100` is computed in 64-bit two's complement (`DomainProduct.Mul64`). A large enough price wraps around to a small positive number of cents and is accepted (`DomainProduct.LargePriceWraps`).
- The name validators measure a name in UTF-8 bytes, as Go's `len` does. The two-letter name "éa" passes the modules product's three-character minimum, and a domain user or product name of 51 "é" exceeds the 100-character maximum.
- The domain users repository reports a missing id as "no row and no error". `Verify` then never reaches its NotFound branch (see Findings).

## Model

| member | source | states |
|---|---|---|
| Fault.Unwrap | pkg/fault/tag.go:31 | unwrapping strictly shortens the remaining error chain, so the GetTag walk terminates |
| Fault.Chain | pkg/fault/tag.go:25-32 | the chain GetTag visits starts with the error itself |
| Fault.GetTag | pkg/fault/tag.go:20-35 | the loop answers the tag of the first `*Fault` with a non-empty tag in the unwrap chain, UNTAGGED for nil or when there is none |
| Fault.TagIsFirstTaggedInChain | pkg/fault/tag.go:20-35 | the tag read off an error is the first tagged entry of its unwrap chain |
| Fault.FirstTaggedAt | pkg/fault/tag.go:26-31 | untagged entries before a tagged one are skipped; the tagged one decides |
| Fault.FirstTaggedNone | pkg/fault/tag.go:34 | a chain with no tagged `*Fault` yields UNTAGGED |
| Fault.WrappingKeepsTag | pkg/fault/tag.go:25-32 | any number of `fmt.Errorf` wrappings leave the tag and the reachable fault unchanged |
| Fault.TagLostByValueOrFlattening | pkg/fault/tag.go:26-31 | a Fault value, a fault flattened into a string, or a `*Fault` with an empty tag all read as UNTAGGED |
| Fault.NewKeepsFields | pkg/fault/fault.go:12-30 | New keeps status and tag; Error() is "tag: msg", plus " (caused by: …)" exactly when there is a cause |
| Fault.TagReadBack | pkg/fault/fault.go:21-26 | the tag can be read back from the text before the first colon of Error() |
| Fault.NameRoundTrip | pkg/fault/tag.go:7-18 | distinct tags have distinct names, and each name maps back to its tag |
| Fault.NameHasNoColon | pkg/fault/tag.go:7-18 | no tag name contains a colon, so the "tag: msg" text stays unambiguous |
| Fault.ConstructorTable | pkg/fault/instance.go:33-104 | each constructor's tag and HTTP status (422, 400, 404, 500, 401, 403, 409, 429, 422), with the message kept verbatim |
| Fault.HttpErrorStatus | pkg/fault/instance.go:12-31 | a reachable `*Fault` is answered with its own status, anything else with 500 |
| FaultValue.ConstructorTable | pkg/fault/instances.go:25-42 | the value constructors' status, tag name, message and cause |
| FaultValue.ResponseFault | pkg/fault/instances.go:8-23 | a Fault value is answered as is; anything else becomes a 500 INTERNAL_SERVER_ERROR fault carrying the error's text and the error as cause |
| FaultValue.ResponseStatus | pkg/fault/instances.go:8-23 | the status written is the one of the fault answered |
| FaultValue.GenerationsDisagree | pkg/fault/instances.go:8-23 | NewHTTPResponse answers a `*Fault` with 500, while GetTag and NewHTTPError do not see a Fault value |
| Pagination.GoQuot | pkg/pagination/pagination.go:27 | Go's truncating division agrees with Euclidean division on non-negative operands |
| Pagination.Meta | pkg/pagination/pagination.go:26-43 | echoes the inputs; previous/first/next/last flags are the comparisons of the current page with 1 and with the page count |
| Pagination.New | pkg/pagination/pagination.go:21-24 | the data is returned unchanged with the metadata of the counts |
| Pagination.TotalPagesIsCeiling | pkg/pagination/pagination.go:27 | the page count is the ceiling of items over page size: enough pages, not one too many, zero exactly for no items |
| Pagination.KnownCases | pkg/pagination/pagination_test.go:18-77 | the worked examples, e.g. 10 items by 3 give 4 pages and page 4 is the last |
| Pagination.LastPageHasNoNext | pkg/pagination/pagination.go:28-31 | within range, "has next" and "is last" are exclusive and exhaustive, as are "has previous" and "is first" |
| Search.SortError | internal/common/dto/search.go:18-21 | sort is accepted exactly when it is "DESC" or "ASC" |
| Search.PageError | internal/common/dto/search.go:22-26 | page is accepted exactly when it is at least 1 |
| Search.LimitError | internal/common/dto/search.go:27-31 | limit is accepted exactly when it is 10, 20, 50 or 100 |
| Search.Validate | internal/common/dto/search.go:14-33 | one entry per failing field and no other key |
| Search.ValidIff | internal/common/dto/search.go:14-33 | validation passes iff all three rules hold |
| Search.TermIsIgnored | internal/common/dto/search.go:14-33 | the search term is never inspected: changing it changes no error |
| Search.RejectedExamples | internal/common/dto/search.go:14-33 | lower-case or empty sort, zero or negative page and a limit of 25 are rejected; a valid set passes |
| DbUtil.SkipSpace | pkg/dbutil/dbutil.go:23 | `\s*` stops at the first non-whitespace character at or after its start |
| DbUtil.SkipSpaceSkipsSpace | pkg/dbutil/dbutil.go:23 | every character `\s*` passes over is whitespace, so the run it consumes is maximal |
| DbUtil.SkipSpaceStops | pkg/dbutil/dbutil.go:23 | `\s*` never passes a non-whitespace character |
| DbUtil.LazyEnd | pkg/dbutil/dbutil.go:23 | the lazy `(.*?)` stops at the first `\s*\)\s*=` and never crosses a newline |
| DbUtil.GroupBounds | pkg/dbutil/dbutil.go:23-25 | the captured group starts after the spaces following "(" and ends at the first closing pattern |
| DbUtil.AsPq | pkg/dbutil/dbutil.go:21 | errors.As finds a `*pq.Error` only through `fmt.Errorf` wrapping |
| DbUtil.VerifyDuplicatedConstraintKey | pkg/dbutil/dbutil.go:18-31 | nil unless the error is a 23505 `*pq.Error`; otherwise a 409 Conflict "field <f> is already taken" naming the captured column |
| DbUtil.FieldIsTrimmed | pkg/dbutil/dbutil.go:22-25 | the captured column has no newline and no surrounding whitespace |
| DbUtil.FieldIsLeftmost | pkg/dbutil/dbutil.go:24-25 | the submatch is taken at the leftmost position where the pattern matches |
| DbUtil.LazyEndScan | pkg/dbutil/dbutil.go:23 | the lazy group ends at the first position where the closing pattern matches |
| DbUtil.ColumnBounds | pkg/dbutil/dbutil.go:23 | in Postgres' detail text the captured group spans exactly the column name |
| DbUtil.ColumnDoesNotClose | pkg/dbutil/dbutil.go:23 | no position inside a column name without ')' or trailing whitespace ends the lazy group |
| DbUtil.ColumnRoundTrip | pkg/dbutil/dbutil.go:22-25 | from Postgres' "Key (col)=(val) already exists." detail the column is read back exactly |
| DbUtil.DuplicateNamesColumn | pkg/dbutil/dbutil.go:18-28 | a unique violation on a column yields the Conflict naming that column, wrapped or not |
| DbUtil.OtherErrorsPass | pkg/dbutil/dbutil.go:19-30 | other Postgres codes, faults and plain errors yield nil |
| Token.Gen | internal/infra/http/token/token.go:12-29 | fails exactly when the secret is not 32 bytes long in UTF-8; otherwise claims for that user expiring `duration` after now |
| Token.SecretLengthInBytes | internal/infra/http/token/token.go:13 | the key length is a byte count: 32 ASCII characters pass; 16 two-byte characters pass and 32 of them do not |
| Token.Valid | pkg/token/claims.go:27-31 | "token has expired" exactly when now is past the expiry |
| Token.FreshTokenLifetime | pkg/token/claims.go:27-31 | a freshly generated token is valid through its whole lifetime and expired after it |
| Store.Find | internal/domain/product/repository.go:74-88 | a lookup returns a matching row, or nothing exactly when no row matches |
| Store.UpdateWhere | internal/domain/product/repository.go:134-152 | rewrites exactly the matching rows, in place, keeping the others and the order |
| Store.DeleteWhere | internal/domain/product/repository.go:28-38 | keeps exactly the rows that do not match |
| Store.Table.Read | internal/domain/product/repository.go:74-88 | a SELECT by predicate: the driver's error, or a matching row, or "no row" exactly when none matches |
| Store.Table.Insert | internal/domain/product/repository.go:106-132 | appends the row unless the driver fails, which leaves the table unchanged |
| Store.Table.Update | internal/domain/product/repository.go:134-152 | rewrites the matching rows unless the driver fails |
| Store.Table.Delete | internal/domain/product/repository.go:28-38 | removes the matching rows unless the driver fails |
| Store.UpdateWhereKeepsOthers | internal/domain/product/repository.go:134-152 | an UPDATE leaves every non-matching row in the table |
| Store.UpdateWhereReaches | internal/domain/product/repository.go:134-152 | an UPDATE's new value is in the table for every matched row |
| Store.FindAfterUpdate | internal/domain/product/repository.go:134-152 | after an UPDATE by a key the updated row keeps, a lookup by that key finds the updated row |
| CodeEntity.Code.FromModel | internal/domain/code/entity.go:29-41 | round trip: Model() of the entity built from m is m |
| CodeEntity.Code.New | internal/domain/code/entity.go:43-60 | a new code is active, with 0 attempts and no use, six digits, expiring 3 minutes after creation, created == updated |
| CodeEntity.Code.IsExpired | internal/domain/code/entity.go:62-64 | expired iff strictly past expiresAt, so not expired at that instant |
| CodeEntity.Code.IsMaxAttempts | internal/domain/code/entity.go:66-68 | exhausted iff at least 3 attempts |
| CodeEntity.Code.Deactivate | internal/domain/code/entity.go:70-73 | only `active` and `updatedAt` change |
| CodeEntity.Code.IncrementAttempt | internal/domain/code/entity.go:75-78 | attempts rises by exactly one; only `updatedAt` changes besides |
| CodeEntity.Code.MarkAsUsed | internal/domain/code/entity.go:80-85 | usedAt becomes now and the code inactive, with updatedAt == usedAt |
| CodeEntity.ThirdAttemptExhausts | internal/domain/code/entity.go:66-78 | a new code is not exhausted after two increments and is after the third |
| CodeRepository.ActiveRow | internal/domain/code/repository.go:50-69 | finds an active code of the user, and none exactly when the user has none |
| CodeRepository.CodeTable.GetByUserID | internal/domain/code/repository.go:50-69 | an active row of the user; a NotFound-tagged fault when none; the driver failure wrapped otherwise |
| CodeRepository.CodeTable.Update | internal/domain/code/repository.go:26-48 | rewrites the row matching id and user, or leaves the table unchanged on failure |
| CodeRepository.CodeTable.InactivateAll | internal/domain/code/repository.go:71-85 | deactivates the user's codes, or leaves the table unchanged on failure |
| CodeRepository.CodeTable.Insert | internal/domain/code/repository.go:87-121 | appends the row with all its fields, or leaves the table unchanged on failure |
| CodeRepository.InactivateAllEffect | internal/domain/code/repository.go:71-85 | afterwards the user has no active code; other users' rows and active codes are untouched |
| CodeRepository.InactivateAllKeepsValid | internal/domain/code/repository.go:71-85 | unique ids and at most one active code per user survive the bulk deactivation |
| CodeRepository.UpdateKeepsValid | internal/domain/code/repository.go:26-48 | an update of a user's active code (or one that deactivates) keeps both table invariants |
| CodeRepository.UpdateKeepsIdentity | internal/domain/code/repository.go:26-48 | id, user, digits and creation time are never rewritten; rows not matching both id and user are unchanged |
| CodeRepository.InsertAfterInactivate | internal/domain/code/service.go:103-121 | deactivate-then-insert leaves the new code as the user's only active code and keeps the invariants |
| CodeService.VerifyCode | internal/domain/code/service.go:39-101 | answer and table are those of VerifyOutcome on the old table; the invariants hold afterwards |
| CodeService.CreateCode | internal/domain/code/service.go:103-121 | BadRequest with no insert when deactivation fails; BadRequest when the insert fails; otherwise the new code is the user's only active one |
| CodeService.DecideCountsAttempt | internal/domain/code/service.go:51-52 | every decision writes the code back with exactly one more attempt and the same identity |
| CodeService.ExpiredIsForbidden | internal/domain/code/service.go:54-64 | an expired code is Forbidden (403) even with the right digits, and stays as active as it was |
| CodeService.LimitCountsThisAttempt | internal/domain/code/service.go:66-76 | a live code stored with 2 attempts is refused as exhausted even with the right digits |
| CodeService.MismatchIsSoft | internal/domain/code/service.go:78-88 | a wrong code on a live code answers false without error and leaves it active |
| CodeService.AcceptIff | internal/domain/code/service.go:51-100 | accepted iff not expired, not exhausted after counting, and matching; acceptance marks it used and inactive |
| CodeService.FreshCodeAccepts | internal/domain/code/service.go:51-100 | a fresh code accepts its own digits up to its expiry |
| CodeService.NoCodeNoWrite | internal/domain/code/service.go:40-49 | a failed lookup or no active code writes nothing: NotFound for none, BadRequest for a failure |
| CodeService.FailedWriteIsBadRequest | internal/domain/code/service.go:58-96 | a failed write-back turns every decision, acceptance included, into BadRequest |
| CodeService.WriteCountsAttempt | internal/domain/code/service.go:51-58 | exactly the loaded row is rewritten, with one more attempt; every other row is unchanged |
| CodeService.AcceptedCodeIsConsumed | internal/domain/code/service.go:90-100 | after acceptance the user has no active code, so a code works once |
| DomainUser.User.Model | internal/domain/user/entity.go:69-77 | copies id, name, email and timestamps verbatim |
| DomainUser.Validate | internal/domain/user/entity.go:43-67 | passes iff the name is 3..100 bytes long in UTF-8 and the e-mail is non-empty and well-formed; otherwise the validation fault |
| DomainUser.NewEntity | internal/domain/user/entity.go:27-41 | an entity exactly for valid input (a 3..100-byte name, a well-formed e-mail); otherwise a ValidationError-tagged 422 and no entity |
| DomainUser.NameBounds | internal/domain/user/entity.go:43-67 | names of 0 or 2 bytes or over 100 characters and an empty e-mail are rejected |
| DomainUser.NameLengthInBytes | internal/domain/user/entity.go:49-53 | the name length is a byte count: "éé" is accepted, and a run of "é" passes up to 50 characters and fails from 51 on |
| DomainUserService.Response | internal/domain/user/service.go:163-169 | the cached view copies id, name, e-mail and timestamps |
| DomainUserService.VerifyAnswer | internal/domain/user/service.go:77-94 | a code error passes through unchanged; false is Conflict "incorrect otp code"; success (secret 32 bytes long) carries the asked id and a token expiring after the access duration |
| DomainUserService.Verify | internal/domain/user/service.go:62-95 | a failed user lookup is BadRequest and leaves the codes; otherwise the codes change as VerifyCode does and the answer is VerifyAnswer |
| DomainUserService.VerifyExisting | internal/domain/user/service.go:65-75 | as Verify, but an id with no user row is NotFound and the codes are left alone |
| DomainUserService.Login | internal/domain/user/service.go:97-121 | NotFound for an unknown e-mail, BadRequest for other lookup or code failures; on success the user's only active code is the new one |
| DomainUserService.GetSignedUser | internal/domain/user/service.go:123-180 | Unauthorized without claims; a cache hit answers from the cache; otherwise a lookup failure is BadRequest, a missing id NotFound, and the stored user is answered and cached under "user:<id>" for 30 minutes, a failed cache write ignored |
| DomainUserService.SignedLookupAsWritten | internal/domain/user/service.go:150-165 | the lookup step as written: a found row is answered; the step ends in a nil dereference exactly when the repository found no row |
| DomainUserService.MissingSignedUserPanics | internal/domain/user/service.go:150-165 | as written, a missing id reaches the nil dereference and a driver failure is always BadRequest: the NotFound branch is dead |
| DomainUserService.Register | internal/domain/user/service.go:182-238 | a validation fault returned unchanged; a unique violation becomes dbutil's Conflict; other insert failures BadRequest; otherwise one row appended |
| DomainUserService.VerifyAnswerShape | internal/domain/user/service.go:82-94 | refusal is a Conflict; acceptance yields the asked id with its token when the secret is 32 bytes long, BadRequest otherwise |
| DomainUserService.UnknownUserIsVerified | internal/domain/user/service.go:62-95 | as written, a code left for an id with no user row is still exchanged for a token |
| DomainUserService.CodeErrorsPassThrough | internal/domain/user/service.go:77-80 | an error of the code service reaches the caller unchanged |
| ModuleUser.User.ToModel | internal/modules/user/user.go:51-64 | copies every field verbatim |
| ModuleUser.ToModelInjective | internal/modules/user/user.go:51-64 | distinct users give distinct models: nothing is lost in the copy |
| ModuleUser.Validate | internal/modules/user/user.go:66-81 | reports the first empty field in the order name, password, email, username; passes iff none is empty |
| ModuleUser.New | internal/modules/user/user.go:25-49 | a hash failure is returned before validation; a new user is not enabled, not locked, has no avatar and stores the hash |
| ModuleUser.ValidationOrder | internal/modules/user/user.go:66-81 | concrete inputs show each message in its place in the order |
| ModuleUserService.InsertFault | internal/modules/user/service.go:45-52 | a unique violation is Conflict "<field> already taken"; anything else BadRequest |
| ModuleUserService.CreateUserOutcome | internal/modules/user/service.go:29-55 | errors leave the table; success appends one new, disabled, unlocked user with that e-mail and the hashed password, whose e-mail was not taken |
| ModuleUserService.CreateUser | internal/modules/user/service.go:29-55 | the error and the new table are those of CreateUserOutcome |
| ModuleUserService.CreateUserKeepsEmailsUnique | internal/modules/user/service.go:30-36 | e-mails stay unique across a creation |
| ModuleUserService.DuplicateInsertIsConflict | internal/modules/user/service.go:45-49 | Postgres 23505 on insert is a Conflict naming the field |
| ModuleUserService.OtherInsertErrorIsBadRequest | internal/modules/user/service.go:50-52 | any other insert failure is BadRequest "failed to insert user" |
| ModuleUserService.Answer | internal/modules/user/service.go:57-79 | store error BadRequest, absence NotFound, otherwise the record unchanged |
| ModuleUserService.GetUserByEmail | internal/modules/user/service.go:57-67 | success iff a row has that e-mail, and then it is such a row; otherwise NotFound or BadRequest |
| ModuleUserService.GetUserByID | internal/modules/user/service.go:69-79 | success iff a row has that id, and then it is such a row; otherwise NotFound or BadRequest |
| Session.AgentLabel | internal/modules/session/service.go:35-37 | the agent is exactly "<browser> em <os>" |
| Session.AgentLabelReadBack | internal/modules/session/service.go:35-37 | for a browser name without spaces, the first " em " of the label is the separator: cutting there gives back browser and os |
| Session.CreateSession | internal/modules/session/service.go:29-53 | the user lookup's BadRequest/NotFound passes through; entity failure 422; insert failure 400; success appends one active session and returns its id |
| Auth.Admit | internal/modules/auth/service.go:210-228 | admitted iff the password matches, the user is unlocked and enabled; failures in that order: 401 invalid credentials, LOCKED_USER, DISABLED_USER |
| Auth.LockedBeforeDisabled | internal/modules/auth/service.go:214-228 | a locked user with the right password sees LOCKED_USER/401, whether or not they are enabled |
| Auth.DeactivateAllRows | internal/modules/auth/service.go:230-234 | none of the user's sessions is active afterwards; other users' sessions are untouched |
| Auth.DeactivateAllIsPerUser | internal/modules/auth/service.go:230-234 | every session of another user survives the deactivation |
| Auth.LoginLeavesOneActiveSession | internal/modules/auth/service.go:230-254 | after deactivate-then-insert the new session is the user's only active one |
| Auth.BothTokens | internal/modules/auth/service.go:236-243 | the access token's failure comes first, then the refresh token's |
| Auth.Login | internal/modules/auth/service.go:200-263 | lookup failure 400, unknown e-mail 404, admission failures untouched sessions; then sessions deactivated before anything else fails (a secret not 32 bytes long is 401); success returns the new session id and both tokens and leaves one active session |
| Auth.Activate | internal/modules/auth/service.go:113-140 | missing user NotFound; an enabled user EXPIRED/400 and no update; otherwise exactly that user becomes enabled |
| Auth.Logout | internal/modules/auth/service.go:67-111 | Unauthorized without claims; NotFound without an active session; otherwise that session is stored inactive and a failed cache delete is ignored |
| Auth.Project | internal/modules/auth/service.go:157-166 | the response copies every public field of the user |
| Auth.ProjectionHidesPassword | internal/modules/auth/service.go:157-166 | the response does not depend on the password (nor on `enabled`) |
| Auth.GetSignedUser | internal/modules/auth/service.go:142-169 | Unauthorized without claims; success iff the user exists, with its projection; otherwise NotFound or BadRequest |
| Auth.Register | internal/modules/auth/service.go:171-198 | the error and new users table are those of CreateUserOutcome |
| Category.RepoError | internal/domain/category/repository.go:134-150 | "no row" is a NotFound-tagged fault; driver failures are untagged |
| Category.ToResponse | internal/domain/category/service.go:56-66 | the response copies the record's fields |
| Category.FindAll | internal/domain/category/service.go:36-72 | BadRequest on a store error; otherwise every record mapped in order, paginated with the store's total |
| Category.Create | internal/domain/category/service.go:74-134 | an inactive category of that name is reactivated and nothing inserted; otherwise a new active row is inserted, a duplicate giving dbutil's Conflict |
| Category.Delete | internal/domain/category/service.go:136-165 | missing or already deleted is NotFound with no write; otherwise only that row is soft-deleted |
| Category.GetByID | internal/domain/category/service.go:167-189 | success iff the row exists, deleted or not; otherwise NotFound or BadRequest |
| Category.DeleteKeepsRow | internal/domain/category/service.go:151-160 | a soft delete keeps the row, now inactive with deletedAt == now |
| Category.ReactivateUndoesDelete | internal/domain/category/service.go:87-101 | reactivation leaves the row active with no deletedAt |
| DomainProduct.Mul64 | internal/domain/product/entity.go:31 | Go's int64 product: congruent to the true product modulo 2^64, and equal to it when it fits |
| DomainProduct.CentsExact | internal/domain/product/entity.go:31 | for every price that does not overflow, the stored value is price * 100 |
| DomainProduct.LargePriceWraps | internal/domain/product/entity.go:31 | price 184467440737095517 wraps to 84 cents and is accepted |
| DomainProduct.Validate | internal/domain/product/entity.go:63-87 | passes iff the name is 3..100 bytes long in UTF-8 and the price at least 1; otherwise the 422 validation fault |
| DomainProduct.NewEntity | internal/domain/product/entity.go:27-41 | a product with the price in cents exactly when the stored values validate (a 3..100-byte name, at least 1 cent); otherwise a ValidationError/422 and no product |
| DomainProduct.PriceBoundary | internal/domain/product/entity.go:63-76 | prices 0 and -1 are rejected; price 1 is stored as 100 cents |
| DomainProduct.NameBoundary | internal/domain/product/entity.go:63-76 | ASCII names of 2 and 101 characters are rejected; 3 and 100 accepted |
| DomainProduct.NameLengthInBytes | internal/domain/product/entity.go:69-73 | the name length is a byte count: "éé" is accepted, and a run of "é" passes up to 50 characters and fails from 51 on |
| DomainProduct.ToResponse | internal/domain/product/service.go:64-73 | the response copies the record's fields |
| DomainProduct.Product.FromModel | internal/domain/product/entity.go:43-51 | round trip: Model() of the entity built from m is m |
| DomainProduct.Product.ChangeName | internal/domain/product/entity.go:53-56 | only name and updated change |
| DomainProduct.Product.ChangePrice | internal/domain/product/entity.go:58-61 | only price and updated change, with no cents conversion |
| Utf8.Utf8Length | internal/modules/product/entity.go:65 | Go's len: the UTF-8 byte count, between the rune count and four times it |
| Utf8.AsciiLength | internal/modules/product/entity.go:65 | on ASCII text the byte count is the character count |
| ModuleProduct.Validate | internal/modules/product/entity.go:60-74 | first failure wins: empty name, name under 3 bytes, price under 1, each a 422 |
| ModuleProduct.New | internal/modules/product/entity.go:24-38 | a product with the price in cents exactly when the stored values validate; otherwise validate's fault |
| ModuleProduct.NoUpperBound | internal/modules/product/entity.go:60-74 | any ASCII name of at least 3 characters is accepted, however long |
| ModuleProduct.LengthCountsBytes | internal/modules/product/entity.go:65-67 | the two-character "éa" passes the 3-character minimum; "ab" does not |
| ModuleProduct.FirstFailureWins | internal/modules/product/entity.go:60-74 | an empty name is reported before a bad price |
| DomainProductService.GetProducts | internal/domain/product/service.go:43-79 | BadRequest on a store error; otherwise every record mapped in order and paginated |
| DomainProductService.CreateProduct | internal/domain/product/service.go:81-118 | entity fault unchanged; duplicate dbutil's Conflict; other failures BadRequest; otherwise the product appended |
| DomainProductService.GetProductByID | internal/domain/product/service.go:120-168 | a cache hit answers without the store; otherwise BadRequest, NotFound, or the stored product cached under "prod:<id>" for 30 minutes |
| DomainProductService.DeleteProduct | internal/domain/product/service.go:170-210 | missing is NotFound with no delete; after the delete "prod:<id>" is evicted; a cache failure is 500 though the row is gone |
| DomainProductService.UpdateProduct | internal/domain/product/service.go:212-232 | missing is NotFound; otherwise that row gets the new name, price and update time |
| DomainProductService.UpdatedRowCarriesInput | internal/domain/product/service.go:212-232 | after the update a lookup by id finds exactly the new name and price |
| DomainProductService.DeleteRemovesId | internal/domain/product/service.go:170-210 | after the delete no row has that id |
| ModuleProductService.GetProducts | internal/modules/product/service.go:40-60 | BadRequest on a store error; otherwise every record mapped in order and paginated |
| ModuleProductService.InsertFault | internal/modules/product/service.go:69-80 | 23505 is Conflict "field: <f> already taken"; other failures BadRequest |
| ModuleProductService.DuplicateIsConflict | internal/modules/product/service.go:69-80 | a unique violation answers 409 naming the field |
| ModuleProductService.CreateProduct | internal/modules/product/service.go:62-83 | entity fault unchanged; insert failures as InsertFault; otherwise the product appended |
| ModuleProductService.GetProductByID | internal/modules/product/service.go:85-127 | a cache hit answers without the store; otherwise BadRequest, NotFound, or the stored product cached for 30 minutes |
| ModuleProductService.DeleteProduct | internal/modules/product/service.go:129-145 | missing is NotFound; otherwise the row is deleted and the cache is not touched |
| ModuleProductService.UpdateProduct | internal/modules/product/service.go:147-167 | missing is NotFound; otherwise that row gets the new name, price and update time |

## Left out

- HTTP handlers, routing, middleware, the rate limiter, configuration, logging and metrics have no service logic. The same goes for mail delivery and the response writing of `NewHTTPError` and `NewHTTPResponse`; only their choice of status is modelled.
- SQL text, row scanning, full-text search and OFFSET arithmetic are left out. The product and category listing queries are inputs: the page of records and the total.
- `dbutil.ExecTx` is a transaction wrapper with no logic to state.
- JWT signing and parsing, password hashing and matching, `nanorand`, `uid`, `Slugify`, the user-agent parser and the ozzo e-mail rule are foreign code and appear as parameters. Only the 32-byte secret check and the expiry check of the claims are kept.
- The repository `Delete` and `Update` of the domain products store are taken to be row-level: delete removes the row with that id, and update rewrites it.
- The modules users and sessions repositories are modelled where their code is given. `GetByID` and `GetByEmail` answer a missing row with no record and no error (internal/modules/user/repository.go:29-31 and 57-59), which `ModuleUserService.GetUserByEmail` and `GetUserByID` follow. A failed insert is wrapped with `fmt.Errorf` (internal/modules/user/repository.go:98, internal/modules/session/repository.go:102), which `ModuleUserService.InsertError` and `Session.InsertError` are. The sessions `GetActiveByUserID` (internal/modules/session/repository.go:23-42) reads the first active session of the user, as `Auth.Logout` does.
- The sessions `Update` and `DeactivateAll` and the users `Update`, all called by the auth service, and the whole modules products repository are not part of this model. Their effects are assumed: `Update` rewrites the row with that id, `DeactivateAll` sets `active` false on that user's sessions only, and the products repository behaves as `Store.Table`.
- `dbutil.ExtractFieldFromDetail`, `session.New`, the session `Deactivate`, `user.Enable` and `user.NewFromModel` are not part of this model. Their effects are assumed: a deactivated session has `active` false, and an enabled user has `enabled` true.
- The option-style `fault.New` and `WithValidationError` are not part of this model. A fault they build is a `*Fault` with the given status and tag, and the validation field messages are not kept. The domain repositories wrap a failed INSERT as `fault.New("failed to insert …", fault.WithError(err))` (internal/domain/product/repository.go:128, internal/domain/user/repository.go:64, internal/domain/category/repository.go:87). The model drops that wrapper: `Store.Table.Insert` hands the driver error itself to the domain services, so `dbutil` sees the `*pq.Error` directly. That matches the source only if the option-style `Fault` exposes its cause to `errors.As`, which cannot be checked here; `Fault.Unwrap` follows pkg/fault/fault.go, whose `Fault` has no cause in the chain.
- Each service reads the clock once, so every `time.Now()` in one call sees the same instant.
- Cache entries keep their TTL but never expire.
- The background goroutine of `Logout` (internal/modules/auth/service.go:95-108) is concurrent work and is not modelled. The welcome mail of `Register` is not modelled either.
- The modules product entity's `NewFromModel`, `ChangeName`, `ChangePrice` and `Model` are the same code as the domain product's, and the model uses `DomainProduct.Product` for both.
- Token.Gen: the `NewClaims(userId, duration)` that internal/infra/http/token/token.go:17 calls is not in the source. The only `NewClaims` (pkg/token/claims.go:15-25) takes four arguments and returns an empty `Claims` with no expiry set. That Gen yields claims for the user expiring `duration` after now is an assumption of the model.
- Token.FreshTokenLifetime: it applies `Valid` to claims whose expiry is the one Gen is assumed to set; with the empty claims of pkg/token/claims.go:24 the source's `Valid` would read a nil `ExpiresAt`.
- DomainUserService.Login: the domain users repository's `GetByEmail` is not part of this model. A missing e-mail is taken to come back as a NotFound-tagged fault, the case the service tests for.
- DbUtil.VerifyDuplicatedConstraintKey: a 23505 detail string without the `Key (…)=` pattern makes `matches[1]` panic. A precondition excludes it, and callers carry the same precondition.
- Category.FindAll, DomainProductService.GetProducts, ModuleProductService.GetProducts: a limit of 0 would divide by zero in the pagination. The precondition `limit != 0` excludes it; the search validator never admits it.

## Findings

| source | as written | input that shows it | evidently intended | confidence | as-written member | corrected member |
|---|---|---|---|---|---|---|
| internal/domain/user/service.go:65-75 | the NotFound branch tests the lookup's error, but internal/domain/user/repository.go:33-35 returns no error for a missing id, so the code check runs for any id | an id with no user row (say, a user since deleted) that still has an active code, submitted with that code | a missing user is NotFound "user not found" before any code is looked at | high; not executed | DomainUserService.UnknownUserIsVerified | DomainUserService.VerifyExisting |
| internal/domain/user/service.go:150-165 | the NotFound branch tests the lookup's error, but internal/domain/user/repository.go:33-35 returns no record and no error for a missing id, and `record.ID` is then read from the nil record | a signed-in user whose row is gone (say, deleted after the token was issued) on a cache miss | a missing user is NotFound "user not found" | high; not executed | DomainUserService.MissingSignedUserPanics | DomainUserService.GetSignedUser |
