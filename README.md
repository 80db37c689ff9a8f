# Gemstone valuation app: a Dafny model of the accounts back end and its pages

This project models the account and reference-data core of a gemstone valuation
web application. It proves properties of that model in Dafny.

The **back end** is modelled as follows:

- **The user store.** Users carry a role looked up in a seeded `roles` table.
  Cutters, dealers and appraisers each have a profile. A cutter also has
  portfolio items and skills. The store is one class holding a map per table.
  Transactions are modelled as a snapshot that is restored on ROLLBACK. The
  dynamic `UPDATE ... SET` statements are modelled as a list of `$n`
  assignments whose meaning is proved column by column.
- **The authentication service.** Covers login, sign-up, e-mail verification,
  the forgotten-password request and the password reset. Tokens are issued
  and checked here.
- **The user service.** Covers profile reading and editing, password changes
  and the portfolio items themselves (add, edit, delete, each with its
  ownership checks). It also lists cutters and shows a cutter's details.
- **The request validators and the authentication middleware.** The
  middleware takes the bearer token from the header, and there are role
  guards.
- **The gemstone-family repository and its service.**

The **front end** is modelled as follows:

- **The cutter directory's filters.**
- **The sign-up page.** Covers its local checks, the body it sends and the
  reset after success.
- **The "add portfolio item" dialog.** It keeps two lists in step: the images
  and their preview URLs.
- **The skill list.** A stable sort by proficiency, and five level markers
  per skill.
- **The administrators' gemstone-family page.** Category counts, badge
  colours and the hardness column.

The values of JavaScript are modelled explicitly. `JsValue<T>` distinguishes
`undefined`, `null` and a value, and the `TruthyX` predicates give the
truthiness tests (`x || y`, `if (x)`) that the code relies on. A password
digest is an ideal collision-free function (`Credentials.Hash`). bcrypt's
salt is not modelled. Random bytes, the clock and the JWT signer/decoder are
parameters of the operations that use them.

The modules, dependencies first:

- **Helpers:**
  - `Wrappers`: Option and Result.
  - `JsValues`: JavaScript values and truthiness.
  - `Text`: ASCII classes, lower-casing, substring search, split/join and
    number printing.
  - `Seqs`: filter, stable insertion sort, and ascending enumeration of a set.
  - `Credentials`: digests, hex tokens and JWT claims.
  - `SqlUpdate`: the SET-list builder.
- **Back end:**
  - `UserStore`: the user model.
  - `AuthValidator` and `UserValidator`: the request validators.
  - `AuthService`.
  - `UserService`.
  - `AuthMiddleware`.
  - `ReferenceDataStore`: the repository.
  - `ReferenceDataService`.
- **Front end:**
  - `AllCutters`.
  - `RegisterPage`.
  - `PortfolioModal`.
  - `SkillsList`.
  - `GemstoneFamiliesPage`.

## Model

| member | source | states |
|---|---|---|
| UserStore.RoleIdByName | packages/backend/src/db/models/user.model.ts:100-111 | a role id is found exactly when some seeded role has the name, and the id found belongs to a role of that name (the first row, like `rows[0]`) |
| UserStore.RoleNameById | packages/backend/src/db/models/user.model.ts:16-38 | the LEFT JOIN on `roles` gives a name exactly when the user's role id names a seeded role, and that role carries the name |
| UserStore.RoleLookupRoundTrip | packages/backend/src/db/models/user.model.ts:100-111 | with distinct role ids, looking up the id of a name and then the name of that id gives the name back |
| UserStore.NewUserRow | packages/backend/src/db/models/user.model.ts:113-142 | the inserted user row: the given name, the e-mail, the digest of the password and the role id; `isVerified` only when it is given as true; each optional text column set exactly when the input is truthy, and then to the input's text; no reset token, no last login |
| UserStore.NewCutterProfile | packages/backend/src/db/models/user.model.ts:144-175 | a new cutter profile: expertise level defaults to `Beginner`, availability to true unless given, experience only when truthy, not verified, no tools |
| UserStore.NewDealerProfile | packages/backend/src/db/models/user.model.ts:177-204 | a new dealer profile: company name, licence and years in business set exactly when the input is truthy, and then to the input's value; the specialty types as given or null |
| UserStore.PatchUserKeeps | packages/backend/src/db/models/user.model.ts:227-301 | an update never changes the id, the creation time or the last login, and always sets `updated_at` to the time of the update |
| UserStore.PatchNothing | packages/backend/src/db/models/user.model.ts:293-298 | an update with no fields changes only `updated_at` |
| UserStore.ApplyUserPatch | packages/backend/src/db/models/user.model.ts:227-304 | executing a SET list whose assignments give each column its intended value yields the patched row |
| UserStore.UserFieldsDistinct | packages/backend/src/db/models/user.model.ts:232-291 | the user update's field list names no column twice |
| UserStore.UserFieldAt | packages/backend/src/db/models/user.model.ts:232-291 | every column sits at its own place in the source-ordered field list, carrying the value or "keep" the input asks for |
| UserStore.UserFieldsMeaning | packages/backend/src/db/models/user.model.ts:232-291 | for every column, the last assignment in the field list is the input's value for that column, or "keep" when the field is undefined |
| UserStore.BuildUserUpdate | packages/backend/src/db/models/user.model.ts:227-302 | the built statement is well formed (placeholders `$1..$n` in order, the id as the last value in `WHERE id = $n`), and executing it on any row gives the patched row |
| UserStore.PatchCutter | packages/backend/src/db/models/user.model.ts:324-371 | a cutter-profile update keeps the id, the owner, the creation time, the tools and the verification flag |
| UserStore.ApplyCutterPatch | packages/backend/src/db/models/user.model.ts:324-371 | executing the cutter SET list gives the patched profile |
| UserStore.CutterFieldsMeaning | packages/backend/src/db/models/user.model.ts:328-363 | the last assignment to each cutter column is the intended value, or "keep" |
| UserStore.BuildCutterUpdate | packages/backend/src/db/models/user.model.ts:324-371 | the cutter statement is well formed, targets the profile id, and executing it gives the patched profile |
| UserStore.PatchDealer | packages/backend/src/db/models/user.model.ts:418-450 | a dealer-profile update keeps the id, the owner and the creation time |
| UserStore.ApplyDealerPatch | packages/backend/src/db/models/user.model.ts:418-450 | executing the dealer SET list gives the patched profile |
| UserStore.DealerFieldsMeaning | packages/backend/src/db/models/user.model.ts:422-442 | the last assignment to each dealer column is the intended value, or "keep" |
| UserStore.BuildDealerUpdate | packages/backend/src/db/models/user.model.ts:418-450 | the dealer statement is well formed, targets the profile id, and executing it gives the patched profile |
| UserStore.TablesValidLater | packages/backend/src/db/models/user.model.ts:206-211 | a consistent snapshot stays consistent when the id sequences have moved on, so a ROLLBACK restores a consistent store |
| UserStore.RolesResolvePut | packages/backend/src/db/models/user.model.ts:264-270 | writing a user row whose role id names a seeded role keeps every user's role resolvable |
| UserStore.RoleOrUser | packages/backend/src/services/auth.service.ts:36-46 | the role put in tokens and user views is never empty; it is `user` exactly when the role name is missing or empty or is `user` |
| UserStore.UserModel.Restore | packages/backend/src/db/models/user.model.ts:206-211 | ROLLBACK brings every table back to the snapshot and leaves the id sequences alone |
| UserStore.UserModel.Rollback | packages/backend/src/db/models/user.model.ts:206-211 | rolling back to a snapshot taken at BEGIN gives a consistent store equal to the snapshot |
| UserStore.UserModel.RecordOf | packages/backend/src/db/models/user.model.ts:16-38 | a found user carries its row and, when it has one, the name of the seeded role its role id names |
| UserStore.UserModel.FindById | packages/backend/src/db/models/user.model.ts:16-38 | a user is found exactly when the id is stored, with its row and role name |
| UserStore.UserModel.FindByEmail | packages/backend/src/db/models/user.model.ts:40-62 | a user is found exactly when some stored user has the e-mail, and the one found is that stored user |
| UserStore.UserModel.FindByUsername | packages/backend/src/db/models/user.model.ts:64-86 | a user is found exactly when some stored user has the name, and the one found is that stored user |
| UserStore.UserModel.FindByVerificationToken | packages/backend/src/db/models/user.model.ts:525-542 | the rows returned are exactly the stored users holding the token, each once |
| UserStore.UserModel.FindByResetToken | packages/backend/src/db/models/user.model.ts:544-566 | a user is found exactly when some stored user holds the reset token, and the one found holds it |
| UserStore.UserModel.GetCutterProfile | packages/backend/src/db/models/user.model.ts:580-599 | the profile is found exactly when the user has one; it belongs to that user, who exists |
| UserStore.UserModel.GetDealerProfile | packages/backend/src/db/models/user.model.ts:601-620 | the profile is found exactly when the user has one; it belongs to that user |
| UserStore.UserModel.PutUser | packages/backend/src/db/models/user.model.ts:113-142 | storing a user row that clashes with no other user's name or e-mail changes the users table at that id only and keeps the store consistent |
| UserStore.UserModel.InsertCutterProfile | packages/backend/src/db/models/user.model.ts:144-175 | inserting a cutter profile adds exactly the new profile under the next profile id and touches no other table |
| UserStore.UserModel.ReplaceCutterProfile | packages/backend/src/db/models/user.model.ts:324-371 | replacing a cutter profile changes that user's profile only, keeping its id |
| UserStore.UserModel.InsertDealerProfile | packages/backend/src/db/models/user.model.ts:177-204 | inserting a dealer profile adds exactly the new profile under the next profile id |
| UserStore.UserModel.ReplaceDealerProfile | packages/backend/src/db/models/user.model.ts:418-450 | replacing a dealer profile changes that user's profile only, keeping its id |
| UserStore.UserModel.InsertNewUser | packages/backend/src/db/models/user.model.ts:113-204 | the user INSERT and the profile INSERTs of `create` give exactly the created tables, under a fresh id |
| UserStore.UserModel.Create | packages/backend/src/db/models/user.model.ts:88-218 | `create` succeeds exactly when the role (or `user`) is seeded and the name and e-mail are free; on success it returns the new row with its role name and the store gains exactly the new user and the profile of its role; on failure every table is as before |
| UserStore.UserModel.WriteProfiles | packages/backend/src/db/models/user.model.ts:313-481 | the profile part of `update`: a cutter or dealer role with a profile payload updates the existing profile or inserts a new one |
| UserStore.UserModel.Update | packages/backend/src/db/models/user.model.ts:220-495 | a missing user gives no result and changes nothing; otherwise the update succeeds exactly when the patched row clashes with no other user and its role resolves, returning the patched row with its role name, with the profiles written as asked; on failure every table is as before |
| UserStore.UserModel.UpdateFlags | packages/backend/src/db/models/user.model.ts:220-311 | an update of the verification and reset columns only patches that one user row, in a store where every user's role id names a role (the schema's foreign key) |
| UserStore.UserModel.Delete | packages/backend/src/db/models/user.model.ts:497-523 | deleting fails with a foreign-key error, changing nothing, exactly when the user's cutter profile still has portfolio items or skills; otherwise the user and all three profiles go and the result says whether the user existed |
| UserStore.UserModel.RemoveKeepsReferences | packages/backend/src/db/models/user.model.ts:504-512 | removing a cutter profile that nothing references leaves every portfolio item and skill pointing at an existing profile |
| UserStore.UserModel.UpdateLastLogin | packages/backend/src/db/models/user.model.ts:645-657 | only the user's `last_login` changes, to the given time; an unknown id changes nothing |
| UserStore.ListingRows | packages/backend/src/db/models/user.model.ts:622-643 | one listing row per id, in order, each joining the user's row with its cutter profile |
| UserStore.CutterListing | packages/backend/src/db/models/user.model.ts:622-643 | every listed row is a user with role `cutter` and a cutter profile, joined correctly, and the rows are in increasing user id (`ORDER BY u.id`) |
| UserStore.CutterListingComplete | packages/backend/src/db/models/user.model.ts:622-643 | every user with role `cutter` and a cutter profile is listed |
| UserStore.ListingRow | packages/backend/src/db/models/user.model.ts:622-643 | the corrected join row: its id is the user's id |
| UserStore.ListingRowAsWritten | packages/backend/src/db/models/user.model.ts:625-628 | the join row as the query's column list makes it: `cp.*` comes after `u.id`, so the row's id is the cutter profile's id |
| UserStore.ListingIdAsWrittenIsProfileId | packages/backend/src/db/models/user.model.ts:625-628 | for the user with id 2 whose cutter profile has id 1, the row as written carries id 1 and the corrected row carries id 2 |
| UserStore.CheckPassword | packages/backend/src/db/models/user.model.ts:568-578 | the password matches exactly when the stored digest is the digest of it; this holds by the ideal collision-free digest, not as a result about bcrypt |
| Credentials.VerifyHash | packages/backend/src/db/models/user.model.ts:568-578 | a password verifies against its own digest and against no other password's; this holds by the ideal digest, not as a result about bcrypt |
| Credentials.RandomToken | packages/backend/src/services/auth.service.ts:90 | a token from 32 random bytes is 64 lower-case hex digits |
| Credentials.HexRoundTrip | packages/backend/src/services/auth.service.ts:90 | hex encoding loses nothing: decoding the hex text gives the bytes back |
| AuthService.VerifyToken | packages/backend/src/services/auth.service.ts:245-258 | a token verifies exactly when the decoder accepts it, giving its claims; otherwise the error is `Invalid token` |
| AuthService.TokenRoundTrip | packages/backend/src/services/auth.service.ts:233-258 | a token issued for a user id and role verifies to exactly those claims; this holds under a sound key (the decoder inverts the signer), not as a result about JWT |
| AuthService.LoginProfile | packages/backend/src/services/auth.service.ts:52-59 | login returns a profile exactly for a cutter with a cutter profile or a dealer with a dealer profile, and it is that profile |
| AuthService.Login | packages/backend/src/services/auth.service.ts:11-73 | a login succeeds exactly when a user has the e-mail, the password matches and the user is verified; an unknown e-mail and a wrong password give the same error; on success it returns a token for the user's id and role, the public view and the role's profile, and `last_login` is the only change to the store |
| AuthService.RegisteredRole | packages/backend/src/services/auth.service.ts:99 | the role looked up for a sign-up is the one requested when non-empty, else `collector` |
| AuthService.RegistrationRow | packages/backend/src/services/auth.service.ts:75-123 | a registered user starts unverified with the new verification token and the digest of the password; a cutter profile is written exactly for a cutter sign-up with one, a dealer profile exactly for a dealer sign-up with one, never both |
| AuthService.Register | packages/backend/src/services/auth.service.ts:75-123 | a taken e-mail, then a taken name, are refused and change nothing; otherwise the sign-up succeeds exactly when its role is seeded, returning the new id and token, and the store gains the created user |
| AuthService.VerifiedPatch | packages/backend/src/services/auth.service.ts:137-140 | verification only sets the user verified, drops the token and touches `updated_at` |
| AuthService.VerifyConsumesToken | packages/backend/src/services/auth.service.ts:125-154 | verifying one holder of a token removes exactly that user from the token's holders; a sole holder leaves none, so the token cannot be used again |
| AuthService.VerifyEmail | packages/backend/src/services/auth.service.ts:125-154 | verification fails, changing nothing, exactly when no user holds the token; otherwise one holder becomes verified with its token cleared, and nothing else changes |
| AuthService.ResetRequestPatch | packages/backend/src/services/auth.service.ts:169-180 | a reset request only stores the token and its expiry and touches `updated_at` |
| AuthService.ForgotPassword | packages/backend/src/services/auth.service.ts:156-197 | the same message whether or not the e-mail is known; a token is issued exactly for a known e-mail, stored with an expiry one hour ahead; an unknown e-mail changes nothing |
| AuthService.ResetPatch | packages/backend/src/services/auth.service.ts:199-231 | a reset clears the token and its expiry and stores a digest of the new password; nothing else but `updated_at` changes |
| AuthService.ResetPassword | packages/backend/src/services/auth.service.ts:199-231 | an unknown token, and a token whose holders have all expired, are refused and change nothing; a live holder gets the new password and loses the token |
| UserService.NewerFirstTotal | packages/backend/src/services/user.service.ts:142 | `ORDER BY created_at DESC` is a total preorder |
| UserService.ItemRows | packages/backend/src/services/user.service.ts:139-147 | the rows fetched for a list of ids are those items, in order |
| UserService.ProfileItemsSorted | packages/backend/src/services/user.service.ts:139-147 | a cutter's portfolio is listed newest first |
| UserService.ProfileItemsExact | packages/backend/src/services/user.service.ts:139-147 | the portfolio lists exactly the items the profile owns, each once |
| UserService.OwnedRows | packages/backend/src/services/user.service.ts:139-147 | the rows fetched for a profile are exactly its items |
| UserService.OwnedRowsSound | packages/backend/src/services/user.service.ts:139-147 | every row fetched for a profile is one of its items |
| UserService.OwnedRowsComplete | packages/backend/src/services/user.service.ts:139-147 | every item of the profile is fetched |
| UserService.GetCutterPortfolio | packages/backend/src/services/user.service.ts:122-155 | an unknown or non-cutter user gives `Cutter not found`, a cutter without a profile `Cutter profile not found`; otherwise the profile's items, newest first |
| UserService.GetAppraiserProfile | packages/backend/src/services/user.service.ts:414-432 | the appraiser profile is returned exactly when the user has one |
| UserService.GetUserProfile | packages/backend/src/services/user.service.ts:17-68 | an unknown user gives `User not found`; otherwise the public view, with the profile of the user's role when there is one: a cutter's with its portfolio newest first, a dealer's, or an appraiser's |
| UserService.UpdateUserProfile | packages/backend/src/services/user.service.ts:70-91 | an unknown user gives `User not found` and changes nothing; otherwise the update of the store and, on success, the profile as it now reads |
| UserService.ChangePassword | packages/backend/src/services/user.service.ts:93-120 | an unknown user and a wrong current password are refused and change nothing; otherwise only that user's digest (now of the new password) and `updated_at` change |
| UserService.NewItem | packages/backend/src/services/user.service.ts:175-198 | the inserted item belongs to the cutter's profile and carries the given title, types, description (or null) and image URLs |
| UserService.CutterCheck | packages/backend/src/services/user.service.ts:160-171 | the check passes exactly for a cutter with a profile; a cutter without one gets `Cutter profile not found`, anyone else the operation's own refusal |
| UserService.AddPortfolioItem | packages/backend/src/services/user.service.ts:157-206 | only a cutter with a profile adds an item, which is the new row under a fresh id; a refusal changes nothing |
| UserService.PatchItemKeeps | packages/backend/src/services/user.service.ts:237-268 | an item update keeps the id, the owner and the creation time and sets `updated_at` |
| UserService.ApplyItemPatch | packages/backend/src/services/user.service.ts:237-277 | executing the item SET list gives the patched item |
| UserService.ItemFieldsMeaning | packages/backend/src/services/user.service.ts:242-265 | the last assignment to each item column is the intended value, or "keep" |
| UserService.BuildItemUpdate | packages/backend/src/services/user.service.ts:237-277 | the statement is well formed, its WHERE matches exactly the item with that id and owner, and executing it gives the patched item |
| UserService.UpdatePortfolioItem | packages/backend/src/services/user.service.ts:208-289 | a non-cutter or a cutter without a profile is refused, then an item the cutter does not own; on success only that item changes, to the patched row |
| UserService.DeletePortfolioItem | packages/backend/src/services/user.service.ts:291-328 | the same refusals, in the same order; on success exactly that item is removed |
| UserService.Summaries | packages/backend/src/services/user.service.ts:334-350 | one summary per listing row, in order |
| UserService.GetAllCutters | packages/backend/src/services/user.service.ts:330-354 | one summary per listed cutter, in increasing user id, each of a user with role `cutter` and a profile |
| UserService.GetCutterDetails | packages/backend/src/services/user.service.ts:356-412 | details exist exactly for a cutter with a profile, and carry the user's id, name fields and image, the profile, its skills and its portfolio newest first |
| AuthValidator.FirstError | packages/backend/src/api/validators/auth.validator.ts:33-112 | a request passes exactly when every check passes, and a refusal is the message of one of the checks |
| AuthValidator.FirstErrorAt | packages/backend/src/api/validators/auth.validator.ts:33-112 | the message given is that of the first failing check |
| AuthValidator.FirstErrorExact | packages/backend/src/api/validators/auth.validator.ts:33-112 | with distinct messages, the message is check `k`'s exactly when check `k` is the first to fail |
| AuthValidator.EmailPattern | packages/backend/src/api/validators/auth.validator.ts:18 | the e-mail test agrees with the pattern `^[^\s@]+@[^\s@]+\.[^\s@]+$` |
| AuthValidator.EmailShape | packages/backend/src/api/validators/auth.validator.ts:18 | an accepted e-mail has one `@`, not first, no white space, and a dot strictly inside the part after the `@` |
| AuthValidator.PasswordPattern | packages/backend/src/api/validators/auth.validator.ts:66 | the strength test agrees with the pattern: eight characters or more with a digit, a lower-case and an upper-case letter |
| AuthValidator.ValidateLogin | packages/backend/src/api/validators/auth.validator.ts:6-28 | a login passes exactly when both fields are given and the e-mail is well formed; each refusal has its own message |
| AuthValidator.ValidateRegister | packages/backend/src/api/validators/auth.validator.ts:33-112 | a sign-up passes exactly when the fields are present, the e-mail, name and password are well formed, the role is one of the four offered, and the profile that role needs is sent |
| AuthValidator.RegisterErrorOrder | packages/backend/src/api/validators/auth.validator.ts:33-112 | the sign-up refusal is always the first failing check's message |
| AuthValidator.PrivilegedRoleRejected | packages/backend/src/api/validators/auth.validator.ts:76-82 | a sign-up can never ask for the `admin` or `user` role |
| AuthValidator.ValidateVerifyEmail | packages/backend/src/api/validators/auth.validator.ts:117-129 | passes exactly when a token is given |
| AuthValidator.ValidateForgotPassword | packages/backend/src/api/validators/auth.validator.ts:134-156 | passes exactly when a well-formed e-mail is given; each refusal has its own message |
| AuthValidator.ValidateResetPassword | packages/backend/src/api/validators/auth.validator.ts:161-182 | passes exactly when a token and a strong password are given; each refusal has its own message |
| UserValidator.ValidateChangePassword | packages/backend/src/api/validators/user.validator.ts:6-28 | passes exactly when both passwords are given and the new one is strong |
| UserValidator.ValidateUpdateProfile | packages/backend/src/api/validators/user.validator.ts:33-98 | passes exactly when a given e-mail and name are well formed and the given profile numbers and expertise level are valid |
| UserValidator.UpdateProfileErrorOrder | packages/backend/src/api/validators/user.validator.ts:33-98 | the refusal is always the first failing check's message |
| UserValidator.ValidatePortfolioItem | packages/backend/src/api/validators/user.validator.ts:103-134 | a POST passes exactly when title, gemstone type, cut type and at least one image URL are given; a PUT is refused exactly when its body has no keys; other methods pass |
| UserValidator.EmptyPutBody | packages/backend/src/api/validators/user.validator.ts:126-131 | a PUT is refused exactly when none of the item's fields nor any other key is present |
| AuthMiddleware.BearerTokenOf | packages/backend/src/api/middlewares/auth.middleware.ts:24-33 | a header `Bearer <t>`, with no space in `t`, passes the prefix test and yields exactly `t` |
| AuthMiddleware.Authenticate | packages/backend/src/api/middlewares/auth.middleware.ts:19-54 | a missing header or one without the `Bearer ` prefix is answered 401 `Authentication required`; otherwise the decoded claims go on, or 401 `Invalid or expired token` |
| AuthMiddleware.IssuedTokenAuthenticates | packages/backend/src/api/middlewares/auth.middleware.ts:19-54 | a token the service issued, sent as a bearer token, authenticates as its user id and role, under a sound key (the decoder inverts the signer) |
| AuthMiddleware.RequireRoles | packages/backend/src/api/middlewares/auth.middleware.ts:59-90 | no user gives 401, a role outside the list 403, a listed role passes |
| AuthMiddleware.RequireRolesByRole | packages/backend/src/api/middlewares/auth.middleware.ts:59-90 | the guard looks at the role alone: two users with the same role get the same answer |
| AuthMiddleware.PredefinedGuards | packages/backend/src/api/middlewares/auth.middleware.ts:95-99 | each predefined guard lets through its own role and `admin`, and the admin guard only `admin` |
| AuthMiddleware.AdminPassesCutterGuardOnly | packages/backend/src/services/user.service.ts:160-164 | an admin passes the cutter route guard, yet the service refuses to add a portfolio item on their behalf |
| ReferenceDataStore.NameLeTotalPreorder | packages/backend/src/db/repositories/referenceData.repository.ts:8 | `ORDER BY name` is a total preorder |
| ReferenceDataStore.SortListsRows | packages/backend/src/db/repositories/referenceData.repository.ts:6-15 | sorting a listing of the rows still lists exactly the rows, now by name |
| ReferenceDataStore.ReferenceDataRepository.constructor | packages/backend/src/db/repositories/referenceData.repository.ts:1-4 | the repository starts on the given table |
| ReferenceDataStore.ReferenceDataRepository.GetAll | packages/backend/src/db/repositories/referenceData.repository.ts:6-15 | every family exactly once, sorted by name |
| ReferenceDataStore.ReferenceDataRepository.ById | packages/backend/src/db/repositories/referenceData.repository.ts:18-27 | a family is found exactly when the id is stored |
| ReferenceDataStore.ReferenceDataRepository.Create | packages/backend/src/db/repositories/referenceData.repository.ts:30-69 | the new family holds the supplied fields under a fresh id, and nothing else changes |
| ReferenceDataStore.ReferenceDataRepository.Update | packages/backend/src/db/repositories/referenceData.repository.ts:72-114 | an unknown id changes nothing; otherwise exactly that family's fields are replaced and `updated_at` set |
| ReferenceDataStore.ReferenceDataRepository.Delete | packages/backend/src/db/repositories/referenceData.repository.ts:117-126 | the family, if stored, is returned and removed; nothing else changes |
| ReferenceDataService.NotFoundNamesId | packages/backend/src/services/referenceData.service.ts:16-28 | the not-found message names the id: two ids with the same message are the same id |
| ReferenceDataService.GetAllGemstoneFamilies | packages/backend/src/services/referenceData.service.ts:6-14 | every family exactly once, sorted by name |
| ReferenceDataService.GetGemstoneFamilyById | packages/backend/src/services/referenceData.service.ts:16-28 | the family, or `Gemstone family with ID <id> not found` |
| ReferenceDataService.CreateGemstoneFamily | packages/backend/src/services/referenceData.service.ts:30-39 | the new family is stored under a fresh id |
| ReferenceDataService.UpdateGemstoneFamily | packages/backend/src/services/referenceData.service.ts:41-53 | an unknown id gives the not-found message and changes nothing; otherwise the updated family |
| ReferenceDataService.DeleteGemstoneFamily | packages/backend/src/services/referenceData.service.ts:55-68 | an unknown id gives the not-found message; otherwise the removed family |
| AllCutters.ApplyFiltersExact | packages/frontend/src/pages/user/Cutters/AllCutters.tsx:36-62 | the chained filters keep, in their original order, exactly the cutters passing every active filter |
| AllCutters.SearchMeaning | packages/frontend/src/pages/user/Cutters/AllCutters.tsx:40-49 | the search matches exactly when the lower-cased term occurs in the lower-cased user name, or in a non-empty first name, last name or specialty |
| AllCutters.ClearedShowsAll | packages/frontend/src/pages/user/Cutters/AllCutters.tsx:65-69 | after clearing the filters the whole fetched list is shown |
| Text.ToLower | packages/frontend/src/pages/user/Cutters/AllCutters.tsx:41 | lower-casing keeps the length and maps each letter to its lower-case form |
| Text.Includes | packages/frontend/src/pages/user/Cutters/AllCutters.tsx:44-47 | `includes` holds exactly when the term occurs as a contiguous piece of the text |
| RegisterPage.FormRole.Name | packages/frontend/src/pages/user/Auth/Register.tsx:19 | every role the page offers is one the server accepts at sign-up |
| RegisterPage.FormError | packages/frontend/src/pages/user/Auth/Register.tsx:36-72 | the form may be sent exactly when all required fields are filled, the passwords agree and are strong, and a cutter gives a specialty and a dealer a company; an empty required field gives `Please fill in all required fields` |
| RegisterPage.FormErrorOrder | packages/frontend/src/pages/user/Auth/Register.tsx:36-72 | the message shown is that of the first failing check, in the page's order |
| RegisterPage.OrUndefined | packages/frontend/src/pages/user/Auth/Register.tsx:91-92 | `s \|\| undefined`: absent exactly for the empty string |
| RegisterPage.YearsOrUndefined | packages/frontend/src/pages/user/Auth/Register.tsx:101 | empty experience input is absent, a number is passed on |
| RegisterPage.PayloadOf | packages/frontend/src/pages/user/Auth/Register.tsx:86-111 | the body carries the form's name, e-mail, password and role, empty names as absent, and exactly the profile of a cutter or a dealer with that role's fields |
| RegisterPage.SentFormOnServer | packages/frontend/src/pages/user/Auth/Register.tsx:36-111 | a form the page lets through never fails the server's presence, password, role or profile checks; the server accepts it exactly when the e-mail and name are well formed and the role is not appraiser |
| RegisterPage.AppraiserSignUpRejected | packages/frontend/src/pages/user/Auth/Register.tsx:86-111 | an appraiser sign-up from the page is always refused by the server, with the appraiser-profile message once the rest is valid |
| RegisterPage.RegisterForm.constructor | packages/frontend/src/pages/user/Auth/Register.tsx:13-33 | the form first renders empty, as a collector, with no messages |
| RegisterPage.RegisterForm.ValidateForm | packages/frontend/src/pages/user/Auth/Register.tsx:36-72 | `localError` becomes the first failing check's message, or is cleared; the result says whether the form may be sent |
| RegisterPage.RegisterForm.HandleSubmit | packages/frontend/src/pages/user/Auth/Register.tsx:75-131 | a form with an error is not sent and keeps its fields; otherwise the body built from the fields is sent, and only when the server accepts it is the success message shown and every field cleared |
| RegisterPage.RegisterForm.BuildPayload | packages/frontend/src/pages/user/Auth/Register.tsx:86-111 | the assembled `userData` is the body for the current fields |
| RegisterPage.RegisterForm.Reset | packages/frontend/src/pages/user/Auth/Register.tsx:117-128 | every field returns to its first value, and the messages are left alone |
| PortfolioModal.RemoveAt | packages/frontend/src/components/user/profile/CutterProfile/AddPortfolioItemModal.tsx:36-37 | the list without the entry at the index, the rest in order; an index out of range removes nothing |
| PortfolioModal.RemoveAtMembers | packages/frontend/src/components/user/profile/CutterProfile/AddPortfolioItemModal.tsx:32-38 | removing from a list without repeats removes that element and nothing else |
| PortfolioModal.AppendInStep | packages/frontend/src/components/user/profile/CutterProfile/AddPortfolioItemModal.tsx:21-30 | appending files with new, distinct previews keeps images and previews in step |
| PortfolioModal.AddPortfolioItemModal.constructor | packages/frontend/src/components/user/profile/CutterProfile/AddPortfolioItemModal.tsx:11-18 | the dialog starts empty, in step |
| PortfolioModal.AddPortfolioItemModal.HandleImageChange | packages/frontend/src/components/user/profile/CutterProfile/AddPortfolioItemModal.tsx:21-30 | without a file list nothing changes; otherwise the files and one new preview each are appended in order, and the lists stay in step |
| PortfolioModal.AddPortfolioItemModal.RemoveImage | packages/frontend/src/components/user/profile/CutterProfile/AddPortfolioItemModal.tsx:32-38 | the entry at the index leaves both lists and its preview is released; the lists stay in step |
| PortfolioModal.AddPortfolioItemModal.HandleSubmit | packages/frontend/src/components/user/profile/CutterProfile/AddPortfolioItemModal.tsx:40-65 | a missing title, gemstone type or cut type, or no image, shows the error and sends nothing; otherwise the item is sent with the previews as its image URLs |
| PortfolioModal.SubmittedItemAccepted | packages/frontend/src/components/user/profile/CutterProfile/AddPortfolioItemModal.tsx:59-65 | an item the dialog sends passes the server's check for a new portfolio item |
| SkillsList.HigherOrEqualTotalPreorder | packages/frontend/src/components/user/profile/CutterProfile/SkillsList.tsx:24 | the comparator orders skills by a total preorder |
| SkillsList.SortedSkillsOrder | packages/frontend/src/components/user/profile/CutterProfile/SkillsList.tsx:24 | the shown order holds exactly the given skills, by non-increasing proficiency, equal levels in their given order |
| SkillsList.LevelMarkers | packages/frontend/src/components/user/profile/CutterProfile/SkillsList.tsx:33-39 | five markers; marker `k` is highlighted when `k <= proficiency_level` |
| SkillsList.Clamp | packages/frontend/src/components/user/profile/CutterProfile/SkillsList.tsx:33-39 | the level limited to the five markers |
| SkillsList.HighlightedPrefix | packages/frontend/src/components/user/profile/CutterProfile/SkillsList.tsx:33-39 | the highlighted markers form a prefix as long as the level limited to zero to five |
| SkillsList.Render | packages/frontend/src/components/user/profile/CutterProfile/SkillsList.tsx:15-48 | the placeholder exactly for no skills; otherwise one row per skill in the sorted order, with its markers and its description paragraph exactly when the description is non-empty |
| GemstoneFamiliesPage.GetCategoryCounts | packages/frontend/src/pages/admin/Data/GemstoneFamilies.tsx:37-46 | the loop produces the counts and the key order of the fold over the families |
| GemstoneFamiliesPage.KeysAgree | packages/frontend/src/pages/admin/Data/GemstoneFamilies.tsx:37-46 | the counted categories are the listed ones, none twice |
| GemstoneFamiliesPage.CountsByCategory | packages/frontend/src/pages/admin/Data/GemstoneFamilies.tsx:40-43 | each count is the number of families in that category (`Uncategorized` for none), and a counted category has at least one; for category names that are not members of `Object.prototype` |
| GemstoneFamiliesPage.KeysPresent | packages/frontend/src/pages/admin/Data/GemstoneFamilies.tsx:40-43 | a category is counted exactly when some family falls under it; for category names that are not members of `Object.prototype` |
| GemstoneFamiliesPage.CountsSum | packages/frontend/src/pages/admin/Data/GemstoneFamilies.tsx:37-46 | the counts add up to the number of families; for category names that are not members of `Object.prototype` |
| GemstoneFamiliesPage.SummaryCardsShape | packages/frontend/src/pages/admin/Data/GemstoneFamilies.tsx:100-104 | at most three cards, for the first categories met, each with its number of families, never zero |
| GemstoneFamiliesPage.ValueCategoryColor | packages/frontend/src/pages/admin/Data/GemstoneFamilies.tsx:49-60 | one of the four badge classes; gray exactly for a category other than the three named |
| GemstoneFamiliesPage.HardnessDisplay | packages/frontend/src/pages/admin/Data/GemstoneFamilies.tsx:138-140 | the range is shown exactly when both bounds are present and non-zero, and shows those bounds; otherwise `N/A` |

## Left out

- I/O, the database driver and connection pool, the HTTP framework, the React rendering and routing: only their effects on the modelled state are kept. Controllers and routes are not part of this model.
- Concurrency: the two-step uniqueness check of sign-up (check, then insert) and simultaneous requests are not modelled; each operation runs alone.
- bcrypt's salt and cost, and JWT signing and expiry: the digest is an ideal collision-free function, and the signer and decoder are parameters.
- The clock and random bytes are parameters. Daylight-saving effects on `setHours` do not arise: time is a count of milliseconds.
- JavaScript coercions outside the declared types: `NaN`, `Number(...)` of non-numeric text, a non-string role or e-mail, a non-array `image_urls`.
- Numeric columns (hardness) are exact reals. The page's text formatting of them is not modelled.
- Strings are sequences of characters. UTF-16 lengths and non-ASCII case mapping are not modelled: `toLowerCase` maps only ASCII letters.
- The database's collation for `ORDER BY name` is the code-point order. The order among rows with equal keys (`ORDER BY created_at DESC`, `ORDER BY name`) is the order the model lists them in. The skills query of `getCutterDetails` has no `ORDER BY`: the model gives the skills in the order of its `skills` table.
- `Object.entries` lists integer-like keys first. The model keeps insertion order for all category names.
- GemstoneFamiliesPage.CountsSum: the page's `counts` is a plain `{}` that inherits from `Object.prototype`; the model is a map with no inherited keys. A category named after a prototype member (`constructor`, `toString`, `valueOf`, `hasOwnProperty`, `__proto__` and the like) is outside the model: there `counts[category] || 0` reads the inherited member, so the count is not a number, `__proto__` is never listed, and GetCategoryCounts, CountsByCategory, KeysPresent and CountsSum do not describe the page.
- The schema is not part of this model; its constraints are taken as given: unique user names and e-mails, and foreign keys from items and skills to cutter profiles, and a non-null `users.role_id` with a foreign key to `roles`. The last is the predicate UserStore.UserModel.RolesResolve: the flags-only updates of e-mail verification, the password reset request, the reset and the password change require it, so the path where a stored user's role id names no role (`update`'s final role lookup fails and the operation throws) is not modelled for them. Every mutator of the store keeps the predicate.
- The dead branches `updateFields.length === 0` of the user model's `update` and `updateParts.length === 0` of `updatePortfolioItem` are not modelled: `updated_at` is always pushed first, so neither runs, and an update with no fields still sets `updated_at`.
- `appraiserProfile` at sign-up: the server demands it for an appraiser but no code stores it.
- The loading flags, `clearError` of the authentication context, `console` logging, the five-second redirect after sign-up and the fetching of lists by the pages.
- The browser's object-URL table is represented by the ghost fields of the dialog. `URL.createObjectURL`'s values are given to `HandleImageChange` as a parameter.
- UserStore.UserModel.FindByVerificationToken: the rows are stated as exactly the holders without fixing their order, since the query has no `ORDER BY`.
- AuthService.ResetPassword: when several users hold the same reset token and only some of them have expired, the contract states only the outcome on a live holder. The query returns an arbitrary first row.
- AuthService.VerifyEmail: of several holders of a token, the model names some holder and does not say which one, since the query has no `ORDER BY`.

## Findings

| source | as written | input that shows it | evidently intended | confidence | as-written member | corrected member |
|---|---|---|---|---|---|---|
| packages/backend/src/db/models/user.model.ts:625-628 | `SELECT u.id, ..., cp.*` joins the cutter profile after the user id, so the profile's own `id` column overwrites `u.id` in the returned row; the directory then links `/cutters/${id}` with a profile id | a cutter whose user id is 2 and whose cutter profile id is 1 is listed with id 1 | the listing row's id is the user's id, which the cutter detail page expects | not executed | UserStore.ListingRowAsWritten | UserStore.ListingRow |
