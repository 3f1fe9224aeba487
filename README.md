# onemembership — a Dafny model of the membership back end

onemembership is a Go back end for paid memberships in Telegram chats.
Service providers own projects. Projects offer subscription plans, and users
pay for those plans through the Telebirr mobile-money gateway. The back end
stores the following records in MySQL:

- users and service providers, with their passwords and payout wallets;
- projects, subscription plans and subscriptions;
- links between projects, plans, users and Telegram chats;
- payment transactions, feedback and client preferences;
- a trash of deleted users and service providers.

This project models the core of that back end in Dafny:

- **Validators.** They check a record before it is stored. Each one reports
  every failing field in an error map, keyed by column name. Some also rewrite
  the record the caller passed in: a lower-cased user name, an international
  phone number, a rounded price, a resolved language code.
- **Finders and searches.** Finders refuse a blank key. Searches merge the
  results of an exact-match query and a prefix-regex query, keyed by ID.
- **Repositories.** They mint unique IDs of the form
  `<prefix><7 or 20 random characters><row count + 1, plus one per retry>`,
  and they update, delete and bulk-delete rows. Each repository is a class whose table is a map from ID to
  record. Chat-link tables have no primary key, so they are sequences.
- **The trash.** Deleting a user or provider copies it there first. Its
  transactions are trashed only when that copy is stored.
- **The Telebirr web-pay flow.** It covers the request parameters, the
  nonce-uniqueness retry, the chunked encryption of the payload, and the
  storing of the pending transaction.
- **The logger.** A flag decides whether a statement is dropped, printed to
  the parent process, or appended to one of the log files.

The database and the libraries the core calls are parameters of the model
(oracles). These include uniqueness checks, phone-number parsing,
the e-mail regular expression, bcrypt, UUIDs, random draws, emoji removal, the
language table, RSA, and the HTTP exchange. The row count `CountMembers` reads
from the database is not an oracle: it is the number of rows the modelled
table holds. A Go `nil` error map is `None`.
Go's `len` on a string is `Text.ByteLen`, the UTF-8 length. A Go string is a
sequence of runes.

## Model

| member | source | states |
|---|---|---|
| StringTools.RandomStringGN | tools/tool.string.go:10-20 | the result has exactly `length` characters; character i is the charset entry at the i-th random pick; every character is an ASCII letter or digit |
| StringTools.CharsetIsAlphanumeric | tools/tool.string.go:10-20 | the charset has 62 entries, all ASCII letters or digits |
| StringTools.RandomStringByteLen | tools/tool.string.go:10-20 | a random string of n characters is n bytes long, and it is non-blank iff n > 0 |
| StringTools.GenerateOTP | tools/tool.string.go:34-38 | the OTP is four decimal digits; its value is the draw plus 1000, so it lies in 1000..9998 |
| StringTools.DecimalLength | tools/tool.string.go:34-38 | a number between 10^k and 10^(k+1) - 1 is written with k+1 digits |
| StringTools.Substr | tools/tool.string.go:41-53 | a start at or past the end gives ""; otherwise the result is the slice from the start, of length min(length, runes left) |
| StringTools.SubstrSplit | tools/tool.string.go:41-53 | the first n runes followed by the rest (taking `len` as the length) reassemble the string |
| StringTools.SubstrSplitBy | tools/tool.string.go:41-53 | the same split holds for any length that covers the remainder |
| Validation.ValidateProfile | tools/tool.validation.go:12-44 | always returns a map; the e-mail entry is always reported; first_name, last_name and phone_number are reported iff their pattern fails; no other key appears |
| Validation.PhonePatternLooserThanShape | tools/tool.validation.go:23 | the unanchored phone pattern accepts strings that are not phone numbers (trailing letters, a leading word) |
| Validation.PhoneShapeMatchesAsWritten | tools/tool.validation.go:23 | every string of the intended phone shape passes the pattern as written |
| Validation.ValidateProfileReadsThreeEntries | tools/tool.validation.go:12-44 | the result depends only on the first three entries, not on the role or any further entry |
| Entity.Reported | user/service/service.user.go:166-170 | an error map is returned as nil iff it is empty, and unchanged otherwise |
| Entity.RecordedReported | user/service/service.user.go:166-170 | reading back a reported map gives the original map |
| Entity.StringMap | entity/entities.core.go:148-155 | same keys as the error map; each value is that error's message |
| Common.RepositoryIsUnique | common/repository/gorm.common.go:22-34 | a blank string is unique without consulting the table; anything else is what the table says |
| Common.IsUnique | common/service/service.common.go:30-32 | the service check agrees with the repository check for blank strings, non-blank strings and integers |
| Common.BlankNeedsNoTable | common/repository/gorm.common.go:22-34 | for a blank value, the answer is the same whatever the table holds |
| Common.FindLanguage | common/service/service.common.go:35-51 | blank identifier: error; otherwise the looked-up language, or the same error when there is none |
| Common.FindLanguageEntry | common/service/service.common.go:54-71 | blank identifier or missing entry: the identifier itself; otherwise the entry's text for the emoji-stripped identifier and the code |
| Common.GuardedFind | user/service/service.user.go:174-190 | succeeds iff the key is non-blank and the lookup finds a record, and then returns that record; otherwise fails with the service's message |
| Common.GuardedFindAll | feedback/service/service.feedback.go:102-113 | a blank key gives no rows; otherwise the lookup's rows |
| Common.BlankSkipsLookup | user/service/service.user.go:174-190 | for a blank key, both finders give the same result whatever the table holds |
| Common.ValidListsAccept | common/service/service.common.go:79-91 | case-insensitive membership: chat types are CHANNEL or GROUP, the currency is ETB, the providers are CBE or TELEBIRR |
| Common.InFoldPair | common/service/service.common.go:79-81 | membership in a two-entry list is an equal-fold match with one of the entries |
| Common.InFoldSingle | common/service/service.common.go:84-86 | membership in a one-entry list is an equal-fold match with that entry |
| Common.UpperFixes | common/service/service.common.go:79-91 | upper-casing leaves a string without lower-case letters unchanged |
| Text.WordIsNotBlank | tools/tool.validation.go:12-44 | a string of word characters is not blank |
| Text.ToLower | project/service/service.project.go:82 | same length; each rune is lower-cased |
| Text.ToUpper | common/service/service.common.go:79-91 | same length; each rune is upper-cased |
| Text.ToLowerProperties | user/service/service.user.go:102 | lower-casing is idempotent and preserves the word-character check, blankness and the byte length |
| Text.UpperOfLower | common/service/service.common.go:79-91 | upper-casing a lower-cased string equals upper-casing the original |
| Text.ByteLenAppend | user/service/service.user.go:93-125 | the byte length of a concatenation is the sum of the byte lengths |
| Text.ByteLenAtLeastRunes | tools/tool.string.go:41-53 | a string has at least as many bytes as runes, and zero bytes iff it is empty |
| Text.ByteLenAscii | tools/tool.string.go:10-20 | an ASCII string has one byte per rune |
| Text.ByteLenPointwise | user/service/service.user.go:102 | two strings whose runes have the same widths, position by position, have the same byte length |
| Text.Decimal | tools/tool.string.go:34-38 | the result is a non-empty string of digits with no leading zero |
| Text.DecimalRoundTrip | tools/tool.string.go:34-38 | parsing the decimal form gives the number back |
| Text.DecimalInjective | serviceprovider/repository/gorm.service_provider.go:29 | different numbers have different decimal forms |
| Text.StripSpaces | user/service/service.user.go:67 | the result contains no field separator and is not longer than the input |
| Text.StripSpacesKeepsSpaceless | user/service/service.user.go:67 | a string without field separators is left unchanged |
| Text.QuoteMeta | serviceprovider/repository/gorm.service_provider.go:86 | quoting never shortens the key |
| Text.UnquoteQuoteMeta | serviceprovider/repository/gorm.service_provider.go:86 | unquoting the quoted key gives the key back |
| Text.RemoveRune | transaction/service/service.payment_gateway.go:207 | the result has no dashes and is not longer than the input |
| Text.RemoveRuneCount | transaction/service/service.payment_gateway.go:207 | exactly the occurrences of the removed rune are dropped |
| Text.ContainsFold | serviceprovider/service/service.wallet.go:47-53 | the flag loop sets the flag iff some list entry equals the candidate up to case |
| Tables.AnchoredKeyIsPrefix | serviceprovider/repository/gorm.service_provider.go:84-87 | the pattern ^ followed by the quoted key matches a value iff the key is a prefix of it |
| Tables.ExactClausesFindHits | serviceprovider/repository/gorm.service_provider.go:107-121 | the OR of the built equality clauses holds iff some searched column equals the key; a local phone key is rewritten to +251 |
| Tables.RegexClausesFindPrefixes | serviceprovider/repository/gorm.service_provider.go:84-87 | the OR of the built regexp clauses holds iff the key is a prefix of some searched column |
| Tables.MintedIdInjective | serviceprovider/repository/gorm.service_provider.go:29 | equal minted IDs with random parts of equal length have the same random part and row number |
| Tables.CandidateIsNew | serviceprovider/repository/gorm.service_provider.go:31-34 | each retry's candidate differs from all earlier ones, because the row number grows |
| Tables.MintId | serviceprovider/repository/gorm.service_provider.go:28-34 | the minted ID is not in the table; the loop stops within as many retries as there are rows, and every rejected candidate was an existing ID |
| Tables.SubsetSize | serviceprovider/repository/gorm.service_provider.go:31-34 | a subset is no larger than its superset, which bounds the retries |
| Tables.FindFirst | serviceprovider/repository/gorm.service_provider.go:54-56 | finds a row iff some row matches, and the row it returns matches |
| Tables.Select | subscription/repository/gorm.subscription.go:136-147 | returns every matching row exactly once and nothing else |
| Tables.Without | subscription/repository/gorm.subscription.go:186-198 | removes exactly the given keys and keeps every other row unchanged |
| Tables.DeleteEach | subscription/repository/gorm.subscription.go:186-198 | deleting the keys one by one leaves the table without exactly those keys |
| Tables.RemoveMatching | subscription/repository/gorm.subscription.go:186-198 | returns every matching row once, and the table left holds exactly the rows that did not match |
| Tables.Page | serviceprovider/repository/gorm.service_provider.go:70 | a negative page or an offset past the end gives nothing; otherwise up to `size` rows starting at page·size |
| Tables.PageCount | serviceprovider/repository/gorm.service_provider.go:73 | the ceiling of count/size: the pages cover the rows, the last page is non-empty, and there are zero pages iff there are zero rows |
| Tables.PagedResultIsPage | serviceprovider/repository/gorm.service_provider.go:65-75 | a paged answer is a page of the matching rows |
| Tables.PageOfRows | serviceprovider/repository/gorm.service_provider.go:65-75 | a page holds distinct stored rows that all match |
| Tables.PagesPrefix | serviceprovider/repository/gorm.service_provider.go:70-73 | the first n pages concatenated are the first n·size rows |
| Tables.PagesPartition | serviceprovider/repository/gorm.service_provider.go:70-73 | the first PageCount pages concatenated are exactly all rows |
| Tables.Filter | project/repository/gorm.project_chat_link.go:75-93 | keeps exactly the elements that pass |
| Tables.FilterKeepsDistinct | project/repository/gorm.project_chat_link.go:75-93 | filtering rows with distinct keys keeps the keys distinct |
| Tables.FilterAll | project/repository/gorm.project_chat_link.go:75-93 | a filter everything passes changes nothing |
| Tables.FilterSplits | project/repository/gorm.project_chat_link.go:75-93 | the rows kept and the rows dropped add up to all rows |
| Tables.ById | serviceprovider/service/service.service_provider.go:242-248 | the map built by ID has exactly the IDs of the list, and each entry is a list element with that ID |
| Tables.MergePrefersSecond | serviceprovider/service/service.service_provider.go:242-248 | in the merged map, the regexp result wins on a shared ID and the exact result fills in the rest |
| Tables.ByIdOfDistinct | serviceprovider/service/service.service_provider.go:242-248 | for a list with distinct IDs, each element is the map's entry for its ID |
| Tables.MergedMembers | serviceprovider/service/service.service_provider.go:242-252 | an element is merged iff it is in the second list, or it is in the first and its ID is not in the second |
| Tables.MergedRowsUnion | serviceprovider/service/service.service_provider.go:242-252 | for results drawn from one table, the merge is exactly their union, without duplicate IDs |
| Tables.MergeById | serviceprovider/service/service.service_provider.go:242-252 | the loops yield each ID of either list exactly once, carried by the row the ID map keeps, which is the second list's row when both lists have the ID |
| Accounts.NormalisePhone | user/service/service.user.go:67-84 | spaces are removed; a local 0-prefixed number becomes +251…; any other non-empty number gets a leading +; the result is empty iff the input has nothing but spaces |
| Accounts.NormalisePhoneIdempotent | user/service/service.user.go:67-84 | normalising twice is the same as normalising once |
| Accounts.PhoneKey | serviceprovider/repository/gorm.service_provider.go:47-51 | a key starting with 0 is bound as +251 followed by the remaining digits; any other key is bound unchanged |
| Accounts.PhoneKeyAgreesWithNormalise | serviceprovider/repository/gorm.service_provider.go:47-51 | for a local number, the repository's rewriting agrees with the validator's, so a stored number is found by its local form |
| Accounts.LocalPhoneGetsCountryCode | user/service/service.user.go:67-84 | 0 followed by nine digits, with or without an inner space, becomes +251 followed by the nine digits |
| Accounts.StripSpacesSplit | user/service/service.user.go:67 | removing spaces distributes over concatenation |
| Accounts.Put | user/service/service.user.go:93-164 | setting one field's error leaves every other field's error unchanged |
| Accounts.Assemble | user/service/service.user.go:93-164 | the map holds exactly the five per-field verdicts under their column names |
| Accounts.ValidateAccount | user/service/service.user.go:62-171 | the errors and the rewritten record are exactly those of the profile check, the format checks and the uniqueness checks combined |
| Accounts.CheckFormats | user/service/service.user.go:93-125 | the length, user-name, e-mail and phone verdicts; the user name is lower-cased and a parsed phone number replaces the raw one |
| Accounts.CheckUniqueness | user/service/service.user.go:127-164 | a field that passed its format check is tested for uniqueness only if it is new or changed from the stored record |
| Accounts.RewrittenIsStable | user/service/service.user.go:67-106 | when the phone parser is stable on its own output, rewriting an already rewritten record changes nothing |
| Accounts.UnchangedUpdateSkipsUniqueness | user/service/service.user.go:127-164 | updating a record without changing name, e-mail or phone never asks the table, so a record never collides with itself |
| Accounts.NewUserNameUniqueness | user/service/service.user.go:127-141 | a new, well-formed user name is reported taken iff the table says it is not unique |
| AccountServices.ValidateUserProfile | user/service/service.user.go:62-171 | the profile check against the users table |
| AccountServices.ValidateProviderProfile | serviceprovider/service/service.service_provider.go:67-175 | the profile check against the service_providers table |
| AccountServices.FindUser | user/service/service.user.go:174-190 | blank identifier: "no user" error; otherwise succeeds iff the lookup finds the user, and returns that user |
| AccountServices.FindServiceProvider | serviceprovider/service/service.service_provider.go:178-193 | blank identifier: error; otherwise succeeds iff some stored provider matches by ID, user name, e-mail or phone, and returns one |
| AccountServices.SearchUsers | user/service/service.user.go:207-256 | blank key: no results and zero pages; otherwise the ID-merge of the exact and prefix results, with the larger of their page counts |
| AccountServices.SearchServiceProviders | serviceprovider/service/service.service_provider.go:210-260 | the same for providers, searched in the provider table |
| AccountServices.ProviderSearchIsUnion | serviceprovider/service/service.service_provider.go:210-260 | the results are distinct stored providers, each an exact-column hit or a prefix hit on a searched column |
| AccountServices.ExactPageRows | serviceprovider/repository/gorm.service_provider.go:101-132 | every exact-search result is a distinct stored provider equal to the key in some column |
| AccountServices.PrefixPageRows | serviceprovider/repository/gorm.service_provider.go:78-98 | every regexp-search result is a distinct stored provider with the key as prefix of some column |
| AccountServices.DeleteUser | user/service/service.user.go:310-347 | an unknown user changes nothing; a found user is copied to the trash as the trash service writes it, so the trash grows by exactly that copy, under a fresh ID, with UserID that ID and "_"; the transactions are trashed under that UserID only when the trash insert succeeds; the user is removed either way; a failed removal is an error and skips the preference and feedback clean-up |
| AccountServices.DeleteServiceProvider | serviceprovider/service/service.service_provider.go:314-355 | an unknown provider changes nothing; a found provider is copied to the trash as written, with ProviderID the new ID and "_"; its subscription and payroll transactions are trashed only when that insert succeeds; it is removed only when the identifier is its ID, so a provider found by user name, e-mail or phone stays in the table; the clean-up follows only a removal |
| AccountServices.ValidateSPWallet | serviceprovider/service/service.wallet.go:36-62 | accepted iff the account is at most 255 bytes and the provider is in the configured list up to case; with a short enough account, accepted iff the provider upper-cases to CBE or TELEBIRR; each failure is reported under its own key |
| AccountServices.FindSPWallet | serviceprovider/service/service.wallet.go:65-80 | blank provider ID: error; otherwise succeeds iff the wallet exists, and returns it |
| Passwords.PatternIsAscii | user/service/service.password.go:38-58 | a password that passes the pattern has one byte per rune |
| Passwords.PasswordAccepted | user/service/service.password.go:38-58 | a password is accepted iff it passes the pattern and equals the confirmation |
| Passwords.ShortPasswordReportedFirst | user/service/service.password.go:38-58 | an ASCII password under 8 characters gets the length error, whatever the confirmation |
| Passwords.VerifyUserPassword | user/service/service.password.go:38-58 | on error the entry is unchanged; otherwise a fresh 30-character salt is drawn and the hash of password+salt is stored |
| Passwords.VerifySPPassword | serviceprovider/service/service.password.go:38-58 | the same for provider passwords |
| Passwords.FindUserPassword | user/service/service.password.go:61-78 | blank ID: "not found" error; otherwise succeeds iff the password exists, and returns it |
| Passwords.FindSPPassword | serviceprovider/service/service.password.go:61-78 | the same for provider passwords |
| FeedbackService.ValidateFeedback | feedback/service/service.feedback.go:55-81 | the comment verdict, plus a client_id error when the ID is empty or names neither a user nor a provider; accepted iff neither applies |
| FeedbackService.SeenStatus | feedback/service/service.feedback.go:121-128 | "unseen" maps to 0, "seen" to 1, and everything else to 2 |
| FeedbackService.SeenStatusRoundTrip | feedback/service/service.feedback.go:143-150 | the numeric status and the status name convert back and forth without loss |
| FeedbackService.FindMultipleFeedbacks | feedback/service/service.feedback.go:102-113 | blank client: no rows; otherwise the client's feedbacks |
| FeedbackService.SearchFeedbacks | feedback/service/service.feedback.go:134-192 | blank key: nothing; otherwise the ID-merge of exact hits on id/client_id and prefix hits on the comment, with the larger page count |
| FeedbackService.FeedbackSearchIsUnion | feedback/service/service.feedback.go:172-184 | the merged feedbacks are distinct, and are exactly those of the two searches |
| FeedbackService.MarkAsSeenOnce | feedback/service/service.feedback.go:195-224 | after a successful mark the feedback is seen, and marking it again fails with "already seen" and changes nothing |
| FeedbackService.MarkAsSeenTouchesOneFlag | feedback/service/service.feedback.go:195-224 | a successful mark sets only that feedback's seen flag and leaves every other feedback alone |
| FeedbackService.FeedbackTable.MarkAsSeen | feedback/service/service.feedback.go:195-224 | the error and the new table are those of the mark-as-seen specification |
| PreferenceService.ValidateClientPreference | preference/service/service.preference.go:53-75 | blank language: "en"; a known language is replaced by its code; an unknown one is an error and is left as given |
| PreferenceService.ResolvedLanguageIsStable | preference/service/service.preference.go:53-75 | validating a resolved code again resolves to the same code |
| PreferenceService.FindClientPreference | preference/service/service.preference.go:78-95 | blank client: error; otherwise succeeds iff the preference exists, and returns it |
| PlanService.PlanErrors | subscriptionplan/service/service.subscription_plan.go:62-116 | the name, benefits, duration, price and currency verdicts, with the name reported taken when a sibling plan of the project uses it |
| PlanService.SPPlanErrors | subscriptionplan/service/service.sp_subscription_plan.go:38-78 | the name, duration, price and currency verdicts |
| PlanService.FindMultipleSubscriptionPlans | subscriptionplan/service/service.subscription_plan.go:138-150 | blank project: none; otherwise every plan of the project, each once |
| PlanService.ValidateSubscriptionPlan | subscriptionplan/service/service.subscription_plan.go:62-116 | the reported errors are the plan verdicts, with "taken" computed by the loop over sibling plans; the price is rounded in place |
| PlanService.ValidateSPSubscriptionPlan | subscriptionplan/service/service.sp_subscription_plan.go:38-78 | the reported errors are the provider-plan verdicts; the price is rounded in place |
| PlanService.PlanAcceptedIff | subscriptionplan/service/service.subscription_plan.go:62-116 | a plan is accepted iff every field rule holds and the name is not taken |
| PlanService.RevalidationAgrees | subscriptionplan/service/service.subscription_plan.go:95 | rounding the price changes no verdict, so validating the rounded plan gives the same errors |
| PlanService.FindSPSubscriptionPlan | subscriptionplan/service/service.sp_subscription_plan.go:81-97 | blank ID: error; otherwise succeeds iff the plan is stored, and returns it |
| ProjectService.ProjectErrors | project/service/service.project.go:56-114 | the name and description verdicts; a link format error, else a "taken" error only when the link is new or changed and not unique |
| ProjectService.FindMultipleProjects | project/service/service.project.go:136-148 | blank provider: none; otherwise each of the provider's projects once |
| ProjectService.ValidateProject | project/service/service.project.go:56-114 | the link is lower-cased in place; the errors are the project verdicts, with name uniqueness found by the loop over the provider's projects |
| ProjectService.ProjectRevalidationAgrees | project/service/service.project.go:82 | lower-casing is idempotent, so revalidating a validated project gives the same errors |
| ProjectService.LinkFormatIgnoresCase | project/service/service.project.go:82-90 | a lower-cased link is well formed iff the original is made of word characters and is at most 20 bytes |
| ProjectService.ChatLinkErrors | project/service/service.project_chat_link.go:37-70 | the type must be CHANNEL or GROUP up to case; the chat must not already be linked |
| ProjectService.FindProjectChatLink | project/service/service.project_chat_link.go:73-89 | succeeds iff the project ID is non-blank and that pair is linked; returns the link |
| ProjectService.ValidateProjectChatLink | project/service/service.project_chat_link.go:37-70 | the reported errors are the chat-link verdicts, with the type found by the flag loop |
| ProjectService.ChatLinkAcceptedIff | project/service/service.project_chat_link.go:37-70 | a chat link is accepted iff its type is valid and the chat is not yet linked |
| ProjectService.FindMultipleProjectChatLinks | project/service/service.project_chat_link.go:92-105 | a blank string gives none; otherwise exactly the links that match |
| ProjectService.ProjectAcceptedIff | project/service/service.project.go:56-114 | a project is accepted iff every rule holds |
| TransactionService.ValidateSubscriptionTransaction | transaction/service/service.subscription_transaction.go:36-58 | nonce and out_trade_no are reported, with their messages, iff they are not unique; accepted iff both are unique |
| TransactionService.FindSubscriptionTransaction | transaction/service/service.subscription_transaction.go:61-77 | blank ID: error; otherwise succeeds iff the transaction exists, and returns it |
| TransactionService.FindMultipleSubscriptionTransactions | transaction/service/service.subscription_transaction.go:80-92 | blank identifier: none; otherwise the repository's answer |
| TransactionService.SubjectIsNotBlank | transaction/service/service.sp_subscription_transaction.go:36-66 | a subject that passes the pattern is not blank and does not start with a space |
| TransactionService.ValidateSPSubscriptionTransaction | transaction/service/service.sp_subscription_transaction.go:36-66 | subject reported iff it fails the pattern; nonce and out_trade_no reported iff used in either transaction table |
| TransactionService.FindSPSubscriptionTransaction | transaction/service/service.sp_subscription_transaction.go:69-85 | blank ID: error; otherwise succeeds iff found |
| TransactionService.FindMultipleSPSubscriptionTransactions | transaction/service/service.sp_subscription_transaction.go:88-100 | blank identifier: none; otherwise the repository's answer |
| TransactionService.ValidatePaymentGateway | transaction/service/service.payment_gateway.go:76-109 | a name format error; else "taken" only for a new or renamed gateway whose name is not unique |
| TransactionService.KeptGatewayNameNeedsNoTable | transaction/service/service.payment_gateway.go:76-109 | a gateway keeping its stored name is judged without the table, by its name format alone |
| TrashService.RegxColumns | deleted/service/service.deleted.go:154-196 | first_name followed by the caller's extra columns |
| TrashService.UserTrashCopyAsWritten | deleted/service/service.deleted.go:41-47 | the copy keeps name, user name, phone and e-mail, but its UserID is empty |
| TrashService.UserTrashCopy | deleted/service/service.deleted.go:41-47 | the copy as written, with UserID set to the user's ID |
| TrashService.ProviderTrashCopyAsWritten | deleted/service/service.deleted.go:71-76 | the copy keeps the profile, but its ProviderID is empty |
| TrashService.ProviderTrashCopy | deleted/service/service.deleted.go:71-76 | the copy as written, with ProviderID set to the provider's ID |
| TrashService.AddUserToTrashAsWritten | deleted/service/service.deleted.go:39-66 | a refused insert gives "unable to add user to trash" and leaves the trash unchanged; otherwise the as-written copy is stored under a fresh DUR_ ID with UserID that ID and "_", and nothing else in the trash changes |
| TrashService.AddUserToTrash | deleted/service/service.deleted.go:39-66 | the same failure path; on success the corrected copy is stored, with UserID the new ID, "_" and the user ID |
| TrashService.AddServiceProviderToTrashAsWritten | deleted/service/service.deleted.go:69-96 | a refused insert gives "unable to add service provider to trash" and leaves the trash unchanged; otherwise the as-written copy is stored under a fresh DSP_ ID with ProviderID that ID and "_" |
| TrashService.AddServiceProviderToTrash | deleted/service/service.deleted.go:69-96 | the same failure path; on success the corrected copy is stored, whose ProviderID carries the provider's ID |
| TrashService.TrashCopyAsWrittenForgetsUser | deleted/repository/gorm.deleted.user.go:36 | two users differing only in ID leave trash rows identical apart from the freshly minted ID, and the recorded original ID is empty |
| TrashService.TrashCopyKeepsUser | deleted/repository/gorm.deleted.user.go:36 | with the corrected copy, the original user ID is recovered from the stored UserID |
| TrashService.TrashCopyAsWrittenForgetsProvider | deleted/repository/gorm.deleted.service_provider.go:36 | two providers differing only in ID leave trash rows identical apart from the freshly minted ID, and the recorded original ID is empty |
| TrashService.ProviderTrashCopyKeepsProvider | deleted/repository/gorm.deleted.service_provider.go:25-43 | the original provider ID is recovered from the stored ProviderID |
| TrashService.SearchDeletedUsersAsWritten | deleted/service/service.deleted.go:154-196 | the exact query names the missing user_name column, so it fails and only the prefix hits are returned |
| TrashService.SearchDeletedUsers | deleted/service/service.deleted.go:154-196 | blank key: nothing; otherwise the ID-merge of exact hits on id, username, phone and e-mail with the prefix hits |
| TrashService.SearchDeletedServiceProviders | deleted/service/service.deleted.go:212-253 | the same over deleted providers |
| TrashService.DeletedUserSearchIsUnion | deleted/service/service.deleted.go:171-190 | the results are distinct trash rows, each an exact or a prefix hit |
| TrashService.DeletedProviderSearchIsUnion | deleted/service/service.deleted.go:229-248 | the same for deleted providers |
| TrashService.UserNameSearchMissesDeletedUsers | deleted/service/service.deleted.go:166 | the exact columns as written are not all columns of deleted_users, so that query fails; a concrete trashed user matches the corrected exact columns by user name but no prefix column, so only the corrected search finds it |
| ServiceProviderRepo.Column | entity/entities.core.go:31-41 | a column name has a value iff it is a column of service_providers |
| ServiceProviderRepo.SetColumn | serviceprovider/repository/gorm.service_provider.go:184-199 | a known column gets the new text; every other column and both time stamps stay as they were |
| ServiceProviderRepo.SearchFindsLocalNumber | serviceprovider/repository/gorm.service_provider.go:107-121 | a provider stored with a normalised number is an exact hit for the local 0-prefixed key |
| ServiceProviderRepo.ServiceProviderRepository.Create | serviceprovider/repository/gorm.service_provider.go:27-41 | inserts the provider under a fresh SP- ID minted by the retry loop |
| ServiceProviderRepo.ServiceProviderRepository.Find | serviceprovider/repository/gorm.service_provider.go:45-62 | succeeds iff some row matches by ID, user name, e-mail or normalised phone, and returns such a row |
| ServiceProviderRepo.ServiceProviderRepository.FindAll | serviceprovider/repository/gorm.service_provider.go:65-75 | one page of 20 providers, and the page count of the whole table |
| ServiceProviderRepo.ServiceProviderRepository.Search | serviceprovider/repository/gorm.service_provider.go:101-132 | an unknown column gives nothing; otherwise a page of the rows equal to the key in a searched column, with its page count |
| ServiceProviderRepo.ServiceProviderRepository.SearchWRegx | serviceprovider/repository/gorm.service_provider.go:78-98 | an unknown column gives nothing; otherwise a page of the rows with the key as prefix of a searched column |
| ServiceProviderRepo.ServiceProviderRepository.Update | serviceprovider/repository/gorm.service_provider.go:162-181 | an unknown ID is "record not found"; otherwise the row is replaced and keeps its creation time |
| ServiceProviderRepo.ServiceProviderRepository.UpdateValue | serviceprovider/repository/gorm.service_provider.go:184-199 | an unknown ID or column is an error; otherwise exactly that column changes, and a changed id re-keys the row |
| ServiceProviderRepo.ServiceProviderRepository.Delete | serviceprovider/repository/gorm.service_provider.go:203-213 | an unknown ID changes nothing; otherwise the row is returned and removed |
| SubscriptionRepo.Construct | subscription/repository/gorm.subscription.go:23-101 | succeeds iff subscriber, plan, project and provider all exist; the subscription then carries each of their summaries |
| SubscriptionRepo.SubscriptionRepository.Create | subscription/repository/gorm.subscription.go:104-118 | inserts under a fresh SUB- ID |
| SubscriptionRepo.SubscriptionRepository.Find | subscription/repository/gorm.subscription.go:122-132 | succeeds iff the ID is stored |
| SubscriptionRepo.SubscriptionRepository.FindMultiple | subscription/repository/gorm.subscription.go:136-147 | each subscription involving the identifier, once |
| SubscriptionRepo.SubscriptionRepository.Update | subscription/repository/gorm.subscription.go:150-168 | an unknown ID is an error; otherwise the row is replaced and keeps its creation time |
| SubscriptionRepo.SubscriptionRepository.Delete | subscription/repository/gorm.subscription.go:172-182 | returns and removes the row, or changes nothing |
| SubscriptionRepo.SubscriptionRepository.DeleteMultiple | subscription/repository/gorm.subscription.go:186-198 | removes exactly the involved subscriptions and returns each once |
| ProjectRepo.ProjectRepository.Create | project/repository/gorm.project.go:23-37 | inserts under a fresh Pr- ID |
| ProjectRepo.ProjectRepository.Find | project/repository/gorm.project.go:41-51 | succeeds iff some project matches by ID or link |
| ProjectRepo.ProjectRepository.FindMultiple | project/repository/gorm.project.go:55-65 | each of the provider's projects, once |
| ProjectRepo.ProjectRepository.Update | project/repository/gorm.project.go:68-87 | replaces a stored project and keeps its creation time; an unknown ID is an error |
| ProjectRepo.ProjectRepository.Delete | project/repository/gorm.project.go:91-101 | returns and removes the project, or changes nothing |
| ProjectRepo.ProjectRepository.DeleteMultiple | project/repository/gorm.project.go:105-115 | removes exactly the provider's projects and returns each once |
| ProjectRepo.ProjectChatLinkRepository.Create | project/repository/gorm.project_chat_link.go:20-27 | appends the link, or is refused by the unique (project, chat) index |
| ProjectRepo.ProjectChatLinkRepository.Find | project/repository/gorm.project_chat_link.go:30-41 | succeeds iff that pair is linked |
| ProjectRepo.ProjectChatLinkRepository.FindMultiple | project/repository/gorm.project_chat_link.go:45-56 | exactly the links whose project or chat matches the identifier |
| ProjectRepo.ProjectChatLinkRepository.Delete | project/repository/gorm.project_chat_link.go:59-71 | removes that pair's link, or fails when there is none |
| ProjectRepo.ProjectChatLinkRepository.DeleteMultiple | project/repository/gorm.project_chat_link.go:75-93 | returns the matching links; deletes by project for a string and by chat for an int64 |
| ProjectRepo.DeleteMultipleRemovesWhatItReturns | project/repository/gorm.project_chat_link.go:75-93 | for a string or int64 identifier, a link is returned iff it is deleted |
| ProjectRepo.OtherIntegerDeletesNothing | project/repository/gorm.project_chat_link.go:75-93 | an identifier of another integer type deletes nothing |
| PlanRepo.SubscriptionPlanRepository.Create | subscriptionplan/repository/gorm.subscription_plan.go:23-37 | inserts under a fresh SBP- ID |
| PlanRepo.SubscriptionPlanRepository.Find | subscriptionplan/repository/gorm.subscription_plan.go:41-50 | succeeds iff the ID is stored |
| PlanRepo.SubscriptionPlanRepository.FindMultiple | subscriptionplan/repository/gorm.subscription_plan.go:54-64 | each plan of the project, once |
| PlanRepo.SubscriptionPlanRepository.Update | subscriptionplan/repository/gorm.subscription_plan.go:67-86 | replaces a stored plan and keeps its creation time |
| PlanRepo.SubscriptionPlanRepository.Delete | subscriptionplan/repository/gorm.subscription_plan.go:90-100 | returns and removes the plan, or changes nothing |
| PlanRepo.SubscriptionPlanRepository.DeleteMultiple | subscriptionplan/repository/gorm.subscription_plan.go:104-114 | removes exactly the project's plans and returns each once |
| PlanRepo.SPSubscriptionPlanRepository.Create | subscriptionplan/repository/gorm.sp_subscription_plan.go:23-38 | inserts under a fresh SBP- ID |
| PlanRepo.SPSubscriptionPlanRepository.Find | subscriptionplan/repository/gorm.sp_subscription_plan.go:42-52 | succeeds iff the ID is stored |
| PlanRepo.SPSubscriptionPlanRepository.Update | subscriptionplan/repository/gorm.sp_subscription_plan.go:55-74 | replaces a stored plan and keeps its creation time |
| PlanRepo.SPSubscriptionPlanRepository.Delete | subscriptionplan/repository/gorm.sp_subscription_plan.go:78-88 | returns and removes the plan, or changes nothing |
| PlanRepo.PlanChatLinkRepository.Create | subscriptionplan/repository/gorm.plan_chat_link.go:20-27 | appends the link, or is refused by the unique (plan, chat) index |
| PlanRepo.PlanChatLinkRepository.Find | subscriptionplan/repository/gorm.plan_chat_link.go:30-41 | succeeds iff that pair is linked |
| PlanRepo.PlanChatLinkRepository.FindMultiple | subscriptionplan/repository/gorm.plan_chat_link.go:45-56 | exactly the links whose plan or chat matches |
| PlanRepo.PlanChatLinkRepository.Delete | subscriptionplan/repository/gorm.plan_chat_link.go:59-71 | removes that pair's link, or fails when there is none |
| PlanRepo.PlanChatLinkRepository.DeleteMultiple | subscriptionplan/repository/gorm.plan_chat_link.go:75-93 | returns the matching links; deletes by plan for a string and by chat for an int64 |
| PlanRepo.PlanLinkDeleteMultipleRemovesWhatItReturns | subscriptionplan/repository/gorm.plan_chat_link.go:75-93 | for a string or int64 identifier, a link is returned iff it is deleted |
| PlanRepo.UserChatLinkRepository.Create | subscriptionplan/repository/gorm.user_resource_link.go:20-27 | appends the link; the table has no unique key |
| PlanRepo.UserChatLinkRepository.Find | subscriptionplan/repository/gorm.user_resource_link.go:30-41 | succeeds iff that (user, plan, chat) triple is linked |
| PlanRepo.UserChatLinkRepository.FindMultiple | subscriptionplan/repository/gorm.user_resource_link.go:45-56 | exactly the links whose user, plan or chat matches |
| PlanRepo.UserChatLinkRepository.Delete | subscriptionplan/repository/gorm.user_resource_link.go:59-72 | removes that triple's links, or fails when there is none |
| PlanRepo.UserChatLinkRepository.DeleteMultiple | subscriptionplan/repository/gorm.user_resource_link.go:76-100 | as written: returns links matched by user or plan, but a string deletes by user only |
| PlanRepo.UserChatLinkRepository.DeleteMultipleCorrected | subscriptionplan/repository/gorm.user_resource_link.go:76-100 | corrected: deletes by user or plan for a string, so it deletes what it returns |
| PlanRepo.PlanIdMatchesSurviveDeleteMultiple | subscriptionplan/repository/gorm.user_resource_link.go:78-91 | a link matched only by its plan ID is returned as deleted, yet stays in the table |
| PlanRepo.CorrectedDeleteMultipleRemovesWhatItReturns | subscriptionplan/repository/gorm.user_resource_link.go:76-100 | with the correction, a link is returned iff it is deleted |
| TransactionRepo.SubscriptionTransactionRepository.Create | transaction/repository/gorm.subscription_transaction.go:23-37 | inserts under a fresh SBT- ID with 7 random characters |
| TransactionRepo.SubscriptionTransactionRepository.Find | transaction/repository/gorm.subscription_transaction.go:41-51 | succeeds iff some row matches by ID or out_trade_no |
| TransactionRepo.SubscriptionTransactionRepository.Update | transaction/repository/gorm.subscription_transaction.go:68-87 | replaces a stored transaction and keeps its creation time |
| TransactionRepo.SubscriptionTransactionRepository.Delete | transaction/repository/gorm.subscription_transaction.go:91-102 | returns and removes the transaction, or changes nothing |
| TransactionRepo.SPSubscriptionTransactionRepository.Create | transaction/repository/gorm.sp_subscription_transaction.go:23-37 | inserts under a fresh SBT- ID with 20 random characters |
| TransactionRepo.SPSubscriptionTransactionRepository.Find | transaction/repository/gorm.sp_subscription_transaction.go:41-51 | succeeds iff some row matches by ID or out_trade_no |
| TransactionRepo.SPSubscriptionTransactionRepository.Update | transaction/repository/gorm.sp_subscription_transaction.go:68-87 | replaces a stored transaction and keeps its creation time |
| TransactionRepo.SPSubscriptionTransactionRepository.Delete | transaction/repository/gorm.sp_subscription_transaction.go:91-102 | returns and removes the transaction, or changes nothing |
| TransactionRepo.SPPayrollTransactionRepository.Create | transaction/repository/gorm.sp_payroll_transaction.go:23-38 | inserts under a fresh PRT- ID |
| TransactionRepo.SPPayrollTransactionRepository.Find | transaction/repository/gorm.sp_payroll_transaction.go:42-53 | succeeds iff the ID is stored |
| TransactionRepo.SPPayrollTransactionRepository.FindMultiple | transaction/repository/gorm.sp_payroll_transaction.go:57-67 | each payroll of the provider, once |
| TransactionRepo.SPPayrollTransactionRepository.Update | transaction/repository/gorm.sp_payroll_transaction.go:70-89 | replaces a stored payroll and keeps its creation time |
| TransactionRepo.SPPayrollTransactionRepository.Delete | transaction/repository/gorm.sp_payroll_transaction.go:93-104 | returns and removes the payroll, or changes nothing |
| TransactionRepo.SPPayrollTransactionRepository.DeleteMultiple | transaction/repository/gorm.sp_payroll_transaction.go:108-117 | removes exactly the provider's payrolls and returns each once |
| DeletedRepo.DeletedUserColumn | entity/entities.deleted.go:9-18 | a column name has a value iff it is a column of deleted_users |
| DeletedRepo.DeletedServiceProviderColumn | entity/entities.deleted.go:22-31 | a column name has a value iff it is a column of deleted_service_providers |
| DeletedRepo.DeletedUserRepository.Create | deleted/repository/gorm.deleted.user.go:25-43 | a refused insert returns its error and leaves the table unchanged; otherwise inserts under a fresh DUR_ ID and prefixes the UserID with that ID and "_" |
| DeletedRepo.DeletedUserRepository.Find | deleted/repository/gorm.deleted.user.go:47-56 | succeeds iff the ID is stored |
| DeletedRepo.DeletedUserRepository.Search | deleted/repository/gorm.deleted.user.go:59-85 | an unknown column gives nothing; otherwise a page of the rows equal to the key in a searched column |
| DeletedRepo.DeletedUserRepository.SearchWRegx | deleted/repository/gorm.deleted.user.go:88-103 | an unknown column gives nothing; otherwise a page of the rows with the key as a prefix |
| DeletedRepo.DeletedUserRepository.All | deleted/repository/gorm.deleted.user.go:106-113 | one page of the trash |
| DeletedRepo.DeletedUserRepository.Update | deleted/repository/gorm.deleted.user.go:116-130 | replaces a stored row; an unknown ID is an error |
| DeletedRepo.DeletedUserRepository.Delete | deleted/repository/gorm.deleted.user.go:134-144 | returns and removes the row, or changes nothing |
| DeletedRepo.DeletedServiceProviderRepository.Create | deleted/repository/gorm.deleted.service_provider.go:25-43 | a refused insert returns its error and leaves the table unchanged; otherwise inserts under a fresh DSP_ ID and prefixes the ProviderID with that ID and "_" |
| DeletedRepo.DeletedServiceProviderRepository.Find | deleted/repository/gorm.deleted.service_provider.go:47-57 | succeeds iff the ID is stored |
| DeletedRepo.DeletedServiceProviderRepository.Search | deleted/repository/gorm.deleted.service_provider.go:60-86 | a page of the rows equal to the key in a searched column |
| DeletedRepo.DeletedServiceProviderRepository.SearchWRegx | deleted/repository/gorm.deleted.service_provider.go:89-104 | a page of the rows with the key as a prefix |
| DeletedRepo.DeletedServiceProviderRepository.All | deleted/repository/gorm.deleted.service_provider.go:107-115 | one page of the trash |
| DeletedRepo.DeletedServiceProviderRepository.Update | deleted/repository/gorm.deleted.service_provider.go:118-133 | replaces a stored row; an unknown ID is an error |
| DeletedRepo.DeletedServiceProviderRepository.Delete | deleted/repository/gorm.deleted.service_provider.go:137-148 | returns and removes the row, or changes nothing |
| Telebirr.NonceOf | transaction/service/service.payment_gateway.go:207 | the nonce has no dash, and is exactly as long as the UUID less its dashes |
| Telebirr.OutTradeNoOf | transaction/service/service.payment_gateway.go:214 | the out-trade number is "T_" followed by the nonce |
| Telebirr.OutTradeNoInjective | transaction/service/service.payment_gateway.go:214 | different nonces give different out-trade numbers |
| Telebirr.NewRequest | transaction/service/service.payment_gateway.go:210-223 | the nonce and out-trade number come from the UUID; the timeout is "60"; app ID, receiver and subject are copied |
| Telebirr.NewTransaction | transaction/service/service.payment_gateway.go:225-238 | the transaction carries the request's nonce, out-trade number and app ID, the 60-second timeout and the account's fee |
| Telebirr.TimeoutAgrees | transaction/service/service.payment_gateway.go:204-234 | the request's timeout text and the stored timeout are the same number |
| Telebirr.RetryBodyAsWritten | transaction/service/service.payment_gateway.go:241-247 | one round as written renews the transaction's nonce but leaves the error map and the request untouched |
| Telebirr.AsWrittenLoopNeverExits | transaction/service/service.payment_gateway.go:241-247 | once entered, the loop as written is still retrying after any number of rounds, with the request never updated |
| Telebirr.TakenNonceHangs | transaction/service/service.payment_gateway.go:241-247 | a concrete taken nonce makes the loop as written retry forever |
| Telebirr.RetryBody | transaction/service/service.payment_gateway.go:241-247 | the corrected round renews the nonce, revalidates, and copies the nonce into the request |
| Telebirr.RegenerateNonce | transaction/service/service.payment_gateway.go:241-247 | stops at the first free UUID; the final transaction and request agree, the request changes in its two identifiers only, and every earlier UUID was taken |
| Telebirr.ValidatedOnlyTwoKeys | transaction/service/service.subscription_transaction.go:36-58 | the validator reports an error iff the nonce or the out-trade number is taken |
| Telebirr.ChunksReassemble | transaction/service/service.payment_gateway.go:259-271 | the chunks concatenated are the payload |
| Telebirr.ChunkAt | transaction/service/service.payment_gateway.go:259-271 | there are ceil(runes/117) chunks, and chunk i is the slice starting at rune 117·i |
| Telebirr.ChunkSizes | transaction/service/service.payment_gateway.go:262 | every chunk is non-empty with at most 117 runes, and all but the last have exactly 117 |
| Telebirr.EncryptAll | transaction/service/service.payment_gateway.go:259-271 | succeeds iff every chunk encrypts |
| Telebirr.EncryptPayload | transaction/service/service.payment_gateway.go:259-271 | the loop's result is the concatenation of the encrypted chunks, or the first error |
| Telebirr.PrefixedEmpty | transaction/service/service.payment_gateway.go:270 | prefixing no bytes changes nothing |
| Telebirr.PrefixedAssoc | transaction/service/service.payment_gateway.go:270 | prefixing twice is prefixing the concatenation |
| Telebirr.GetTelebirrH5WebURL | transaction/service/service.payment_gateway.go:174-331 | the request sent carries the first free UUID's identifiers (with the retry loop as intended); a key, encryption or exchange error is returned as it is and a code other than "0" gives "unable to generate web url", both with the table unchanged; on code "0" the transaction with that nonce is stored as Pending under a fresh ID, unique in nonce and out-trade number, for the user and plan with the 60-second timeout, and the response's toPayUrl is returned |
| Logging.NormalisedFlag | log/logger.go:25-31 | Debug, Normal and None are kept; anything else becomes None |
| Logging.NormalisedFlagIdempotent | log/logger.go:25-31 | setting a normalised flag again changes nothing |
| Logging.RoutedFileIsValid | log/logger.go:47-60 | every statement goes to the server, bot or error log, and a valid target is kept |
| Logging.ServiceLogsGoToServerLog | log/logger.go:47-60 | statements for the user, provider, project, plan, subscription, transaction and deleted logs go to the server log |
| Logging.Appended | log/logger.go:62-70 | appends the line to an openable file; other files, and a file that cannot be opened, are unchanged |
| Logging.AppendedGrows | log/logger.go:62-70 | writing only ever extends a file by one line |
| Logging.Logger.constructor | log/logger.go:18-22 | the new logger's flag is the normalised flag |
| Logging.Logger.SetFlag | log/logger.go:25-31 | the flag becomes the normalised state |
| Logging.Logger.CheckedLogFile | log/logger.go:47-60 | the flag loop keeps a valid target and picks the server log otherwise |
| Logging.Logger.LogToParent | log/logger.go:74-86 | prints the stamped statement unless the flag is None |
| Logging.Logger.Log | log/logger.go:34-71 | None: no output; Debug: printed to the parent; Normal: appended to the routed file; files only grow |
| Logging.Logger.LogToErrorFile | log/logger.go:89-111 | the same, always to the error log, with an "Error: " prefix |
| Logging.Logger.LogToArchiveFile | log/logger.go:114-136 | the same, always to the archive log |

## Left out

- main.go wiring: configuration, environment, database connections, migrations and the HTTP server are set-up code.
- The log archiver: it is an endless loop of OS file operations.
- entity/tostring.go: JSON and format wrappers only.
- The logger's mutex and the real clock. The time stamp is a parameter, and concurrent logging is not modelled.
- Floating point:
  - prices are `real`, and the two-decimal rounding is an oracle;
  - the total amount and the time stamp enter the Telebirr request as text;
  - page counts use integer ceiling division instead of the float ceiling.
- The network and crypto half of Telebirr is an oracle: JSON marshalling, RSA, base64, SHA-256 signing, query encoding and the HTTP POST. The model keeps the chunking, the error exits and the response-code check.
- Telebirr.GetTelebirrH5WebURL: uses the corrected retry loop, Telebirr.RegenerateNonce, not the loop as written. As written, the function returns only when the first UUID is free, and then both loops agree; when it is taken the source never returns (Telebirr.TakenNonceHangs), while the model draws on. It also requires that some UUID in the draw sequence is free, because an endless search for a nonce cannot be a result.
- Telebirr.RegenerateNonce: requires the same; the model exhibits the as-written loop separately.
- Telebirr.GetTelebirrH5WebURL: a failed insert of the pending transaction ("unable to add new subscription transaction") is not modelled; the store always succeeds. The same holds for the inserts and updates of the other repositories, except the two trash tables, whose insert failure DeletedRepo.DeletedUserRepository.Create and DeletedRepo.DeletedServiceProviderRepository.Create take as a parameter.
- ProjectRepo.LinkMatches, PlanRepo.PlanLinkMatches and PlanRepo.UserLinkMatches: MySQL's conversion between a string and a number in a comparison is not modelled. A string identifier never matches the numeric chat ID, and a number never matches a text ID column. In MySQL, "123" does match chat ID 123, and 0 matches every text ID that does not start with a digit.
- Tables.SearchHit and Tables.AnchoredLiteralMatch: the tables' case-insensitive collations are not modelled. Here `=` and REGEXP compare case-sensitively; on a `_ci` column MySQL ignores case in both.
- SQL `ORDER BY` and the order of merged results are not modelled. Merged search results are specified as sets of distinct records, because Go map iteration order is unspecified.
- GORM `First` is modelled as "some matching row". Which matching row comes first is not modelled.
- The three bulk trash copies of transactions (the deleted subscription, SP subscription and payroll transaction repositories). Their SQL is malformed and their error is discarded, so they change nothing the model could state.
- FindMultiple and DeleteMultiple of the subscription-transaction and SP-subscription-transaction repositories. They bind three arguments to two placeholders, so their result is whatever the driver makes of it.
- The password, wallet, preference, payment-gateway, SP-subscription, language and language-entry repositories are modelled as lookup oracles. Each is a single ORM call with no logic of its own.
- The delegating services are not modelled separately: the Add/Update/Delete services, the plan and user chat-link services, the subscription services, the payroll service, and All/Total/FindX wrappers that only log and delegate.
- `tools.IsValidURL`: its pattern embeds literal whitespace.
- Oracles, passed as parameters:
  - phone-number parsing and validity;
  - the e-mail pattern;
  - bcrypt, UUID generation and random draws;
  - emoji removal and the row-uniqueness query;
  - public-key parsing and encryption.
- Parsing of the page number from its text form; the model takes the page number as an integer.
- Text.ToLower and Text.ToUpper fold ASCII letters only: the Unicode case mapping of `strings.ToLower`, `strings.ToUpper` and `strings.EqualFold` is not modelled. The regular-expression classes `\s`, `\w` and `\d` are ASCII in Go's RE2 as well, and the Unicode white space that `strings.Fields` splits on is modelled by `Text.IsFieldSpace`.
- Accounts.ValidateAccount: works on values. It returns the rewritten record instead of writing through the caller's pointer, so aliasing is not modelled.
- PlanService.ValidateSubscriptionPlan, PlanService.ValidateSPSubscriptionPlan and ProjectService.ValidateProject: the same; they return the rewritten record.
- PreferenceService.ValidateClientPreference, Passwords.VerifyUserPassword and Passwords.VerifySPPassword: the same.
- StringTools.Substr: requires a start and a length that are not negative when the start lies inside the input; there the Go slice panics. No caller in the model passes a negative value.
- SubscriptionRepo.Construct: the join's SQL names the table alias `C` once as `c` (subscription/repository/gorm.subscription.go:34). On a MySQL server with case-sensitive table aliases that query fails; the model assumes a server that ignores the case of aliases, where the join succeeds.
- Time stamps (`CreatedAt`, `UpdatedAt`) are carried as given. An update keeps the stored creation time, and the clock is not modelled.
- ServiceProviderRepo.ServiceProviderRepository.UpdateValue: `created_at` and `updated_at` are not among the modelled columns (ServiceProviderRepo.Column), so an update of either is an unknown-column error here, while GORM's single-column update succeeds on them.
- The repositories' finders and searches split the key into runes and read the first (`strings.Split(key, "")[0]`), which panics on an empty key; the model requires a non-empty key instead. Every service call refuses a blank key first, so the services are unaffected.

## Findings

| source | as written | input that shows it | evidently intended | confidence | as-written member | corrected member |
|---|---|---|---|---|---|---|
| subscriptionplan/repository/gorm.user_resource_link.go:78-91 | the first type switch on the identifier already takes every string, so the branch that deletes by plan_id is never reached | a link with plan ID "P1" and a different user ID, with DeleteMultiple("P1"): the link is returned but stays in the table | a string deletes every link it returns, by user ID or plan ID | not executed | PlanRepo.PlanIdMatchesSurviveDeleteMultiple | PlanRepo.CorrectedDeleteMultipleRemovesWhatItReturns |
| transaction/service/service.payment_gateway.go:241-247 | the error map is computed once, in the loop's init clause, and never again; a new nonce is never copied into the request parameters | a transaction whose nonce "a1" is already used: the loop never exits | revalidate after each new nonce, stop at the first free one, and send that nonce | not executed | Telebirr.TakenNonceHangs | Telebirr.RegenerateNonce |
| deleted/service/service.deleted.go:41-47 | the trash copy of a user never sets UserID, so the repository stores the new ID plus "_" and the original user ID is lost | two users differing only in ID: their trash rows are identical apart from the freshly minted ID | the copy carries the user's ID, stored as the new ID, "_" and the user ID | not executed | TrashService.TrashCopyAsWrittenForgetsUser | TrashService.TrashCopyKeepsUser |
| deleted/service/service.deleted.go:71-76 | the trash copy of a provider sets neither ID nor ProviderID, so the repository stores the new ID plus "_" and the provider's identity is lost | two providers differing only in ID: their trash rows are identical apart from the freshly minted ID | the copy carries the provider's ID, stored as the new ID, "_" and the provider ID | not executed | TrashService.TrashCopyAsWrittenForgetsProvider | TrashService.ProviderTrashCopyKeepsProvider |
| deleted/service/service.deleted.go:166 | the exact search of deleted users names the column "user_name", but the deleted_users column is "username" (entity/entities.deleted.go:14) | a trashed user "abebe" searched by "abebe": not found by the exact query | search the username column | medium; not executed | TrashService.UserNameSearchMissesDeletedUsers | TrashService.SearchDeletedUsers |
