# Lead synchronisation of ia-online-go, in Dafny

This project models the part of the ia-online-go back office that keeps local leads and
comments in step with the Bitrix CRM. It covers:

- the lead and comment repositories over their SQL tables;
- the lead and comment services that push to the CRM and mirror its answers locally;
- the two CRM webhook handlers and the comment endpoint;
- the custom request-validation rules;
- the small helpers used on the way, including the random code and password generators.

The database tables are maps from id to row, held in classes. The repositories' SQL
builders are the same step-by-step imperative builders as in Go, with `$n` placeholders
and an argument list. The model evaluates the queries they build against the table. The
CRM is a record of lookup functions (`Bitrix.Crm`). Every service method also returns the
list of CRM calls it made, so "no CRM call happened" can be stated. A database that fails
is a `connected` flag on each repository.

Go's wrapped errors (`fmt.Errorf("%s: %v", op, err)`) are `Failed(op)`. A Go run-time panic
(an index out of range, a nil dereference, `make` with a negative length) is a `Panic`
result. The HTTP server recovers from a panic in a handler by dropping the connection,
and the model answers `ConnectionClosed` in that case. The current time, the random
source (`draw(k, n)`, the k-th call of `rand.Int` with bound n) and `strconv.ParseFloat`
are parameters.

Where the written design of the service and the code disagree, the model follows the code:

- `CreateLead` writes nine columns and no reward columns. A new lead therefore starts with
  zero rewards, even though `SaveLead` puts the draft's rewards into the record it hands
  over (internal/storage/leads.go:65-75).
- `LeadByID` does not select the reward columns, so the lead it returns has zero rewards
  (internal/storage/leads.go:40-50).
- The comment hook parses `data[FIELDS][ID]` before it checks the token. A bad id with a
  bad token is answered 400, not 403 (internal/http/controllers/bitrix/bitrix.go:143-157).
- A CRM comment id of 0 is not stored under 0: the repository's second branch gives it
  the next id of the sequence (internal/storage/comment.go:65, 85-93).
- The listing puts the status-priority key before `created_at` when a status is given.
  The WHERE clause already pins the status, so that key is the same on every selected
  row; `BuildSelect` proves it.

## Model

| member | source | states |
|---|---|---|
| Text.ParseInt64 | internal/services/lead/lead.go:180 | `strconv.ParseInt(s, 10, 64)`: a success lies in the signed 64-bit range, and its text is an optional `+` or `-` followed by one or more decimal digits and nothing else |
| Text.ParseFormatRoundTrip | internal/services/lead/lead.go:180 | parsing the decimal spelling of any 64-bit integer gives the integer back |
| Text.Split | internal/services/lead/lead.go:179 | `strings.Split` yields one piece more than there are separators, and no piece holds the separator |
| Text.JoinSplit | internal/services/lead/lead.go:179 | joining the pieces with the separator rebuilds the string |
| Text.SplitHasSecondPiece | internal/services/lead/lead.go:179 | a second piece exists exactly when the separator occurs |
| Text.SplitAtFirst | internal/services/lead/lead.go:179 | the text before the first separator is the first piece |
| Text.LowerString | internal/storage/leads.go:141-143 | SQL LOWER keeps the length and lowers each ASCII capital |
| LeadStorage.WhereIgnoresLaterArgs | internal/storage/leads.go:93-148 | arguments appended after the WHERE conditions' placeholders do not change the WHERE clause's verdict |
| LeadStorage.WithNarrows | internal/storage/leads.go:96-148 | adding one absent criterion narrows the filter by exactly that criterion |
| LeadStorage.AddCond | internal/storage/leads.go:96-148 | one `if field != nil` step: the condition reads `$argCount`, args stays at argCount-1, and the WHERE clause now also requires that criterion |
| LeadStorage.BuildWhere | internal/storage/leads.go:87-148 | the WHERE clause selects exactly the rows that meet every supplied criterion, including the case-insensitive search of fio, address or phone; a nil or empty search adds nothing |
| LeadStorage.BuildSelect | internal/storage/leads.go:87-167 | exact filtering; the priority key present iff a status is given, under the next placeholder and constant on selected rows; LIMIT and OFFSET present iff limit > 0, under the two placeholders after it |
| LeadStorage.InsertNewest | internal/storage/leads.go:156 | inserting a row into an ordered listing adds exactly that row |
| LeadStorage.InsertMembers | internal/storage/leads.go:175-186 | the listing after an insert holds the old rows and the new one, and nothing else |
| LeadStorage.InsertKeepsOrder | internal/storage/leads.go:156 | inserting keeps the listing ordered by `created_at` descending |
| LeadStorage.InsertKeepsDistinct | internal/storage/leads.go:175-186 | inserting a new row keeps the listing free of duplicates |
| LeadStorage.Window | internal/storage/leads.go:159-167 | with limit > 0 the first `offset` rows are skipped and at most `limit` follow in order; with limit <= 0 all rows are kept |
| LeadStorage.PageMatches | internal/storage/leads.go:84-197 | every row of a page is a stored row that matches the filter |
| LeadStorage.EnumerationsArePermutations | internal/storage/leads.go:150-157 | two listings of one filter differ only in the order of rows created at the same time |
| LeadStorage.SetsIgnoreLaterArgs | internal/storage/leads.go:268-270 | the argument appended for the WHERE id does not change what the SET clauses write |
| LeadStorage.PrefixStep | internal/storage/leads.go:220-261 | each further column of the patch is one more SET clause, or none for a nil field |
| LeadStorage.AddClause | internal/storage/leads.go:214-218 | the `addClause` closure numbers its clause `$argCount`, keeps args at argCount-1, and extends the update by that column |
| LeadStorage.AddLeadClauses | internal/storage/leads.go:220-243 | the first eight `if != nil` steps express the patch's owner, status, contact and service columns |
| LeadStorage.AddRewardAndDateClauses | internal/storage/leads.go:244-261 | the last six steps express the reward and date columns |
| LeadStorage.BuildUpdate | internal/storage/leads.go:209-270 | the SET list applied to a row is exactly the sparse patch; it is empty iff every field is nil; the WHERE placeholder is the clause count plus one |
| LeadStorage.LeadRepository.LeadByID | internal/storage/leads.go:37-60 | a missing id is exactly `ErrLeadNotFound`, a failing database a wrapped error, and otherwise the row without its rewards |
| LeadStorage.LeadRepository.CreateLead | internal/storage/leads.go:62-82 | the row goes in under the caller's id with the nine named columns; an id in use or a failing database is an error and leaves the table alone |
| LeadStorage.LeadRepository.Leads | internal/storage/leads.go:84-197 | the result is the LIMIT/OFFSET window of all matching rows, each listed once, newest first; an empty window is `ErrLeadsNotFound`; a failing database or a negative offset under a positive limit is an error |
| LeadStorage.LeadRepository.UpdateLead | internal/storage/leads.go:199-278 | an empty patch returns at once; otherwise only the supplied columns of row `id` change and no other row changes |
| LeadStorage.LeadRepository.DeleteLead | internal/storage/leads.go:280-292 | the row is removed, any other row kept; a failing database is an error |
| CommentStorage.InsertOldest | internal/storage/comment.go:22 | inserting a comment into an ordered listing adds exactly that comment |
| CommentStorage.InsertMembers | internal/storage/comment.go:32-44 | the listing after an insert holds the old comments and the new one |
| CommentStorage.InsertKeepsOrder | internal/storage/comment.go:22 | inserting keeps the listing ordered by `created_at` ascending |
| CommentStorage.InsertKeepsDistinct | internal/storage/comment.go:32-44 | inserting a new comment keeps the listing free of duplicates |
| CommentStorage.SaveExtendsListing | internal/storage/comment.go:19-94 | after a save, the lead's listing gains exactly the saved comment, and every other lead's listing is unchanged |
| CommentStorage.CommentRepository.SaveComment | internal/storage/comment.go:57-94 | a non-zero id is inserted as given and read back with its creation time; id 0 takes the next sequence value; a taken id or a failing database is an error with nothing stored |
| CommentStorage.CommentRepository.Comments | internal/storage/comment.go:19-55 | exactly the lead's comments, each once, oldest first; none is `ErrCommentsNotFound` |
| CommentService.ToCommentDTO | internal/services/comment/comment.go:89-104 | `Manager` is true iff the author is user 228; id, text and creation time are copied |
| CommentService.ToCommentDTOs | internal/services/comment/comment.go:162-179 | the response list keeps the length and order of the stored comments |
| CommentService.CommentService.SaveComment | internal/services/comment/comment.go:50-107 | no caller is an error, a missing lead `ErrLeadNotFound`, someone else's lead `ErrLeadDoesNotBelongToUser`, all with no CRM call and no write; otherwise the CRM is called once and the comment is stored under the CRM's id with the lead, the caller and the text |
| CommentService.CommentService.SaveCommentFromBitrix | internal/services/comment/comment.go:109-148 | `ErrCommentDoesNotBelongToTheFunnel` exactly when the comment's deal can be read and lies outside the funnel; every other failure (an unknown comment, a non-decimal entity or deal id, an unknown deal, a failing store) is the wrapped error; nothing is stored on any error path; otherwise the comment is stored under its CRM id, on the deal's lead, as user 228 |
| CommentService.CommentService.Comments | internal/services/comment/comment.go:150-182 | `ErrCommentsNotFound` iff the lead has no comments; otherwise the lead's comments oldest first, in response shape |
| LeadService.StagesInvert | internal/services/lead/lead.go:190-199 | every CRM stage maps to a status in 0..7 that names the stage back, and every status in 0..7 is taken |
| LeadService.StatusTable | internal/services/lead/lead.go:190-199 | eight stages, statuses 0..7, no two stages share a status, 4 is "C42:1" and 5 is "C42:WON" |
| LeadService.DealId | internal/services/lead/lead.go:178-183 | a list shorter than three or a third entry without `_` panics; any other failure is the wrapped error; a success is a 64-bit integer |
| LeadService.DealIdBetweenUnderscores | internal/services/lead/lead.go:178-183 | the id is read from the text between the third entry's first and second `_` (or its end): that text parsed, or the wrapped error when it is not decimal |
| LeadService.DealIdRoundTrip | internal/services/lead/lead.go:178-183 | the entry `DEAL_<n>` yields the deal id n for every 64-bit n |
| LeadService.DealPatch | internal/services/lead/lead.go:206-242 | the patch sets the stage's status, and a completion time iff the status is 4 and a payment time iff it is 5, each the current time |
| LeadService.DealPatchEffect | internal/services/lead/lead.go:206-242 | the update sets the status, the three payments (each 0 when it does not parse), `completed_at` iff status 4 and `payment_at` iff status 5, never both, and keeps every other column |
| LeadService.SumRewardsPermutation | internal/services/lead/lead.go:275-279 | over exact reals, a reward total does not depend on the order of the leads |
| LeadService.SumsIgnoreTieOrder | internal/services/lead/lead.go:250-279 | over exact reals, the reward totals are the same for every order the listing may give equally old leads |
| LeadService.Statistic | internal/services/lead/lead.go:275-285 | the statistic leaves the start date unset and its total is the sum of the three services' rewards and the referrals' earnings |
| LeadService.StatisticIgnoresTieOrder | internal/services/lead/lead.go:250-285 | over exact reals, the statistic is the same for every order the listing may give equally old leads |
| LeadService.TotalRewards | internal/services/lead/lead.go:275-279 | the first loop sums each service's reward over the leads |
| LeadService.TotalCosts | internal/services/lead/lead.go:281-283 | the second loop sums the referrals' earnings |
| LeadService.ToLeadDTO | internal/services/lead/lead.go:92-107 | the response shape carries every column of the row and the lead's comments |
| LeadService.NewLead | internal/services/lead/lead.go:145-158 | the row handed to CreateLead has the deal id, the caller, status 0, no completion or payment time, and the draft's name, address, phone, services and rewards |
| LeadService.LeadService.Leads | internal/services/lead/lead.go:55-124 | a nil user defaults to the caller and no caller is an error; `ErrLeadsNotFound` is an empty list; each lead of the page carries its comments oldest first, empty when it has none; any other comment error aborts, so with the comment store down only an empty page succeeds |
| LeadService.LeadService.SaveLead | internal/services/lead/lead.go:126-173 | no caller or user stores nothing and calls no CRM; a failed deal push stores nothing; otherwise the lead is stored under the deal id with the caller, status 0 and the draft's services, and a non-empty comment alone is posted under the deal id; SaveLead then succeeds exactly when the CRM answers the comment, the comment store is up and the target id is free, and the comment is stored under the CRM's comment id (or the next sequence value for id 0) |
| LeadService.LeadService.EditDeal | internal/services/lead/lead.go:175-245 | a bad id fails before any CRM call; an unreadable deal or unknown stage is an error with no update; otherwise the named lead gets the deal's patch, and the update's own failure is not reported |
| LeadService.LeadService.GetUserPaymentStatistic | internal/services/lead/lead.go:247-288 | the result sums the rewards of the user's leads in the period and the referrals' earnings, with not-found as zero and total = cleaning + referrals + internet + shipping |
| BitrixController.DocKeyInjective | internal/http/controllers/bitrix/bitrix.go:65 | different indexes give different `document_id[i]` keys |
| BitrixController.DocumentIdsUnique | internal/http/controllers/bitrix/bitrix.go:64-71 | a form has one document id list |
| BitrixController.HookNamesDeal | internal/http/controllers/bitrix/bitrix.go:64-94 | a hook whose third document id is `DEAL_<n>` hands EditDeal the deal n |
| BitrixController.ScanDocumentIds | internal/http/controllers/bitrix/bitrix.go:64-71 | the list is the values of `document_id[0]`, `document_id[1]`, ... in order, up to the first empty or missing one |
| BitrixController.DealResponse | internal/http/controllers/bitrix/bitrix.go:94-104 | success is 200, a panic drops the connection, any other error is 500 |
| BitrixController.BitrixController.ChangingDeal | internal/http/controllers/bitrix/bitrix.go:41-105 | non-POST is 405 and an unreadable form 500, touching nothing; a wrong `auth[member_id]` is 403 with no update; otherwise EditDeal gets exactly the scanned list |
| BitrixController.BitrixController.NewComment | internal/http/controllers/bitrix/bitrix.go:108-176 | non-POST is 405; a non-decimal id is 400 before the token check; a wrong token is 403; nothing is stored on these paths; after the checks, 403 exactly when the comment's deal lies outside the funnel, 200 with the comment stored when the deal is in the funnel and the store takes it, and 500 otherwise |
| CommentController.Admit | internal/http/controllers/comment/comment.go:40-66 | only a POST with a decoded, valid body passes; otherwise 405, the invalid-request answer or the validation answer, in that order |
| CommentController.Respond | internal/http/controllers/comment/comment.go:70-96 | `ErrLeadNotFound` is 404, `ErrLeadDoesNotBelongToUser` 403, any other error 500, success the service's comment |
| CommentController.CommentController.SaveComment | internal/http/controllers/comment/comment.go:35-97 | a rejected request calls no service; an admitted one is the service's SaveComment, answered by Respond: no caller or a failing lead store is 500, a missing lead 404, someone else's lead 403; for the owner, the stored comment is returned exactly when the CRM answers, the comment store is up and the target id is free, and otherwise the answer is 500 with nothing stored |
| Validations.Utf8LenBounds | internal/http/validator/validations/validations.go:22 | Go's byte length is never below the character count and equals it for ASCII text |
| Validations.ClassesDisjoint | internal/http/validator/validations/validations.go:15-19 | digits, capitals and specials are three disjoint ASCII classes |
| Validations.AcceptedLength | internal/http/validator/validations/validations.go:11-23 | an accepted password holds at least three characters, and at least eight when it is ASCII |
| Validations.NewPasswordStructValidation | internal/http/validator/validations/validations.go:30-37 | an error is reported iff the old and new passwords are equal, carrying the new password as its value, the field `NewPassword` with struct name `new_password`, the tag `nefield` and the parameter `OldPassword` |
| Utils.Contains | internal/utils/utils.go:79-86 | true iff some element equals the value |
| Utils.DerefInt64 | internal/utils/utils.go:88-93 | nil gives 0, otherwise the pointed-to value |
| Utils.UserToDTO | internal/utils/utils.go:28-39 | the transfer record points at the user's id and copies every other field |
| Utils.DtoToUser | internal/utils/utils.go:41-52 | the user takes the record's id, 0 for nil, and every other field |
| Utils.UserRoundTrip | internal/utils/utils.go:28-52 | copying a user to its transfer record and back loses nothing |
| Utils.DtoRoundTrip | internal/utils/utils.go:28-52 | a transfer record with an id survives the copy to a user and back; one without gets id 0 |
| Utils.UserToReferralDTO | internal/utils/utils.go:54-62 | id, name, phone and city are copied and `Active` is the status |
| Utils.GeneratePasswordCode | internal/utils/utils.go:64-77 | a negative length panics; otherwise success iff every draw succeeds, and then the code has the length and takes each character from the charset at its draw |
| Utils.CodeCharacters | internal/utils/utils.go:64-77 | every generated code consists of capital letters and digits |
| Utils.GenSpecialsFacts | internal/utils/utils.go:102 | every generator special lies in the validator's special class |
| Utils.PoolFacts | internal/utils/utils.go:100-128 | each position's pool is non-empty ASCII; positions 0, 1 and 2 draw a digit, a capital and a special |
| Utils.Swap | internal/utils/utils.go:148 | the two positions exchange their characters and every other position is kept |
| Utils.SwapPermutes | internal/utils/utils.go:148 | a swap keeps the multiset of characters |
| Utils.ShuffledPermutes | internal/utils/utils.go:144-150 | the shuffle only permutes the characters |
| Utils.Shuffle | internal/utils/utils.go:144-150 | in place: success iff every draw succeeds, and then the array is the shuffle of its old contents; the multiset is kept in every case |
| Utils.PermutedPasswordValid | internal/utils/utils.go:130-133 | a permutation of an accepted ASCII password is accepted |
| Utils.FilledValid | internal/utils/utils.go:105-128 | the password before shuffling is ASCII and already accepted |
| Utils.GenerateValidPassword | internal/utils/utils.go:95-134 | a length below 8 is an error; a failed fill draw is an error; a failed shuffle draw panics; a success is the shuffled fill and passes PasswordValidation |

## Left out

- The SQL engine itself: the queries are evaluated by the model, not executed. `ILIKE`
  wildcards (`%` and `_` typed inside a search) are read as plain characters. NULL columns
  other than the two optional timestamps are not modelled. The order of rows created at the
  same instant is left open; listings are specified up to that order.
- Case folding covers the ASCII letters only; SQL LOWER on other letters is not modelled.
- Floating point: rewards and statistics are exact reals, and `strconv.ParseFloat` is an
  opaque parameter that either yields a number or fails.
- The Bitrix REST client, the user service and the referral repository: their code is not
  part of this model. They are lookup functions that succeed or fail.
- JSON decoding and the struct validator: their results are inputs of the comment endpoint.
  `r.ParseForm` is likewise an input (the form, or none when it cannot be parsed).
- `FormatValidationErrors`, `HandleNotFound` and the other response-writing helpers: each
  answer is a value of `Responses.Response` that carries its status code.
  The `Allow: POST` header is the `MethodNotAllowed("POST")` payload.
- Logging, `fmt.Println`, contexts beyond the caller's user id, and concurrency.
- The e-mail service and `cmd/main/main.go` (configuration, wiring, routing, serving).
- `crypto/rand`: the random source is an oracle that answers each call with an in-range
  number or fails. Its statistical quality is out of scope.
- Bytes versus characters: strings are sequences of characters. Go's byte length is
  modelled by counting UTF-8 widths (`Utf8Len`).
- LeadStorage.BuildUpdate: does not state that the update has one SET clause per supplied
  field. It states only the empty-iff-all-nil case, the placeholder numbering and the
  effect on a row.
- Validations.PasswordValidation and Validations.AtLeastOneServiceEnabled: both are
  predicates whose definitions are the rules themselves. The properties about them are in
  AcceptedLength, ClassesDisjoint and GenerateValidPassword.
- Table constraints other than the primary keys: the schema is not part of the source.
  The written design calls `comments.lead_id` a foreign key to the leads table. The model
  does not enforce it: CommentStorage.CommentRepository.SaveComment stores a comment whose
  lead has no local row, and LeadStorage.LeadRepository.DeleteLead removes a lead that
  still has comments. With such a key in the database, both would fail instead.
- LeadStorage.LeadRepository.Leads and CommentStorage.CommentRepository.Comments: a row
  scan that fails midway is not distinguished from a failing database. Either way the
  result is the wrapped error.
