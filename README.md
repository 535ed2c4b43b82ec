# SubhaInvest — a verified model of its sequential core

SubhaInvest is a prototype web app for buying slots of real-estate investment models. A user signs
in with a phone number and a one-time password, completes a profile, picks a project and an
investment model, and chooses a number of slots. This project models in Dafny the parts that are
plain sequential logic:

- **Server store** (`Storage.MemStorage`). It keeps maps of users, projects, investment models,
  investments and one-time passwords, with their id counters. `CreateInvestment` stores the record
  and takes the slots from the referenced model.
- **Server handlers** (`Routes.Server`, `OtpService`, `ServerLog`). These cover the auth and
  investment routes as status-code guard chains over the store and the session's user id, OTP
  sending, and the API log line with the error fallback.
- **Client state**:
  - `InvestmentContext.InvestmentState`: the selection and `createInvestment` over abstract
    project and user documents;
  - the four-step invest wizard with its drafts (`InvestPage`);
  - the slot picker (`SlotSelectionPage`);
  - the legacy accordion wizard (`InvestmentFlow`) and the legacy sign-in form (`AuthFlow`).
- **Auth pages**: the mock auth context, the two login forms, the six-cell OTP entry and the
  profile form with its email recogniser.
- **Admin dashboard**: the statistics loop, the filter, page slicing and the export file name.
- **Utilities**: phone formatting, initials and the simple-interest projection.

Each source file with state that changes becomes a class. Fields are changed by methods whose
`ensures` give the complete new state. Pure expressions become functions with lemmas that relate
them to independent definitions. Clocks are `now` parameters, and Firestore documents are maps.
Library parsing (zod) is an `Option` input or a boolean parameter.

The model follows the code where the code and its description differ:

- POST `/api/investments` takes `amount` from the request body.
- It does not check that the model belongs to the project.
- It accepts `slots <= 0` whenever the model has at least that many available.
- Its body's `userId` is replaced by the session's.
- The dashboard row's `userId` is the investment's own, because the spread comes after it.
- `handleNextStep` at the last step writes a draft with step 4 and stays at step 3.
- The slot picker's effect does not stop after navigating to `/projects`, so its model lookup
  still runs and a later navigation wins.
- The mock auth user has no `uid`, so the client's `createInvestment` always fails its first guard
  in bypass mode. The model takes the uid as a parameter.

## Model

| member | source | states |
|---|---|---|
| Storage.MemStorage.constructor | server/storage.ts:46-164 | every map except projects and models starts empty and every counter at 1; read in insertion order, the project and model maps give back exactly the seeded lists |
| Storage.Seed | server/storage.ts:147-163 | seeding records with distinct ids keys each record by its id, and the insertion order lists the ids in seeding order, so reading the map in that order returns the seeded list |
| Storage.SetEach | server/storage.ts:147-163 | the seeding loop of `Map.set` calls gives exactly the map and key insertion order defined by the fold `KeyedBy` / `InsertionOrder` |
| Storage.KeyedByStores | server/storage.ts:147-163 | with distinct keys, every seeded record is found under its own key |
| Storage.InsertionOrderDistinct | server/storage.ts:147-163 | with distinct keys, the insertion order has one entry per record, namely that record's key |
| Storage.KeyedByValues | server/storage.ts:147-163 | with distinct keys, reading the map in insertion order returns the original sequence |
| Storage.SeedProjectIdsDistinct | server/storage.ts:63-85 | the two seeded projects have different ids |
| Storage.SeedModelIdsDistinct | server/storage.ts:87-145 | the six seeded models have pairwise different ids |
| Storage.MemStorage.GetUser | server/storage.ts:168-170 | a user is returned exactly when the id is stored, and it is the stored one |
| Storage.MemStorage.GetUserByPhoneNumber | server/storage.ts:172-179 | none is returned iff no stored user has the phone; otherwise a stored user with that phone, the first such in id order |
| Storage.MemStorage.CreateUser | server/storage.ts:181-190 | the new user gets the old counter as its id, which is above every existing id; the counter grows by one; `GetUser` then returns it; nothing else changes |
| Storage.MemStorage.GetProject | server/storage.ts:193-195 | a project is returned exactly when its id is stored, and it is the stored one |
| Storage.MemStorage.GetProjects | server/storage.ts:197-199 | the list has one entry per stored project and holds exactly the stored projects |
| Storage.MemStorage.GetInvestmentModel | server/storage.ts:202-204 | a model is returned exactly when its id is stored, and it is the stored one |
| Storage.MemStorage.GetInvestmentModelsByProject | server/storage.ts:206-214 | the stored models whose `projectId` matches, in insertion order; a model is listed iff it is stored with that project id |
| Storage.ValuesInOrderAreValues | server/storage.ts:206-214 | reading a map in an order that lists exactly its keys reaches exactly its values |
| Storage.MemStorage.GetInvestment | server/storage.ts:217-219 | an investment is returned exactly when its id is stored, and it is the stored one |
| Storage.MemStorage.GetInvestmentsByUser | server/storage.ts:221-229 | the stored investments of that user in id order: every listed one is stored and belongs to the user, and every stored one of the user is listed |
| Storage.UserInvestmentsExact | server/storage.ts:221-229 | over dense ids, the user-filtered listing contains exactly the user's stored investments |
| Storage.MemStorage.CreateInvestment | server/storage.ts:231-251 | the record gets the old counter as its id and the counter grows by one; `GetInvestment` returns it; a known model's `availableSlots` drops by `slots` and every other model is unchanged; an unknown model leaves all models unchanged; users, projects and OTPs are untouched |
| Storage.MemStorage.CreateOtp | server/storage.ts:254-263 | the OTP is stored under the old counter, the counter grows by one, nothing else changes |
| Storage.MemStorage.GetLatestOtp | server/storage.ts:265-280 | the result is an unused OTP for the phone whose positive creation time is maximal, the first such in id order; none only when no unused OTP for the phone has a positive creation time |
| Storage.MemStorage.MarkOtpAsUsed | server/storage.ts:282-290 | a stored OTP gets `used := true` and no other change; an unknown id changes nothing |
| OtpService.GenerateOtp | server/otp.ts:4-6 | the code is the fixed six-digit `"123456"` whatever the phone |
| OtpService.ValidateOtp | server/otp.ts:8-10 | every phone and code pair is accepted |
| OtpService.OtpRecord | server/otp.ts:20-27 | the record is for the phone, holds the fixed code, is unused and expires at the current time |
| OtpService.SendOtp | server/otp.ts:12-38 | success iff the phone is exactly ten ASCII digits and the record parses; on failure the store is unchanged; on success exactly one OTP record is added and nothing else changes |
| Routes.CheckInvestment | server/routes.ts:210-244 | in order: no session gives 401, an unparsable body gives 400, an unknown project gives 404, then an unknown model 404, then `availableSlots < slots` 400; acceptance holds exactly when all guards pass, and it carries the body with `userId` replaced by the session's |
| Routes.Rejection | server/routes.ts:210-248 | each rejection maps to its status code: 401, 404 or 400 |
| Routes.AmountIsTakenFromBody | server/routes.ts:219-222 | any amount in an accepted body is stored as given, not recomputed |
| Routes.ModelOfOtherProjectAccepted | server/routes.ts:225-239 | a model of a different project is accepted when it has enough slots |
| Routes.NonPositiveSlotsAccepted | server/routes.ts:237-239 | a zero or negative slot count is accepted |
| Routes.Server.constructor | server/routes.ts:35-49 | the server starts over the store with no session user |
| Routes.Server.SendOtpRoute | server/routes.ts:52-64 | a missing phone gives 400 and no change; otherwise the reply is 200 exactly when the OTP was sent and 500 otherwise; a sent OTP is stored under the next OTP id and that counter grows by one, and no other part of the store changes |
| Routes.Server.VerifyOtpRoute | server/routes.ts:66-92 | missing fields give 400; a known phone sets the session to that user and replies `isNewUser: false`; an unknown phone replies `isNewUser: true` with the session unchanged; the store never changes |
| Routes.Server.CreateProfileRoute | server/routes.ts:94-128 | missing fields give 400 and no change; an existing phone gives 409 and creates no user; otherwise one user is created with the next id and the session is set to it; nothing else in the store changes |
| Routes.Server.MeRoute | server/routes.ts:130-148 | 401 without a session, 404 for a session user that is not stored, otherwise 200 with that user |
| Routes.Server.GetInvestmentsRoute | server/routes.ts:195-208 | 401 without a session; otherwise exactly the session user's stored investments |
| Routes.Server.PostInvestmentRoute | server/routes.ts:210-252 | a rejection changes nothing and returns its status; acceptance returns 201 with the record `CreateInvestment` stored, so the model's slots drop by `slots`; nothing else in the store changes |
| ServerLog.Truncate | server/index.ts:29-31 | the result is at most 80 long; a line of at most 80 is kept; a longer one becomes its first 79 characters and an ellipsis |
| ServerLog.TruncateIdempotent | server/index.ts:29-31 | truncating twice is truncating once |
| ServerLog.RawLogLine | server/index.ts:24-27 | the line begins with method, path, status and duration; with a JSON body it is exactly that head, then ` :: `, then the JSON; without one it is the head alone |
| ServerLog.LogLine | server/index.ts:21-35 | a line is logged iff the path starts with `/api`, and it is the truncated raw line |
| ServerLog.ShortLineKept | server/index.ts:23-31 | an API line of at most 80 characters is logged unchanged |
| ServerLog.ErrorStatus | server/index.ts:44 | a truthy `status` wins, else a truthy `statusCode`, else 500 |
| ServerLog.ErrorMessage | server/index.ts:45 | a non-empty message is kept; otherwise "Internal Server Error" |
| InvestmentContext.NewInvestmentRecord | client/src/context/InvestmentContext.tsx:234-252 | the amount is minimum investment times slots; returns and lock-in come from the model; the status is "active" |
| InvestmentContext.ArrayUnion | client/src/context/InvestmentContext.tsx:256-258 | the element is present afterwards, nothing is lost and nothing else is added; it is appended only when absent |
| InvestmentContext.ArrayUnionIdempotent | client/src/context/InvestmentContext.tsx:256-258 | adding the same investment twice is adding it once |
| InvestmentContext.InvestmentState.constructor | client/src/context/InvestmentContext.tsx:67-76 | nothing selected, one slot, loading, no projects or investments |
| InvestmentContext.InvestmentState.TotalAmount | client/src/context/InvestmentContext.tsx:287-289 | 0 without a model, else the model's minimum investment times the slot count |
| InvestmentContext.InvestmentState.SelectProject | client/src/context/InvestmentContext.tsx:81-83 | only the selected project changes |
| InvestmentContext.InvestmentState.SelectModel | client/src/context/InvestmentContext.tsx:85-87 | only the selected model changes |
| InvestmentContext.InvestmentState.SetSlots | client/src/context/InvestmentContext.tsx:89-91 | only the slot count changes |
| InvestmentContext.InvestmentState.ResetSelection | client/src/context/InvestmentContext.tsx:93-97 | project and model become null and slots 1, so the total is 0 |
| InvestmentContext.InvestmentState.LoadProjects | client/src/context/InvestmentContext.tsx:100-131 | bypass mode or a failed snapshot gives the mock projects; otherwise the snapshot's; loading ends |
| InvestmentContext.InvestmentState.LoadInvestments | client/src/context/InvestmentContext.tsx:134-165 | no uid changes nothing; bypass mode or a failed snapshot clears the list; otherwise the user document's list, if the document exists |
| InvestmentContext.InvestmentState.ModelsOfProject | client/src/context/InvestmentContext.tsx:168-191 | empty in bypass mode or for a missing document; otherwise the document's models |
| InvestmentContext.InvestmentState.LoadModelsForSelection | client/src/context/InvestmentContext.tsx:194-202 | with a selected project that has models, the first becomes the selected model; otherwise nothing changes |
| InvestmentContext.InvestmentState.CreateInvestment | client/src/context/InvestmentContext.tsx:204-285 | a missing project, model or uid gives false and changes nothing; a missing project document, too few project slots or a missing user document gives false and writes nothing; loading always ends; otherwise the record is added to the user's list, the project's slots drop by the selection, the selection is reset and the result is true |
| ClientTypes.FindById | client/src/pages/invest/InvestPage.tsx:122 | `find` by id: none iff no element has the id; otherwise the first one that does |
| ClientTypes.FindProject | client/src/pages/invest/InvestPage.tsx:122 | none iff no project has the id; otherwise the first one that does |
| ClientTypes.FindModel | client/src/pages/projects/SlotSelectionPage.tsx:84 | none iff no model has the id; otherwise the first one that does |
| InvestPage.DraftKeyInjective | client/src/pages/invest/InvestPage.tsx:106-108 | different projects have different draft keys |
| InvestPage.ModelIdOrNull | client/src/pages/invest/InvestPage.tsx:100 | the draft's model id is present iff a model with a non-empty id is selected |
| InvestPage.GetModelsByProject | client/src/pages/invest/InvestPage.tsx:136-172 | three models, Gold, Platinum and Virtual, each tagged with the given project id |
| InvestPage.Rank | client/src/pages/invest/InvestPage.tsx:625-631 | Gold ranks 0, Platinum 1, every other name 2 |
| InvestPage.CompareAsWrittenOrdersByRank | client/src/pages/invest/InvestPage.tsx:625-631 | for names of different rank the comparator orders by rank |
| InvestPage.CompareAsWrittenNotAntisymmetric | client/src/pages/invest/InvestPage.tsx:626 | two Gold models each compare below the other |
| InvestPage.CompareModels | client/src/pages/invest/InvestPage.tsx:625-631 | negative iff the first ranks lower, zero iff equal rank |
| InvestPage.CompareModelsAntisymmetric | client/src/pages/invest/InvestPage.tsx:625-631 | swapping the arguments negates the result |
| InvestPage.CompareModelsTransitive | client/src/pages/invest/InvestPage.tsx:625-631 | the corrected comparator's order is transitive |
| InvestPage.CompareAgreesOutsideTies | client/src/pages/invest/InvestPage.tsx:625-631 | the corrected comparator agrees with the written one except on Gold–Gold and Platinum–Platinum pairs |
| InvestPage.InsertByRankSorted | client/src/pages/invest/InvestPage.tsx:625-631 | inserting by rank into a rank-sorted list keeps it sorted |
| InvestPage.SortForDisplay | client/src/pages/invest/InvestPage.tsx:624-632 | the display order is sorted by rank and is a permutation of the models |
| InvestPage.CatalogueInDisplayOrder | client/src/pages/invest/InvestPage.tsx:136-172 | the built-in models are already in display order |
| InvestPage.SummaryTotal | client/src/pages/invest/InvestPage.tsx:916-917 | the total is minimum investment times slots times quantity; one unit gives the price of the slots, more units never give less |
| InvestPage.SummaryTotalPerUnit | client/src/pages/invest/InvestPage.tsx:916-917 | each extra unit of quantity adds the price of the selected slots once |
| InvestPage.SummaryTotalIsRepeatedAmount | client/src/pages/invest/InvestPage.tsx:916-917 | with a model selected, the summary's total is the context's `totalAmount` times the quantity |
| InvestPage.InvestPageState.constructor | client/src/pages/invest/InvestPage.tsx:46-48 | step 0, quantity 1, no models |
| InvestPage.InvestPageState.HandleNextStep | client/src/pages/invest/InvestPage.tsx:182-231 | from step 0 a project, from 1 a model and from 2 a positive slot count allow one step on; otherwise the step stays; with a project selected the draft is written with the old step plus one |
| InvestPage.InvestPageState.HandlePrevStep | client/src/pages/invest/InvestPage.tsx:233-251 | above step 0 the step drops by one and the draft records it; at step 0 nothing changes |
| InvestPage.InvestPageState.HandleSlotsChange | client/src/pages/invest/InvestPage.tsx:257-265 | the count changes only with a model selected and `1 <= n <= availableSlots`; a count within bounds stays within bounds; every other context field is unchanged |
| InvestPage.InvestPageState.HandleQuantityChange | client/src/pages/invest/InvestPage.tsx:267-271 | the quantity changes only to a value of at least 1 |
| InvestPage.InvestPageState.HandleContactSales | client/src/pages/invest/InvestPage.tsx:273-283 | navigates to the dashboard and removes this project's draft |
| InvestPage.InvestPageState.HandleSaveDraft | client/src/pages/invest/InvestPage.tsx:285-305 | with a project selected, the draft of the current state is stored under this project's key; otherwise nothing changes |
| InvestPage.InvestPageState.SaveDraftEffect | client/src/pages/invest/InvestPage.tsx:97-117 | with a project selected, the current state is written as the draft |
| InvestPage.InvestPageState.FindProjectEffect | client/src/pages/invest/InvestPage.tsx:120-133 | a known project id selects that project; an unknown one navigates to the dashboard |
| InvestPage.InvestPageState.LoadModelsEffect | client/src/pages/invest/InvestPage.tsx:175-180 | with a selected project, the page's models are the built-in three for it |
| InvestPage.InvestPageState.HandleCompleteInvestment | client/src/pages/invest/InvestPage.tsx:307-327 | without a model or a positive slot count nothing happens; success removes the draft and implies a stored investment with the project's slots reduced; failure leaves the draft, the documents, the selection and the location as they were |
| SlotSelectionPage.MockModels | client/src/pages/projects/SlotSelectionPage.tsx:54-82 | three models, gold, platinum and virtual, each of the route's project |
| SlotSelectionPage.Increase | client/src/pages/projects/SlotSelectionPage.tsx:98-102 | adds one exactly when a model is selected and the count is below its slots; keeps a count within bounds |
| SlotSelectionPage.Decrease | client/src/pages/projects/SlotSelectionPage.tsx:104-108 | subtracts one exactly when the count is above 1; never goes below 1 from 1 or more |
| SlotSelectionPage.IncreaseThenDecrease | client/src/pages/projects/SlotSelectionPage.tsx:98-108 | an increase that happened is undone by a decrease |
| SlotSelectionPage.DecreaseKeepsBounds | client/src/pages/projects/SlotSelectionPage.tsx:104-108 | a decrease keeps the count within the model's bounds |
| SlotSelectionPage.SlotSelection.HandleIncreaseSlot | client/src/pages/projects/SlotSelectionPage.tsx:98-102 | the context's count becomes `Increase` of the old one; nothing else changes |
| SlotSelectionPage.SlotSelection.HandleDecreaseSlot | client/src/pages/projects/SlotSelectionPage.tsx:104-108 | the context's count becomes `Decrease` of the old one; nothing else changes |
| SlotSelectionPage.SlotSelection.InitEffect | client/src/pages/projects/SlotSelectionPage.tsx:36-96 | an unknown project navigates to `/projects`; an unknown model navigates to `/projects/<id>` without selecting a model; known ones are selected |
| SlotSelectionPage.SlotSelection.HandlePayNow | client/src/pages/projects/SlotSelectionPage.tsx:110-112 | navigates to `/payment` keeping the selection |
| SlotSelectionPage.SlotSelection.HandleInvestLater | client/src/pages/projects/SlotSelectionPage.tsx:114-120 | navigates to `/dashboard` keeping the selection |
| AdminDashboard.MakeRow | client/src/pages/dashboard/AdminDashboard.tsx:128-133 | a row carries its investment with the user's name, phone and email, and the investment's own user id |
| AdminDashboard.CountInvestors | client/src/pages/dashboard/AdminDashboard.tsx:122-125 | the number of users with a non-empty investment list, at most the number of users |
| AdminDashboard.NoInvestorsIff | client/src/pages/dashboard/AdminDashboard.tsx:122-150 | no investors iff no investments at all |
| AdminDashboard.OfProject | client/src/pages/dashboard/AdminDashboard.tsx:136-147 | the investments of a project all carry its name, and the list is empty iff none does |
| AdminDashboard.StatsMapExact | client/src/pages/dashboard/AdminDashboard.tsx:136-150 | each project's entry lists exactly its investments, counts them and sums their amounts; summed over all projects this is the overall total |
| AdminDashboard.RecordInvestments | client/src/pages/dashboard/AdminDashboard.tsx:127-150 | the inner loop appends one row per investment and adds each amount to the total and to its project's entry |
| AdminDashboard.Aggregate | client/src/pages/dashboard/AdminDashboard.tsx:115-153 | one row per investment in user then investment order; the investor count; the overall total is the sum of all amounts; the per-project stats are exact and sum to the total; the project keys are listed in the order each project first appears |
| AdminDashboard.RowsFollowInvestments | client/src/pages/dashboard/AdminDashboard.tsx:115-134 | the rows' investments are all investments in user then investment order |
| AdminDashboard.RowsOfProject | client/src/pages/dashboard/AdminDashboard.tsx:170-173 | exactly the rows of that project |
| AdminDashboard.FilteredInvestments | client/src/pages/dashboard/AdminDashboard.tsx:170-173 | "all" keeps every row; any other value keeps exactly the rows of that project |
| AdminDashboard.InvestmentsOfRowsOfProject | client/src/pages/dashboard/AdminDashboard.tsx:170-173 | filtering rows by project is filtering their investments by project |
| AdminDashboard.FilterMatchesProjectStats | client/src/pages/dashboard/AdminDashboard.tsx:136-173 | the filtered rows of a project are that project's stats entry, and their number is its investor count |
| AdminDashboard.PageRows | client/src/pages/dashboard/AdminDashboard.tsx:360-361 | at most a page of rows, the ones at `page*rowsPerPage` onward; full pages are full, the last page holds the rest |
| AdminDashboard.PageOfIndex | client/src/pages/dashboard/AdminDashboard.tsx:360-361 | every row appears on page `index / rowsPerPage` at position `index % rowsPerPage` |
| AdminDashboard.DatePart | client/src/pages/dashboard/AdminDashboard.tsx:87 | the prefix of the ISO time before its first `T` |
| AdminDashboard.ExportFileName | client/src/pages/dashboard/AdminDashboard.tsx:87-91 | `All_Projects_Investments_<date>.xlsx` for "all", otherwise `<selected>_Investments_<date>.xlsx` |
| AdminDashboard.Dashboard.constructor | client/src/pages/dashboard/AdminDashboard.tsx:50-61 | loading, filter "all", page 0 of 10 rows, empty statistics |
| AdminDashboard.Dashboard.DisplayedRows | client/src/pages/dashboard/AdminDashboard.tsx:360-361 | the page shown never holds more than `rowsPerPage` rows |
| AdminDashboard.Dashboard.FetchData | client/src/pages/dashboard/AdminDashboard.tsx:96-168 | a failed read leaves the data and ends loading; otherwise the projects, rows and statistics are those of `Aggregate`, project card order included |
| AdminDashboard.Dashboard.SelectProject | client/src/pages/dashboard/AdminDashboard.tsx:329 | only the filter changes |
| Utils.CalculateProjectedAmount | client/src/lib/utils.ts:26-34 | the interest is principal times rate over 100 times years |
| Utils.ProjectionWithoutInterest | client/src/lib/utils.ts:26-34 | a zero rate or zero years gives the principal |
| Utils.ProjectionMonotoneInYears | client/src/lib/utils.ts:26-34 | for non-negative principal and rate, more years never give less |
| Utils.FormatPhoneNumber | client/src/lib/utils.ts:36-40 | empty stays empty; a `+91` phone is kept; any other gets the `+91 ` prefix |
| Utils.FormattedStartsWithCode | client/src/lib/utils.ts:38-39 | a formatted non-empty phone starts with `+91` |
| Utils.FormatPhoneNumberIdempotent | client/src/lib/utils.ts:36-40 | formatting twice is formatting once |
| Utils.GetInitialsAsWritten | client/src/lib/utils.ts:42-49 | the initials as the code computes them, including its `undefined` pieces and its throw |
| Utils.AsWrittenSingleWord | client/src/lib/utils.ts:46 | a single word gives its first two characters, uppercased |
| Utils.AsWrittenSeveralWords | client/src/lib/utils.ts:48 | several words with non-empty ends give the uppercased first letters of the first and last word |
| Utils.AsWrittenTrailingSpace | client/src/lib/utils.ts:48 | `"Ada "` gives `"AUNDEFINED"` |
| Utils.AsWrittenSingleSpace | client/src/lib/utils.ts:48 | `" "` throws |
| Utils.GetInitials | client/src/lib/utils.ts:42-49 | at most two letters, exactly two for a name of two or more words, empty for a name without words |
| Utils.AsWrittenAgreesWithoutEmptyPieces | client/src/lib/utils.ts:42-49 | where no piece of the split is empty, the corrected initials are the written ones |
| Utils.InitialsIgnoreTrailingSpace | client/src/lib/utils.ts:42-49 | `"Ada "` and `"Ada"` both give `"AD"` |
| OtpVerificationPage.KeptValue | client/src/pages/auth/OtpVerificationPage.tsx:33-35 | at most one character: the last typed one of a longer value |
| OtpVerificationPage.JoinLength | client/src/pages/auth/OtpVerificationPage.tsx:70-71 | with one-character cells, the joined code has full length iff no cell is empty |
| OtpVerificationPage.PasteFullCode | client/src/pages/auth/OtpVerificationPage.tsx:57-62 | pasting a six-digit code makes the joined cells that code |
| OtpVerificationPage.Overwrite | client/src/pages/auth/OtpVerificationPage.tsx:57-62 | the copied cells with the first `n` overwritten by the pasted characters and the rest kept |
| OtpVerificationPage.VerifyRequest | client/src/pages/auth/OtpVerificationPage.tsx:69-81 | the code is submitted iff every cell is filled, and it is the six-character join |
| OtpVerificationPage.OtpEntry.constructor | client/src/pages/auth/OtpVerificationPage.tsx:14 | six empty cells, the first focused |
| OtpVerificationPage.OtpEntry.MountEffect | client/src/pages/auth/OtpVerificationPage.tsx:20-30 | no phone number sends the page back to `/login`; otherwise the first cell is focused |
| OtpVerificationPage.OtpEntry.HandleOtpChange | client/src/pages/auth/OtpVerificationPage.tsx:32-45 | only cell `i` changes, to the kept value; focus moves on only for a non-empty value before the last cell |
| OtpVerificationPage.OtpEntry.HandleKeyDown | client/src/pages/auth/OtpVerificationPage.tsx:47-51 | Backspace on an empty cell after the first moves focus back; nothing else changes |
| OtpVerificationPage.OtpEntry.HandlePaste | client/src/pages/auth/OtpVerificationPage.tsx:53-67 | a trimmed paste of one to six digits fills the first cells and focuses `min(n, 5)`; any other paste changes nothing |
| OtpVerificationPage.OtpEntry.HandleBack | client/src/pages/auth/OtpVerificationPage.tsx:130-132 | navigates to `/login`, cells and focus kept |
| OtpVerificationPage.EnabledVerifySubmits | client/src/pages/auth/OtpVerificationPage.tsx:69-81 | an enabled verify button always submits a complete code |
| ProfileSetupPage.MatchShape | client/src/pages/auth/ProfileSetupPage.tsx:37 | a matching address is a local part, one `@` and a domain |
| ProfileSetupPage.MatchOfParts | client/src/pages/auth/ProfileSetupPage.tsx:37 | any valid local part, `@` and valid domain match |
| ProfileSetupPage.DomainOfLabels | client/src/pages/auth/ProfileSetupPage.tsx:37 | a word run, a dot and two to seven letters form a domain |
| ProfileSetupPage.AcceptsPlainAddress | client/src/pages/auth/ProfileSetupPage.tsx:37 | `local@run.tld` matches for word runs and a two-to-seven-letter top label |
| ProfileSetupPage.RejectsDomainWithoutDot | client/src/pages/auth/ProfileSetupPage.tsx:37 | a domain without a dot never matches |
| ProfileSetupPage.RejectsLongTopLevel | client/src/pages/auth/ProfileSetupPage.tsx:37 | a top label longer than seven never matches |
| ProfileSetupPage.HandleCreateProfile | client/src/pages/auth/ProfileSetupPage.tsx:26-55 | a blank trimmed name is refused first; a non-empty email must match; otherwise the name and email as typed go to `createProfile` |
| ProfileSetupPage.EmptyEmailAccepted | client/src/pages/auth/ProfileSetupPage.tsx:37 | an empty email never blocks the profile |
| ProfileSetupPage.EnabledSubmitPassesNameCheck | client/src/pages/auth/ProfileSetupPage.tsx:116 | an enabled button never meets the blank-name error |
| ProfileSetupPage.BlankNameRefused | client/src/pages/auth/ProfileSetupPage.tsx:27-34 | a name of only whitespace is refused |
| LoginPage.LoginForm.constructor | client/src/pages/auth/LoginPage.tsx:14-16 | empty phone and code, phone phase |
| LoginPage.LoginForm.SetPhoneNumber | client/src/pages/auth/LoginPage.tsx:14 | only the phone changes |
| LoginPage.LoginForm.SetOtp | client/src/pages/auth/LoginPage.tsx:15 | only the code changes |
| LoginPage.LoginForm.HandleLogin | client/src/pages/auth/LoginPage.tsx:21-57 | a phone not ten long shows an error and changes nothing; the first valid submit shows the code field even if `login` throws; `"123456"` navigates to `/dashboard` even if `verifyOtp` throws; any other code shows "Invalid OTP" |
| LoginPage.LoginForm.ButtonLabel | client/src/pages/auth/LoginPage.tsx:123 | "Login" iff the code field is shown, else "Continue" |
| OtpLogin.OtpLoginForm.constructor | client/src/components/OTPLogin.tsx:5-8 | empty phone, code and error; code field hidden |
| OtpLogin.OtpLoginForm.HandleContinue | client/src/components/OTPLogin.tsx:11-17 | an empty phone sets "Please enter a phone number"; otherwise the code field is shown |
| OtpLogin.OtpLoginForm.HandleLogin | client/src/components/OTPLogin.tsx:19-25 | `"123456"` navigates to `/dashboard`; any other code sets "Invalid OTP" |
| OtpLogin.OtpLoginForm.HandleButton | client/src/components/OTPLogin.tsx:74 | the button runs continue in the phone phase and login in the code phase |
| AuthContext.MockUser | client/src/context/AuthContext.tsx:27-33 | the fixed test user |
| AuthContext.AuthSession.constructor | client/src/context/AuthContext.tsx:35-37 | the user is the mock user and the phone is empty |
| AuthContext.AuthSession.IsAuthenticated | client/src/context/AuthContext.tsx:63 | always true |
| AuthContext.AuthSession.IsBypassMode | client/src/context/AuthContext.tsx:71 | always true |
| AuthContext.AuthSession.IsLoading | client/src/context/AuthContext.tsx:70 | always false |
| AuthContext.AuthSession.SetPhoneNumber | client/src/context/AuthContext.tsx:65 | only the phone changes |
| AuthContext.AuthSession.Login | client/src/context/AuthContext.tsx:40-43 | the phone is set and the user is the mock user |
| AuthContext.AuthSession.VerifyOtp | client/src/context/AuthContext.tsx:45-48 | true for every code, and the user is the mock user |
| AuthContext.AuthSession.CreateProfile | client/src/context/AuthContext.tsx:50-53 | true for every name, and the user is the mock user |
| AuthContext.AuthSession.Logout | client/src/context/AuthContext.tsx:55-57 | the user stays the mock user |
| AuthContext.RequireAuth | client/src/context/AuthContext.tsx:87-89 | the children are rendered unchanged |
| AuthFlow.NextStep | src/components/Auth.jsx:13-22 | phone goes to otp, otp to name, and name stays |
| AuthFlow.ButtonLabel | src/components/Auth.jsx:64 | each step has its own label: "Get OTP", "Verify OTP" or "Complete Profile" |
| AuthFlow.AuthForm.constructor | src/components/Auth.jsx:8-11 | the phone step with empty fields |
| AuthFlow.AuthForm.HandleSubmit | src/components/Auth.jsx:13-22 | the step advances without looking at the fields; submitting at the name step navigates to `/dashboard` |
| InvestmentFlow.Projects | src/components/InvestmentFlow.jsx:23-38 | the two projects, Aura and Subha White Waters, both in Bangalore |
| InvestmentFlow.Models | src/components/InvestmentFlow.jsx:40-62 | the three models with 5, 3 and 10 slots, each from ₹1L |
| InvestmentFlow.ParseOrZero | src/components/InvestmentFlow.jsx:222 | text that does not parse gives 0; parsed text gives its value |
| InvestmentFlow.ParseOrZeroOfNat | src/components/InvestmentFlow.jsx:222 | a typed number, with or without a minus, reads back as itself |
| InvestmentFlow.ParseOrZeroOfNonNumber | src/components/InvestmentFlow.jsx:231 | text without a leading digit after blanks and sign reads as 0 |
| InvestmentFlow.TotalZeroIff | src/components/InvestmentFlow.jsx:237 | the total is zero iff a field is zero, and at least one unit price when both are positive |
| InvestmentFlow.TotalPerQuantity | src/components/InvestmentFlow.jsx:237 | one more unit of quantity adds the price of all slots |
| InvestmentFlow.TotalOfTypedFields | src/components/InvestmentFlow.jsx:222-237 | typed counts give their product in lakh |
| InvestmentFlow.OpenedStep | src/components/InvestmentFlow.jsx:91-205 | panel 0 always opens; panel 1 needs a project and panel 2 a model, otherwise the step stays |
| InvestmentFlow.OpenedStepIdempotent | src/components/InvestmentFlow.jsx:91-205 | opening a panel twice is opening it once |
| InvestmentFlow.Flow.constructor | src/components/InvestmentFlow.jsx:65-70 | step 0, nothing selected, one slot, one unit, no summary |
| InvestmentFlow.Flow.HandleNext | src/components/InvestmentFlow.jsx:74-76 | the step grows by exactly one and nothing else changes |
| InvestmentFlow.Flow.ClickProject | src/components/InvestmentFlow.jsx:104-107 | the project is selected and the step grows by one |
| InvestmentFlow.Flow.ClickModel | src/components/InvestmentFlow.jsx:161-164 | the model is selected and the step grows by one |
| InvestmentFlow.Flow.OpenPanel | src/components/InvestmentFlow.jsx:91-205 | the step becomes `OpenedStep`; nothing else changes |
| InvestmentFlow.Flow.ChangeSlots | src/components/InvestmentFlow.jsx:222 | the slots become the parsed value or 0 |
| InvestmentFlow.Flow.ChangeQuantity | src/components/InvestmentFlow.jsx:231 | the quantity becomes the parsed value or 0 |
| InvestmentFlow.Flow.ProceedToPayment | src/components/InvestmentFlow.jsx:244 | the summary is shown; nothing else changes |
| InvestmentFlow.Flow.DisplayedTotal | src/components/InvestmentFlow.jsx:292 | non-negative fields give a non-negative total |
| InvestmentFlow.SelectBoth | src/components/InvestmentFlow.jsx:65-164 | choosing a project and then a model from the start reaches the last panel with both selected and a total of one lakh |

## Left out

- Stripe payment intents (`/api/create-payment-intent`) and the checkout page: foreign SDK calls and a floating-point cents conversion.
- Firestore I/O: documents are abstract maps (`projectSlots`, `userDocs`, `projectModelDocs`) or input sequences, and a snapshot failure is an `Option` input.
- Session middleware, static serving and the server's listen, port retry and shutdown: plumbing. The session is a field holding the user id.
- The routes for logout and for listing projects, one project and a project's models: each is a single call to a store read that the model verifies (`GetProjects`, `GetProject`, `GetInvestmentModelsByProject`), or a session destroy.
- The 500 replies of the handlers' `catch` branches: they depend on library exceptions. The model's 400 for an unparsable investment body is the zod error branch.
- zod and drizzle parsing: a body that parses is an `Option` value, and `insertOtpSchema.parse` is the boolean `schemaAccepts`.
- Clocks: `new Date()` and `Date.now()` are `now` parameters. The maturity date is a parameter because `setFullYear` is library date arithmetic. The log line's duration is an input.
- Floating point: JavaScript numbers are `int` for sums, amounts and slots, and `real` for rates. Totals beyond 2^53 are not rounded. The compound maturity projection, monthly growth and the admin average are not modelled.
- `formatCurrency`, `formatDate` and `cn` in utils.ts: Intl and styling wrappers.
- The draft-resume prompt (a `setTimeout` plus `confirm`) and JSON encoding of drafts: the draft store is a map from key to draft record.
- Toasts, `console` output and rendering: they only display what the model already states.
- `handleResendOtp` and the text-field change handlers of the profile form: they only call `sendOTP` or copy the typed text.
- XLSX writing and the export's column map: library output. Only the filename rule is modelled.
- String encodings: strings are sequences of characters, so UTF-16 lengths and `toUpperCase` beyond ASCII are not modelled.
- Image addresses are reduced to the Unsplash photo id they name, because a literal URL query string adds nothing to the logic.
- The iteration order of `Object.entries` for integer-like keys: the per-project statistics keep insertion order.
- The in-place `Array.prototype.sort`: `InvestPage.SortForDisplay` is a stable insertion sort on values with the corrected comparator.
- Concurrency: each request and each handler runs atomically, so the oversell race between the slot check and the decrement is out of scope.
- Behaviour the code does not have is not added: no server-side amount computation, no check that the model belongs to the project, no positivity check on slots, and no OTP expiry or single-use enforcement.
- The random `generateOTP` inside the server's routes file: dead code, since `sendOTP` uses the fixed one.
- A failed Firestore write other than to a missing user document: the model treats every other write as succeeding.

## Findings

| source | as written | input that shows it | evidently intended | confidence | as-written member | corrected member |
|---|---|---|---|---|---|---|
| client/src/lib/utils.ts:45-48 | `getInitials` splits on single spaces and takes `[0]` of the first and last piece, which are empty for leading, trailing or doubled spaces | `"Ada "` gives `"AUNDEFINED"`; `" "` throws, because `undefined + undefined` is `NaN` and has no `toUpperCase` | the initials of the name's non-empty words, `"AD"` for `"Ada "` | not executed | Utils.AsWrittenTrailingSpace | Utils.InitialsIgnoreTrailingSpace |
| client/src/pages/invest/InvestPage.tsx:625-631 | the display comparator returns -1 whenever the first model is Gold (or Platinum with no Gold), even when both are | two models both named `"Gold"`: `compare(a, b)` and `compare(b, a)` are both -1, which is inconsistent, so the order of `sort` is not defined | return 0 for two models of equal rank | not executed | InvestPage.CompareAsWrittenNotAntisymmetric | InvestPage.CompareModelsAntisymmetric |
