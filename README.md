# Case management: a Dafny model of the data layer and the client reducers

The system is a case-management web application with four kinds of user:
- PINs (persons in need) post requests for help;
- CSRs (customer service representatives) browse, shortlist and take requests;
- a user admin manages accounts and user profiles;
- a platform manager manages categories and reads daily, weekly and monthly reports.

This project models two layers of it.
- **Backend.** The entity layer of the Python backend: the operations on requests, the shortlist pairs, categories, user accounts and user profiles, over the relational schema of `models.py`.
- **Frontend.** The state and the reducers of the React pages: list pages with pagination and local patches, filters, sorts and counts, and the forms that validate input and decode the server's reply.

## How the model is built

The backend is modelled in three layers.
- **The database.** The whole database is a value, `Models.Tables`: one map per table, keyed by its primary key, with the shortlist table as a set of pairs.
  - `Models.Consistent` states what the schema declares: primary keys, foreign keys and unique columns.
  - The live database is the class `Models.Db`, whose fields are the tables.
- **Each entity operation** is a function from the database before to an `Outcome`, which holds the reply and the database after. The function carries the whole decision logic.
  - The reply is `Ok` (the source's `True`), `Err(message)` (a returned error string) or `Fail(prefix)` (the `except` branch; the exception text is not modelled).
  - A `Crash` is an exception the source does not catch. The session then rolls back, so the tables are unchanged.
- **An `Apply…` method performs the same change in place on a `Db`.** It makes the checks and queries step by step as the entity does, loops included, writes the changed rows, and is proved equal to the function. Most of them hand the changed tables to `Db.Store`, which stands for the commit.

The frontend is modelled in two layers.
- **Each page's state is a datatype `Screen`.** Each handler is a pure step function from the screen and the server's reply to the new screen and its effects, for example an alert text, a refetch or a route.
  - The server's reply is a parameter of type `Client.Fetched`: a response with `ok`, status and body, or a thrown error.
  - A JSON body the code branches on is a `Client.ReplyBody`: `true`, a string, an object, or anything else.
  - `window.confirm`, `Math.random`, the clock and `localStorage` are parameters too.
- **The component is a class with the state's fields.** Its methods change those fields step by step and are proved to produce exactly what the step function specifies.

## Model

| member | source | states |
|---|---|---|
| Models.NewRequest | backend/app/models/models.py:129-143 | a new request row has status "pending", view 0, no assignee and no completion time, and carries the given PIN, title, description and category |
| Models.PairCountIsCsrCount | backend/app/models/models.py:12-18 | since a (CSR, request) pair is the primary key of the shortlist table, a request's number of shortlist rows equals its number of distinct shortlisting CSRs |
| Models.DeleteRequestRow | backend/app/models/models.py:15-16 | deleting a request keeps the schema constraints and removes exactly its shortlist pairs (CASCADE); no other table changes |
| Models.DeleteCategoryRow | backend/app/models/models.py:133-138 | deleting a category keeps the constraints; requests that used it get a null category (SET NULL), all other requests are unchanged |
| Models.DeleteCsrRow | backend/app/models/models.py:15-16 | deleting a CSR keeps the constraints, removes exactly its shortlist pairs (CASCADE) and clears `assigned_to` on exactly the requests assigned to it (SET NULL, lines 145-150) |
| Models.DeleteProfileRow | backend/app/models/models.py:45 | deleting a profile keeps the constraints and clears the role of exactly the accounts holding it (SET NULL) |
| Models.InsertCategory | backend/app/models/models.py:104-110 | inserting a category whose name no other row uses keeps the unique-name constraint, using the next auto-increment id, which is unused |
| Models.InsertAccount | backend/app/models/models.py:38-47 | inserting an account with a fresh username and email and an existing or null role keeps the unique and foreign-key constraints |
| RequestEntity.DeletePinRequest | backend/app/entity/request_entity.py:116-131 | an unknown id gives "Request not found"; a status other than exactly "pending" gives "Cannot delete a '<status>' request"; both leave the database unchanged; a pending request is removed together with its shortlist pairs, and nothing else changes |
| RequestEntity.ApplyDeletePinRequest | backend/app/entity/request_entity.py:116-131 | the in-place delete produces exactly the reply and database of DeletePinRequest and keeps the database valid |
| RequestEntity.UpdatePinRequest | backend/app/entity/request_entity.py:137-171 | these guards each give their message and change nothing: an unknown id, a status that does not lower-case to "pending", a missing or blank title, a truthy category id naming no category; they are checked in that order; success holds exactly when all guards pass and sets only the stripped non-empty title, the stripped description (None when falsy) and the category id (None when falsy), leaving status, view, assignee and shortlist unchanged |
| RequestEntity.ApplyUpdatePinRequest | backend/app/entity/request_entity.py:137-171 | the in-place edit equals UpdatePinRequest |
| RequestEntity.CreatePinRequest | backend/app/entity/request_entity.py:177-197 | a missing `pin_user_id` or `title` key raises (uncaught KeyError); otherwise a null key, an unknown PIN or an unknown category is refused by the database and gives "Failed to create request: ", leaving the database unchanged; success adds exactly one request under the next id, always with status "pending", view 0 and no assignee, with the given fields and the clock's time |
| RequestEntity.ApplyCreatePinRequest | backend/app/entity/request_entity.py:177-197 | the in-place insert equals CreatePinRequest |
| RequestEntity.ShortlistCsrRequest | backend/app/entity/request_entity.py:303-339 | a falsy CSR id or an unknown request gives "Request not found"; a present pair gives "Request already shortlisted"; an unknown CSR fails at the insert; each leaves the database unchanged; otherwise exactly that one pair is added; the request's status is never checked |
| RequestEntity.ApplyShortlistCsrRequest | backend/app/entity/request_entity.py:303-339 | the in-place insert equals ShortlistCsrRequest |
| RequestEntity.RemoveFromShortlist | backend/app/entity/request_entity.py:341-369 | an absent pair gives "Not shortlisted" with no change; otherwise exactly that pair is removed |
| RequestEntity.ApplyRemoveFromShortlist | backend/app/entity/request_entity.py:341-369 | the in-place removal equals RemoveFromShortlist |
| RequestEntity.ShortlistThenRemove | backend/app/entity/request_entity.py:303-369 | a successful add followed by the matching remove succeeds and restores the original database |
| RequestEntity.RemoveThenShortlist | backend/app/entity/request_entity.py:303-369 | a successful remove followed by adding the same pair again succeeds and restores the original database |
| RequestEntity.IncrementRequestView | backend/app/entity/request_entity.py:371-388 | an unknown id gives "Request not found"; otherwise the reply is `True`; the view goes up by exactly 1 when the status lower-cases to "pending", and the database is unchanged otherwise |
| RequestEntity.ApplyIncrementRequestView | backend/app/entity/request_entity.py:371-388 | the in-place increment equals IncrementRequestView |
| RequestEntity.ViewGrowsByOne | backend/app/entity/request_entity.py:371-388 | every request's view changes by at most one per call: it goes up by one for the pending request addressed, and stays the same for all others |
| RequestEntity.UpdateRequestAsWritten | backend/app/entity/request_entity.py:428-471 | as written, the operation never succeeds: an unknown id and an empty shortlist without an assignee give their messages; every other path reaches the `CSR.user_id` read (lines 448-450) and ends in the `except` branch |
| RequestEntity.ShortlisteeList | backend/app/entity/request_entity.py:445-447 | the list `random.choice` picks from holds exactly the CSRs that shortlisted the request |
| RequestEntity.ChosenShortlistee | backend/app/entity/request_entity.py:447 | the random pick is a member of the request's shortlist |
| RequestEntity.EveryShortlisteeCanBeChosen | backend/app/entity/request_entity.py:447 | every CSR on the shortlist is the pick for some random draw |
| RequestEntity.UpdateRequest | backend/app/entity/request_entity.py:428-467 | the intended operation, with the CSR identified by `csr_user_id`. Each guard gives its message and changes nothing: "Request not found"; no assignee with an empty shortlist ("No shortlistees available to assign"); an unknown explicit CSR; a status outside pending/assigned/completed ("Invalid status value"). Success holds exactly when the guards pass. Only the assignee and the status change, and there is no transition order. The assignee is the given one, or else a member of the shortlist. The status is the body's, or else the current one. `completed_at` is never written |
| RequestEntity.ApplyUpdateRequest | backend/app/entity/request_entity.py:428-467 | the in-place update equals UpdateRequest |
| RequestEntity.UpdateRequestAsWrittenFails | backend/app/entity/request_entity.py:443-452 | for a concrete database with one shortlisted CSR, the code as written fails, while UpdateRequest assigns the request |
| RequestEntity.ListedIds | backend/app/entity/request_entity.py:199-214 | the listing holds exactly these requests, each once, newest first: with "shortlisted" and a CSR, the ones that CSR shortlisted; with pending, assigned or completed, the ones in that status; with anything else, all |
| RequestEntity.ChosenAreListed | backend/app/entity/request_entity.py:204-214 | filtering all request ids by the listing test keeps exactly the listed ones |
| RequestEntity.NewestFirstOrder | backend/app/entity/request_entity.py:213 | a sequence sorted by the descending-creation key has non-increasing creation times |
| RequestEntity.RowsCoverIds | backend/app/entity/request_entity.py:216-243 | the rows built from a list of ids hold exactly those ids |
| RequestEntity.RowsFlags | backend/app/entity/request_entity.py:219-228 | each built row's `my_shortlisted` holds exactly when the given CSR shortlisted it, and its `shortlistees_count` is the number of CSRs that did |
| RequestEntity.RowsNewestFirst | backend/app/entity/request_entity.py:213-243 | rows built from ids ordered newest first are ordered newest first |
| RequestEntity.BuildCsrRows | backend/app/entity/request_entity.py:216-243 | the append loop builds one row per id, in order, each row made from its request |
| RequestEntity.ListCsrRequests | backend/app/entity/request_entity.py:199-249 | `get_csr_requests` returns exactly the listed requests, each once, newest first; each row carries this CSR's shortlist flag and the count of shortlisting CSRs |
| RequestReports.WeeklyRows | backend/app/entity/request_entity.py:596-609 | the weekly query returns exactly the requests created, updated or completed in the last seven days, each once and in ascending id order, each paired with its category name |
| RequestReports.WeeklyReport | backend/app/entity/request_entity.py:590-650 | the weekly report's counters are those of the rows of the last seven days before the clock's time |
| RequestReports.CountersAddUp | backend/app/entity/request_entity.py:626-646 | each per-category tally sums to its counter; created and assigned-plus-completed are at most the total; a request counts as assigned or as completed but not both; every category of a sub-tally is a category of the full tally |
| RequestReports.TallyCountsCategory | backend/app/entity/request_entity.py:631-634 | the count stored for a category is the number of rows with that category |
| RequestReports.NextMonth | backend/app/entity/request_entity.py:676-680 | the next month has a month number in 1..12 and lies one month later, December rolling over to January of the next year |
| RequestReports.PrevMonth | backend/app/entity/request_entity.py:681-685 | the previous month has a month number in 1..12 and lies one month earlier, January rolling back to December of the year before |
| RequestReports.MonthIndexInjective | backend/app/entity/request_entity.py:676-685 | a year and month in range are determined by their month count |
| RequestReports.NextPrevInverse | backend/app/entity/request_entity.py:676-685 | the previous month of the next month, and the next month of the previous month, are the month itself |
| CategoryEntity.NotTakenIsFree | backend/app/entity/category_entity.py:14-16 | a name no other category has up to case is also free as written, so the insert cannot break the unique constraint |
| CategoryEntity.CreateCategory | backend/app/entity/category_entity.py:6-31 | a missing or blank name gives "Category name cannot be empty"; a name equal up to case to an existing one gives "Category already exists"; a null name fails at `.strip()`; none of these changes anything; success adds exactly one category, with the stripped name, under the next id |
| CategoryEntity.ApplyCreateCategory | backend/app/entity/category_entity.py:6-31 | the in-place insert equals CreateCategory |
| CategoryEntity.UpdateCategory | backend/app/entity/category_entity.py:33-64 | an unknown id gives "Category not found"; a missing or blank name gives "Category name cannot be empty"; a name equal up to case to a different category's gives "Another category with this name already exists"; a null name fails; none of these changes anything; success changes only that category's name, to the stripped name |
| CategoryEntity.ApplyUpdateCategory | backend/app/entity/category_entity.py:33-64 | the in-place rename equals UpdateCategory |
| CategoryEntity.RenameToOwnNameInOtherCase | backend/app/entity/category_entity.py:45-51 | renaming a category to its own name in another case is accepted, because its own id is excluded, while creating a category under that name is refused |
| CategoryEntity.DeleteCategory | backend/app/entity/category_entity.py:66-88 | an unknown id gives "Category not found" with no change; otherwise the category is removed, every request that used it gets no category, and all other requests are untouched |
| CategoryEntity.RequestsInUse | backend/app/entity/category_entity.py:74 | the query returns exactly the requests using the category |
| CategoryEntity.ClearCategory | backend/app/entity/category_entity.py:75-76 | the loop clears the category of exactly the requests that used it and keeps every other request |
| CategoryEntity.ApplyDeleteCategory | backend/app/entity/category_entity.py:66-88 | the in-place delete, loop included, equals DeleteCategory |
| CategoryEntity.CategoryDeleted | backend/app/entity/category_entity.py:73-81 | a database with the category removed and its requests cleared is exactly DeleteCategory's result, and it is consistent |
| CategoryEntity.GetCategory | backend/app/entity/category_entity.py:90-103 | the listing has one row per category, ordered by id, each row that category's fields |
| CategoryEntity.IdsCoverKeys | backend/app/entity/category_entity.py:93 | a strictly increasing listing of exactly a set's keys has as many entries as the set |
| CategoryEntity.SearchCategory | backend/app/entity/category_entity.py:111-133 | missing or blank input gives []; otherwise the result is ordered by id and holds exactly the categories whose name contains the stripped input up to case |
| CategoryEntity.SearchWithinListing | backend/app/entity/category_entity.py:111-133 | every search result is a row of the full listing |
| UserAccountEntity.Login | backend/app/entity/userAccount_entity.py:5-10 | an account is returned exactly when some account has this username and password, and the one returned has both |
| UserAccountEntity.LoginFindsTheAccount | backend/app/entity/userAccount_entity.py:5-10 | because usernames are unique, logging in with an account's own username and password returns that account |
| UserAccountEntity.GetAllUsers | backend/app/entity/userAccount_entity.py:12-15 | every account is listed with its stored row, each exactly once, and nothing else is listed |
| UserAccountEntity.CopyKey | backend/app/entity/userAccount_entity.py:24-26 | copying an absent key leaves the row unchanged; the password and last login are never touched |
| UserAccountEntity.CopyAllowedKeys | backend/app/entity/userAccount_entity.py:22-26 | after the loop over the four allowed keys, exactly the keys present in the body carry the body's values; the others and the password keep theirs |
| UserAccountEntity.UpdateUser | backend/app/entity/userAccount_entity.py:17-30 | an unknown id gives "User not found"; a null username or email, or a write the schema refuses, raises uncaught and the session rolls back; success changes only that account: exactly the present keys among username, email, role and status take the body's values, and the password and last login are kept |
| UserAccountEntity.EmptyPatchChangesNothing | backend/app/entity/userAccount_entity.py:17-30 | a body without any of the four keys succeeds and changes nothing |
| UserAccountEntity.ApplyUpdateUser | backend/app/entity/userAccount_entity.py:17-30 | the `setattr` loop in place equals UpdateUser |
| UserAccountEntity.SetStatus | backend/app/entity/userAccount_entity.py:32-58 | an unknown id gives "User not found"; a status already lower-casing to the target gives the "already" message with no change; a null status raises; otherwise only that account's status is set to the target |
| UserAccountEntity.SuspendUser | backend/app/entity/userAccount_entity.py:32-44 | "User not found" for an unknown id and "User is already suspended" for a suspended one (up to case), both with no change; a success sets only that account's status to "suspended" |
| UserAccountEntity.ReactivateUser | backend/app/entity/userAccount_entity.py:46-58 | "User not found" for an unknown id and "User is already active" for an active one (up to case), both with no change; a success sets only that account's status to "active" |
| UserAccountEntity.ApplySetStatus | backend/app/entity/userAccount_entity.py:32-58 | the in-place status change equals SetStatus |
| UserAccountEntity.ApplySuspendUser | backend/app/entity/userAccount_entity.py:32-44 | the in-place suspend equals SuspendUser |
| UserAccountEntity.ApplyReactivateUser | backend/app/entity/userAccount_entity.py:46-58 | the in-place reactivate equals ReactivateUser |
| UserAccountEntity.SuspendThenReactivate | backend/app/entity/userAccount_entity.py:32-58 | suspending an active user and then reactivating them succeeds both times and restores the original database |
| UserAccountEntity.SuspendTwiceRefused | backend/app/entity/userAccount_entity.py:32-44 | a second suspension in a row is refused with "User is already suspended" |
| UserAccountEntity.CreateUser | backend/app/entity/userAccount_entity.py:60-82 | an existing username gives "Username already exists"; a refused insert gives "Failed to create user"; neither changes anything; success adds exactly one account with the given fields, status defaulting to "active" |
| UserAccountEntity.ApplyCreateUser | backend/app/entity/userAccount_entity.py:60-82 | the in-place insert equals CreateUser |
| UserAccountEntity.CreatedUserCanLogIn | backend/app/entity/userAccount_entity.py:5-10 | after a successful create, logging in with the given username and password returns the new account (lines 60-82) |
| UserProfilesEntity.GetUserProfiles | backend/app/entity/userProfiles_entity.py:5-8 | the listing holds every profile, ordered by id |
| UserProfilesEntity.CreateUserProfile | backend/app/entity/userProfiles_entity.py:10-33 | a name exactly equal (case-sensitive) to an existing one gives "Profile with name '<name>' already exists."; a missing name is refused by the database; neither changes anything; otherwise exactly one profile is added, with the given status or "active" |
| UserProfilesEntity.ApplyCreateUserProfile | backend/app/entity/userProfiles_entity.py:10-33 | the in-place insert equals CreateUserProfile |
| UserProfilesEntity.UpdateUserProfile | backend/app/entity/userProfiles_entity.py:35-63 | an unknown id, a missing or empty name, and a name another profile uses each give their message and change nothing; success changes only that profile's name |
| UserProfilesEntity.ApplyUpdateUserProfile | backend/app/entity/userProfiles_entity.py:35-63 | the in-place rename equals UpdateUserProfile |
| UserProfilesEntity.CreateKeepsNamesDistinct | backend/app/entity/userProfiles_entity.py:10-33 | the duplicate check before an insert keeps profile names distinct |
| UserProfilesEntity.RenameKeepsNamesDistinct | backend/app/entity/userProfiles_entity.py:35-63 | the duplicate check before a rename, which leaves the renamed profile out, keeps profile names distinct |
| UserProfilesEntity.Unlinked | backend/app/entity/userProfiles_entity.py:86-87 | exactly the accounts holding the profile lose their role; the others are unchanged |
| UserProfilesEntity.SuspendedConsistent | backend/app/entity/userProfiles_entity.py:77-87 | setting the status and unlinking the accounts keeps the schema constraints |
| UserProfilesEntity.SuspendUserProfile | backend/app/entity/userProfiles_entity.py:65-101 | an unknown id gives "User profile not found"; an already-suspended profile gives "Profile '<name>' is already suspended."; neither changes anything; success sets the status to "suspended" and clears the role of exactly the accounts holding it, all other accounts unchanged |
| UserProfilesEntity.AffectedAccounts | backend/app/entity/userProfiles_entity.py:80-84 | the query returns exactly the accounts holding the profile |
| UserProfilesEntity.ClearRole | backend/app/entity/userProfiles_entity.py:86-87 | the loop clears the role of exactly the affected accounts and keeps every other account |
| UserProfilesEntity.ApplySuspendUserProfile | backend/app/entity/userProfiles_entity.py:65-101 | the in-place suspend, loop included, equals SuspendUserProfile |
| UserProfilesEntity.ProfileSuspended | backend/app/entity/userProfiles_entity.py:77-97 | a database with the status set and the accounts unlinked is exactly SuspendUserProfile's result |
| UserProfilesEntity.ReactivateUserProfile | backend/app/entity/userProfiles_entity.py:103-120 | an unknown id gives "User profile not found" and an already-active profile "Profile '<name>' is already active.", with no change; otherwise only the status becomes "active" |
| UserProfilesEntity.ApplyReactivateUserProfile | backend/app/entity/userProfiles_entity.py:103-120 | the in-place reactivate equals ReactivateUserProfile |
| UserProfilesEntity.SuspendThenReactivateDoesNotRelink | backend/app/entity/userProfiles_entity.py:86-87 | suspending an active profile and reactivating it both succeed and restore the profiles, but no account holds the profile afterwards: reactivation does not relink (lines 110-116) |
| UserProfilesEntity.SearchUserProfiles | backend/app/entity/userProfiles_entity.py:122-135 | the result is ordered by id and holds exactly the profiles whose name contains the untrimmed input up to case |
| UserProfilesEntity.EmptySearchListsAll | backend/app/entity/userProfiles_entity.py:125-130 | the empty input lists every profile |
| CsrDashboard.ViewFilter | frontend/src/components/CSRdashboard.tsx:100-103 | the "available" view keeps exactly the pending cards not marked as shortlisted by this CSR; the "shortlisted" view keeps exactly the pending cards that are marked |
| CsrDashboard.ViewsSplitPending | frontend/src/components/CSRdashboard.tsx:100-103 | every pending card shows in exactly one of the two views: their sizes add up to the number of pending cards |
| CsrDashboard.ListUrl | frontend/src/components/CSRdashboard.tsx:72-80 | the listing query asks for a page of 24, from offset 0 on a reset and from the current offset otherwise, with the CSR id only when it is truthy and the status "pending" or "shortlisted" by view |
| CsrDashboard.AfterFetchPage | frontend/src/components/CSRdashboard.tsx:91-118 | on failure only the error message and `loading` change. On success the filtered page replaces the list (reset) or is appended to it, without deduplication by id. The offset becomes the page length or grows by it. `hasMore` holds exactly when the page has 24 cards |
| CsrDashboard.OffsetCountsLoaded | frontend/src/components/CSRdashboard.tsx:105-111 | when the offset counts the loaded cards before a fetch, it still does after it |
| CsrDashboard.AppendKeepsEverything | frontend/src/components/CSRdashboard.tsx:109-110 | appending keeps every loaded card in place and adds every card of the page, duplicates included |
| CsrDashboard.AfterSearch | frontend/src/components/CSRdashboard.tsx:121-149 | a blank query is a reset fetch of the listing; otherwise a successful search replaces the list by the view's filter of the results and sets `hasMore` false, and a failed one only sets the error |
| CsrDashboard.StartToggle | frontend/src/components/CSRdashboard.tsx:151-168 | without a truthy CSR id nothing is sent, nothing changes and "Please log in as a CSR." is alerted; otherwise nothing is alerted, the busy id becomes the card's and the call removes a marked card from the shortlist or adds an unmarked one |
| CsrDashboard.PatchId | frontend/src/components/CSRdashboard.tsx:180-186 | the map patches exactly the cards with the id and keeps the others and the length |
| CsrDashboard.DropId | frontend/src/components/CSRdashboard.tsx:178 | the filter keeps exactly the cards with another id |
| CsrDashboard.FinishToggle | frontend/src/components/CSRdashboard.tsx:170-211 | the busy id is always reset; only a `true` reply changes the list (a removal drops the card in the shortlisted view and otherwise unmarks it with one shortlistee fewer, 1 when absent; an addition drops it in the available view and otherwise marks it with one more, 0 when absent); a string, a failed call or any other body leaves the list as it was |
| CsrDashboard.ToggleTouchesOnlyItsCard | frontend/src/components/CSRdashboard.tsx:173-202 | a toggle never alters, adds or removes a card with another id |
| CsrDashboard.MarkThenUnmark | frontend/src/components/CSRdashboard.tsx:183-197 | marking an unmarked card with a count and then unmarking it gives the card back |
| CsrDashboard.LeavingTheViewDropsTheCard | frontend/src/components/CSRdashboard.tsx:177-192 | a removal in the shortlisted view, or an addition in the available view, leaves no card with that id |
| CsrDashboard.AfterView | frontend/src/components/CSRdashboard.tsx:296-322 | only a `true` reply changes the list: the clicked card's view count goes up by one; any other reply changes nothing |
| CsrDashboard.ViewCountsOnlyTheClickedCard | frontend/src/components/CSRdashboard.tsx:304-310 | the cards with the clicked id get their view count plus one (a missing count is 0) and every other card is unchanged |
| CsrDashboard.Sorted | frontend/src/components/CSRdashboard.tsx:221-227 | the sorted cards are a permutation of the list, newest `created_at` first, a missing time counting as 0 |
| CsrDashboard.UseCsrId | frontend/src/components/CSRdashboard.tsx:44-55 | a CSR id exists exactly when the stored user's role is a string that upper-cases to "CSR" and its numeric `id` is truthy, and it is that `id`; otherwise null |
| CsrDashboard.NonTextRoleCannotToggle | frontend/src/components/CSRdashboard.tsx:44-55 | a stored user whose role is not a string gives no CSR id, so a toggle only alerts "Please log in as a CSR." and changes nothing |
| CsrDashboard.Dashboard.constructor | frontend/src/components/CSRdashboard.tsx:57-69 | the initial state: no cards, offset 0, `hasMore` true, the available view, an empty query and the CSR id UseCsrId reads from the stored user |
| CsrDashboard.Dashboard.FetchPage | frontend/src/components/CSRdashboard.tsx:91-118 | the query sent is ListUrl's and the new state is AfterFetchPage's |
| CsrDashboard.Dashboard.FetchSearchResults | frontend/src/components/CSRdashboard.tsx:121-149 | the new state is AfterSearch's |
| CsrDashboard.Dashboard.BeginToggle | frontend/src/components/CSRdashboard.tsx:151-168 | the call, the alert and the state are StartToggle's |
| CsrDashboard.Dashboard.EndToggle | frontend/src/components/CSRdashboard.tsx:170-211 | the new state is FinishToggle's |
| CsrDashboard.Dashboard.ViewClicked | frontend/src/components/CSRdashboard.tsx:296-322 | the new state is AfterView's |
| CsrDashboard.Dashboard.SetViewMode | frontend/src/components/CSRdashboard.tsx:63 | only the view mode changes |
| CsrDashboard.Dashboard.SetQuery | frontend/src/components/CSRdashboard.tsx:64 | only the query changes |
| PinDashboard.ResolvePinId | frontend/src/components/PINdashboard.tsx:63-69 | the PIN shown is the non-empty `id` query parameter, else the stored user's truthy `pin_user_id` in decimal, else none; a resolved id is never empty |
| PinDashboard.CountStep | frontend/src/components/PINdashboard.tsx:290-295 | one more element adds one to exactly the counter of its status |
| PinDashboard.ComputeTotals | frontend/src/components/PINdashboard.tsx:284-299 | the loop's totals: the total is the list length, each status counter is the number of cards with that status, active is pending plus assigned and past is completed |
| PinDashboard.TotalsAddUp | frontend/src/components/PINdashboard.tsx:284-299 | pending plus assigned are the open cards, and open plus completed never exceed the total |
| PinDashboard.Filtered | frontend/src/components/PINdashboard.tsx:270-274 | with "all" the whole list; otherwise exactly the cards with that status, a sub-multiset of the list |
| PinDashboard.Sorted | frontend/src/components/PINdashboard.tsx:276-282 | a permutation of the filtered cards, newest `created_at` first, a missing time counting as 0 |
| PinDashboard.FilterTwiceByStatus | frontend/src/components/PINdashboard.tsx:270-274 | filtering by one status is idempotent, and filtering by two different statuses in a row leaves nothing |
| PinDashboard.ListUrl | frontend/src/components/PINdashboard.tsx:99-104 | the listing query carries the PIN id, and the trimmed filter exactly when it is not blank |
| PinDashboard.AfterFetch | frontend/src/components/PINdashboard.tsx:111-129 | a successful fetch replaces the list by the reply's items (an empty list when the reply has none) and clears the error; a failed one keeps the list and shows "HTTP <status>", or the thrown message, or "Failed to load requests" |
| PinDashboard.SearchStep | frontend/src/components/PINdashboard.tsx:147-172 | nothing is sent and nothing changes exactly when there is no PIN or the query is blank; otherwise the results replace the list and clear the error, and a failure keeps the list and shows "HTTP <status>", or the thrown message, or "Search failed" |
| PinDashboard.DeleteStep | frontend/src/components/PINdashboard.tsx:182-201 | nothing is sent exactly when the card is not pending or the confirm is cancelled. A `true` reply removes the cards with that id. A string is alerted and keeps the list. A failed call alerts its detail or "Failed to delete request" and keeps the list |
| PinDashboard.DeleteRemovesOnlyThatId | frontend/src/components/PINdashboard.tsx:193-194 | a deletion touches no card with another id: those stay, in order, and either the list is unchanged or no card with the id remains |
| PinDashboard.StartSave | frontend/src/components/PINdashboard.tsx:222-232 | without a target nothing happens; a blank title sets "Title is required." and sends nothing; otherwise the body carries the trimmed title, the trimmed description and the category, and `saving` is raised |
| PinDashboard.FinishSave | frontend/src/components/PINdashboard.tsx:233-260 | `saving` is always lowered; a refetch happens exactly on a `true` reply, which also closes the editor; a string or a failure message becomes the save error |
| PinDashboard.Dashboard.constructor | frontend/src/components/PINdashboard.tsx:63-69 | the PIN id is ResolvePinId's, and the state starts empty with the "all" filter |
| PinDashboard.Dashboard.FetchRequests | frontend/src/components/PINdashboard.tsx:111-129 | the query sent is ListUrl's and the new state is AfterFetch's |
| PinDashboard.Dashboard.HandleSearch | frontend/src/components/PINdashboard.tsx:147-172 | whether it searched, and the new state, are SearchStep's |
| PinDashboard.Dashboard.HandleDelete | frontend/src/components/PINdashboard.tsx:182-201 | what it sends and alerts are DeleteStep's, and only the list changes, to DeleteStep's |
| PinDashboard.Dashboard.OpenEditor | frontend/src/components/PINdashboard.tsx:211-219 | the dialog opens on the card, with its title, its description or "" and its category, and no save error |
| PinDashboard.Dashboard.BeginSave | frontend/src/components/PINdashboard.tsx:222-232 | the body and the state are StartSave's |
| PinDashboard.Dashboard.EndSave | frontend/src/components/PINdashboard.tsx:233-260 | the refetch flag and the state are FinishSave's |
| PinDashboard.Dashboard.HandleReset | frontend/src/components/PINdashboard.tsx:175-179 | with a PIN the query is cleared and the list fetched again; without one nothing happens |
| Client.ItemsOrEmpty | frontend/src/components/PINdashboard.tsx:164 | an array body is the list, an object's `items` is the list, and anything else is the empty list |
| Client.ListOrEmpty | frontend/src/components/CSRdashboard.tsx:99 | an array body is the list and anything else is the empty list |
| Client.MessageOr | frontend/src/components/CSRdashboard.tsx:114 | `message || fallback`: a non-empty message wins, and an empty one gives the fallback |
| Client.FailureMessage | frontend/src/components/CSRdashboard.tsx:97-114 | a failed response shows its text, and a thrown call its message, each falling back when empty |
| Client.HttpFailure | frontend/src/components/PINdashboard.tsx:161-168 | a failed response shows "HTTP <status>" and a thrown call its message or the fallback |
| Client.DetailFailure | frontend/src/components/PINdashboard.tsx:187-189 | a failed response shows the body's non-empty `detail`, else "HTTP <status>"; a thrown call its message or the fallback |
| Client.TextFailure | frontend/src/components/CSRCompletedRequests.tsx:77 | a failed response shows its non-empty text, else "HTTP <status>"; a thrown call its message or the fallback |
| Client.NewestFirst | frontend/src/components/PINdashboard.tsx:276-282 | the sort is a permutation of the list with non-increasing times |
| Assignment.PendingRequests | frontend/src/components/Assignment.tsx:77 | exactly the requests whose status is "pending" |
| Assignment.AssignedRequests | frontend/src/components/Assignment.tsx:78 | exactly the requests whose status is "assigned" |
| Assignment.PendingAndAssignedDisjoint | frontend/src/components/Assignment.tsx:77-78 | the two lists share no request, and their sizes add up to the number of pending-or-assigned requests, at most all of them |
| Assignment.RandomIndex | frontend/src/components/Assignment.tsx:102 | `Math.floor(Math.random() * n)` lies in [0, n) |
| Assignment.AfterFetch | frontend/src/components/Assignment.tsx:55-70 | a successful fetch replaces the requests and clears the error; a failed one keeps them and shows "HTTP <status>", the thrown message or "Failed to fetch requests" |
| Assignment.OpenAssign | frontend/src/components/Assignment.tsx:81-96 | the dialog opens on the request; the options are the reply's `shortlistees` (none when missing), and none when the call fails or throws; nothing else changes |
| Assignment.StartAssign | frontend/src/components/Assignment.tsx:99-114 | without a selected request or with no options nothing is sent and nothing changes; otherwise the PUT for the selected request has status "assigned" and an assignee that is one of the options, and `saving` is raised |
| Assignment.SingleOptionIsChosen | frontend/src/components/Assignment.tsx:102 | with a single option, the draw always picks it |
| Assignment.FinishAssign | frontend/src/components/Assignment.tsx:116-127 | the list is fetched again exactly when the PUT succeeded, which also closes the dialog and clears the selection; a failure alerts its text or "Failed to assign request" and fetches nothing; `saving` is always lowered |
| Assignment.CompleteStep | frontend/src/components/Assignment.tsx:131-152 | a cancelled confirm sends nothing; otherwise the PUT carries only status "completed", the list is fetched again exactly when it succeeded, and a failure alerts its text or "Failed to complete request" |
| Assignment.Page.constructor | frontend/src/components/Assignment.tsx:46-52 | the initial state: no requests, no dialog, no selection, no options |
| Assignment.Page.FetchRequests | frontend/src/components/Assignment.tsx:55-70 | the new state is AfterFetch's |
| Assignment.Page.HandleOpenAssign | frontend/src/components/Assignment.tsx:81-96 | the new state is OpenAssign's |
| Assignment.Page.BeginAssignRandom | frontend/src/components/Assignment.tsx:99-114 | the call and the state are StartAssign's |
| Assignment.Page.EndAssignRandom | frontend/src/components/Assignment.tsx:116-127 | the refetch flag, the alert and the state are FinishAssign's |
| UaDashboard.Lookup | frontend/src/components/UAdashboard.tsx:116 | `roleMap[id]` is found exactly when some entry has that key, and it is that entry's name |
| UaDashboard.Assign | frontend/src/components/UAdashboard.tsx:61 | `map[id] = name` keeps the map in key order; the key then holds the name and every other key keeps its value |
| UaDashboard.BuildRoleMap | frontend/src/components/UAdashboard.tsx:55-63 | the loop over the profiles leaves each id mapped to the upper-cased name of the last profile listed with it, in key order |
| UaDashboard.EveryProfileHasAnEntry | frontend/src/components/UAdashboard.tsx:60-62 | every listed profile's id has an entry in the role map |
| UaDashboard.RoleName | frontend/src/components/UAdashboard.tsx:113-119 | a falsy role gives "UNASSIGNED"; an object with a name gives the name upper-cased; a number gives its non-empty map entry or "ROLE #n"; a string gives it upper-cased; anything else gives "UNKNOWN" |
| UaDashboard.FindByName | frontend/src/components/UAdashboard.tsx:142-144 | the search finds nothing exactly when no entry has the name, and otherwise the first entry in key order that has it |
| UaDashboard.RoleIdFor | frontend/src/components/UAdashboard.tsx:139-148 | a non-empty string role becomes the smallest id whose name is the string upper-cased, or null when no entry has it; a number passes through; anything else becomes null |
| UaDashboard.LookupAt | frontend/src/components/UAdashboard.tsx:116 | in a key-ordered map, each entry is what its key looks up |
| UaDashboard.RoleNameRoundTrip | frontend/src/components/UAdashboard.tsx:113-148 | a role shown by its resolved upper-case name converts back to its id, as long as no smaller id has the same name |
| UaDashboard.RoleNames | frontend/src/components/UAdashboard.tsx:97 | one resolved role name per user, in order |
| UaDashboard.TallyStep | frontend/src/components/UAdashboard.tsx:98 | one more name adds one to exactly that name's count |
| UaDashboard.CountRoles | frontend/src/components/UAdashboard.tsx:93-99 | the `forEach` loop counts, for each role name, the active users resolving to it |
| UaDashboard.RoleCountsSumToActive | frontend/src/components/UAdashboard.tsx:90-103 | the role counts sum to the number of active users, and every counted name is the role name of some active user |
| UaDashboard.AfterFetchUsers | frontend/src/components/UAdashboard.tsx:70-85 | on success the users are a permutation of the reply sorted by ascending id, shown unfiltered, and the total is their number; a failure changes only `loading` |
| UaDashboard.Recount | frontend/src/components/UAdashboard.tsx:88-105 | nothing changes while the role map or the users are empty; otherwise the active and suspended counters count status equality and the role counts sum to the active counter |
| UaDashboard.ActivePlusSuspended | frontend/src/components/UAdashboard.tsx:90-91 | active plus suspended never exceed the number of users |
| UaDashboard.UpdateStep | frontend/src/components/UAdashboard.tsx:135-178 | without a selected user nothing is sent; otherwise the PUT carries the user with the role converted by RoleIdFor. A `true` reply refetches and closes the dialog. A string is alerted. Any other reply does nothing. A thrown call alerts "Failed to update user.". The page refetches exactly when it closes |
| UaDashboard.StatusAction | frontend/src/components/UAdashboard.tsx:182 | an active account is suspended, any other reactivated |
| UaDashboard.ToggleStatusStep | frontend/src/components/UAdashboard.tsx:181-208 | a cancelled confirm sends nothing; otherwise the PUT goes to the action, a `true` reply and nothing else refetches, without an alert; a string reply is alerted; any other reply does nothing; a thrown call alerts "Failed to <action> user."; the dialog never closes |
| UaDashboard.Dashboard.constructor | frontend/src/components/UAdashboard.tsx:38-52 | the initial state: no users, an empty role map, zero counters, an empty search |
| UaDashboard.Dashboard.FetchRoles | frontend/src/components/UAdashboard.tsx:55-67 | a response replaces only the role map, by BuildRoleMap's; a thrown call changes nothing; the map stays in key order |
| UaDashboard.Dashboard.FetchUsers | frontend/src/components/UAdashboard.tsx:70-85 | the new state is AfterFetchUsers's |
| UaDashboard.Dashboard.RecomputeCounts | frontend/src/components/UAdashboard.tsx:88-105 | the new state is Recount's |
| UaDashboard.Dashboard.HandleSearch | frontend/src/components/UAdashboard.tsx:122-127 | the search reply becomes the shown users and nothing else changes |
| UaDashboard.Dashboard.ResetFilters | frontend/src/components/UAdashboard.tsx:129-132 | the search term is emptied and the shown users are all users again |
| UaDashboard.Dashboard.HandleUpdate | frontend/src/components/UAdashboard.tsx:135-178 | the call, the refetch and the alert are UpdateStep's, and only `open` changes, to false when the dialog closes |
| CsrCompleted.BuildUrl | frontend/src/components/CSRCompletedRequests.tsx:54-66 | the limit of 24, the offset (0 on a reset) and status "completed" are always set; `q` is the trimmed query exactly when it is not blank; `service_type` is the service exactly when it is neither empty nor "all"; each date exactly when it is not empty |
| CsrCompleted.AfterFetchPage | frontend/src/components/CSRCompletedRequests.tsx:68-93 | a failure keeps the records and sets the response text, "HTTP <status>", the thrown message or the default; a success replaces the records by the page (reset) or appends it, sets the offset to the page length or adds it, and sets `hasMore` exactly when the page has 24 records |
| CsrCompleted.OffsetCountsLoaded | frontend/src/components/CSRCompletedRequests.tsx:80-87 | when the offset counts the loaded records it still does after a fetch, so the next page starts right after them, and an append keeps the loaded records in front |
| CsrCompleted.Filtered | frontend/src/components/CSRCompletedRequests.tsx:106-114 | a blank query keeps every record. Otherwise the kept records are exactly those whose lower-cased title or description contains the lower-cased trimmed query, or whose decimal id contains it. The result is a sub-multiset |
| CsrCompleted.BlankQueryKeepsAll | frontend/src/components/CSRCompletedRequests.tsx:109 | a blank query keeps every record in order |
| CsrCompleted.IdAlwaysMatches | frontend/src/components/CSRCompletedRequests.tsx:112 | searching for a record's own id always finds it |
| CsrCompleted.Sorted | frontend/src/components/CSRCompletedRequests.tsx:117-123 | a permutation of the filtered records, latest completion first, a missing time counting as 0 |
| CsrCompleted.Page.constructor | frontend/src/components/CSRCompletedRequests.tsx:40-51 | the initial state: no records, empty filters, offset 0 and `hasMore` true |
| CsrCompleted.Page.FetchPage | frontend/src/components/CSRCompletedRequests.tsx:68-93 | the query sent is BuildUrl's and the new state is AfterFetchPage's |
| CsrCompleted.Page.SetService | frontend/src/components/CSRCompletedRequests.tsx:101-104 | only the service changes, and the first page is fetched again exactly when the value changed and nothing is loading |
| PinCompleted.AfterCategories | frontend/src/components/PINCompletedRequests.tsx:60-73 | a success stores the reply when it is an array and [] otherwise; a failure keeps the categories and sets "Failed to load service categories" |
| PinCompleted.AfterList | frontend/src/components/PINCompletedRequests.tsx:76-119 | a success stores the reply when it is an array and [] otherwise, with no error; a failure keeps the list and sets the response text, "HTTP <status>", the thrown message or the handler's default |
| PinCompleted.SearchBodyOf | frontend/src/components/PINCompletedRequests.tsx:98-103 | `search_input` is the trimmed query; `service_type` is null exactly for "all" and the service otherwise; each date is null exactly when empty and the date otherwise |
| PinCompleted.ResetClearsTheSearch | frontend/src/components/PINCompletedRequests.tsx:122-128 | after a reset a search sends an empty input and no filter at all |
| PinCompleted.Sorted | frontend/src/components/PINCompletedRequests.tsx:137-143 | a permutation of the records, latest completion first, a missing time counting as 0 |
| PinCompleted.Page.constructor | frontend/src/components/PINCompletedRequests.tsx:47-57 | the initial state: no records or categories, an empty query, service "all" and no dates |
| PinCompleted.Page.FetchCategories | frontend/src/components/PINCompletedRequests.tsx:60-73 | the new state is AfterCategories's |
| PinCompleted.Page.FetchAllCompletedRequests | frontend/src/components/PINCompletedRequests.tsx:76-91 | the new state is AfterList's with "Failed to load completed requests" |
| PinCompleted.Page.HandleSearch | frontend/src/components/PINCompletedRequests.tsx:94-119 | the body sent is SearchBodyOf's and the new state is AfterList's with "Search failed" |
| PinCompleted.Page.HandleReset | frontend/src/components/PINCompletedRequests.tsx:122-128 | query "", service "all" and both dates "" are restored, then the full listing is loaded |
| PmDashboard.AfterFetchAll | frontend/src/components/PMDashboard.tsx:44-57 | a success replaces the categories and clears the error; a failure keeps them and sets "HTTP <status>", the thrown message or "Failed to fetch categories"; loading ends either way |
| PmDashboard.AfterSearch | frontend/src/components/PMDashboard.tsx:59-75 | a blank term behaves exactly as loading every category; otherwise the reply replaces the list, or the error is "HTTP <status>", the thrown message or "Failed to search categories" |
| PmDashboard.SearchShowsServerListOrKeeps | frontend/src/components/PMDashboard.tsx:59-75 | a search changes only the list, `loading` and `error`; on success the list is exactly the server's, on failure the old list stays beside an error |
| PmDashboard.StartCreate | frontend/src/components/PMDashboard.tsx:81-83 | a blank name sends nothing and alerts "Name is required"; otherwise the trimmed name is posted and saving starts |
| PmDashboard.ReplyAlert | frontend/src/components/PMDashboard.tsx:90-102 | success exactly when the decoded reply is `true`; a string is shown after "❌"; any other value is "Unexpected response from server"; a thrown error shows its message or the default |
| PmDashboard.FinishCreate | frontend/src/components/PMDashboard.tsx:84-105 | the list is fetched again exactly on a `true` reply, which also closes the dialog and clears the name; saving always ends; the alert is ReplyAlert's |
| PmDashboard.StartUpdate | frontend/src/components/PMDashboard.tsx:108-111 | nothing happens without a selected category; a blank name alerts "Name is required"; otherwise the selected id and the trimmed name are sent |
| PmDashboard.FinishUpdate | frontend/src/components/PMDashboard.tsx:112-134 | the list is fetched again exactly on a `true` reply, which closes the dialog and clears the selection and name; saving always ends |
| PmDashboard.DeleteStep | frontend/src/components/PMDashboard.tsx:137-163 | an unconfirmed delete sends nothing and changes nothing; a confirmed one always alerts; only an OK `true` or `{success: true}` reply removes the category and alerts that it was deleted; a failed status shows the string body or the default; a thrown call shows its message or the default; another OK string is alerted after a warning sign and any other OK body alerts "❌ Failed to delete category. Please try again." |
| PmDashboard.DeleteRemovesOnlyThatCategory | frontend/src/components/PMDashboard.tsx:152-154 | the other categories are kept in order, and a changed list holds no category with that id |
| PmDashboard.Dashboard.constructor | frontend/src/components/PMDashboard.tsx:30-38 | the initial state: no categories, nothing loading, no dialog, no selection and empty texts |
| PmDashboard.Dashboard.FetchAllCategories | frontend/src/components/PMDashboard.tsx:44-57 | the new state is AfterFetchAll's |
| PmDashboard.Dashboard.FetchSearchedCategories | frontend/src/components/PMDashboard.tsx:59-75 | the new state is AfterSearch's |
| PmDashboard.Dashboard.HandleSearch | frontend/src/components/PMDashboard.tsx:165-168 | the new state is AfterSearch's for the current term |
| PmDashboard.Dashboard.BeginCreate | frontend/src/components/PMDashboard.tsx:81-83 | the body, the alert and the new state are StartCreate's |
| PmDashboard.Dashboard.EndCreate | frontend/src/components/PMDashboard.tsx:84-105 | the effect and the new state are FinishCreate's |
| PmDashboard.Dashboard.BeginUpdate | frontend/src/components/PMDashboard.tsx:108-111 | the call, the alert and the new state are StartUpdate's |
| PmDashboard.Dashboard.EndUpdate | frontend/src/components/PMDashboard.tsx:112-134 | the effect and the new state are FinishUpdate's |
| PmDashboard.Dashboard.HandleDelete | frontend/src/components/PMDashboard.tsx:137-163 | what is sent and alerted is DeleteStep's, and only the category list changes, to DeleteStep's |
| UaUserProfiles.AfterFetch | frontend/src/components/UAUserProfiles.tsx:45-58 | a success replaces the profiles with no alert; a failure keeps them and alerts "Failed to load profiles." |
| UaUserProfiles.SearchStep | frontend/src/components/UAUserProfiles.tsx:65-94 | a blank input behaves as loading every profile; a 404 empties the table with a "No profiles found" alert naming the input; another failure keeps the table with "Search failed"; a success shows the reply |
| UaUserProfiles.SearchShowsServerListOrKeeps | frontend/src/components/UAUserProfiles.tsx:65-94 | after a search the table is the old one, the server's list, or empty after a non-blank search |
| UaUserProfiles.DetailOr | frontend/src/components/UAUserProfiles.tsx:126 | an object's non-empty `detail`, and the fallback for anything else |
| UaUserProfiles.ActionAlert | frontend/src/components/UAUserProfiles.tsx:134-136 | a failed action alerts "❌" and the thrown message, or the reply's detail or the fallback |
| UaUserProfiles.CreateStep | frontend/src/components/UAUserProfiles.tsx:97-140 | a string reply is an error whatever the status; the list is fetched again exactly on an OK non-string reply, which clears the name and closes the dialog; actionLoading always ends |
| UaUserProfiles.UpdateStep | frontend/src/components/UAUserProfiles.tsx:144-167 | nothing is sent without a selected profile; otherwise its id and name are sent, and the list is fetched again and the dialog closed exactly on an OK status |
| UaUserProfiles.SuspendStep | frontend/src/components/UAUserProfiles.tsx:170-188 | an unconfirmed suspend sends nothing; a confirmed one refetches exactly on an OK status, alerting the suspension or the failure |
| UaUserProfiles.ReactivateStep | frontend/src/components/UAUserProfiles.tsx:190-207 | the list is fetched again exactly on an OK status, with the reactivation alert, and the failure alert otherwise |
| UaUserProfiles.ClickEdit | frontend/src/components/UAUserProfiles.tsx:290-297 | the enabled button selects the profile and opens the dialog; the disabled one changes nothing |
| UaUserProfiles.EditNeverOpensOnSuspended | frontend/src/components/UAUserProfiles.tsx:293 | the rename dialog never opens on a suspended profile or while an action is in flight |
| UaUserProfiles.Page.constructor | frontend/src/components/UAUserProfiles.tsx:34-41 | the initial state: no profiles, no dialog, no selection, empty inputs |
| UaUserProfiles.Page.FetchProfiles | frontend/src/components/UAUserProfiles.tsx:45-58 | the alert and the new state are AfterFetch's |
| UaUserProfiles.Page.HandleSearch | frontend/src/components/UAUserProfiles.tsx:65-94 | the alert and the new state are SearchStep's |
| UaUserProfiles.Page.HandleCreateProfile | frontend/src/components/UAUserProfiles.tsx:97-140 | the effect and the new state are CreateStep's |
| UaUserProfiles.Page.HandleUpdateProfile | frontend/src/components/UAUserProfiles.tsx:144-167 | the call, the effect and the new state are UpdateStep's |
| UaUserProfiles.Page.HandleSuspend | frontend/src/components/UAUserProfiles.tsx:170-188 | what is sent, the effect and the new state are SuspendStep's |
| UaUserProfiles.Page.HandleReactivate | frontend/src/components/UAUserProfiles.tsx:190-207 | the effect and the new state are ReactivateStep's |
| UaUserProfiles.Page.OnEditClick | frontend/src/components/UAUserProfiles.tsx:290-297 | the new state is ClickEdit's |
| ReportFilter.StatusAndSearch | frontend/src/components/PMDailyReport.tsx:64-84 | a row is shown exactly when it passes the status filter and the search on title or category; each selected row is shown as often as it occurs in the input, nothing is added, and the rows are in ascending id order |
| ReportFilter.Selection | frontend/src/components/PMDailyReport.tsx:64-78 | the status filter followed by the search filter (skipped on a blank term) keeps exactly the selected rows, in order and with their multiplicity |
| ReportFilter.StatusThenSearch | frontend/src/components/PMDailyReport.tsx:64-78 | filtering by status and then by the search term equals one filter by both tests |
| ReportFilter.NoFilterKeepsAll | frontend/src/components/PMDailyReport.tsx:69-72 | with status "all" and a blank term every row is shown, with its multiplicity |
| ReportFilter.OnlyThatStatus | frontend/src/components/PMDailyReport.tsx:69 | a status filter other than "all" shows only rows with that status |
| ReportFilter.UntrimmedTermMatchesLess | frontend/src/components/PMDailyReport.tsx:72-78 | the term is lower-cased but not trimmed, so "food " misses a row that "food" finds |
| PmWeeklyReport.AfterFetch | frontend/src/components/PMWeeklyReport.tsx:52-66 | a success stores the report; a failure sets "HTTP <status>", the thrown message or "Failed to load report"; loading ends either way |
| PmWeeklyReport.FilteredRequests | frontend/src/components/PMWeeklyReport.tsx:75-96 | nothing before the report loads; then exactly the live requests that pass the filters, each as often as it occurs, in ascending id order |
| PmWeeklyReport.OnlyLiveRequests | frontend/src/components/PMWeeklyReport.tsx:79-83 | the table only shows pending, assigned or completed requests, and a filter other than "all" only that status |
| PmWeeklyReport.Keys | frontend/src/components/PMWeeklyReport.tsx:114-118 | the keys of a dictionary, one per entry, in order |
| PmWeeklyReport.MergeKeys | frontend/src/components/PMWeeklyReport.tsx:114-118 | the keys of a spread: distinct, the union of both, the first dictionary's keys first and in order |
| PmWeeklyReport.CategoryKeys | frontend/src/components/PMWeeklyReport.tsx:114-118 | distinct, and exactly the keys of the three category dictionaries |
| PmWeeklyReport.CountOf | frontend/src/components/PMWeeklyReport.tsx:122-124 | 0 for a missing key, and otherwise a count stored under that key |
| PmWeeklyReport.CategoryRows | frontend/src/components/PMWeeklyReport.tsx:114-126 | one row per category key, in key order, each with its three counts |
| PmWeeklyReport.EachCategoryOnce | frontend/src/components/PMWeeklyReport.tsx:114-126 | a category has a row exactly when it is a key of one of the dictionaries, and no two rows share a category |
| PmWeeklyReport.MissingCountIsZero | frontend/src/components/PMWeeklyReport.tsx:124 | a category missing from the completed dictionary shows 0 completed |
| PmDailyReport.AfterFetch | frontend/src/components/PMDailyReport.tsx:42-56 | a success stores the report; a failure sets "HTTP <status>", the thrown message or "Failed to load daily report" |
| PmDailyReport.FilteredRequests | frontend/src/components/PMDailyReport.tsx:64-84 | nothing before the report loads; then exactly the requests that pass the filters, each as often as it occurs, in ascending id order |
| PmDailyReport.NothingBeforeLoad | frontend/src/components/PMDailyReport.tsx:65 | after a failed first load the table is empty whatever the filters |
| PmMonthlyReport.AfterFetch | frontend/src/components/PMMonthlyReport.tsx:71-115 | the error is never set and a report is always shown: the reply on success, the demonstration report otherwise |
| PmMonthlyReport.FilteredRequests | frontend/src/components/PMMonthlyReport.tsx:122-139 | nothing before the report loads; then exactly the requests that pass the filters, each as often as it occurs, in ascending id order |
| PmMonthlyReport.FailedLoadShowsEmptyTable | frontend/src/components/PMMonthlyReport.tsx:78-109 | a failed load shows no error and an empty request table |
| LoginForm.IdText | frontend/src/components/login-form.tsx:86-90 | a number prints in decimal, null as "null" and a missing field as "undefined" |
| LoginForm.Login | frontend/src/components/login-form.tsx:33-104 | a failed login goes to "/" and stores nothing; otherwise the user is stored and the upper-cased role picks the platform, admin, CSR or PIN dashboard, anything else going to "/" |
| LoginForm.NonJsonBodyFails | frontend/src/components/login-form.tsx:48-71 | a reply without a JSON body never logs anyone in, whatever its status |
| LoginForm.RoleCaseIgnored | frontend/src/components/login-form.tsx:77 | two roles that differ only in letter case lead to the same route |
| LoginForm.UpperOfLower | frontend/src/components/login-form.tsx:77 | upper-casing after lower-casing is upper-casing |
| LoginForm.DashboardOnlyAfterLogin | frontend/src/components/login-form.tsx:60-95 | a route other than "/" comes only from a successful login with one of the four roles |
| CreateUserAccount.Update | frontend/src/components/create-user-account.tsx:34-36 | the named field takes the value and the others are kept |
| CreateUserAccount.Complaint | frontend/src/components/create-user-account.tsx:41-43 | username, then email, then password is reported when blank, and no complaint exactly when none is blank |
| CreateUserAccount.PayloadOf | frontend/src/components/create-user-account.tsx:45-51 | username and email trimmed; password, role and status as entered |
| CreateUserAccount.Submit | frontend/src/components/create-user-account.tsx:38-79 | a complaint sends nothing; otherwise the payload is sent; the dashboard is reached exactly on an OK `true`; a failure shows the generic text, a string reply a warning, anything else "Unexpected response" |
| CreateUserAccount.PasswordEditKeepsEarlierComplaints | frontend/src/components/create-user-account.tsx:41-43 | editing the password keeps a username or email complaint |
| CreateUserAccount.FilledFormIsSent | frontend/src/components/create-user-account.tsx:26-51 | a form filled from the initial one is sent exactly when username, email and password are all non-blank |
| CreateUserAccount.Page.constructor | frontend/src/components/create-user-account.tsx:25-32 | the initial form: empty texts, no role, status "active", not submitting |
| CreateUserAccount.Page.OnChange | frontend/src/components/create-user-account.tsx:34-36 | the new form is Update's |
| CreateUserAccount.Page.HandleSubmit | frontend/src/components/create-user-account.tsx:38-79 | the outcome is Submit's; only `submitting` may change, and it is lowered after any call |
| PinRequestForm.NumberOf | frontend/src/components/PIN-request-form.tsx:51 | blank is 0; decimal digits are their value, after a leading plus the same, after a leading minus the negation; a negative value comes only from a leading minus |
| PinRequestForm.ResolvePinId | frontend/src/components/PIN-request-form.tsx:49-53 | a truthy stored id wins; else a non-empty numeric parameter; else null, in particular for an empty or non-numeric parameter |
| PinRequestForm.PlusSignIgnored | frontend/src/components/PIN-request-form.tsx:51 | a parameter `+<digits>` resolves to the same number as `<digits>` |
| PinRequestForm.StoredUserWins | frontend/src/components/PIN-request-form.tsx:50 | a non-zero stored id is used whatever the parameter |
| PinRequestForm.Synced | frontend/src/components/PIN-request-form.tsx:71-75 | a truthy resolved id replaces the form's; otherwise the form is kept |
| PinRequestForm.Update | frontend/src/components/PIN-request-form.tsx:97-99 | the named field takes the value and the others are kept |
| PinRequestForm.AfterCategories | frontend/src/components/PIN-request-form.tsx:78-94 | a success stores the categories; a failure sets "Failed to load categories."; loading ends either way |
| PinRequestForm.PayloadOf | frontend/src/components/PIN-request-form.tsx:111-117 | status "pending", the PIN id and category as in the form, the trimmed title, and no description exactly when it is blank |
| PinRequestForm.Submit | frontend/src/components/PIN-request-form.tsx:102-150 | nothing is sent without a truthy PIN id or a title; the PIN's dashboard is reached exactly on an OK reply parsing to `true`; other replies show their string or the default, a failed call the console text |
| PinRequestForm.StringReplyFails | frontend/src/components/PIN-request-form.tsx:137-143 | a string reply never succeeds, even with an OK status |
| PinRequestForm.Page.constructor | frontend/src/components/PIN-request-form.tsx:40-68 | the resolved id is ResolvePinId's and seeds the form; no categories, no error |
| PinRequestForm.Page.SyncPinUserId | frontend/src/components/PIN-request-form.tsx:71-75 | the form becomes Synced's and nothing else changes |
| PinRequestForm.Page.FetchCategories | frontend/src/components/PIN-request-form.tsx:78-94 | the new state is AfterCategories's and the form is kept |
| PinRequestForm.Page.OnChange | frontend/src/components/PIN-request-form.tsx:97-99 | the new form is Update's and nothing else changes |
| PinRequestForm.Decode | frontend/src/components/PIN-request-form.tsx:118-147 | for a sent payload, success needs an OK status and a body parsed as `true`, and only then routes to the PIN's dashboard; any other response shows its string or "Failed to create request"; a thrown call shows the console hint |
| PinRequestForm.Page.HandleSubmit | frontend/src/components/PIN-request-form.tsx:102-150 | the outcome is Submit's; only `submitting` may change, and it is lowered after any call |

## Left out

- The server's routes, controllers, `main.py` and the session set-up (`database.py`) only forward calls. Some of their imports name functions the entity modules do not define. They are not part of this model.
- `get_pin_requests` and `search_pin_requests` (request_entity.py:12-114) are not modelled. The first reads an undefined `q` when a filter is given.
- `get_all_requests` and `view_request` (request_entity.py:390-426, 473-509) are not modelled. They read CSR columns that do not exist, so they raise.
- `search_csr_requests` (request_entity.py:251-301) is not modelled. It is a second listing, with SQL text search.
- `generate_daily_report` (request_entity.py:511-588) is not modelled, and neither is the monthly report beyond its month rollover. They consist of SQL date grouping and floating-point rates, averages and growth.
- `insert_users.py`, `tdd.py`, the sidebars, `App.tsx` and `logout.test.jsx` are not modelled. They are seeding, tests against a live database, static configuration and routing.
- SQL `ilike` is modelled as ASCII case-insensitive equality or containment. A `%` or `_` in user input, which the database would treat as a wildcard, matches only itself here.
- Case folding is ASCII only: `lower()` and `toLowerCase()` on other letters are treated as the identity.
- Common.Strip, Common.IsBlank: only ASCII white space (space, tab, newline, carriage return, vertical tab, form feed) counts as blank. Python's `strip()` and JavaScript's `trim()` also remove Unicode spaces such as U+00A0, U+2028 and U+3000. So a name made only of such characters passes the model's emptiness tests, in the backend and the frontend, where the source refuses it. Such characters at either end are kept where the source trims them.
- Models.Consistent: the model assumes a database engine that enforces foreign keys and runs their ON DELETE actions. The engine is whatever `DATABASE_URL` names (database.py:14-17), and nothing turns that enforcement on. On an engine that does not enforce foreign keys, such as SQLite by default, a request with an unknown PIN or category, or a shortlist pair with an unknown CSR, would be stored. The model rejects them.
- Strings are sequences of characters. The `String(100)` column lengths are not enforced, because the database engine and its truncation rules are not part of this model.
- An exception caught by an `except` branch is modelled as `Fail(prefix)`. The exception's own text, which the source appends, is not modelled.
- Timestamps are integers (seconds), and the clock (`datetime.now`, `date.today`, `Date`) is a parameter.
- Timestamps are not refreshed on every write: the `onupdate` of `updated_at` is left out. Only `created_at` and `completed_at` are set explicitly.
- Rows the database returns in an unspecified order, such as `get_all_users` and ties between equal `created_at` values, are taken in ascending id order.
- RequestEntity.ListCsrRequests: the `except` branch, which returns `{}` when the listing fails, is not modelled. The model's listing cannot fail.
- Deleting a CSR or a user profile is modelled only through the schema's referential actions (`Models.DeleteCsrRow`, `Models.DeleteProfileRow`), and no entity operation deletes them. Deleting a PIN or a user account is not modelled at all, so neither are their CASCADEs (models.py:64, 89, 124). No entity operation in the modelled core deletes them.
- The server's reply fields other than those the pages branch on (JSON formatting, `isoformat` dates) are not modelled.
- A reply body that fails to parse as JSON is a thrown call (`Client.Fetched.Thrown`) with its message as a parameter. The exact message text of the browser is not modelled.
- Rendering, dialogs, `alert` as a UI, the XLSX export, the charts and date formatting are not modelled. An alert is modelled as the text the handler passes to `alert`.
- `window.confirm` and the value of `Math.random()` are inputs; the random value is a real `u` in [0, 1). `localStorage`, `navigate` and `console` are outputs only: the route, and a flag saying the user was stored.
- Asynchrony is not modelled: each handler runs to completion with the reply given. Interleaved calls, AbortController and the busy flags as locks are left out; a busy flag is only a field that is set and reset.
- A JSON object's keys are taken in insertion order. JavaScript puts integer-like keys first, so a category named like an integer would be listed earlier in the weekly export than the model says.
- A JSON object with duplicate keys is not modelled.
- PinRequestForm.NumberOf: `Number` is modelled for blank text and for decimal digits after an optional `+` or `-` sign; its other forms (`0x…`, exponents, fractions, `Infinity`) give None here. As a consequence, ResolvePinId treats such parameters as absent.
- UaUserProfiles.CreateStep, UaUserProfiles.UpdateStep, UaUserProfiles.SuspendStep, UaUserProfiles.ReactivateStep: a JSON `null` body with a failed status makes `result.detail` throw a TypeError, and that error's message is alerted. The model alerts the fallback text instead: `Client.ReplyBody` has no case for `null`. No route of the server sets a failed status.
- PinDashboard.DeleteStep, PinDashboard.FinishSave: in the same case the TypeError's message is alerted (delete) or becomes the save error (save). The model gives "HTTP <status>" instead.
- PmDashboard.FinishCreate, PmDashboard.FinishUpdate: a reply that is not JSON throws at `res.json()`, which the model receives as a `Thrown` call.
- CsrDashboard.UseCsrId: the id it yields is the stored account's `id`, and the page sends it as `csr_id`. The server compares `csr_id` with `csr_user_id` (request_entity.py:209, 348), which is a separate column of the CSR table (models.py:61-62). The model takes the id as it comes and does not relate account ids to CSR ids. The account row's `role` is an integer (models.py:44), so a stored account gives no CSR id at all (CsrDashboard.NonTextRoleCannotToggle).
- CsrDashboard.FinishToggle, CsrDashboard.AfterView: the alerts these handlers show are not modelled; only the new list is.
- PmMonthlyReport.AfterFetch: the demonstration report's completion rate, average completion time and growth are floating point and are left out of `MockData`.

## Findings

| source | as written | input that shows it | evidently intended | confidence | as-written member | corrected member |
|---|---|---|---|---|---|---|
| backend/app/entity/request_entity.py:448-450 | `update_request` compares `CSR.user_id` and `assigned_csr.user_id`, but the CSR model has no `user_id` column (models.py:63-65). Every call that gets past the two guards raises and lands in the `except` branch (lines 469-471), so no request can ever be assigned or have its status changed. | a request shortlisted by CSR 1, updated with the body `{status: "assigned"}` | the assignee is identified by the CSR's `csr_user_id` | not executed | RequestEntity.UpdateRequestAsWritten, RequestEntity.UpdateRequestAsWrittenFails | RequestEntity.UpdateRequest |
