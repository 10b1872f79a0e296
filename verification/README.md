# administracao-front, modelled in Dafny

A model of the logic inside the React admin console of a food-delivery
platform: the list screens (orders, users, restaurants, deliverers,
administrators, ads, promotions, transactions, notifications) with their
search and status filters and status badges, the dashboard's weekly revenue
panel and metric cards, the generic data table, the new-administrator form,
the restaurant editing form, the notification composer and the error
boundary that wraps the console.

Pure expressions (filters, lookups, table projections, the hours merge, the
payment toggle, the id parser) are Dafny functions with lemmas about them.
Component state that handlers change step by step is a Dafny class: one
method per point where the source resumes after an `await`, with a phase
field standing for the suspended continuation and the network answers passed
in as parameters. Each method's contract ties its new state to the pure
functions.

Shared modules:
- `Wrappers` holds `Option`.
- `Lists` holds `filter`/`find`/`findIndex`/`map`/`reduce`-sum with their laws.
- `Text` holds lower-casing, `includes`, `split`/`join` and `trim`.
- `Numbers` holds `parseInt` and `String(n)` for integers.
- `Ui` holds the badge and colour vocabulary.

## Model

| member | source | states |
|---|---|---|
| OrdersManagement.FilteredOrders | src/components/admin/OrdersManagement.tsx:60-68 | an order is kept iff customer or restaurant contains the term case-insensitively or the id's decimal text contains it as typed, and the status filter matches; the result is an order-preserving subsequence |
| OrdersManagement.FilteredOrdersIdempotent | src/components/admin/OrdersManagement.tsx:60-68 | filtering the filtered list again changes nothing |
| OrdersManagement.NoCriteriaListsEveryOrder | src/components/admin/OrdersManagement.tsx:60-68 | with an empty term and filter "all" every order is listed, in order |
| OrdersManagement.StatusText | src/components/admin/OrdersManagement.tsx:35-46 | the three known codes get their Portuguese captions; any other status is shown unchanged, and only then |
| OrdersManagement.StatusColour | src/components/admin/OrdersManagement.tsx:22-33 | green, yellow and red for delivered, in preparation and pending, each iff; grey exactly for unknown codes |
| UsersManagement.FilteredUsers | src/components/admin/UsersManagement.tsx:56-64 | a user is kept iff name, email or phone (missing phone read as empty) contains the term case-insensitively and the status filter matches; order-preserving subsequence |
| UsersManagement.FilteredUsersIdempotent | src/components/admin/UsersManagement.tsx:56-64 | filtering twice equals filtering once |
| UsersManagement.EmptyTermOnlyFiltersStatus | src/components/admin/UsersManagement.tsx:56-64 | with an empty term only the status filter decides membership |
| UsersManagement.StatusText | src/components/admin/UsersManagement.tsx:33-42 | the status is shown as stored, for every branch |
| UsersManagement.StatusColour | src/components/admin/UsersManagement.tsx:22-31 | green iff "Ativo", red iff "Banido", grey otherwise |
| UsersManagement.ActionFor | src/components/admin/UsersManagement.tsx:83-91 | the ban button is offered iff the user is "Ativo", the restore button otherwise |
| RestaurantsManagement.FilteredRestaurants | src/components/admin/RestaurantsManagement.tsx:35-47 | a non-array listing shows nothing; otherwise a restaurant is kept iff name, city or category (missing ones never match) contains the term case-insensitively and its lower-cased status equals "ativo"/"inativo" as the filter asks; order-preserving subsequence |
| RestaurantsManagement.FilteredRestaurantsIdempotent | src/components/admin/RestaurantsManagement.tsx:35-47 | filtering an array listing twice equals filtering once |
| RestaurantsManagement.ActiveFilterScenario | src/components/admin/RestaurantsManagement.tsx:43-44 | of an "Ativo" and an "Inativo" restaurant, the "active" filter keeps exactly the first |
| RestaurantsManagement.LoadedList | src/components/admin/RestaurantsManagement.tsx:49-65 | the list is the array body of an ok response, and empty for a non-array body, a non-ok answer or a network error |
| RestaurantsManagement.NewStatusFor | src/components/admin/RestaurantsManagement.tsx:73 | "inactive" iff the status is exactly "Ativo", "active" otherwise |
| RestaurantsManagement.StatusText | src/components/admin/RestaurantsManagement.tsx:140-142 | "Ativo" iff the status is "Ativo", "Inativo" otherwise |
| RestaurantsManagement.StatusColour | src/components/admin/RestaurantsManagement.tsx:134-138 | green iff "Ativo", red otherwise |
| RestaurantsManagement.ToggleTitle | src/components/admin/RestaurantsManagement.tsx:186-191 | "Desativar" iff "Ativo", "Ativar" otherwise |
| RestaurantsManagement.ToggleAsksForTheOtherStatus | src/components/admin/RestaurantsManagement.tsx:71-93 | the requested status is the opposite of the one displayed, and the button title names that change |
| RestaurantsManagement.ToggleRequest | src/components/admin/RestaurantsManagement.tsx:73-80 | the PATCH targets the restaurant's id and carries the new status |
| RestaurantsManagement.RestaurantsScreen.Visible | src/components/admin/RestaurantsManagement.tsx:35-47 | the rows shown are the filter of the stored list |
| RestaurantsManagement.RestaurantsScreen.BeginFetch | src/components/admin/RestaurantsManagement.tsx:51 | a fetch raises `loading` and leaves the list |
| RestaurantsManagement.RestaurantsScreen.FetchAnswered | src/components/admin/RestaurantsManagement.tsx:52-64 | the list becomes the loaded list (empty on any failure) and `loading` drops |
| RestaurantsManagement.RestaurantsScreen.ToggleAnswered | src/components/admin/RestaurantsManagement.tsx:82-92 | a refetch starts iff the answer is ok and its body reads as non-null JSON (otherwise reading `result.message` throws); the list is untouched |
| DeliverersManagement.FilteredDeliverers | src/components/admin/DeliverersManagement.tsx:100-103 | kept iff name or email contains the term case-insensitively; order-preserving subsequence |
| DeliverersManagement.FilteredDeliverersIdempotent | src/components/admin/DeliverersManagement.tsx:100-103 | filtering twice equals filtering once |
| DeliverersManagement.DelivererStats | src/components/admin/DeliverersManagement.tsx:105-111 | total is the list length, active is at most the total, and the literal "0.0" branch is taken iff there are no deliverers (a non-empty list whose mean rounds to 0.0 takes the `toFixed` branch) |
| DeliverersManagement.ActiveCountsAtivo | src/components/admin/DeliverersManagement.tsx:107 | active counts exactly the "Ativo" deliverers, and equals the total iff all are "Ativo" |
| DeliverersManagement.DeliveriesTodayIgnoresMissing | src/components/admin/DeliverersManagement.tsx:111 | the deliveries sum equals the sum over the deliverers that have a count |
| DeliverersManagement.StatusBadge | src/components/admin/DeliverersManagement.tsx:74-86 | default green badge iff "Ativo", red otherwise |
| AdminsManagement.FilteredAdmins | src/components/admin/AdminsManagement.tsx:127-130 | kept iff name or email contains the term case-insensitively; order-preserving subsequence |
| AdminsManagement.EmptyTermListsEveryAdmin | src/components/admin/AdminsManagement.tsx:127-130 | an empty term lists every administrator |
| AdminsManagement.HeadingCount | src/components/admin/AdminsManagement.tsx:222 | the heading count is at most the list length, and equals it for an empty term |
| Lists.FilterCounts | src/components/admin/AdminsManagement.tsx:127 | `filter` keeps every occurrence of an element that passes, duplicates included, and drops every element that fails |
| AdminsManagement.PermissionsCellOf | src/components/admin/AdminsManagement.tsx:81-92 | the first two permissions (all of them when fewer) are shown, in order; the "+n mais" note appears iff there are more than two, with n the count minus two |
| AdminsManagement.RoleColour | src/components/admin/AdminsManagement.tsx:66-77 | red iff "Super Admin", blue iff "Gerente", green otherwise |
| AdminsManagement.StatusBadge | src/components/admin/AdminsManagement.tsx:101-112 | default green badge iff "Ativo", secondary red otherwise |
| AdsManagement.FilteredAds | src/components/admin/AdsManagement.tsx:130-133 | kept iff title or restaurant contains the term case-insensitively; order-preserving subsequence |
| AdsManagement.FilteredAdsIdempotent | src/components/admin/AdsManagement.tsx:130-133 | filtering twice equals filtering once |
| AdsManagement.EmptyTermListsEveryAd | src/components/admin/AdsManagement.tsx:130-133 | an empty term lists every campaign |
| AdsManagement.HeadingCount | src/components/admin/AdsManagement.tsx:186 | at most the list length, equal for an empty term |
| AdsManagement.StatusBadge | src/components/admin/AdsManagement.tsx:104-114 | default green iff "Ativo", secondary yellow otherwise |
| PromotionsManagement.FilteredPromotions | src/components/admin/PromotionsManagement.tsx:139-142 | kept iff name or code contains the term case-insensitively; order-preserving subsequence |
| PromotionsManagement.FilteredPromotionsIdempotent | src/components/admin/PromotionsManagement.tsx:139-142 | filtering twice equals filtering once |
| PromotionsManagement.EmptyTermListsEveryPromotion | src/components/admin/PromotionsManagement.tsx:139-142 | an empty term lists every promotion |
| PromotionsManagement.HeadingCount | src/components/admin/PromotionsManagement.tsx:195 | at most the list length, equal for an empty term |
| PromotionsManagement.StatusBadge | src/components/admin/PromotionsManagement.tsx:113-121 | default green iff "Ativo", secondary yellow otherwise |
| FinancialManagement.FilteredTransactions | src/components/admin/FinancialManagement.tsx:114-117 | kept iff restaurant or order id contains the term case-insensitively; order-preserving subsequence |
| FinancialManagement.FilteredTransactionsIdempotent | src/components/admin/FinancialManagement.tsx:114-117 | filtering twice equals filtering once |
| FinancialManagement.EmptyTermListsEveryTransaction | src/components/admin/FinancialManagement.tsx:114-117 | an empty term lists every transaction |
| FinancialManagement.HeadingCount | src/components/admin/FinancialManagement.tsx:214 | at most the list length, equal for an empty term |
| FinancialManagement.StatusBadge | src/components/admin/FinancialManagement.tsx:88-96 | default green iff "Processado", secondary yellow otherwise |
| FinancialManagement.RevenueChart | src/components/admin/FinancialManagement.tsx:196-203 | seven bars labelled Seg to Dom in order, each twice its value high, all between 90 and 134 px |
| Dashboard.RevenuePanelOf | src/components/admin/Dashboard.tsx:117-133 | "Carregando..." iff nothing was fetched; otherwise seven rows labelled Dom..Sáb in order and a total equal to the sum of every fetched record |
| Dashboard.RowIsFirstMatch | src/components/admin/Dashboard.tsx:121-122 | each row shows the revenue of the first record for its day, or 0 when there is none |
| Dashboard.TotalIsSumOfRowsForAWeek | src/components/admin/Dashboard.tsx:121-133 | when the records have distinct weekday labels, the total equals the sum of the seven rows |
| Dashboard.DuplicateDayCountsOnlyInTotal | src/components/admin/Dashboard.tsx:121-133 | two records for the same day: the row shows only the first, the total counts both |
| Dashboard.CountValue | src/components/admin/Dashboard.tsx:88 | a card shows "..." iff its value is missing |
| Dashboard.ChangeBadgeOf | src/components/admin/Dashboard.tsx:75-82 | "..." iff the change is missing; green iff present and at least 0; a leading '+' iff positive; a present change ends in '%' |
| Dashboard.ChangeTextRoundTrip | src/components/admin/Dashboard.tsx:80-81 | the badge text reads back as the change |
| Dashboard.Cards | src/components/admin/Dashboard.tsx:23-52 | four cards titled "Pedidos Hoje", "Total de Usuários", "Restaurantes Ativos" and "Faturamento Hoje", in that order; the count cards show "..." iff their metric is missing, the revenue card shows the revenue and never "..."; the orders, users and revenue cards carry the change badge of their own percentage, and the restaurants card's badge is always a green "0%" |
| Dashboard.DashboardView | src/components/admin/Dashboard.tsx:19-21 | the page shows "Carregando..." iff the metrics have not arrived |
| DataTable.Render | src/components/admin/DataTable.tsx:14-44 | one header per column with its caption, one row per item in order, one cell per column in order; each cell is `renderCell(item, column)` when given, else the item's field |
| DataTable.DefaultCellsAreFieldValues | src/components/admin/DataTable.tsx:35 | without `renderCell` every cell is the item's field under the column key |
| DataTable.RenderAppend | src/components/admin/DataTable.tsx:31-32 | the rows of a concatenation are the rows of each part, concatenated |
| DataTable.RenderSelection | src/components/admin/DataTable.tsx:31-37 | the table of a filtered list is a subsequence of the table of the full list |
| NotificationsManagement.ParseCustomIds | src/components/admin/NotificationsManagement.tsx:61 | split on commas, trim, read the leading integer, drop NaN and 0; every id kept is non-zero |
| NotificationsManagement.EmptyFieldNamesNobody | src/components/admin/NotificationsManagement.tsx:61 | an empty field gives no ids |
| NotificationsManagement.FalsyPieceNamesNobody | src/components/admin/NotificationsManagement.tsx:61 | a single piece that reads as NaN or 0 yields no id |
| NotificationsManagement.FalsyPieceSkipped | src/components/admin/NotificationsManagement.tsx:61 | a piece that reads as NaN or 0 is dropped and the pieces after it are read as if it were absent |
| NotificationsManagement.ParseCustomIdsAppend | src/components/admin/NotificationsManagement.tsx:61 | the ids of "a,b" are the ids of a followed by the ids of b, so order is kept |
| NotificationsManagement.ThreeCommaSeven | src/components/admin/NotificationsManagement.tsx:61 | "3, 7" gives [3, 7] |
| NotificationsManagement.CustomIdsRoundTrip | src/components/admin/NotificationsManagement.tsx:61 | non-zero ids written with commas and read back give the same ids |
| NotificationsManagement.PayloadOf | src/components/admin/NotificationsManagement.tsx:57-62 | title, content and target type are sent as typed; `custom_user_ids` is present iff the target is "CUSTOM", and is then the parsed ids |
| NotificationsManagement.TimeBucket | src/components/admin/NotificationsManagement.tsx:20-28 | seconds below 60, minutes below 3600, hours below 86400, the absolute date otherwise, with the count in range for each bucket |
| NotificationsManagement.TimeAgo | src/components/admin/NotificationsManagement.tsx:20-28 | the count followed by "s atrás", "min atrás" or "h atrás" below a day (whole minutes and hours, rounded down), the absolute text from a day on |
| NotificationsManagement.TimeAgoShowsCount | src/components/admin/NotificationsManagement.tsx:24-26 | the relative text starts with its count, which `parseInt` reads back |
| NotificationsManagement.FromApi | src/components/admin/NotificationsManagement.tsx:43-46 | the API record is renamed field by field (content to message, created_at to date, target_type to target) |
| NotificationsManagement.FilteredNotifications | src/components/admin/NotificationsManagement.tsx:99-102 | kept iff title or message contains the search case-insensitively; order-preserving subsequence |
| NotificationsManagement.FilteredNotificationsIdempotent | src/components/admin/NotificationsManagement.tsx:99-102 | filtering twice equals filtering once |
| NotificationsManagement.DestinationLabel | src/components/admin/NotificationsManagement.tsx:145 | the label of the first destination with that value, else the raw target |
| NotificationsManagement.NotificationsScreen.Visible | src/components/admin/NotificationsManagement.tsx:99-102 | the rows shown are the filter of the stored list |
| NotificationsManagement.NotificationsScreen.EditDraft | src/components/admin/NotificationsManagement.tsx:31-35 | typing changes only the draft fields |
| NotificationsManagement.NotificationsScreen.SubmitCreate | src/components/admin/NotificationsManagement.tsx:50-63 | `loading` rises and the POST body is the payload of the draft |
| NotificationsManagement.NotificationsScreen.CreateAnswered | src/components/admin/NotificationsManagement.tsx:64-74 | on ok the modal closes, the draft resets to empty texts and "ALL", and a refetch starts; otherwise `loading` drops and the draft is kept |
| NotificationsManagement.NotificationsScreen.CreateRefetched | src/components/admin/NotificationsManagement.tsx:70-74 | the list is replaced by the renamed records (kept when the refetch fails) and `loading` drops whatever the outcome |
| NotificationsManagement.NotificationsScreen.ViewRequested | src/components/admin/NotificationsManagement.tsx:77-78 | only callable while no view is loading (the button at line 148 is disabled then); `viewLoading` rises and nothing else changes |
| NotificationsManagement.NotificationsScreen.ViewAnswered | src/components/admin/NotificationsManagement.tsx:77-85 | the fetched body, a JSON `null` included (which closes the dialog), replaces the viewed notification, which a failure keeps; `viewLoading` drops either way; the list, the draft, the modal and the other flags are unchanged |
| NotificationsManagement.NotificationsScreen.RequestDelete | src/components/admin/NotificationsManagement.tsx:87-89 | nothing happens unless confirmed; otherwise `deleteLoading` rises and the DELETE names the id; the draft, the modal, `loading` and `viewLoading` are unchanged |
| NotificationsManagement.NotificationsScreen.DeleteAnswered | src/components/admin/NotificationsManagement.tsx:91-95 | when the DELETE completes the details close and a refetch starts; a network error only drops `deleteLoading`; the draft, the modal, `loading` and `viewLoading` are unchanged |
| NotificationsManagement.NotificationsScreen.DeleteRefetched | src/components/admin/NotificationsManagement.tsx:93-96 | the list is replaced by the renamed records (kept when the refetch fails) and `deleteLoading` drops; the draft, the modal, `loading` and `viewLoading` are unchanged |
| AdminForm.InitialData | src/components/admin/forms/AdminForm.tsx:19-40 | every text field empty, active, and exactly the ten permission keys, all off |
| AdminForm.WithInput | src/components/admin/forms/AdminForm.tsx:51-53 | a text input sets its own field to the typed value and leaves every other field, the switch and the permissions as they were; the switch sets only `is_active` |
| AdminForm.WithPermission | src/components/admin/forms/AdminForm.tsx:55-63 | the named permission takes the new value; every other permission and field is unchanged |
| AdminForm.SelectedAll | src/components/admin/forms/AdminForm.tsx:65-73 | the same keys; all off when all were on, all on otherwise; nothing else changes |
| AdminForm.SelectAllTwiceFlips | src/components/admin/forms/AdminForm.tsx:65-73 | on a non-empty map a second select-all flips every permission the first one set |
| AdminForm.SelectAllFromInitial | src/components/admin/forms/AdminForm.tsx:19-40 | from the opening form select-all grants all ten permissions |
| AdminForm.Submitted | src/components/admin/forms/AdminForm.tsx:42-49 | the form goes to `onSubmit` unchanged iff password and confirmation are equal |
| AdminForm.OnlyPasswordsGateSubmit | src/components/admin/forms/AdminForm.tsx:42-73 | permission changes, the active switch, select-all and typing into any field other than the two passwords never change whether submit is allowed |
| AdminForm.MatchingPasswordsSubmit | src/components/admin/forms/AdminForm.tsx:42-53 | typing the same text into both password fields makes the form submittable |
| AdminForm.AdminFormScreen.InputChange | src/components/admin/forms/AdminForm.tsx:51-53 | the form becomes `WithInput` of the old form |
| AdminForm.AdminFormScreen.PermissionChange | src/components/admin/forms/AdminForm.tsx:55-63 | the form becomes `WithPermission` of the old form |
| AdminForm.AdminFormScreen.SelectAllPermissions | src/components/admin/forms/AdminForm.tsx:65-73 | the accumulator loop builds exactly `SelectedAll` of the old form |
| AdminForm.AdminFormScreen.Submit | src/components/admin/forms/AdminForm.tsx:42-49 | the current form is submitted iff the passwords agree |
| RestaurantForm.InitialHours | src/components/admin/forms/RestaurantForm.tsx:38-40 | seven rows for days 1 to 7 in order, all times empty, so nothing would be sent |
| RestaurantForm.MergeHours | src/components/admin/forms/RestaurantForm.tsx:98-106 | length and day order are kept; a row takes the times of the first fetched record for its day, and is unchanged when there is none |
| RestaurantForm.MergeIdempotent | src/components/admin/forms/RestaurantForm.tsx:100-105 | merging the same response twice equals merging it once |
| RestaurantForm.MergeNothing | src/components/admin/forms/RestaurantForm.tsx:100-105 | an empty response leaves the table as it was |
| RestaurantForm.EditHour | src/components/admin/forms/RestaurantForm.tsx:134-136 | only the named time of the named row changes; an index outside the table changes nothing |
| RestaurantForm.EditRestores | src/components/admin/forms/RestaurantForm.tsx:134-136 | typing back the previous text restores the table |
| RestaurantForm.SendableHours | src/components/admin/forms/RestaurantForm.tsx:179-181 | the rows sent are the order-preserving subsequence of rows with both times filled |
| RestaurantForm.ClosedDayNeverSent | src/components/admin/forms/RestaurantForm.tsx:437 | a row shown as "Fechado" is never sent |
| RestaurantForm.FilledDayIsSent | src/components/admin/forms/RestaurantForm.tsx:134-181 | filling both times of a day puts that day among the hours sent |
| RestaurantForm.TogglePayment | src/components/admin/forms/RestaurantForm.tsx:125-132 | a listed method is removed everywhere with the rest kept in order; an unlisted one is appended at the end |
| RestaurantForm.ToggleAbsentTwice | src/components/admin/forms/RestaurantForm.tsx:125-132 | ticking and unticking an unlisted method restores the list |
| RestaurantForm.InitialForm | src/components/admin/forms/RestaurantForm.tsx:22-36 | all eleven text fields empty, all four payment methods, not linked-only |
| RestaurantForm.FormFromProfile | src/components/admin/forms/RestaurantForm.tsx:79-96 | each of the eleven texts is the profile's text, or empty when missing; a missing payment list becomes all four methods, `only_linked_delivery` is true iff non-zero; an unparsable payment list stops the loader |
| RestaurantForm.RadiusOrDefault | src/components/admin/forms/RestaurantForm.tsx:162 | the parsed radius when it is a non-zero integer, 5 otherwise; never 0 |
| RestaurantForm.RadiusRoundTrip | src/components/admin/forms/RestaurantForm.tsx:162 | a typed non-zero radius is sent as typed |
| RestaurantForm.RadiusDefaults | src/components/admin/forms/RestaurantForm.tsx:162 | a blank or zero radius is sent as 5 |
| RestaurantForm.PayloadOf | src/components/admin/forms/RestaurantForm.tsx:153-171 | the radius is coerced, `only_linked_delivery` is 1 iff checked and 0 otherwise, and the payment list and the eight non-numeric texts (name, cuisine, description, PIX key, Instagram, WhatsApp, logo, banner) are sent as held |
| RestaurantForm.ProfileSavedBack | src/components/admin/forms/RestaurantForm.tsx:79-171 | a loaded profile saved unedited sends back its eight texts (empty where missing), its radius or 5, and its linked-only flag as 0/1 |
| RestaurantForm.MissingPaymentsSaveAll | src/components/admin/forms/RestaurantForm.tsx:93 | a profile without a stored payment list is saved back with all four methods |
| RestaurantForm.RestaurantEditor.Loaded | src/components/admin/forms/RestaurantForm.tsx:79-106 | an ok profile replaces the form; ok hours are merged into the table; an unparsable payment list leaves both untouched |
| RestaurantForm.RestaurantEditor.HourChange | src/components/admin/forms/RestaurantForm.tsx:134-136 | only while not submitting (the inputs are disabled then); the table becomes `EditHour` of the old table and stays a seven-day table |
| RestaurantForm.RestaurantEditor.PaymentChange | src/components/admin/forms/RestaurantForm.tsx:125-132 | only while not submitting (the checkboxes are disabled then); the payment list becomes its toggle; nothing else changes |
| RestaurantForm.RestaurantEditor.Close | src/components/admin/forms/RestaurantForm.tsx:138-142 | the form closes iff no submit is in flight |
| RestaurantForm.RestaurantEditor.Submit | src/components/admin/forms/RestaurantForm.tsx:144-151 | nothing happens while submitting; otherwise both flags rise and the profile PUT carries the current form |
| RestaurantForm.RestaurantEditor.ProfileAnswered | src/components/admin/forms/RestaurantForm.tsx:173-185 | the hours PUT, with the sendable hours, goes out only after an ok profile answer; otherwise both flags drop and form and hours are left as they were |
| RestaurantForm.RestaurantEditor.HoursAnswered | src/components/admin/forms/RestaurantForm.tsx:187-207 | an ok answer waits for the timer still submitting; a failure drops both flags and keeps form and hours |
| RestaurantForm.RestaurantEditor.TimerFired | src/components/admin/forms/RestaurantForm.tsx:195-200 | both flags drop, the parent is told to save and the form closes |
| ErrorBoundaries.Initial | src/components/ErrorBoundary.tsx:15-18 | no error, no error value, no error info |
| ErrorBoundaries.DerivedStateFromError | src/components/ErrorBoundary.tsx:20-22 | faulted, holding the error, without info |
| ErrorBoundaries.Step | src/components/ErrorBoundary.tsx:20-32 | a throw faults the boundary; a catch records error and info and keeps `hasError`; a reset returns to the initial state |
| ErrorBoundaries.NoResetKeepsFault | src/components/ErrorBoundary.tsx:14-32 | once faulted, no sequence of events without a reset clears `hasError` |
| ErrorBoundaries.ReactOrderKeepsConsistent | src/components/ErrorBoundary.tsx:14-32 | when catches follow throws, as React orders them, a healthy boundary holds no error and error info only comes with an error |
| ErrorBoundaries.Render | src/components/ErrorBoundary.tsx:34-152 | the children iff healthy; the fallback, given the error, iff faulted with a fallback; else the built-in panel, whose details show iff in development and an error is held |
| ErrorBoundaries.CrashShowsDetails | src/components/ErrorBoundary.tsx:128-143 | a crash caught in development shows the error text and component stack |
| ErrorBoundaries.ErrorBoundary.ErrorThrown | src/components/ErrorBoundary.tsx:20-22 | the state becomes the derived state |
| ErrorBoundaries.ErrorBoundary.DidCatch | src/components/ErrorBoundary.tsx:24-28 | error and info are recorded; `hasError` is kept |
| ErrorBoundaries.ErrorBoundary.ResetError | src/components/ErrorBoundary.tsx:30-32 | the state returns to the initial state |
| ErrorBoundaries.ErrorBoundary.View | src/components/ErrorBoundary.tsx:34-39 | what is rendered is `Render` of the current state |
| Text.CaseInsensitive | src/components/admin/OrdersManagement.tsx:62-63 | lower-casing both sides makes the match insensitive to the case of term and field |
| Text.JoinSplit | src/components/admin/NotificationsManagement.tsx:61 | splitting on a separator and joining with it again gives back the text |
| Numbers.DecimalRoundTrip | src/components/admin/NotificationsManagement.tsx:61 | `parseInt(String(n))` is n for every integer |
| Numbers.DecimalThenText | src/components/admin/forms/RestaurantForm.tsx:162 | the decimal text of any integer followed by any text that does not continue the number reads back as that integer |
| Numbers.SpaceThen | src/components/admin/NotificationsManagement.tsx:61 | leading white space is skipped whatever follows it |
| Numbers.HexThenText | src/components/admin/NotificationsManagement.tsx:61 | `0x`/`0X` followed by any hexadecimal digits and a non-digit rest reads as their base-16 value |
| Numbers.MinusThen | src/components/admin/NotificationsManagement.tsx:61 | a minus sign before any number without its own space or sign negates it |
| Numbers.NoDigitNaN | src/components/admin/NotificationsManagement.tsx:61 | any text with no digit after its white space, sign and prefix reads as NaN |

## Left out

- Network I/O, JSON decoding and React rendering are not modelled: each response is a parameter of the method that handles it, and rendering is the `Render`/`Visible` functions.
- Concurrency is not modelled. The two parallel loads of the restaurant form and of the dashboard are handled as one step per arrival, and an interleaving of a submit with a load is not modelled.
- `toast`, `console.error`, `alert`, `window.confirm` and `window.location.reload` are left out. Confirmation is a boolean parameter of `RequestDelete`, and the 1500 ms timer is the `TimerFired` step.
- Floating point is not modelled. This covers `parseFloat` for the delivery fee and minimum order (left out of `PayloadOf`), the deliverers' average performance, notification read and click percentages, the promotion usage bar, `toFixed` and `toLocaleString`. Dashboard revenue is in integer cents.
- `timeAgo` takes the whole-second difference as input. `Date` parsing and the `pt-BR` absolute date text are left out.
- `toLowerCase` is modelled as ASCII case folding only.
- `parseInt` is modelled for integers of any size, without the precision loss of doubles above 2^53.
- `Number(h.day_of_week)` is given as an integer or as "no integer". Decimal-string conversion is not modelled.
- `!!only_linked_delivery` is modelled for numeric values only.
- The restaurant form's generic `handleChange` is not modelled separately. It is the same record update as `AdminForm.WithInput`.
- The deliverer, ad and promotion forms and the settings screen only copy inputs into a record. The index page, sidebar, metrics card and orders chart are literal tables and presentation.
- NotificationsManagement.ParseCustomIds: the contract does not state the number of pieces `split` yields. The order and content of the ids are stated instead, by `ParseCustomIdsAppend` and `CustomIdsRoundTrip`.
- RestaurantForm.PayloadOf: the payload leaves out `delivery_fee` and `minimum_order`, which go through `parseFloat`.
- RestaurantForm.RestaurantEditor.Submit: returns the form whose `PayloadOf` is the PUT body, not the payload itself.
- AdminForm.Submitted: the browser's `required` and `type="email"` checks (AdminForm.tsx lines 93, 100, 104, 119 and 144) run before `handleSubmit` and are not modelled, so a form with an empty required field is submitted here.
- AdminForm.MatchingPasswordsSubmit: states submission under equal passwords only; the browser's `required` check on the other fields is not modelled.
- NotificationsManagement.NotificationsScreen.SubmitCreate: the browser's `required` check on title and content (NotificationsManagement.tsx lines 160-161) is not modelled, so an empty draft is posted here.
- RestaurantForm.RestaurantEditor.Submit: the browser's `required` checks (RestaurantForm.tsx lines 286, 308, 336, 360, 384 and 525) are not modelled, so a form with an empty required field is sent here.
