# Repair-shop admin: the logic under the screens

This project models the pure logic of a repair-shop administration front end in Dafny. The front end manages clients, their vehicles, parts suppliers and the parts inventory. Each screen holds a list and derives what it shows from that list. The model covers five parts of that logic:

- **Search and filter engines.** The clients, suppliers (list and dashboard), inventory and vehicles screens, and the joined client-and-vehicle view. Each search is an any-field substring match, lower-cased except where the source compares verbatim. Exact-match filters are then ANDed on, and nothing is ever reordered.
- **Local list updates.** Append, replace by id and remove by id, plus the inventory add. That add looks up the supplier, derives the margin and copies a six-field supplier summary.
- **Summary cards.** Counts, sums, empty-guarded averages (rounded for the clients screen), the low-stock count, and distinct city and category lists (sorted in the joined view).
- **Form validators and submit gates.** The supplier, inventory and vehicle edit modals and the create wizard's client and vehicle forms. Their quirks are kept: truthiness guards that skip a check on 0, a later message overwriting an earlier one, and a client id that is trimmed in one modal but not in the other.
- **Two state machines.** The per-client expand/collapse map, and the create wizard's `client → vehicle → complete` steps.

Every backend answer is an input. `Response<T>` is `Success(value)` or `Failure(message)`. Ids, timestamps and the current year are parameters.

Modules follow the source files:

- `Results`, `Collections`, `Text`, `Patterns`, `NumberParsing` and `Ordering` hold the JavaScript behaviour the screens rely on. These are `filter`, `includes`, `toLowerCase`, `trim`, the two regular expressions, `parseInt(v) || 0`, `Math.round`, `new Set` and `sort`.
- `ClientTypes`, `VehicleTypes`, `SupplierTypes` and `InventoryTypes` are the records and enums.
- `ClientsScreen`, `ClientVehicleView`, `InventoryScreen`, `InventoryView`, `SuppliersScreen`, `SuppliersDashboard` and `VehiclesScreen` are the screens.
- `SupplierForm`, `InventoryForm`, `VehicleForm`, `ClientForm` and `CreateWizard` are the modals.

Each filter has a declarative partner, a ghost predicate saying when an element is shown. A lemma proves that the filter equals `Filter` by that predicate. Each validator has a per-field "acceptable value" predicate, written without the source's truthiness tricks. A lemma proves that the error map is empty exactly when every field is acceptable.

## Model

| member | source | states |
|---|---|---|
| ClientsScreen.FilterClients | Clients.tsx:111-130 | the filtered clients are a subsequence of the clients: nothing is added or reordered |
| ClientsScreen.MatchesSearchIffFound | Clients.tsx:115-122 | a client matches a non-empty term iff the lower-cased term occurs in its lower-cased first name, last name or e-mail, or the raw term occurs in its phone number |
| ClientsScreen.FilterClientsListsExactly | Clients.tsx:111-130 | the list is exactly the clients, in order, that match the search (when a term is typed) and are in the chosen city (unless "all") |
| ClientsScreen.ClearedFiltersShowAll | Clients.tsx:111-130 | an empty search with city "all" lists every client in the original order |
| ClientsScreen.NameSearchIgnoresCase | Clients.tsx:116-118 | lower-casing the term again does not change a name or e-mail match |
| ClientsScreen.PhoneFoundVerbatim | Clients.tsx:119 | a term occurring verbatim in the phone number matches the client whatever its case |
| ClientsScreen.CityScenario | Clients.tsx:125-127 | with cities Casablanca, Rabat, Casablanca, choosing Casablanca lists the first and third clients in that order |
| ClientsScreen.AddClient | Clients.tsx:59-68 | a successful add appends the server's client after the unchanged list; a failure changes nothing |
| ClientsScreen.AddedClientListed | Clients.tsx:59-68 | after an add, the filtered list is the old filtered list plus the new client exactly when the filters accept it |
| ClientsScreen.UpdateClient | Clients.tsx:71-83 | a successful update replaces exactly the clients with the id by the response and leaves the others in place; a failure changes nothing |
| ClientsScreen.DeleteClient | Clients.tsx:85-100 | with a selection and a successful request, the list keeps exactly the clients with another id, in order; otherwise it is unchanged |
| ClientsScreen.DeleteRemovesMatching | Clients.tsx:91 | a delete shortens the list by the number of clients carrying the id |
| ClientsScreen.DeleteAfterUpdate | Clients.tsx:71-100 | deleting a client after updating it leaves the same list as deleting it directly |
| ClientsScreen.RevenueOfAdded | Clients.tsx:167 | adding a client raises the total revenue by exactly what it spent |
| ClientsScreen.AverageSpent | Clients.tsx:168 | the average spent is 0 for no clients, and otherwise the integer within one half of revenue divided by client count |
| ClientsScreen.AverageSpentBounds | Clients.tsx:166-168 | when every client spent between lo and hi, the rounded average lies within half a unit of that range |
| ClientsScreen.UniqueCities | Clients.tsx:159 | the city options have no duplicates, are exactly the clients' cities, and come in order of each city's first appearance among the clients (not sorted) |
| ClientsScreen.OfferedCityNonEmpty | Clients.tsx:159-163 | choosing any offered city with no search lists at least one client |
| ClientVehicleView.ClientVehicles | ClientVehicleManagement.tsx:56-58 | a client's vehicles are exactly the vehicles with its id, in input order |
| ClientVehicleView.Entries | ClientVehicleManagement.tsx:61-64 | there is one entry per client, in client order, each paired with its own vehicles |
| ClientVehicleView.FilterEntries | ClientVehicleManagement.tsx:60-95 | the shown entries are a subsequence of all the entries |
| ClientVehicleView.EntryMatchesIffFound | ClientVehicleManagement.tsx:66-83 | an entry matches a non-empty term iff the lower-cased term occurs in a client field (the phone number compared with the lower-cased term) or in make, model, plate or VIN of one of the client's vehicles |
| ClientVehicleView.FilterEntriesShowsExactly | ClientVehicleManagement.tsx:60-95 | the view is exactly the entries, in order, that the search finds, that have no vehicle in mode "no-vehicles", and that are in the chosen city in mode "by-city" |
| ClientVehicleView.ClientsOnlyIsAll | ClientVehicleManagement.tsx:86-92 | the "clients-only" mode shows the same as "all" |
| ClientVehicleView.CityIgnoredOutsideByCity | ClientVehicleManagement.tsx:90-92 | outside "by-city" the chosen city makes no difference |
| ClientVehicleView.UnfilteredShowsEveryClient | ClientVehicleManagement.tsx:60-94 | with an empty search in mode "all", every client has its entry |
| ClientVehicleView.SearchIgnoresCase | ClientVehicleManagement.tsx:66-83 | a term and its lower-cased form show the same entries |
| ClientVehicleView.NoVehiclesModeShowsBareClients | ClientVehicleManagement.tsx:86-88 | every entry shown in "no-vehicles" mode has no vehicle, and no vehicle names its client |
| ClientVehicleView.ListedVehiclesCount | ClientVehicleManagement.tsx:56-64 | with distinct client ids, the vehicles listed under the entries are the vehicles owned by some listed client, each counted once |
| ClientVehicleView.VehiclesPartitioned | ClientVehicleManagement.tsx:56-64 | when every vehicle's owner is a listed client with a distinct id, the entries list every vehicle exactly once |
| ClientVehicleView.DeleteOrphansVehicles | ClientVehicleManagement.tsx:56-58 | after a client is deleted, its vehicles have no owner in the list and appear under no entry |
| ClientVehicleView.Toggle | ClientVehicleManagement.tsx:97-102 | toggling flips that client's flag (absent counts as collapsed) and leaves every other client's flag as it was |
| ClientVehicleView.ToggleTwice | ClientVehicleManagement.tsx:97-102 | toggling twice restores every flag |
| ClientVehicleView.FirstToggleExpands | ClientVehicleManagement.tsx:97-102 | the first toggle of a client expands it |
| ClientVehicleView.UniqueCities | ClientVehicleManagement.tsx:119 | the city options are strictly sorted (hence duplicate-free) and are exactly the clients' cities |
| ClientVehicleView.ComputeStats | ClientVehicleManagement.tsx:121-126 | the cards give the client and vehicle totals, the vehicles per client (0 for none) and the total revenue |
| ClientVehicleView.AverageIsRowMean | ClientVehicleManagement.tsx:121-126 | when all vehicles belong to listed clients, the average is the mean number of vehicles per entry |
| InventoryScreen.StatusMatchesIffEqual | Inventory.tsx:219-221 | the lower-case status choice, upper-cased, keeps exactly the items with that status |
| InventoryScreen.FilterInventory | Inventory.tsx:204-229 | the filtered rows are a subsequence of the rows |
| InventoryScreen.MatchesSearchIffFound | Inventory.tsx:208-216 | a row matches a non-empty term iff the lower-cased term occurs in its lower-cased part name, part number, brand, category or supplier company |
| InventoryScreen.FilterInventoryShowsExactly | Inventory.tsx:204-229 | the list is exactly the rows, in order, matching the search, the status choice and the category choice |
| InventoryScreen.UnfilteredShowsAll | Inventory.tsx:204-229 | no search, any status and every category list all rows in order |
| InventoryScreen.FindSupplier | Inventory.tsx:232 | the lookup fails iff no supplier has the id, and otherwise gives the first supplier with it |
| InventoryScreen.Summarize | Inventory.tsx:241-248 | the summary carries the supplier's id, company, ICE, contact, phone and e-mail |
| InventoryScreen.NewItem | Inventory.tsx:235-240 | a new item has the given id and timestamps and a margin of sale price minus purchase price |
| InventoryScreen.NewItemKeepsDraft | Inventory.tsx:235-236 | every field the user entered survives into the new item |
| InventoryScreen.AddItem | Inventory.tsx:231-252 | an unknown supplier leaves the rows unchanged; a known one appends one new item with the summary of the first supplier carrying the id |
| InventoryScreen.UnknownSupplierIgnored | Inventory.tsx:232-233 | with the two mock suppliers, any other supplier id adds nothing |
| InventoryScreen.KnownSupplierSummarized | Inventory.tsx:36-76 | adding with supplier "2" appends a row summarizing "Mecanique Rabat" |
| InventoryScreen.EditItem | Inventory.tsx:254-260 | the rows with the edited id become the edited row stamped with the time; all others stay in place |
| InventoryScreen.EditMissingIsNoop | Inventory.tsx:254-260 | editing an id no row carries changes nothing |
| InventoryScreen.DeleteItem | Inventory.tsx:262-266 | the rows kept are exactly those with another id, in order |
| InventoryScreen.DeleteRemovesMatching | Inventory.tsx:263 | a delete shortens the list by the number of rows carrying the id |
| InventoryScreen.DeleteAfterEdit | Inventory.tsx:254-266 | deleting after an edit leaves the same rows as deleting directly |
| InventoryScreen.ComputeStats | Inventory.tsx:284-289 | the cards count all, active, out-of-stock and active-low-stock items, and list each category once, in order of first appearance among the items |
| InventoryScreen.StatsBounds | Inventory.tsx:285-287 | low stock never exceeds active, and active plus out-of-stock never exceeds the total |
| InventoryScreen.EmptyStats | Inventory.tsx:284-289 | an empty inventory gives zero everywhere |
| InventoryScreen.TotalValueNonNegative | Inventory.tsx:288 | non-negative quantities and purchase prices give a non-negative stock value |
| InventoryScreen.TotalValueOfAdded | Inventory.tsx:288 | one more row adds exactly its quantity times purchase price to the stock value |
| InventoryTypes.StatusNameInjective | inventory.ts:1 | the three status names are distinct |
| InventoryView.LowStockOnlyWhenActive | ViewInventoryModal.tsx:74 | an item is low on stock iff it is active and its quantity is at most the minimum level |
| InventoryView.LowStockScenario | ViewInventoryModal.tsx:74 | 5 in stock against a minimum of 15 is low when active and not when discontinued |
| InventoryView.StatusBadge | ViewInventoryModal.tsx:40-51 | "ACTIVE" gives the success badge, "OUT_OF_STOCK" the destructive one, and any other text the secondary one |
| InventoryView.BadgeOfStatus | ViewInventoryModal.tsx:40-51 | each of the three statuses gets its own badge, and discontinued gets the secondary one |
| InventoryView.TotalMarginIsProfit | ViewInventoryModal.tsx:274-286 | for an item whose margin is sale minus purchase price, the total margin is potential revenue minus stock value |
| InventoryView.MarginPercentage | ViewInventoryModal.tsx:75 | the percentage exists iff the purchase price is non-zero, and then times the purchase price it is 100 times the margin |
| InventoryView.MarginPercentageSign | ViewInventoryModal.tsx:75 | with a positive purchase price the percentage is positive iff the sale price exceeds it |
| SuppliersScreen.FilterSuppliers | Suppliers.tsx:94-115 | the filtered suppliers are a subsequence of the suppliers |
| SuppliersScreen.MatchesSearchIffFound | Suppliers.tsx:98-105 | a supplier matches a non-empty term iff the lower-cased term occurs in its lower-cased company, contact or city, or the raw term occurs in its ICE |
| SuppliersScreen.FilterSuppliersShowsExactly | Suppliers.tsx:94-115 | the list is exactly the suppliers, in order, that match the search and have the chosen activity |
| SuppliersScreen.StatusPartitions | Suppliers.tsx:108-112 | for any search, "active" and "inactive" together list as many suppliers as "all" |
| SuppliersScreen.UnfilteredShowsAll | Suppliers.tsx:94-115 | no search and status "all" list every supplier |
| SuppliersScreen.NewSupplier | Suppliers.tsx:117-126 | a new supplier gets the given id and both timestamps |
| SuppliersScreen.NewSupplierKeepsDraft | Suppliers.tsx:117-126 | every entered field survives into the new supplier |
| SuppliersScreen.AddSupplier | Suppliers.tsx:117-126 | an add appends the new supplier after the unchanged list |
| SuppliersScreen.EditSupplier | Suppliers.tsx:128-134 | suppliers with the edited id become the edited supplier stamped with the time; the others stay in place |
| SuppliersScreen.DeleteSupplier | Suppliers.tsx:136-140 | the suppliers kept are exactly those with another id, in order |
| SuppliersScreen.DeleteRemovesMatching | Suppliers.tsx:137 | a delete shortens the list by the number of suppliers carrying the id |
| SuppliersScreen.DeleteUndoesAdd | Suppliers.tsx:117-140 | deleting a just-added supplier under a fresh id restores the list |
| SuppliersScreen.StatusCounts | Suppliers.tsx:157-158 | the active and inactive counts add up to the number of suppliers |
| SuppliersScreen.AverageRating | Suppliers.tsx:226 | the average rating is 0 for no suppliers, and otherwise times the count gives the sum of ratings |
| SuppliersScreen.AverageRatingInRange | Suppliers.tsx:226 | ratings in 1..5 give an average in 1..5 |
| SuppliersDashboard.FilterDashboard | SuppliersDashboard.tsx:105-128 | the dashboard list is a subsequence of the suppliers |
| SuppliersDashboard.FilterDashboardShowsExactly | SuppliersDashboard.tsx:105-128 | the list is exactly the suppliers the supplier list would show that are in the chosen city (unless "all") |
| SuppliersDashboard.AllCitiesIsSupplierList | SuppliersDashboard.tsx:123-125 | with city "all" the dashboard lists what the supplier list lists |
| SuppliersDashboard.CityScenario | SuppliersDashboard.tsx:123-125 | Casablanca, Rabat, Casablanca filtered by Casablanca gives the first and third supplier |
| SuppliersDashboard.Step | SuppliersDashboard.tsx:130-159 | view selects and opens the panel; add appends; edit replaces the suppliers with the edited id (stamped with the time) and clears the selection; delete keeps exactly the suppliers with other ids, in order, clears the selection and closes the panel |
| SuppliersDashboard.ViewThenDelete | SuppliersDashboard.tsx:149-159 | viewing and then deleting a supplier closes the panel and removes it |
| SuppliersDashboard.Cities | SuppliersDashboard.tsx:181 | the city options have no duplicates, are exactly the suppliers' cities, and come in order of first appearance |
| SuppliersDashboard.ComputeStats | SuppliersDashboard.tsx:171-181 | active plus inactive equals the total, the average rating is 0 or the mean, and each city appears once, in order of first appearance among the suppliers |
| SuppliersDashboard.OfferedCityNonEmpty | SuppliersDashboard.tsx:181 | every offered city lists at least one supplier when nothing else is filtered |
| VehiclesScreen.FilterVehicles | Vehicles.tsx:60-70 | the list is a subsequence holding exactly the vehicles that match the search and the fuel choice |
| VehiclesScreen.FilterVehiclesShowsExactly | Vehicles.tsx:60-70 | the list is exactly the vehicles, in order, whose make, model, VIN or plate contains the term ignoring case, with the chosen fuel |
| VehiclesScreen.EmptySearchShowsAll | Vehicles.tsx:60-70 | an empty search with every fuel lists all vehicles |
| VehiclesScreen.FuelOptionSelects | Vehicles.tsx:266-270 | each fuel option keeps exactly the vehicles with that fuel |
| VehiclesScreen.SearchIgnoresCase | Vehicles.tsx:61-65 | an upper-cased term finds the same vehicles |
| VehicleTypes.FuelNameInjective | vehicle.ts:10 | the four fuel names are distinct |
| SupplierForm.FieldError | EditSupplierModal.tsx:77-104 | ICE errs iff it is missing or blank, or it is not 15 digits, with "required" for the former; the e-mail likewise against the address shape |
| SupplierForm.Validate | EditSupplierModal.tsx:74-107 | the error map has a key exactly for each field with an error, holding its message |
| SupplierForm.FieldErrorIff | EditSupplierModal.tsx:77-104 | a field has no error iff its value is acceptable: filled text, ICE of 15 digits, a well-shaped e-mail, a rating absent, 0 or in 1..5 |
| SupplierForm.ValidIffAcceptable | EditSupplierModal.tsx:106-107 | the form validates iff every field is acceptable |
| SupplierForm.ZeroRatingPasses | EditSupplierModal.tsx:102-104 | a rating of 0 is never flagged |
| SupplierForm.Submit | EditSupplierModal.tsx:110-115 | the form is saved, unchanged, iff every field is acceptable |
| InventoryForm.FieldError | EditInventoryModal.tsx:84-119 | the supplier errs iff missing or empty; a count iff negative; the purchase price iff negative; the sale price iff negative or (both prices non-zero and it is not above the purchase price), with the purchase-price message then; the tax rate iff outside 0..1 |
| InventoryForm.Validate | EditInventoryModal.tsx:81-122 | the error map has a key exactly for each field with an error, holding its message |
| InventoryForm.FieldErrorIff | EditInventoryModal.tsx:84-119 | a field has no error iff its value is acceptable: filled text, a supplier, non-negative counts and prices, a non-zero sale price above a non-zero purchase price, a tax rate in 0..1 |
| InventoryForm.ValidIffAcceptable | EditInventoryModal.tsx:121-122 | the form validates iff every field is acceptable |
| InventoryForm.ZeroSalePricePasses | EditInventoryModal.tsx:108-113 | a zero sale price passes whatever the purchase price |
| InventoryForm.SaleMessageOverwritten | EditInventoryModal.tsx:108-113 | a negative sale price with a positive purchase price shows the purchase-price message, not the positivity one |
| InventoryForm.Submit | EditInventoryModal.tsx:125-130 | the form is saved, unchanged, iff every field is acceptable |
| VehicleForm.FieldError | EditVehicleModal.tsx:62-74 | the VIN errs iff blank or not 17 long, the length message winning; the year iff outside 1900 to next year; the client id iff blank (create) or empty (edit); fuel, gearbox and notes never |
| VehicleForm.Validate | EditVehicleModal.tsx:59-78 | the error map has a key exactly for each field with an error, holding its message |
| VehicleForm.FieldErrorIff | UnifiedCreateModal.tsx:100-119 | a field has no error iff acceptable: filled text, a year in the window, a 17-character VIN, positive power, non-negative mileage, the client rule of the modal |
| VehicleForm.ValidIffAcceptable | EditVehicleModal.tsx:76-77 | the form validates iff every field is acceptable |
| VehicleForm.ModalsDifferOnlyOnBlankClient | UnifiedCreateModal.tsx:113 | the two modals agree on every field but the client id, and disagree on that one iff the id is white space only but not empty |
| VehicleForm.SeventeenSpacesVin | EditVehicleModal.tsx:68-69 | seventeen spaces pass the length check and get the "required" message |
| VehicleForm.Merge | EditVehicleModal.tsx:84-87 | the saved vehicle keeps the original id |
| VehicleForm.MergePopulated | EditVehicleModal.tsx:36-55 | saving the form as first populated gives back the vehicle |
| VehicleForm.PopulateMerged | EditVehicleModal.tsx:84-87 | the saved vehicle, populated again, gives back the form |
| VehicleForm.Open | EditVehicleModal.tsx:36-55 | opening shows no error and a form that saves back to the vehicle |
| VehicleForm.HandleInputChange | EditVehicleModal.tsx:98-111 | the field takes the value (numbers read as integers, 0 if unreadable); that field's error is blanked if present and every other error is kept |
| VehicleForm.NumberInputReadsDecimal | EditVehicleModal.tsx:102-104 | typing the decimal form of n in year, power or mileage stores n |
| VehicleForm.NonNumericInputIsZero | EditVehicleModal.tsx:102-104 | text not starting with a digit or sign stores 0, which the next validation reports for year and power |
| VehicleForm.Submit | EditVehicleModal.tsx:80-91 | a vehicle is saved iff the form is acceptable, and it is the form laid over the original with the id kept |
| VehicleForm.UneditedSubmitSavesVehicle | EditVehicleModal.tsx:80-91 | submitting an acceptable untouched form saves the vehicle unchanged |
| ClientForm.FieldError | UnifiedCreateModal.tsx:85-89 | the e-mail errs iff blank or not of the address shape, with "required" for blank |
| ClientForm.Validate | UnifiedCreateModal.tsx:79-98 | the error map has a key exactly for each field with an error, holding its message |
| ClientForm.FieldErrorIff | UnifiedCreateModal.tsx:79-98 | a field has no error iff it holds a non-space character, the e-mail iff it has the address shape |
| ClientForm.ValidIffAcceptable | UnifiedCreateModal.tsx:79-98 | the form validates iff every field is acceptable |
| ClientForm.EmptyFormReportsAll | UnifiedCreateModal.tsx:79-98 | the empty form reports every one of the eight fields |
| CreateWizard.Reset | UnifiedCreateModal.tsx:173-203 | the reset state is the client step with no created client, no error and no field errors |
| CreateWizard.Open | UnifiedCreateModal.tsx:60-75 | opening starts at the vehicle step for a vehicle-only wizard and at the client step otherwise, clears created client and error, and puts a pre-selected client in the vehicle form |
| CreateWizard.SubmitClient | UnifiedCreateModal.tsx:121-150 | an invalid form only shows its errors; success records the id, gives it to the vehicle and moves to the vehicle step (both) or completion; failure keeps the step and shows the message |
| CreateWizard.SubmitVehicle | UnifiedCreateModal.tsx:152-170 | an invalid form only shows its errors; success completes; failure keeps the step and shows the message |
| CreateWizard.Close | UnifiedCreateModal.tsx:172-205 | closing returns to the client step with an empty client form, no vehicle client, no created client and no error |
| CreateWizard.Handle | UnifiedCreateModal.tsx:574-607 | a submit only acts on the step whose button is shown, and typing in the vehicle form keeps a locked client |
| CreateWizard.InitialInv | UnifiedCreateModal.tsx:24-55 | the first render satisfies the wizard invariant |
| CreateWizard.HandleInv | UnifiedCreateModal.tsx:60-205 | every event keeps the invariant: a created client is the vehicle's client, a client-only wizard never reaches the vehicle step, the vehicle step of a two-step wizard and a client-only completion follow a created client, and completion shows no error |
| CreateWizard.RunInv | UnifiedCreateModal.tsx:60-205 | every sequence of events keeps the invariant |
| CreateWizard.CompleteIsFinal | UnifiedCreateModal.tsx:574-607 | once complete, only opening or closing leaves completion |
| CreateWizard.BothHappyPath | UnifiedCreateModal.tsx:132-163 | creating both with valid forms and two successes goes client step, vehicle step, complete, and the vehicle carries the new id |
| Text.IncludesIffOccurs | Clients.tsx:116 | the substring search succeeds iff the needle occurs at some position |
| Text.TrimStart | EditSupplierModal.tsx:77 | the result is the input without its leading white space |
| Text.TrimEnd | EditSupplierModal.tsx:77 | the result is the input without its trailing white space |
| Text.BlankIffAllSpace | EditSupplierModal.tsx:77 | a text is blank after trimming iff it is all white space |
| Text.LowerIdempotent | Clients.tsx:116 | lower-casing twice is lower-casing once |
| Patterns.MatchesEmail | EditSupplierModal.tsx:99 | the e-mail check accepts exactly the texts of the address shape: no space or '@' on either side of one '@', a dot inside the domain |
| Patterns.IceNotBlank | EditSupplierModal.tsx:80-84 | fifteen digits are never blank |
| NumberParsing.ParseDecimal | EditVehicleModal.tsx:102-104 | reading back the decimal form of any integer gives that integer |
| NumberParsing.NonNumericIsZero | EditVehicleModal.tsx:102-104 | text whose first non-space character is no digit or sign reads as 0 |
| Ordering.Sort | ClientVehicleManagement.tsx:119 | the sort gives a sorted permutation of its input |
| Ordering.SortDistinct | ClientVehicleManagement.tsx:119 | sorting distinct names gives a strictly sorted list with the same names |

## Left out

- Network calls and loading flags are left out. Every request's outcome is an input to the pure update. The `loading` flags that disable buttons during a request are not modelled.
- Rendering, modal open flags for the add, edit and delete dialogs, confirmation pop-ups and the 1.5 second timer before the wizard closes are left out.
- The clock and id generation are parameters. `Date.now()` ids, ISO timestamps and the current year are passed in.
- `toFixed` and `toLocaleString` formatting is not modelled. The averages are exact `real` values, except that the clients screen's `Math.round` is modelled.
- Floating point is modelled as `real`. Money, ratings and the tax rate are exact rationals, with no rounding error and no NaN. The integers `parseInt` reads are unbounded, so the vehicle editor's numeric inputs beyond 2^53 are read exactly, where JavaScript would round them to the nearest double.
- `toLowerCase` and `toUpperCase` are ASCII only, and `sort` compares characters by code. This matches JavaScript for ASCII city names.
- The inventory and supplier modals' `handleInputChange` and their populate effects are not modelled. Only their validation and submit gate are.
- The CRUD handlers of the vehicles screen are not modelled. They only forward to the backend and refetch.
- EnhancedSupplierCard's scores are random and are left out. SupplierDetailPanel's low-stock rule ignores status and is left out. Dashboards, charts and the other presentational components are left out.
- The mock suppliers are modelled only as far as the inventory add uses them: their ids, companies and summary fields.
- The source's edit handlers are typed with full records, but the modals hand them update requests. The model takes full records.
- InventoryScreen.EditItem: the edit modal hands `handleEditItem` its form data, an update request, not a full row. The stored row therefore really has no supplier summary, margin or creation time. After such an edit, a non-empty search that misses the first four fields reads the missing supplier's company and throws. The model's rows always carry a supplier, so it states the edit as the typed handler promises: the row becomes the full edited record.
- SuppliersScreen.EditSupplier: the edit modal's payload has no `isActive` and no creation time. The stored supplier therefore has `isActive` undefined. It then counts as inactive in both screens' cards and is listed under the "inactive" filter. The model stores the full edited supplier, so an edit keeps whatever activity the record it is given carries.
- SuppliersDashboard.Step: the edit event inherits the simplification of `SuppliersScreen.EditSupplier`.
- VehicleForm.FieldError: the model's VIN length counts characters, while `vin.length` counts UTF-16 code units. A VIN with a character outside the Basic Multilingual Plane (an emoji, say) is one longer in the source. For example, 15 ASCII characters plus one emoji is 16 here and 17 there, so the model reports a length error where the source reports none.
- InventoryView.MarginPercentage: the source divides by the purchase price without a guard. For 0 that gives Infinity or NaN in the display. The model returns `None` there instead of assuming a non-zero price.
- SuppliersScreen.AverageRatingInRange: `supplier.ts` documents ratings as 1..5, but the edit form also accepts 0. So the range is a precondition here, not an invariant of the list.
- VehicleForm.HandleInputChange: fuel and gearbox names outside the enums leave the form unchanged. The select offers only the enum values.
- CreateWizard.Handle: the client select is locked only for a non-empty created id, which is JavaScript's truthiness of that id. An empty id returned by the backend does not lock it.
