# Warehouse management services, modelled in Dafny

This project models the domain logic of the two warehouse management trees
of the WarehouseSPL repository (`wms` and `warhousemanagementsystem`): the
stock ledger, the order lifecycle with its all-or-nothing posting, the
picking workflow, the logistics topology of zones and bins, the
warehouse-to-location links, shipment tracking, the item and location
catalogues, users and roles, barcodes, the CLI command registry, the
reports, the notification settings and the audit log.

Each Go service becomes one Dafny module. The SQL store behind a service
becomes fields of a `class`: sequences of records and, where the store is
keyed, maps. Each operation is a method that changes those fields. Its
contract ties the outcome to a pure planning function (`PlanIn`,
`PlanPost`, `PlanBinItem`, ...). Those functions state the checks and
error values of the Go code in the order the code makes them, and lemmas
about them prove the properties the services promise:

- stock is never negative;
- posting an order is all-or-nothing;
- a location belongs to at most one warehouse;
- deleting a bin or a zone is refused while it is in use;
- `decode(encode(p)) == p`, and scanning a printed barcode gives back its
  payload;
- and others, listed row by row below.

Shared helpers live in three modules:

- `Base`: `Option`/`Result`, the list-limit clamp, `Take`, `Filter`, `Find`.
- `Text`: models Go's `strings.TrimSpace`, `HasPrefix`, `TrimPrefix`,
  `TrimSuffix`, `ToLower` (on Latin-1 and on the two letters outside it
  that lower to ASCII) and `Split` on one separator, and `os.Getenv`
  over an environment map.
- `Sorting`: the `ORDER BY` clauses, as insertion sorts proved sorted and
  permutations.

Inputs the code takes from its surroundings are parameters:

- the clock is `now: int`;
- the environment is a map from variable name to value;
- bcrypt's comparison is a predicate `matches`, and the outcome of
  hashing a new password is an `Option` (none when bcrypt refuses);
- a store fault the code handles by returning a distinct error is an explicit fault argument; the faults the picking service swallows are not (see "## Left out").

## Model

| member | source | states |
|---|---|---|
| Stock.RefOf | wms/internal/core/inventory/stock/service.go:68-81 | the stored reference is present exactly when the trimmed reference is non-blank, and is then that trimmed text |
| Stock.PlanIn | wms/internal/core/inventory/stock/service.go:43-82 | blank SKU, blank location and qty <= 0 give InvalidSKU, InvalidLocation, InvalidQuantity in that order; success exactly when both trimmed codes are known and qty > 0, and the movement is IN with the trimmed codes, qty, reference and time |
| Stock.PlanOut | wms/internal/core/inventory/stock/service.go:84-131 | the same input errors as IN; InsufficientStock when the pair's stock is below qty; success exactly when the codes are known, qty > 0 and the stock covers qty; the OUT movement lowers the pair's stock by exactly qty |
| Stock.StockService.Record | wms/internal/core/inventory/stock/service.go:68-81 | appends one movement that keeps the ledger valid; catalogues unchanged |
| Stock.StockService.In | wms/internal/core/inventory/stock/service.go:43-82 | on PlanIn's success exactly that movement is appended, otherwise its error is returned and the ledger is unchanged; the ledger invariant (positive quantities, no negative stock) is kept |
| Stock.StockService.Out | wms/internal/core/inventory/stock/service.go:84-131 | on PlanOut's success exactly that movement is appended, otherwise its error is returned and the ledger is unchanged; no pair's stock goes negative |
| Stock.StockService.constructor | wms/internal/core/inventory/stock/service.go:33-35 | an empty ledger, which is valid |
| Stock.StockAtLocation | wms/internal/core/inventory/stock/service.go:133-169 | a blank SKU or location is an error, otherwise the result is the IN sum minus the OUT sum of exactly that trimmed pair |
| Stock.StockBySKU | wms/internal/core/inventory/stock/service.go:172-199 | a blank SKU is InvalidSKU and success is exactly a non-blank SKU; the total equals the sum of the per-location stocks over any duplicate-free list of locations that covers the SKU's movements |
| Stock.StockAtAppend | wms/internal/core/inventory/stock/service.go:144-168 | appending a movement changes a pair's stock by that movement's signed quantity for the pair |
| Stock.StockTotalAppend | wms/internal/core/inventory/stock/service.go:178-198 | appending a movement changes the SKU total by its signed quantity when it is for that SKU, and not at all otherwise |
| Stock.BalanceAppend | wms/internal/core/inventory/stock/service.go:144-168 | the running balance of a pair grows by each appended movement's signed contribution |
| Stock.StockAtIsBalance | wms/internal/core/inventory/stock/service.go:144-168 | the two sums (IN minus OUT) equal the running signed balance of the pair |
| Stock.SumOverLocationsAppend | wms/internal/core/inventory/stock/service.go:178-198 | summing per-location stock over distinct locations grows by a movement's signed quantity exactly when it is for the SKU at one of them |
| Stock.StockTotalIsSumOverLocations | wms/internal/core/inventory/stock/service.go:178-198 | the SKU total is the sum of the per-location stocks over every distinct location list covering its movements |
| Stock.SumOverLocationsEmpty | wms/internal/core/inventory/stock/service.go:150-166 | on an empty ledger every per-location sum is 0 |
| Stock.AppendKeepsValid | wms/internal/core/inventory/stock/service.go:99-105 | appending a positive movement keeps every stock non-negative when an OUT is covered by the pair's stock |
| Stock.InPreservesValid | wms/internal/core/inventory/stock/service.go:68-81 | an IN movement keeps the ledger invariant |
| Stock.OutPreservesValid | wms/internal/core/inventory/stock/service.go:99-130 | an OUT that PlanOut admits keeps every stock non-negative |
| Stock.OtherPairsUnchanged | wms/internal/core/inventory/stock/service.go:144-148 | a movement on one pair leaves every other pair's stock unchanged |
| Audit.SystemActorTrimmed | wms/internal/features/audit/service.go:30-32 | the default actor "system" is non-blank and trimmed |
| Audit.ActorOf | wms/internal/features/audit/service.go:24-32 | the actor is the trimmed actor when non-blank and "system" otherwise; never blank |
| Audit.PlanLog | wms/internal/features/audit/service.go:23-48 | an error exactly when the trimmed action or entity is blank; otherwise the event carries the time, the defaulted actor and the four trimmed fields |
| Audit.LogOfNormalised | wms/internal/features/audit/service.go:24-47 | an event whose fields are already normalised is logged as itself |
| Audit.LogTrimInsensitive | wms/internal/features/audit/service.go:24-28 | trimming the inputs beforehand does not change the outcome |
| Audit.AppendKeeps | wms/internal/features/audit/service.go:37-47 | appending an event with non-blank actor, action and entity keeps the log valid |
| Audit.AuditService.Log | wms/internal/features/audit/service.go:23-48 | on PlanLog's success exactly that event is appended, otherwise the error is returned and nothing is appended |
| Audit.AuditService.constructor | wms/internal/features/audit/service.go:17-21 | an empty, valid log |
| Auth.NormalizeRole | wms/internal/features/auth/service.go:34-46 | succeeds exactly when the trimmed input, lowered by Unicode case mapping, is admin, worker, readonly, read-only or read_only, giving Admin, Worker or ReadOnly; anything else is InvalidRole |
| Auth.RoleOfIsRole | wms/internal/features/auth/service.go:36-42 | every role the table yields is one of the three roles |
| Auth.NormalizeTrimmed | wms/internal/features/auth/service.go:35-46 | a role name without surrounding space is looked up by its lower case |
| Auth.LowerSpelling | wms/internal/features/auth/service.go:36 | a string whose characters each lower to the given spelling lowers to that spelling |
| Auth.DottedAdmin | wms/internal/features/auth/service.go:35-46 | "ADM" + dotted capital I + "N" normalises to the admin role, as Unicode lower-casing makes it "admin" |
| Auth.KelvinWorker | wms/internal/features/auth/service.go:35-46 | "WOR" + Kelvin sign + "ER" normalises to the worker role |
| Auth.NormalizeRoleIdempotent | wms/internal/features/auth/service.go:36-42 | normalising a normalised role gives it back unchanged |
| Auth.FindUser | wms/internal/features/auth/service.go:80-82 | the first user with the name, or none exactly when no user has it |
| Auth.PlanAddUser | wms/internal/features/auth/service.go:64-112 | blank username, a trimmed password under 4 bytes, a bad role, a taken name and a refused hash give InvalidUsername, InvalidPassword, InvalidRole, UserExists, HashFailed in that order, each exactly under its condition; success stores the trimmed name, the hash, the normalised role and active |
| Auth.AddKeeps | wms/internal/features/auth/service.go:80-111 | adding a user whose name is free keeps usernames unique and roles valid |
| Auth.DisableKeeps | wms/internal/features/auth/service.go:129-131 | clearing the active flag keeps the user table valid |
| Auth.PlanDisable | wms/internal/features/auth/service.go:114-134 | a blank name is InvalidUsername, a missing user UserNotFound; success exactly when the trimmed name is non-blank and some user has it, giving that user's index |
| Auth.Authenticate | wms/internal/features/auth/service.go:169-196 | blank credentials and unknown users give AuthFailed; an inactive user gives UserDisabled before any password check; success exactly when the user is active and the hash matches, with the stored role |
| Auth.AddedUserAuthenticates | wms/internal/features/auth/service.go:95-111 | a freshly added user authenticates with its password and gets the normalised role |
| Auth.DisabledUserRefused | wms/internal/features/auth/service.go:183-185 | after disabling, authenticating that user gives UserDisabled whatever the password |
| Auth.UserPageSpec | wms/internal/features/auth/service.go:136-158 | the page has at most the clamped limit of rows, ordered by username, each the view of a stored user, and when all users fit a permutation of their views |
| Auth.RoleAllowed | wms/internal/features/auth/service.go:203-208 | the loop finds the role exactly when it is among the allowed roles |
| Auth.AuthService.AddUser | wms/internal/features/auth/service.go:64-112 | on success the new user is appended and its view returned, otherwise the table is unchanged |
| Auth.AuthService.DisableUser | wms/internal/features/auth/service.go:114-134 | on success only that user's active flag is cleared, otherwise nothing changes |
| Auth.Views | wms/internal/features/auth/service.go:150-156 | one view per user, in order, each the user without its hash |
| Auth.ViewsPermute | wms/internal/features/auth/service.go:150-156 | the views of two permutations of a table are permutations of each other |
| Auth.UserPageLowest | wms/internal/features/auth/service.go:136-158 | a user left off the page has a username no lower than any on it |
| Auth.AuthService.ListUser | wms/internal/features/auth/service.go:136-158 | the loop builds exactly the page UserPageSpec describes |
| Auth.AuthService.RequireRole | wms/internal/features/auth/service.go:165-210 | authentication errors pass through; an authenticated principal is returned exactly when its role is allowed, otherwise Forbidden |
| Auth.AuthService.constructor | wms/internal/features/auth/service.go:52-56 | an empty, valid user table |
| Barcode.LoadConfig | wms/internal/features/barcode/service.go:23-39 | each setting is its trimmed variable when that is non-blank and otherwise plain, ITEM: or BIN: |
| Barcode.LoadConfigWellFormed | wms/internal/features/barcode/service.go:23-39 | the loaded prefixes are non-blank and trimmed |
| Barcode.DefaultConfig | wms/internal/features/barcode/service.go:23-39 | with no variables set the configuration is plain, ITEM:, BIN: |
| Barcode.Encode | wms/internal/features/barcode/service.go:179-188 | bracket format (in any letter case, by Unicode lower-casing) wraps the payload in "[" and "]", every other format leaves it unchanged |
| Barcode.Decode | wms/internal/features/barcode/service.go:190-196 | the trimmed code loses one "[" and one "]" exactly when it carries both, and is otherwise returned as is |
| Barcode.Unwrap | wms/internal/features/barcode/service.go:192-195 | a wrapped code is "[" + result + "]", any other code is returned unchanged |
| Barcode.BracketRoundTrip | wms/internal/features/barcode/service.go:179-196 | in bracket format decoding an encoded payload gives the payload back, for every payload |
| Barcode.PlainRoundTrip | wms/internal/features/barcode/service.go:179-196 | in plain format the round trip holds exactly when the payload is trimmed and not wrapped in brackets |
| Barcode.DecodeEncoded | wms/internal/features/barcode/service.go:179-196 | the round trip under either of the two conditions above |
| Barcode.BinPayload | wms/internal/features/barcode/service.go:138-149 | a payload is accepted exactly when it splits on a pipe sign into two parts that are non-blank after trimming, and yields those trimmed parts |
| Barcode.KelvinBracket | wms/internal/features/barcode/service.go:179-188 | a format spelled "BRAC" + Kelvin sign + "ET" still wraps the payload in brackets |
| Barcode.Scan | wms/internal/features/barcode/service.go:109-177 | a blank code is an error; the item prefix is tried first and an empty SKU is an error; a bin code is InvalidBinBarcode exactly when its payload is not valid; a code with neither prefix is UNKNOWN; existence flags reflect the catalogues |
| Barcode.PrintItemBarcode | wms/internal/features/barcode/service.go:65-78 | a blank SKU and an unknown item are errors; success exactly when the trimmed SKU is non-blank and names an item, giving the encoded item prefix plus the trimmed SKU |
| Barcode.PrintBinBarcode | wms/internal/features/barcode/service.go:80-107 | blank codes and an unknown location or bin are errors, otherwise the encoded bin prefix, location, a pipe sign and bin |
| Barcode.PrefixesExclusive | wms/internal/features/barcode/service.go:117-123 | a code starting with one prefix does not start with another prefix that is not its prefix |
| Barcode.BinPayloadOf | wms/internal/features/barcode/service.go:138-149 | a joined pair of clean codes without a pipe sign is read back as that pair |
| Barcode.ScanItemPayload | wms/internal/features/barcode/service.go:117-136 | a decoded item prefix plus a clean SKU scans as that SKU |
| Barcode.ScanBinPayload | wms/internal/features/barcode/service.go:138-173 | a decoded bin prefix plus a valid payload scans as that location and bin |
| Barcode.ScanPrintedItem | wms/internal/features/barcode/service.go:65-78 | scanning a printed item barcode gives back the item, found in the catalogue |
| Barcode.ScanPrintedBin | wms/internal/features/barcode/service.go:80-107 | scanning a printed bin barcode gives back the location and bin, found, when neither code contains a pipe sign and the prefixes do not overlap |
| Base.ClampLimit | warhousemanagementsystem/internal/core/inventory/item/service.go:110-112 | a limit in 1..max is kept, any other limit becomes the fallback; the result is always in 1..max |
| Items.PlanCreate | warhousemanagementsystem/internal/core/inventory/item/service.go:34-70 | blank SKU, blank name and a taken SKU give InvalidSKU, InvalidName, ItemExists in that order, each exactly under its condition; success exactly when all three checks pass, giving the row with the next id and the three trimmed fields |
| Items.GetById | warhousemanagementsystem/internal/core/inventory/item/service.go:72-86 | for any integer id, a found row has the id; ItemNotFound exactly when no row has it |
| Items.GetBySku | warhousemanagementsystem/internal/core/inventory/item/service.go:88-107 | a blank SKU is InvalidSKU, a missing one ItemNotFound; success exactly when the trimmed SKU is non-blank and stored, giving the row with that SKU |
| Items.PlanDelete | warhousemanagementsystem/internal/core/inventory/item/service.go:131-146 | a blank SKU is InvalidSKU, nothing deleted is ItemNotFound; success exactly when the trimmed SKU is non-blank and stored, leaving exactly the rows with other SKUs remain |
| Items.PageSpec | warhousemanagementsystem/internal/core/inventory/item/service.go:109-129 | the page has at most the clamped limit of rows, in ascending SKU order, all from the table, a permutation of the whole table when it fits, and otherwise the lowest SKUs: none left off sorts below one on it |
| Items.CreateThenGet | warhousemanagementsystem/internal/core/inventory/item/service.go:34-107 | a created item is found by its SKU |
| Items.DeleteThenGet | warhousemanagementsystem/internal/core/inventory/item/service.go:88-146 | after a delete the SKU is not found |
| Items.CreateKeeps | warhousemanagementsystem/internal/core/inventory/item/service.go:46-69 | adding a row with a fresh SKU under the next id keeps SKUs and ids unique and fields non-blank |
| Items.CreatedKeeps | warhousemanagementsystem/internal/core/inventory/item/service.go:34-70 | every row PlanCreate admits keeps the table invariant |
| Items.DeleteKeeps | warhousemanagementsystem/internal/core/inventory/item/service.go:131-146 | deleting by SKU keeps the table invariant |
| Items.FilterKeeps | warhousemanagementsystem/internal/core/inventory/item/service.go:131-146 | dropping rows keeps the table invariant |
| Items.ItemService.CreateItem | warhousemanagementsystem/internal/core/inventory/item/service.go:34-70 | the result is PlanCreate's; on success the row is appended and the id counter advances, otherwise nothing changes |
| Items.ItemService.Insert | warhousemanagementsystem/internal/core/inventory/item/service.go:55-62 | stores a row that keeps the invariant and advances the id counter |
| Items.ItemService.GetItemByID | warhousemanagementsystem/internal/core/inventory/item/service.go:72-86 | the lookup by id |
| Items.ItemService.GetItemBySKU | warhousemanagementsystem/internal/core/inventory/item/service.go:88-107 | the lookup by trimmed SKU |
| Items.ItemService.ListItems | warhousemanagementsystem/internal/core/inventory/item/service.go:109-129 | the loop returns exactly the page PageSpec describes |
| Items.ItemService.DeleteItemBySKU | warhousemanagementsystem/internal/core/inventory/item/service.go:131-146 | on success the table becomes PlanDelete's rows, otherwise it is unchanged; the invariant is kept |
| Items.ItemService.constructor | warhousemanagementsystem/internal/core/inventory/item/service.go:23-25 | an empty, valid table |
| Locations.PlanCreate | warhousemanagementsystem/internal/core/inventory/location/service.go:33-62 | blank code, blank name and a taken code give InvalidCode, InvalidName, LocationExists in that order, each exactly under its condition; success exactly when all three checks pass, giving the row with the next id and the trimmed fields |
| Locations.GetByCode | warhousemanagementsystem/internal/core/inventory/location/service.go:64-83 | a blank code is InvalidCode, a missing one LocationNotFound; success exactly when the trimmed code is non-blank and stored, giving the row with that code |
| Locations.PlanDelete | warhousemanagementsystem/internal/core/inventory/location/service.go:105-120 | a blank code is InvalidCode, nothing deleted is LocationNotFound; success exactly when the trimmed code is non-blank and stored, leaving exactly the rows with other codes remain |
| Locations.PageSpec | warhousemanagementsystem/internal/core/inventory/location/service.go:85-103 | at most the clamped limit of rows, in ascending code order, all from the table, all of them when they fit, and otherwise the lowest codes: none left off sorts below one on it |
| Locations.CreateThenGet | warhousemanagementsystem/internal/core/inventory/location/service.go:33-83 | a created location is found by its code |
| Locations.DeleteThenGet | warhousemanagementsystem/internal/core/inventory/location/service.go:64-120 | after a delete the code is not found |
| Locations.CreateKeeps | warhousemanagementsystem/internal/core/inventory/location/service.go:43-61 | adding a row with a fresh code under the next id keeps codes and ids unique and fields non-blank |
| Locations.CreatedKeeps | warhousemanagementsystem/internal/core/inventory/location/service.go:33-62 | every row PlanCreate admits keeps the table invariant |
| Locations.DeleteKeeps | warhousemanagementsystem/internal/core/inventory/location/service.go:105-120 | deleting by code keeps the table invariant |
| Locations.FilterKeeps | warhousemanagementsystem/internal/core/inventory/location/service.go:105-120 | dropping rows keeps the table invariant |
| Locations.LocationService.CreateLocation | warhousemanagementsystem/internal/core/inventory/location/service.go:33-62 | the result is PlanCreate's; on success the row is appended and the id counter advances, otherwise nothing changes |
| Locations.LocationService.Insert | warhousemanagementsystem/internal/core/inventory/location/service.go:50-55 | stores a row that keeps the invariant and advances the id counter |
| Locations.LocationService.GetLocationByCode | warhousemanagementsystem/internal/core/inventory/location/service.go:64-83 | the lookup by trimmed code |
| Locations.LocationService.ListLocations | warhousemanagementsystem/internal/core/inventory/location/service.go:85-103 | the loop returns exactly the page PageSpec describes |
| Locations.LocationService.DeleteLocationByCode | warhousemanagementsystem/internal/core/inventory/location/service.go:105-120 | on success the table becomes PlanDelete's rows, otherwise it is unchanged; the invariant is kept |
| Locations.LocationService.constructor | warhousemanagementsystem/internal/core/inventory/location/service.go:23-25 | an empty, valid table |
| Logistics.GetLocation | wms/internal/features/logistics/service.go:35-52 | a blank code is InvalidLocation, an unknown one NotFound, and success exactly when the trimmed code is a known location, returning that code |
| Logistics.FindZone | wms/internal/features/logistics/service.go:111-116 | the index of a zone with that code at that location, and none exactly when there is no such zone |
| Logistics.FindBin | wms/internal/features/logistics/service.go:177-180 | the index of a bin with that code at that location, and none exactly when there is no such bin |
| Logistics.AddItem | wms/internal/features/logistics/service.go:200 | the bin's items plus the SKU as a set, unchanged when already present |
| Logistics.RemoveItem | wms/internal/features/logistics/service.go:278 | the bin's items minus the SKU as a set |
| Logistics.AddItemDistinct | wms/internal/features/logistics/service.go:200 | adding keeps a bin's SKUs free of duplicates |
| Logistics.RemoveItemDistinct | wms/internal/features/logistics/service.go:278 | removing keeps a bin's SKUs free of duplicates |
| Logistics.RemoveAbsent | wms/internal/features/logistics/service.go:278 | removing an absent SKU changes nothing |
| Logistics.RemoveAfterAdd | wms/internal/features/logistics/service.go:200-278 | removing a SKU just added to a bin that lacked it gives back the old items |
| Logistics.AssignThenUnassign | wms/internal/features/logistics/service.go:163-282 | assigning then unassigning a fresh SKU in the same bin restores every bin |
| Logistics.PlanZone | wms/internal/features/logistics/service.go:54-77 | a blank zone code is InvalidZoneCode, then the location errors pass through; success exactly when the code is fresh at that location, giving the trimmed zone; a taken code is the create failure |
| Logistics.PlanBin | wms/internal/features/logistics/service.go:98-136 | the checks in source order: blank bin code, blank zone code, location errors, ZoneNotFoundForLocation exactly when the zone is missing at that location; success exactly when the zone exists and the bin code is fresh, giving an empty bin |
| Logistics.LocateBin | wms/internal/features/logistics/service.go:163-186 | blank bin code, blank SKU, location errors, then NotFound; success exactly when the bin exists at that location, giving its index |
| Logistics.Lookup | wms/internal/features/logistics/service.go:188-190 | the item is found exactly when its SKU is stored |
| Logistics.ItemCheck | wms/internal/features/logistics/service.go:192-197 | proceed exactly on a found item, NotFound on a missing one, ItemFetchFailed on a failed query |
| Logistics.UnassignItemCheckAsWritten | wms/internal/features/logistics/service.go:268-275 | agrees with ItemCheck except that a failed item query falls through with no item |
| Logistics.PlanBinItem | wms/internal/features/logistics/service.go:163-197 | bin location errors pass through; success exactly when the bin is located and the item found; a failed item query is ItemFetchFailed |
| Logistics.UnassignAsWritten | wms/internal/features/logistics/service.go:242-282 | the nil-item dereference happens exactly when the bin is located and the item query fails |
| Logistics.UnassignAsWrittenAgrees | wms/internal/features/logistics/service.go:242-282 | outside a failed item query the as-written unassign gives PlanBinItem's answer; where it dereferences nil, PlanBinItem returns ItemFetchFailed |
| Logistics.UnassignNilItemWitness | wms/internal/features/logistics/service.go:268-277 | a concrete store where the as-written unassign dereferences a nil item while the corrected one reports the fetch error |
| Logistics.PlanDeleteBin | wms/internal/features/logistics/service.go:284-317 | blank code, location errors, NotFound exactly when the bin is missing; for an existing bin, success exactly when it holds no item, and otherwise BinNotEmpty with its item count |
| Logistics.PlanDeleteZone | wms/internal/features/logistics/service.go:319-350 | blank code, location errors, NotFound exactly when the zone is missing; for an existing zone, success exactly when no bin is in it, and otherwise ZoneNotEmpty with the number of its bins |
| Logistics.BinsInZoneCount | wms/internal/features/logistics/service.go:337-340 | zero exactly when no bin lies in the zone |
| Logistics.PageSize | wms/internal/features/logistics/service.go:211-213 | a limit in 1..500 is kept, any other becomes 100 |
| Logistics.BinItems | wms/internal/features/logistics/service.go:207-240 | blank bin code, location errors; success exactly when the bin exists at the location |
| Logistics.BinItemsPage | wms/internal/features/logistics/service.go:231-234 | the page is in ascending SKU order, at most the page size, drawn from that bin, and all of its SKUs when they fit |
| Logistics.CreateZoneKeeps | wms/internal/features/logistics/service.go:54-77 | a zone with a fresh code at its location keeps zones unique and every bin in an existing zone |
| Logistics.CreateBinKeeps | wms/internal/features/logistics/service.go:98-136 | an empty bin with a fresh code in an existing zone keeps the store consistent |
| Logistics.BinItemsLowest | wms/internal/features/logistics/service.go:231-234 | a SKU of the bin left off the page sorts no lower than any on it |
| Logistics.SetItemsKeeps | wms/internal/features/logistics/service.go:200 | replacing a bin's SKUs by a duplicate-free list keeps the store consistent |
| Logistics.DeleteBinKeeps | wms/internal/features/logistics/service.go:313-316 | removing a bin keeps the store consistent |
| Logistics.DeleteZoneKeeps | wms/internal/features/logistics/service.go:344-347 | removing a zone that holds no bin keeps every remaining bin in an existing zone |
| Logistics.DeleteBinRemovesKey | wms/internal/features/logistics/service.go:313-316 | after deleting a bin no bin with its code remains at its location |
| Logistics.LogisticsService.constructor | wms/internal/features/logistics/service.go:29-33 | an empty, consistent store over the given locations and items |
| Logistics.LogisticsService.CreateZone | wms/internal/features/logistics/service.go:54-77 | the error is PlanZone's; on success the zone is appended; bins never change |
| Logistics.LogisticsService.ListZones | wms/internal/features/logistics/service.go:79-96 | location errors pass through; otherwise exactly the first page-size zones at the trimmed location, in table order, so all of them when they fit |
| Logistics.LogisticsService.CreateBin | wms/internal/features/logistics/service.go:98-136 | the error is PlanBin's; on success the bin is appended; zones never change |
| Logistics.BinPageSpec | wms/internal/features/logistics/service.go:138-161 | the bin page is within the page size, holds only bins of the location and of the zone when one is given, and all of them when they fit |
| Logistics.LogisticsService.ListBins | wms/internal/features/logistics/service.go:138-161 | location errors pass through; otherwise exactly the first page-size bins at the trimmed location, of the trimmed zone when one is given, in table order, so all of them when they fit |
| Logistics.LogisticsService.SetBinItems | wms/internal/features/logistics/service.go:200 | replaces one bin's SKUs and keeps the store consistent |
| Logistics.LogisticsService.AssignItemToBin | wms/internal/features/logistics/service.go:163-205 | the error is PlanBinItem's; on success the located bin gains the SKU and no other bin changes |
| Logistics.LogisticsService.ItemsInBin | wms/internal/features/logistics/service.go:207-240 | the result is BinItems' |
| Logistics.LogisticsService.UnassignItemFromBin | wms/internal/features/logistics/service.go:242-282 | the corrected unassign: the error is PlanBinItem's; on success the located bin loses the SKU and no other bin changes |
| Logistics.LogisticsService.DeleteBin | wms/internal/features/logistics/service.go:284-317 | the error is PlanDeleteBin's; on success that bin is removed |
| Logistics.LogisticsService.DeleteZone | wms/internal/features/logistics/service.go:319-350 | the error is PlanDeleteZone's; on success that zone is removed |
| Multiwarehouse.PlanWarehouse | wms/internal/features/multiwarehouse/service.go:35-63 | a blank code is InvalidWarehouseCode, a taken one WarehouseExists, each exactly under its condition; success exactly when the trimmed code is non-blank and free, giving the trimmed, fresh warehouse |
| Multiwarehouse.PlanAssign | wms/internal/features/multiwarehouse/service.go:79-130 | the checks in source order: blank warehouse code, blank location code, WarehouseNotFound exactly when the warehouse is missing; then LocationNotFound exactly when the location is not stored; LocationAlreadyAssigned only for an assigned location; success exactly when the warehouse exists and the location exists and is unassigned |
| Multiwarehouse.LinksOf | wms/internal/features/multiwarehouse/service.go:151-155 | exactly the links of that warehouse |
| Multiwarehouse.Locations | wms/internal/features/multiwarehouse/service.go:160-165 | the location code of each link, position by position |
| Multiwarehouse.LocationsOf | wms/internal/features/multiwarehouse/service.go:151-165 | one code per link of the warehouse, and a code is listed exactly when it is linked to the warehouse |
| Multiwarehouse.AssignedIsListed | wms/internal/features/multiwarehouse/service.go:119-122 | an assigned location is listed last under its warehouse and the earlier list is kept |
| Multiwarehouse.CreateKeeps | wms/internal/features/multiwarehouse/service.go:52-55 | a fresh warehouse keeps codes unique, each location in at most one warehouse and every link resolved |
| Multiwarehouse.AssignKeeps | wms/internal/features/multiwarehouse/service.go:119-122 | linking an existing, unassigned location to an existing warehouse keeps the store consistent |
| Multiwarehouse.LocationPageSpec | wms/internal/features/multiwarehouse/service.go:132-167 | at most the clamped limit of codes, each linked to the warehouse, and all of them when they fit |
| Multiwarehouse.ListResult | wms/internal/features/multiwarehouse/service.go:132-167 | a blank code is InvalidWarehouseCode, a missing warehouse WarehouseNotFound, each exactly under its condition; success exactly when the trimmed code is non-blank and names a warehouse, giving the page of its locations |
| Multiwarehouse.PageCodes | wms/internal/features/multiwarehouse/service.go:151-165 | the page is the codes of the first links of that warehouse, up to the clamped limit |
| Multiwarehouse.LinkedLocations | wms/internal/features/multiwarehouse/service.go:160-165 | the loop collects the location of every link in order |
| Multiwarehouse.MultiwarehouseService.constructor | wms/internal/features/multiwarehouse/service.go:29-33 | an empty, consistent store over the given locations |
| Multiwarehouse.MultiwarehouseService.CreateWarehouse | wms/internal/features/multiwarehouse/service.go:35-63 | the result is PlanWarehouse's; on success the warehouse is appended; links never change |
| Multiwarehouse.MultiwarehouseService.ListWarehouses | wms/internal/features/multiwarehouse/service.go:65-77 | exactly the first clamped-limit warehouses in ascending code order: all stored, and a permutation of all warehouses when they fit |
| Multiwarehouse.MultiwarehouseService.AssignLocation | wms/internal/features/multiwarehouse/service.go:79-130 | the error is PlanAssign's; on success the link is appended; warehouses never change |
| Multiwarehouse.MultiwarehouseService.ListLocations | wms/internal/features/multiwarehouse/service.go:132-167 | the result is ListResult's |
| Notifications.ParseBoolBlank | wms/internal/features/notifications/config.go:24-25 | an empty value is not a boolean, so a blank variable leaves the flag on |
| Notifications.Atoi | wms/internal/features/notifications/config.go:46 | a value is returned exactly when the string is an optional sign followed by at least one digit and its value lies in the 64-bit range, and then it is the digits' value, negated after a minus sign |
| Notifications.Decimal | wms/internal/features/notifications/config.go:46 | the decimal spelling of a natural number is a non-empty, unsigned digit string |
| Notifications.DecimalValue | wms/internal/features/notifications/config.go:46 | the digits of that spelling read back to the number |
| Notifications.AtoiDecimal | wms/internal/features/notifications/config.go:45-50 | any threshold in range, written in decimal, parses back to itself |
| Notifications.Recipients | wms/internal/features/notifications/config.go:32-39 | at most one recipient per part, each non-empty and trimmed |
| Notifications.AppendClean | wms/internal/features/notifications/config.go:35-38 | appending a trimmed part, when non-empty, keeps the list clean |
| Notifications.RecipientsOfClean | wms/internal/features/notifications/config.go:34-39 | a list already clean passes through unchanged |
| Notifications.RecipientsRoundTrip | wms/internal/features/notifications/config.go:31-43 | clean addresses without commas, joined with commas, are read back exactly |
| Notifications.RecipientsStep | wms/internal/features/notifications/config.go:34-38 | one more part adds its trimmed form when non-empty and nothing otherwise |
| Notifications.CleanRecipients | wms/internal/features/notifications/config.go:32-39 | the loop returns exactly the cleaned list of parts |
| Notifications.RecipientsSetting | wms/internal/features/notifications/config.go:18-43 | never empty: the cleaned list, or the default address |
| Notifications.ThresholdSetting | wms/internal/features/notifications/config.go:18-50 | never negative; the trimmed variable's value when it parses to a non-negative integer, and the default 10 in every other case |
| Notifications.ThresholdOf | wms/internal/features/notifications/config.go:45-50 | never negative; the parsed value when it parses to a non-negative integer, and the default 10 in every other case |
| Notifications.ThresholdOfDecimal | wms/internal/features/notifications/config.go:45-50 | any threshold in range, written in decimal, is the threshold read |
| Notifications.ThresholdSettingReads | wms/internal/features/notifications/config.go:45-50 | a variable holding a threshold in decimal sets exactly that threshold |
| Notifications.LoadConfigFromEnv | wms/internal/features/notifications/config.go:17-53 | each of the three settings is read from its own variable as its setting function says |
| Notifications.ReadEnabled | wms/internal/features/notifications/config.go:18-29 | a blank or unparsable value leaves the flag on, otherwise it is the parsed boolean |
| Notifications.ReadRecipients | wms/internal/features/notifications/config.go:18-43 | the cleaned list when it is non-empty, otherwise the default address |
| Notifications.ReadThreshold | wms/internal/features/notifications/config.go:18-50 | the threshold of the trimmed variable |
| Notifications.ParseThreshold | wms/internal/features/notifications/config.go:45-50 | the parsed value when it is a non-negative integer, otherwise the default |
| Notifications.Defaults | wms/internal/features/notifications/config.go:17-22 | with no variable set the configuration is on, sends to the default address and uses threshold 10 |
| Orders.OrderRef | warhousemanagementsystem/internal/core/ordermanagement/orders/service.go:185 | the reference is "ORDER-" followed by the order number |
| Orders.PlanCreate | warhousemanagementsystem/internal/core/ordermanagement/orders/service.go:72-93 | OrderExists exactly when the number is taken, and success exactly when it is not (an empty number is not refused), giving a draft order with that number and type |
| Orders.PlanAddLine | warhousemanagementsystem/internal/core/ordermanagement/orders/service.go:95-140 | the checks in source order: empty number, non-positive quantity, missing order, non-draft order; success exactly when all pass and the item and location exist, giving the line |
| Orders.LinesOf | warhousemanagementsystem/internal/core/ordermanagement/orders/service.go:166-170 | exactly the stored lines of that order |
| Orders.PostStep | warhousemanagementsystem/internal/core/ordermanagement/orders/service.go:180-197 | a type other than INBOUND or OUTBOUND is InvalidOrderType; a posted line becomes its movement with a positive quantity, and an outbound one only when the stock covers it |
| Orders.PlanPost | warhousemanagementsystem/internal/core/ordermanagement/orders/service.go:142-210 | empty number, missing order, non-draft order and no lines are refused in that order; success only for a draft order with lines |
| Orders.PlanCancel | warhousemanagementsystem/internal/core/ordermanagement/orders/service.go:212-235 | empty number, missing order and non-draft order are refused in that order; success exactly for an existing draft order |
| Orders.PostLinesLast | warhousemanagementsystem/internal/core/ordermanagement/orders/service.go:180-198 | a successful posting of lines is the posting of all but the last, followed by the last line's movement against the ledger so far |
| Orders.PostLinesShape | warhousemanagementsystem/internal/core/ordermanagement/orders/service.go:180-198 | a successful posting has one movement per line, each the line's movement, and the type is INBOUND or OUTBOUND |
| Orders.PostLinesLength | warhousemanagementsystem/internal/core/ordermanagement/orders/service.go:180-198 | a successful posting has one movement per line |
| Orders.PostLinesStock | warhousemanagementsystem/internal/core/ordermanagement/orders/service.go:180-198 | after posting, the stock of each SKU and location moves by the signed sum of the order's quantities for it |
| Orders.LineDelta | warhousemanagementsystem/internal/core/ordermanagement/orders/service.go:187-194 | a line's movement changes only its own SKU and location, by its signed quantity |
| Orders.StepKeepsValid | warhousemanagementsystem/internal/core/ordermanagement/orders/service.go:187-194 | posting one line keeps the ledger well formed |
| Orders.PostLinesPreservesValid | warhousemanagementsystem/internal/core/ordermanagement/orders/service.go:180-198 | posting all lines keeps the ledger well formed |
| Orders.OutboundLinesFit | warhousemanagementsystem/internal/core/ordermanagement/orders/service.go:191-194 | a posted outbound order never asked for more than the stock of any SKU and location |
| Orders.LineSumNonNegative | warhousemanagementsystem/internal/core/ordermanagement/orders/service.go:99-101 | lines with positive quantities sum to a non-negative amount |
| Orders.OutStepOk | warhousemanagementsystem/internal/core/ordermanagement/orders/service.go:191-194 | an acceptable outbound line covered by the stock posts |
| Orders.OutboundPostsWhenLinesFit | warhousemanagementsystem/internal/core/ordermanagement/orders/service.go:180-198 | an outbound order whose lines are acceptable and whose totals fit the stock posts in full |
| Orders.AcceptableInit | warhousemanagementsystem/internal/core/ordermanagement/orders/service.go:180-198 | acceptability of all lines passes to the prefix and the last line |
| Orders.LineSumInit | warhousemanagementsystem/internal/core/ordermanagement/orders/service.go:180-198 | dropping the last positive line does not raise a total |
| Orders.FitsInit | warhousemanagementsystem/internal/core/ordermanagement/orders/service.go:180-198 | totals that fit the stock still fit without the last line, and the last line's total fits |
| Orders.OutLastFits | warhousemanagementsystem/internal/core/ordermanagement/orders/service.go:191-194 | an outbound prefix that posted extends by a last line whose total fits |
| Orders.InboundPostsWhenLinesAcceptable | warhousemanagementsystem/internal/core/ordermanagement/orders/service.go:187-190 | an inbound order whose lines are acceptable always posts in full |
| Orders.InvalidTypeNeverPosts | warhousemanagementsystem/internal/core/ordermanagement/orders/service.go:195-196 | an order of unknown type with lines is refused with InvalidOrderType |
| Orders.StatusKeeps | warhousemanagementsystem/internal/core/ordermanagement/orders/service.go:200-202 | changing an order's status keeps every line attached to an existing order |
| Orders.PostLinesExtend | warhousemanagementsystem/internal/core/ordermanagement/orders/service.go:180-198 | posting one more line either appends its movement or stops with its error |
| Orders.PostLinesPrefixError | warhousemanagementsystem/internal/core/ordermanagement/orders/service.go:188-193 | an error in a prefix is the error of the whole posting |
| Orders.OrderService.constructor | warhousemanagementsystem/internal/core/ordermanagement/orders/service.go:60-62 | no orders and no lines over a valid ledger |
| Orders.OrderService.Create | warhousemanagementsystem/internal/core/ordermanagement/orders/service.go:72-93 | the result is PlanCreate's; on success the order is stored under its number |
| Orders.OrderService.CreateInboundOrder | warhousemanagementsystem/internal/core/ordermanagement/orders/service.go:64-66 | Create with type INBOUND |
| Orders.OrderService.CreateOutboundOrder | warhousemanagementsystem/internal/core/ordermanagement/orders/service.go:68-70 | Create with type OUTBOUND |
| Orders.OrderService.AddLine | warhousemanagementsystem/internal/core/ordermanagement/orders/service.go:95-140 | the result is PlanAddLine's; on success the line is appended; orders never change |
| Orders.OrderService.PostOrder | warhousemanagementsystem/internal/core/ordermanagement/orders/service.go:142-210 | the error is PlanPost's; on success the ledger gains the posted movements and the order becomes posted; on failure the ledger and the orders are unchanged, as the rolled-back transaction leaves them |
| Orders.OrderService.Commit | warhousemanagementsystem/internal/core/ordermanagement/orders/service.go:179-209 | posts the lines and marks the order posted, or changes nothing |
| Orders.OrderService.ApplyLines | warhousemanagementsystem/internal/core/ordermanagement/orders/service.go:180-198 | the loop posts exactly what PostLines says, or leaves the ledger as it was |
| Orders.OrderService.ApplyLine | warhousemanagementsystem/internal/core/ordermanagement/orders/service.go:187-197 | posts exactly PostStep's movement, or leaves the ledger as it was |
| Orders.OrderService.CancelOrder | warhousemanagementsystem/internal/core/ordermanagement/orders/service.go:212-235 | the error is PlanCancel's; on success the order becomes cancelled |
| Picking.BinForLine | wms/internal/features/picking/service.go:119-137 | a line without an item gets no bin; a chosen bin holds the line's item at its location; with a store that does not fail, no bin only when none serves the line |
| Picking.SavedPrefix | wms/internal/features/picking/service.go:99-114 | the tasks saved before the first refused one: every line before it has a positive quantity and the line at it does not |
| Picking.NewTasks | wms/internal/features/picking/service.go:99-114 | one task per order line |
| Picking.OpenCountZero | wms/internal/features/picking/service.go:187-195 | no open task is counted exactly when every task of the pick list is picked |
| Picking.OpenCountAppend | wms/internal/features/picking/service.go:187-189 | the count over two task lists is the sum of their counts |
| Picking.OpenCountNone | wms/internal/features/picking/service.go:187-189 | tasks of other pick lists count nothing |
| Picking.OpenCountAllOpen | wms/internal/features/picking/service.go:187-189 | open tasks all of that pick list count one each |
| Picking.NewPickListOpenCount | wms/internal/features/picking/service.go:99-114 | right after creation a pick list has one open task per order line |
| Picking.BinLabel | wms/internal/features/picking/service.go:261-268 | the label is "-" unless the task has a bin whose looked-up code is not blank, and then it is that code |
| Picking.CollectBinIds | wms/internal/features/picking/service.go:232-242 | the collected ids are strictly ascending and are exactly the tasks' bin ids |
| Picking.DistinctSorted | wms/internal/features/picking/service.go:232-242 | sorting distinct ids leaves them strictly ascending |
| Picking.TwiceCounted | wms/internal/features/picking/service.go:236-238 | a value at two positions occurs at least twice |
| Picking.AtMostOnce | wms/internal/features/picking/service.go:236-238 | a duplicate-free list holds each value at most once |
| Picking.BinCodes | wms/internal/features/picking/service.go:244-254 | a code is known exactly for a requested id that names a bin, and it is that bin's code |
| Picking.CodeOf | wms/internal/features/picking/service.go:246-253 | a code is found exactly when some bin has that id |
| Picking.AddPickListKeeps | wms/internal/features/picking/service.go:88-91 | a new pick list for an order without one keeps ids positional and one pick list per order |
| Picking.NewTasksValid | wms/internal/features/picking/service.go:99-114 | the tasks saved for a new pick list keep task ids positional and point at existing pick lists |
| Picking.PickingService.constructor | wms/internal/features/picking/service.go:33-37 | no pick lists and no tasks over a valid catalogue |
| Picking.PickingService.CreatePickList | wms/internal/features/picking/service.go:59-117 | a blank number is InvalidOrderNr, a missing order OrderNotFound, an order with a pick list PickListExists, each leaving the store unchanged; otherwise a created pick list is added with the tasks saved before the first refused line, and the result is the new id only when every line was saved |
| Picking.PickingService.SaveTasks | wms/internal/features/picking/service.go:99-114 | the loop saves exactly the tasks of the saved prefix and keeps the store valid |
| Picking.PickingService.StartPickList | wms/internal/features/picking/service.go:139-155 | an unknown id is PickListNotFound, a pick list not in CREATED InvalidStatus; otherwise it becomes IN_PROGRESS with its start time |
| Picking.PickingService.MarkTaskPicked | wms/internal/features/picking/service.go:157-173 | an unknown id is TaskNotFound, a task not OPEN InvalidStatus; otherwise it becomes PICKED with its time |
| Picking.PickingService.DonePickList | wms/internal/features/picking/service.go:175-202 | an unknown id is PickListNotFound, a pick list not IN_PROGRESS InvalidStatus, open tasks are refused with their count; otherwise it becomes DONE with its time |
| Picking.PickingService.CountOpen | wms/internal/features/picking/service.go:187-189 | the loop counts exactly the open tasks of the pick list |
| Picking.PickingService.ShowPickList | wms/internal/features/picking/service.go:204-283 | PickListNotFound exactly for an unknown id and success exactly for a known one, giving the pick list's fields and one view per task, in order, with its bin label |
| Registry.AddAliases | warhousemanagementsystem/internal/features/interfaces/cli/registry/registry.go:31-41 | earlier entries are kept; a reported clash is a non-empty alias of the command that was already registered |
| Registry.RegisterSpec | warhousemanagementsystem/internal/features/interfaces/cli/registry/registry.go:22-42 | a missing name or handler panics exactly when either is missing; a taken name panics exactly when both are present and the name is registered; an alias clash names a non-empty alias of the command |
| Registry.AddAliasesComplete | warhousemanagementsystem/internal/features/interfaces/cli/registry/registry.go:31-41 | without a clash the table gains exactly the non-empty aliases, each mapping to the command renamed to the alias, none of them registered before |
| Registry.RegisteredShape | warhousemanagementsystem/internal/features/interfaces/cli/registry/registry.go:22-42 | a successful registration adds exactly the name and the non-empty aliases, the name maps to the command, each alias to the renamed command, and earlier entries are kept |
| Registry.AliasPanicKeepsName | warhousemanagementsystem/internal/features/interfaces/cli/registry/registry.go:29-37 | an alias clash panics after the command's own name was stored, so the table has changed |
| Registry.SelfAliasWitness | warhousemanagementsystem/internal/features/interfaces/cli/registry/registry.go:29-37 | a command listing its own name as an alias panics on that alias and leaves its name registered |
| Registry.Dispatch | warhousemanagementsystem/internal/features/interfaces/cli/registry/registry.go:44-58 | help is shown exactly for no arguments, --help or -h; an unknown first word is reported by name; otherwise the registered command runs on the remaining arguments |
| Registry.AliasDispatches | warhousemanagementsystem/internal/features/interfaces/cli/registry/registry.go:38-57 | after a successful registration, calling an alias runs the command under the alias name with the remaining arguments |
| Registry.CommandTable.constructor | warhousemanagementsystem/internal/features/interfaces/cli/registry/registry.go:20 | an empty command table |
| Registry.CommandTable.Register | warhousemanagementsystem/internal/features/interfaces/cli/registry/registry.go:22-42 | the panic and the new table are RegisterSpec's |
| Reporting.SignedSumAppend | wms/internal/features/reporting/warehouse_summary.go:74-82 | one more movement moves the net by its signed quantity |
| Reporting.NetIsSignedSum | wms/internal/features/reporting/warehouse_summary.go:74-82 | total in minus total out is the signed sum of the movements |
| Reporting.NoLocationsNoMovements | wms/internal/features/reporting/warehouse_summary.go:62-64 | a warehouse without locations has no movements |
| Reporting.WarehouseSummaryReport | wms/internal/features/reporting/warehouse_summary.go:26-84 | an empty code is refused and a missing warehouse reported, each exactly under its condition, and a stored warehouse always gets a summary; the summary counts the warehouse's locations and their movements, totals IN and OUT quantities, and its net is their difference |
| Reporting.MovementTotals | wms/internal/features/reporting/warehouse_summary.go:73-81 | the loop sums exactly the IN and the OUT quantities |
| Reporting.StockTotalReport | wms/internal/features/reporting/servic.go:38-41 | a blank SKU is refused exactly, and success is exactly a non-blank SKU, giving the SKU's total stock over all locations |
| Reporting.RecentSpec | wms/internal/features/reporting/servic.go:48-58 | at most the clamped limit of movements, newest first, all of that SKU, all of them when they fit, and otherwise the newest: none of that SKU left off is newer than one kept |
| Reporting.RecentRowsSpec | wms/internal/features/reporting/servic.go:43-76 | the rows are at most the clamped limit, newest first, each the view of a stored movement of that SKU |
| Reporting.RowsStep | wms/internal/features/reporting/servic.go:64-74 | each row is the view of the movement at the same position |
| Reporting.RecentMovementsBySKU | wms/internal/features/reporting/servic.go:43-76 | a blank SKU is refused exactly, and any other SKU succeeds with the recent rows of the trimmed SKU |
| Tracking.Upsert | wms/internal/features/tracking/service.go:68-93 | the id and URL are always set; a non-empty carrier is set, an empty one keeps the stored carrier or stays empty on a new record |
| Tracking.PlanSet | wms/internal/features/tracking/service.go:38-98 | blank order number, blank tracking id, unknown order, each exactly under its condition; success stores the trimmed id and URL under the trimmed, known order number |
| Tracking.Lookup | wms/internal/features/tracking/service.go:100-132 | blank number and unknown order are refused exactly, and success is exactly a non-blank, known number; an order without tracking shows empty fields, otherwise the stored record |
| Tracking.PlanClear | wms/internal/features/tracking/service.go:134-159 | blank number and unknown order are refused exactly, and success is exactly a non-blank, known number, giving that trimmed number |
| Tracking.SetThenGet | wms/internal/features/tracking/service.go:38-132 | after a set, the lookup shows the new id and URL and the new carrier, or the kept one when none was given |
| Tracking.SetTwice | wms/internal/features/tracking/service.go:38-98 | setting the same tracking twice changes nothing the second time |
| Tracking.PlanSetOk | wms/internal/features/tracking/service.go:38-98 | on valid input the stored record is the upsert of the trimmed fields over the existing one |
| Tracking.UpsertAgain | wms/internal/features/tracking/service.go:88-93 | upserting the same fields twice is the same as once |
| Tracking.ClearThenGet | wms/internal/features/tracking/service.go:100-159 | after a clear the lookup shows empty tracking fields |
| Tracking.TrackingService.constructor | wms/internal/features/tracking/service.go:25-29 | no tracking records |
| Tracking.TrackingService.Set | wms/internal/features/tracking/service.go:38-98 | the error is PlanSet's; on success the record is stored under the order number and nothing else changes |
| Tracking.TrackingService.Get | wms/internal/features/tracking/service.go:100-132 | the result is Lookup's |
| Tracking.TrackingService.Clear | wms/internal/features/tracking/service.go:134-159 | the error is PlanClear's; on success the order's record is removed |
| Sorting.LessEqTotal | warhousemanagementsystem/internal/core/inventory/item/service.go:113 | the byte-wise string order used for ascending keys is total |
| Sorting.LessEqTransitive | warhousemanagementsystem/internal/core/inventory/item/service.go:113 | that order is transitive |
| Sorting.LessEqAntisymmetric | warhousemanagementsystem/internal/core/inventory/item/service.go:113 | that order is antisymmetric |
| Sorting.InsertSorted | warhousemanagementsystem/internal/core/inventory/item/service.go:113 | inserting into a sorted list keeps it sorted and adds exactly the new element |
| Sorting.SortBy | warhousemanagementsystem/internal/core/inventory/item/service.go:113 | ascending by key and a permutation of the input |
| Sorting.SortedPage | warhousemanagementsystem/internal/core/inventory/item/service.go:113 | the first n of the sorted rows are sorted, come from the input, are all of it when it fits, and otherwise hold the lowest keys |
| Sorting.PageLeast | warhousemanagementsystem/internal/core/inventory/item/service.go:113 | a row left off the first n of the key order has a key no lower than a row kept |
| Sorting.NewestPage | wms/internal/features/reporting/servic.go:48-58 | the first n of the newest-first order come from the input, and none left off is newer than one kept |
| Sorting.NewestLeast | wms/internal/features/reporting/servic.go:48-58 | one element left off the first n of the newest-first order is not newer than one kept |
| Sorting.SortedDistinctKeys | warhousemanagementsystem/internal/core/inventory/item/service.go:113 | in a sorted list a later key is never strictly before an earlier, different one |
| Sorting.InsertIntSorted | wms/internal/features/picking/service.go:242 | inserting an integer into an ascending list keeps it ascending |
| Sorting.SortInts | wms/internal/features/picking/service.go:242 | ascending and a permutation of the input |
| Sorting.InsertByTimeSorted | wms/internal/features/reporting/servic.go:56 | inserting into a newest-first list keeps it newest first |
| Sorting.SortNewestFirst | wms/internal/features/reporting/servic.go:56 | newest first and a permutation of the input |
| Text.TrimLeft | warhousemanagementsystem/internal/core/inventory/item/service.go:35 | the suffix left after dropping leading white space, which starts with a non-space |
| Text.TrimRight | warhousemanagementsystem/internal/core/inventory/item/service.go:35 | the prefix left after dropping trailing white space, which ends with a non-space |
| Text.TrimSpace | warhousemanagementsystem/internal/core/inventory/item/service.go:35-41 | the result has no white space at either end, is no longer than the input, and is empty exactly when the input is all white space |
| Text.BothEnds | warhousemanagementsystem/internal/core/inventory/item/service.go:35-41 | trimming both ends leaves a trimmed string, empty exactly for an all-space input |
| Text.TrimsKeepMiddle | warhousemanagementsystem/internal/core/inventory/item/service.go:35 | the trimmed string is a contiguous slice of the input with only white space around it |
| Text.TrimSpaceOfTrimmed | warhousemanagementsystem/internal/core/inventory/item/service.go:35 | a string already trimmed is unchanged |
| Text.TrimSpaceIdempotent | warhousemanagementsystem/internal/core/inventory/item/service.go:35 | trimming twice is trimming once |
| Text.TrimPrefix | wms/internal/features/barcode/service.go:193 | when the prefix is present the input is the prefix followed by the result, otherwise the input is returned |
| Text.TrimSuffix | wms/internal/features/barcode/service.go:193 | when the suffix is present the input is the result followed by the suffix, otherwise the input is returned |
| Text.LowerChar | wms/internal/features/auth/service.go:36 | upper-case ASCII and Latin-1 letters become their lower case, a dotted capital I becomes "i" and a Kelvin sign "k", every other character is kept |
| Text.LowerToAscii | wms/internal/features/auth/service.go:36 | a character lowers to an ASCII letter exactly when it is an ASCII letter, a dotted capital I or a Kelvin sign |
| Text.ToLower | wms/internal/features/auth/service.go:36 | the same length, each character lowered as LowerChar states |
| Text.Split | wms/internal/features/notifications/config.go:32 | at least one part, none holding the separator, and joining them gives back the input |
| Text.SplitJoin | wms/internal/features/notifications/config.go:32 | splitting a join of separator-free parts gives back the parts |
| Text.SplitTwo | wms/internal/features/notifications/config.go:32 | two separator-free strings joined by the separator split into exactly those two |
| Text.Getenv | wms/internal/features/notifications/config.go:24 | a set variable's value, and the empty string for an unset one |
| Text.ByteLen | wms/internal/features/auth/service.go:71 | the UTF-8 length is between the character count and four times it |
| Text.Utf8Width | wms/internal/features/auth/service.go:71 | one to four bytes per character, exactly one for ASCII |

## Left out

- The SQL store and the ent query builder are not modelled. A query is a lookup in the class's fields. Store faults the code only wraps and returns (`fetch ...: %w`, `create ...: %w`) are left out, except where the code turns them into a distinct error. The faults the picking service silently ignores are listed below.
- Picking.BinForLine: a failed bin query is swallowed (wms/internal/features/picking/service.go:106 discards the error, and :132-136 turns every query error into no bin), so the task is saved without a bin. The model's store does not fail there, so it does not capture that case.
- Picking.PickingService.ShowPickList: a failed bin-code query is ignored (wms/internal/features/picking/service.go:249-253), which leaves every label "-". The model's store does not fail there, so it does not capture that case.
- Concurrency is not modelled: no two requests interleave. So the constraint-error paths reachable only through a race are left out. These are the second `ErrWarehouseExists`, `ErrLocationAlreadyAssigned` and `ErrPickListExists` after a failed insert, and `ErrUserExists` after a failed user insert (wms/internal/features/auth/service.go:102-104).
- A unique-key clash on `Zone`/`Bin` create is not a race: `CreateZone` and `CreateBin` have no duplicate check before the insert, so a plain second create with the same code clashes. `Logistics.PlanZone` and `Logistics.PlanBin` model this as the create failures `ZoneCreateFailed`/`BinCreateFailed`.
- Database transactions are modelled by their outcome: `PostOrder` either appends all movements and marks the order posted, or changes nothing. `CreatePickList` has no transaction, so the tasks saved before a refused one stay.
- Row ids are positions or a counter, and timestamps are the `now` parameter. `time.Now()` and the clock are not modelled.
- The order of rows a query returns without `ORDER BY` is taken as store order. Ties under `ORDER BY` are broken by insertion sort, which may differ from the database's order.
- Go's `int` is 64-bit. Only `strconv.Atoi`'s range check is modelled. Sums of quantities are unbounded integers, so overflow of a total is not modelled.
- An empty SQL `SUM` is taken as 0. The code does not handle a NULL sum, and what the driver does with one is not modelled.
- Orders.OrderRef: the model keeps the reference on each posted movement, as the ledger it posts to stores one. The `warhousemanagementsystem` stock movement table (`ent/schema/stockmovement.go`) has no reference column, so that tree does not persist it.
- Text.ToLower: letters outside Latin-1 other than U+0130 and U+212A are kept as they are. By `LowerToAscii` none of them lowers to an ASCII letter, so comparisons with the ASCII role and format names come out as Go's do.
- bcrypt is the `matches` predicate, and the hash of a new password is a parameter: its value, or none when `GenerateFromPassword` fails (recent versions of the bcrypt package refuse passwords over 72 bytes). Which passwords bcrypt refuses, the hashing cost and the salt are not modelled.
- `os.Getenv` is a map lookup, so the process environment is not modelled.
- The nil checks on loaded edges (`l.Edges.Location != nil`, `ol.Edges.Item == nil`) cannot fail in a consistent store. The model keeps only those a well-formed record can reach (an order line without an item).
- Registry.CommandTable.Register: the Go `panic` is returned as a value (`Option<Panic>`), and the table as it stands at the panic is kept. Recovering from the panic is not modelled.
- The command handlers (`Run` closures), `PrintHelp` and all `cli/register.go` files are not part of this model. They parse flags and print, and `Dispatch` is modelled up to choosing the handler.
- The notifications sender (`notifications/service.go`) and the audit-log CLI are not part of this model. Only the configuration loader and the audit service are modelled.
- Notifications.RecipientsSetting: states only that the list is never empty. Its exact content is stated by `ReadRecipients` and `RecipientsRoundTrip`.
- Text.TrimSpace: its contract states that the result is trimmed and empty exactly for blank input. That the result is the middle slice of the input is stated on the two trims by `TrimsKeepMiddle`, not on `TrimSpace` itself.

## Findings

| source | as written | input that shows it | evidently intended | confidence | as-written member | corrected member |
|---|---|---|---|---|---|---|
| wms/internal/features/logistics/service.go:268-278 | when the item query fails with anything but not-found, the error is built but not returned (`fmt.Errorf` without `return`), so `RemoveItems(it)` runs with a nil item | an existing bin "B" at location "L", SKU "S", and an item query that fails | return the wrapped fetch error, as `AssignItemToBin` does at line 196 | high, not executed | Logistics.UnassignAsWritten, Logistics.UnassignNilItemWitness | Logistics.PlanBinItem, Logistics.LogisticsService.UnassignItemFromBin |
