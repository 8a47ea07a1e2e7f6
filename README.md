# Fleet status bookkeeping, modelled in Dafny

This project models the core of a fleet-management application: how the
backend controllers read and write the `status` fields of Vehicle, Driver
and Trip records, and the small pure transforms and validators of the
React pages that show and edit them.

- **Backend.** One `Database.Db` object holds the tables (maps from id to
  record, plus the maintenance log in insertion order) and their
  autoincrement counters. Each controller is a module whose methods take that
  object and modify only the fields they write:
  - `TripController`: `createTrip` runs three ordered checks (vehicle exactly
    `AVAILABLE`, driver exactly `ON_DUTY`, cargo within capacity) and then
    inserts a `DRAFT` trip. It writes no vehicle and no driver.
    `updateTripStatus` overwrites one trip's status with no transition guard.
  - `MaintenanceController`: the log insert and the `IN_SHOP` update commit
    together. Resolving forces `AVAILABLE`. The listing is newest first.
  - `VehicleController`, `DriverController`: create, update, delete and list
    operations, with statuses stored verbatim. The driver update skips a falsy
    expiry or score.
  - `RoleMiddleware`: role membership.
- **Cross-operation behaviour.** `DispatchScenarios` chains these operations:
  a vehicle can be dispatched twice; maintenance blocks dispatch; resolving or
  a plain vehicle update unblocks it.
- **Front end.** Route cards and search (`LogisticsPage`), driver cards,
  status mapping, the expiry warning and the save request (`DriversPage`), the
  local vehicle list (`VehiclesPage`), the two form validators, and the
  dispatch form's option filters and error text (`DispatchModal`).

Dispatch, as the trip controller writes it, stores the new trip as `DRAFT`
rather than `DISPATCHED`, leaves the vehicle's status as it was (no
`ON_TRIP`), does not look at the driver's licence expiry, and does not
release the vehicle when a trip is completed or cancelled.
`DispatchScenarios.DispatchTwice` and
`DispatchScenarios.CompleteTripKeepsVehicle` state the consequences.

Numbers: weights, capacities, costs and scores are `real`. Timestamps are
integer milliseconds. Ids handed out by the database are the table counters.
The current time and the id of a newly added page-local vehicle are
parameters.

## Model

| member | source | states |
|---|---|---|
| `TripController.CheckDispatch` | backend/src/controllers/trip.controller.js:8-26 | Dispatch passes iff the vehicle exists with status exactly AVAILABLE, the driver exists with status exactly ON_DUTY, and cargo ≤ capacity. Otherwise the single reason is the first failing check, in the order vehicle, driver, capacity |
| `TripController.VehicleRejectionIgnoresDrivers` | backend/src/controllers/trip.controller.js:8-20 | Once the vehicle check fails, neither the driver table, nor the driver id, nor the cargo affects the outcome |
| `TripController.CapacityIsInclusive` | backend/src/controllers/trip.controller.js:22-26 | Cargo exactly equal to the vehicle's capacity is accepted |
| `TripController.CreateTrip` | backend/src/controllers/trip.controller.js:5-33 | A failed check gives a 400 with that check's message and writes nothing. Otherwise exactly one new trip is stored under a fresh id, with status DRAFT and the given cargo, vehicle and driver. Only the trip table and its counter may change |
| `TripController.UpdateTripStatus` | backend/src/controllers/trip.controller.js:36-46 | The trip with that id gets the given status, whatever its old status, and its other fields are kept. Other trips, all vehicles and all drivers are unchanged. A missing id is a storage error |
| `DispatchScenarios.InShopBlocksDispatch` | backend/src/controllers/maintenance.controller.js:13-16 | Once a vehicle is IN_SHOP, any dispatch on it is rejected with "Vehicle not available for dispatch" |
| `DispatchScenarios.DispatchTwice` | backend/src/controllers/trip.controller.js:8-32 | If createTrip succeeds, the identical request succeeds again, giving two distinct stored trips on the same vehicle |
| `DispatchScenarios.MaintenanceThenDispatch` | backend/src/controllers/maintenance.controller.js:8-19 | After createMaintenance on a vehicle, createTrip on that vehicle is rejected as vehicle not available, whether or not the maintenance call succeeded |
| `DispatchScenarios.ResolveThenCheck` | backend/src/controllers/maintenance.controller.js:28-31 | Resolving succeeds iff the vehicle exists. It then passes the dispatch vehicle check, whatever its prior status |
| `DispatchScenarios.UpdateBypassesShop` | backend/src/controllers/vehicle.controller.js:24-29 | An IN_SHOP vehicle updated with status AVAILABLE passes the dispatch vehicle check without going through maintenance |
| `DispatchScenarios.CompleteTripKeepsVehicle` | backend/src/controllers/trip.controller.js:40-43 | Setting a trip to COMPLETED leaves every vehicle unchanged, so no vehicle is released |
| `MaintenanceController.CreateMaintenance` | backend/src/controllers/maintenance.controller.js:5-22 | With the vehicle present, one log is appended with the given description, cost, vehicle and time, and that vehicle alone becomes IN_SHOP from any prior status. Without it, neither a log nor a status change remains |
| `MaintenanceController.ResolveMaintenance` | backend/src/controllers/maintenance.controller.js:25-34 | That vehicle alone becomes AVAILABLE, with no check of its prior status. No log is touched. A missing id is a storage error |
| `MaintenanceController.InsertByCreatedAt` | backend/src/controllers/maintenance.controller.js:37-40 | Inserting a log into a newest-first list keeps it newest first and adds exactly that log |
| `MaintenanceController.SortNewestFirst` | backend/src/controllers/maintenance.controller.js:37-40 | The result is ordered by createdAt descending and is a permutation of the logs |
| `MaintenanceController.GetMaintenanceLogs` | backend/src/controllers/maintenance.controller.js:36-42 | Every stored log appears once, newest first, each paired with its vehicle when that vehicle is stored |
| `Database.AscendingKeys` | backend/src/controllers/vehicle.controller.js:6 | The listing visits exactly the stored ids, each once, in ascending order |
| `VehicleController.ApplyVehiclePatch` | backend/src/controllers/vehicle.controller.js:24-29 | Supplied fields, status included, are written verbatim. Omitted fields and the id are kept |
| `VehicleController.GetVehicles` | backend/src/controllers/vehicle.controller.js:5-8 | Returns exactly the stored vehicles, each once, by ascending id |
| `VehicleController.CreateVehicle` | backend/src/controllers/vehicle.controller.js:11-19 | Adds one vehicle under a fresh id, with plate, model, capacity and status as supplied. Other vehicles are unchanged |
| `VehicleController.UpdateVehicle` | backend/src/controllers/vehicle.controller.js:22-32 | Only the vehicle with that id changes, as the patch says. A missing id is a storage error and changes nothing |
| `VehicleController.DeleteVehicle` | backend/src/controllers/vehicle.controller.js:35-41 | Removes exactly the vehicle with that id. A missing id is a storage error |
| `DriverController.ApplyDriverPatch` | backend/src/controllers/driver.controller.js:30-41 | Supplied name, licence number and status are written. A falsy expiry or score is skipped, so a score of 0 never replaces the old one. The id is kept |
| `DriverController.GetDrivers` | backend/src/controllers/driver.controller.js:5-8 | Returns exactly the stored drivers, each once, by ascending id |
| `DriverController.CreateDriver` | backend/src/controllers/driver.controller.js:11-25 | Adds one driver under a fresh id with the given fields, status verbatim |
| `DriverController.UpdateDriver` | backend/src/controllers/driver.controller.js:28-44 | Only the driver with that id changes, as the patch says. A missing id is a storage error |
| `DriverController.DeleteDriver` | backend/src/controllers/driver.controller.js:47-53 | Removes exactly the driver with that id. A missing id is a storage error |
| `RoleMiddleware.Authorize` | backend/src/middleware/role.middleware.js:4-11 | The request goes on iff the user's role is among the configured roles. Otherwise the reply is 403 "Access denied" |
| `RoleMiddleware.EmptyRolesDenyAll` | backend/src/middleware/role.middleware.js:4-6 | An empty role list denies every request |
| `RoleMiddleware.SameRolesSameDecision` | backend/src/middleware/role.middleware.js:6 | Only the set of configured roles matters, not their order or repetition |
| `Seqs.Find` | frontend/src/pages/Logistics.jsx:42-43 | Returns the first element satisfying the test, or nothing iff no element does |
| `Seqs.Filter` | frontend/src/pages/Logistics.jsx:65-69 | Keeps every copy of each element satisfying the test and no copy of any other (counted as multisets), in order, as a subsequence |
| `Text.Before` | frontend/src/pages/Drivers.jsx:38 | `split('T')[0]`: a prefix of the text that holds no 'T' and stops at the first 'T' |
| `LogisticsPage.StatusLabel` | frontend/src/pages/Logistics.jsx:50 | DISPATCHED reads "In Transit". Any other status keeps its length and first character, and the rest is lower-cased |
| `LogisticsPage.CompletedLabel` | frontend/src/pages/Logistics.jsx:50 | COMPLETED reads "Completed" |
| `LogisticsPage.Progress` | frontend/src/pages/Logistics.jsx:51 | Progress is 100 exactly for COMPLETED, 45 for DISPATCHED and 0 for every other status, so it lies within 0..100 |
| `LogisticsPage.ToRoute` | frontend/src/pages/Logistics.jsx:41-54 | The card keeps the trip's id. Its plate and driver name come from the first vehicle and driver with a matching id, falling back to "N/A" and "Unknown". Origin, destination and ETA are the fixed texts. The status label and progress are those of the trip's status |
| `LogisticsPage.ToRoutes` | frontend/src/pages/Logistics.jsx:41-54 | One route per trip, in trip order, with the same ids |
| `LogisticsPage.FilterRoutes` | frontend/src/pages/Logistics.jsx:65-69 | Keeps every copy of each route whose plate, driver name or destination contains the term, ignoring case, and no other, as an order-preserving subsequence |
| `LogisticsPage.LogisticsView.FilteredRoutes` | frontend/src/pages/Logistics.jsx:65-69 | The shown cards are every copy of each stored route matching the current search term, and no other, in list order |
| `LogisticsPage.EmptySearchKeepsAll` | frontend/src/pages/Logistics.jsx:65-69 | An empty term keeps every route |
| `LogisticsPage.DestinationTermKeepsAll` | frontend/src/pages/Logistics.jsx:49 | Every card has the destination "Warehouse B", so the term "warehouse" keeps every route built from trips |
| `LogisticsPage.LogisticsView.constructor` | frontend/src/pages/Logistics.jsx:17-23 | The page starts with no routes, no active route, loading and an empty search |
| `LogisticsPage.LogisticsView.FetchData` | frontend/src/pages/Logistics.jsx:29-63 | A failed listing counts as empty. The routes are rebuilt from the trips. The first route becomes active when there is one, otherwise the active route is kept. Loading ends |
| `DriversPage.DisplayStatus` | frontend/src/pages/Drivers.jsx:40 | ON_DUTY shows "Available", OFF_DUTY shows "Off Duty", anything else "On Leave" |
| `DriversPage.SaveStatus` | frontend/src/pages/Drivers.jsx:76 | "Available" saves as ON_DUTY, every other label as OFF_DUTY |
| `DriversPage.StatusRoundTrip` | frontend/src/pages/Drivers.jsx:40 | ON_DUTY and OFF_DUTY survive display-then-save. Every other status collapses to OFF_DUTY |
| `DriversPage.LabelRoundTrip` | frontend/src/pages/Drivers.jsx:76 | "Available" and "Off Duty" survive save-then-display, and "On Leave" comes back as "Off Duty" |
| `DriversPage.Rating` | frontend/src/pages/Drivers.jsx:39 | The score is shown as is, or as 5.0 when it is missing or 0 |
| `DriversPage.ToCard` | frontend/src/pages/Drivers.jsx:34-43 | The card keeps id, name and licence number. Its expiry is the date part before 'T', its status is the display label, its rating is the score or 5.0 when that is missing or 0, and phone and experience are the fixed placeholders |
| `DriversPage.IsExpiringSoon` | frontend/src/pages/Drivers.jsx:61-67 | Flagged iff the rounded-up day difference is in 1..29, that is, iff 0 < expiry − now ≤ 29 days. Past, same-instant and later expiries are not flagged |
| `DriversPage.SaveRequest` | frontend/src/pages/Drivers.jsx:69-83 | An update of the driver being edited, otherwise a create. The payload carries the form's fields with the status mapped back |
| `DriversPage.DriversView.constructor` | frontend/src/pages/Drivers.jsx:19-24 | The page starts with no cards, loading, modal closed and nothing being edited |
| `DriversPage.DriversView.FetchDrivers` | frontend/src/pages/Drivers.jsx:30-50 | One card per listed driver, in order. A failed listing keeps the old cards. Loading ends |
| `DriversPage.DriversView.OpenEditModal` | frontend/src/pages/Drivers.jsx:103-106 | The driver becomes the edit target and the modal opens |
| `DriversPage.DriversView.HandleSave` | frontend/src/pages/Drivers.jsx:69-90 | Sends the save request. On success the list is reloaded as `fetchDrivers` does (one card per listed driver, or the old cards when the listing fails), the modal closes and the target is cleared. On failure nothing changes |
| `DriverModal.DriverErrors` | frontend/src/components/Drivers/DriverModal.jsx:34-39 | Each of name, licence number and phone that is empty gets its own "required" message, and all of them are reported together. No other field produces an error |
| `DriverModal.Validate` | frontend/src/components/Drivers/DriverModal.jsx:34-41 | True iff name, licence number and phone are all non-empty |
| `DriverModal.HandleSubmit` | frontend/src/components/Drivers/DriverModal.jsx:43-48 | The form is passed to onSave iff it validates, and then unchanged |
| `DriverModal.OnlyRequiredFieldsMatter` | frontend/src/components/Drivers/DriverModal.jsx:34-41 | Expiry, status, rating and experience never change the errors |
| `VehicleModal.VehicleErrors` | frontend/src/components/Vehicles/VehicleModal.jsx:34-39 | Each of name, plate and capacity that is empty gets its own "required" message, and all of them are reported together. No other field produces an error |
| `VehicleModal.Validate` | frontend/src/components/Vehicles/VehicleModal.jsx:34-41 | True iff name, plate and capacity are all non-empty |
| `VehicleModal.HandleSubmit` | frontend/src/components/Vehicles/VehicleModal.jsx:43-48 | The form is passed to onSave iff it validates, and then unchanged |
| `VehicleModal.OnlyRequiredFieldsMatter` | frontend/src/components/Vehicles/VehicleModal.jsx:34-41 | Type, status, last service and mileage never change the errors |
| `VehiclesPage.FilterVehicles` | frontend/src/pages/Vehicles.jsx:21-26 | Keeps every copy of each vehicle whose name or plate contains the term, ignoring case, and whose type matches the filter ("All" matches every type), and no other, in order |
| `VehiclesPage.VehiclesView.Filtered` | frontend/src/pages/Vehicles.jsx:21-26 | The shown rows are every copy of each listed vehicle matching the current search and type filter, and no other, in list order |
| `VehiclesPage.NoFilterShowsAll` | frontend/src/pages/Vehicles.jsx:21-26 | An empty term with type "All" shows every vehicle |
| `VehiclesPage.ReplaceById` | frontend/src/pages/Vehicles.jsx:39 | Same length and same ids. Entries with the edited id become the new data under their own id. All others are unchanged |
| `VehiclesPage.Append` | frontend/src/pages/Vehicles.jsx:41 | One entry is appended under the new id, and the earlier entries are unchanged |
| `VehiclesPage.RemoveById` | frontend/src/pages/Vehicles.jsx:49 | Removes every entry with that id and keeps every copy of every other entry, in order |
| `VehiclesPage.SavesKeepIdsDistinct` | frontend/src/pages/Vehicles.jsx:39-41 | Edits keep ids distinct, and so do adds under an id not yet in the list |
| `VehiclesPage.VehiclesView.constructor` | frontend/src/pages/Vehicles.jsx:15-19 | The page starts with the initial list, no search, type "All", modal closed and nothing being edited |
| `VehiclesPage.VehiclesView.OpenEditModal` | frontend/src/pages/Vehicles.jsx:53-56 | The vehicle becomes the edit target and the modal opens |
| `VehiclesPage.VehiclesView.HandleSave` | frontend/src/pages/Vehicles.jsx:37-45 | Edits the target when there is one, otherwise appends. Then the modal closes and the target is cleared |
| `VehiclesPage.VehiclesView.HandleDelete` | frontend/src/pages/Vehicles.jsx:47-51 | On confirmation the entries with that id are removed. Otherwise the list is unchanged |
| `DispatchModal.MenuFor` | frontend/src/components/Logistics/DispatchModal.jsx:74-84 | An absent or empty list gives the "No … found" placeholder. A non-empty list with no qualifying entry gives the "currently" placeholder. Otherwise the options are the qualifying entries |
| `DispatchModal.VehicleOptions` | frontend/src/components/Logistics/DispatchModal.jsx:77-81 | Every copy of each vehicle whose upper-cased status is AVAILABLE, and no other, in list order |
| `DispatchModal.DriverOptions` | frontend/src/components/Logistics/DispatchModal.jsx:100-104 | Every copy of each driver whose upper-cased status is ON_DUTY, and no other, in list order |
| `DispatchModal.VehicleMenu` | frontend/src/components/Logistics/DispatchModal.jsx:74-84 | The vehicle select shows "No vehicles found" for an absent or empty list, the "currently" placeholder when no vehicle is offered, and otherwise exactly the offered vehicles |
| `DispatchModal.DriverMenu` | frontend/src/components/Logistics/DispatchModal.jsx:97-107 | The driver select shows "No drivers found" for an absent or empty list, the "currently" placeholder when no driver is on duty, and otherwise exactly the on-duty drivers |
| `DispatchModal.BackendReadyIsOffered` | frontend/src/components/Logistics/DispatchModal.jsx:77-80 | Every vehicle that passes the backend's exact AVAILABLE check is offered |
| `DispatchModal.OfferedYetRefused` | frontend/src/components/Logistics/DispatchModal.jsx:77-80 | A vehicle whose status is "available" is offered, but the backend rejects it |
| `DispatchModal.ErrorMessage` | frontend/src/components/Logistics/DispatchModal.jsx:27 | Shows the server's message when it sent a non-empty one, otherwise "Failed to dispatch trip". The result is never empty |

## Left out

- Analytics, authentication (password hashing, token signing and verification), users and fuel logs are not part of this model. They are aggregation over floating point or calls into foreign libraries.
- Route wiring, server start-up, seeding, the HTTP service clients and all rendering (layout, animation, colour classes, the map) are not modelled. The same goes for the pages outside the ones named above.
- Concurrency: calls are sequential. The window between createTrip's reads and its insert, where two requests could both pass, is not modelled.
- Database schema constraints (unique fields, foreign-key rules on delete, defaults) are not part of this model. So deleting a vehicle that trips or logs still reference always succeeds here. The id an aborted insert may consume is not consumed here.
- Listing order: `findMany` without an ordering is modelled as ascending id. Maintenance logs with equal `createdAt` come out in one fixed order of the model's choosing, where the database promises none.
- Storage errors carry no message: the model reports `StorageError` where the error handler would send the database's own text with a 500.
- `TripController.UpdateTripStatus` always writes the given status string. A request that omits the status, which the store would skip, is not modelled.
- `DriverController.ApplyDriverPatch` treats the score as a number. A score sent as the text "0", which is truthy and would be written, is not modelled.
- `parseInt`, `parseFloat` and `NaN` are not modelled: ids, weights, costs and scores arrive already parsed. Date parsing and formatting become integer milliseconds, and the ISO text the listing delivers is taken as already normalised.
- Upper- and lower-casing cover ASCII letters only.
- The Drivers page's status/search filter refers to a list it never defines, so there is no filter to model. Its delete handler and the Logistics page's "complete trip" button only call the backend and reload; the backend side of both is modelled.
- The dispatch form's submit path is not modelled: parsing and a service call, then closing the form on success. Only the error text shown on failure is modelled.
