# Vehicle Factory: cost assembly and order aggregation in Dafny

This project models the core of a small vehicle-ordering program. It builds a
car, a motorcycle or a bicycle from priced parts (chassis, tires and, for the
engine-powered kinds, an engine). Assembling a vehicle returns an order record:
the vehicle's name, its parts and their costs in insertion order, and a total.
An order manager collects these records, keeps a running total, renders one
record as text and renders the invoice text for all of them.

Layout, one module per source file:

- `pricelist.dfy` (`PriceList`): the ten price constants, and the fact that
  each one is a non-negative whole number of half kronor.
- `car.dfy`, `motorcycle.dfy`, `bicycle.dfy` (`CarPricing`,
  `MotorcyclePricing`, `BicyclePricing`): the pure price properties of each
  class, its engine-cost formula and the default tire count of its constructor.
- `vehicle.dfy` (`Vehicles`): the class hierarchy as one class `Vehicle`.
  Its `const kind` says which concrete class an object is. Its fields
  `totalCost`, `noOfTires` and `engineSize` are updated in place by the fitting
  methods. The specification functions `VehicleOrder` and `EngineVehicleOrder` give the
  record each assembly must return.
- `order_record.dfy` (`OrderRecord`): the order record datatype.
- `vehicle_factory.dfy` (`VehicleFactory`): the `VehicleType` enumeration,
  the decision `Select`, and `CreateVehicle`, which allocates.
- `order_manager.dfy` (`OrderManagement`): class `OrderManager`. The fields
  `orders` and `totalCost` are kept in step by `Valid()`. Methods with loops
  render a record and the invoice, proved against the functions `RenderOrder`
  and `Invoice`. Lemmas give the line-by-line layout of both texts.
- `text.dfy` (`Text`): the string operations the rendering needs. These are
  `str()` of an int, ASCII `upper()`, `''.join`, and splitting text into
  newline-terminated lines, with the round-trip lemmas between them.
- `wrappers.dfy` (`Wrappers`): `Option` and `Result`.

Where the inheritance hierarchy is modelled by a kind tag:

- A member that exists only on `EnginePoweredVehicle` requires
  `HasEngine(kind)`.
- Each concrete `assemble_vehicle` is its own method and requires its kind.
- Python's dynamic dispatch of `chassis_cost`, `tire_cost` and
  `calculate_engine_cost` becomes a `match` on the kind.

Costs are Dafny `real`, so every sum is exact. `PriceList.PricesAreExact` and
`Vehicles.OrderCostsAreExact` show that every price and every derived cost is a
whole number of half kronor.

Two facts about the code that the proofs rely on:

- The fitting coefficients are 59.50 (car) and 44.50 (motorcycle), as
  pricelist.py:38 and pricelist.py:44 bind them.
- A second assembly of the same vehicle returns the same record, because the
  running total is overwritten with the record's total (vehicle.py:31,
  engine_powered_vehicle.py:33). `Vehicles.ReassemblyIsStable` proves it.

## Model

| member | source | states |
|---|---|---|
| `PriceList.PricesAreExact` | pricelist.py:34-48 | every price constant is non-negative and a whole number of half kronor |
| `CarPricing.Prices` | car.py:12-26 | car chassis 50000 and tire 3000; the engine costs 25000 at size 0 and 59.50 more per extra cc |
| `MotorcyclePricing.Prices` | motorcycle.py:42-75 | motorcycle chassis 20000 and tire 2000; the engine costs 15000 at size 0 and 44.50 more per extra cc |
| `BicyclePricing.Prices` | bicycle.py:12-18 | bicycle chassis 2000 and tire 800 (there are no engine prices) |
| `Vehicles.NamesDistinct` | vehicle.py:48-50 | the record name (the class name) tells the three classes apart, in both directions |
| `Vehicles.VehicleOrderParts` | vehicle.py:26-37 | the two-part record is named after the class, has exactly the parts Chassis then Tires, with Tires = n × tire price, and a total equal to the sum of the parts |
| `Vehicles.EngineVehicleOrderParts` | engine_powered_vehicle.py:27-39 | the three-part record has exactly Chassis, Tires, Engine in that order, with Engine = calculate_engine_cost(size), and a total equal to chassis + n × tire + engine |
| `Vehicles.OrderCostsAreExact` | pricelist.py:35-48 | every part cost and total of an assembled record is a whole number of half kronor |
| `Vehicles.CarOrderTotal` | car.py:28-30 | a Car record totals 87000 + 59.50 × size |
| `Vehicles.MotorcycleOrderTotal` | motorcycle.py:77-90 | a Motorcycle record with the default 2 tires totals 39000 + 44.50 × size |
| `Vehicles.BicycleOrderTotal` | bicycle.py:20-21 | a Bicycle record with the default 2 tires totals 3600 and has no Engine part |
| `Vehicles.Vehicle.Car` | car.py:6-7 | a new Car has the given tire count (4 by default), a zero running total and no engine |
| `Vehicles.Vehicle.Motorcycle` | motorcycle.py:13-21 | a new Motorcycle has the given tire count (2 by default), a zero running total and no engine |
| `Vehicles.Vehicle.Bicycle` | bicycle.py:6-7 | a new Bicycle has the given tire count (2 by default) and a zero running total |
| `Vehicles.Vehicle.FitChassis` | vehicle.py:13-15 | the running total grows by exactly the chassis price; nothing else changes |
| `Vehicles.Vehicle.FitTires` | vehicle.py:17-21 | the tire count becomes n and the running total grows by exactly n × tire price |
| `Vehicles.Vehicle.SetTotalCost` | vehicle.py:56-58 | the running total becomes the given value |
| `Vehicles.Vehicle.AssembleVehicleCommon` | vehicle.py:22-37 | the record returned is VehicleOrder(kind, n), whatever the earlier state; afterwards the running total equals its total and the tire count is n |
| `Vehicles.Vehicle.EngineCost` | engine_powered_vehicle.py:8-10 | the engine cost of the fitted size, and no value when no engine has been fitted |
| `Vehicles.Vehicle.FitEngine` | engine_powered_vehicle.py:16-20 | the running total grows by calculate_engine_cost(size); the engine size becomes size, so EngineCost() is that cost |
| `Vehicles.Vehicle.AssembleEngineVehicleCommon` | engine_powered_vehicle.py:22-39 | the record returned is EngineVehicleOrder(kind, n, size), whatever the earlier state; afterwards total, tire count and engine size match the record |
| `Vehicles.Vehicle.AssembleCar` | car.py:28-30 | always fits 4 tires, whatever tire count the constructor was given |
| `Vehicles.Vehicle.AssembleMotorcycle` | motorcycle.py:77-90 | uses the tire count the motorcycle already has |
| `Vehicles.Vehicle.AssembleBicycle` | bicycle.py:20-21 | the record depends only on the tire count; the engine argument (None or not) is ignored |
| `Vehicles.ReassemblyIsStable` | engine_powered_vehicle.py:22-39 | assembling the same vehicle twice returns equal records, because the total is overwritten, not accumulated |
| `VehicleFactory.Select` | vehicle_factory.py:61-73 | succeeds exactly for a VehicleType member, naming the class of that member; None and unrecognised values give ValueError with the source's messages |
| `VehicleFactory.SelectReachesEveryKind` | vehicle_factory.py:65-70 | each class is produced by its own VehicleType member |
| `VehicleFactory.CreateVehicle` | vehicle_factory.py:37-73 | fails exactly when Select fails, with the same error; otherwise returns a fresh vehicle of the selected class with its default tire count, zero total and no engine, modifying nothing |
| `Text.IntToString` | order_manager.py:24-26 | the index is rendered as its decimal text: digits only (after a minus sign for a negative index), no leading zero, no newline, and it reads back as the index |
| `OrderManagement.SumTotalsAppend` | order_manager.py:7-9 | the total over two runs of orders is the sum of their totals |
| `OrderManagement.SumTotalsPermutation` | order_manager.py:9 | the accumulated total does not depend on the order in which records were added |
| `OrderManagement.RenderedLines` | order_manager.py:21-38 | a rendered record is its header lines (numbered and upper-cased with an index, `<Name>:` without), then one line per part in record order, or the single no-parts line when Parts is missing or empty, and always the Total line last |
| `OrderManagement.InvoiceBodyNumbered` | order_manager.py:47-48 | the invoice body joins every order rendered with its 1-based position, in insertion order |
| `OrderManagement.InvoiceBodyExtends` | order_manager.py:47-48 | adding orders leaves the text already rendered for earlier orders unchanged |
| `OrderManagement.InvoiceLines` | order_manager.py:43-50 | the invoice's lines are the title and rule, each order's lines numbered 1 to n, a blank line, then `Total Cost: <total> SEK` |
| `OrderManagement.InvoiceGrandTotal` | order_manager.py:50 | when the total is the manager's, the invoice ends with the sum of all record totals |
| `OrderManagement.OrderManager.constructor` | order_manager.py:3-5 | a new manager has no orders and total 0 |
| `OrderManagement.OrderManager.AddOrder` | order_manager.py:7-9 | appends the record at the end, leaves earlier records unchanged, adds its total, and keeps total = sum of record totals |
| `OrderManagement.OrderManager.GetTotalCost` | order_manager.py:15-16 | the sum of the totals of every record added so far |
| `OrderManagement.OrderManager.GetTotalOrders` | order_manager.py:18-19 | the number of records added so far |
| `OrderManagement.OrderManager.FormatOrder` | order_manager.py:21-38 | the loop builds exactly the text RenderOrder specifies |
| `OrderManagement.OrderManager.GenerateInvoice` | order_manager.py:43-50 | the loop builds exactly the text Invoice specifies for the current orders and total, changing nothing |
| `OrderManagement.AddTwice` | order_manager.py:7-9 | adding the same record twice appends it twice and counts its total twice |
| `OrderManagement.InvoiceIsRepeatable` | order_manager.py:43-50 | regenerating the invoice with no new orders gives the same text |

## Left out

- gui.py and main.py: widgets, popups and start-up. The GUI's checks before an
  order (a vehicle is selected; the engine size is non-empty for engine-powered
  vehicles) are the caller's and not part of this model.
- `print` and `logging` calls (vehicle.py:15, vehicle.py:21,
  engine_powered_vehicle.py:20, order_manager.py:10-13, order_manager.py:40-41,
  vehicle_factory.py:62, vehicle_factory.py:72), including `print_total_cost`
  and `_print_order_details`.
- The file open and write in `generate_invoice` (order_manager.py:44).
  `GenerateInvoice` returns the text it would write; write failures are not
  modelled.
- Python's `str()` of a cost. It prints an int or a float depending on how the
  cost was computed, for example `50000` or `132100.0`. The model passes it in
  as the parameter `show`.
- Floating-point rounding: costs are exact reals. All prices are whole numbers
  of half kronor, so the float results agree for engine sizes of ordinary
  magnitude.
- Text.Upper changes only the ASCII letters a–z, which is all the three class
  names need; Python's Unicode case mapping is not modelled.
- Class-attribute defaults (vehicle.py:5-6, engine_powered_vehicle.py:6) become
  fields set by the constructors. The `ABC` and `abstractmethod` declarations
  have no counterpart.
- The `get_name` overrides in car.py, motorcycle.py and bicycle.py, and the
  `engine_cost` overrides in car.py:16-18 and motorcycle.py:32-40, only delegate
  to the base class. They are the same members here: `Vehicles.Name` and
  `Vehicles.Vehicle.EngineCost`.
- The `total_cost` getter (vehicle.py:52-54) is the field `totalCost` itself.
- Vehicles.Vehicle.AssembleCar and Vehicles.Vehicle.AssembleMotorcycle take an
  `int` engine size, as the source's annotation does. Passing None there makes
  Python raise a TypeError inside `calculate_engine_cost`; that path is not
  modelled.
- Order records are a datatype, not a dictionary. Their parts are a sequence,
  so duplicate labels are not excluded, and the KeyError for a record without
  `Name` or `TotalCost` cannot arise.
- The numeric values 1, 2, 3 of `VehicleType` are not modelled; no behaviour
  depends on them.
