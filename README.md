# ISA-ATM-Calculator numeric core in Dafny

This project models the numeric core of the ISA-ATM-Calculator, a set of
aerospace calculator pages. It covers:

- the International Standard Atmosphere function and the altitude unit conversion in `utils.py`;
- the arithmetic behind six calculator pages: ISA air properties, Mach number and flow regime, level-flight lift and drag, Breguet fuel and range, the mission planner, and the city-to-city aircraft screener;
- the script that turns the OurAirports CSV into a compact airport list.

Each page becomes a function from the values entered in the form to what the page shows. An outcome datatype covers the page's error messages and its crashes.

Floats are modelled as Dafny `real`, so the arithmetic is exact. The natural logarithm, the exponential and the square root are not definable over the reals in Dafny. They come in as a `MathLib` value, a record of three functions. The predicate `Lawful` states the laws the proofs use:

- `exp` is positive and strictly increasing, with `exp(0) = 1`;
- `exp(ln x) = x` for `x > 0`;
- `sqrt` is positive and increasing on positive arguments.

A few bounds also use `AboveTangent`, which says `exp(y) >= 1 + y`. `Elementary.LawsAreSatisfiable` exhibits a rational `MathLib` that meets all of these laws, so they are consistent.

Modules:

- `Elementary`: `MathLib`, the laws, and what follows from them (ln is increasing, ln is positive above 1, `Pow`).
- `PyStr`: Python's `str.strip`, `str.upper` and `str.lower`, with Python's `isspace` set of whitespace characters and ASCII case mapping.
- `Utils`: `isa_atmosphere` and `convert_altitude`. `AtmosphereWith` takes the troposphere exponent as a parameter. `TroposphereExponentAsWritten` is the exponent as the program has it, and `TroposphereExponent` is the corrected one (see "## Findings"). The ISA and lift/drag pages take the exponent too, so both the program's pages and the corrected ones are modelled.
- `Aero`: the level-flight coefficients shared by the lift/drag page and the fuel-burn estimate.
- `Breguet`: the Breguet range and endurance equations, and the range equation solved for the final mass.
- `IsaTool`, `MachTool`, `LiftDragTool`, `FuelRangeTool`, `MissionPlannerTool`, `CityToCityTool`: one module per page.
- `BuildAirports`: the row filter and normaliser, `Normalise`, and the list-building loop, `BuildAirportList`.

Each page keeps its own constants. For example, g is 9.80665 in the atmosphere model and 9.81 on the lift/drag and fuel pages.

## Model

| member | source | states |
|---|---|---|
| Utils.Temperature | utils.py:35-45 | the layer temperature stays between 216.65 K and 288.15 K at every accepted altitude |
| Utils.AtmosphereWith | utils.py:32-51 | None exactly when the altitude is below 0 or above 47000 m; otherwise T is the layer temperature, ρ·R·T = P, and a = sqrt(γ·R·T) |
| Utils.IsaAtmosphereAsWritten | utils.py:19-51 | the function as written, with the troposphere exponent g/(-0.0065·R); it returns None exactly outside 0..47000 m |
| Utils.IsaAtmosphere | utils.py:19-51 | the corrected function: None exactly outside 0..47000 m; on Some, T, P, ρ = P/(R·T) and a = sqrt(1.4·287·T) |
| Utils.TemperatureLipschitz | utils.py:35-45 | the temperature changes by at most 0.0065 K per metre, so the piecewise profile has no jumps |
| Utils.TemperatureAtBoundaries | utils.py:36-45 | adjacent layer formulas agree at 11000, 20000 and 32000 m (216.65, 216.65 and 228.65 K) |
| Utils.TemperatureMonotone | utils.py:36-45 | temperature strictly falls with altitude up to 11000 m and never falls above it |
| Utils.PressureWith | utils.py:35-46 | the layer pressure for a given troposphere exponent; under lawful exp and ln it is positive in every layer, whatever the exponent |
| Utils.AtmospherePositive | utils.py:32-51 | for either troposphere exponent, every accepted altitude gives 216.65 ≤ T ≤ 288.15, P > 0, ρ > 0 and a > 0 |
| Utils.SeaLevel | utils.py:35-49 | for either troposphere exponent, at 0 m, T = 288.15 K, P = 101325 Pa, ρ = 101325/(287·288.15) and a = sqrt(1.4·287·288.15) |
| Utils.PressureFallsWithinLayer | utils.py:35-46 | within one layer, the corrected pressure strictly falls as altitude rises |
| Utils.AsWrittenTropospherePressureRises | utils.py:37 | with the sign as written, the troposphere pressure exceeds 101325 Pa above the ground and rises with altitude |
| Utils.TropospherePressureBelowSeaLevel | utils.py:36-37 | with the corrected sign, the troposphere pressure is positive and below 101325 Pa above the ground |
| Utils.AsWrittenTroposphereTooDense | utils.py:36-49 | above the ground in the troposphere, the density as written is strictly greater than the corrected density |
| Utils.SpeedOfSoundFallsInTroposphere | utils.py:36-49 | the speed of sound strictly falls with altitude up to 11000 m |
| Utils.MetresPer | utils.py:63-78 | every accepted unit name has a positive length in metres |
| Utils.ConvertAltitude | utils.py:57-80 | an unknown from-unit is an error whatever the to-unit; otherwise an unknown to-unit is an error; otherwise the result times its unit's length equals the input times the input unit's length; names are lower-cased first |
| Utils.ConvertToSameUnit | utils.py:57-80 | converting to the same unit returns the value unchanged |
| Utils.ConvertRoundTrip | utils.py:57-80 | metres to any unit and back to metres returns the input |
| Utils.ToMetres | utils.py:57-80 | a drop-down unit always converts to metres without error, and a non-negative altitude stays non-negative |
| IsaTool.Show | tools/isa_tool.py:34-42 | metric readings are the SI values; imperial readings convert back to them through °F to K, psi to Pa, slug/ft³ to kg/m³ and ft/s to m/s |
| IsaTool.IsaPage | tools/isa_tool.py:10-42 | for a given troposphere exponent (the program's is `TroposphereExponentAsWritten`): the altitude is converted to metres before the atmosphere call; the page shows the error exactly when the metres exceed 47000; otherwise it shows that altitude's readings |
| IsaTool.OnlyFeetExceedTheModel | tools/isa_tool.py:10-28 | metre and kilometre inputs within their caps always succeed; a feet input fails exactly above 47000 m, which includes the 154200 ft cap |
| IsaTool.SeaLevelInImperial | tools/isa_tool.py:34-39 | for either exponent, sea level shows as 59 °F and about 14.696 psi |
| IsaTool.TropospherePressureShown | tools/isa_tool.py:24-42 | at any metric altitude in (0, 11000] m, the page as written shows a pressure above 101325 Pa and the corrected page one between 0 and 101325 Pa |
| MachTool.SpeedInMps | tools/mach_tool.py:34-39 | m/s is kept as entered, ft/s is divided by 3.28084 and knots are multiplied by 0.514444; the result is zero or positive exactly when the input is |
| MachTool.SpeedInMpsMonotone | tools/mach_tool.py:34-39 | a faster entered speed is never a slower speed in m/s |
| MachTool.Classify | tools/mach_tool.py:51-60 | the regime's lower threshold is at most the Mach number, and every higher regime's threshold lies above it |
| MachTool.ClassifyBands | tools/mach_tool.py:51-60 | each regime is exactly its half-open band [limit, next limit), so exactly one regime is chosen |
| MachTool.ClassifyMonotone | tools/mach_tool.py:51-60 | the regime never decreases as the Mach number grows |
| MachTool.MachPage | tools/mach_tool.py:13-60 | the error shows exactly when the converted altitude exceeds 47000 m; otherwise mach·a = V when a > 0, mach is 0 otherwise, and the regime is the Mach number's class |
| MachTool.OnlyKilometresExceedTheModel | tools/mach_tool.py:14-45 | with the single cap of 47000, metres and feet always succeed, and kilometres fail exactly above 47 |
| MachTool.MachIsSpeedOverSoundSpeed | tools/mach_tool.py:24-52 | a > 0, mach ≥ 0, mach is 0 exactly at zero airspeed, and zero airspeed is Incompressible |
| MachTool.RegimeMonotoneInSpeed | tools/mach_tool.py:34-60 | at one altitude, a faster airspeed never gives a lower regime |
| Aero.DynamicPressure | tools/lift_drag_tool.py:66 | q = ½·ρ·V²; for a positive density q is positive exactly when V is not 0 |
| Aero.DividesByZeroIff | tools/lift_drag_tool.py:66-69 | with positive density and Oswald factor, a formula divides by zero exactly when V, S or b is 0 |
| Aero.LevelFlight | tools/lift_drag_tool.py:66-71 | lift balances weight (q·S·CL = W), AR·S = b², and k·π·e·AR = 1 |
| Aero.DragCoefficientAtLeastParasitic | tools/lift_drag_tool.py:69-70 | with S > 0 and e > 0, k > 0 and CD ≥ CD0 |
| Aero.DragPolar | tools/lift_drag_tool.py:66-71 | drag is q·S·CD0 plus the induced drag k·W²/(q·S) |
| Aero.DragAtLeastParasitic | tools/lift_drag_tool.py:71 | drag is at least the parasitic drag q·S·CD0 |
| Aero.DragPositive | tools/fuel_range_tool.py:91-98 | with nonzero speed, weight and span and positive area, nothing divides by zero and the drag is positive |
| LiftDragTool.ToSi | tools/lift_drag_tool.py:28-46 | imperial: the SI speed times 3.28084, weight divided by 4.44822, area divided by 0.092903 and span divided by 0.3048 give back the entered values; metric: speed, area and span are kept and the weight is the mass times 9.81; each converted input is zero exactly when the entered one is |
| LiftDragTool.LiftDragPage | tools/lift_drag_tool.py:17-89 | for a given troposphere exponent (the program's is `TroposphereExponentAsWritten`): the altitude error shows exactly above 47000 m; a division by zero happens exactly when the formulas divide by zero; a shown dashboard has the CL, CD, AR and k of `Aero.LevelFlight` at the atmosphere's density and the SI inputs, the metric drag is that drag and the imperial drag times 4.44822 is that drag; a shown CD is at least CD0 whenever k > 0 |
| LiftDragTool.DashboardFacts | tools/lift_drag_tool.py:41-83 | the page crashes exactly when V, S or b is 0; otherwise the shown lift is the entered weight (lb, or mass·9.81 N), the shown speed is the entered one, and CD ≥ CD0 when S > 0 |
| LiftDragTool.ImperialDashboardConverts | tools/lift_drag_tool.py:74-81 | imperial drag times 4.44822 and density times 515.3788 give back the SI values, with the imperial unit labels |
| LiftDragTool.MetricDensityShown | tools/lift_drag_tool.py:58-80 | a metric form within the model's altitude range with nonzero V, S and b shows the dashboard, with the atmosphere's density at the converted altitude |
| LiftDragTool.AsWrittenDensityTooHigh | tools/lift_drag_tool.py:58-80 | for a metric form at an altitude in (0, 11000] m, both pages show the dashboard and the density shown as written is strictly greater than the corrected one |
| Breguet.Range | tools/fuel_range_tool.py:83 | the range in metres times the fuel flow per second c/3600 is V·L/D·ln(Wi/Wf) |
| Breguet.Endurance | tools/fuel_range_tool.py:88 | the endurance in hours times c is L/D·ln(Wi/Wf) |
| Breguet.RangeIsSpeedTimesEndurance | tools/fuel_range_tool.py:83-88 | range in metres = 3600·V·endurance in hours |
| Breguet.RangePositive | tools/fuel_range_tool.py:83-88 | with positive V, c and L/D and Wi > Wf > 0, range and endurance are positive |
| Breguet.NoFuelNoRange | tools/fuel_range_tool.py:83-88 | with no fuel burned (Wi = Wf), range and endurance are 0 |
| Breguet.RangeGrowsWithFuel | tools/fuel_range_tool.py:83 | more initial mass for the same final mass gives strictly more range |
| Breguet.RangeOfFinalMass | tools/city_to_city_tool.py:190-197 | the final mass Wi/exp(c_sec·d/(V·LD)) is positive, and the Breguet range from Wi to it is exactly d |
| Breguet.FinalMassAfter | tools/city_to_city_tool.py:196 | the final mass times exp(c_sec·d/(V·LD)) is Wi, and it is positive exactly when Wi is |
| Breguet.RangeFallsWithFinalMass | tools/city_to_city_tool.py:190-197 | a larger final mass gives strictly less range |
| FuelRangeTool.ToSi | tools/fuel_range_tool.py:28-44 | imperial: speed times 3.28084 and each mass divided by 0.453592 give back the entered values; metric: the entered values unchanged; within the input minimums the speed and passenger mass are positive and the masses non-negative |
| FuelRangeTool.InitialMass | tools/fuel_range_tool.py:47-48 | Wi is the entered empty, fuel and passenger weights added up: in kg as entered, or in lb times 0.453592 |
| FuelRangeTool.Run | tools/fuel_range_tool.py:47-103 | the weight error shows exactly when the fuel is 0 or empty plus passengers is 0. Otherwise: Wi − Wf is the fuel; Wf is empty plus passengers; range and endurance are positive; range = 3600·V·endurance; km·1000 = m; nothing divides by zero and the drag is the level-flight drag at ρ = 1.225 with lift Wi·9.81; drag > 0; burn time·c_sec·D = fuel; minutes and hours are seconds/60 and seconds/3600 |
| FuelRangeTool.RunIsBreguet | tools/fuel_range_tool.py:73-88 | when the page computes, Wi > Wf > 0 and the range and endurance shown are the Breguet range and endurance from Wi down to Wf |
| FuelRangeTool.CruiseFor | tools/fuel_range_tool.py:83-88 | the range and endurance are the Breguet values; both are positive, and range = 3600·V·endurance |
| FuelRangeTool.DisplayFor | tools/fuel_range_tool.py:105-119 | imperial: the weights times 0.453592 are the kg values, range = km·0.621371 in "mi", speed = m/s·3.28084 in "ft/s"; metric: the kg, km and m/s values as computed; the nautical miles are passed through |
| FuelRangeTool.FuelBurn | tools/fuel_range_tool.py:91-103 | nothing divides by zero, the drag is the level-flight drag at ρ = 1.225 with lift Wi·9.81, it is positive, and burn time·c_sec·D = fuel |
| FuelRangeTool.BurnTime | tools/fuel_range_tool.py:101 | the burn time times the burn rate is the fuel mass |
| FuelRangeTool.RejectsExactly | tools/fuel_range_tool.py:73-78 | the error shows exactly when the entered fuel is 0, or the empty weight and the passenger count are both 0 |
| FuelRangeTool.ImperialSummaryInEnteredUnits | tools/fuel_range_tool.py:84-112 | imperial weights and speed are shown back in lb and ft/s as entered: initial weight = empty + fuel + passengers; the range shows as km·0.621371 mi and km·0.539957 nmi |
| FuelRangeTool.MetricSummaryInEnteredUnits | tools/fuel_range_tool.py:84-119 | metric weights and speed are shown in kg and m/s as entered; the range shows in km and as km·0.539957 nmi |
| MissionPlannerTool.ToKg | tools/mission_planner_tool.py:16-17 | kilograms divided by 0.453592 give back the pounds |
| MissionPlannerTool.FromKg | tools/mission_planner_tool.py:22-23 | pounds times 0.453592 give back the kilograms |
| MissionPlannerTool.ToMps | tools/mission_planner_tool.py:19-20 | m/s divided by 0.514444 give back the knots |
| MissionPlannerTool.FromKm | tools/mission_planner_tool.py:25-26 | nautical miles times 1.852 give back the kilometres |
| MissionPlannerTool.MassConversionsInverse | tools/mission_planner_tool.py:16-23 | `to_kg` and `from_kg` are mutual inverses |
| MissionPlannerTool.MissionPlanAsWritten | tools/mission_planner_tool.py:54-100 | the page as written: the weight error shows exactly when the weights are rejected; with accepted weights and cruise speed 0, the page crashes on an uncaught ZeroDivisionError |
| MissionPlannerTool.MissionPlan | tools/mission_planner_tool.py:54-100 | the corrected page: the weight error as before; speed 0 gives an input error instead of a crash; otherwise the plan is the as-written one |
| MissionPlannerTool.WeightsRejectedIff | tools/mission_planner_tool.py:60-67 | the weights are rejected exactly when the fuel is ≤ 0 or ≥ the total weight, in either unit system |
| MissionPlannerTool.ZeroCruiseSpeedCrashes | tools/mission_planner_tool.py:36-100 | 35000 kg total, 10000 kg fuel and speed 0 crash as written and give the input error when corrected |
| MissionPlannerTool.PlanFor | tools/mission_planner_tool.py:70-97 | range = the Breguet range from the total mass to total minus fuel; km·1000 = m; nmi = km·0.539957; mi = km·0.621371; time·3600·V = range; the fuel shown is the fuel in kg, or in lb times 0.453592 |
| MissionPlannerTool.PlannedMission | tools/mission_planner_tool.py:70-90 | range > 0; time in hours is the Breguet endurance LD·ln(Wi/Wf)/c, whatever the speed; range = 3600·V·time; km·1000 = m; the fuel shown is the fuel entered; nmi = km·0.539957 and mi = km·0.621371 |
| CityToCityTool.Catalog | tools/city_to_city_tool.py:73-151 | the dictionary's 11 aircraft in order, with distinct names as dictionary keys have |
| CityToCityTool.CatalogWellFormed | tools/city_to_city_tool.py:73-151 | each catalog aircraft has positive speed, SFC and L/D and 0 < fuel capacity < MTOW |
| CityToCityTool.Evaluate | tools/city_to_city_tool.py:181-211 | a listed row carries the aircraft's own name |
| CityToCityTool.MaxRange | tools/city_to_city_tool.py:190-192 | the Breguet maximum range of a well-formed aircraft is positive |
| CityToCityTool.EvaluateWellFormed | tools/city_to_city_tool.py:186-201 | a well-formed aircraft never raises. It is listed exactly when distance_m ≤ R_max. When listed, 0 ≤ fuel needed ≤ fuel capacity and time·0.85·V·3600 = distance_m |
| CityToCityTool.FlightTime | tools/city_to_city_tool.py:200-201 | the flight time at 85 % of cruise speed covers the distance exactly |
| CityToCityTool.ListedRows | tools/city_to_city_tool.py:179-211 | the loop lists at most one row per aircraft |
| CityToCityTool.ScreenAircraft | tools/city_to_city_tool.py:179-211 | the loop's rows are the listed rows, in catalog order |
| CityToCityTool.InRange | tools/city_to_city_tool.py:194 | an aircraft is in range exactly when it is in the list and the distance in metres is at most its maximum range |
| CityToCityTool.ListedRowsAreInRange | tools/city_to_city_tool.py:179-211 | the rows correspond one-to-one, in order, to the in-range aircraft; each row has that aircraft's name and a fuel need within its capacity |
| CityToCityTool.FewerRowsFarther | tools/city_to_city_tool.py:194 | a longer route never lists more aircraft |
| CityToCityTool.ZeroDistanceListsAll | tools/city_to_city_tool.py:194-201 | distance 0 lists every aircraft, in order, with time 0 and fuel 0 |
| CityToCityTool.CatalogNeverRaises | tools/city_to_city_tool.py:181-211 | no catalog aircraft reaches the exception handler at any non-negative distance |
| CityToCityTool.MaxRangeBelowBound | tools/city_to_city_tool.py:190-192 | the maximum range is at most (V/c_sec)·LD·(fuel/(MTOW − fuel)), since ln x ≤ x − 1 |
| CityToCityTool.CatalogRangeBound | tools/city_to_city_tool.py:73-151 | that bound is at most 36000 km for every catalog aircraft |
| CityToCityTool.NoneInRangeListsNothing | tools/city_to_city_tool.py:179-211 | when every aircraft's maximum range is below the distance, no row is listed |
| CityToCityTool.FarRouteListsNothing | tools/city_to_city_tool.py:179-215 | a route longer than 36000 km lists no aircraft, so the page shows its warning |
| CityToCityTool.InsertByFuel | tools/city_to_city_tool.py:233 | inserting a row keeps the list sorted by fuel and adds exactly that row |
| CityToCityTool.SortByFuel | tools/city_to_city_tool.py:233 | the table is sorted by fuel needed, ascending, and is a permutation of the rows |
| CityToCityTool.TotalTimeBounds | tools/city_to_city_tool.py:218 | the sum of n flight times lies between n·lo and n·hi |
| CityToCityTool.AverageWithinBounds | tools/city_to_city_tool.py:218 | the average flight time lies between the smallest and the largest bound of the rows |
| CityToCityTool.CompareAircraft | tools/city_to_city_tool.py:179-235 | the warning shows exactly when no aircraft is listed; otherwise the average is that of the listed rows and the table is those rows sorted by fuel |
| PyStr.Upper | build_airports_min.py:21-40 | upper-casing keeps the length and maps each character by the ASCII upper-case mapping, so no lower-case ASCII letter is left |
| PyStr.Lower | build_airports_min.py:32 | lower-casing keeps the length and maps each character by the ASCII lower-case mapping, so no upper-case ASCII letter is left |
| PyStr.Strip | build_airports_min.py:21-40 | the result is the slice that remains after cutting only whitespace from both ends, and neither of its ends is whitespace |
| PyStr.StripIdempotent | build_airports_min.py:21 | stripping twice is stripping once |
| PyStr.StrippedIsFixed | build_airports_min.py:21 | a string with no outer whitespace is its own strip |
| PyStr.UpperKeepsStripped | build_airports_min.py:21 | upper-casing a stripped string leaves it stripped |
| PyStr.UpperIdempotent | build_airports_min.py:21 | upper-casing twice is upper-casing once |
| BuildAirports.Field | build_airports_min.py:21-40 | a present column reads as its value and a missing column as the empty string |
| BuildAirports.Code | build_airports_min.py:21-40 | a code is the upper-cased strip of the field, so it is stripped, upper-case, and as long as the stripped field |
| BuildAirports.OptionalCode | build_airports_min.py:37 | the IATA code is None exactly when the stripped field is empty; otherwise it is the field's code, non-empty, stripped and upper-case |
| BuildAirports.Normalise | build_airports_min.py:20-43 | a row is dropped exactly when its stripped ident is shorter than 3, a coordinate does not parse, or its type is "closed" in any case; every kept entry has a stripped upper-case ICAO code of at least 3 characters, an IATA code that is None or non-empty, stripped and upper-case, stripped name and city, and a stripped upper-case country |
| BuildAirports.ClosedInAnyCase | build_airports_min.py:32 | "closed", "CLOSED" and "Closed" are all closed |
| BuildAirports.OnlyClosedIsClosed | build_airports_min.py:32 | an empty type and "closed_heliport" are not closed |
| BuildAirports.NormaliseRendered | build_airports_min.py:20-43 | an entry in the form the builder produces, written back as a row whose coordinates parse to themselves, normalises to itself |
| BuildAirports.Kept | build_airports_min.py:17-43 | the output is never longer than the input |
| BuildAirports.BuildAirportList | build_airports_min.py:17-43 | the loop's output is the normalised rows, in input order |
| BuildAirports.NormalisedCanonical | build_airports_min.py:17-43 | every entry of the output is canonical |
| BuildAirports.NormalisedAppend | build_airports_min.py:17-43 | the rows are processed independently and in order: the output for concatenated inputs is the concatenation of the outputs |
| BuildAirports.NormalisedExactly | build_airports_min.py:17-43 | an entry is in the output exactly when some input row normalises to it |

## Left out

- Streamlit presentation is left out: widgets, columns, metrics, markdown, spinners, Lottie animations, and the page routing and session state of `isa_app.py`. Each page's form is a parameter, bounded by the limits its number inputs enforce.
- Network and file I/O are left out: `load_lottieurl`, the city geocoding and weather look-ups in the city-to-city page, the CSV download and the JSON file write in `build_airports_min.py`. The CSV rows are a parameter.
- The great-circle distance from `geopy` is an input, `distanceKm`.
- `tools/ai_assistant_tool.py` and `tools/isa_designer_tool.py` are not part of this model. They are an LLM chat client and a drawing script.
- Floating point is left out: IEEE rounding, NaN and infinity, `round()` on the table values, and format-string precision. Arithmetic is exact over the reals.
- ln, exp and sqrt are known only through the laws in `Elementary.Lawful` and `AboveTangent`, not through their numeric values. The continuity of pressure at the layer boundaries depends on the rounded base pressures, so it is not stated.
- `safe_float` is a parameter of type `string -> Option<real>`. Python's float syntax is not modelled.
- Case mapping is ASCII only. Python's `upper()` and `lower()` also map non-ASCII letters.
- Whitespace is Python's `isspace` set. No lemma covers a type column padded with whitespace, such as " Closed "; the `IsClosed` definition strips it first, as the source does.
- CityToCityTool.SortByFuel: it sorts on the exact fuel value, not on the value rounded to 0.1 kg. Like pandas' default quicksort, it promises no order among equal keys.
- CityToCityTool.CompareAircraft: the average uses the exact times, not the times rounded to 0.01 h that the table holds.
- MissionPlannerTool.FromKm: it is modelled, but no page calls it.

## Findings

| source | as written | input that shows it | evidently intended | confidence | as-written member | corrected member |
|---|---|---|---|---|---|---|
| utils.py:37 | the troposphere pressure uses the exponent g/(-0.0065·R), which is negative, so P = 101325·(T/288.15)^(negative) rises above sea level | any 0 < h ≤ 11000, e.g. h = 11000: T/288.15 < 1, so P > 101325 Pa (about 4.5e5 Pa), far above the 22632.06 Pa the next layer starts from | exponent g/(0.0065·R), so pressure falls with altitude | not executed | Utils.IsaAtmosphereAsWritten (with Utils.AsWrittenTropospherePressureRises and Utils.AsWrittenTroposphereTooDense); the ISA page, IsaTool.IsaPage at `TroposphereExponentAsWritten`, shows the high pressure (IsaTool.TropospherePressureShown); the lift/drag page, LiftDragTool.LiftDragPage at `TroposphereExponentAsWritten`, uses the high density (LiftDragTool.AsWrittenDensityTooHigh) | Utils.IsaAtmosphere (with Utils.TropospherePressureBelowSeaLevel and Utils.PressureFallsWithinLayer); IsaTool.IsaPage and LiftDragTool.LiftDragPage at `TroposphereExponent`. The Mach page reads only the speed of sound, which does not depend on the exponent |
| tools/mission_planner_tool.py:36-100 | the cruise speed input allows 0.0, line 80 divides by V, and the handler catches only ValueError | metric, total 35000 kg, fuel 10000 kg, cruise speed 0: R_m is 0.0 and 0.0/0.0 raises an uncaught ZeroDivisionError | reject a zero cruise speed with an input error | not executed | MissionPlannerTool.MissionPlanAsWritten (with MissionPlannerTool.ZeroCruiseSpeedCrashes) | MissionPlannerTool.MissionPlan |
