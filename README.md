# Car builder, modelled in Dafny

This project models `Car.java`: an immutable `Car` value built through a fluent
`Car.Builder`, with a polymorphic `Engine` chosen at construction time.

- `Engines` (`engine.dfy`): `Engine` is a closed datatype with the two kinds
  `SportEngine` and `DieselEngine`. `GetType()` returns each kind's fixed label.
  `ParseEngine` reads a label back.
- `Cars` (`car.dfy`): Java's `int` is the newtype `int32`. `Car` is an immutable
  datatype whose destructors `seats`, `engine`, `hasGPS` and `hasTripComputer`
  are the four getters. `Car.ToString()` builds the summary with the same fixed
  layout as `toString()`. `Builder` is a class with the four mutable fields and
  Java's default values. A `null` engine is `None`. The four setters assign one
  field each and return the same builder. `Build()` returns
  `Result<Car, string>`: `Failure` carries the message the Java code throws
  with. The module also has client methods for an unconfigured build,
  `setSeats` then `setEngine` then `build`, `setSeats` alone then `build`, and
  a builder reused after a build, and `Demo`, which stands for `main`.
- `Text` (`text.dfy`): the conversions Java applies when it concatenates an
  `int` or a `boolean` to a string (`IntToString`, `BoolToString`), with the
  parsers that invert them.
- `CarText` (`car_text.dfy`): `ParseCar` inverts `Car.ToString()`. It is used
  to prove that the summary loses no field.
- `Wrappers` (`wrappers.dfy`): `Option` and `Result`.

## Model

| member | source | states |
|---|---|---|
| `Engines.EngineRoundTrip` | Car.java:7-18 | the label an engine reports can be read back as that engine, whatever text follows it |
| `Engines.GetTypeInjective` | Car.java:7-18 | two engines report the same label exactly when they are the same kind ("Sport Engine" and "Diesel Engine" differ) |
| `Text.NatToString` | Car.java:47 | the decimal text of a non-negative seat count is nonempty, all digits, and has no leading zero |
| `Text.DigitsValueOfNatToString` | Car.java:47 | the digits written for `n` denote `n` |
| `Text.IntToStringRoundTrip` | Car.java:47 | the text of any `int`, negative or not, parses back to that `int` |
| `Text.IntSpanOfIntToString` | Car.java:47-48 | the seat text ends exactly where the text after it (", engine=") begins |
| `Text.BoolRoundTrip` | Car.java:49-50 | "true"/"false" are read back as the flag they were written for, whatever follows |
| `Cars.Builder.constructor` | Car.java:55-59 | a new builder has 0 seats, no engine and both flags false |
| `Cars.Builder.SetSeats` | Car.java:62-65 | stores the seat count as given, with no check, returns the same builder and changes no other field |
| `Cars.Builder.SetEngine` | Car.java:67-70 | stores the engine as given (an absent engine too), returns the same builder and changes no other field |
| `Cars.Builder.SetGPS` | Car.java:72-75 | stores the GPS flag, returns the same builder and changes no other field |
| `Cars.Builder.SetTripComputer` | Car.java:77-80 | stores the trip-computer flag, returns the same builder and changes no other field |
| `Cars.Builder.Build` | Car.java:83-91 | no engine gives "Engine must be set!" whatever the seats; an engine with seats <= 0 gives "Seats must be greater than 0!"; it succeeds exactly when an engine is set and seats > 0, and the car then holds the builder's four fields and has seats > 0; the builder is not changed |
| `Cars.BuildUnconfigured` | Car.java:55-86 | building from a fresh builder fails with "Engine must be set!" |
| `Cars.BuildWithSeatsAndEngine` | Car.java:55-91 | setting seats `s` and engine `e` then building gives the car (s, e, false, false) when s > 0, and the seats error otherwise |
| `Cars.BuildWithoutEngine` | Car.java:62-86 | setting only the seats then building fails with the engine error, whatever the seat count |
| `Cars.ReuseAfterBuild` | Car.java:25-42 | a builder can build again after a successful or a failed build; setting seats to 0 makes the next build fail, setting them to 7 and the trip computer makes the one after give (7, e, true, true), and the car built first keeps (4, e, true, false) |
| `Cars.SportsCarText` | Car.java:45-52 | the 2-seat Sport car with both flags set reads `Car{seats=2, engine=Sport Engine, hasGPS=true, hasTripComputer=true}` |
| `Cars.FamilyCarText` | Car.java:45-52 | the 5-seat Diesel car with both flags clear reads `Car{seats=5, engine=Diesel Engine, hasGPS=false, hasTripComputer=false}` |
| `Cars.Demo` | Car.java:95-112 | the demonstration builds both example cars and produces their two summaries, in that order |
| `CarText.FlagsRoundTrip` | Car.java:49-51 | the flags part of the summary parses back to both flags |
| `CarText.EngineTextRoundTrip` | Car.java:48-51 | the part of the summary after the seat count parses back to the engine and both flags |
| `CarText.ToStringRoundTrip` | Car.java:45-52 | every car's summary parses back to that same car |
| `CarText.ToStringInjective` | Car.java:45-52 | two cars have the same summary exactly when they are equal |

## Left out

- `main` prints the two summaries with `System.out.println`. `Cars.Demo` returns the two lines instead of printing them.
- Exceptions: `build()` throws `IllegalStateException`. Here it returns `Failure` with the same message. Propagation to the caller and the exception type are not modelled.
- `Engine` is an open Java interface whose implementations have object identity. Here it is a closed datatype with the two kinds, so `getEngine()` returns an equal value, not the same object.
- `Car`'s private constructor: a Dafny datatype constructor is public, so other code could make a `Car` with seats <= 0. `Car.Valid()` states what `Build` guarantees. `Build` is the only member modelling the source that creates a car. `CarText.ParseCar`, the inverse of `ToString` used only in proofs, accepts any int32 seat count so that the round trip holds for every `Car` value.
- The Car getters have no function members of their own. They are the datatype's destructors, which cannot change a field, because the datatype has no mutable state.
- The setters' fluent chaining is modelled by returning `this`. Java's `new Car.Builder()....build()` chains become a sequence of method calls on one builder.
