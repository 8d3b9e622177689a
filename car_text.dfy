/** Reading a car back from its textual summary: the summary loses nothing. */
module CarText {
  import opened Wrappers
  import opened Text
  import opened Engines
  import opened Cars

  /** The summary after the engine label: both flags and the closing brace. */
  function FlagsText(hasGPS: bool, hasTripComputer: bool): string {
    ", hasGPS=" + (BoolToString(hasGPS) + (", hasTripComputer=" + (BoolToString(hasTripComputer) + "}")))
  }

  function ParseFlags(s: string): Option<(bool, bool)> {
    var a :- StripPrefix(", hasGPS=", s);
    var gps :- ParseBool(a);
    var b :- StripPrefix(", hasTripComputer=", gps.1);
    var trip :- ParseBool(b);
    if trip.1 == "}" then Some((gps.0, trip.0)) else None
  }

  lemma FlagsRoundTrip(hasGPS: bool, hasTripComputer: bool)
    ensures ParseFlags(FlagsText(hasGPS, hasTripComputer)) == Some((hasGPS, hasTripComputer))
  {
    var last := BoolToString(hasTripComputer) + "}";
    var tail := ", hasTripComputer=" + last;
    var mid := BoolToString(hasGPS) + tail;
    StripPrefixConcat(", hasGPS=", mid);
    BoolRoundTrip(hasGPS, tail);
    StripPrefixConcat(", hasTripComputer=", last);
    BoolRoundTrip(hasTripComputer, "}");
  }

  /** The summary after the seat count. */
  function EngineText(engine: Engine, hasGPS: bool, hasTripComputer: bool): string {
    ", engine=" + (engine.GetType() + FlagsText(hasGPS, hasTripComputer))
  }

  function ParseEngineText(s: string): Option<(Engine, bool, bool)> {
    var a :- StripPrefix(", engine=", s);
    var e :- ParseEngine(a);
    var flags :- ParseFlags(e.1);
    Some((e.0, flags.0, flags.1))
  }

  lemma EngineTextRoundTrip(engine: Engine, hasGPS: bool, hasTripComputer: bool)
    ensures ParseEngineText(EngineText(engine, hasGPS, hasTripComputer)) == Some((engine, hasGPS, hasTripComputer))
  {
    var tail := FlagsText(hasGPS, hasTripComputer);
    StripPrefixConcat(", engine=", engine.GetType() + tail);
    EngineRoundTrip(engine, tail);
    FlagsRoundTrip(hasGPS, hasTripComputer);
  }

  /** Inverse of Car.ToString. */
  function ParseCar(s: string): Option<Car> {
    var a :- StripPrefix("Car{seats=", s);
    var k := IntSpan(a);
    var n :- ParseInt(a[..k]);
    var rest :- ParseEngineText(a[k..]);
    if -0x8000_0000 <= n < 0x8000_0000 then Some(Car(n as int32, rest.0, rest.1, rest.2)) else None
  }

  /** Concatenation regrouped to the right. */
  lemma Regroup(a: string, b: string, c: string, d: string, e: string, f: string, g: string, h: string, i: string)
    ensures a + b + c + d + e + f + g + h + i == a + (b + (c + (d + (e + (f + (g + (h + i)))))))
  {
  }

  /** Car.ToString regrouped so that each field's text starts a suffix. */
  lemma ToStringShape(car: Car)
    ensures car.ToString() ==
      "Car{seats=" + (IntToString(car.seats as int) + EngineText(car.engine, car.hasGPS, car.hasTripComputer))
  {
    Regroup("Car{seats=", IntToString(car.seats as int), ", engine=", car.engine.GetType(),
      ", hasGPS=", BoolToString(car.hasGPS), ", hasTripComputer=", BoolToString(car.hasTripComputer), "}");
  }

  lemma ToStringRoundTrip(car: Car)
    ensures ParseCar(car.ToString()) == Some(car)
  {
    var x := IntToString(car.seats as int);
    var tail := EngineText(car.engine, car.hasGPS, car.hasTripComputer);
    var a := x + tail;
    ToStringShape(car);
    StripPrefixConcat("Car{seats=", a);
    assert tail[0] == ',';
    IntSpanOfIntToString(car.seats as int, tail);
    assert a[..|x|] == x && a[|x|..] == tail;
    IntToStringRoundTrip(car.seats as int);
    EngineTextRoundTrip(car.engine, car.hasGPS, car.hasTripComputer);
  }

  /** Two cars with the same summary are the same car. */
  lemma ToStringInjective(c1: Car, c2: Car)
    ensures c1.ToString() == c2.ToString() <==> c1 == c2
  {
    if c1.ToString() == c2.ToString() {
      ToStringRoundTrip(c1);
      ToStringRoundTrip(c2);
    }
  }
}
