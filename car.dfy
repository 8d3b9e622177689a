/** The immutable Car value and the mutable Builder that produces it. */
module Cars {
  import opened Wrappers
  import opened Text
  import opened Engines

  /** Java's 32-bit `int`. */
  newtype int32 = x: int | -0x8000_0000 <= x < 0x8000_0000

  /** The two reasons `build()` refuses to produce a car. */
  const EngineNotSet := "Engine must be set!"
  const SeatsNotPositive := "Seats must be greater than 0!"

  /** A car: its fields are fixed at construction, and the destructors
      `seats`, `engine`, `hasGPS` and `hasTripComputer` are its getters. */
  datatype Car = Car(seats: int32, engine: Engine, hasGPS: bool, hasTripComputer: bool) {
    /** What a successful build guarantees. */
    predicate Valid() {
      seats > 0
    }

    /** The fixed-layout summary of all four fields. */
    function ToString(): string {
      "Car{seats=" + IntToString(seats as int) +
      ", engine=" + engine.GetType() +
      ", hasGPS=" + BoolToString(hasGPS) +
      ", hasTripComputer=" + BoolToString(hasTripComputer) +
      "}"
    }
  }

  /** Stages the four fields of a car; an absent engine is `None`. */
  class Builder {
    var seats: int32
    var engine: Option<Engine>
    var hasGPS: bool
    var hasTripComputer: bool

    constructor ()
      ensures seats == 0 && engine == None && !hasGPS && !hasTripComputer
    {
      seats, engine, hasGPS, hasTripComputer := 0, None, false, false;
    }

    method SetSeats(seats: int32) returns (self: Builder)
      modifies this
      ensures self == this && this.seats == seats
      ensures engine == old(engine) && hasGPS == old(hasGPS) && hasTripComputer == old(hasTripComputer)
    {
      this.seats := seats;
      self := this;
    }

    method SetEngine(engine: Option<Engine>) returns (self: Builder)
      modifies this
      ensures self == this && this.engine == engine
      ensures seats == old(seats) && hasGPS == old(hasGPS) && hasTripComputer == old(hasTripComputer)
    {
      this.engine := engine;
      self := this;
    }

    method SetGPS(hasGPS: bool) returns (self: Builder)
      modifies this
      ensures self == this && this.hasGPS == hasGPS
      ensures seats == old(seats) && engine == old(engine) && hasTripComputer == old(hasTripComputer)
    {
      this.hasGPS := hasGPS;
      self := this;
    }

    method SetTripComputer(hasTripComputer: bool) returns (self: Builder)
      modifies this
      ensures self == this && this.hasTripComputer == hasTripComputer
      ensures seats == old(seats) && engine == old(engine) && hasGPS == old(hasGPS)
    {
      this.hasTripComputer := hasTripComputer;
      self := this;
    }

    /** Validates the staged fields, the engine before the seats, and copies
        them into a new car. Without a modifies clause it leaves the builder as it is. */
    method Build() returns (r: Result<Car, string>)
      ensures engine == None ==> r == Failure(EngineNotSet)
      ensures engine != None && seats <= 0 ==> r == Failure(SeatsNotPositive)
      ensures r.Success? <==> engine != None && seats > 0
      ensures r.Success? ==> r.value.Valid()
      ensures r.Success? ==> r.value == Car(seats, engine.value, hasGPS, hasTripComputer)
    {
      if engine == None {
        return Failure(EngineNotSet);
      }
      if seats <= 0 {
        return Failure(SeatsNotPositive);
      }
      r := Success(Car(seats, engine.value, hasGPS, hasTripComputer));
    }
  }

  /** A builder nobody has configured refuses to build, for want of an engine. */
  method BuildUnconfigured() returns (r: Result<Car, string>)
    ensures r == Failure(EngineNotSet)
  {
    var b := new Builder();
    r := b.Build();
  }

  /** `new Builder().setSeats(s).setEngine(e).build()`: succeeds exactly for a
      positive seat count, and leaves both flags false. */
  method BuildWithSeatsAndEngine(s: int32, e: Engine) returns (r: Result<Car, string>)
    ensures s > 0 ==> r == Success(Car(s, e, false, false))
    ensures s <= 0 ==> r == Failure(SeatsNotPositive)
  {
    var b := new Builder();
    b := b.SetSeats(s);
    b := b.SetEngine(Some(e));
    r := b.Build();
  }

  /** `new Builder().setSeats(s).build()`: the engine check fails whatever `s` is. */
  method BuildWithoutEngine(s: int32) returns (r: Result<Car, string>)
    ensures r == Failure(EngineNotSet)
  {
    var b := new Builder();
    b := b.SetSeats(s);
    r := b.Build();
  }

  /** A builder stays usable after a build, whether that build failed or not,
      and what is set afterwards does not reach the car built before. */
  method ReuseAfterBuild(e: Engine) returns (first: Result<Car, string>, second: Result<Car, string>, third: Result<Car, string>)
    ensures first == Success(Car(4, e, true, false))
    ensures second == Failure(SeatsNotPositive)
    ensures third == Success(Car(7, e, true, true))
  {
    var b := new Builder();
    b := b.SetSeats(4);
    b := b.SetEngine(Some(e));
    b := b.SetGPS(true);
    first := b.Build();
    b := b.SetSeats(0);
    second := b.Build();
    b := b.SetSeats(7);
    b := b.SetTripComputer(true);
    third := b.Build();
  }

  /** Solver helper for SportsCarText, not a property of the summary format:
      the literal pieces of the sports car's summary join into one string. */
  lemma SportsCarJoin()
    ensures "Car{seats=" + "2" + ", engine=" + "Sport Engine" + ", hasGPS=" + "true" + ", hasTripComputer=" + "true" + "}" ==
      "Car{seats=2, engine=Sport Engine, hasGPS=true, hasTripComputer=true}"
  {
    assert "Car{seats=" + "2" == "Car{seats=2";
    assert "Car{seats=2" + ", engine=" == "Car{seats=2, engine=";
    assert "Car{seats=2, engine=" + "Sport Engine" == "Car{seats=2, engine=Sport Engine";
    assert "Car{seats=2, engine=Sport Engine" + ", hasGPS=" == "Car{seats=2, engine=Sport Engine, hasGPS=";
    assert "Car{seats=2, engine=Sport Engine, hasGPS=" + "true" == "Car{seats=2, engine=Sport Engine, hasGPS=true";
    assert "Car{seats=2, engine=Sport Engine, hasGPS=true" + ", hasTripComputer=" == "Car{seats=2, engine=Sport Engine, hasGPS=true, hasTripComputer=";
    assert "Car{seats=2, engine=Sport Engine, hasGPS=true, hasTripComputer=" + "true" == "Car{seats=2, engine=Sport Engine, hasGPS=true, hasTripComputer=true";
  }

  lemma SportsCarText()
    ensures Car(2, SportEngine, true, true).ToString() ==
      "Car{seats=2, engine=Sport Engine, hasGPS=true, hasTripComputer=true}"
  {
    assert IntToString(2) == "2" by {
      assert NatToString(2) == [DigitChar(2)];
    }
    SportsCarJoin();
  }

  /** Solver helper for FamilyCarText, not a property of the summary format:
      the literal pieces of the family car's summary join into one string. */
  lemma FamilyCarJoin()
    ensures "Car{seats=" + "5" + ", engine=" + "Diesel Engine" + ", hasGPS=" + "false" + ", hasTripComputer=" + "false" + "}" ==
      "Car{seats=5, engine=Diesel Engine, hasGPS=false, hasTripComputer=false}"
  {
    assert "Car{seats=" + "5" == "Car{seats=5";
    assert "Car{seats=5" + ", engine=" == "Car{seats=5, engine=";
    assert "Car{seats=5, engine=" + "Diesel Engine" == "Car{seats=5, engine=Diesel Engine";
    assert "Car{seats=5, engine=Diesel Engine" + ", hasGPS=" == "Car{seats=5, engine=Diesel Engine, hasGPS=";
    assert "Car{seats=5, engine=Diesel Engine, hasGPS=" + "false" == "Car{seats=5, engine=Diesel Engine, hasGPS=false";
    assert "Car{seats=5, engine=Diesel Engine, hasGPS=false" + ", hasTripComputer=" == "Car{seats=5, engine=Diesel Engine, hasGPS=false, hasTripComputer=";
    assert "Car{seats=5, engine=Diesel Engine, hasGPS=false, hasTripComputer=" + "false" == "Car{seats=5, engine=Diesel Engine, hasGPS=false, hasTripComputer=false";
  }

  lemma FamilyCarText()
    ensures Car(5, DieselEngine, false, false).ToString() ==
      "Car{seats=5, engine=Diesel Engine, hasGPS=false, hasTripComputer=false}"
  {
    assert IntToString(5) == "5" by {
      assert NatToString(5) == [DigitChar(5)];
    }
    FamilyCarJoin();
  }

  /** The demonstration: builds a sports car and a family car and returns the
      two lines it would print, in order. */
  method Demo() returns (lines: seq<string>)
    ensures lines == [
      "Car{seats=2, engine=Sport Engine, hasGPS=true, hasTripComputer=true}",
      "Car{seats=5, engine=Diesel Engine, hasGPS=false, hasTripComputer=false}"
    ]
  {
    var b := new Builder();
    b := b.SetSeats(2);
    b := b.SetEngine(Some(SportEngine));
    b := b.SetGPS(true);
    b := b.SetTripComputer(true);
    var sports := b.Build();

    var f := new Builder();
    f := f.SetSeats(5);
    f := f.SetEngine(Some(DieselEngine));
    f := f.SetGPS(false);
    f := f.SetTripComputer(false);
    var family := f.Build();

    SportsCarText();
    FamilyCarText();
    lines := [sports.value.ToString(), family.value.ToString()];
  }
}
