/**
 * The initializers of learn-swift/book/Initialization.swift: default property values,
 * memberwise, failable and throwing construction, value-type delegation, convenience
 * initializers and subclass initializers that run `super.init()` and then overwrite an
 * inherited property.
 */
module Initialization {
  import opened Swift

  // ---------------------------------------------------------------------------
  // Default property values: the first `struct Car` (wheels default to 4)
  // ---------------------------------------------------------------------------

  /** The first `struct Car` of the file: `wheelsAmount` defaults to 4, `model` is passed in. */
  datatype ModelCar<Model> = ModelCar(wheelsAmount: Int64, model: Model)

  /** `init(model:)`: stores the model and leaves `wheelsAmount` at its default of 4. */
  function NewModelCar<Model>(model: Model): (c: ModelCar<Model>)
    ensures c.model == model && c.wheelsAmount == 4
  {
    ModelCar(4, model)
  }

  // ---------------------------------------------------------------------------
  // Several initializers: Color
  // ---------------------------------------------------------------------------

  datatype Color = Color(red: Double, green: Double, blue: Double)

  /** `init(red:green:blue:)`: each component is stored as given. */
  function NewColor(red: Double, green: Double, blue: Double): (c: Color)
    ensures c.red == red && c.green == green && c.blue == blue
  {
    Color(red, green, blue)
  }

  /** `init(white:)`: the one value is stored in all three components. */
  function WhiteColor(white: Double): (c: Color)
    ensures c.red == white && c.green == white && c.blue == white
  {
    Color(white, white, white)
  }

  /** A color whose three components are equal. */
  predicate IsGray(c: Color)
  {
    c.red == c.green == c.blue
  }

  /**
   * `init(white: w)` builds the same color as `init(red: w, green: w, blue: w)`, and the colors
   * it can build are exactly the gray ones.
   */
  lemma WhiteColorsAreGray(w: Double, c: Color)
    ensures WhiteColor(w) == NewColor(w, w, w)
    ensures IsGray(c) <==> c == WhiteColor(c.red)
  {
  }

  // ---------------------------------------------------------------------------
  // Memberwise initializer: Size
  // ---------------------------------------------------------------------------

  datatype Size = Size(width: Int64, height: Int64, mass: Int64)

  /** The synthesized memberwise initializer; `mass` may be omitted and then takes its default of 200. */
  function NewSize(width: Int64, height: Int64, mass: Int64 := 200): (s: Size)
    ensures s.width == width && s.height == height && s.mass == mass
  {
    Size(width, height, mass)
  }

  /** `Size(width: 2, height: 2)` keeps the default mass. */
  lemma Couple()
    ensures NewSize(2, 2).mass == 200 && NewSize(2, 2) == NewSize(2, 2, 200)
  {
  }

  // ---------------------------------------------------------------------------
  // Value-type delegation: the second `struct Car` and SuperCar
  // ---------------------------------------------------------------------------

  datatype CarEngineType = Petrol | Disel | Hybrid | Electro | SuperEngine

  /** The second `struct Car` of the file: only an engine type, defaulting to `.petrol`. */
  datatype Car = Car(engineType: CarEngineType)

  /** The synthesized `Car()` / `Car(engineType:)`: the engine type defaults to `.petrol`. */
  function NewCar(engineType: CarEngineType := Petrol): (c: Car)
    ensures c.engineType == engineType
  {
    Car(engineType)
  }

  /** `struct SuperCar`, whose stored `car` defaults to `Car()`. */
  class SuperCar {
    var car: Car

    /** `init()`: the car keeps its default, a petrol engine. */
    constructor ()
      ensures car == NewCar(Petrol)
    {
      car := NewCar();
    }

    /** `init(engineType:)`: starts from the default car and changes its engine type in place. */
    constructor WithEngineType(engineType: CarEngineType)
      ensures car == NewCar(engineType)
    {
      car := NewCar();
      new;
      SetEngineType(engineType);
    }

    /**
     * `init(superEngineFirstType:superEngineSecondType:)`: ignores both arguments and delegates
     * to `init(engineType: .superEngine)`.
     */
    constructor WithSuperEngines(superEngineFirstType: CarEngineType, superEngineSecondType: CarEngineType)
      ensures car == NewCar(SuperEngine)
    {
      car := NewCar();
      new;
      SetEngineType(SuperEngine);
    }

    /** The statement `car.engineType = engineType`: only the engine type of the stored car changes. */
    method SetEngineType(engineType: CarEngineType)
      modifies this
      ensures car == old(car).(engineType := engineType)
    {
      car := car.(engineType := engineType);
    }
  }

  /** The three cars the file prints: petrol, hybrid and super engine. */
  method SuperCarExamples() returns (defaultCar: SuperCar, hybridCar: SuperCar, superCar: SuperCar)
    ensures defaultCar.car.engineType == Petrol
    ensures hybridCar.car.engineType == Hybrid
    ensures superCar.car.engineType == SuperEngine
  {
    defaultCar := new SuperCar();
    hybridCar := new SuperCar.WithEngineType(Hybrid);
    superCar := new SuperCar.WithSuperEngines(Disel, Electro);
  }

  // ---------------------------------------------------------------------------
  // Failable initializer: FuelTank
  // ---------------------------------------------------------------------------

  datatype FuelTank = FuelTank(currentAmount: Int64, currentLiquidType: Option<string>)

  /**
   * `init?(currentAmount:currentLiquidType:)`: `nil` exactly for a negative amount; otherwise
   * a tank holding both arguments unchanged (a `nil` liquid type included).
   */
  function NewFuelTank(currentAmount: Int64, currentLiquidType: Option<string>): (t: Option<FuelTank>)
    ensures t.None? <==> currentAmount < 0
    ensures t.Some? ==> t.value.currentAmount == currentAmount && t.value.currentLiquidType == currentLiquidType
  {
    if currentAmount < 0 then None
    else Some(FuelTank(currentAmount, currentLiquidType))
  }

  /** The tanks the failable initializer can build are exactly those with a non-negative amount. */
  lemma FuelTankImage(t: FuelTank)
    ensures NewFuelTank(t.currentAmount, t.currentLiquidType) == Some(t) <==> t.currentAmount >= 0
  {
  }

  /** `FuelTank(currentAmount: -100, currentLiquidType: "Nitro")` is `nil`, so the `if let` body is skipped. */
  lemma NitroTankFails()
    ensures NewFuelTank(-100, Some("Nitro")) == None
  {
  }

  // ---------------------------------------------------------------------------
  // Throwing initializer: Astronaut
  // ---------------------------------------------------------------------------

  /** `struct Astronaut`; the datatype constructor is the plain storing `init(name:age:)`. */
  datatype Astronaut = Astronaut(name: string, age: Int64)

  /** `enum InvalidAstronautDataError: Error`. */
  datatype InvalidAstronautDataError = EmptyName | InvalidAge

  /** The rule the throwing initializer enforces: a non-empty name and an age from 18 to 70. */
  predicate ValidAstronautData(name: string, age: Int64)
  {
    name != "" && 18 <= age <= 70
  }

  /**
   * The throwing `init(name:age:)`: an empty name throws `EmptyName` whatever the age; otherwise an
   * age outside 18...70 throws `InvalidAge`; otherwise both values are stored as given.
   */
  function NewAstronaut(name: string, age: Int64): (r: Result<Astronaut, InvalidAstronautDataError>)
    ensures r == Failure(EmptyName) <==> name == ""
    ensures r == Failure(InvalidAge) <==> name != "" && (age < 18 || age > 70)
    ensures r.Success? <==> ValidAstronautData(name, age)
    ensures r.Success? ==> r.value.name == name && r.value.age == age
  {
    if |name| == 0 then Failure(EmptyName)
    else if age < 18 || age > 70 then Failure(InvalidAge)
    else Success(Astronaut(name, age))
  }

  /** The name is checked before the age: an empty name with an invalid age still throws `EmptyName`. */
  lemma EmptyNameCheckedFirst(age: Int64)
    requires age < 18 || age > 70
    ensures NewAstronaut("", age) == Failure(EmptyName)
  {
  }

  /** Every astronaut with valid data is rebuilt unchanged by the throwing initializer, and only those are built. */
  lemma AstronautImage(a: Astronaut)
    ensures NewAstronaut(a.name, a.age) == Success(a) <==> ValidAstronautData(a.name, a.age)
  {
  }

  /** `try? Astronaut(name: "Johnny Cosmoseed", age: 42)` succeeds, and with age 17 it is `nil`. */
  lemma Johnny()
    ensures NewAstronaut("Johnny Cosmoseed", 42).ToOption() == Some(Astronaut("Johnny Cosmoseed", 42))
    ensures NewAstronaut("Johnny Cosmoseed", 17).ToOption() == None
  {
  }

  // ---------------------------------------------------------------------------
  // Designated and convenience initializers: Movie
  // ---------------------------------------------------------------------------

  datatype Movie = Movie(title: string, director: string, budget: Int64)

  /** The designated `init(title:director:budget:)`: all three values are stored as given. */
  function NewMovie(title: string, director: string, budget: Int64): (m: Movie)
    ensures m.title == title && m.director == director && m.budget == budget
  {
    Movie(title, director, budget)
  }

  /** `convenience init(title:)`: delegates with director "Unknown" and budget 0. */
  function MovieTitled(title: string): (m: Movie)
    ensures m.title == title && m.director == "Unknown" && m.budget == 0
  {
    NewMovie(title, "Unknown", 0)
  }

  /** `convenience init(title:director:)`: delegates with budget 0. */
  function MovieTitledDirected(title: string, director: string): (m: Movie)
    ensures m.title == title && m.director == director && m.budget == 0
  {
    NewMovie(title, director, 0)
  }

  /**
   * Both convenience initializers end in the designated one with fixed defaults; `init(title:)`
   * is `init(title:director:)` with director "Unknown"; and the movies `init(title:director:)`
   * builds are exactly those with budget 0.
   */
  lemma ConvenienceDelegation(title: string, director: string, m: Movie)
    ensures MovieTitled(title) == NewMovie(title, "Unknown", 0)
    ensures MovieTitledDirected(title, director) == NewMovie(title, director, 0)
    ensures MovieTitled(title) == MovieTitledDirected(title, "Unknown")
    ensures m == MovieTitledDirected(m.title, m.director) <==> m.budget == 0
  {
  }

  // ---------------------------------------------------------------------------
  // Subclass initializers that overwrite an inherited property after super.init()
  // ---------------------------------------------------------------------------

  /** `class Vehicle` with its default designated `init()`: `numberOfWheels` starts at 0. */
  class Vehicle {
    var numberOfWheels: Int64

    constructor ()
      ensures numberOfWheels == 0
    {
      numberOfWheels := 0;
    }
  }

  /**
   * `class Bicycle: Vehicle`. The inherited part is the `Vehicle` object `vehicle`, built by
   * `super.init()`; `override init()` then sets the inherited `numberOfWheels` to 2.
   */
  class Bicycle {
    const vehicle: Vehicle

    constructor ()
      ensures fresh(vehicle) && vehicle.numberOfWheels == 2
    {
      vehicle := new Vehicle();
      new;
      vehicle.numberOfWheels := 2;
    }
  }

  /** The second `class Main` of the file: `a` defaults to 10. */
  class Main {
    var a: Int64

    constructor ()
      ensures a == 10
    {
      a := 10;
    }
  }

  /**
   * `class Secondary: Main`. `init(b:)` stores its own `b` first, runs `super.init()` (the
   * inherited part `base`, with `a` at 10), then overwrites the inherited `a` with 12.
   */
  class Secondary {
    const b: string
    const base: Main

    constructor (b: string)
      ensures this.b == b && fresh(base) && base.a == 12
    {
      this.b := b;
      base := new Main();
      new;
      base.a := 12;
    }
  }
}
