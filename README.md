# Swift object construction, modelled in Dafny

The learn-swift tutorial snippets demonstrate how Swift builds values and objects:
default property values, memberwise initializers, failable (`init?`) and throwing
(`init ... throws`) construction, delegation between a value type's initializers,
designated and convenience class initializers, subclass initializers that call
`super.init()` and then overwrite an inherited property, a protocol's computed
`fullName`, and an enum's raw values. This project models those constructors and
accessors and proves what the code and its comments say about their outcomes.

Modules, one per source file plus one for Swift's own values:

- `Swift` (swift.dfy): `Int64` (Swift's `Int`), `Double`, `Option` (Swift's
  `Optional`), and `Result` with `ToOption` (what `try?` does to a throwing call).
- `Initialization` (initialization.dfy): value types as datatypes with one function
  per initializer; `SuperCar`, `Vehicle`, `Bicycle`, `Main` and `Secondary` as classes
  whose constructors assign fields step by step.
- `Protocols` (protocols.dfy): `Starship`, its initializer and `fullName`.
- `Enums` (enums.dfy): `AssociatedNumbers`, `rawValue` and `init(rawValue:)`.

Modelling decisions:

- The throwing `init(name:age:)` at learn-swift/book/Initialization.swift:243 is
  written at top level, outside `struct Astronaut`, and the struct also declares a
  non-throwing `init(name:age:)` with the same signature. The uses at lines 256-257
  (`try?`, and "nil" for age 17) treat the throwing one as the struct's initializer,
  so `NewAstronaut` models it. The plain storing initializer is the datatype
  constructor `Astronaut`.
- `struct Car` and `class Main` are each declared twice with different shapes. The
  first `Car` (line 16) is `ModelCar`; the second (line 160) is `Car`. Only the
  second `Main` (line 365) is modelled, as `Main`.
- Inheritance becomes composition, since a Dafny class cannot extend another class:
  a `Bicycle` holds the `Vehicle` object that `super.init()` builds, and a `Secondary`
  holds the `Main` object. A constructor assigns its own fields before `new;` (Swift's
  first phase), creates the superclass part there (`super.init()`), and writes the
  inherited field after `new;` (the second phase).
- `SuperCar` is a struct in Swift. It is a class here because `init(engineType:)`
  changes `car.engineType` in place. The delegating initializer runs the same
  in-place update, `SetEngineType(.superEngine)`, after the default car is stored.
- Initialization.swift:316-323 and 392-396 state the delegation rules in comments
  only. No code implements them, so the model has none.
- `Model`, the type of the first `Car`'s `model` property (Initialization.swift:20, 22),
  is declared nowhere in the repository; `ModelCar` takes it as a type parameter.

## Model

| member | source | states |
|---|---|---|
| `Enums.RawValue` | learn-swift/book/Enums.swift:3-6 | `first` has raw value 10 and `second` has raw value 20 |
| `Enums.FromRawValue` | learn-swift/book/Enums.swift:3-10 | `init(rawValue: r)` succeeds exactly when r is 10 or 20, and the case it returns has raw value r |
| `Enums.RawValuesDistinct` | learn-swift/book/Enums.swift:3-5 | `first` is 10, `second` is 20, and two cases share a raw value only when they are the same case |
| `Enums.RoundTrip` | learn-swift/book/Enums.swift:3-6 | decoding the raw value of any case gives back that case |
| `Enums.InverseRoundTrip` | learn-swift/book/Enums.swift:3-8 | a raw value that decodes to a case equals that case's raw value |
| `Enums.LookupTen` | learn-swift/book/Enums.swift:8-12 | `AssociatedNumbers(rawValue: 10)` is `.first`, the value printed |
| `Enums.UnknownRawValue` | learn-swift/book/Enums.swift:8-10 | every raw value other than 10 and 20 gives `nil`, the path the `guard` exits on |
| `Protocols.NewStarship` | learn-swift/book/Protocols.swift:17-20 | the initializer stores name and prefix as given |
| `Protocols.FullName` | learn-swift/book/Protocols.swift:23-25 | the name is always a suffix of the full name |
| `Protocols.FullNameWithoutPrefix` | learn-swift/book/Protocols.swift:17-24 | with the prefix omitted (it defaults to nil), the full name is the name |
| `Protocols.FullNameWithPrefix` | learn-swift/book/Protocols.swift:24 | with prefix p, the full name is p, a space, then the name |
| `Protocols.PrefixedFullNameParts` | learn-swift/book/Protocols.swift:24 | a prefixed full name is one scalar longer than p and the name together, and splits back into p, one space and the name, counted in scalars |
| `Protocols.PrefixedFullNameInjective` | learn-swift/book/Protocols.swift:24 | two prefixed starships whose prefixes contain no space have the same full name only if they have the same prefix and name |
| `Protocols.Enterprise` | learn-swift/book/Protocols.swift:24-27 | `Starship(name: "Enterprise", prefix: "USS").fullName` is "USS Enterprise" |
| `Initialization.NewModelCar` | learn-swift/book/Initialization.swift:16-25 | `init(model:)` stores the model and leaves four wheels |
| `Initialization.NewColor` | learn-swift/book/Initialization.swift:61-65 | each component is stored as given |
| `Initialization.WhiteColor` | learn-swift/book/Initialization.swift:67-71 | `Color(white: w)` has red = green = blue = w |
| `Initialization.WhiteColorsAreGray` | learn-swift/book/Initialization.swift:58-75 | `Color(white: w)` equals `Color(red: w, green: w, blue: w)`, and a color is gray exactly when `init(white:)` builds it |
| `Initialization.NewSize` | learn-swift/book/Initialization.swift:129-133 | the memberwise initializer stores width, height and mass, and mass defaults to 200 when omitted |
| `Initialization.Couple` | learn-swift/book/Initialization.swift:132-136 | `Size(width: 2, height: 2)` has mass 200 |
| `Initialization.NewCar` | learn-swift/book/Initialization.swift:160-162 | `Car()` has a petrol engine; `Car(engineType: t)` has engine t |
| `Initialization.SuperCar.constructor` | learn-swift/book/Initialization.swift:164-167 | `SuperCar()` keeps the default car, whose engine is `.petrol` |
| `Initialization.SuperCar.WithEngineType` | learn-swift/book/Initialization.swift:169-171 | `SuperCar(engineType: t)` has a car with engine exactly t |
| `Initialization.SuperCar.WithSuperEngines` | learn-swift/book/Initialization.swift:173-179 | the two-argument initializer ignores both arguments and yields `.superEngine` |
| `Initialization.SuperCar.SetEngineType` | learn-swift/book/Initialization.swift:170 | the in-place update changes the car's engine type and nothing else |
| `Initialization.SuperCarExamples` | learn-swift/book/Initialization.swift:182-188 | the three cars built in the file have petrol, hybrid and super engines, as the comments beside the prints say |
| `Initialization.NewFuelTank` | learn-swift/book/Initialization.swift:201-212 | the result is nil exactly when the amount is negative; otherwise the tank holds both arguments unchanged, a nil liquid type included |
| `Initialization.FuelTankImage` | learn-swift/book/Initialization.swift:205-211 | the failable initializer rebuilds a given tank exactly when its amount is non-negative |
| `Initialization.NitroTankFails` | learn-swift/book/Initialization.swift:215-217 | the tank with amount -100 is nil, so the `if let` body does not run |
| `Initialization.NewAstronaut` | learn-swift/book/Initialization.swift:243-254 | an empty name throws `EmptyName`; a non-empty name with age below 18 or above 70 throws `InvalidAge`; only a non-empty name with age 18 to 70 succeeds, storing both as given |
| `Initialization.EmptyNameCheckedFirst` | learn-swift/book/Initialization.swift:244-250 | an empty name with an invalid age still throws `EmptyName` |
| `Initialization.AstronautImage` | learn-swift/book/Initialization.swift:235-254 | an astronaut is rebuilt unchanged exactly when its name is non-empty and its age is 18 to 70 |
| `Initialization.Johnny` | learn-swift/book/Initialization.swift:256-257 | `try?` with age 42 gives the astronaut; with age 17 it gives nil |
| `Swift.Result.ToOption` | learn-swift/book/Initialization.swift:256-257 | `try?` is non-nil exactly when the call succeeds, and then wraps the built value |
| `Initialization.NewMovie` | learn-swift/book/Initialization.swift:290-294 | the designated initializer stores title, director and budget as given |
| `Initialization.MovieTitled` | learn-swift/book/Initialization.swift:296-298 | `init(title:)` keeps the title, with director "Unknown" and budget 0 |
| `Initialization.MovieTitledDirected` | learn-swift/book/Initialization.swift:301-303 | `init(title:director:)` keeps title and director, with budget 0 |
| `Initialization.ConvenienceDelegation` | learn-swift/book/Initialization.swift:290-307 | both convenience initializers equal the designated one with their defaults; `init(title:)` is `init(title:director:)` with "Unknown"; `init(title:director:)` builds exactly the movies with budget 0 |
| `Initialization.Vehicle.constructor` | learn-swift/book/Initialization.swift:336-337 | `Vehicle()` has zero wheels |
| `Initialization.Bicycle.constructor` | learn-swift/book/Initialization.swift:351-358 | after `super.init()`, `Bicycle()` overwrites the inherited wheel count with 2 |
| `Initialization.Main.constructor` | learn-swift/book/Initialization.swift:365-367 | `Main()` has `a` at its default of 10 |
| `Initialization.Secondary.constructor` | learn-swift/book/Initialization.swift:369-376 | `Secondary(b:)` stores b and, after `super.init()`, overwrites the inherited `a` with 12 |

## Left out

- Temperature conversions (`CelsiusTemperature` and learn-swift/book/Init.swift): they are floating-point arithmetic. `CelsiusTemperature.init()` has no body at all.
- `Survey` (learn-swift/book/Initialization.swift:88-100): an optional property that starts as nil and is later assigned; it has no contract beyond that.
- The first `class Main` (learn-swift/book/Initialization.swift:108-114): it uses `True`, `False` and `Boolean?`, which are not Swift, so it does not compile.
- `Hoverboard` and `Vehicle.description`: they depend on the implicit `super.init()` call and on string interpolation of an `Int`.
- `print` calls: only the values they show are kept, as lemmas and the `SuperCarExamples` method.
- The integer width: `Int64` keeps every value in Swift's 64-bit `Int` range, but no modelled initializer does arithmetic, so there is no overflow to model.
- `Double` is modelled as `real`. NaN and infinities, which the initializers would store unchanged, are not representable, so the model covers finite values only (and `==` in `IsGray` is the equality of reals, not IEEE comparison).
- Strings are modelled as sequences of Unicode scalars: Swift's grapheme clusters (`Character`, `count`) and its canonical-equivalence `==` are not modelled. Concatenation and `isEmpty` behave the same either way; lengths and equality in the `Protocols` lemmas are counted and compared scalar by scalar.
- Reference identity of `Movie` and `Starship` (Swift classes) is not modelled: their initializers only store values and nothing in the code mutates or shares the objects, so they are datatypes.
- Value semantics of `SuperCar`: as a class it could be aliased, which a Swift struct cannot; the code never copies or shares one.
- Inheritance is composition: a `Bicycle` is not usable where a `Vehicle` is expected, and overriding is not modelled.
- learn-swift/book/CollectionTypes.swift, Closures.swift, Properties.swift and learn-swift/cake.swift are not part of this model: they demonstrate standard-library collections, closure syntax, lazy properties and UIKit plumbing, not construction.
