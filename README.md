# Lazy logging singletons and the notification factory, in Dafny

This project models the three pieces of the design-patterns demo repository that have behaviour
worth stating:

- the **guarded lazy singleton** `creational.singleton.SingletonLoggingService`: a static slot
  `loggingService`, filled by `getInstance()` on first use, and a private constructor that throws a
  RuntimeException when the slot is already populated (the defence against reflective construction);
- the **unguarded lazy singleton** `creational.SingletonLoggingService`: the same class without the
  constructor guard;
- the **notification factory** `NotificationFactory.createNotification(type)`: upper-case the key and
  select EmailNotification, SMSNotifications or WhatsAppNotification for "EMAIL", "SMS" or
  "WHATS APP", throwing IllegalArgumentException for anything else.

Files:

- `outcomes.dfy` (module `Outcomes`): Option and Result.
- `singleton_model.dfy` (module `SingletonModel`): both singletons as one state machine with a
  `Variant` flag (Guarded / Unguarded). The state is the slot and the number of completed constructions
  (the "Logging Service Initialized" lines printed). Instances are named by construction serial number,
  so "the same object" is "the same serial". `Construct` and `GetInstance` are the step functions, `Run`
  executes any sequence of calls (`getInstance()`, a bypass construction, `log`), and the lemmas state
  what holds over every such sequence.
- `singleton_service.dfy` (module `SingletonLoggingService`): the same classes as heap objects. The
  static side of the Java class is the object `LoggingServiceHolder` (fields `instance:
  Option<LoggingService>`, ghost `inits`, const `variant`). Its methods are proved against the step
  functions of `SingletonModel`; instances are `LoggingService` objects, so identity is reference
  identity. The two demo `main` methods and the bypass scenarios are client methods.
- `notification_factory.dfy` (module `NotificationFactory`): the factory as a function over strings
  with an ASCII upper-case helper, plus lemmas on letter case, the inverse `KeyOf`, and rejected keys.

`getInstance()` is an unsynchronised null check, and construction fails only through the guard; the
model follows the code.

Paths below are relative to the repository root.

## Model

| member | source | states |
|---|---|---|
| `SingletonModel.Construct` | src/main/java/com/example/design_patterns/creational/singleton/SingletonLoggingService.java:9-14 | The constructor throws AlreadyInitialized exactly when the variant is guarded and the slot is populated, and then changes nothing; otherwise it creates a new instance, with a serial never used before and so distinct from the stored one, and counts one initialisation. It never writes the slot. |
| `SingletonModel.GetInstance` | src/main/java/com/example/design_patterns/creational/singleton/SingletonLoggingService.java:17-22 | Afterwards the slot holds the returned instance. On a populated slot the state is unchanged and the stored instance is returned. On an empty slot exactly one new instance is constructed, stored and returned. |
| `SingletonModel.LogLine` | src/main/java/com/example/design_patterns/creational/singleton/SingletonLoggingService.java:24-26 | The printed line is the prefix "[Log] : " followed by the message. |
| `SingletonModel.Run` | src/main/java/com/example/design_patterns/creational/singleton/SingletonLoggingService.java:6-22 | Every call gets exactly one reply. The construction count never decreases. Any sequence of calls keeps the invariant that a stored instance is one that was constructed. |
| `SingletonModel.SlotNeverReset` | src/main/java/com/example/design_patterns/creational/SingletonLoggingService.java:6-19 | Once the slot is populated, no sequence of calls (getInstance, bypass construction, log) changes it, in either variant. |
| `SingletonModel.GetInstanceReturnsOneInstance` | src/main/java/com/example/design_patterns/creational/SingletonLoggingService.java:14-19 | Any run of getInstance() calls returns the same instance every time: the one left in the slot. At most one initialisation happens, exactly one if the slot started empty. On a populated slot nothing changes. Both variants. |
| `SingletonModel.GuardRejectsEveryLaterBypass` | src/main/java/com/example/design_patterns/creational/singleton/SingletonLoggingService.java:10-12 | Guarded variant: once the slot is populated, every bypass construction in any later sequence of calls throws AlreadyInitialized. No state changes: no new initialisation and the same stored instance. |
| `SingletonModel.UnguardedBypassAlwaysSucceeds` | src/main/java/com/example/design_patterns/creational/SingletonLoggingService.java:9-11 | Unguarded variant: after population, every bypass construction succeeds with a brand-new instance that is never the stored one. The slot keeps its instance, and the construction count grows by the number of bypasses. |
| `SingletonModel.BypassBeforeFirstUseMakesTwoInstances` | src/main/java/com/example/design_patterns/creational/singleton/SingletonLoggingService.java:9-21 | In either variant, a bypass construction on an empty slot succeeds and does not populate it. The following getInstance() then constructs and stores a second, distinct instance: two initialisations. |
| `SingletonModel.LogLeavesStateUnchanged` | src/main/java/com/example/design_patterns/creational/singleton/SingletonLoggingService.java:24-26 | Inserting a log call anywhere in any sequence of calls leaves the final slot and construction count unchanged. |
| `SingletonLoggingService.LoggingService.Log` | src/main/java/com/example/design_patterns/creational/SingletonLoggingService.java:21-23 | log(message) yields the prefixed line. It has no modifies clause, so it changes no state. |
| `SingletonLoggingService.LoggingServiceHolder.constructor` | src/main/java/com/example/design_patterns/creational/singleton/SingletonLoggingService.java:6 | The static slot starts out null and nothing has been constructed. |
| `SingletonLoggingService.LoggingServiceHolder.Construct` | src/main/java/com/example/design_patterns/creational/singleton/SingletonLoggingService.java:9-14 | The heap constructor follows `SingletonModel.Construct`. It leaves the slot unchanged. On success it returns a freshly allocated object. |
| `SingletonLoggingService.LoggingServiceHolder.GetInstance` | src/main/java/com/example/design_patterns/creational/SingletonLoggingService.java:14-19 | The heap getInstance() follows `SingletonModel.GetInstance`. It returns the very object already stored, or a freshly allocated one that it stores. |
| `SingletonLoggingService.ReflectionDemo` | src/main/java/com/example/design_patterns/creational/singleton/DesignPatternsApplication.java:7-27 | After getInstance(), the reflective construction is refused. main ends by throwing a RuntimeException that wraps reflection's InvocationTargetException, which in turn wraps the guard's RuntimeException with its message. One instance was constructed. |
| `SingletonLoggingService.SameInstanceDemo` | src/main/java/com/example/design_patterns/DesignPatternsApplication.java:14-23 | The two getInstance() calls return the same object, so the demo prints true. The service is initialised once. |
| `SingletonLoggingService.BypassBeforeFirstUse` | src/main/java/com/example/design_patterns/creational/singleton/SingletonLoggingService.java:9-22 | On the heap, guarded variant: a bypass before the first getInstance() succeeds, and getInstance() then returns a different object. |
| `SingletonLoggingService.UnguardedBypassAfterUse` | src/main/java/com/example/design_patterns/creational/SingletonLoggingService.java:9-18 | On the heap, unguarded variant: a bypass after getInstance() still succeeds and yields an object other than the stored one. |
| `NotificationFactory.ToUpper` | src/main/java/com/example/design_patterns/creational/factory/NotificationFactory.java:7 | Upper-casing keeps the length and leaves no lower-case ASCII letter. Every non-lower-case character is kept. Every lower-case letter becomes the capital 32 code points below it. |
| `NotificationFactory.CreateNotification` | src/main/java/com/example/design_patterns/creational/factory/NotificationFactory.java:5-13 | The factory returns product n exactly when the upper-cased key equals n's key. Otherwise it throws IllegalArgumentException("Unknown notification type " + key), quoting the key as given. |
| `NotificationFactory.ToUpperFixesUpperCased` | src/main/java/com/example/design_patterns/creational/factory/NotificationFactory.java:7 | A string without lower-case letters is its own upper case. |
| `NotificationFactory.ToUpperIdempotent` | src/main/java/com/example/design_patterns/creational/factory/NotificationFactory.java:7 | Upper-casing twice is the same as upper-casing once. |
| `NotificationFactory.ToUpperMatchesKey` | src/main/java/com/example/design_patterns/creational/factory/NotificationFactory.java:7-10 | For an upper-case key, a string upper-cases to the key if and only if it spells the key in some mix of letter cases. |
| `NotificationFactory.CreateOfKey` | src/main/java/com/example/design_patterns/creational/factory/NotificationFactory.java:8-10 | Each product's own key ("EMAIL", "SMS", "WHATS APP") selects that product: KeyOf is the factory's inverse. |
| `NotificationFactory.CreateAcceptsAnyCase` | src/main/java/com/example/design_patterns/creational/factory/NotificationFactory.java:7-10 | A key yields Email, Sms or WhatsApp if and only if it spells "EMAIL", "SMS" or "WHATS APP" (inner space included) in any letter case. |
| `NotificationFactory.CreateDependsOnlyOnUpperCase` | src/main/java/com/example/design_patterns/creational/factory/NotificationFactory.java:7 | A key and its upper case both succeed or both fail. If they succeed, they give the same product. |
| `NotificationFactory.CreateRejectsPaddedKeys` | src/main/java/com/example/design_patterns/creational/factory/NotificationFactory.java:7-11 | A key with a leading or trailing space is rejected, whatever it contains, because keys are not trimmed. |
| `NotificationFactory.CreateRejectsOtherKeys` | src/main/java/com/example/design_patterns/creational/factory/NotificationFactory.java:11 | "WHATSAPP" (no space), the empty key and "e-mail" are rejected, each with the exact exception message. |

## Left out

- Console output: the "Logging Service Initialized" print becomes the construction count (`inits`). The lines `log` and the demos print become returned strings, or are dropped where nothing depends on them.
- Java reflection (`getDeclaredConstructor`, `setAccessible`, `newInstance`): a reflective bypass is a direct call of `Construct`. Reflection's wrapping of the constructor's exception in an InvocationTargetException appears only in `ReflectionDemo`.
- `new LoggingService` stands only for the allocation inside `LoggingServiceHolder.Construct`. Dafny has no private constructors, so client code could call it directly; such a call models nothing in the source, and bypass constructions are modelled only through `Construct`.
- In Java the object is allocated before the guard throws, and the half-built object becomes garbage. The model allocates nothing on a refused construction.
- Threads: the source's `getInstance()` is unsynchronised, and concurrent first calls are not modelled; every lemma is about one sequential caller.
- The static field of a Java class exists once per class loader. The model makes it an explicit holder object, so one test can use several independent holders.
- NotificationFactory.ToUpper: only ASCII letters are upper-cased; every other character is kept as it is. Java's locale-sensitive `toUpperCase` also maps characters such as U+0131 to "I" and U+017F to "S", and expands U+00DF to "SS". Java also upper-cases letters such as 'é', which the model keeps. Java therefore accepts a few keys (for example "ſms") that the model rejects. Turkish-locale behaviour is not modelled either.
- A `null` key, which makes `type.toUpperCase()` throw a NullPointerException, has no counterpart: Dafny strings are never null.
- `NotificationFactory.CreateDependsOnlyOnUpperCase`: a key and its upper case give the same Result only on success. On failure the exception message quotes the key as given, so the messages differ when the spellings do. The source behaves this way.
- `notifyUser` of the notification products, the abstract-factory classes (`GUIFactory`, `WinFactory`, `MacFactory` and their buttons and text boxes), and `FactoryMethodDemo` and `AbstractFactoryDemo` only construct objects or print. There is no logic in them to state.
- `SpringApplication.run` in `DesignPatternsApplication.main` is a framework call the model cannot see. `SameInstanceDemo` starts after it.
