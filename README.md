# Enrollment and BootstrapConfig, modelled in Dafny

This project models two domain classes of the MOTECH platform and proves
what they promise.

- `Enrollment` (schedule tracking) is one party's enrolment in a schedule. It
  holds a status, the current milestone, reference, enrolment and alert
  dates, and an append-only history of milestone fulfilments. It is the class
  `ScheduleTracking.Enrollment` in `enrollment.dfy`. Its fields are mutable,
  its setters, `copyFrom` and `fulfillCurrentMilestone` are methods, and its
  queries are functions that read the object. A `LocalDate` is a day number
  (`int`). A reference that Java allows to be null is an `Option`. The clock
  read `DateUtil.today()` is the parameter `today`.
- `BootstrapConfig` (server configuration) is an immutable value. Its
  constructor rejects a null database configuration and defaults a blank
  tenant id to `"DEFAULT"` and a null config source to `ConfigSource.UI`. It
  defines field-wise `equals`, a 31-multiplier `hashCode` and a fixed
  `toString` layout. It is the datatype `ServerConfig.BootstrapConfig` in
  `bootstrap_config.dfy`. The constructor is the function
  `NewBootstrapConfig`, whose `Failure` result is the thrown
  `MotechConfigurationException`. `DBConfig` and `ConfigSource` are the type
  parameters `D` and `S`. Their `equals`, `hashCode` and `toString` are passed
  in as `JavaOps` values, and `ConfigSource.UI` is the parameter `ui`.
- `java_lang.dfy` holds the Java library behaviour these classes use:
  32-bit `int` wrap-around, `String.hashCode`, `Character.isWhitespace` and
  `StringUtils.isNotBlank`. `wrappers.dfy` holds `Option` and `Result`.

Java computes `hashCode` with wrap-around after every `*` and `+`. The model
does the same, step by step. `HashCode`'s contract states that the result
equals the closed form `961*h(db) + 31*h(tenant) + h(source)` wrapped once.
This rests on `WrapMulAdd`. `String.hashCode` is tied the same way to its
documented sum `s[0]*31^(n-1) + ... + s[n-1]`.

## Model

| member | source | states |
|---|---|---|
| `JavaLang.Wrap` | platform/server-config/src/main/java/org/motechproject/server/config/domain/BootstrapConfig.java:48-53 | the result is a 32-bit `int` congruent to the input modulo 2^32, and equals the input when the input already fits |
| `JavaLang.WrapMulAdd` | platform/server-config/src/main/java/org/motechproject/server/config/domain/BootstrapConfig.java:49-52 | wrapping an intermediate result of `31 * result + x` does not change the wrapped outcome, so step-by-step `int` arithmetic equals wrapping once |
| `JavaLang.SumSnoc` | platform/server-config/src/main/java/org/motechproject/server/config/domain/BootstrapConfig.java:50 | the documented sum `s[0]*31^(n-1) + ... + s[n-1]` follows the step of Java's hash loop: appending a character multiplies it by 31 and adds the character |
| `JavaLang.StringHash` | platform/server-config/src/main/java/org/motechproject/server/config/domain/BootstrapConfig.java:50 | `tenantId.hashCode()`, computed by Java's loop with wrap-around at each step, equals the documented sum `s[0]*31^(n-1) + ... + s[n-1]` truncated to `int` once |
| `JavaLang.IsWhitespace` | platform/server-config/src/main/java/org/motechproject/server/config/domain/BootstrapConfig.java:18 | `Character.isWhitespace` as of Java 5 to 8: in ASCII exactly space, tab to carriage return and U+001C to U+001F; the non-breaking spaces U+00A0, U+2007 and U+202F are not whitespace |
| `JavaLang.IsNotBlank` | platform/server-config/src/main/java/org/motechproject/server/config/domain/BootstrapConfig.java:18 | a string is not blank exactly when it is non-null and has a character that is not whitespace; so a null, empty or all-whitespace string is blank |
| `ServerConfig.DefaultTenantIdNotBlank` | platform/server-config/src/main/java/org/motechproject/server/config/domain/BootstrapConfig.java:8 | the default tenant id `"DEFAULT"` is itself not blank |
| `ServerConfig.NewBootstrapConfig` | platform/server-config/src/main/java/org/motechproject/server/config/domain/BootstrapConfig.java:13-20 | construction fails, with "DB configuration cannot be null.", exactly when `dbConfig` is null, and succeeds otherwise; it stores `dbConfig`, keeps a non-blank tenant id and otherwise stores `"DEFAULT"`, keeps a non-null config source and otherwise stores `UI`; the stored tenant id is never blank |
| `ServerConfig.NormalisationIdempotent` | platform/server-config/src/main/java/org/motechproject/server/config/domain/BootstrapConfig.java:18-19 | constructing again from a built config's stored values gives the same config |
| `ServerConfig.NormalisedIsFixedPoint` | platform/server-config/src/main/java/org/motechproject/server/config/domain/BootstrapConfig.java:18-19 | any config with a non-blank tenant id is returned unchanged by the constructor |
| `ServerConfig.GettersAfterConstruction` | platform/server-config/src/main/java/org/motechproject/server/config/domain/BootstrapConfig.java:65-71 | with a non-null `dbConfig`, construction succeeds, `getTenantId()` is not blank and `getConfigSource()` is the given source or `UI` |
| `ServerConfig.Equals` | platform/server-config/src/main/java/org/motechproject/server/config/domain/BootstrapConfig.java:23-45 | true for the same object, false for null or another class, and otherwise true exactly when config source, DB config and tenant id are all equal |
| `ServerConfig.EqualsIsEquivalence` | platform/server-config/src/main/java/org/motechproject/server/config/domain/BootstrapConfig.java:23-45 | when the collaborators keep the `equals` contract, `equals` on configs is reflexive, symmetric and transitive |
| `ServerConfig.HashCode` | platform/server-config/src/main/java/org/motechproject/server/config/domain/BootstrapConfig.java:48-53 | the hash computed with per-step wrap-around equals `961*h(dbConfig) + 31*h(tenantId) + h(configSource)` wrapped once to 32 bits |
| `ServerConfig.EqualConfigsHaveEqualHashCodes` | platform/server-config/src/main/java/org/motechproject/server/config/domain/BootstrapConfig.java:23-53 | when the collaborators keep the `equals`/`hashCode` contract, equal configs have equal hash codes |
| `ServerConfig.ToString` | platform/server-config/src/main/java/org/motechproject/server/config/domain/BootstrapConfig.java:56-63 | the text is `BootstrapConfig{dbConfig=<db>, tenantId='<tenant>', configSource=<source>}`, with each part at its exact offset and the exact total length |
| `ServerConfig.ToStringDistinguishesTenants` | platform/server-config/src/main/java/org/motechproject/server/config/domain/BootstrapConfig.java:56-63 | two configs whose collaborators print alike but whose tenant ids differ print differently |
| `ScheduleTracking.Enrollment.constructor` | motech-scheduletracking-api/src/main/java/org/motechproject/scheduletracking/api/domain/Enrollment.java:36-44 | a new enrolment stores its arguments, is `Active` (so `isActive` holds and `isCompleted`/`isDefaulted` do not) and has no fulfilments, so `lastFulfilledDate()` is null |
| `ScheduleTracking.Enrollment.LastFulfilledDate` | motech-scheduletracking-api/src/main/java/org/motechproject/scheduletracking/api/domain/Enrollment.java:74-78 | null exactly when the history is empty, and otherwise the date of the last entry |
| `ScheduleTracking.StatusPredicatesExclusive` | motech-scheduletracking-api/src/main/java/org/motechproject/scheduletracking/api/domain/Enrollment.java:81-93 | for a non-null status, at most one of `isActive`, `isCompleted` and `isDefaulted` holds |
| `ScheduleTracking.Enrollment.SetCurrentMilestoneName` | motech-scheduletracking-api/src/main/java/org/motechproject/scheduletracking/api/domain/Enrollment.java:95-97 | sets the current milestone name and changes no other field |
| `ScheduleTracking.Enrollment.SetStatus` | motech-scheduletracking-api/src/main/java/org/motechproject/scheduletracking/api/domain/Enrollment.java:103-105 | sets the status and changes no other field |
| `ScheduleTracking.Enrollment.CopyFrom` | motech-scheduletracking-api/src/main/java/org/motechproject/scheduletracking/api/domain/Enrollment.java:107-113 | overwrites exactly the enrolment date, current milestone name, reference date and preferred alert time with the other enrolment's values (also when it is the same object), keeps schedule name, external id, status and history, and returns the receiver |
| `ScheduleTracking.Enrollment.CurrentMilestoneStartDate` | motech-scheduletracking-api/src/main/java/org/motechproject/scheduletracking/api/domain/Enrollment.java:124-128 | needs a non-null current milestone; gives the reference date for the first milestone or absolute windows, else the enrolment date when nothing is fulfilled, else the last fulfilment's date |
| `ScheduleTracking.StartDateIsLastFulfilledDate` | motech-scheduletracking-api/src/main/java/org/motechproject/scheduletracking/api/domain/Enrollment.java:124-128 | after any fulfilment, a later milestone of a relative schedule starts on `lastFulfilledDate()` |
| `ScheduleTracking.Enrollment.FulfillCurrentMilestone` | motech-scheduletracking-api/src/main/java/org/motechproject/scheduletracking/api/domain/Enrollment.java:130-133 | appends exactly one entry `(currentMilestoneName, date)`, where date is the given date or `today` if none is given; earlier entries and other fields are unchanged, `lastFulfilledDate()` becomes that date, and on a relative schedule a current milestone other than the first now starts on that date |

## Left out

- Persistence plumbing of `Enrollment` is not modelled: the ektorp/Jackson annotations, the private no-arg constructor, `getType`/`setType`, and the `MotechBaseDataObject` base class with its id and revision.
- The getters of both classes are plain field reads in the model. `getFulfillments()` returns the live `LinkedList`, so callers can change the history through it. The model has no such alias: the history is a `seq` that only `FulfillCurrentMilestone` extends.
- `EnrollmentStatus`, `Time` and `MilestoneFulfillment` are not part of this model. The status is a four-valued datatype (`Active`, `Completed`, `Defaulted`, `Unenrolled`). `Time` is an hour/minute pair, and a fulfilment is a (milestone name, day) pair.
- `LocalDate` is a day number, and `DateUtil.today()` is a parameter because it reads the wall clock.
- `DBConfig` and `ConfigSource` are not part of this model. Their `equals`, `hashCode` and `toString` are uninterpreted functions passed in. Lemmas that need the `Object.equals`/`hashCode` contract assume it of them through `Lawful`.
- `JavaLang.StringHash`: Java hashes UTF-16 code units, while a Dafny `char` is a Unicode scalar value. The two agree on strings without characters above U+FFFF.
- `JavaLang.IsWhitespace` follows the Unicode tables of Java 5 to 8, where U+180E is a space separator. From Java 9 on, U+180E is no longer whitespace, and the model does not follow that change.
- A null status makes `isActive`/`isCompleted`/`isDefaulted` throw. A null current milestone name makes `getCurrentMilestoneStartDate` throw. The model states both as preconditions rather than as error results. `copyFrom(null)` throws too. The model's `CopyFrom` takes a non-null `Enrollment`, so that case is not modelled.
