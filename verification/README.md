# Configuration roles

A Dafny model of Gradle's `ConfigurationRole`. It is the closed set of roles a
dependency configuration can play during dependency resolution. There are two
roles, each a Java enum constant:

- `FOR_SELECTION` has the description "For selection in dependency resolution".
  It may be chosen as a selection target.
- `FOR_RESOLUTION` has the description "For resolution". It may not be chosen as
  a selection target.

Each constant is built by the enum constructor. The constructor stores a
description and the `canBeUsedInSelection` flag in two final fields, and two
getters read them back. Every Java enum also has three implicit members, given
in section 8.9.3 of the Java Language Specification, and the model covers them
too:

- `values()` returns the constants in declaration order.
- `name()` returns a constant's identifier.
- `valueOf(String)` maps an identifier back to its constant. Any other string
  raises `IllegalArgumentException`.

Everything lives in module `ConfigurationRoles` (`configuration_role.dfy`):

- The roles are the datatype `ConfigurationRole`. No third role can be built.
- `RoleFields` is the constructor's stored state. `Declaration` is the
  constructor call written in each constant's declaration.
- `valueOf` returns a `Result`. Its failure `NoEnumConstant(name)` stands for the
  `IllegalArgumentException`.
- `valueOf` looks the name up in `Directory`. This is a name-to-constant map,
  filled by putting each element of `values()` under its `name()`, first to last.

Every member is a pure function. This reflects that the fields are final, so a
role's description and flag never change from one read to the next.

## Model

| member | source | states |
|---|---|---|
| ConfigurationRoles.Declaration | subprojects/core/src/main/java/org/gradle/api/artifacts/ConfigurationRole.java:25-34 | The constructor stores the literal arguments of each constant's declaration. For `FOR_SELECTION` that is the description "For selection in dependency resolution" and the flag true. For `FOR_RESOLUTION` it is "For resolution" and false. |
| ConfigurationRoles.Description | subprojects/core/src/main/java/org/gradle/api/artifacts/ConfigurationRole.java:25-38 | `getDescription()` returns the description argument written in the constant's declaration. `FOR_SELECTION` describes itself as exactly "For selection in dependency resolution". `FOR_RESOLUTION` describes itself as exactly "For resolution". No description is empty. |
| ConfigurationRoles.CanBeUsedInSelection | subprojects/core/src/main/java/org/gradle/api/artifacts/ConfigurationRole.java:25-42 | `canBeUsedInSelection()` returns the flag argument written in the constant's declaration. The flag is true for `FOR_SELECTION` and false for `FOR_RESOLUTION`. So selection is allowed exactly when the role is `FOR_SELECTION`, in both directions. |
| ConfigurationRoles.Values | subprojects/core/src/main/java/org/gradle/api/artifacts/ConfigurationRole.java:24-26 | `values()` has exactly two elements, `FOR_SELECTION` then `FOR_RESOLUTION`. It has no duplicates and contains every role, so the role set is closed. |
| ConfigurationRoles.Name | subprojects/core/src/main/java/org/gradle/api/artifacts/ConfigurationRole.java:25-26 | The implicit `name()` returns "FOR_SELECTION" exactly for `FOR_SELECTION`, and "FOR_RESOLUTION" exactly for `FOR_RESOLUTION`. |
| ConfigurationRoles.Directory | subprojects/core/src/main/java/org/gradle/api/artifacts/ConfigurationRole.java:24-26 | The name directory's keys are exactly the names of the given constants. Every key maps to a given constant that carries that name. |
| ConfigurationRoles.ValueOf | subprojects/core/src/main/java/org/gradle/api/artifacts/ConfigurationRole.java:24-26 | `valueOf` succeeds exactly when some constant has the given name, and then it returns a constant with that name. Otherwise it fails with the unknown name and never falls back to a default. |
| ConfigurationRoles.NameRoundTrip | subprojects/core/src/main/java/org/gradle/api/artifacts/ConfigurationRole.java:24-26 | For every role, `valueOf(name(r))` returns `r`. |
| ConfigurationRoles.ValueOfRoundTrip | subprojects/core/src/main/java/org/gradle/api/artifacts/ConfigurationRole.java:24-26 | For every string `s` and role `r`, `valueOf(s)` returns `r` exactly when `s` is the name of `r`. |
| ConfigurationRoles.ValueOfAcceptsExactlyDeclaredNames | subprojects/core/src/main/java/org/gradle/api/artifacts/ConfigurationRole.java:25-26 | `valueOf` accepts "FOR_SELECTION" and "FOR_RESOLUTION", mapping each to its own constant. Every other string fails, including the same letters in another case. |
| ConfigurationRoles.NameInjective | subprojects/core/src/main/java/org/gradle/api/artifacts/ConfigurationRole.java:25-26 | Two roles have the same name exactly when they are the same role. |
| ConfigurationRoles.DescriptionInjective | subprojects/core/src/main/java/org/gradle/api/artifacts/ConfigurationRole.java:25-26 | Two roles have the same description exactly when they are the same role. |
| ConfigurationRoles.ExactlyOneSelectableRole | subprojects/core/src/main/java/org/gradle/api/artifacts/ConfigurationRole.java:25-26 | Among the declared roles, `FOR_SELECTION` is the only one that allows selection. The set of such roles has exactly one element. |

## Left out

- The `@Incubating` annotation is left out. It is metadata and has no behaviour.
- `ordinal()`, `compareTo`, serialization and reflection are left out. This file neither uses nor promises them.
- ValueOf: the string domain and the exception are simplified. A Java `String` is a sequence of UTF-16 code units, but a Dafny string is a sequence of Unicode scalar values. So a name that contains an unpaired surrogate cannot be written here, and "every other string fails" covers only Dafny strings. Java rejects such a name anyway, so no accepted name is lost. The `IllegalArgumentException`, with its class name and message text, is reduced to `NoEnumConstant(name)`, which keeps only the rejected name.
- `valueOf(null)` is left out. A Dafny string cannot be null, so the `NullPointerException` that `valueOf` throws for a null name has no counterpart.
- `values()` returning a fresh array on each call is left out. The model returns an immutable sequence, so aliasing does not arise.
- Class initialisation and thread safety are left out. The constants are immutable statics, so there is nothing concurrent to model.
- The code that assigns roles to configurations, or enforces the selection flag, is not part of this model.
