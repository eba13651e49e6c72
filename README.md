# UMLS search identifiers: a verified model

This project models part of the typed identifier layer of the `umls-query`
Java library. The layer has one validating value class per identifier kind
(concept, atom, string, term type, source abbreviation and others). Two of
them are modelled here:

- `AtomUID` wraps an Atom Unique Identifier (AUI): the letter `A` followed by
  7 or 8 digits. Its key name is `"AUI"`. It implements nine marker
  interfaces, so an AUI is accepted as the key of every query category. It
  also keeps the package-internal sentinel `EMPTY_AUI`.
- `StringUID` wraps a String Unique Identifier (SUI): as written, the letter
  `C` followed by exactly 7 digits. Its key name is `"SUI"`. It implements
  only the concept-query marker interface.

Each class has a factory `fromString`. It tests the whole input against a
fixed pattern. On a match it returns an instance wrapping the input
verbatim; otherwise it throws `MalformedUMLSUniqueIdentifierException`.

Modules:

- `Patterns` (patterns.dfy) models the one pattern shape both classes use,
  `L\d{min,max}` under a full match. It is a step-by-step counted matcher,
  proved equal to a character-level reference reading. `\d` is `'0'..'9'`,
  since the patterns are compiled without the Unicode flag.
- `SearchUIDs` (search_uid.dfy) holds what the two classes share: the value
  and kind of an identifier, the nine capability roles, the
  malformed-identifier error and a `Result` type for the factories.
- `AtomUIDs` (atom_uid.dfy) and `StringUIDs` (string_uid.dfy) hold one
  class each. Each has its pattern, factory, key name and role set.
  `AtomUIDs` also has `equals` and the `EMPTY_AUI` sentinel.
- `UidKinds` (uid_kinds.dfy) is the static table from kind to roles, key
  name and factory, for the two modelled kinds. A role-constrained query
  accepts an identifier exactly when its kind declares the role.

The subset types `AtomUID` and `StringUID` carry the pattern as their
invariant, because both Java constructors are private and only the
factories call them. The one exception is the `EMPTY_AUI` sentinel, so
`AtomUID` also admits the empty value.

Where the documentation and the code disagree, the model follows the code:

- The doc comment of `AtomUID.fromString` (AtomUID.java line 61) gives the
  pattern as `A\d{7}`. The compiled pattern (line 51) is `A\d{7,8}`, and the
  model accepts 7 or 8 digits.
- The error message of `StringUID.fromString` talks of "Concept Unique
  Identifiers" and "the letter 'S'". The compiled pattern requires `C`. The
  model uses the pattern and keeps the message as a constant text.

## Model

| member | source | states |
|---|---|---|
| Patterns.DigitRunCharacterization | src/main/java/edu/emory/cci/aiw/umls/AtomUID.java:50-52 | the counted matcher for `\d{min,max}` accepts a string iff its length lies between the bounds and every character is an ASCII digit |
| Patterns.LetterDigitsCharacterization | src/edu/emory/cci/aiw/umls/StringUID.java:9-11 | `L\d{min,max}` fully matches a string iff the string starts with the letter, has min+1 to max+1 characters, and has only ASCII digits after the letter |
| Patterns.ExtensionMatches | src/main/java/edu/emory/cci/aiw/umls/AtomUID.java:73-74 | when `s` matches, `s + t` still matches iff `t` is all digits and the length bound still holds; a full match, not a prefix match |
| AtomUIDs.IsAui | src/main/java/edu/emory/cci/aiw/umls/AtomUID.java:51 | a string matching `A\d{7,8}` has length 8 or 9 and starts with 'A' |
| AtomUIDs.InstancesWellFormed | src/main/java/edu/emory/cci/aiw/umls/AtomUID.java:41-56 | every AtomUID value matches the pattern, except the sentinel built by the private constructor |
| AtomUIDs.FromString | src/main/java/edu/emory/cci/aiw/umls/AtomUID.java:71-81 | every AtomUID the factory returns satisfies the AUI pattern and wraps exactly the input |
| AtomUIDs.FromStringSucceedsIff | src/main/java/edu/emory/cci/aiw/umls/AtomUID.java:71-81 | the factory succeeds iff the input has length 8 or 9, starts with 'A' and has only '0'..'9' after it |
| AtomUIDs.FromStringValue | src/main/java/edu/emory/cci/aiw/umls/AtomUID.java:54-75 | on success the result is an AtomUID wrapping exactly the input, of length 8 or 9, starting with 'A' |
| AtomUIDs.FromStringError | src/main/java/edu/emory/cci/aiw/umls/AtomUID.java:76-80 | on a non-matching input the factory fails with the malformed-identifier error; the message is the format text followed by the offending input |
| AtomUIDs.FromStringFullMatch | src/main/java/edu/emory/cci/aiw/umls/AtomUID.java:73-74 | extending a valid AUI by `t` stays valid iff `t` is digits and the total length is at most 9 |
| AtomUIDs.FromStringEquals | src/main/java/edu/emory/cci/aiw/umls/AtomUID.java:88-94 | two factory-made AUIs are `equals` iff their input strings are equal |
| AtomUIDs.KeyName | src/main/java/edu/emory/cci/aiw/umls/AtomUID.java:83-86 | the key name is the constant "AUI"; it does not depend on the instance |
| AtomUIDs.Equals | src/main/java/edu/emory/cci/aiw/umls/AtomUID.java:88-94 | `equals` holds only against an AtomUID, and exactly when the two identifiers are the same value |
| AtomUIDs.KeyNameConstant | src/main/java/edu/emory/cci/aiw/umls/AtomUID.java:83-86 | the key name is "AUI" for every instance |
| AtomUIDs.EqualsIsValueIdentity | src/main/java/edu/emory/cci/aiw/umls/AtomUID.java:88-94 | `equals` holds iff the other identifier has the same kind and value; it never holds against a non-AtomUID |
| AtomUIDs.EqualsEquivalence | src/main/java/edu/emory/cci/aiw/umls/AtomUID.java:88-94 | `equals` is reflexive, symmetric and transitive on AtomUIDs |
| AtomUIDs.RolesAreAll | src/main/java/edu/emory/cci/aiw/umls/AtomUID.java:34-37 | the constant `AtomUIDs.Roles`, the declared role set, is all nine roles (CUI, AUI, STR, TUI, SAB, Parents, Neighbor, MapToId, Code) |
| AtomUIDs.EmptyAuiBypassesFactory | src/main/java/edu/emory/cci/aiw/umls/AtomUID.java:41-45 | the constant `AtomUIDs.EmptyAui` (the sentinel) wraps "", which fails the pattern, so no factory call yields it; it still reports key name "AUI" |
| AtomUIDs.AcceptsSevenDigits | src/main/java/edu/emory/cci/aiw/umls/AtomUID.java:71-75 | "A1234567" is accepted and wrapped verbatim |
| AtomUIDs.AcceptsEightDigits | src/main/java/edu/emory/cci/aiw/umls/AtomUID.java:71-75 | "A12345678" is accepted and wrapped verbatim |
| AtomUIDs.RejectedExamples | src/main/java/edu/emory/cci/aiw/umls/AtomUID.java:76-80 | "A123456", "A123456789", "a1234567", "A1234567 " and "" are rejected |
| StringUIDs.IsSui | src/edu/emory/cci/aiw/umls/StringUID.java:10 | a string matching `C\d{7}` has length 8 and starts with 'C' |
| StringUIDs.InstancesWellFormed | src/edu/emory/cci/aiw/umls/StringUID.java:13-20 | every StringUID value matches the pattern, has length 8 and starts with 'C', since only the factory constructs one |
| StringUIDs.FromString | src/edu/emory/cci/aiw/umls/StringUID.java:17-26 | every StringUID the factory returns satisfies the SUI pattern and wraps exactly the input |
| StringUIDs.FromStringSucceedsIff | src/edu/emory/cci/aiw/umls/StringUID.java:17-26 | the factory succeeds iff the input has length 8, starts with 'C' and has only '0'..'9' after it |
| StringUIDs.FromStringValue | src/edu/emory/cci/aiw/umls/StringUID.java:13-20 | on success the result is a StringUID wrapping exactly the input, of length 8 |
| StringUIDs.FromStringErrorConstant | src/edu/emory/cci/aiw/umls/StringUID.java:21-25 | every failure raises the same malformed-identifier error, whatever the input |
| StringUIDs.FromStringFullMatch | src/edu/emory/cci/aiw/umls/StringUID.java:18-19 | no non-empty extension of a valid SUI is accepted |
| StringUIDs.FromStringInjective | src/edu/emory/cci/aiw/umls/StringUID.java:17-20 | two factory-made SUIs are the same value iff their inputs are equal (the value is stored as given) |
| StringUIDs.KeyName | src/edu/emory/cci/aiw/umls/StringUID.java:28-30 | the key name is the constant "SUI"; it does not depend on the instance |
| StringUIDs.KeyNameConstant | src/edu/emory/cci/aiw/umls/StringUID.java:28-30 | the key name is "SUI" for every instance |
| StringUIDs.RolesExactlyCui | src/edu/emory/cci/aiw/umls/StringUID.java:6 | the constant `StringUIDs.Roles` contains a role iff it is the concept-query role |
| StringUIDs.AcceptsC1234567 | src/edu/emory/cci/aiw/umls/StringUID.java:33 | "C1234567" is accepted and wrapped verbatim |
| StringUIDs.AcceptsC0000000 | src/edu/emory/cci/aiw/umls/StringUID.java:35 | "C0000000" is accepted and wrapped verbatim |
| StringUIDs.RejectedExamples | src/edu/emory/cci/aiw/umls/StringUID.java:34-37 | "L1234567", "C123456" and "C" are rejected |
| UidKinds.RolesOf | src/main/java/edu/emory/cci/aiw/umls/AtomUID.java:34-37 | each modelled kind's declared role set contains the concept-query role |
| UidKinds.KeyNameOf | src/edu/emory/cci/aiw/umls/StringUID.java:28-30 | each modelled kind's key name is a three-letter tag |
| UidKinds.AcceptsKey | src/main/java/edu/emory/cci/aiw/umls/AtomUID.java:34-37 | an identifier of either modelled kind is accepted as a concept-query key |
| UidKinds.FromString | src/edu/emory/cci/aiw/umls/StringUID.java:17-26 | a successful factory call of kind `k` yields an identifier of kind `k` |
| UidKinds.FromStringRoundTrip | src/main/java/edu/emory/cci/aiw/umls/AtomUID.java:71-81 | for both modelled kinds the factory succeeds iff the kind's pattern holds, and then wraps the input verbatim |
| UidKinds.KeyNameOfInstances | src/main/java/edu/emory/cci/aiw/umls/AtomUID.java:83-86 | every instance reports its kind's key name |
| UidKinds.KeyNamesDistinct | src/edu/emory/cci/aiw/umls/StringUID.java:28-30 | key names are three letters long and equal only for the same kind ("AUI" differs from "SUI") |
| UidKinds.RoleMembership | src/edu/emory/cci/aiw/umls/StringUID.java:6 | the AUI has every role; the SUI has only CUI; the SUI's roles are a strict subset of the AUI's |
| UidKinds.OnlyAtomBeyondCui | src/main/java/edu/emory/cci/aiw/umls/AtomUID.java:34-37 | among the two modelled kinds, for any role other than the concept query, an identifier is accepted as key iff it is an AUI |
| UidKinds.FactoriesDisjoint | src/edu/emory/cci/aiw/umls/StringUID.java:10 | no string is accepted by both factories, so validated AUIs and SUIs never wrap the same string |

## Left out

- The other identifier classes of the library (concept, term-type and source-abbreviation identifiers, among others) are not part of this model. `UidKind` has only the two modelled kinds, so statements over all kinds, such as `UidKinds.OnlyAtomBeyondCui`, speak of these two only.
- A `null` argument to either factory makes `Pattern.matcher` throw `NullPointerException` before any match. A Dafny `string` cannot be null, so the model has no such error path; the malformed-identifier error is the only failure it models.
- The Java regular-expression engine (`Pattern`, `Matcher` and the static initialisers that compile the patterns). Each pattern is a hand-written predicate in `Patterns`.
- `StringUID.main` and `testSUID` print to the console. They are not modelled; their input strings are the cases of `StringUIDs.AcceptsC1234567`, `StringUIDs.AcceptsC0000000` and `StringUIDs.RejectedExamples`.
- `AbstractUMLSSearchUID` is not part of this model. The model takes from it only the stored value (`getValue`). StringUID's equality, and the `hashCode` and `toString` of either class, are not stated.
- AtomUIDs.Equals: Java's `equals(Object)` also takes `null` and objects outside the identifier hierarchy. The model compares only against identifier values; the other arguments would give `false`.
- StringUIDs.FromStringErrorConstant: states only that the message is fixed. The wording ('S', "Concept") is kept as written and not checked against the pattern.
- The other marker interfaces (`SABQuerySearchUID` and the rest) have no behaviour. Each is a tag of the `Role` datatype.
- `UMLSPreferred` is a three-value enum with no behaviour. Its use in query building is not part of this model.
- Query construction, database and network access, and result parsing are not part of this model.
