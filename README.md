# Two SonarQube Java checks, modelled and verified in Dafny

This project models two static-analysis checks of the SonarQube Java analyzer, together with
the parts of the rule engine they rely on:

- **JUnit framework methods should be declared properly** (`JunitMethodDeclarationCheck`,
  rule S2391). For every class that is a subtype of `junit.framework.TestCase`, each member of
  kind METHOD gets at most one issue: `setUp`/`tearDown` must be public, parameterless and void;
  `suite` must be public, static, parameterless and return a `junit.framework.Test`; any other
  method that returns a `Test`, or whose name is within Levenshtein distance 3 of `suite`, `setUp`
  or `tearDown` (tried in that order), is reported as misnamed.
- **Collection.isEmpty() should be used to test for emptiness** (`CollectionIsEmptyCheck`,
  rule S1155). A full-tree visitor that reports a binary expression comparing a
  `Collection.size()` call with the literal `0` or `1` in a way that tests emptiness, visiting the
  operands first, and that does not scan the methods of a class that is itself a
  `java.util.Collection`.

The syntax tree and its resolved symbols are inputs. A resolved type carries the set of its
supertypes' names (reflexive and transitive), so "is a subtype of X" is set membership. An
unresolved type or method symbol matches nothing. Issues go to a scanner `Context` object that
keeps them in order.

Files:

- `wrappers.dfy`: `Option`.
- `syntax.dfy`: the tree (`Tree`), method declarations, types, operator and literal kinds.
- `diagnostics.dfy`: issues and the `Context` class that collects them.
- `levenshtein.dfy`: the edit distance, defined from first principles, and its laws.
- `junit_method_declaration.dfy`: the JUnit check.
- `collection_is_empty.dfy`: the emptiness check, the meaning of the comparisons it reports,
  and the visitor class.

Design points:

- `VisitMethod` returns an `Option<Problem>`. `Problem.Message()` gives the exact issue text, so
  the check's string messages are kept verbatim. `MessageDeterminesProblem` proves that the text
  identifies the problem.
- `AreVerySimilarStrings` keeps the source's length pre-filter. Its contract proves that the
  pre-filter never changes the answer.
- What a reported comparison means is stated independently. For every collection size `n >= 0`,
  the comparison is equivalent to `n == 0`, or for every size it is equivalent to `n != 0`
  (`IsEmptinessTest`). `ReportedIffEmptinessTest` proves that the check's operator and literal
  table reports exactly those comparisons. The literal must be a `size()` call's partner, written
  in plain decimal.
- The order of reports is stated as a post-order enumeration of the scanned nodes (`Scanned`).
  `WalkIsPostOrderReports` proves the visitor reports the flagged nodes of that enumeration, in
  that order, once each.

Only the first failing condition of a signature is reported (lines 94-105 and 110-119 of
`JunitMethodDeclarationCheck.java`), and the model reports the same.

## Model

| member | source | states |
|---|---|---|
| `JunitMethodDeclaration.VisitNode` | java-checks/src/main/java/org/sonar/java/checks/JunitMethodDeclarationCheck.java:59-68 | appends to the context exactly the issues of the class: none unless it is a `TestCase` subtype, else those of its METHOD members in member order |
| `JunitMethodDeclaration.VisitMethod` | java-checks/src/main/java/org/sonar/java/checks/JunitMethodDeclarationCheck.java:70-84 | at most one problem per method; a method named exactly `setUp`, `tearDown` or `suite` never gets a bad-name problem; a bad name proposes a lifecycle name other than the actual one and quotes the actual name |
| `JunitMethodDeclaration.BadNamePriority` | java-checks/src/main/java/org/sonar/java/checks/JunitMethodDeclarationCheck.java:77-83 | for any other name: "suite" iff it returns a `Test` or is similar to `suite`; else "setUp" iff similar to `setUp`; else "tearDown" iff similar to `tearDown`; else no issue |
| `JunitMethodDeclaration.AreVerySimilarStrings` | java-checks/src/main/java/org/sonar/java/checks/JunitMethodDeclarationCheck.java:86-90 | similar iff the Levenshtein distance is at most 3; the length pre-filter never changes the answer; a length gap over 3 is never similar |
| `JunitMethodDeclaration.SimilarityIsSymmetricAndReflexive` | java-checks/src/main/java/org/sonar/java/checks/JunitMethodDeclarationCheck.java:86-90 | similarity does not depend on argument order, and every name is similar to itself |
| `JunitMethodDeclaration.CheckSuiteSignature` | java-checks/src/main/java/org/sonar/java/checks/JunitMethodDeclarationCheck.java:92-106 | reports the first failed requirement among public, static, no parameters, `Test` return; reports nothing iff all hold (a missing return type passes) |
| `JunitMethodDeclaration.SuitePriority` | java-checks/src/main/java/org/sonar/java/checks/JunitMethodDeclarationCheck.java:92-106 | for `suite`, each message is raised exactly when its condition fails and every earlier one holds |
| `JunitMethodDeclaration.CheckSetupTearDownSignature` | java-checks/src/main/java/org/sonar/java/checks/JunitMethodDeclarationCheck.java:108-120 | reports the first failed requirement among public, no parameters, void return; reports nothing iff all hold (a missing return type passes) |
| `JunitMethodDeclaration.SetUpTearDownPriority` | java-checks/src/main/java/org/sonar/java/checks/JunitMethodDeclarationCheck.java:108-120 | for `setUp`/`tearDown`, non-public gives only the visibility issue, else parameters give only the parameter issue, else a non-void return gives the void issue |
| `JunitMethodDeclaration.MessageDeterminesProblem` | java-checks/src/main/java/org/sonar/java/checks/JunitMethodDeclarationCheck.java:92-124 | two raisable problems with the same issue text are the same problem, including the expected and actual names of a bad-name message |
| `JunitMethodDeclaration.NonTestCaseClassIsSilent` | java-checks/src/main/java/org/sonar/java/checks/JunitMethodDeclarationCheck.java:126-128 | a class that is not a `junit.framework.TestCase` subtype gets no issue |
| `JunitMethodDeclaration.MemberIssue` | java-checks/src/main/java/org/sonar/java/checks/JunitMethodDeclarationCheck.java:63-65 | a member yields an issue exactly when it is of kind METHOD and has a problem; it is then one issue, anchored at the member, with that problem's text |
| `JunitMethodDeclaration.IssuesFollowMembers` | java-checks/src/main/java/org/sonar/java/checks/JunitMethodDeclarationCheck.java:62-66 | each issue comes from a distinct member, in strictly increasing member order, and every METHOD member with a problem yields an issue |
| `JunitMethodDeclaration.GatherOrigins` | java-checks/src/main/java/org/sonar/java/checks/JunitMethodDeclarationCheck.java:62-66 | when each member yields at most one issue, the gathered issues map to distinct members in strictly increasing order, covering every member that yields one |
| `JunitMethodDeclaration.SuiteIsFarFromSetup` | java-checks/src/main/java/org/sonar/java/checks/JunitMethodDeclarationCheck.java:77 | `suite` and `setup` are at distance 4, so `setup` is not taken for a misspelt `suite` |
| `JunitMethodDeclaration.SetUpIsNearSetup` | java-checks/src/main/java/org/sonar/java/checks/JunitMethodDeclarationCheck.java:79 | `setUp` and `setup` are at distance 1 |
| `JunitMethodDeclaration.LowercaseSetupIsMisnamed` | java-checks/src/main/java/org/sonar/java/checks/JunitMethodDeclarationCheck.java:79-80 | `public void setup()` is reported as "should be named setUp not setup" |
| `JunitMethodDeclaration.ProtectedSetUpMustBePublic` | java-checks/src/main/java/org/sonar/java/checks/JunitMethodDeclarationCheck.java:110-111 | `protected void setUp()` gets only "Make this method public" |
| `JunitMethodDeclaration.SuiteWithParameterIsReported` | java-checks/src/main/java/org/sonar/java/checks/JunitMethodDeclarationCheck.java:98-99 | `public static Test suite(int x)` gets only "This method does not accept parameters" |
| `Levenshtein.Distance` | java-checks/src/main/java/org/sonar/java/checks/JunitMethodDeclarationCheck.java:89 | the edit distance is at least the length difference, at most the longer length, and zero exactly for equal strings |
| `Levenshtein.DistanceSymmetric` | java-checks/src/main/java/org/sonar/java/checks/JunitMethodDeclarationCheck.java:89 | the edit distance is symmetric |
| `Diagnostics.Context.AddIssue` | java-checks/src/main/java/org/sonar/java/checks/CollectionIsEmptyCheck.java:76 | adding an issue appends exactly that issue and changes nothing else |
| `CollectionIsEmpty.CollectionIsEmptyCheck.ScanFile` | java-checks/src/main/java/org/sonar/java/checks/CollectionIsEmptyCheck.java:55-60 | stores the file's context and appends to it exactly the issues of the walk of the tree |
| `CollectionIsEmpty.CollectionIsEmptyCheck.Scan` | java-checks/src/main/java/org/sonar/java/checks/CollectionIsEmptyCheck.java:59 | scanning any node appends exactly the issues of the walk of that node |
| `CollectionIsEmpty.CollectionIsEmptyCheck.VisitClass` | java-checks/src/main/java/org/sonar/java/checks/CollectionIsEmptyCheck.java:62-69 | scans the members in order, except those of kind METHOD when the class is a `java.util.Collection` |
| `CollectionIsEmpty.CollectionIsEmptyCheck.VisitBinaryExpression` | java-checks/src/main/java/org/sonar/java/checks/CollectionIsEmptyCheck.java:71-78 | scans left then right operand, then appends one issue with the fixed message iff the expression is reported |
| `CollectionIsEmpty.ClassMembersScanned` | java-checks/src/main/java/org/sonar/java/checks/CollectionIsEmptyCheck.java:64-66 | a `Collection` class yields exactly the issues of its non-METHOD members (constructors included); any other class those of all its members |
| `CollectionIsEmpty.WalkIsPostOrderReports` | java-checks/src/main/java/org/sonar/java/checks/CollectionIsEmptyCheck.java:71-78 | the issues of a scan are one per reported node of the post-order enumeration of scanned nodes, in that order |
| `CollectionIsEmpty.WalkIssuesAreReportedNodes` | java-checks/src/main/java/org/sonar/java/checks/CollectionIsEmptyCheck.java:75-77 | every issue has the fixed message and is anchored at a scanned, reported binary expression |
| `CollectionIsEmpty.IsCallToSizeMethod` | java-checks/src/main/java/org/sonar/java/checks/CollectionIsEmptyCheck.java:85-90 | only a method invocation, resolved to a method named `size`, can be a size call |
| `CollectionIsEmpty.ZeroOneByValue` | java-checks/src/main/java/org/sonar/java/checks/CollectionIsEmptyCheck.java:113-121 | the text tests "0" and "1" on an int literal hold iff the node is an int literal in plain decimal with value 0, respectively 1 |
| `CollectionIsEmpty.PlainDecimalZeroOne` | java-checks/src/main/java/org/sonar/java/checks/CollectionIsEmptyCheck.java:113-121 | among plain decimal numerals, "0" is the only spelling of 0 and "1" the only spelling of 1 |
| `CollectionIsEmpty.EmptinessTestIffPivot` | java-checks/src/main/java/org/sonar/java/checks/CollectionIsEmptyCheck.java:95-102 | a comparison of a size with a constant tests emptiness iff it is `==`/`!=` with 0, `>=`/`<` with 1 after or 0 before the size, or `>`/`<=` with 0 after or 1 before |
| `CollectionIsEmpty.ReportedIffEmptinessTest` | java-checks/src/main/java/org/sonar/java/checks/CollectionIsEmptyCheck.java:92-106 | a binary expression is reported iff one operand is a size call and the other a plain decimal int literal such that the comparison is equivalent to "empty" for every size, or to "not empty" for every size |
| `CollectionIsEmpty.SizeEqualsZeroIsReported` | java-checks/src/main/java/org/sonar/java/checks/CollectionIsEmptyCheck.java:95-96 | `collection.size() == 0` is reported once |
| `CollectionIsEmpty.SizeAtLeastOneIsReported` | java-checks/src/main/java/org/sonar/java/checks/CollectionIsEmptyCheck.java:97-98 | `list.size() >= 1` is reported once |
| `CollectionIsEmpty.SizeEqualsOneIsNotReported` | java-checks/src/main/java/org/sonar/java/checks/CollectionIsEmptyCheck.java:95-96 | `collection.size() == 1` is not reported |

## Left out

- The rule metadata annotations (`@Rule`, `@ActivatedByDefault`, the Sqale annotations): registration data with no behaviour.
- The subscription machinery (`SubscriptionBaseVisitor`, `nodesToVisit`): the model starts at `VisitNode` on a class declaration of kind CLASS. The walk that finds every class of a file is not modelled.
- `BaseTreeVisitor`'s per-kind traversal: every node kind the checks do not override is an `Other` node with its children in source order. `VisitClass` looks only at members, as the override does.
- Symbol and type resolution: `isSubtypeOf`, `isVoid`, `isPublic` and `isStatic` are given fields of the tree.
- `MethodMatcher` and `TypeCriteria` are not part of this model. `SizeMethodMatches` follows the criteria that line 124 of `CollectionIsEmptyCheck.java` passes to the builder: owner a subtype of `java.util.Collection`, name `size`, no parameter constraint.
- `StringUtils.getLevenshteinDistance` is not part of this model: `Levenshtein.Distance` defines the standard distance directly.
- `JavaFileScannerContext` beyond `addIssue`, and issue persistence: a `Context` keeps an ordered list of (node, check, message) issues.
- `JunitMethodDeclaration.LowercaseSetupIsMisnamed`: states the problem raised, not its rendered text. `Problem.Message` gives that text.
- `CollectionIsEmpty.ReportedIffEmptinessTest`: covers literals in plain decimal only. `0x0`, `00` or `0_0` denote zero but are never reported, because the source compares the literal's text with "0" and "1".
- `JunitMethodDeclaration.AreVerySimilarStrings`: names are compared as sequences of Unicode scalar values, not of UTF-16 code units as Java's `String.length()` and `charAt` count them. A name with characters outside the Basic Multilingual Plane can therefore be classified differently: each such character counts once here, twice in the source.
