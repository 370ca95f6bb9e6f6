/**
 * The JUnit 3 lifecycle-method check (rule S2391, "JUnit framework methods should be
 * declared properly").
 *
 * The check subscribes to class declarations. In a class that is a subtype of
 * junit.framework.TestCase it looks at every member of kind METHOD, in member order, and
 * raises at most one issue per method:
 *   - `setUp` and `tearDown` must be public, take no parameters and return void;
 *   - `suite` must be public, static, take no parameters and return a junit.framework.Test;
 *   - any other method that returns a junit.framework.Test, or whose name is within edit
 *     distance 3 of "suite", "setUp" or "tearDown" (tried in that order), is reported as
 *     probably misnamed.
 * Only the first failing condition of a signature is reported.
 */
module JunitMethodDeclaration {
  import opened Wrappers
  import opened Syntax
  import opened Diagnostics
  import Levenshtein

  const JunitSetUp: string := "setUp"
  const JunitTearDown: string := "tearDown"
  const JunitSuite: string := "suite"
  const MaxStringDistance: nat := 3

  const JunitTestType: string := "junit.framework.Test"
  const JunitTestCaseType: string := "junit.framework.TestCase"

  /** What is wrong with a method declaration; `Message` is the issue text the check reports. */
  datatype Problem =
    | NotPublic
    | NotStatic
    | HasParameters
    | NotVoid
    | NotTestReturn
    | BadName(expected: string, actual: string)
  {
    function Message(): string
    {
      match this
      case NotPublic => "Make this method \"public\"."
      case NotStatic => "Make this method \"static\"."
      case HasParameters => "This method does not accept parameters."
      case NotVoid => "Make this method return \"void\"."
      case NotTestReturn =>
        "This method should return either a "
        + "\"junit.framework.Test\" or a \"junit.framework.TestSuite\"."
      case BadName(expected, actual) =>
        "This method should be named \"" + expected + "\" not \"" + actual + "\"."
    }

    /** The problems the check can raise: a bad name always proposes one of the lifecycle names. */
    predicate Raisable()
    {
      BadName? ==> IsLifecycleName(expected)
    }
  }

  predicate IsLifecycleName(name: string)
  {
    name == JunitSetUp || name == JunitTearDown || name == JunitSuite
  }

  /** A non-null return type that is a subtype of junit.framework.Test. */
  predicate ReturnsTest(m: MethodDecl)
  {
    m.returnType.Some? && m.returnType.value.IsSubtypeOf(JunitTestType)
  }

  /** Names within edit distance 3. The length test is only a shortcut: it never changes the answer. */
  function AreVerySimilarStrings(expected: string, actual: string): (r: bool)
    ensures r <==> Levenshtein.Distance(expected, actual) <= MaxStringDistance
    ensures Levenshtein.Abs(|expected| - |actual|) > MaxStringDistance ==> !r
  {
    Levenshtein.Abs(|expected| - |actual|) <= MaxStringDistance
    && Levenshtein.Distance(expected, actual) <= MaxStringDistance
  }

  /** The first problem of a list, the one reported. */
  function First(problems: seq<Problem>): Option<Problem>
  {
    if problems == [] then None else Some(problems[0])
  }

  /** Every requirement a `setUp` or `tearDown` method fails, in reporting priority. */
  function SetUpTearDownViolations(m: MethodDecl): seq<Problem>
  {
    (if m.isPublic then [] else [NotPublic])
    + (if m.parameterCount == 0 then [] else [HasParameters])
    + (if m.returnType.Some? && !m.returnType.value.isVoid then [NotVoid] else [])
  }

  /** Every requirement a `suite` method fails, in reporting priority. */
  function SuiteViolations(m: MethodDecl): seq<Problem>
  {
    (if m.isPublic then [] else [NotPublic])
    + (if m.isStatic then [] else [NotStatic])
    + (if m.parameterCount == 0 then [] else [HasParameters])
    + (if m.returnType.Some? && !m.returnType.value.IsSubtypeOf(JunitTestType) then [NotTestReturn] else [])
  }

  /** Reports the first requirement of a lifecycle method that the declaration fails. */
  function CheckSetupTearDownSignature(m: MethodDecl): (r: Option<Problem>)
    ensures r == First(SetUpTearDownViolations(m))
    ensures r.None? <==> m.isPublic && m.parameterCount == 0 && (m.returnType.None? || m.returnType.value.isVoid)
  {
    if !m.isPublic then Some(NotPublic)
    else if m.parameterCount != 0 then Some(HasParameters)
    else if m.returnType.Some? && !m.returnType.value.isVoid then Some(NotVoid)
    else None
  }

  /** Reports the first requirement of a `suite` method that the declaration fails. */
  function CheckSuiteSignature(m: MethodDecl): (r: Option<Problem>)
    ensures r == First(SuiteViolations(m))
    ensures r.None? <==> m.isPublic && m.isStatic && m.parameterCount == 0
                         && (m.returnType.None? || m.returnType.value.IsSubtypeOf(JunitTestType))
  {
    if !m.isPublic then Some(NotPublic)
    else if !m.isStatic then Some(NotStatic)
    else if m.parameterCount != 0 then Some(HasParameters)
    else if m.returnType.Some? && !m.returnType.value.IsSubtypeOf(JunitTestType) then Some(NotTestReturn)
    else None
  }

  /** The issue raised for one method of a JUnit 3 test case, if any. */
  function VisitMethod(m: MethodDecl): (r: Option<Problem>)
    ensures r.Some? ==> r.value.Raisable()
    ensures IsLifecycleName(m.name) ==> r.None? || !r.value.BadName?
    ensures r.Some? && r.value.BadName? ==> r.value.actual == m.name && r.value.expected != m.name
  {
    if m.name == JunitSetUp || m.name == JunitTearDown then
      CheckSetupTearDownSignature(m)
    else if m.name == JunitSuite then
      CheckSuiteSignature(m)
    else if ReturnsTest(m) || AreVerySimilarStrings(JunitSuite, m.name) then
      Some(BadName(JunitSuite, m.name))
    else if AreVerySimilarStrings(JunitSetUp, m.name) then
      Some(BadName(JunitSetUp, m.name))
    else if AreVerySimilarStrings(JunitTearDown, m.name) then
      Some(BadName(JunitTearDown, m.name))
    else
      None
  }

  predicate IsJunit3Class(tree: Tree)
    requires tree.Class?
  {
    tree.symbolType.IsSubtypeOf(JunitTestCaseType)
  }

  /** The issues one class member gives rise to: none unless it is a method with a problem. */
  function MemberIssue(member: Tree): (r: seq<Issue>)
    ensures |r| <= 1
    ensures r != [] <==> IsMethodKind(member) && VisitMethod(member.decl).Some?
    ensures r != [] ==> r == [Issue(member.id, JunitMethodDeclaration, VisitMethod(member.decl).value.Message())]
  {
    if IsMethodKind(member) then
      match VisitMethod(member.decl)
      case None => []
      case Some(problem) => [Issue(member.id, JunitMethodDeclaration, problem.Message())]
    else
      []
  }

  /** The issues of a sequence of members, in member order. */
  function MemberIssues(members: seq<Tree>): seq<Issue>
  {
    Gather(MemberIssue, members)
  }

  /** The issues `issueOf` gives each member, concatenated in member order. */
  function Gather(issueOf: Tree -> seq<Issue>, members: seq<Tree>): seq<Issue>
  {
    if members == [] then []
    else Gather(issueOf, members[..|members| - 1]) + issueOf(members[|members| - 1])
  }

  /** The issues `visitNode` raises for a class declaration. */
  function ClassIssues(tree: Tree): seq<Issue>
    requires tree.Class?
  {
    if IsJunit3Class(tree) then MemberIssues(tree.members) else []
  }

  /** visitNode: the subscription delivers class declarations (kind CLASS) only. */
  method VisitNode(context: Context, tree: Tree)
    requires tree.Class? && tree.classKind == ClassDecl
    modifies context
    ensures context.issues == old(context.issues) + ClassIssues(tree)
  {
    if IsJunit3Class(tree) {
      var members := tree.members;
      var i := 0;
      while i < |members|
        invariant 0 <= i <= |members|
        invariant context.issues == old(context.issues) + MemberIssues(members[..i])
      {
        var member := members[i];
        assert members[..i + 1][..i] == members[..i];
        if IsMethodKind(member) {
          var problem := VisitMethod(member.decl);
          if problem.Some? {
            context.AddIssue(member.id, JunitMethodDeclaration, problem.value.Message());
          }
        }
        i := i + 1;
      }
      assert members[..|members|] == members;
    }
  }

  // ---------------------------------------------------------------------------------------
  // Properties

  /** Similarity does not depend on argument order, and every name is similar to itself. */
  lemma SimilarityIsSymmetricAndReflexive(a: string, b: string)
    ensures AreVerySimilarStrings(a, b) == AreVerySimilarStrings(b, a)
    ensures AreVerySimilarStrings(a, a)
  {
    Levenshtein.DistanceSymmetric(a, b);
  }

  /** For `setUp` and `tearDown` the issue is the first failed requirement: public, then no parameters, then void. */
  lemma SetUpTearDownPriority(m: MethodDecl)
    requires m.name == JunitSetUp || m.name == JunitTearDown
    ensures VisitMethod(m) == First(SetUpTearDownViolations(m))
    ensures VisitMethod(m) == Some(NotPublic) <==> !m.isPublic
    ensures VisitMethod(m) == Some(HasParameters) <==> m.isPublic && m.parameterCount != 0
    ensures VisitMethod(m) == Some(NotVoid)
            <==> m.isPublic && m.parameterCount == 0 && m.returnType.Some? && !m.returnType.value.isVoid
  {
  }

  /** For `suite` the issue is the first failed requirement: public, static, no parameters, Test return. */
  lemma SuitePriority(m: MethodDecl)
    requires m.name == JunitSuite
    ensures VisitMethod(m) == First(SuiteViolations(m))
    ensures VisitMethod(m) == Some(NotPublic) <==> !m.isPublic
    ensures VisitMethod(m) == Some(NotStatic) <==> m.isPublic && !m.isStatic
    ensures VisitMethod(m) == Some(HasParameters) <==> m.isPublic && m.isStatic && m.parameterCount != 0
    ensures VisitMethod(m) == Some(NotTestReturn)
            <==> m.isPublic && m.isStatic && m.parameterCount == 0
                 && m.returnType.Some? && !m.returnType.value.IsSubtypeOf(JunitTestType)
  {
  }

  /** Any other name: "suite" wins over "setUp", which wins over "tearDown"; otherwise no issue. */
  lemma BadNamePriority(m: MethodDecl)
    requires !IsLifecycleName(m.name)
    ensures VisitMethod(m) == Some(BadName(JunitSuite, m.name))
            <==> ReturnsTest(m) || AreVerySimilarStrings(JunitSuite, m.name)
    ensures VisitMethod(m) == Some(BadName(JunitSetUp, m.name))
            <==> !ReturnsTest(m) && !AreVerySimilarStrings(JunitSuite, m.name)
                 && AreVerySimilarStrings(JunitSetUp, m.name)
    ensures VisitMethod(m) == Some(BadName(JunitTearDown, m.name))
            <==> !ReturnsTest(m) && !AreVerySimilarStrings(JunitSuite, m.name)
                 && !AreVerySimilarStrings(JunitSetUp, m.name) && AreVerySimilarStrings(JunitTearDown, m.name)
    ensures VisitMethod(m).None?
            <==> !ReturnsTest(m) && !AreVerySimilarStrings(JunitSuite, m.name)
                 && !AreVerySimilarStrings(JunitSetUp, m.name) && !AreVerySimilarStrings(JunitTearDown, m.name)
  {
  }

  /** The issue text names the problem: different raisable problems never share a message. */
  lemma MessageDeterminesProblem(p: Problem, q: Problem)
    requires p.Raisable() && q.Raisable()
    requires p.Message() == q.Message()
    ensures p == q
  {
    if p.BadName? && q.BadName? {
      BadNameMessageDetermines(p, q);
    } else if p.BadName? {
      BadNameIsNotASignatureMessage(p, q);
    } else if q.BadName? {
      BadNameIsNotASignatureMessage(q, p);
    } else if p != q {
      SignatureMessageShape(p);
      SignatureMessageShape(q);
    }
  }

  /** A bad-name message gives back the lifecycle name it proposes and the name it quotes. */
  lemma BadNameMessageDetermines(p: Problem, q: Problem)
    requires p.BadName? && q.BadName? && p.Raisable() && q.Raisable()
    requires p.Message() == q.Message()
    ensures p == q
  {
    var prefix := "This method should be named \"";
    var text := p.Message();
    assert text == prefix + p.expected + "\" not \"" + p.actual + "\".";
    assert text == prefix + q.expected + "\" not \"" + q.actual + "\".";
    assert text[|prefix|] == p.expected[0] == q.expected[0];
    assert text[|prefix| + 1] == p.expected[1] == q.expected[1];
    assert p.expected == q.expected;
    var n := |prefix + p.expected + "\" not \""|;
    assert p.actual == text[n..|text| - 2] == q.actual;
  }

  lemma BadNameIsNotASignatureMessage(p: Problem, q: Problem)
    requires p.BadName? && !q.BadName?
    ensures p.Message() != q.Message()
  {
    BadNameMessageShape(p);
    SignatureMessageShape(q);
  }

  /** A bad-name message reads "This method should b...". */
  lemma BadNameMessageShape(p: Problem)
    requires p.BadName?
    ensures |p.Message()| > 19 && p.Message()[0] == 'T' && p.Message()[12] == 's' && p.Message()[19] == 'b'
  {
    var prefix := "This method should be named \"";
    var rest := p.expected + "\" not \"" + p.actual + "\".";
    assert p.Message() == prefix + rest;
    assert prefix[0] == 'T' && prefix[12] == 's' && prefix[19] == 'b';
    CharOfPrefix(prefix, rest, 0);
    CharOfPrefix(prefix, rest, 12);
    CharOfPrefix(prefix, rest, 19);
  }

  /**
   * Every signature message differs from "This method should b..." at position 0, 12 or 19,
   * and its length and character 18 tell the signature problems apart.
   */
  lemma SignatureMessageShape(q: Problem)
    requires !q.BadName?
    ensures |q.Message()| > 19
    ensures q.Message()[0] != 'T' || q.Message()[12] != 's' || q.Message()[19] != 'b'
    ensures q.NotPublic? ==> |q.Message()| == 26 && q.Message()[18] == 'p'
    ensures q.NotStatic? ==> |q.Message()| == 26 && q.Message()[18] == 's'
    ensures q.NotVoid? ==> |q.Message()| == 31
    ensures q.HasParameters? ==> |q.Message()| == 39
    ensures q.NotTestReturn? ==> |q.Message()| > 39
  {
    var text := q.Message();
    match q
    case NotPublic =>
      assert text == "Make this method \"public\".";
    case NotStatic =>
      assert text == "Make this method \"static\".";
    case NotVoid =>
      assert text == "Make this method return \"void\".";
    case HasParameters =>
      assert text == "This method does not accept parameters.";
    case NotTestReturn =>
      var head := "This method should return either a ";
      var tail := "\"junit.framework.Test\" or a \"junit.framework.TestSuite\".";
      assert text == head + tail;
      assert head[19] == 'r';
      CharOfPrefix(head, tail, 19);
  }

  lemma CharOfPrefix(prefix: string, rest: string, i: nat)
    requires i < |prefix|
    ensures (prefix + rest)[i] == prefix[i]
  {
  }

  /** A class that is not a JUnit 3 test case raises nothing. */
  lemma NonTestCaseClassIsSilent(tree: Tree)
    requires tree.Class? && !IsJunit3Class(tree)
    ensures ClassIssues(tree) == []
  {
  }

  /**
   * The issues of a test case follow its members: `origin[k]` is the member issue k comes
   * from; origins strictly increase (member order, at most one issue per member) and every
   * method member with a problem is the origin of an issue.
   */
  lemma IssuesFollowMembers(members: seq<Tree>) returns (origin: seq<nat>)
    ensures |origin| == |MemberIssues(members)|
    ensures forall k :: 0 <= k < |origin| ==>
              origin[k] < |members| && MemberIssue(members[origin[k]]) == [MemberIssues(members)[k]]
    ensures forall k, l :: 0 <= k < l < |origin| ==> origin[k] < origin[l]
    ensures forall i :: 0 <= i < |members| && MemberIssue(members[i]) != [] ==> i in origin
  {
    origin := GatherOrigins(MemberIssue, members);
  }

  /** When each member gives at most one issue, every gathered issue traces back to one member, in order. */
  lemma {:induction false} GatherOrigins(issueOf: Tree -> seq<Issue>, members: seq<Tree>) returns (origin: seq<nat>)
    requires forall m :: |issueOf(m)| <= 1
    ensures |origin| == |Gather(issueOf, members)|
    ensures forall k :: 0 <= k < |origin| ==>
              origin[k] < |members| && issueOf(members[origin[k]]) == [Gather(issueOf, members)[k]]
    ensures forall k, l :: 0 <= k < l < |origin| ==> origin[k] < origin[l]
    ensures forall i :: 0 <= i < |members| && issueOf(members[i]) != [] ==> i in origin
  {
    if members == [] {
      origin := [];
    } else {
      var n := |members| - 1;
      var init := members[..n];
      var before := GatherOrigins(issueOf, init);
      var last := issueOf(members[n]);
      assert Gather(issueOf, members) == Gather(issueOf, init) + last;
      forall i | 0 <= i < n
        ensures members[i] == init[i]
      {
      }
      if last == [] {
        origin := before;
      } else {
        origin := before + [n];
        forall i | 0 <= i < |members| && issueOf(members[i]) != []
          ensures i in origin
        {
          if i < n {
            assert i in before;
          } else {
            assert origin[|before|] == n;
          }
        }
      }
    }
  }

  // ---------------------------------------------------------------------------------------
  // Concrete scenarios

  /** "suite" and "setup" are four edits apart, too far to be similar. */
  lemma SuiteIsFarFromSetup()
    ensures Levenshtein.Distance(JunitSuite, "setup") == 4
  {
    var a, b := JunitSuite, "setup";
    assert Levenshtein.SuffixDistance(a, b, 4, 4) == 1;
    assert Levenshtein.SuffixDistance(a, b, 4, 3) == 2;
    assert Levenshtein.SuffixDistance(a, b, 4, 2) == 3;
    assert Levenshtein.SuffixDistance(a, b, 4, 1) == 3;
    assert Levenshtein.SuffixDistance(a, b, 4, 0) == 4;
    assert Levenshtein.SuffixDistance(a, b, 3, 4) == 2;
    assert Levenshtein.SuffixDistance(a, b, 3, 3) == 2;
    assert Levenshtein.SuffixDistance(a, b, 3, 2) == 2;
    assert Levenshtein.SuffixDistance(a, b, 3, 1) == 3;
    assert Levenshtein.SuffixDistance(a, b, 3, 0) == 4;
    assert Levenshtein.SuffixDistance(a, b, 2, 4) == 3;
    assert Levenshtein.SuffixDistance(a, b, 2, 3) == 3;
    assert Levenshtein.SuffixDistance(a, b, 2, 2) == 3;
    assert Levenshtein.SuffixDistance(a, b, 2, 1) == 3;
    assert Levenshtein.SuffixDistance(a, b, 2, 0) == 4;
    assert Levenshtein.SuffixDistance(a, b, 1, 4) == 4;
    assert Levenshtein.SuffixDistance(a, b, 1, 3) == 3;
    assert Levenshtein.SuffixDistance(a, b, 1, 2) == 4;
    assert Levenshtein.SuffixDistance(a, b, 1, 1) == 4;
    assert Levenshtein.SuffixDistance(a, b, 1, 0) == 4;
    assert Levenshtein.SuffixDistance(a, b, 0, 4) == 5;
    assert Levenshtein.SuffixDistance(a, b, 0, 3) == 4;
    assert Levenshtein.SuffixDistance(a, b, 0, 2) == 4;
    assert Levenshtein.SuffixDistance(a, b, 0, 1) == 5;
    assert Levenshtein.SuffixDistance(a, b, 0, 0) == 4;
  }

  /** "setUp" and "setup" differ by one substitution. */
  lemma SetUpIsNearSetup()
    ensures Levenshtein.Distance(JunitSetUp, "setup") == 1
  {
    var a, b := JunitSetUp, "setup";
    assert Levenshtein.SuffixDistance(a, b, 4, 4) == 0;
    assert Levenshtein.SuffixDistance(a, b, 3, 3) <= 1;
    assert Levenshtein.SuffixDistance(a, b, 2, 2) <= 1;
    assert Levenshtein.SuffixDistance(a, b, 1, 1) <= 1;
    assert Levenshtein.SuffixDistance(a, b, 0, 0) <= 1;
  }

  /** `public void setup()` is reported as a misspelt `setUp`. */
  lemma LowercaseSetupIsMisnamed()
    ensures VisitMethod(MethodDecl("setup", true, false, 0, Some(Type(true, {}))))
            == Some(BadName(JunitSetUp, "setup"))
  {
    var m := MethodDecl("setup", true, false, 0, Some(Type(true, {})));
    SuiteIsFarFromSetup();
    SetUpIsNearSetup();
    assert !AreVerySimilarStrings(JunitSuite, m.name);
    assert AreVerySimilarStrings(JunitSetUp, m.name);
    assert !IsLifecycleName(m.name) && !ReturnsTest(m);
    BadNamePriority(m);
  }

  /** `protected void setUp()` gets only the visibility issue. */
  lemma ProtectedSetUpMustBePublic()
    ensures VisitMethod(MethodDecl(JunitSetUp, false, false, 0, Some(Type(true, {}))))
            == Some(NotPublic)
  {
  }

  /** `public static Test suite(int x)` gets only the parameter issue. */
  lemma SuiteWithParameterIsReported()
    ensures VisitMethod(MethodDecl(JunitSuite, true, true, 1, Some(Type(false, {JunitTestType}))))
            == Some(HasParameters)
  {
  }
}
