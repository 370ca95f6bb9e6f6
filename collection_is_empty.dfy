/**
 * The emptiness-comparison check (rule S1155, "Collection.isEmpty() should be used to test
 * for emptiness").
 *
 * A full-tree visitor. Every binary expression is visited after its operands; it is reported
 * when one operand is a call of `size()` on a java.util.Collection and the comparison, read
 * against the literal 0 or 1 on the appropriate side, tests emptiness. Inside a class that is
 * itself a java.util.Collection the methods are not scanned at all.
 */
module CollectionIsEmpty {
  import opened Wrappers
  import opened Syntax
  import opened Diagnostics

  const JavaUtilCollection: string := "java.util.Collection"
  const SizeMethodName: string := "size"
  const IssueMessage: string := "Use isEmpty() to check whether the collection is empty or not."

  // ---------------------------------------------------------------------------------------
  // The detection predicates

  /** SIZE_METHOD: a method named "size" whose owner is a subtype of java.util.Collection,
      with no constraint on the parameters. An unresolved symbol never matches. */
  predicate SizeMethodMatches(target: Option<MethodRef>)
  {
    target.Some? && target.value.owner.IsSubtypeOf(JavaUtilCollection) && target.value.name == SizeMethodName
  }

  /** Only a method invocation can be a call of `size()`. */
  function IsCallToSizeMethod(e: Tree): (r: bool)
    ensures r ==> e.MethodInvocation?
    ensures r ==> e.target.Some? && e.target.value.name == SizeMethodName
  {
    if !e.MethodInvocation? then false else SizeMethodMatches(e.target)
  }

  predicate HasCallToSizeMethod(t: Tree)
    requires t.BinaryExpression?
  {
    IsCallToSizeMethod(t.left) || IsCallToSizeMethod(t.right)
  }

  predicate IsEqualityExpression(t: Tree)
    requires t.BinaryExpression?
  {
    t.op == EqualTo || t.op == NotEqualTo
  }

  /** An int literal spelt exactly "0". */
  predicate IsZero(e: Tree)
  {
    e.Literal? && e.literalKind == IntLiteral && e.value == "0"
  }

  /** An int literal spelt exactly "1". */
  predicate IsOne(e: Tree)
  {
    e.Literal? && e.literalKind == IntLiteral && e.value == "1"
  }

  /** The operator and literal pattern of an emptiness test: the literal is the pivot. */
  predicate IsEmptyComparison(t: Tree)
    requires t.BinaryExpression?
  {
    if IsEqualityExpression(t) then
      IsZero(t.left) || IsZero(t.right)
    else if t.op == GreaterThanOrEqualTo || t.op == LessThan then
      IsZero(t.left) || IsOne(t.right)
    else if t.op == GreaterThan || t.op == LessThanOrEqualTo then
      IsOne(t.left) || IsZero(t.right)
    else
      false
  }

  /** The condition under which visitBinaryExpression raises its issue. */
  predicate IsReported(t: Tree)
  {
    t.BinaryExpression? && HasCallToSizeMethod(t) && IsEmptyComparison(t)
  }

  // ---------------------------------------------------------------------------------------
  // Reference semantics: what the reported comparisons mean

  predicate IsDigit(c: char) { '0' <= c <= '9' }

  function DigitValue(c: char): nat
    requires IsDigit(c)
  {
    c as int - '0' as int
  }

  /** Value of a string of decimal digits. */
  function DigitsValue(s: string): nat
    requires forall k :: 0 <= k < |s| ==> IsDigit(s[k])
  {
    if s == [] then 0 else DigitsValue(s[..|s| - 1]) * 10 + DigitValue(s[|s| - 1])
  }

  /** A decimal numeral without leading zeros, underscores, prefix or suffix. */
  predicate IsPlainDecimal(s: string)
  {
    |s| > 0 && (forall k :: 0 <= k < |s| ==> IsDigit(s[k])) && (s[0] == '0' ==> |s| == 1)
  }

  /** The value of an int literal written in plain decimal; None for any other node or spelling. */
  function IntLiteralValue(e: Tree): Option<nat>
  {
    if e.Literal? && e.literalKind == IntLiteral && IsPlainDecimal(e.value) then Some(DigitsValue(e.value))
    else None
  }

  /** A numeral with a non-zero leading digit denotes at least 1, and at least 10 with two digits or more. */
  lemma {:induction false} LeadingDigitBound(s: string)
    requires |s| > 0 && (forall k :: 0 <= k < |s| ==> IsDigit(s[k])) && s[0] != '0'
    ensures DigitsValue(s) >= 1
    ensures |s| >= 2 ==> DigitsValue(s) >= 10
  {
    if |s| >= 2 {
      LeadingDigitBound(s[..|s| - 1]);
    } else {
      assert s[..0] == [];
    }
  }

  /** Among plain decimal numerals, "0" is the only spelling of 0 and "1" the only spelling of 1. */
  lemma PlainDecimalZeroOne(s: string)
    ensures IsPlainDecimal(s) && DigitsValue(s) == 0 <==> s == "0"
    ensures IsPlainDecimal(s) && DigitsValue(s) == 1 <==> s == "1"
  {
    if |s| == 1 {
      assert s == [s[0]];
      assert s[..0] == [];
    }
    if IsPlainDecimal(s) && s[0] != '0' {
      LeadingDigitBound(s);
    }
  }

  /** The spelling test of `isZero` and `isOne` is the numeric test on plain decimal int literals. */
  lemma ZeroOneByValue(e: Tree)
    ensures IsZero(e) <==> IntLiteralValue(e) == Some(0)
    ensures IsOne(e) <==> IntLiteralValue(e) == Some(1)
  {
    if e.Literal? {
      PlainDecimalZeroOne(e.value);
    }
  }

  /** The truth value of a relational operator; None for the operators that compute a value. */
  function Compare(op: BinaryKind, x: int, y: int): Option<bool>
  {
    match op
    case LessThan => Some(x < y)
    case GreaterThan => Some(x > y)
    case LessThanOrEqualTo => Some(x <= y)
    case GreaterThanOrEqualTo => Some(x >= y)
    case EqualTo => Some(x == y)
    case NotEqualTo => Some(x != y)
    case _ => None
  }

  /** The comparison of a collection size n with the constant c, the size on the given side. */
  function SizeComparison(op: BinaryKind, sizeOnLeft: bool, c: nat, n: nat): Option<bool>
  {
    if sizeOnLeft then Compare(op, n, c) else Compare(op, c, n)
  }

  /** For every possible size, the comparison says "empty", or for every size it says "not empty". */
  ghost predicate IsEmptinessTest(op: BinaryKind, sizeOnLeft: bool, c: nat)
  {
    (forall n: nat :: SizeComparison(op, sizeOnLeft, c, n) == Some(n == 0))
    || (forall n: nat :: SizeComparison(op, sizeOnLeft, c, n) == Some(n != 0))
  }

  /** A binary expression that compares a `size()` call with a decimal literal and tests emptiness. */
  ghost predicate ComparesSizeForEmptiness(t: Tree)
    requires t.BinaryExpression?
  {
    (IsCallToSizeMethod(t.left) && IntLiteralValue(t.right).Some?
     && IsEmptinessTest(t.op, true, IntLiteralValue(t.right).value))
    || (IsCallToSizeMethod(t.right) && IntLiteralValue(t.left).Some?
        && IsEmptinessTest(t.op, false, IntLiteralValue(t.left).value))
  }

  /** Which operator and constant make an emptiness test, the size on the given side. */
  predicate EmptinessPivot(op: BinaryKind, sizeOnLeft: bool, c: nat)
  {
    ((op == EqualTo || op == NotEqualTo) && c == 0)
    || ((op == GreaterThanOrEqualTo || op == LessThan) && c == (if sizeOnLeft then 1 else 0))
    || ((op == GreaterThan || op == LessThanOrEqualTo) && c == (if sizeOnLeft then 0 else 1))
  }

  /** An emptiness test is decided by the sizes 0, 1 and 2; no other constant than 0 or 1 gives one. */
  lemma EmptinessTestIffPivot(op: BinaryKind, sizeOnLeft: bool, c: nat)
    ensures IsEmptinessTest(op, sizeOnLeft, c) <==> EmptinessPivot(op, sizeOnLeft, c)
  {
    if IsEmptinessTest(op, sizeOnLeft, c) {
      var r0, r1, r2 := SizeComparison(op, sizeOnLeft, c, 0), SizeComparison(op, sizeOnLeft, c, 1),
                        SizeComparison(op, sizeOnLeft, c, 2);
      assert (r0, r1, r2) == (Some(true), Some(false), Some(false))
          || (r0, r1, r2) == (Some(false), Some(true), Some(true));
    }
  }

  /**
   * The check reports exactly the comparisons of a `size()` call with an int literal in plain
   * decimal that, whatever the size, are equivalent to "the collection is empty" or to "it is
   * not empty".
   */
  lemma ReportedIffEmptinessTest(t: Tree)
    requires t.BinaryExpression?
    ensures IsReported(t) <==> ComparesSizeForEmptiness(t)
  {
    ZeroOneByValue(t.left);
    ZeroOneByValue(t.right);
    var l, r := IntLiteralValue(t.left), IntLiteralValue(t.right);
    if r.Some? {
      EmptinessTestIffPivot(t.op, true, r.value);
    }
    if l.Some? {
      EmptinessTestIffPivot(t.op, false, l.value);
    }
  }

  // ---------------------------------------------------------------------------------------
  // The traversal

  /** visitClass scans a member unless the class is a Collection and the member a method. */
  predicate IsScannedMember(classType: Type, member: Tree)
  {
    !classType.IsSubtypeOf(JavaUtilCollection) || !IsMethodKind(member)
  }

  function ReportOf(t: Tree): seq<Issue>
  {
    if IsReported(t) then [Issue(t.id, CollectionIsEmpty, IssueMessage)] else []
  }

  /** The issues the visitor raises while scanning a tree, in the order it raises them. */
  function Walk(t: Tree): seq<Issue>
    decreases t, 1
  {
    match t
    case Class(_, _, symbolType, members) => WalkMembers(symbolType, members)
    case Method(_, _, _, body) => WalkList(body)
    case BinaryExpression(_, _, left, right) => Walk(left) + Walk(right) + ReportOf(t)
    case Literal(_, _, _) => []
    case MethodInvocation(_, _, children) => WalkList(children)
    case Other(_, children) => WalkList(children)
  }

  function WalkList(trees: seq<Tree>): seq<Issue>
    decreases trees
  {
    if trees == [] then [] else WalkList(trees[..|trees| - 1]) + Walk(trees[|trees| - 1])
  }

  function WalkMembers(classType: Type, members: seq<Tree>): seq<Issue>
    decreases members
  {
    if members == [] then []
    else
      var last := members[|members| - 1];
      WalkMembers(classType, members[..|members| - 1]) + (if IsScannedMember(classType, last) then Walk(last) else [])
  }

  /** Every node the visitor enters, children before parents (post-order). */
  function Scanned(t: Tree): seq<Tree>
    decreases t, 1
  {
    match t
    case Class(_, _, symbolType, members) => ScannedMembers(symbolType, members) + [t]
    case Method(_, _, _, body) => ScannedList(body) + [t]
    case BinaryExpression(_, _, left, right) => Scanned(left) + Scanned(right) + [t]
    case Literal(_, _, _) => [t]
    case MethodInvocation(_, _, children) => ScannedList(children) + [t]
    case Other(_, children) => ScannedList(children) + [t]
  }

  function ScannedList(trees: seq<Tree>): seq<Tree>
    decreases trees
  {
    if trees == [] then [] else ScannedList(trees[..|trees| - 1]) + Scanned(trees[|trees| - 1])
  }

  function ScannedMembers(classType: Type, members: seq<Tree>): seq<Tree>
    decreases members
  {
    if members == [] then []
    else
      var last := members[|members| - 1];
      ScannedMembers(classType, members[..|members| - 1]) + (if IsScannedMember(classType, last) then Scanned(last) else [])
  }

  /** One issue per reported node, in node order, each with the fixed message. */
  function Reports(nodes: seq<Tree>): (r: seq<Issue>)
    ensures |r| <= |nodes|
    ensures forall k :: 0 <= k < |r| ==>
              r[k].check == CollectionIsEmpty && r[k].message == IssueMessage
              && exists n :: n in nodes && IsReported(n) && n.id == r[k].node
  {
    if nodes == [] then []
    else Reports(nodes[..|nodes| - 1]) + ReportOf(nodes[|nodes| - 1])
  }

  lemma {:induction false} ReportsAppend(a: seq<Tree>, b: seq<Tree>)
    ensures Reports(a + b) == Reports(a) + Reports(b)
    decreases |b|
  {
    if b != [] {
      var n := |b| - 1;
      assert (a + b)[..|a + b| - 1] == a + b[..n];
      ReportsAppend(a, b[..n]);
    } else {
      assert a + b == a;
    }
  }

  /** The issues of a scan are the reports of the scanned nodes, in post-order. */
  lemma {:induction false} WalkIsPostOrderReports(t: Tree)
    ensures Walk(t) == Reports(Scanned(t))
    decreases t, 1
  {
    match t
    case Class(_, _, symbolType, members) =>
      WalkMembersIsPostOrderReports(symbolType, members);
      ChildrenStep(t, WalkMembers(symbolType, members), ScannedMembers(symbolType, members));
    case Method(_, _, _, body) =>
      WalkListIsPostOrderReports(body);
      ChildrenStep(t, WalkList(body), ScannedList(body));
    case BinaryExpression(_, _, left, right) =>
      WalkIsPostOrderReports(left);
      WalkIsPostOrderReports(right);
      BinaryExpressionStep(t);
    case Literal(_, _, _) =>
      ChildrenStep(t, [], []);
    case MethodInvocation(_, _, children) =>
      WalkListIsPostOrderReports(children);
      ChildrenStep(t, WalkList(children), ScannedList(children));
    case Other(_, children) =>
      WalkListIsPostOrderReports(children);
      ChildrenStep(t, WalkList(children), ScannedList(children));
  }

  /** A node other than a binary expression reports nothing itself: its issues are those of what it scans below it. */
  lemma ChildrenStep(t: Tree, below: seq<Issue>, scannedBelow: seq<Tree>)
    requires !t.BinaryExpression?
    requires Walk(t) == below && Scanned(t) == scannedBelow + [t]
    requires below == Reports(scannedBelow)
    ensures Walk(t) == Reports(Scanned(t))
  {
    NodeAfter(scannedBelow, t);
  }

  /** A node scanned after its descendants adds its own report, if any, after theirs. */
  lemma NodeAfter(before: seq<Tree>, t: Tree)
    ensures Reports(before + [t]) == Reports(before) + ReportOf(t)
  {
    assert (before + [t])[..|before|] == before;
  }

  /** A binary expression reports after the reports of its left, then its right operand. */
  lemma BinaryExpressionStep(t: Tree)
    requires t.BinaryExpression?
    requires Walk(t.left) == Reports(Scanned(t.left))
    requires Walk(t.right) == Reports(Scanned(t.right))
    ensures Walk(t) == Reports(Scanned(t))
  {
    ReportsAppend(Scanned(t.left), Scanned(t.right));
    NodeAfter(Scanned(t.left) + Scanned(t.right), t);
  }

  lemma {:induction false} WalkListIsPostOrderReports(trees: seq<Tree>)
    ensures WalkList(trees) == Reports(ScannedList(trees))
    decreases trees
  {
    if trees != [] {
      var n := |trees| - 1;
      WalkListIsPostOrderReports(trees[..n]);
      WalkIsPostOrderReports(trees[n]);
      ReportsAppend(ScannedList(trees[..n]), Scanned(trees[n]));
    }
  }

  lemma {:induction false} WalkMembersIsPostOrderReports(classType: Type, members: seq<Tree>)
    ensures WalkMembers(classType, members) == Reports(ScannedMembers(classType, members))
    decreases members
  {
    if members != [] {
      var n := |members| - 1;
      WalkMembersIsPostOrderReports(classType, members[..n]);
      if IsScannedMember(classType, members[n]) {
        WalkIsPostOrderReports(members[n]);
        ReportsAppend(ScannedMembers(classType, members[..n]), Scanned(members[n]));
      } else {
        assert ScannedMembers(classType, members) == ScannedMembers(classType, members[..n]);
        assert WalkMembers(classType, members) == WalkMembers(classType, members[..n]);
      }
    }
  }

  /** Every issue of a scan has the fixed message and is anchored at a scanned binary expression that is reported. */
  lemma WalkIssuesAreReportedNodes(t: Tree)
    ensures forall i :: i in Walk(t) ==>
              i.check == CollectionIsEmpty && i.message == IssueMessage
              && exists n :: n in Scanned(t) && n.BinaryExpression? && IsReported(n) && n.id == i.node
  {
    WalkIsPostOrderReports(t);
  }

  /** The members of a class that are not of kind METHOD (fields, constructors, nested types, ...). */
  function NonMethodMembers(members: seq<Tree>): (r: seq<Tree>)
    ensures forall m :: m in r ==> m in members && !IsMethodKind(m)
  {
    if members == [] then []
    else
      var last := members[|members| - 1];
      NonMethodMembers(members[..|members| - 1]) + (if IsMethodKind(last) then [] else [last])
  }

  lemma {:induction false} WalkListAppend(a: seq<Tree>, b: seq<Tree>)
    ensures WalkList(a + b) == WalkList(a) + WalkList(b)
    decreases |b|
  {
    if b != [] {
      var n := |b| - 1;
      assert (a + b)[..|a + b| - 1] == a + b[..n];
      WalkListAppend(a, b[..n]);
    } else {
      assert a + b == a;
    }
  }

  /**
   * A class that is a java.util.Collection is scanned as if it had only its non-method members;
   * any other class is scanned member by member.
   */
  lemma {:induction false} ClassMembersScanned(classType: Type, members: seq<Tree>)
    ensures classType.IsSubtypeOf(JavaUtilCollection)
            ==> WalkMembers(classType, members) == WalkList(NonMethodMembers(members))
    ensures !classType.IsSubtypeOf(JavaUtilCollection)
            ==> WalkMembers(classType, members) == WalkList(members)
    decreases members
  {
    if members != [] {
      var n := |members| - 1;
      var last := members[n];
      ClassMembersScanned(classType, members[..n]);
      if classType.IsSubtypeOf(JavaUtilCollection) {
        if !IsMethodKind(last) {
          WalkListAppend(NonMethodMembers(members[..n]), [last]);
          assert WalkList([last]) == WalkList([]) + Walk(last);
        } else {
          assert NonMethodMembers(members) == NonMethodMembers(members[..n]);
          assert WalkMembers(classType, members) == WalkMembers(classType, members[..n]);
        }
      }
    }
  }

  // ---------------------------------------------------------------------------------------
  // The visitor

  class CollectionIsEmptyCheck {
    /** The scanner context of the file being scanned; set by ScanFile. */
    var context: Context?

    constructor ()
      ensures context == null
    {
      context := null;
    }

    /** scanFile: remembers the file's context and scans its tree. */
    method ScanFile(context: Context, root: Tree)
      modifies this, context
      ensures this.context == context
      ensures context.issues == old(context.issues) + Walk(root)
    {
      this.context := context;
      Scan(root);
    }

    /** scan: the visitor's dispatch on the node kind; kinds without an override visit their children. */
    method Scan(tree: Tree)
      requires context != null
      modifies context
      ensures context.issues == old(context.issues) + Walk(tree)
      decreases tree, 1
    {
      match tree
      case Class(_, _, _, _) =>
        VisitClass(tree);
      case BinaryExpression(_, _, _, _) =>
        VisitBinaryExpression(tree);
      case Method(_, _, _, body) =>
        ScanList(body);
      case Literal(_, _, _) =>
      case MethodInvocation(_, _, children) =>
        ScanList(children);
      case Other(_, children) =>
        ScanList(children);
    }

    method ScanList(trees: seq<Tree>)
      requires context != null
      modifies context
      ensures context.issues == old(context.issues) + WalkList(trees)
      decreases trees
    {
      var i := 0;
      while i < |trees|
        invariant 0 <= i <= |trees|
        invariant context.issues == old(context.issues) + WalkList(trees[..i])
      {
        assert trees[..i + 1][..i] == trees[..i];
        Scan(trees[i]);
        i := i + 1;
      }
      assert trees[..|trees|] == trees;
    }

    /** visitClass: scans the members, skipping the methods of a class that is a Collection. */
    method VisitClass(tree: Tree)
      requires tree.Class? && context != null
      modifies context
      ensures context.issues == old(context.issues) + Walk(tree)
      decreases tree, 0
    {
      var members := tree.members;
      var i := 0;
      while i < |members|
        invariant 0 <= i <= |members|
        invariant context.issues == old(context.issues) + WalkMembers(tree.symbolType, members[..i])
      {
        var member := members[i];
        assert members[..i + 1][..i] == members[..i];
        if !tree.symbolType.IsSubtypeOf(JavaUtilCollection) || !IsMethodKind(member) {
          Scan(member);
        }
        i := i + 1;
      }
      assert members[..|members|] == members;
    }

    /** visitBinaryExpression: operands first, then the check on the expression itself. */
    method VisitBinaryExpression(tree: Tree)
      requires tree.BinaryExpression? && context != null
      modifies context
      ensures context.issues == old(context.issues) + Walk(tree)
      decreases tree, 0
    {
      ghost var before := context.issues;
      Scan(tree.left);
      Scan(tree.right);
      assert context.issues == before + Walk(tree.left) + Walk(tree.right);
      if HasCallToSizeMethod(tree) && IsEmptyComparison(tree) {
        context.AddIssue(tree.id, CollectionIsEmpty, IssueMessage);
      }
    }
  }

  // ---------------------------------------------------------------------------------------
  // Concrete scenarios

  function SizeCall(id: NodeId): Tree
  {
    MethodInvocation(id, Some(MethodRef(Type(false, {"java.util.List", JavaUtilCollection}), SizeMethodName, 0)), [])
  }

  /** `collection.size() == 0` is reported. */
  lemma SizeEqualsZeroIsReported()
    ensures Walk(BinaryExpression(3, EqualTo, SizeCall(1), Literal(2, IntLiteral, "0")))
            == [Issue(3, CollectionIsEmpty, IssueMessage)]
  {
  }

  /** `list.size() >= 1` is reported. */
  lemma SizeAtLeastOneIsReported()
    ensures Walk(BinaryExpression(3, GreaterThanOrEqualTo, SizeCall(1), Literal(2, IntLiteral, "1")))
            == [Issue(3, CollectionIsEmpty, IssueMessage)]
  {
  }

  /** `collection.size() == 1` is not reported. */
  lemma SizeEqualsOneIsNotReported()
    ensures Walk(BinaryExpression(3, EqualTo, SizeCall(1), Literal(2, IntLiteral, "1"))) == []
  {
  }
}
