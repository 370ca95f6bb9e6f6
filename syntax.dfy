/**
 * The part of the Java syntax tree and of its resolved semantic information that the two
 * checks read. The tree is built and resolved by the host; here it is a plain value.
 *
 * A resolved type carries the reflexive-transitive closure of its supertypes and
 * interfaces as a set of fully qualified names, so "is a subtype of X" is membership.
 * An unknown type has an empty closure and is a subtype of nothing.
 */
module Syntax {
  import opened Wrappers

  /** Identity of a tree node, the anchor of a reported issue. */
  type NodeId = nat

  datatype Type = Type(isVoid: bool, ancestors: set<string>)
  {
    predicate IsSubtypeOf(name: string) { name in ancestors }
  }

  /** The resolved symbol of a method declaration and its declared signature.
      `returnType` is None where the tree has no return type (a constructor). */
  datatype MethodDecl = MethodDecl(
    name: string,
    isPublic: bool,
    isStatic: bool,
    parameterCount: nat,
    returnType: Option<Type>)

  /** The resolved method symbol a call site refers to: the type that owns the method and its name.
      An invocation whose symbol the host could not resolve has no target. */
  datatype MethodRef = MethodRef(owner: Type, name: string, parameterCount: nat)

  /** Kinds of class-like declarations; each is a ClassTree. */
  datatype ClassKind = ClassDecl | InterfaceDecl | EnumDecl | AnnotationTypeDecl

  /** The operators of Java binary expressions. */
  datatype BinaryKind =
    | Multiply | Divide | Remainder | Plus | Minus
    | LeftShift | RightShift | UnsignedRightShift
    | LessThan | GreaterThan | LessThanOrEqualTo | GreaterThanOrEqualTo
    | EqualTo | NotEqualTo
    | And | Xor | Or | ConditionalAnd | ConditionalOr

  datatype LiteralKind =
    | IntLiteral | LongLiteral | FloatLiteral | DoubleLiteral
    | BooleanLiteral | CharLiteral | StringLiteral | NullLiteral

  /**
   * A syntax tree node. Children appear in source order, which is traversal order.
   * `Method` covers the two kinds of MethodTree: a method (kind METHOD) and a constructor
   * (kind CONSTRUCTOR). `Other` stands for every node kind the checks do not look at.
   */
  datatype Tree =
    | Class(id: NodeId, classKind: ClassKind, symbolType: Type, members: seq<Tree>)
    | Method(id: NodeId, isConstructor: bool, decl: MethodDecl, body: seq<Tree>)
    | BinaryExpression(id: NodeId, op: BinaryKind, left: Tree, right: Tree)
    | Literal(id: NodeId, literalKind: LiteralKind, value: string)
    | MethodInvocation(id: NodeId, target: Option<MethodRef>, children: seq<Tree>)
    | Other(id: NodeId, children: seq<Tree>)

  /** `tree.is(Tree.Kind.METHOD)`: a method declaration, not a constructor. */
  predicate IsMethodKind(t: Tree) { t.Method? && !t.isConstructor }
}
