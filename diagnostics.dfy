/**
 * The reporting boundary: the per-file scanner context into which checks push issues.
 * Persisting and displaying issues is the host's business; here the context only keeps
 * the issues in the order they were added.
 */
module Diagnostics {
  import opened Syntax

  /** The check that raised an issue. */
  datatype CheckId = JunitMethodDeclaration | CollectionIsEmpty

  datatype Issue = Issue(node: NodeId, check: CheckId, message: string)

  class Context {
    var issues: seq<Issue>

    constructor ()
      ensures issues == []
    {
      issues := [];
    }

    method AddIssue(node: NodeId, check: CheckId, message: string)
      modifies this
      ensures issues == old(issues) + [Issue(node, check, message)]
    {
      issues := issues + [Issue(node, check, message)];
    }
  }
}
