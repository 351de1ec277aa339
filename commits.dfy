/**
  The commit history as the writer sees it: the ancestor walk from the head
  commit, one item per visited commit, each as far as it could be decoded.
  Object ids are already rendered as hexadecimal strings and byte strings are
  already decoded (lossily) to text.
 */
module Commits {
  import opened Wrappers

  /** A decoded author or committer signature; `seconds` is the time in seconds since the epoch. */
  datatype Signature = Signature(name: string, email: string, seconds: int)

  /**
    One item of the ancestor walk. `Unreadable` is an item the walk yielded as
    an error, or whose commit object could not be found. For a `Commit`, each
    part that is decoded on demand is `None` when its decoding fails.
   */
  datatype Ancestor =
    | Unreadable
    | Commit(id: string, author: Option<Signature>, rawMessage: Option<string>,
             committer: Option<Signature>, parentIds: seq<string>)

  /**
    What the repository offers the writer: no head commit, a head commit whose
    ancestor walk cannot be started, or the walk in traversal order.
   */
  datatype History =
    | NoHead
    | Unwalkable
    | Ancestry(ancestors: seq<Ancestor>)

  /** One row of the output: an accepted commit with its message as stored. */
  datatype CommitRecord = CommitRecord(id: string, message: string, author: Signature,
                                       committer: Signature, parentIds: seq<string>)
}
