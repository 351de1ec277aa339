/**
  The causes that the writer wraps into its single io::Error. The source maps
  every one of them through io::Error::other and gives up at once; the model
  keeps the cause so that the lemmas can say which failure ends a run.
 */
module Errors {

  datatype Error =
    | HeadUnresolved       // the repository has no head commit to start from
    | WalkFailed           // the ancestor walk could not be set up
    | ObjectUnreadable     // an item of the walk, or its commit object, could not be read
    | AuthorUnreadable     // the author signature of a commit could not be decoded
    | MessageUnreadable    // the raw message of an accepted commit could not be read
    | CommitterUnreadable  // the committer signature of an accepted commit could not be decoded
    | InvalidBatch         // the record batch refused its columns
    | StreamClosed         // a frame was written to a stream writer that was already finished
}
