/** Names shared by every part of the model. */
module Common {

  datatype Option<+T> = None | Some(value: T)

  /** What a lifecycle call reports (chamge/types.h). */
  datatype Return = Fail | Ok | Async

  /** The three states of a node (README.md, "Broker types states"). */
  datatype NodeState = Null | Enrolled | Activated

  /** The two kinds of node that enrol with the arbiter. */
  datatype Kind = Edge | Hub

  /** The requests a node sends to the arbiter's enrol queue. */
  datatype Op = Enroll | Delist | Activate

  /** The byte that ends a C string. */
  const NUL: char := '\0'

  /** A string that C code can hold without losing its tail. */
  predicate NulFree(s: string)
  {
    forall i | 0 <= i < |s| :: s[i] != NUL
  }
}
