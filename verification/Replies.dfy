/** What a call into the environment answers: a value, an error, or nothing because the process died first. */
module Replies {

  datatype Option<+T> = None | Some(value: T)

  datatype Reply<+T, +E> = Ok(value: T) | Err(error: E) | Crashed

  /** Atomic replacement of a state file (write, sync, rename, sync the directory).
      An error, or a crash, may come before or after the new content reached the disk. */
  datatype SaveReply = Saved | SaveFailed(reached: bool) | SaveCrashed(reached: bool) {
    predicate Reached() {
      Saved? || reached
    }
  }
}
