/** The continuation `suspendCoroutine` hands to an operation's body, reduced
    to a write-once slot. The first resume fixes the outcome; a further
    resume leaves it as it was and throws IllegalStateException
    ("Already resumed"). */
module Coroutines {
  import opened FilesystemBase

  /** `ResumedTwice` is the error state: a second resume was attempted and
      threw, so the caller receives that exception instead of `first`. */
  datatype Slot<T> = Pending | Resumed(first: Result<T>) | ResumedTwice(first: Result<T>)

  /** The slot after one more resume with `x`. */
  function Commit<T>(s: Slot<T>, x: Result<T>): (r: Slot<T>)
    ensures !r.Pending?
    ensures r.Resumed? <==> s.Pending?
    ensures r.first == if s.Pending? then x else s.first
  {
    match s
    case Pending => Resumed(x)
    case Resumed(f) => ResumedTwice(f)
    case ResumedTwice(f) => ResumedTwice(f)
  }

  /** What the suspended caller receives: nothing while the slot is pending,
      the committed outcome after one resume, and the exception the second
      resume threw otherwise. */
  function Delivered<T>(s: Slot<T>): Option<Result<T>> {
    match s
    case Pending => None
    case Resumed(x) => Some(x)
    case ResumedTwice(_) => Some(Err(IllegalStateException))
  }

  class Continuation<T> {
    var state: Slot<T>

    constructor ()
      ensures state == Pending
    {
      state := Pending;
    }

    /** `resume(value)` and `resumeWithException(e)`; `threw` reports the
        "Already resumed" exception. */
    method ResumeWith(x: Result<T>) returns (threw: bool)
      modifies this
      ensures state == Commit(old(state), x)
      ensures threw <==> !old(state).Pending?
    {
      threw := !state.Pending?;
      state := Commit(state, x);
    }
  }
}
