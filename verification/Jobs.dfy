// app/jobs.py: the states of a job, shared by everything that runs in one.
module Jobs {
  datatype JobState = Queued | Leased | Running | Succeeded | Failed | Cancelled | TimedOut

  predicate Terminal(s: JobState) {
    s == Succeeded || s == Failed || s == Cancelled || s == TimedOut
  }

  // Ended otherwise than by succeeding.
  predicate Dead(s: JobState) {
    s == Failed || s == Cancelled || s == TimedOut
  }

  predicate UnderWay(s: JobState) {
    s == Leased || s == Running
  }

  // What recover_expired makes of a job that it reads under way, its lease over.
  function Reaped(cancelRequested: bool, attempts: nat, maxAttempts: nat): JobState {
    if cancelRequested then Cancelled else if attempts < maxAttempts then Queued else TimedOut
  }
}
