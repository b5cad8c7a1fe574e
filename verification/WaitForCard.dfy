/**
 * `waitForCard`: the stream first, polling when the stream fails in transit, both under one deadline.
 * Times are milliseconds.
 */
module WaitForCard {
  import opened Common
  import S = EventStream

  /** How the stream attempt ended: with what the reader returned or threw, an HTTP error, an abort, or in transit. */
  datatype StreamEnd = Read(outcome: S.Outcome) | Http(status: nat) | Aborted | Transport

  datatype Result = Card(card: nat) | Failed(error: nat) | Expired | OrderNotFound | AuthFailed | RequestThrew | Timeout

  /** The ends that polling takes over from. A stream that just ends is none of them: it counts as a timeout. */
  predicate FallsBack(end: StreamEnd) {
    || end == Transport
    || end == Read(S.BufferOverflow) || end == Read(S.TypeErrorThrown)
    || (end.Http? && end.status != 404 && end.status != 401)
  }

  /** What getOrder shows or throws; `Waiting` is every phase that is not terminal. */
  datatype Poll = Ready(card: nat) | PollFailed(error: nat) | PollExpired | PollThrew | Waiting

  /** The poll ends the wait with this result. */
  predicate Ends(p: Poll, r: Result) {
    || (p.Ready? && r == Card(p.card))
    || (p.PollFailed? && r == Failed(p.error))
    || (p.PollExpired? && r == Expired)
    || (p.PollThrew? && r == RequestThrew)
  }

  /** The clock at the k-th turn of the polling loop: a turn takes at least the interval and at most `turn`. */
  ghost predicate Turns(at: nat -> nat, start: nat, intervalMs: nat, turn: nat) {
    && at(0) == start
    && (forall k: nat :: at(k) + Max(intervalMs, 1) <= at(k + 1) <= at(k) + turn)
  }

  /** The first n polls were made before the deadline and showed a phase that is not terminal. */
  ghost predicate Waited(at: nat -> nat, polls: nat -> Poll, deadline: nat, n: nat) {
    forall k: nat :: k < n ==> at(k) < deadline && polls(k) == Waiting
  }

  /** waitForCardPoll: `polls(k)` is the answer of the k-th request. */
  method WaitByPolling(polls: nat -> Poll, at: nat -> nat, timeoutMs: nat, ghost intervalMs: nat, ghost turn: nat)
    returns (r: Result, n: nat)
    requires Turns(at, at(0), intervalMs, turn)
    ensures Waited(at, polls, at(0) + timeoutMs, n)
    ensures if at(n) < at(0) + timeoutMs then Ends(polls(n), r) else r == Timeout
  {
    var deadline := at(0) + timeoutMs;
    n := 0;
    while at(n) < deadline
      invariant Waited(at, polls, deadline, n)
      decreases deadline - at(n)
    {
      match polls(n) {
        case Ready(card) => return Card(card), n;
        case PollFailed(error) => return Failed(error), n;
        case PollExpired => return Expired, n;
        case PollThrew => return RequestThrew, n;
        case Waiting =>
      }
      assert at(n) < at(n + 1);
      n := n + 1;
    }
    r := Timeout;
  }

  /**
   * The whole wait, begun at `start` with the stream ending at `at(0)`. A decisive stream end is the result. Else
   * every poll starts before `start + timeoutMs`, the first decisive one is the result, and the wait is over at most
   * one turn after the later of the deadline and the stream's end.
   */
  method Wait(start: nat, timeoutMs: nat, end: StreamEnd, polls: nat -> Poll, at: nat -> nat, ghost intervalMs: nat,
              ghost turn: nat)
    returns (r: Result, n: nat)
    requires start <= at(0) && Turns(at, at(0), intervalMs, turn)
    ensures !FallsBack(end) ==> n == 0
    ensures end.Read? && end.outcome.Card? ==> r == Card(end.outcome.card)
    ensures end.Read? && end.outcome.FailedWith? ==> r == Failed(end.outcome.error)
    ensures end == Read(S.Expired) ==> r == Expired
    ensures end == Read(S.StreamEnded) || end == Aborted ==> r == Timeout
    ensures end == Http(404) ==> r == OrderNotFound
    ensures end == Http(401) ==> r == AuthFailed
    ensures FallsBack(end) ==>
              && Waited(at, polls, start + timeoutMs, n)
              && (if at(n) < start + timeoutMs then Ends(polls(n), r) else r == Timeout)
    ensures at(n) <= Max(at(0), start + timeoutMs + turn)
  {
    n := 0;
    match end {
      case Read(Card(card)) => return Card(card), n;
      case Read(FailedWith(error)) => return Failed(error), n;
      case Read(Expired) => return Expired, n;
      case Read(StreamEnded) => return Timeout, n;
      case Aborted => return Timeout, n;
      case Http(status) =>
        if status == 404 { return OrderNotFound, n; }
        if status == 401 { return AuthFailed, n; }
      case _ =>
    }
    var deadline := start + timeoutMs;
    if deadline <= at(0) { return Timeout, n; }
    r, n := WaitByPolling(polls, at, deadline - at(0), intervalMs, turn);
    if n > 0 {
      assert at(n - 1) < deadline && at(n - 1 + 1) <= at(n - 1) + turn;
    }
  }
}
