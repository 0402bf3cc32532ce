/**
 * `Fetcher`, the stream behind `iterate_over_batch`: it reads a stream (or
 * `$all`) page by page, each page request starting where the previous page
 * said the next one begins.
 *
 * A page request is a future; here the answers its polls get are an oracle,
 * indexed by how many times the fetcher has polled a request so far and by
 * the position the request was made for. `L` is the kind of position (an
 * event number for a stream, a `Position` for `$all`), `E` the kind of event.
 */
module TcpFetcher {

  import opened Wrappers

  /** `ReadStreamError`: the three that fail the iteration, and the rest. */
  datatype ReadStreamError =
    | ServerFailure(message: string)
    | AccessDenied(stream: string)
    | StreamDeleted(stream: string)
    | NonBlocking(stream: string)   // stream missing, not modified, ...: read as an empty stream

  datatype LocatedEvents<E, L> = EndOfStream | Events(events: seq<E>, next: Option<L>)

  datatype ReadStreamStatus<E, L> = ReadError(error: ReadStreamError) | ReadSuccess(located: LocatedEvents<E, L>)

  /** The `OperationError`s the iteration ends with; `Transport` is whatever error the request future itself fails with. */
  datatype OperationError =
    | ServerError(message: Option<string>)
    | AccessDeniedError(stream: string)
    | StreamDeletedError(stream: string)
    | Transport(reason: string)

  /** What one poll of a request future gives. */
  datatype FutureAnswer<E, L> = NotYet | Answered(status: ReadStreamStatus<E, L>) | FutureFailed(error: OperationError)

  type Answers<E, !L> = (nat, L) -> FutureAnswer<E, L>

  /** `Fetch`: fetch the current position next, wait on the request for a position, or move on to the next page. */
  datatype Fetch<L> = Needed | Fetching(at: L) | Next(next: Option<L>)

  /** What `poll` returns: a page, the end of the stream, not ready yet, or an error. */
  datatype Polled<E> = Page(events: seq<E>) | Finished | Pending | Failed(error: OperationError)

  /** Everything `poll` reads and writes. */
  datatype FetcherState<L> = FetcherState(pos: L, state: Fetch<L>, polls: nat, fetches: seq<L>)

  /** Steps left before `poll` waits on a request. */
  function Rank<L>(f: Fetch<L>): nat {
    match f
    case Fetching(_) => 0
    case Needed => 1
    case Next(_) => 2
  }

  /**
   * What a ready answer means for the iteration: the error outcomes, the
   * empty-stream outcomes, and a page with where to continue.
   */
  function Interpret<E, L>(answer: FutureAnswer<E, L>, at: L): (r: (Polled<E>, Fetch<L>))
    ensures r.0.Failed? <==>
      || answer.FutureFailed?
      || (answer.Answered? && answer.status.ReadError? && !answer.status.error.NonBlocking?)
    ensures r.0.Finished? <==>
      answer.Answered? && (answer.status.ReadError? ==> answer.status.error.NonBlocking?)
                       && (answer.status.ReadSuccess? ==> answer.status.located.EndOfStream?)
    ensures r.0.Page? <==> answer.Answered? && answer.status.ReadSuccess? && answer.status.located.Events?
    ensures r.0.Pending? <==> answer.NotYet?
    ensures r.0.Page? ==> r.0.events == answer.status.located.events && r.1 == Next(answer.status.located.next)
    ensures r.0.Pending? ==> r.1 == Fetching(at)
    ensures !r.0.Page? && !r.0.Pending? ==> r.1 == Needed
  {
    match answer
    case FutureFailed(e) => (Failed(e), Needed)
    case NotYet => (Pending, Fetching(at))
    case Answered(ReadError(ServerFailure(e))) => (Failed(ServerError(Some(e))), Needed)
    case Answered(ReadError(AccessDenied(s))) => (Failed(AccessDeniedError(s)), Needed)
    case Answered(ReadError(StreamDeleted(s))) => (Failed(StreamDeletedError(s)), Needed)
    case Answered(ReadError(NonBlocking(_))) => (Finished, Needed)
    case Answered(ReadSuccess(EndOfStream)) => (Finished, Needed)
    case Answered(ReadSuccess(Events(events, next))) => (Page(events), Next(next))
  }

  /** Which server error each failing read error becomes. */
  lemma ReadErrorsKeepTheirCause<E, L>(error: ReadStreamError, at: L)
    ensures error.ServerFailure? ==>
      Interpret<E, L>(Answered(ReadError(error)), at).0 == Failed(ServerError(Some(error.message)))
    ensures error.AccessDenied? ==>
      Interpret<E, L>(Answered(ReadError(error)), at).0 == Failed(AccessDeniedError(error.stream))
    ensures error.StreamDeleted? ==>
      Interpret<E, L>(Answered(ReadError(error)), at).0 == Failed(StreamDeletedError(error.stream))
  {
  }

  /** `poll` as a function of the fetcher's state: the loop, unrolled through its states. */
  function Step<E, L>(answers: Answers<E, L>, s: FetcherState<L>): (Polled<E>, FetcherState<L>)
    decreases Rank(s.state)
  {
    match s.state
    case Needed => Step(answers, s.(state := Fetching(s.pos), fetches := s.fetches + [s.pos]))
    case Next(next) =>
      if next.Some? then Step(answers, s.(pos := next.value, state := Needed))
      else (Finished, s.(state := Needed))
    case Fetching(at) =>
      var (polled, state) := Interpret(answers(s.polls, at), at);
      (polled, s.(state := state, polls := s.polls + 1))
  }

  /** The position the next request goes to, when a poll will wait on one. */
  function RequestPosition<L>(s: FetcherState<L>): L
    requires s.state != Next(None)
  {
    match s.state
    case Fetching(at) => at
    case Needed => s.pos
    case Next(next) => next.value
  }

  /**
   * Unless the last page said there is no next one, a poll waits on exactly
   * one answer, for the request at `RequestPosition`: a request already in
   * flight, or a new one recorded in `fetches`. A new request for the next
   * page also moves `pos` there.
   */
  lemma {:induction false} PollWaitsOnce<E, L>(answers: Answers<E, L>, s: FetcherState<L>)
    requires s.state != Next(None)
    ensures var at := RequestPosition(s);
      var (polled, t) := Step(answers, s);
      && (polled, t.state) == Interpret(answers(s.polls, at), at)
      && t.polls == s.polls + 1
      && t.fetches == s.fetches + (if s.state.Fetching? then [] else [at])
      && t.pos == (if s.state.Next? then at else s.pos)
    decreases Rank(s.state)
  {
    match s.state
    case Fetching(_) =>
    case Needed =>
      PollWaitsOnce(answers, s.(state := Fetching(s.pos), fetches := s.fetches + [s.pos]));
    case Next(next) =>
      PollWaitsOnce(answers, s.(pos := next.value, state := Needed));
  }

  /**
   * Paging: after a poll returns a page whose next position is `p`, the next
   * poll requests the page at `p`; after a last page it ends the stream
   * without a request.
   */
  lemma PagesFollowEachOther<E, L>(answers: Answers<E, L>, s: FetcherState<L>)
    requires s.state != Next(None)
    requires Step(answers, s).0.Page?
    ensures var t := Step(answers, s).1;
      && t.state.Next?
      && (t.state.next.Some? ==>
            Step(answers, t).1.fetches == t.fetches + [t.state.next.value] && Step(answers, t).1.pos == t.state.next.value)
      && (t.state.next.None? ==>
            Step(answers, t).0 == Finished && Step(answers, t).1.fetches == t.fetches)
  {
    PollWaitsOnce(answers, s);
    var t := Step(answers, s).1;
    if t.state.Next? && t.state.next.Some? {
      PollWaitsOnce(answers, t);
    }
  }

  /** A fresh fetcher's first poll requests the start position. */
  lemma FirstPollRequestsStart<E, L>(answers: Answers<E, L>, start: L)
    ensures Step(answers, FetcherState(start, Needed, 0, [])).1.fetches == [start]
  {
    PollWaitsOnce(answers, FetcherState(start, Needed, 0, []));
  }

  class Fetcher<E, L> {
    var pos: L
    var state: Fetch<L>
    /** How many times a request future has been polled. */
    var polls: nat
    /** The positions requested so far, in order. */
    var fetches: seq<L>
    const answers: Answers<E, L>

    function Snapshot(): FetcherState<L>
      reads this
    {
      FetcherState(pos, state, polls, fetches)
    }

    /** The fetcher `iterate_over_batch` builds: at the command's start, with a fetch needed. */
    constructor (start: L, answers: Answers<E, L>)
      ensures Snapshot() == FetcherState(start, Needed, 0, [])
      ensures this.answers == answers
    {
      pos := start;
      state := Needed;
      polls := 0;
      fetches := [];
      this.answers := answers;
    }

    /** `Fetcher::poll`. */
    method Poll() returns (polled: Polled<E>)
      modifies this
      ensures (polled, Snapshot()) == Step(answers, old(Snapshot()))
    {
      while true
        invariant Step(answers, Snapshot()) == Step(answers, old(Snapshot()))
        decreases Rank(state)
      {
        var current := state;
        state := Needed;
        match current {
          case Needed =>
            fetches := fetches + [pos];
            state := Fetching(pos);
          case Next(next) =>
            if next.Some? {
              pos := next.value;
              state := Needed;
            } else {
              return Finished;
            }
          case Fetching(at) =>
            var answer := answers(polls, at);
            polls := polls + 1;
            match answer {
              case FutureFailed(e) =>
                return Failed(e);
              case NotYet =>
                state := Fetching(at);
                return Pending;
              case Answered(status) =>
                match status {
                  case ReadError(error) =>
                    match error {
                      case ServerFailure(e) => return Failed(ServerError(Some(e)));
                      case AccessDenied(s) => return Failed(AccessDeniedError(s));
                      case StreamDeleted(s) => return Failed(StreamDeletedError(s));
                      case NonBlocking(_) => return Finished;
                    }
                  case ReadSuccess(located) =>
                    match located {
                      case EndOfStream =>
                        return Finished;
                      case Events(events, next) =>
                        state := Next(next);
                        return Page(events);
                    }
                }
            }
        }
      }
    }
  }
}
