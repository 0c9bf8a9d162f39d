/**
 The worker of the protocol is the worker of backend/booking_worker.py: whatever happens between its
 provider calls, its phases lead to the one write that a whole pass over the same replies would make, and
 storing it is the same table transaction.  A store that raises is outside the pass; BookingProtocol has it.
 */
module BookingRefinement {
  import opened Common
  import opened BookingQueue
  import opened BookingWorker
  import opened BookingProtocol

  /** Others may have moved between two steps of worker `w`, but not `w` itself. */
  predicate SameWorker(s: State, t: State, w: nat) {
    w in s.workers && w in t.workers && s.workers[w] == t.workers[w]
  }

  /** How the provider write comes back: the broker's answer to `call`, or an error in its place when that is lost. */
  datatype Return = Heard | Lost(code: int)

  function ReplyOf(s: State, call: nat, back: Return): BookReply
    requires back.Heard? ==> call in s.calls && s.calls[call].phase.Answered?
  {
    match back
    case Heard => s.calls[call].phase.reply
    case Lost(code) => BookHttpError(code)
  }

  /** The states in which a worker hears its replies: `asks`, then `checks`, `sends` and `hears`, as far as it gets. */
  ghost predicate Pass(asks: State, checks: State, sends: State, hears: State, w: nat, call: nat,
                       status: StatusReply, availability: AvailabilityReply, sample: real) {
    && w in asks.workers && asks.workers[w].phase.AskStatus? && StatusPossible(asks, asks.workers[w].job.key, status)
    && var asked := ProgressStep(asks, w, HearStatus(status, sample)).value;
    asked.workers[w].phase.AskAvailability? ==>
      && SameWorker(asked, checks, w)
      && var checked := ProgressStep(checks, w, HearAvailability(availability, sample)).value;
      checked.workers[w].phase.SendBook? ==>
        && SameWorker(checked, sends, w) && call !in sends.calls
        && SameWorker(ProgressStep(sends, w, Send(call)).value, hears, w)
  }

  /** The step that decides what to write. */
  function Decided(asks: State, checks: State, hears: State, w: nat, job: Job, status: StatusReply,
                   availability: AvailabilityReply, back: Return, sample: real): Option<State>
    requires w in asks.workers && w in checks.workers && w in hears.workers
  {
    if !AfterStatus(status, job.attempt, sample).Continue? then ProgressStep(asks, w, HearStatus(status, sample))
    else if !AfterAvailability(availability, job.payload.start, job.attempt, sample).Continue?
    then ProgressStep(checks, w, HearAvailability(availability, sample))
    else match back
      case Heard => ProgressStep(hears, w, HearBook(sample))
      case Lost(code) => ProgressStep(hears, w, LoseBook(code, sample))
  }

  /**
   Under every interleaving, with the answer to the provider write delivered or lost, the worker decides to
   write exactly the result of `process_booking_request`; a lost answer counts as the HTTP error it raises.
   */
  lemma WorkerWritesThePassResult(asks: State, checks: State, sends: State, hears: State, w: nat, call: nat,
                                  status: StatusReply, availability: AvailabilityReply, back: Return, sample: real, t: State)
    requires w in checks.workers && w in hears.workers
    requires back.Heard? ==> call in hears.calls && hears.calls[call].phase.Answered?
    requires Pass(asks, checks, sends, hears, w, call, status, availability, sample)
    requires Decided(asks, checks, hears, w, asks.workers[w].job, status, availability, back, sample) == Some(t)
    ensures w in t.workers && t.workers[w].job == asks.workers[w].job
    ensures var d := PassDecision(asks.workers[w].job, status, availability, ReplyOf(hears, call, back), sample);
            t.workers[w].phase == Writing(d.write, d.Raise?)
  {
    var job := asks.workers[w].job;
    if AfterStatus(status, job.attempt, sample).Continue? {
      HearingStatusAsksNext(asks, w, status, sample);
      if AfterAvailability(availability, job.payload.start, job.attempt, sample).Continue? {
        HearingAvailabilitySendsNext(checks, w, availability, sample);
      }
    }
  }

  /** Storing that result is the table transaction of the pass. */
  lemma StoringIsTheTableTransaction(s: State, w: nat, t: State)
    requires w in s.workers && s.workers[w].phase.Writing? && ProgressStep(s, w, StoreResult) == Some(t)
    ensures t.rows == WriteRow(s.rows, s.workers[w].job.key, s.workers[w].phase.write, s.now) && w !in t.workers
  {
  }

  lemma HearingStatusAsksNext(s: State, w: nat, status: StatusReply, sample: real)
    requires w in s.workers && ProgressStep(s, w, HearStatus(status, sample)).Some?
    requires AfterStatus(status, s.workers[w].job.attempt, sample).Continue?
    ensures var t := ProgressStep(s, w, HearStatus(status, sample)).value;
            w in t.workers && t.workers[w] == Worker(s.workers[w].job, AskAvailability)
  {
  }

  lemma HearingAvailabilitySendsNext(s: State, w: nat, availability: AvailabilityReply, sample: real)
    requires w in s.workers && ProgressStep(s, w, HearAvailability(availability, sample)).Some?
    requires AfterAvailability(availability, s.workers[w].job.payload.start, s.workers[w].job.attempt, sample).Continue?
    ensures var t := ProgressStep(s, w, HearAvailability(availability, sample)).value;
            w in t.workers && t.workers[w] == Worker(s.workers[w].job, SendBook)
  {
  }
}
