/** The native branch of `load()` (src/observer.js:197-231): a loader that
    asks `document.fonts.load` every 25 ms until a face matches, the
    registry fails or the timeout has elapsed, raced against a timer that
    rejects after `timeoutValue` ms. The first of the two to settle decides
    the outcome; the loser keeps running but cannot change it. */
module NativeLoad {
  import opened JsValues
  import opened Observer

  /** What one `document.fonts.load(shorthand, text)` promise settles with:
      the list of matching faces (only its length matters) or an error. */
  datatype RegistryAnswer = Faces(count: nat) | Failed(error: string)

  /** What one run of the loader's `check` does. */
  datatype PollStep = TimedOut | Loaded | Retry | Error(error: string)

  /** The loader re-polls after this many milliseconds. */
  const PollInterval := 25

  /** The loader's `check` at time `now`: a timeout test first, then the
      registry's answer (not asked for once the timeout has elapsed). */
  function PollStepAt(now: int, start: int, timeoutValue: int, answer: RegistryAnswer): (step: PollStep)
    ensures step == TimedOut <==> now - start >= timeoutValue
    ensures step == Loaded <==> now - start < timeoutValue && answer.Faces? && answer.count >= 1
    ensures step == Retry <==> now - start < timeoutValue && answer == Faces(0)
    ensures step.Error? <==> now - start < timeoutValue && answer.Failed?
    ensures step.Error? ==> step.error == answer.error
  {
    if now - start >= timeoutValue then TimedOut
    else match answer
      case Faces(n) => if n >= 1 then Loaded else Retry
      case Failed(e) => Error(e)
  }

  class NativePoll {
    /** The shorthand and text the registry is asked about. */
    const query: string
    const testString: string
    const start: int
    const timeoutValue: int
    /** The `loader` promise. */
    var loader: Settlement
    /** Whether a `check` is scheduled (or, at first, about to run). */
    var pollDue: bool
    /** Whether the timeout timer (`timeoutId`) is still pending. */
    var timerArmed: bool
    /** The promise `load()` returned. */
    var outcome: Settlement

    /** While undecided, both racers are still running; a success has
        cleared the timer; a rejection is the timeout's or the loader's own. */
    ghost predicate Valid()
      reads this
    {
      (pollDue <==> loader.Pending?) &&
      (outcome.Pending? ==> loader.Pending? && timerArmed) &&
      (outcome.Fulfilled? ==> loader.Fulfilled? && !timerArmed) &&
      (outcome.Rejected? ==> outcome.error == TimeoutMessage(timeoutValue) || outcome == loader)
    }

    /** `load(text, timeout)` at time `start` on the native branch: the first
        `check` is due and the timer is set. */
    constructor (o: FontFaceObserver, text: Option<string>, timeout: Option<int>,
                 start: int, stretchSupported: bool)
      ensures Valid()
      ensures query == RegistryQuery(o, stretchSupported) && testString == TestString(text)
      ensures this.start == start && timeoutValue == TimeoutValue(timeout)
      ensures loader == Pending && outcome == Pending && pollDue && timerArmed
    {
      query := RegistryQuery(o, stretchSupported);
      testString := TestString(text);
      this.start := start;
      timeoutValue := TimeoutValue(timeout);
      loader := Pending;
      pollDue := true;
      timerArmed := true;
      outcome := Pending;
    }

    /** One run of the loader's `check` at time `now`, with the registry's
        answer to this run's query. A loader that settles first wins the
        race; on a win by success the timer is cleared. */
    method Poll(now: int, answer: RegistryAnswer)
      requires Valid() && pollDue
      modifies this`loader, this`pollDue, this`timerArmed, this`outcome
      ensures Valid()
      ensures var step := PollStepAt(now, start, timeoutValue, answer);
              (step == Retry ==> loader == Pending && pollDue) &&
              (step == Loaded ==> loader == Fulfilled) &&
              (step == TimedOut ==> loader == Rejected(TimeoutMessage(timeoutValue))) &&
              (step.Error? ==> loader == Rejected(step.error))
      ensures outcome == Settle(old(outcome), loader)
      ensures timerArmed == (old(timerArmed) && !(old(outcome).Pending? && loader == Fulfilled))
    {
      var step := PollStepAt(now, start, timeoutValue, answer);
      match step {
        case TimedOut =>
          loader := Rejected(TimeoutMessage(timeoutValue));
          pollDue := false;
        case Loaded =>
          loader := Fulfilled;
          pollDue := false;
        case Retry =>
        case Error(e) =>
          loader := Rejected(e);
          pollDue := false;
      }
      if outcome.Pending? && loader == Fulfilled {
        timerArmed := false;
      }
      outcome := Settle(outcome, loader);
    }

    /** The timer fires: its rejection wins the race unless the loader
        already settled it. The loader is not stopped. */
    method TimerFires()
      requires Valid() && timerArmed
      modifies this`timerArmed, this`outcome
      ensures Valid()
      ensures !timerArmed
      ensures outcome == Settle(old(outcome), Rejected(TimeoutMessage(timeoutValue)))
    {
      timerArmed := false;
      outcome := Settle(outcome, Rejected(TimeoutMessage(timeoutValue)));
    }
  }

  /** A registry match before the deadline resolves the load and clears the
      timer, so no timeout can follow. */
  method MatchBeforeDeadlineResolves(o: FontFaceObserver, timeout: Option<int>, start: int,
                                     now: int, faces: nat, stretchSupported: bool)
    returns (outcome: Settlement, timerPending: bool)
    requires now - start < TimeoutValue(timeout) && faces >= 1
    ensures outcome == Fulfilled && !timerPending
  {
    var race := new NativePoll(o, None, timeout, start, stretchSupported);
    race.Poll(now, Faces(faces));
    outcome, timerPending := race.outcome, race.timerArmed;
  }

  /** When the timer fires while the loader is still re-polling, the load
      rejects with the timeout message. The loader is not cancelled: its
      next run sees the elapsed time and rejects too, which changes nothing. */
  method TimerWinsThenLoaderStops(o: FontFaceObserver, timeout: Option<int>, start: int,
                                  early: int, late: int, stretchSupported: bool)
    returns (outcome: Settlement, loader: Settlement, polling: bool)
    requires early - start < TimeoutValue(timeout) <= late - start
    ensures outcome == Rejected(TimeoutMessage(TimeoutValue(timeout)))
    ensures loader == outcome && !polling
  {
    var race := new NativePoll(o, None, timeout, start, stretchSupported);
    race.Poll(early, Faces(0));
    race.TimerFires();
    race.Poll(late, Faces(1));
    outcome, loader, polling := race.outcome, race.loader, race.pollDue;
  }

  /** A registry error rejects the load with that error, unwrapped; the
      rejection path does not clear the timer, whose later rejection is
      ignored. */
  method RegistryErrorRejectsUnwrapped(o: FontFaceObserver, timeout: Option<int>, start: int,
                                       now: int, error: string, stretchSupported: bool)
    returns (outcome: Settlement, timerPending: bool, afterTimer: Settlement)
    requires now - start < TimeoutValue(timeout)
    ensures outcome == Rejected(error) && timerPending
    ensures afterTimer == outcome
  {
    var race := new NativePoll(o, None, timeout, start, stretchSupported);
    race.Poll(now, Failed(error));
    outcome, timerPending := race.outcome, race.timerArmed;
    race.TimerFires();
    afterTimer := race.outcome;
  }

  /** A timeout of 0 is falsy and means the default 3000 ms: a match 2999 ms
      after the start still resolves. */
  method ZeroTimeoutMeansDefault(o: FontFaceObserver, start: int, stretchSupported: bool)
    returns (outcome: Settlement)
    ensures outcome == Fulfilled
  {
    var race := new NativePoll(o, None, Some(0), start, stretchSupported);
    race.Poll(start + 2999, Faces(1));
    outcome := race.outcome;
  }
}
