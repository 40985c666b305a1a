/** Task descriptors, the result envelope and the OnResult_* callbacks,
    and the submit-and-wait protocol, in the Python form (a threading.Event
    that is cleared before each submission) and the JavaScript form (a fresh
    AbortController per submission). The backend is not modelled: what it
    returns on submission and what it hands to the callback, and when, are
    parameters. */
module Tasks {
  import opened Fields

  /** The descriptor built with tasker.Tasker(): which plugin and method to
      run, where, how long to wait for the result (in seconds), and the
      arguments (the serialised configuration record). */
  datatype Tasker<Args> = Tasker(
    pluginId: string,
    methodId: int,
    distributeType: int,
    timeoutWait: int,
    commonArgs: Args)

  /** A return_code as it arrives: a number, a boolean, or any other value. */
  datatype Code = Number(n: int) | Boolean(b: bool) | Other

  /** What json.loads / JSON.parse make of result_data: the decoded value, or
      a parse failure. */
  datatype Payload<D> = Decodable(data: D) | Undecodable

  /** The dictionary the backend returns, with each key possibly absent. */
  datatype Envelope<D> = Envelope(
    returnCode: Option<Code>,
    returnInfo: Option<string>,
    resultData: Option<Payload<D>>,
    taskerId: Option<int>)

  /** What a callback does with an envelope: report the code and the info,
      hand on the parsed result, or end in an exception it catches. An absent
      code or info (JavaScript's undefined) is reported as None. */
  datatype Outcome<D> = Reported(code: Option<Code>, info: Option<string>) | Parsed(data: D) | Raised

  /** Python's `code != 0` is false for 0 and for False, which equals 0. */
  predicate PyZero(c: Code) {
    c == Number(0) || c == Boolean(false)
  }

  /** JavaScript's `code !== 0` is false for the number 0 only. */
  predicate JsZero(c: Code) {
    c == Number(0)
  }

  /** The body of OnResult_Coupon / _Price / _Payoff / _Greeks in Python:
      reading a missing key raises KeyError, and so does a result_data that
      json.loads cannot decode; every exception is caught. */
  function HandlePy<D>(e: Envelope<D>): (o: Outcome<D>)
    ensures o.Parsed? <==> e.returnCode.Some? && PyZero(e.returnCode.value)
                           && e.resultData.Some? && e.resultData.value.Decodable?
    ensures o.Parsed? ==> o.data == e.resultData.value.data
    ensures o.Reported? <==> e.returnCode.Some? && !PyZero(e.returnCode.value) && e.returnInfo.Some?
    ensures o.Reported? ==> o.code == e.returnCode && o.info == e.returnInfo
  {
    match e.returnCode
    case None => Raised
    case Some(c) =>
      if !PyZero(c) then
        if e.returnInfo.None? then Raised else Reported(e.returnCode, e.returnInfo)
      else
        match e.resultData
        case Some(Decodable(d)) => Parsed(d)
        case _ => Raised
  }

  /** The same callbacks in JavaScript: a missing key reads as undefined, which
      is `!== 0` and is logged; only JSON.parse can throw. */
  function HandleJs<D>(e: Envelope<D>): (o: Outcome<D>)
    ensures o.Parsed? <==> e.returnCode == Some(Number(0))
                           && e.resultData.Some? && e.resultData.value.Decodable?
    ensures o.Parsed? ==> o.data == e.resultData.value.data
    ensures o.Reported? <==> e.returnCode != Some(Number(0))
    ensures o.Reported? ==> o.code == e.returnCode && o.info == e.returnInfo
  {
    if e.returnCode != Some(Number(0)) then Reported(e.returnCode, e.returnInfo)
    else
      match e.resultData
      case Some(Decodable(d)) => Parsed(d)
      case _ => Raised
  }

  /** On an envelope carrying a numeric code and an info text, the Python and
      the JavaScript callbacks do the same thing. */
  lemma HandlersAgree<D>(e: Envelope<D>)
    requires e.returnCode.Some? && !e.returnCode.value.Boolean?
    requires e.returnInfo.Some?
    ensures HandlePy(e) == HandleJs(e)
  {
  }

  /** Where they part: without a return_code Python raises (and catches)
      KeyError while JavaScript logs undefined; and a code of False counts as
      success in Python but as failure in JavaScript. */
  lemma HandlersDiffer<D>(info: string, d: D)
    ensures var e := Envelope(None, Some(info), Some(Decodable(d)), None);
            HandlePy(e) == Raised && HandleJs(e) == Reported(None, Some(info))
    ensures var e := Envelope(Some(Boolean(false)), Some(info), Some(Decodable(d)), None);
            HandlePy(e) == Parsed(d) && HandleJs(e) == Reported(Some(Boolean(false)), Some(info))
  {
  }

  // ------------------------------------------------------------ Python signalling

  /** threading.Event: a flag, and a count of the calls to set() that only
      the proofs see. */
  class Event {
    var flag: bool
    ghost var sets: nat

    constructor ()
      ensures !flag && sets == 0
    {
      flag := false;
      sets := 0;
    }

    method Set()
      modifies this
      ensures flag && sets == old(sets) + 1
    {
      flag := true;
      sets := sets + 1;
    }

    method Clear()
      modifies this
      ensures !flag && sets == old(sets)
    {
      flag := false;
    }
  }

  /** An OnResult_* callback in Python: handles the envelope, then sets the
      event once, on every path. */
  method OnResultPy<D>(event: Event, e: Envelope<D>) returns (o: Outcome<D>)
    modifies event
    ensures o == HandlePy(e)
    ensures event.flag && event.sets == old(event.sets) + 1
  {
    o := HandlePy(e);
    event.Set();
  }

  /** How a submission ends, as the script reports it: the acknowledgement
      refused the submission; the result arrived in time; the wait timed out (with
      the tasker id); or the script itself stopped on an exception. */
  datatype Report = Refused(code: Option<Code>, info: Option<string>) | Finished(taskerId: Option<int>)
                  | TimedOut(taskerId: Option<int>) | Crashed

  /** When the backend runs the callback, in seconds after submission; None
      when it never does. */
  type CallbackTime = Option<real>

  predicate InTime(at: CallbackTime, timeoutWait: int) {
    at.Some? && at.value < timeoutWait as real
  }

  /** threading.TIMEOUT_MAX on Windows is about 4294967.29 seconds; a wait
      given a whole number of seconds above this raises OverflowError. */
  const PyWaitMaxSeconds := 4294967

  /** What the Python protocol reports: the acknowledgement is read without
      a guard, so a missing return_code, return_info or tasker_id stops the
      script, and so does a timeout_wait too large for the wait; otherwise an
      accepted task ends Finished exactly when the callback ran within
      timeout_wait. */
  function ProtocolPy<D>(ack: Envelope<D>, at: CallbackTime, timeoutWait: int): Report {
    match ack.returnCode
    case None => Crashed
    case Some(c) =>
      if !PyZero(c) then
        if ack.returnInfo.None? then Crashed else Refused(ack.returnCode, ack.returnInfo)
      else if ack.taskerId.None? then Crashed
      else if timeoutWait > PyWaitMaxSeconds then Crashed
      else if InTime(at, timeoutWait) then Finished(ack.taskerId)
      else TimedOut(ack.taskerId)
  }

  /** The asynchronous sequence of the Python scripts: clear the event, submit
      with the callback, and, when the acknowledgement accepts the submission, wait
      up to timeout_wait seconds for the event. The callback runs at `at`
      with envelope `delivered`; a callback later than the deadline still
      handles its envelope and sets the event, after the wait has given up.
      Here that late set() lands on this submission's cleared event; when a
      later submission is already waiting on the same event, it ends that
      wait instead (see Woken). */
  method SubmitAndWaitPy<D>(event: Event, ack: Envelope<D>, delivered: Envelope<D>,
                            at: CallbackTime, timeoutWait: int)
    returns (report: Report, outcome: Option<Outcome<D>>)
    modifies event
    ensures report == ProtocolPy(ack, at, timeoutWait)
    ensures outcome.Some? <==> report.Finished?
    ensures outcome.Some? ==> outcome.value == HandlePy(delivered)
    ensures report.Finished? || report.TimedOut? ==> (event.flag <==> at.Some?)
    ensures !(report.Finished? || report.TimedOut?) ==> !event.flag
  {
    outcome := None;
    event.Clear();
    if ack.returnCode.None? {
      report := Crashed;
    } else if !PyZero(ack.returnCode.value) {
      report := if ack.returnInfo.None? then Crashed else Refused(ack.returnCode, ack.returnInfo);
    } else if ack.taskerId.None? {
      report := Crashed;
    } else if timeoutWait > PyWaitMaxSeconds {
      report := Crashed;
    } else {
      if InTime(at, timeoutWait) {
        var o := OnResultPy(event, delivered);
        outcome := Some(o);
      }
      var waited := event.flag;
      if waited != true {
        report := TimedOut(ack.taskerId);
        if at.Some? {
          var _ := OnResultPy(event, delivered);
        }
      } else {
        report := Finished(ack.taskerId);
      }
    }
  }

  /** A timeout is reported only for a task the backend accepted, never for
      a refused one, and a refusal only when the acknowledgement's code is
      not zero. */
  lemma ProtocolPyTimeouts<D>(ack: Envelope<D>, at: CallbackTime, timeoutWait: int)
    ensures ProtocolPy(ack, at, timeoutWait).TimedOut? <==>
              && ack.returnCode.Some? && PyZero(ack.returnCode.value) && ack.taskerId.Some?
              && timeoutWait <= PyWaitMaxSeconds && !InTime(at, timeoutWait)
    ensures ProtocolPy(ack, at, timeoutWait).Refused? <==>
              ack.returnCode.Some? && !PyZero(ack.returnCode.value) && ack.returnInfo.Some?
  {
  }

  // -------------------------------------------------------- JavaScript signalling

  /** An AbortController: its signal is aborted once abort() is called. */
  class AbortController {
    var aborted: bool
    ghost var aborts: nat

    constructor ()
      ensures !aborted && aborts == 0
    {
      aborted := false;
      aborts := 0;
    }

    method Abort()
      modifies this
      ensures aborted && aborts == old(aborts) + 1
    {
      aborted := true;
      aborts := aborts + 1;
    }
  }

  /** The script's module-level `let event_task_finish`. */
  class Script {
    var eventTaskFinish: AbortController?

    constructor ()
      ensures eventTaskFinish == null
    {
      eventTaskFinish := null;
    }
  }

  /** An OnResult_* callback in JavaScript: handles the envelope, then aborts
      whichever controller event_task_finish holds at that moment, once, on
      every path. */
  method OnResultJs<D>(script: Script, e: Envelope<D>) returns (o: Outcome<D>)
    requires script.eventTaskFinish != null
    modifies script.eventTaskFinish
    ensures o == HandleJs(e)
    ensures script.eventTaskFinish.aborted
    ensures script.eventTaskFinish.aborts == old(script.eventTaskFinish.aborts) + 1
  {
    o := HandleJs(e);
    script.eventTaskFinish.Abort();
  }

  /** Node's largest timer delay, 2^31 - 1 milliseconds. */
  const TimerMaxMs := 2147483647

  /** The delay Node's timer really runs for when asked for timeout_wait *
      1000 milliseconds: a delay above TimerMaxMs, or below 1, becomes 1. */
  function TimerDelayMs(timeoutWait: int): (ms: int)
    ensures 1 <= ms <= TimerMaxMs
  {
    var d := timeoutWait * 1000;
    if 1 <= d <= TimerMaxMs then d else 1
  }

  /** `promises.setTimeout(timeout_wait * 1000, '', {signal})` settled with
      `.then(() => false, err => true)`: true when the signal was aborted
      before the timer ran out. */
  predicate AbortedInTime(at: CallbackTime, timeoutWait: int) {
    at.Some? && at.value * 1000.0 < TimerDelayMs(timeoutWait) as real
  }

  /** What the JavaScript protocol reports: undefined keys never throw, so the
      script never stops; an accepted task ends Finished exactly when the
      callback ran before the timer. */
  function ProtocolJs<D>(ack: Envelope<D>, at: CallbackTime, timeoutWait: int): Report {
    if ack.returnCode != Some(Number(0)) then Refused(ack.returnCode, ack.returnInfo)
    else if AbortedInTime(at, timeoutWait) then Finished(ack.taskerId)
    else TimedOut(ack.taskerId)
  }

  /** The asynchronous sequence of the JavaScript script: a new
      AbortController per submission, submit with the callback, and, when the
      acknowledgement accepts the submission, race the timer against the signal.
      A late callback aborts whichever controller event_task_finish holds when
      it runs: here this submission's; when a later submission has already
      replaced it, that submission's (see Woken). */
  method SubmitAndWaitJs<D>(script: Script, ack: Envelope<D>, delivered: Envelope<D>,
                            at: CallbackTime, timeoutWait: int)
    returns (report: Report, outcome: Option<Outcome<D>>)
    modifies script
    ensures report == ProtocolJs(ack, at, timeoutWait)
    ensures outcome.Some? <==> report.Finished?
    ensures outcome.Some? ==> outcome.value == HandleJs(delivered)
    ensures script.eventTaskFinish != null && fresh(script.eventTaskFinish)
    ensures report.Finished? || report.TimedOut? ==> (script.eventTaskFinish.aborted <==> at.Some?)
    ensures !(report.Finished? || report.TimedOut?) ==> !script.eventTaskFinish.aborted
  {
    outcome := None;
    script.eventTaskFinish := new AbortController();
    if ack.returnCode != Some(Number(0)) {
      report := Refused(ack.returnCode, ack.returnInfo);
    } else {
      if AbortedInTime(at, timeoutWait) {
        var o := OnResultJs(script, delivered);
        outcome := Some(o);
      }
      var retWait := script.eventTaskFinish.aborted;
      if retWait != true {
        report := TimedOut(ack.taskerId);
        if at.Some? {
          var _ := OnResultJs(script, delivered);
        }
      } else {
        report := Finished(ack.taskerId);
      }
    }
  }

  /** The JavaScript timer counts milliseconds and the Python wait seconds;
      while timeout_wait * 1000 is a delay Node accepts, they give up at the
      same moment. */
  lemma DeadlinesAgree(at: CallbackTime, timeoutWait: int)
    requires 1 <= timeoutWait * 1000 <= TimerMaxMs
    ensures AbortedInTime(at, timeoutWait) <==> InTime(at, timeoutWait)
  {
  }

  /** On an acknowledgement with a numeric code and all keys present, and a
      timeout_wait Node's timer accepts, both protocols report the same
      thing; a timeout carries the tasker id and is never a refusal. */
  lemma ProtocolsAgree<D>(ack: Envelope<D>, at: CallbackTime, timeoutWait: int)
    requires ack.returnCode.Some? && ack.returnCode.value.Number?
    requires ack.returnInfo.Some? && ack.taskerId.Some?
    requires 1 <= timeoutWait * 1000 <= TimerMaxMs
    ensures ProtocolPy(ack, at, timeoutWait) == ProtocolJs(ack, at, timeoutWait)
    ensures ProtocolJs(ack, at, timeoutWait).TimedOut? ==>
              ProtocolJs(ack, at, timeoutWait).taskerId == ack.taskerId
  {
    DeadlinesAgree(at, timeoutWait);
  }

  /** Beyond Node's timer range the two scripts part. With timeout_wait =
      3000000 s and a callback after 10 s, Python reports the result while
      JavaScript's timer, cut to 1 ms, has already reported a timeout; with
      timeout_wait = 5000000 s the Python wait raises OverflowError. */
  lemma ProtocolsPartBeyondTimerMax<D>(ack: Envelope<D>)
    requires ack.returnCode == Some(Number(0)) && ack.taskerId.Some?
    ensures ProtocolPy(ack, Some(10.0), 3000000) == Finished(ack.taskerId)
    ensures ProtocolJs(ack, Some(10.0), 3000000) == TimedOut(ack.taskerId)
    ensures ProtocolPy(ack, Some(10.0), 5000000) == Crashed
    ensures ProtocolJs(ack, Some(10.0), 5000000) == TimedOut(ack.taskerId)
  {
  }

  // ------------------------------------------------ submissions in sequence

  /** Whether the wait of a submission made at time `start` (in seconds) ends
      with success before `deadline` seconds, when its own callback runs `own`
      seconds after `start` and the callbacks of earlier submissions that
      timed out are still pending and run at the absolute times `late`. In
      Python they all set the one shared event, and clear() at `start` undoes
      only the sets before it; in JavaScript each aborts whichever controller
      event_task_finish holds when it runs, which from `start` on is this
      submission's fresh one. */
  predicate Woken(late: seq<real>, start: real, own: CallbackTime, deadline: real) {
    (own.Some? && own.value < deadline)
    || exists k :: 0 <= k < |late| && start <= late[k] < start + deadline
  }

  /** For a single submission, the wait ends in time exactly as both
      protocols say: with no earlier callbacks pending, Woken is the report
      Finished. */
  lemma WokenAlone<D>(ack: Envelope<D>, at: CallbackTime, timeoutWait: int)
    requires ack.returnCode == Some(Number(0)) && ack.taskerId.Some?
    requires timeoutWait <= PyWaitMaxSeconds
    ensures ProtocolPy(ack, at, timeoutWait).Finished? <==> Woken([], 0.0, at, timeoutWait as real)
    ensures ProtocolJs(ack, at, timeoutWait).Finished? <==>
              Woken([], 0.0, at, TimerDelayMs(timeoutWait) as real / 1000.0)
  {
  }

  /** The hazard of submitting again after a timeout. The first task times
      out and its callback comes late, while the next submission, made when
      the first wait gave up, is waiting; that next task's own callback never
      comes. Its wait still ends in success, woken by the first task's
      callback, although alone it would have timed out. */
  lemma {:induction false} LateCallbackEndsNextWaitPy<D>(ack: Envelope<D>, timeoutWait: int, late: real)
    requires ack.returnCode == Some(Number(0)) && ack.taskerId.Some?
    requires 0 < timeoutWait <= PyWaitMaxSeconds
    requires timeoutWait as real <= late < 2.0 * timeoutWait as real
    ensures ProtocolPy(ack, Some(late), timeoutWait) == TimedOut(ack.taskerId)
    ensures Woken([late], timeoutWait as real, None, timeoutWait as real)
    ensures !Woken([], timeoutWait as real, None, timeoutWait as real)
  {
    var late' := [late];
    assert late'[0] == late;
    assert timeoutWait as real <= late'[0] < timeoutWait as real + timeoutWait as real;
  }

  /** The same hazard played on one shared Event: the first submission
      clears the event and waits, its callback misses the deadline, and the
      wait gives up; the second submission clears the event again, and the
      first task's late callback sets it while the second waits. The second
      wait reports success although its own callback never comes, and
      although ProtocolPy, for that submission alone, reports a timeout. */
  method TwoSubmissionsPy<D>(event: Event, ack1: Envelope<D>, ack2: Envelope<D>,
                             delivered1: Envelope<D>, timeoutWait: int, late: real)
    returns (first: Report, second: Report)
    requires ack1.returnCode == Some(Number(0)) && ack1.taskerId.Some?
    requires ack2.returnCode == Some(Number(0)) && ack2.taskerId.Some?
    requires 0 < timeoutWait <= PyWaitMaxSeconds
    requires timeoutWait as real <= late < 2.0 * timeoutWait as real
    modifies event
    ensures first == ProtocolPy(ack1, Some(late), timeoutWait) == TimedOut(ack1.taskerId)
    ensures second == Finished(ack2.taskerId)
    ensures ProtocolPy(ack2, None, timeoutWait) == TimedOut(ack2.taskerId)
    ensures event.flag && event.sets == old(event.sets) + 1
  {
    event.Clear();
    // nothing sets the event during [0, timeoutWait): the callback comes at late
    first := if event.flag then Finished(ack1.taskerId) else TimedOut(ack1.taskerId);
    event.Clear();
    // the second submission waits during [timeoutWait, 2 * timeoutWait)
    var _ := OnResultPy(event, delivered1);
    second := if event.flag then Finished(ack2.taskerId) else TimedOut(ack2.taskerId);
  }

  /** The same hazard in the JavaScript script: the late abort() of the
      first task lands on the controller of the next submission, which is
      waiting, and its timer race reports success. */
  lemma {:induction false} LateCallbackEndsNextWaitJs<D>(ack: Envelope<D>, timeoutWait: int, late: real)
    requires ack.returnCode == Some(Number(0))
    requires TimerDelayMs(timeoutWait) as real / 1000.0 <= late < TimerDelayMs(timeoutWait) as real / 500.0
    ensures ProtocolJs(ack, Some(late), timeoutWait) == TimedOut(ack.taskerId)
    ensures var d := TimerDelayMs(timeoutWait) as real / 1000.0;
            Woken([late], d, None, d) && !Woken([], d, None, d)
  {
    var d := TimerDelayMs(timeoutWait) as real / 1000.0;
    var late' := [late];
    assert late'[0] == late;
    assert d <= late'[0] < d + d;
  }

  // ----------------------------------------------------------------- greeks loop

  /** The flags of the greek_flags dictionary, the same in every
      demonstration, in its iteration order: each is sent as calc_greek. The
      names it pairs them with only name export files and are not modelled. */
  const GreekFlags: seq<string> := ["d", "g", "v", "t", "r"]

  /** The greeks loop: the descriptor's method becomes greeksMethod, then for
      each flag in turn calc_greek is set on the record (setGreek) and the
      record becomes the descriptor's arguments. Returns the final record and
      descriptor and the descriptor as it stood after each iteration:
      iteration i sends the record of iteration i - 1 with flag i set, to the
      same plugin, distribution and timeout. */
  method GreeksLoop<C>(config0: C, tasker0: Tasker<C>, greeksMethod: int, flags: seq<string>,
                       setGreek: (C, string) -> C)
    returns (config: C, tasker: Tasker<C>, sent: seq<Tasker<C>>)
    ensures |sent| == |flags|
    ensures |sent| > 0 ==> sent[0].commonArgs == setGreek(config0, flags[0])
    ensures forall i :: 0 < i < |sent| ==> sent[i].commonArgs == setGreek(sent[i - 1].commonArgs, flags[i])
    ensures forall i :: 0 <= i < |sent| ==>
              sent[i] == tasker0.(methodId := greeksMethod, commonArgs := sent[i].commonArgs)
    ensures config == if |flags| == 0 then config0 else sent[|flags| - 1].commonArgs
    ensures tasker == if |flags| == 0 then tasker0.(methodId := greeksMethod) else sent[|flags| - 1]
  {
    config := config0;
    tasker := tasker0.(methodId := greeksMethod);
    sent := [];
    for i := 0 to |flags|
      invariant |sent| == i
      invariant i > 0 ==> sent[0].commonArgs == setGreek(config0, flags[0])
      invariant forall k :: 0 < k < i ==> sent[k].commonArgs == setGreek(sent[k - 1].commonArgs, flags[k])
      invariant forall k :: 0 <= k < i ==>
                  sent[k] == tasker0.(methodId := greeksMethod, commonArgs := sent[k].commonArgs)
      invariant config == if i == 0 then config0 else sent[i - 1].commonArgs
      invariant tasker == if i == 0 then tasker0.(methodId := greeksMethod) else sent[i - 1]
      invariant tasker == tasker0.(methodId := greeksMethod, commonArgs := tasker.commonArgs)
    {
      config := setGreek(config, flags[i]);
      tasker := tasker.(commonArgs := config);
      sent := sent + [tasker];
    }
  }
}
