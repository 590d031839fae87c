/**
 * factory/flows/harness.ts, `runProcess`: one owned process that settles by finishing or by interruption. `Step` says
 * what each event does; `ProcessRun` is the mutable object whose handlers do it.
 */
module ProcessHarness {
  import opened Wrappers

  const TAIL_LIMIT: nat := 4000

  datatype Signal = Term | Kill
  datatype TaskResult = TaskResult(exitCode: int, tail: string)

  /**
   * Everything that can happen. `delivered` is false when signalling throws; `validation` is what the result validator
   * would return at that moment.
   */
  datatype Event =
    | Data(chunk: string)
    | Error(message: string)
    | Close(code: Option<int>, validation: Option<string>)
    | Timeout(delivered: bool)
    | Escalate
    | Interrupt(delivered: bool)
    | KillFires
    | BoundFires
    | FinishLogged
    | InterruptLogged
    | CleanupCancelled

  datatype State = State(
    settled: bool, timedOut: bool, tail: string, output: string,
    timer: bool, escalation: bool,                       // armed timers of the running process
    result: Option<TaskResult>, resumes: nat,            // the finish path
    interrupted: bool, stopping: bool, finalized: bool,  // the interruption path
    kill: bool, bound: bool, onClose: bool, logging: bool, dones: nat,
    sent: seq<Signal>)

  const STARTED: State := State(
    false, false, "", "", true, false, None, 0, false, false, false, false, false, false, false, 0, [])

  /** `text.slice(-4000)`. */
  function Last(text: string): (r: string)
    ensures |r| == (if |text| < TAIL_LIMIT then |text| else TAIL_LIMIT) && r == text[|text| - |r|..]
  {
    if |text| <= TAIL_LIMIT then text else text[|text| - TAIL_LIMIT..]
  }

  predicate At(text: string, part: string, i: nat) {
    i + |part| <= |text| && text[i..i + |part|] == part
  }

  predicate Contains(text: string, part: string) {
    exists i: nat | i <= |text| :: At(text, part, i)
  }

  predicate MarkerMissing(marker: Option<string>, tail: string) {
    marker.Some? && !Contains(tail, marker.value)
  }

  /** An absent or empty validation message means the result is fine. */
  predicate Rejected(validation: Option<string>) {
    validation.Some? && validation.value != ""
  }

  function Verified(marker: Option<string>, exitCode: int, tail: string, validation: Option<string>): int {
    if exitCode == 0 && MarkerMissing(marker, tail) then -2
    else if exitCode == 0 && Rejected(validation) then -3
    else exitCode
  }

  function Finish(marker: Option<string>, s: State, exitCode: int, tail: string, validation: Option<string>): State {
    if s.settled then s
    else s.(settled := true, timer := false, escalation := false,
            result := Some(TaskResult(Verified(marker, exitCode, tail, validation), tail)))
  }

  /** The process's own close listener; an interruption's hook runs after it. */
  function Closed(marker: Option<string>, s: State, code: Option<int>, validation: Option<string>): State {
    Finish(marker, s.(escalation := false), if s.timedOut || code.None? then -1 else code.value, s.tail, validation)
  }

  function Complete(s: State): State {
    if s.finalized then s else s.(finalized := true, kill := false, bound := false, onClose := false, logging := true)
  }

  /** Timer events happen only while armed, log callbacks only once their log is ending, interruption only once. */
  predicate Allowed(s: State, e: Event) {
    match e
    case Timeout(_) => s.timer
    case Escalate => s.escalation
    case Interrupt(_) => !s.interrupted
    case KillFires => s.kill
    case BoundFires => s.bound
    case FinishLogged => s.result.Some? && s.resumes == 0
    case InterruptLogged => s.logging
    case CleanupCancelled => s.stopping
    case _ => true
  }

  function Step(marker: Option<string>, s: State, e: Event): State {
    match e
    case Data(chunk) => s.(tail := Last(s.tail + chunk), output := s.output + chunk)
    case Error(message) => Finish(marker, s, -1, message, None)
    case Close(code, validation) =>
      var closed := Closed(marker, s, code, validation);
      if s.onClose then Complete(closed) else closed
    case Timeout(delivered) => s.(timer := false, timedOut := true, sent := s.sent + [Term], escalation := delivered)
    case Escalate => s.(escalation := false, sent := s.sent + [Kill])
    case Interrupt(delivered) =>
      if s.settled then s.(interrupted := true, dones := s.dones + 1)
      else
        State(true, s.timedOut, s.tail, s.output, false, false, s.result, s.resumes, true, true, s.finalized,
              delivered, delivered, true, s.logging, s.dones, s.sent + [Term])
    case KillFires => s.(kill := false, sent := s.sent + [Kill])
    case BoundFires => Complete(s.(bound := false))
    case FinishLogged => s.(resumes := s.resumes + 1)
    case InterruptLogged => s.(logging := false, dones := s.dones + 1)
    case CleanupCancelled => s.(kill := false, bound := false, onClose := false)
  }

  // ---- runs --------------------------------------------------------------------------------------

  function After(marker: Option<string>, events: seq<Event>): State {
    if events == [] then STARTED else Step(marker, After(marker, events[..|events| - 1]), events[|events| - 1])
  }

  predicate Run(marker: Option<string>, events: seq<Event>) {
    events == [] ||
    (Run(marker, events[..|events| - 1]) && Allowed(After(marker, events[..|events| - 1]), events[|events| - 1]))
  }

  /** The child closes with code 0 while nothing has settled or timed out, with the marker kept and a passing validation. */
  predicate CleanStep(marker: Option<string>, s: State, e: Event) {
    && e.Close? && e.code == Some(0) && !Rejected(e.validation)
    && !s.settled && !s.timedOut && !MarkerMissing(marker, s.tail)
  }

  ghost predicate ClosedCleanly(marker: Option<string>, events: seq<Event>, k: nat) {
    k < |events| && CleanStep(marker, After(marker, events[..k]), events[k])
  }

  ghost predicate Valid(s: State) {
    && (s.settled <==> s.result.Some? || s.stopping)
    && !(s.result.Some? && s.stopping)
    && (s.settled ==> !s.timer && !s.escalation)
    && (s.escalation ==> s.timedOut) && (s.timer ==> !s.timedOut)
    && (s.stopping ==> s.interrupted)
    && (!s.stopping ==> !s.kill && !s.bound && !s.onClose && !s.finalized && !s.logging)
    && (s.finalized ==> !s.kill && !s.bound && !s.onClose)
    && (s.logging ==> s.finalized && s.dones == 0)
    && s.resumes <= 1 && (s.resumes == 1 ==> s.result.Some?)
    && s.dones <= 1 && (s.dones == 1 ==> s.interrupted && (s.result.Some? || s.finalized))
    && (s.stopping && !s.finalized ==> s.dones == 0)
    && (!s.interrupted ==> s.dones == 0)
    && (s.result.Some? && s.result.value.exitCode == 0 ==> !s.timedOut)
    && s.tail == Last(s.output)
  }

  lemma LastAppends(text: string, chunk: string)
    ensures Last(Last(text) + chunk) == Last(text + chunk)
  {
    if |text| > TAIL_LIMIT {
      var cut, whole := |text| - TAIL_LIMIT, text + chunk;
      assert Last(text) + chunk == whole[cut..];
      assert whole[cut..][|chunk|..] == whole[cut + |chunk|..];
    } else {
      assert Last(text) == text;
    }
  }

  lemma StepKeeps(marker: Option<string>, s: State, e: Event)
    requires Valid(s) && Allowed(s, e)
    ensures Valid(Step(marker, s, e))
  {
    if e.Data? { LastAppends(s.output, e.chunk); }
  }

  /** In every order of events: one settlement, by finish or by interruption but never both; each completes at most once. */
  lemma {:induction false} SettlesOnce(marker: Option<string>, events: seq<Event>)
    requires Run(marker, events)
    ensures Valid(After(marker, events))
  {
    if events != [] {
      SettlesOnce(marker, events[..|events| - 1]);
      StepKeeps(marker, After(marker, events[..|events| - 1]), events[|events| - 1]);
    }
  }

  /** The settlement has run its course: finish decided, or interruption finalized or its cleanup cancelled. */
  predicate Over(s: State) {
    s.result.Some? || (s.stopping && !s.kill && !s.bound && !s.onClose)
  }

  lemma StepAfterOver(marker: Option<string>, s: State, e: Event)
    requires Valid(s) && Allowed(s, e) && Over(s)
    ensures var t := Step(marker, s, e);
      t.sent == s.sent && t.result == s.result && t.stopping == s.stopping && t.timedOut == s.timedOut && Over(t)
  {
  }

  /** Once a settlement is over, no event of any continuation sends a signal, changes the result or fires a timeout. */
  lemma {:induction false} NothingAfterwards(marker: Option<string>, events: seq<Event>, n: nat)
    requires Run(marker, events) && n <= |events| && Over(After(marker, events[..n]))
    ensures After(marker, events).sent == After(marker, events[..n]).sent
    ensures After(marker, events).result == After(marker, events[..n]).result
    ensures After(marker, events).stopping == After(marker, events[..n]).stopping
    ensures After(marker, events).timedOut == After(marker, events[..n]).timedOut
    ensures Over(After(marker, events))
    decreases |events|
  {
    if n == |events| {
      assert events[..n] == events;
    } else {
      var init := events[..|events| - 1];
      assert init[..n] == events[..n];
      NothingAfterwards(marker, init, n);
      SettlesOnce(marker, init);
      StepAfterOver(marker, After(marker, init), events[|events| - 1]);
    }
  }

  predicate Zero(s: State) {
    s.result.Some? && s.result.value.exitCode == 0
  }

  lemma StepZero(marker: Option<string>, s: State, e: Event)
    requires Valid(s) && Allowed(s, e)
    ensures Zero(Step(marker, s, e)) <==> Zero(s) || CleanStep(marker, s, e)
  {
  }

  lemma {:induction false} ZeroHasCleanClose(marker: Option<string>, events: seq<Event>) returns (k: nat)
    requires Run(marker, events) && Zero(After(marker, events))
    ensures ClosedCleanly(marker, events, k)
  {
    var n := |events| - 1;
    SettlesOnce(marker, events[..n]);
    StepZero(marker, After(marker, events[..n]), events[n]);
    if Zero(After(marker, events[..n])) {
      k := ZeroHasCleanClose(marker, events[..n]);
      assert events[..n][..k] == events[..k];
    } else {
      k := n;
    }
  }

  lemma AfterNext(marker: Option<string>, events: seq<Event>, k: nat)
    requires k < |events|
    ensures After(marker, events[..k + 1]) == Step(marker, After(marker, events[..k]), events[k])
  {
    assert events[..k + 1][..k] == events[..k];
  }

  lemma CleanCloseReportsZero(marker: Option<string>, events: seq<Event>, k: nat)
    requires Run(marker, events) && ClosedCleanly(marker, events, k)
    ensures Zero(After(marker, events))
  {
    assert Zero(After(marker, events[..k + 1])) by {
      AfterNext(marker, events, k);
      CleanStepZero(marker, After(marker, events[..k]), events[k]);
    }
    NothingAfterwards(marker, events, k + 1);
  }

  lemma CleanStepZero(marker: Option<string>, s: State, e: Event)
    requires CleanStep(marker, s, e)
    ensures Zero(Step(marker, s, e))
  {
  }

  /** Exit code 0 is reported exactly for a clean close: closed with 0, no timeout, marker in the tail, validation passed. */
  lemma {:induction false} ZeroMeansClean(marker: Option<string>, events: seq<Event>)
    requires Run(marker, events)
    ensures Zero(After(marker, events)) <==> exists k: nat :: ClosedCleanly(marker, events, k)
    ensures Zero(After(marker, events)) ==> !After(marker, events).timedOut
  {
    SettlesOnce(marker, events);
    if Zero(After(marker, events)) {
      var k := ZeroHasCleanClose(marker, events);
    }
    forall k: nat | ClosedCleanly(marker, events, k) ensures Zero(After(marker, events)) {
      CleanCloseReportsZero(marker, events, k);
    }
  }

  // ---- the result, from the events alone ---------------------------------------------------------

  /** Everything the process wrote. */
  function Output(events: seq<Event>): string {
    if events == [] then ""
    else
      var e := events[|events| - 1];
      Output(events[..|events| - 1]) + (if e.Data? then e.chunk else "")
  }

  lemma FinishFrame(marker: Option<string>, s: State, exitCode: int, tail: string, validation: Option<string>)
    ensures var t := Finish(marker, s, exitCode, tail, validation);
      t.tail == s.tail && t.timedOut == s.timedOut && t.settled && (s.settled ==> t == s)
  {
    if s.settled {} else {}
  }

  lemma CompleteFrame(s: State)
    ensures var t := Complete(s); t.tail == s.tail && t.timedOut == s.timedOut && t.settled == s.settled
  {
    if s.finalized {} else {}
  }

  /** What one event does to the tail and to the two flags. */
  ghost predicate Framed(s: State, e: Event, t: State) {
    && (!e.Data? ==> t.tail == s.tail)
    && (t.timedOut <==> s.timedOut || e.Timeout?) && (t.settled <==> s.settled || Settling(e))
  }

  lemma CloseFrame(marker: Option<string>, s: State, code: Option<int>, validation: Option<string>)
    ensures Framed(s, Close(code, validation), Step(marker, s, Close(code, validation)))
  {
    ClosedFrame(marker, s, code, validation);
    CompleteFrame(Closed(marker, s, code, validation));
    if s.onClose {} else {}
  }

  lemma ClosedFrame(marker: Option<string>, s: State, code: Option<int>, validation: Option<string>)
    ensures var t := Closed(marker, s, code, validation); t.tail == s.tail && t.timedOut == s.timedOut && t.settled
  {
    FinishFrame(marker, s.(escalation := false), if s.timedOut || code.None? then -1 else code.value, s.tail, validation);
  }

  lemma InterruptFrame(marker: Option<string>, s: State, delivered: bool)
    ensures Framed(s, Interrupt(delivered), Step(marker, s, Interrupt(delivered)))
  {
    if s.settled {} else {}
  }

  lemma StepFrame(marker: Option<string>, s: State, e: Event)
    ensures Framed(s, e, Step(marker, s, e))
  {
    match e
    case Data(_) =>
    case Error(message) => FinishFrame(marker, s, -1, message, None);
    case Close(code, validation) => CloseFrame(marker, s, code, validation);
    case Timeout(_) =>
    case Escalate =>
    case Interrupt(delivered) => InterruptFrame(marker, s, delivered);
    case KillFires =>
    case BoundFires => CompleteFrame(s.(bound := false));
    case FinishLogged =>
    case InterruptLogged =>
    case CleanupCancelled =>
  }

  /** What is kept of it is its last 4000 characters. */
  lemma {:induction false} TailIsLast(marker: Option<string>, events: seq<Event>)
    ensures After(marker, events).tail == Last(Output(events))
  {
    if events != [] {
      var init, e := events[..|events| - 1], events[|events| - 1];
      TailIsLast(marker, init);
      StepFrame(marker, After(marker, init), e);
      if e.Data? {
        LastAppends(Output(init), e.chunk);
      } else {
        assert Output(init) + "" == Output(init);
      }
    }
  }

  ghost predicate TimedOutIn(events: seq<Event>) {
    exists j :: 0 <= j < |events| && events[j].Timeout?
  }

  lemma {:induction false} TimedOutExactly(marker: Option<string>, events: seq<Event>)
    ensures After(marker, events).timedOut <==> TimedOutIn(events)
  {
    if events != [] {
      var n := |events| - 1;
      TimedOutExactly(marker, events[..n]);
      StepFrame(marker, After(marker, events[..n]), events[n]);
      TimedOutMore(events[..n], events[n]);
      assert events == events[..n] + [events[n]];
    }
  }

  lemma TimedOutMore(events: seq<Event>, e: Event)
    ensures TimedOutIn(events + [e]) <==> TimedOutIn(events) || e.Timeout?
  {
    var all := events + [e];
    assert all[|events|] == e && forall j :: 0 <= j < |events| ==> all[j] == events[j];
  }

  predicate Settling(e: Event) {
    e.Error? || e.Close? || e.Interrupt?
  }

  ghost predicate FirstSettling(events: seq<Event>, k: nat) {
    k < |events| && Settling(events[k]) && forall j :: 0 <= j < k ==> !Settling(events[j])
  }

  lemma {:induction false} SettledExactly(marker: Option<string>, events: seq<Event>)
    ensures After(marker, events).settled <==> SettledIn(events)
  {
    if events != [] {
      var n := |events| - 1;
      SettledExactly(marker, events[..n]);
      StepFrame(marker, After(marker, events[..n]), events[n]);
      SettledMore(events[..n], events[n]);
      assert events == events[..n] + [events[n]];
    }
  }

  ghost predicate SettledIn(events: seq<Event>) {
    exists j :: 0 <= j < |events| && Settling(events[j])
  }

  lemma SettledMore(events: seq<Event>, e: Event)
    ensures SettledIn(events + [e]) <==> SettledIn(events) || Settling(e)
  {
    var all := events + [e];
    assert all[|events|] == e && forall j :: 0 <= j < |events| ==> all[j] == events[j];
  }

  lemma SettlementStays(marker: Option<string>, s: State, e: Event)
    requires s.settled
    ensures Step(marker, s, e).settled && Step(marker, s, e).result == s.result && Step(marker, s, e).stopping == s.stopping
  {
    match e
    case Data(_) =>
    case Error(_) =>
    case Close(_, _) => if s.onClose {} else {}
    case Timeout(_) =>
    case Escalate =>
    case Interrupt(_) =>
    case KillFires =>
    case BoundFires => if s.finalized {} else {}
    case FinishLogged =>
    case InterruptLogged =>
    case CleanupCancelled =>
  }

  lemma {:induction false} SettlementFixed(marker: Option<string>, events: seq<Event>, n: nat)
    requires n <= |events| && After(marker, events[..n]).settled
    ensures var then', now := After(marker, events[..n]), After(marker, events);
      now.settled && now.result == then'.result && now.stopping == then'.stopping
    decreases |events|
  {
    if n == |events| {
      assert events[..n] == events;
    } else {
      var init := events[..|events| - 1];
      assert init[..n] == events[..n];
      SettlementFixed(marker, init, n);
      SettlementStays(marker, After(marker, init), events[|events| - 1]);
    }
  }

  ghost predicate Around(text: string, a: string, part: string, b: string) {
    text == a + part + b
  }

  /** The part occurs somewhere in the text. */
  ghost predicate Occurs(text: string, part: string) {
    exists a, b :: Around(text, a, part, b)
  }

  lemma ContainsExactly(text: string, part: string)
    ensures Contains(text, part) <==> Occurs(text, part)
  {
    if Contains(text, part) {
      var i: nat :| i <= |text| && At(text, part, i);
      assert Around(text, text[..i], part, text[i + |part|..]);
    }
    if Occurs(text, part) {
      var a, b :| Around(text, a, part, b);
      assert At(text, part, |a|);
    }
  }

  /** The result that an unsettled run takes from this event. */
  ghost predicate Decides(marker: Option<string>, tail: string, timedOut: bool, e: Event, r: TaskResult) {
    match e
    case Error(message) => r == TaskResult(-1, message)
    case Close(code, validation) =>
      && r.tail == tail
      && r.exitCode ==
           if timedOut || code.None? then -1
           else if code.value != 0 then code.value
           else if marker.Some? && !Occurs(tail, marker.value) then -2
           else if validation.Some? && validation.value != "" then -3
           else 0
    case _ => false
  }

  lemma StepDecides(marker: Option<string>, s: State, e: Event)
    requires !s.settled && Settling(e) && !e.Interrupt? && s.result.None? && !s.stopping
    ensures var t := Step(marker, s, e);
      t.result.Some? && !t.stopping && Decides(marker, s.tail, s.timedOut, e, t.result.value)
  {
    if marker.Some? { ContainsExactly(s.tail, marker.value); }
  }

  /**
   * The first error, close or interruption settles the run for good. An interruption leaves no result; an error reports
   * -1 with its message; a close reports its code, -1 after a timeout or without a code, -2 without the marker, -3 when
   * validation objects, over the last 4000 characters of output.
   */
  lemma FirstSettlementDecides(marker: Option<string>, events: seq<Event>, k: nat)
    requires Run(marker, events) && FirstSettling(events, k)
    ensures SettledBy(marker, events[..k], events[k], After(marker, events))
  {
    RunPrefix(marker, events, k);
    AfterNext(marker, events, k);
    SettlesFirst(marker, events[..k], events[k]);
    SettlementFixed(marker, events, k + 1);
  }

  /** What a run with this history comes to once this event settles it. */
  ghost predicate SettledBy(marker: Option<string>, before: seq<Event>, e: Event, s: State) {
    if e.Interrupt? then s.settled && s.stopping && s.result.None?
    else
      && s.settled && !s.stopping && s.result.Some?
      && Decides(marker, Last(Output(before)), TimedOutIn(before), e, s.result.value)
  }

  lemma SettlesFirst(marker: Option<string>, before: seq<Event>, e: Event)
    requires Run(marker, before) && Settling(e) && forall j :: 0 <= j < |before| ==> !Settling(before[j])
    ensures SettledBy(marker, before, e, Step(marker, After(marker, before), e))
  {
    SettledExactly(marker, before);
    TimedOutExactly(marker, before);
    TailIsLast(marker, before);
    SettlesOnce(marker, before);
    StepFrame(marker, After(marker, before), e);
    if !e.Interrupt? { StepDecides(marker, After(marker, before), e); }
  }

  lemma {:induction false} RunPrefix(marker: Option<string>, events: seq<Event>, n: nat)
    requires Run(marker, events) && n <= |events|
    ensures Run(marker, events[..n])
    decreases |events|
  {
    if n == |events| {
      assert events[..n] == events;
    } else {
      assert events[..|events| - 1][..n] == events[..n];
      RunPrefix(marker, events[..|events| - 1], n);
    }
  }

  // ---- signals -----------------------------------------------------------------------------------

  /** One request to stop, followed by a kill only if it is no longer armed. */
  predicate Volley(sent: seq<Signal>, armed: bool) {
    sent == [Term] || (sent == [Term, Kill] && !armed)
  }

  /** Two of them, the first over. */
  predicate TwoVolleys(sent: seq<Signal>, armed: bool) {
    || sent == [Term, Term] || sent == [Term, Kill, Term]
    || (!armed && (sent == [Term, Term, Kill] || sent == [Term, Kill, Term, Kill]))
  }

  /** A timeout and an interruption each send one volley, in that order; nothing else is ever sent. */
  ghost predicate SignalsOk(s: State) {
    if s.timedOut && s.stopping then TwoVolleys(s.sent, s.kill)
    else if s.timedOut then Volley(s.sent, s.escalation)
    else if s.stopping then Volley(s.sent, s.kill)
    else s.sent == []
  }

  lemma StepSignals(marker: Option<string>, s: State, e: Event)
    requires Valid(s) && Allowed(s, e) && SignalsOk(s)
    ensures SignalsOk(Step(marker, s, e))
  {
    match e
    case Timeout(delivered) =>
    case Escalate => assert [Term] + [Kill] == [Term, Kill];
    case Interrupt(delivered) => if !s.settled { InterruptSignals(marker, s, delivered); }
    case KillFires => KillSignals(marker, s);
    case Error(_) =>
    case Close(_, _) =>
    case _ =>
  }

  lemma InterruptSignals(marker: Option<string>, s: State, delivered: bool)
    requires Valid(s) && !s.settled && SignalsOk(s)
    ensures SignalsOk(Step(marker, s, Interrupt(delivered)))
  {
    if s.timedOut { TermAgain(s.sent, s.escalation, delivered); }
  }

  lemma TermAgain(sent: seq<Signal>, was: bool, armed: bool)
    requires Volley(sent, was)
    ensures TwoVolleys(sent + [Term], armed)
  {
    if sent == [Term] { assert sent + [Term] == [Term, Term]; } else { assert sent + [Term] == [Term, Kill, Term]; }
  }

  lemma KillSignals(marker: Option<string>, s: State)
    requires Valid(s) && s.kill && SignalsOk(s)
    ensures SignalsOk(Step(marker, s, KillFires))
  {
    if s.timedOut { KillAgain(s.sent); } else { assert [Term] + [Kill] == [Term, Kill]; }
  }

  lemma KillAgain(sent: seq<Signal>)
    requires TwoVolleys(sent, true)
    ensures TwoVolleys(sent + [Kill], false)
  {
    if sent == [Term, Term] {
      assert sent + [Kill] == [Term, Term, Kill];
    } else {
      assert sent + [Kill] == [Term, Kill, Term, Kill];
    }
  }

  /** In every run a kill follows a request to stop, and there is at most one volley per timeout and interruption. */
  lemma {:induction false} SignalPattern(marker: Option<string>, events: seq<Event>)
    requires Run(marker, events)
    ensures SignalsOk(After(marker, events))
  {
    if events != [] {
      var init := events[..|events| - 1];
      SignalPattern(marker, init);
      SettlesOnce(marker, init);
      StepSignals(marker, After(marker, init), events[|events| - 1]);
    }
  }

  // ---- the object --------------------------------------------------------------------------------

  /** The mutable process run: handlers update its fields in place, as the registered listeners and timers do. */
  class ProcessRun {
    const marker: Option<string>
    var settled: bool
    var timedOut: bool
    var tail: string
    ghost var output: string
    var timer: bool
    var escalation: bool
    var result: Option<TaskResult>
    var resumes: nat
    var interrupted: bool
    var stopping: bool
    var finalized: bool
    var kill: bool
    var bound: bool
    var onClose: bool
    var logging: bool
    var dones: nat
    var sent: seq<Signal>

    ghost function View(): State
      reads this
    {
      State(settled, timedOut, tail, output, timer, escalation, result, resumes, interrupted, stopping, finalized,
            kill, bound, onClose, logging, dones, sent)
    }

    constructor (completionMarker: Option<string>)
      ensures marker == completionMarker && View() == STARTED && Valid(View())
    {
      marker := completionMarker;
      settled, timedOut, tail, output, timer, escalation := false, false, "", "", true, false;
      result, resumes, interrupted, stopping, finalized := None, 0, false, false, false;
      kill, bound, onClose, logging, dones, sent := false, false, false, false, 0, [];
    }

    method OnData(chunk: string)
      modifies this
      requires Valid(View())
      ensures View() == Step(marker, old(View()), Data(chunk)) && Valid(View())
    {
      StepKeeps(marker, View(), Data(chunk));
      tail := Last(tail + chunk);
      output := output + chunk;
    }

    method Settle(exitCode: int, finalTail: string, validation: Option<string>)
      modifies this
      ensures View() == Finish(marker, old(View()), exitCode, finalTail, validation)
    {
      if settled { return; }
      settled, timer, escalation := true, false, false;
      var missing := MarkerMissing(marker, finalTail);
      var code := if exitCode == 0 && missing then -2 else if exitCode == 0 && Rejected(validation) then -3 else exitCode;
      result := Some(TaskResult(code, finalTail));
    }

    method OnError(message: string)
      modifies this
      requires Valid(View())
      ensures View() == Step(marker, old(View()), Error(message)) && Valid(View())
    {
      StepKeeps(marker, View(), Error(message));
      Settle(-1, message, None);
    }

    method OnClose(code: Option<int>, validation: Option<string>)
      modifies this
      requires Valid(View())
      ensures View() == Step(marker, old(View()), Close(code, validation)) && Valid(View())
    {
      StepKeeps(marker, View(), Close(code, validation));
      var hooked := onClose;
      escalation := false;
      Settle(if timedOut || code.None? then -1 else code.value, tail, validation);
      if hooked { CompleteInterruption(); }
    }

    method OnTimeout(delivered: bool)
      modifies this
      requires Valid(View()) && timer
      ensures View() == Step(marker, old(View()), Timeout(delivered)) && Valid(View())
    {
      StepKeeps(marker, View(), Timeout(delivered));
      timer, timedOut := false, true;
      sent := sent + [Term];
      escalation := delivered;
    }

    method OnEscalation()
      modifies this
      requires Valid(View()) && escalation
      ensures View() == Step(marker, old(View()), Escalate) && Valid(View())
    {
      StepKeeps(marker, View(), Escalate);
      escalation := false;
      sent := sent + [Kill];
    }

    method CompleteInterruption()
      modifies this
      ensures View() == Complete(old(View()))
    {
      if finalized { return; }
      finalized := true;
      kill, bound, onClose, logging := false, false, false, true;
    }

    method OnInterrupt(delivered: bool)
      modifies this
      requires Valid(View()) && !interrupted
      ensures View() == Step(marker, old(View()), Interrupt(delivered)) && Valid(View())
    {
      StepKeeps(marker, View(), Interrupt(delivered));
      interrupted := true;
      if settled {
        dones := dones + 1;
      } else {
        Stop(delivered);
      }
    }

    /** Take the settlement, hook the close, ask the group to stop, and bound the wait if the signal went out. */
    method Stop(delivered: bool)
      modifies this`settled, this`timer, this`escalation, this`stopping, this`onClose, this`sent, this`kill, this`bound
      ensures settled && stopping && onClose && !timer && !escalation
      ensures sent == old(sent) + [Term] && kill == delivered && bound == delivered
    {
      settled, timer, escalation, stopping := true, false, false, true;
      onClose := true;
      sent := sent + [Term];
      kill, bound := delivered, delivered;
    }

    method OnKill()
      modifies this
      requires Valid(View()) && kill
      ensures View() == Step(marker, old(View()), KillFires) && Valid(View())
    {
      StepKeeps(marker, View(), KillFires);
      kill := false;
      sent := sent + [Kill];
    }

    method OnBound()
      modifies this
      requires Valid(View()) && bound
      ensures View() == Step(marker, old(View()), BoundFires) && Valid(View())
    {
      StepKeeps(marker, View(), BoundFires);
      bound := false;
      CompleteInterruption();
    }

    method OnFinishLogged() returns (reported: TaskResult)
      modifies this
      requires Valid(View()) && result.Some? && resumes == 0
      ensures View() == Step(marker, old(View()), FinishLogged) && Valid(View())
      ensures Some(reported) == result
    {
      StepKeeps(marker, View(), FinishLogged);
      resumes := resumes + 1;
      reported := result.value;
    }
  }
}
