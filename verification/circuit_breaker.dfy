/** The circuit breaker state machine (circuit_breaker/state_machine.py).
    Each reading of the clock is a parameter of the operation that takes it. */
module CircuitBreakers {

  datatype Mode = CLOSED | OPEN | HALF_OPEN

  /** One call of the state-change callback. */
  datatype Change = Change(before: Mode, after: Mode)

  datatype Config = Config(failureThreshold: int, recoveryTimeout: real, halfOpenSuccesses: int)

  datatype Circuit = Circuit(mode: Mode, failures: int, lastFailure: real, trialSuccesses: int, changes: seq<Change>)

  const FRESH := Circuit(CLOSED, 0, 0.0, 0, [])

  function Transition(c: Circuit, mode: Mode, now: real): Circuit {
    Circuit(
      mode,
      if mode.CLOSED? then 0 else c.failures,
      if mode.OPEN? then now else c.lastFailure,
      0,
      c.changes + [Change(c.mode, mode)])
  }

  /** An OPEN circuit whose timeout has passed becomes HALF_OPEN when looked at. */
  function Observe(cfg: Config, c: Circuit, now: real): Circuit {
    if c.mode.OPEN? && now - c.lastFailure >= cfg.recoveryTimeout then Transition(c, HALF_OPEN, now) else c
  }

  function RecordSuccess(cfg: Config, c: Circuit): Circuit {
    if c.mode.HALF_OPEN? then
      var d := c.(trialSuccesses := c.trialSuccesses + 1);
      if d.trialSuccesses >= cfg.halfOpenSuccesses then Transition(d, CLOSED, 0.0) else d
    else c.(failures := 0)
  }

  /** Two clock readings: when the failure is noted and, if that opens the
      circuit, when it opens. */
  function RecordFailure(cfg: Config, c: Circuit, notedAt: real, openedAt: real): Circuit {
    if c.mode.HALF_OPEN? then Transition(c, OPEN, notedAt).(lastFailure := openedAt)
    else
      var d := c.(failures := c.failures + 1, lastFailure := notedAt);
      if d.failures >= cfg.failureThreshold then Transition(d, OPEN, openedAt) else d
  }

  class CircuitBreaker {
    const cfg: Config
    var mode: Mode
    var failures: int
    var lastFailure: real
    var trialSuccesses: int
    /** What the callback has been told. */
    var changes: seq<Change>

    ghost function View(): Circuit
      reads this
    {
      Circuit(mode, failures, lastFailure, trialSuccesses, changes)
    }

    constructor (cfg: Config)
      ensures this.cfg == cfg && View() == FRESH
    {
      this.cfg := cfg;
      mode, failures, lastFailure, trialSuccesses, changes := CLOSED, 0, 0.0, 0, [];
    }

    method SetMode(newMode: Mode, now: real)
      modifies this
      ensures View() == Transition(old(View()), newMode, now)
    {
      var before := mode;
      mode := newMode;
      if newMode == CLOSED {
        failures := 0;
        trialSuccesses := 0;
      } else if newMode == OPEN {
        trialSuccesses := 0;
        lastFailure := now;
      } else if newMode == HALF_OPEN {
        trialSuccesses := 0;
      }
      changes := changes + [Change(before, newMode)];
    }

    method GetState(now: real) returns (m: Mode)
      modifies this
      ensures View() == Observe(cfg, old(View()), now) && m == mode
    {
      if mode == OPEN {
        if now - lastFailure >= cfg.recoveryTimeout {
          SetMode(HALF_OPEN, now);
        }
      }
      return mode;
    }

    method AllowRequest(now: real) returns (allowed: bool)
      modifies this
      ensures View() == Observe(cfg, old(View()), now) && allowed == !mode.OPEN?
    {
      if mode == OPEN {
        if now - lastFailure >= cfg.recoveryTimeout {
          SetMode(HALF_OPEN, now);
        } else {
          return false;
        }
      }
      return true;
    }

    method Succeed()
      modifies this
      ensures View() == RecordSuccess(cfg, old(View()))
    {
      if mode == HALF_OPEN {
        trialSuccesses := trialSuccesses + 1;
        if trialSuccesses >= cfg.halfOpenSuccesses {
          SetMode(CLOSED, 0.0);
        }
      } else {
        failures := 0;
      }
    }

    method Fail(notedAt: real, openedAt: real)
      modifies this
      ensures View() == RecordFailure(cfg, old(View()), notedAt, openedAt)
    {
      if mode == HALF_OPEN {
        SetMode(OPEN, notedAt);
        lastFailure := openedAt;
        return;
      }
      failures := failures + 1;
      lastFailure := notedAt;
      if failures >= cfg.failureThreshold {
        SetMode(OPEN, openedAt);
      }
    }
  }

  // ---------------------------------------------------------------------
  // Runs
  // ---------------------------------------------------------------------

  /** Everything that reaches the machine; `Force` is the rate rule of breaker.py. */
  datatype Op =
    | Look(now: real)
    | Success
    | Failure(notedAt: real, openedAt: real)
    | Force(now: real)

  function Step(cfg: Config, c: Circuit, op: Op): Circuit {
    match op
    case Look(now) => Observe(cfg, c, now)
    case Success => RecordSuccess(cfg, c)
    case Failure(notedAt, openedAt) => RecordFailure(cfg, c, notedAt, openedAt)
    case Force(now) => Transition(c, OPEN, now)
  }

  function After(cfg: Config, ops: seq<Op>): Circuit {
    if ops == [] then FRESH else Step(cfg, After(cfg, ops[..|ops| - 1]), ops[|ops| - 1])
  }

  /** The five moves the callback may report: to OPEN from anywhere, OPEN included,
      and otherwise only round the cycle. */
  predicate LegalChange(c: Change) {
    match c.after
    case OPEN => true
    case HALF_OPEN => c.before == OPEN
    case CLOSED => c.before == HALF_OPEN
  }

  /** Changes that start from CLOSED, each from where the last one ended, and end in `mode`. */
  predicate Chain(changes: seq<Change>, mode: Mode) {
    if changes == [] then mode == CLOSED
    else
      var last := changes[|changes| - 1];
      last.after == mode && LegalChange(last) && Chain(changes[..|changes| - 1], last.before)
  }

  lemma {:induction false} ChangesFormAChain(cfg: Config, ops: seq<Op>)
    ensures Chain(After(cfg, ops).changes, After(cfg, ops).mode)
  {
    if ops != [] {
      var init := ops[..|ops| - 1];
      ChangesFormAChain(cfg, init);
      StepKeepsChain(cfg, After(cfg, init), ops[|ops| - 1]);
    }
  }

  lemma StepKeepsChain(cfg: Config, c: Circuit, op: Op)
    requires Chain(c.changes, c.mode)
    ensures Chain(Step(cfg, c, op).changes, Step(cfg, c, op).mode)
  {
    hide Chain;
    var d := Step(cfg, c, op);
    if d.changes != c.changes {
      assert d.changes == c.changes + [Change(c.mode, d.mode)];
      LinkAdded(c.changes, c.mode, d.mode);
    }
  }

  lemma LinkAdded(changes: seq<Change>, before: Mode, after: Mode)
    requires Chain(changes, before) && LegalChange(Change(before, after))
    ensures Chain(changes + [Change(before, after)], after)
  {
    assert (changes + [Change(before, after)])[..|changes|] == changes;
  }

  // ---------------------------------------------------------------------
  // Which operation changes the mode
  // ---------------------------------------------------------------------

  /** The circuit is in `mode` at every point from before operation `m` to the end. */
  ghost predicate Throughout(cfg: Config, ops: seq<Op>, m: nat, mode: Mode) {
    forall k :: m <= k <= |ops| ==> After(cfg, ops[..k]).mode == mode
  }

  /** The successes since HALF_OPEN was entered. */
  ghost function Trials(cfg: Config, ops: seq<Op>): set<nat> {
    set m: nat | m < |ops| && ops[m].Success? && Throughout(cfg, ops, m, HALF_OPEN)
  }

  /** The failures since CLOSED was entered and since the last success. */
  ghost function InARow(cfg: Config, ops: seq<Op>): set<nat> {
    set m: nat | m < |ops| && ops[m].Failure? && Throughout(cfg, ops, m, CLOSED)
                 && forall j :: m < j < |ops| ==> !ops[j].Success?
  }

  lemma OneOpMore(cfg: Config, ops: seq<Op>, op: Op)
    ensures After(cfg, ops + [op]) == Step(cfg, After(cfg, ops), op)
  {
    assert (ops + [op])[..|ops|] == ops;
  }

  lemma ThroughoutBefore(cfg: Config, ops: seq<Op>, m: nat, mode: Mode)
    requires m < |ops|
    ensures Throughout(cfg, ops, m, mode)
        <==> After(cfg, ops).mode == mode && Throughout(cfg, ops[..|ops| - 1], m, mode)
  {
    hide After;
    var init := ops[..|ops| - 1];
    assert ops[..|ops|] == ops;
    assert forall k :: m <= k <= |init| ==> init[..k] == ops[..k];
  }

  lemma OnlyFromHere(cfg: Config, ops: seq<Op>, mode: Mode)
    ensures Throughout(cfg, ops, |ops|, mode) <==> After(cfg, ops).mode == mode
  {
    assert ops[..|ops|] == ops;
  }

  lemma TrialsGrow(cfg: Config, ops: seq<Op>)
    requires ops != [] && After(cfg, ops).mode.HALF_OPEN?
    ensures var init := ops[..|ops| - 1];
            |Trials(cfg, ops)|
            == if !After(cfg, init).mode.HALF_OPEN? then 0
               else |Trials(cfg, init)| + if ops[|ops| - 1].Success? then 1 else 0
  {
    hide After, Throughout;
    var init, last := ops[..|ops| - 1], |ops| - 1;
    forall m: nat
      ensures m in Trials(cfg, ops) <==>
                && After(cfg, init).mode.HALF_OPEN?
                && (m in Trials(cfg, init) || (m == last && ops[last].Success?))
    {
      if m < |ops| { ThroughoutBefore(cfg, ops, m, HALF_OPEN); }
      if m < |init| { AtTheEnd(cfg, init, m, HALF_OPEN); }
      OnlyFromHere(cfg, init, HALF_OPEN);
    }
    if After(cfg, init).mode.HALF_OPEN? {
      assert Trials(cfg, ops) == Trials(cfg, init) + if ops[last].Success? then {last} else {};
    } else {
      assert Trials(cfg, ops) == {};
    }
  }

  lemma AtTheEnd(cfg: Config, ops: seq<Op>, m: nat, mode: Mode)
    requires m <= |ops|
    ensures Throughout(cfg, ops, m, mode) ==> After(cfg, ops).mode == mode
  {
    assert ops[..|ops|] == ops;
  }

  lemma InARowGrows(cfg: Config, ops: seq<Op>)
    requires ops != [] && After(cfg, ops).mode.CLOSED?
    ensures var init := ops[..|ops| - 1];
            |InARow(cfg, ops)|
            == if !After(cfg, init).mode.CLOSED? || ops[|ops| - 1].Success? then 0
               else |InARow(cfg, init)| + if ops[|ops| - 1].Failure? then 1 else 0
  {
    hide After, Throughout;
    var init, last := ops[..|ops| - 1], |ops| - 1;
    forall m: nat
      ensures m in InARow(cfg, ops) <==>
                && After(cfg, init).mode.CLOSED? && !ops[last].Success?
                && (m in InARow(cfg, init) || (m == last && ops[last].Failure?))
    {
      if m < |ops| { ThroughoutBefore(cfg, ops, m, CLOSED); }
      if m < |init| {
        AtTheEnd(cfg, init, m, CLOSED);
        assert (forall j :: m < j < |ops| ==> !ops[j].Success?)
          <==> !ops[last].Success? && forall j :: m < j < |init| ==> !init[j].Success?;
      }
      OnlyFromHere(cfg, init, CLOSED);
    }
    if After(cfg, init).mode.CLOSED? && !ops[last].Success? {
      assert InARow(cfg, ops) == InARow(cfg, init) + if ops[last].Failure? then {last} else {};
    } else {
      assert InARow(cfg, ops) == {};
    }
  }

  /** The counters are what the history says: HALF_OPEN counts the successes since
      it was entered, CLOSED the failures in a row since it was entered, and
      both stay below their thresholds. */
  lemma {:induction false} CountersMatchHistory(cfg: Config, ops: seq<Op>)
    ensures var c := After(cfg, ops);
            && (c.mode.HALF_OPEN? ==> c.trialSuccesses == |Trials(cfg, ops)|)
            && (c.mode.HALF_OPEN? && cfg.halfOpenSuccesses >= 1 ==> |Trials(cfg, ops)| < cfg.halfOpenSuccesses)
            && (c.mode.CLOSED? ==> c.failures == |InARow(cfg, ops)|)
            && (c.mode.CLOSED? && cfg.failureThreshold >= 1 ==> |InARow(cfg, ops)| < cfg.failureThreshold)
  {
    hide Throughout;
    if ops == [] {
      assert InARow(cfg, ops) == {};
    } else {
      CountersMatchHistory(cfg, ops[..|ops| - 1]);
      if After(cfg, ops).mode.HALF_OPEN? { TrialsGrow(cfg, ops); }
      if After(cfg, ops).mode.CLOSED? { InARowGrows(cfg, ops); }
    }
  }

  /** From HALF_OPEN, by the history: a success closes the circuit exactly if with
      it the successes since HALF_OPEN was entered are enough, and otherwise
      leaves it HALF_OPEN; a failure or a forced opening opens it; a look
      leaves it. */
  lemma HalfOpenMoves(cfg: Config, ops: seq<Op>, op: Op)
    requires After(cfg, ops).mode.HALF_OPEN?
    ensures After(cfg, ops + [op]).mode
         == match op
            case Success => if |Trials(cfg, ops)| + 1 >= cfg.halfOpenSuccesses then CLOSED else HALF_OPEN
            case Look(_) => HALF_OPEN
            case _ => OPEN
  {
    hide Trials;
    OneOpMore(cfg, ops, op);
    CountersMatchHistory(cfg, ops);
  }

  /** From CLOSED, by the history: a failure opens the circuit exactly if with it
      the failures since CLOSED was entered and since the last success reach
      the threshold; a forced opening opens it; nothing else does anything. */
  lemma ClosedMoves(cfg: Config, ops: seq<Op>, op: Op)
    requires After(cfg, ops).mode.CLOSED?
    ensures After(cfg, ops + [op]).mode
         == match op
            case Failure(_, _) => if |InARow(cfg, ops)| + 1 >= cfg.failureThreshold then OPEN else CLOSED
            case Force(_) => OPEN
            case _ => CLOSED
  {
    hide InARow;
    OneOpMore(cfg, ops, op);
    CountersMatchHistory(cfg, ops);
  }

  /** From OPEN only a look leads away, to HALF_OPEN, once the timeout has passed
      since the latest failure or forced opening. */
  lemma OpenMoves(cfg: Config, ops: seq<Op>, op: Op)
    requires After(cfg, ops).mode.OPEN?
    ensures After(cfg, ops + [op]).mode
         == if op.Look? && op.now - After(cfg, ops).lastFailure >= cfg.recoveryTimeout then HALF_OPEN else OPEN
  {
    OneOpMore(cfg, ops, op);
  }

  /** So the mode is OPEN after an operation only if it was, or by a failure or a
      forced opening; and CLOSED only if it was, or by a success in HALF_OPEN. */
  lemma OpensOnlyByTrouble(cfg: Config, ops: seq<Op>, op: Op)
    ensures After(cfg, ops + [op]).mode.OPEN? && !After(cfg, ops).mode.OPEN? ==> op.Failure? || op.Force?
    ensures After(cfg, ops + [op]).mode.CLOSED? && !After(cfg, ops).mode.CLOSED? ==>
              op.Success? && After(cfg, ops).mode.HALF_OPEN?
    ensures After(cfg, ops + [op]).mode.HALF_OPEN? && !After(cfg, ops).mode.HALF_OPEN? ==>
              op.Look? && After(cfg, ops).mode.OPEN?
  {
    hide After;
    OneOpMore(cfg, ops, op);
  }

  // ---------------------------------------------------------------------
  // Time
  // ---------------------------------------------------------------------

  /** The clock never runs backwards within the run. */
  ghost predicate Timed(ops: seq<Op>, from: real) {
    if ops == [] then true
    else match ops[0]
      case Look(now) => from <= now && Timed(ops[1..], now)
      case Success => Timed(ops[1..], from)
      case Failure(notedAt, openedAt) => from <= notedAt <= openedAt && Timed(ops[1..], openedAt)
      case Force(now) => from <= now && Timed(ops[1..], now)
  }

  predicate Trouble(op: Op) {
    op.Failure? || op.Force?
  }

  /** The run of a machine that starts somewhere else. */
  function Onward(cfg: Config, c: Circuit, ops: seq<Op>): Circuit
    decreases |ops|
  {
    if ops == [] then c else Onward(cfg, Step(cfg, c, ops[0]), ops[1..])
  }

  /** Every reading in the run is before `limit`. */
  ghost predicate Before(ops: seq<Op>, limit: real) {
    forall op :: op in ops ==>
      match op
      case Look(now) => now < limit
      case Success => true
      case Failure(notedAt, openedAt) => notedAt < limit && openedAt < limit
      case Force(now) => now < limit
  }

  /** Every look reads before the timeout of the state it meets; a failure or
      forced opening on the way moves that timeout on. */
  ghost predicate Early(cfg: Config, c: Circuit, ops: seq<Op>)
    decreases |ops|
  {
    ops != [] ==>
      && (ops[0].Look? ==> ops[0].now < c.lastFailure + cfg.recoveryTimeout)
      && Early(cfg, Step(cfg, c, ops[0]), ops[1..])
  }

  /** The circuit is OPEN before and after every operation. */
  ghost predicate OpenThroughout(cfg: Config, c: Circuit, ops: seq<Op>)
    decreases |ops|
  {
    c.mode.OPEN? && (ops == [] || OpenThroughout(cfg, Step(cfg, c, ops[0]), ops[1..]))
  }

  /** The open window, to the operation: an OPEN circuit admits no request
      exactly as long as every look comes before the timeout counted from
      the latest failure or forced opening, whatever the clock does. */
  lemma {:induction false} StaysOpen(cfg: Config, c: Circuit, ops: seq<Op>)
    requires c.mode.OPEN?
    ensures OpenThroughout(cfg, c, ops) <==> Early(cfg, c, ops)
    decreases |ops|
  {
    if ops != [] && Step(cfg, c, ops[0]).mode.OPEN? {
      StaysOpen(cfg, Step(cfg, c, ops[0]), ops[1..]);
    }
  }

  /** While every reading is before one fixed timeout, all looks are early. */
  lemma {:induction false} EarlyBeforeTimeout(cfg: Config, c: Circuit, ops: seq<Op>, from: real)
    requires c.mode.OPEN? && c.lastFailure <= from && Timed(ops, from)
    requires Before(ops, c.lastFailure + cfg.recoveryTimeout)
    ensures Early(cfg, c, ops)
    ensures Onward(cfg, c, ops).mode.OPEN? && Onward(cfg, c, ops).lastFailure >= c.lastFailure
    decreases |ops|
  {
    if ops != [] {
      assert ops[0] in ops;
      var d := Step(cfg, c, ops[0]);
      var later := match ops[0]
        case Look(now) => now
        case Success => from
        case Failure(_, openedAt) => openedAt
        case Force(now) => now;
      assert forall op :: op in ops[1..] ==> op in ops;
      EarlyBeforeTimeout(cfg, d, ops[1..], later);
    }
  }

  /** In a run from the start: between operations i and j the circuit is OPEN
      all along, and admits nothing, exactly when it is OPEN at i and every look in between is early. */
  lemma OpenWindow(cfg: Config, ops: seq<Op>, i: nat, j: nat)
    requires i <= j <= |ops|
    ensures (forall k :: i <= k <= j ==> After(cfg, ops[..k]).mode.OPEN?)
       <==> After(cfg, ops[..i]).mode.OPEN? && Early(cfg, After(cfg, ops[..i]), ops[i..j])
  {
    hide Step, After;
    OpenAtEachPoint(cfg, ops, i, j);
    if After(cfg, ops[..i]).mode.OPEN? { StaysOpen(cfg, After(cfg, ops[..i]), ops[i..j]); }
  }

  lemma {:induction false} OpenAtEachPoint(cfg: Config, ops: seq<Op>, i: nat, j: nat)
    requires i <= j <= |ops|
    ensures (forall k :: i <= k <= j ==> After(cfg, ops[..k]).mode.OPEN?)
       <==> OpenThroughout(cfg, After(cfg, ops[..i]), ops[i..j])
    decreases j - i
  {
    if i < j {
      assert ops[..i + 1][..i] == ops[..i];
      assert ops[i..j][1..] == ops[i + 1..j];
      OpenAtEachPoint(cfg, ops, i + 1, j);
    }
  }

  /** The time kept as the last failure is a reading of the latest failure or
      forced opening, so the window is counted from that: the later reading of
      a failure if the callback was told of an opening, else the earlier one. */
  lemma {:induction false} LastFailureIsLatest(cfg: Config, ops: seq<Op>, k: nat)
    requires k < |ops| && Trouble(ops[k]) && forall j :: k < j < |ops| ==> !Trouble(ops[j])
    ensures var told := |After(cfg, ops[..k + 1]).changes| > |After(cfg, ops[..k]).changes|;
            After(cfg, ops).lastFailure
            == match ops[k]
               case Failure(notedAt, openedAt) => if told then openedAt else notedAt
               case Force(now) => now
  {
    var init := ops[..|ops| - 1];
    if k < |ops| - 1 {
      LastFailureIsLatest(cfg, init, k);
      assert init[..k] == ops[..k] && init[..k + 1] == ops[..k + 1];
    } else {
      assert ops[..k] == init && ops[..k + 1] == ops;
    }
  }

  lemma {:induction false} NeverOpenWithoutTrouble(cfg: Config, ops: seq<Op>)
    requires forall op :: op in ops ==> !Trouble(op)
    ensures After(cfg, ops).mode.CLOSED?
  {
    if ops != [] {
      assert ops[|ops| - 1] in ops;
      NeverOpenWithoutTrouble(cfg, ops[..|ops| - 1]);
    }
  }

  /** A look at an OPEN circuit admits exactly from the timeout on. */
  lemma AdmittedExactlyAfterTimeout(cfg: Config, ops: seq<Op>, now: real)
    requires After(cfg, ops).mode.OPEN?
    ensures After(cfg, ops + [Look(now)]).mode.OPEN?
        <==> now < After(cfg, ops).lastFailure + cfg.recoveryTimeout
    ensures !After(cfg, ops + [Look(now)]).mode.OPEN? ==> After(cfg, ops + [Look(now)]).mode.HALF_OPEN?
    ensures exists k :: 0 <= k < |ops| && Trouble(ops[k])
  {
    assert (ops + [Look(now)])[..|ops|] == ops;
    if forall op :: op in ops ==> !Trouble(op) {
      NeverOpenWithoutTrouble(cfg, ops);
    } else {
      var op :| op in ops && Trouble(op);
    }
  }

  /** Whatever the module's header says, HALF_OPEN puts no limit on trial
      requests: any number of looks leaves it as it is, and all are admitted. */
  lemma {:induction false} HalfOpenAdmitsAll(cfg: Config, c: Circuit, looks: seq<Op>)
    requires c.mode.HALF_OPEN? && forall op :: op in looks ==> op.Look?
    ensures Onward(cfg, c, looks) == c
    decreases |looks|
  {
    if looks != [] {
      assert looks[0] in looks;
      HalfOpenAdmitsAll(cfg, c, looks[1..]);
    }
  }
}
