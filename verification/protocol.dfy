/** The conversation between an armed core and its successor: deadlines,
    messages and the two reactive automata.  Times are whole milliseconds.

    Each automaton is a pure step function.  `OldCore` and `Successor` prove
    that the imperative code runs it; `Takeover` composes both over a link. */
module Protocol {

  const TAKEOVER_LIMIT: nat := 30_000
  const COMMIT_WITHIN: nat := 20_000
  const HELLO_WITHIN: nat := 10_000
  const SNAPSHOT_WITHIN: nat := 30_000
  const ACK_WITHIN: nat := 10_000
  /** A renewal under way (10 s) plus the write-back of rotated tokens (5 s). */
  const SETTLE_WITHIN: nat := 15_000
  /** How long a vanished predecessor is waited for at commit and in `gone_or_busy`. */
  const GONE_WITHIN: nat := 2_000
  const FALLBACK_EXIT_WITHIN: nat := 200_000
  const MAX_STRIKES: nat := 3
  const ID_GAP: nat := 10_000_000
  const VERSION: nat := 1

  datatype Message =
    | Hello(version: nat)
    | Refused
    | Control
    | Snapshot(nextId: nat)
    | WantListeners
    | Listeners
    | Commit
    | CommitAck
    | Fallback
    | Settled(request: nat)
    | InFlight(n: nat)
    | Bye

  /** What an automaton reacts to. */
  datatype Input =
    | Accepted         // a peer reached the endpoint
    | Got(m: Message)
    | Unreadable       // a frame that does not parse
    | Broken           // the other end is closed
    | TimedOut         // the current wait passed its limit
    | Sent(ok: bool)   // the outcome of producing and sending this phase's message
    | Proceed          // the next local step
    | HolderGone       // the lock holder's process no longer exists

  datatype Timed = Timed(input: Input, at: nat)

  // ------------------------------------------------------------- old side

  datatype OldPhase =
    | Armed
    | Greeting
    | GiveRefusal
    | AwaitFallback
    | GiveControl
    | GiveFirst
    | AwaitWant(sent: nat)
    | GiveSecond
    | GiveListeners
    | AwaitCommit(sent: nat)
    | GiveAck
    | Acked      // CommitAck is out; the listeners are dropped next
    | Draining
    | Retiring   // serves on, drains and exits the way it did before hand-overs existed

  /** `held`: renewals are held.  `paused`: the control plane takes no new
      connections.  `accepting`: the gateway listeners are being accepted on. */
  datatype Old = Old(phase: OldPhase, strikes: nat, held: bool, paused: bool, accepting: bool)

  /** `armed`'s answer to an attempt that did not complete. */
  function Abandon(o: Old, strike: bool): Old {
    o.(phase := Armed, strikes := o.strikes + (if strike then 1 else 0), held := false, paused := false)
  }

  function Retire(o: Old): Old {
    o.(phase := Retiring, held := false)
  }

  /** A break soon after the first snapshot counts; hours later (the successor
      was waiting for its configuration to be mended) it does not. */
  predicate BrokeEarly(sent: nat, now: nat) {
    now < sent + SNAPSHOT_WITHIN + 5_000
  }

  function OldNext(o: Old, i: Input, now: nat): Old {
    match o.phase
    case Armed =>
      if i.Accepted? then o.(phase := Greeting) else o
    case Greeting =>
      (match i
       case Got(Hello(v)) => o.(phase := if v != VERSION || o.strikes >= MAX_STRIKES then GiveRefusal else GiveControl)
       case Unreadable => o.(phase := GiveRefusal)
       case _ => o.(phase := Armed))
    case GiveRefusal =>
      if i.Sent? then o.(phase := AwaitFallback) else o
    case AwaitFallback =>
      if i == Got(Fallback) then Retire(o) else Abandon(o, false)
    case GiveControl =>
      if i == Sent(true) then o.(phase := GiveFirst, paused := true) else Abandon(o, true)
    case GiveFirst =>
      if i == Sent(true) then o.(phase := AwaitWant(now)) else Abandon(o, true)
    case AwaitWant(sent) =>
      (match i
       case Got(WantListeners) => o.(phase := GiveSecond, held := true)
       case Got(Fallback) => Retire(o)
       case Got(_) => o
       case _ => Abandon(o, BrokeEarly(sent, now)))
    case GiveSecond =>
      if i == Sent(true) then o.(phase := GiveListeners) else Abandon(o, true)
    case GiveListeners =>
      if i == Sent(true) then o.(phase := AwaitCommit(now)) else Abandon(o, true)
    case AwaitCommit(_) =>
      (match i
       case Got(Commit) => o.(phase := GiveAck)
       case Got(Fallback) => Retire(o)
       case _ => Abandon(o, true))
    case GiveAck =>
      if i == Sent(true) then o.(phase := Acked) else Abandon(o, true)
    case Acked =>
      if i.Proceed? then o.(phase := Draining, accepting := false) else o
    case Draining => o
    case Retiring => o
  }

  /** What each phase sends, if it sends. */
  function OldSends(p: OldPhase, nextId: nat): (m: Message)
    requires Gives(p)
  {
    match p
    case GiveRefusal => Refused
    case GiveControl => Control
    case GiveFirst => Snapshot(nextId)
    case GiveSecond => Snapshot(nextId)
    case GiveListeners => Listeners
    case GiveAck => CommitAck
  }

  predicate Gives(p: OldPhase) {
    p.GiveRefusal? || p.GiveControl? || p.GiveFirst? || p.GiveSecond? || p.GiveListeners? || p.GiveAck?
  }

  predicate OldReceives(p: OldPhase) {
    p.Greeting? || p.AwaitFallback? || p.AwaitWant? || p.AwaitCommit?
  }

  /** From the greeting to the acknowledgement the endpoint is closed and the
      link is held; afterwards only a draining core keeps it. */
  predicate HoldsLink(p: OldPhase) {
    !p.Armed? && !p.Retiring?
  }

  /** Everything abandoning an attempt must restore. */
  predicate ServingOn(o: Old) {
    o.phase.Armed? && !o.held && !o.paused && o.accepting && o.strikes <= MAX_STRIKES
  }

  /** Between the hold on renewals and the end of the hand-over. */
  predicate RenewalsHeld(p: OldPhase) {
    p.GiveSecond? || p.GiveListeners? || p.AwaitCommit? || p.GiveAck? || p.Acked? || p.Draining?
  }

  /** Between the control plane going over and the end of the hand-over. */
  predicate ControlGone(p: OldPhase) {
    p.GiveFirst? || p.AwaitWant? || RenewalsHeld(p)
  }

  /** What every step of the old side keeps: renewals are held exactly from the
      request for the listeners on, an attempt under way has strikes to spare,
      and accepting stops only once the hand-over is final. */
  predicate OldOk(o: Old) {
    && o.strikes <= MAX_STRIKES
    && (o.accepting <==> !o.phase.Draining?)
    && (o.held <==> RenewalsHeld(o.phase))
    && (ControlGone(o.phase) ==> o.paused)
    && (o.phase.Armed? || o.phase.Greeting? ==> !o.paused)
    && (o.phase.GiveControl? || ControlGone(o.phase) ==> o.strikes < MAX_STRIKES)
  }

  lemma OldStepKeepsOk(o: Old, i: Input, now: nat)
    requires OldOk(o)
    ensures OldOk(OldNext(o, i, now))
  {
  }

  // ------------------------------------------------------------- new side

  datatype Why = Crashed | NotArmed | Left | NotServed | NotAcked

  datatype NewPhase =
    | AwaitControl(since: nat)
    | AwaitFirst(since: nat)
    | Waiting(since: nat, within: nat)   // for the holder's process to end
    | Fresh                              // may start the ordinary way
    | Preparing                          // configuration, runtime; no limit
    | AwaitSecond(since: nat)
    | AwaitListeners(since: nat)
    | Serving(since: nat)                // listeners in hand, not yet accepting on all
    | Committing(since: nat)
    | WaitGone(since: nat)
    | Primary
    | Gone(why: Why)

  datatype New = New(phase: NewPhase, held: bool, accepting: bool, idsFrom: nat)

  function Import(n: New, nextId: nat): New {
    n.(idsFrom := if n.idsFrom < nextId + ID_GAP then nextId + ID_GAP else n.idsFrom)
  }

  function NewNext(n: New, i: Input, now: nat): New {
    match n.phase
    case AwaitControl(_) =>
      (match i
       case Got(Control) => n.(phase := AwaitFirst(now))
       case Got(_) => n.(phase := Waiting(now, FALLBACK_EXIT_WITHIN))
       case Unreadable => n.(phase := Waiting(now, FALLBACK_EXIT_WITHIN))
       case TimedOut => n.(phase := Gone(NotArmed))
       case _ => n.(phase := Waiting(now, GONE_WITHIN)))
    case AwaitFirst(_) =>
      (match i
       case Got(Snapshot(k)) => Import(n, k).(phase := Preparing)
       case _ => n.(phase := Waiting(now, GONE_WITHIN)))
    case Waiting(_, _) =>
      (match i
       case HolderGone => n.(phase := Fresh)
       case TimedOut => n.(phase := Gone(NotArmed))
       case _ => n)
    case Fresh =>
      (match i
       case Proceed => n.(phase := Primary, held := false, accepting := true)
       case TimedOut => n.(phase := Gone(NotArmed))
       case _ => n)
    case Preparing =>
      if i == Sent(true) then n.(phase := AwaitSecond(now)) else n.(phase := Gone(Left))
    case AwaitSecond(_) =>
      (match i
       case Got(Snapshot(k)) => Import(n, k).(phase := AwaitListeners(now))
       case _ => n.(phase := Gone(Left)))
    case AwaitListeners(_) =>
      if i == Got(Listeners) then n.(phase := Serving(now)) else n.(phase := Gone(Left))
    case Serving(_) =>
      (match i
       case Sent(true) => n.(phase := Committing(now), accepting := true)
       case Sent(false) => n.(phase := WaitGone(now), accepting := true)
       case _ => n.(phase := Gone(NotServed)))
    case Committing(_) =>
      (match i
       case Got(CommitAck) => n.(phase := Primary, held := false)
       case Got(_) => n.(phase := Committing(now))
       case _ => n.(phase := WaitGone(now)))
    case WaitGone(_) =>
      (match i
       case HolderGone => n.(phase := Primary, held := false)
       case TimedOut => n.(phase := Gone(NotAcked))
       case _ => n)
    case Primary => n
    case Gone(_) => n
  }

  /** The first thing heard was not the control plane: ask it to fall back. */
  predicate AsksFallback(p: NewPhase, m: Message) {
    p.AwaitControl? && m != Control
  }

  predicate NewReceives(p: NewPhase) {
    p.AwaitControl? || p.AwaitFirst? || p.AwaitSecond? || p.AwaitListeners? || p.Committing?
  }

  /** When the current wait is over, if it has a limit. */
  predicate NewExpired(p: NewPhase, now: nat) {
    match p
    case AwaitControl(s) => s + HELLO_WITHIN <= now
    case AwaitFirst(s) => s + SNAPSHOT_WITHIN <= now
    case Waiting(s, w) => s + w <= now
    case AwaitSecond(s) => s + SNAPSHOT_WITHIN <= now
    case AwaitListeners(s) => s + HELLO_WITHIN <= now
    case Serving(s) => s + COMMIT_WITHIN <= now
    case Committing(s) => s + ACK_WITHIN <= now
    case WaitGone(s) => s + GONE_WITHIN <= now
    case _ => false
  }

  /** What every step of the new side keeps: it renews exactly when it is the
      primary, and whatever sent a commit accepts on every listener. */
  predicate NewOk(n: New) {
    && (n.phase.Gone? || (n.held <==> !n.phase.Primary?))
    && (n.phase.Committing? || n.phase.WaitGone? || n.phase.Primary? ==> n.accepting)
  }

  lemma NewStepKeepsOk(n: New, i: Input, now: nat)
    requires NewOk(n)
    ensures NewOk(NewNext(n, i, now))
  {
  }
}
