/** The old side of a hand-over, step by step.  What the surroundings answer is a
    script, and what `give` makes of it is a function of that script: the
    automaton driven by it to where the attempt ends. */
module OldCore {
  import opened Protocol
  import opened Seqs

  // ------------------------------------------------------------- the link

  /** What receiving gives, under a timeout when `limited`.  An exhausted script
      is a closed link. */
  function Heard(script: seq<Timed>, now: nat, limited: bool): (r: Timed)
    ensures r.input.Got? || r.input.Unreadable? || r.input.Broken? || (limited && r.input.TimedOut?)
    ensures script == [] ==> r.input.Broken?
  {
    if script == [] then Timed(Broken, now)
    else if script[0].input.Got? || script[0].input.Unreadable? || (limited && script[0].input.TimedOut?) then
      script[0]
    else Timed(Broken, script[0].at)
  }

  /** Whether a message could be sent. */
  function Delivered(script: seq<Timed>, now: nat): (r: Timed)
    ensures r.input.Sent?
  {
    if script == [] then Timed(Sent(false), now)
    else if script[0].input.Sent? then script[0]
    else Timed(Sent(false), script[0].at)
  }

  /** Whether the other end's process ended within the limit. */
  function Outlived(script: seq<Timed>, now: nat): (r: Timed)
    ensures r.input.HolderGone? || r.input.TimedOut?
  {
    if script == [] then Timed(TimedOut, now)
    else if script[0].input.HolderGone? then script[0]
    else Timed(TimedOut, script[0].at)
  }

  function Rest(script: seq<Timed>): seq<Timed> {
    if script == [] then [] else script[1..]
  }

  /** One end of the hand-over link. */
  class Link {
    var script: seq<Timed>  // the answers still to come, one per operation
    var now: nat
    var sent: seq<Message>

    constructor (script: seq<Timed>, now: nat)
      ensures this.script == script && this.now == now && sent == []
    {
      this.script, this.now, sent := script, now, [];
    }

    method Receive(limited: bool) returns (r: Timed)
      modifies this
      ensures r == Heard(old(script), old(now), limited)
      ensures script == Rest(old(script)) && now == r.at && sent == old(sent)
    {
      r := Timed(Broken, now);
      if script != [] {
        var x := script[0];
        script := script[1..];
        if x.input.Got? || x.input.Unreadable? || (limited && x.input.TimedOut?) {
          r := x;
        } else {
          r := Timed(Broken, x.at);
        }
      }
      now := r.at;
    }

    method Send(m: Message) returns (r: Timed)
      modifies this
      ensures r == Delivered(old(script), old(now))
      ensures script == Rest(old(script)) && now == r.at
      ensures sent == if r.input.ok then old(sent) + [m] else old(sent)
    {
      r := Timed(Sent(false), now);
      if script != [] {
        r := if script[0].input.Sent? then script[0] else Timed(Sent(false), script[0].at);
        script := script[1..];
      }
      now := r.at;
      if r.input.ok {
        sent := sent + [m];
      }
    }

    method WaitGone() returns (r: Timed)
      modifies this
      ensures r == Outlived(old(script), old(now))
      ensures script == Rest(old(script)) && now == r.at && sent == old(sent)
    {
      r := Timed(TimedOut, now);
      if script != [] {
        r := if script[0].input.HolderGone? then script[0] else Timed(TimedOut, script[0].at);
        script := script[1..];
      }
      now := r.at;
    }
  }

  // ------------------------------------------------------------- the attempt as a function

  /** Whether each listener's handle can be copied out. */
  datatype Exports = Exports(control: bool, gateway: bool, remote: bool)

  predicate Acts(p: OldPhase) {
    Gives(p) || OldReceives(p)
  }

  /** A listener that cannot be copied ends the attempt before anything is sent. */
  predicate Withheld(p: OldPhase, exports: Exports) {
    || (p.GiveControl? && !exports.control)
    || (p.GiveListeners? && !(exports.gateway && exports.remote))
  }

  /** Where an attempt has got to. */
  datatype Spot = Spot(core: Old, nextId: nat, script: seq<Timed>, now: nat)

  /** What the core reacts to next. */
  function Answer(s: Spot, exports: Exports): Timed {
    if Withheld(s.core.phase, exports) then Timed(Sent(false), s.now)
    else if Gives(s.core.phase) then Delivered(s.script, s.now)
    else Heard(s.script, s.now, !s.core.phase.AwaitWant?)
  }

  function Step(s: Spot, exports: Exports): Spot {
    var x := Answer(s, exports);
    Spot(OldNext(s.core, x.input, x.at),
      if s.core.phase.GiveFirst? || s.core.phase.GiveSecond? then s.nextId + 1 else s.nextId,
      if Withheld(s.core.phase, exports) then s.script else Rest(s.script),
      x.at)
  }

  function Rank(p: OldPhase): nat {
    match p
    case Greeting => 8
    case GiveControl => 7
    case GiveFirst => 6
    case AwaitWant(_) => 5
    case GiveSecond => 4
    case GiveListeners => 3
    case AwaitCommit(_) => 2
    case GiveRefusal => 2
    case GiveAck => 1
    case AwaitFallback => 1
    case _ => 0
  }

  lemma StepGoesOn(s: Spot, exports: Exports)
    requires Acts(s.core.phase)
    ensures var t := Step(s, exports);
      |t.script| < |s.script| || (|t.script| == |s.script| && Rank(t.core.phase) < Rank(s.core.phase))
  {
  }

  /** Where an attempt ends, and what is sent on the way. */
  datatype Played = Played(end: Spot, sent: seq<Message>)

  /** The automaton driven by the script until it neither sends nor receives. */
  function Drive(s: Spot, exports: Exports): Played
    decreases |s.script|, Rank(s.core.phase)
  {
    if !Acts(s.core.phase) then Played(s, [])
    else
      StepGoesOn(s, exports);
      var p := Drive(Step(s, exports), exports);
      if Answer(s, exports).input == Sent(true) then p.(sent := [OldSends(s.core.phase, s.nextId)] + p.sent) else p
  }

  /** What was reacted to, in order. */
  function Inputs(s: Spot, exports: Exports): seq<Input>
    decreases |s.script|, Rank(s.core.phase)
  {
    if !Acts(s.core.phase) then []
    else
      StepGoesOn(s, exports);
      [Answer(s, exports).input] + Inputs(Step(s, exports), exports)
  }

  /** A step that ends the attempt. */
  lemma LastStep(s: Spot, exports: Exports)
    requires Acts(s.core.phase) && !Acts(Step(s, exports).core.phase)
    ensures Drive(s, exports) == Played(Step(s, exports),
      if Answer(s, exports).input == Sent(true) then [OldSends(s.core.phase, s.nextId)] else [])
    ensures Inputs(s, exports) == [Answer(s, exports).input]
  {
  }

  /** A message that is neither of the two the core waits for. */
  predicate Unexpected(x: Timed) {
    x.input.Got? && x.input.m != WantListeners && x.input.m != Message.Fallback
  }

  datatype Place = Place(script: seq<Timed>, now: nat)

  /** What is left once the unexpected messages were ignored. */
  function Skipped(script: seq<Timed>, now: nat): Place {
    if script != [] && Unexpected(script[0]) then Skipped(script[1..], script[0].at) else Place(script, now)
  }

  function Skip(s: Spot): Spot {
    var p := Skipped(s.script, s.now);
    s.(script := p.script, now := p.now)
  }

  lemma {:induction false} IgnoresUnexpected(s: Spot, exports: Exports)
    requires s.core.phase.AwaitWant?
    ensures Drive(s, exports) == Drive(Skip(s), exports)
    decreases |s.script|
  {
    if s.script != [] && Unexpected(s.script[0]) {
      IgnoresUnexpected(Step(s, exports), exports);
    }
  }

  /** The peer is no successor: the first thing heard is no greeting. */
  predicate NoGreeting(script: seq<Timed>, now: nat) {
    var first := Heard(script, now, true).input;
    !first.Unreadable? && !(first.Got? && first.m.Hello?)
  }

  /** The first thing heard is a greeting that is refused. */
  predicate Refusable(script: seq<Timed>, now: nat, strikes: nat) {
    var first := Heard(script, now, true).input;
    || first.Unreadable?
    || (first.Got? && first.m.Hello? && (first.m.version != VERSION || strikes >= MAX_STRIKES))
  }

  /** After one message was sent, the next thing heard is a request to fall back. */
  predicate FallsBackNext(script: seq<Timed>, now: nat) {
    Heard(Rest(script), Delivered(script, now).at, true).input == Got(Message.Fallback)
  }

  // ------------------------------------------------------------- what a run means

  lemma {:induction false} DriveKeepsOk(s: Spot, exports: Exports)
    requires OldOk(s.core)
    ensures OldOk(Drive(s, exports).end.core)
    decreases |s.script|, Rank(s.core.phase)
  {
    if Acts(s.core.phase) {
      var x := Answer(s, exports);
      OldStepKeepsOk(s.core, x.input, x.at);
      StepGoesOn(s, exports);
      DriveKeepsOk(Step(s, exports), exports);
    }
  }

  /** How far on the way to an acknowledgement a phase is, if it is on it. */
  function Way(p: OldPhase): nat {
    match p
    case Greeting => 1
    case GiveControl => 2
    case GiveFirst => 3
    case AwaitWant(_) => 4
    case GiveSecond => 5
    case GiveListeners => 6
    case AwaitCommit(_) => 7
    case GiveAck => 8
    case Acked => 9
    case _ => 0
  }

  /** The only way there, and what each step of it takes. */
  lemma OneWay(o: Old, i: Input, now: nat)
    requires Acts(o.phase) && (Gives(o.phase) <==> i.Sent?)
    ensures var before, after := Way(o.phase), Way(OldNext(o, i, now).phase);
      after > 0 ==>
        && before > 0 && (after == before + 1 || (after == before == 4))
        && (i.Sent? ==> i.ok)
        && (after == 5 ==> i == Got(WantListeners))
        && (after == 8 ==> i == Got(Commit))
  {
  }

  /** What is still to be sent from a place on the way. */
  function ToSend(way: nat, id: nat): seq<Message> {
    if way == 1 || way == 2 then [Control, Snapshot(id), Snapshot(id + 1), Listeners, CommitAck]
    else if way == 3 then [Snapshot(id), Snapshot(id + 1), Listeners, CommitAck]
    else if way == 4 || way == 5 then [Snapshot(id), Listeners, CommitAck]
    else if way == 6 then [Listeners, CommitAck]
    else if way == 7 || way == 8 then [CommitAck]
    else []
  }

  lemma OffTheWay(s: Spot, exports: Exports)
    requires Way(s.core.phase) == 0
    ensures !Drive(s, exports).end.core.phase.Acked?
    decreases |s.script|, Rank(s.core.phase)
  {
    if Acts(s.core.phase) {
      OneWay(s.core, Answer(s, exports).input, Answer(s, exports).at);
      StepGoesOn(s, exports);
      OffTheWay(Step(s, exports), exports);
    }
  }

  /** A step of an attempt that commits. */
  lemma OnTheWay(s: Spot, exports: Exports)
    requires Acts(s.core.phase) && Drive(s, exports).end.core.phase.Acked?
    ensures Drive(Step(s, exports), exports).end.core.phase.Acked?
    ensures Way(s.core.phase) > 0 && Way(Step(s, exports).core.phase) > 0
  {
    OneWay(s.core, Answer(s, exports).input, Answer(s, exports).at);
    if Way(Step(s, exports).core.phase) == 0 {
      OffTheWay(Step(s, exports), exports);
    }
  }

  lemma SentOnTheWay(o: Old, id: nat)
    requires Gives(o.phase) && Way(o.phase) > 0
    ensures var after := if o.phase.GiveFirst? || o.phase.GiveSecond? then id + 1 else id;
      ToSend(Way(o.phase), id) == [OldSends(o.phase, id)] + ToSend(Way(o.phase) + 1, after)
  {
  }

  /** An attempt that commits has sent the control plane, two snapshots, the
      listeners and the acknowledgement, in this order and nothing else. */
  lemma {:induction false} CommittedSends(s: Spot, exports: Exports)
    requires Drive(s, exports).end.core.phase.Acked?
    ensures Drive(s, exports).sent == ToSend(Way(s.core.phase), s.nextId)
    decreases |s.script|, Rank(s.core.phase)
  {
    if Acts(s.core.phase) {
      OnTheWay(s, exports);
      OneWay(s.core, Answer(s, exports).input, Answer(s, exports).at);
      StepGoesOn(s, exports);
      CommittedSends(Step(s, exports), exports);
      if Gives(s.core.phase) {
        SentOnTheWay(s.core, s.nextId);
      }
    }
  }

  /** How a run of inputs ends, and what is in it. */
  predicate HeardInFull(way: nat, ins: seq<Input>) {
    && |ins| >= 1 && ins[|ins| - 1] == Sent(true)
    && (way < 8 ==> |ins| >= 2 && ins[|ins| - 2] == Got(Commit))
    && (way < 5 ==> Got(WantListeners) in ins)
  }

  lemma HeardBefore(way: nat, i: Input, after: nat, ins: seq<Input>)
    requires HeardInFull(after, ins)
    requires way < 8 && (after == way + 1 || (after == way == 4))
    requires (after == 5 ==> i == Got(WantListeners)) && (after == 8 ==> i == Got(Commit) && |ins| == 1)
    ensures HeardInFull(way, [i] + ins)
  {
    var all := [i] + ins;
    assert all[|all| - 1] == ins[|ins| - 1];
    assert after < 8 ==> all[|all| - 2] == ins[|ins| - 2];
    assert Got(WantListeners) in ins ==> Got(WantListeners) in all;
  }

  /** The acknowledgement follows a commit that was received, and that a request
      for the listeners. */
  lemma {:induction false} CommittedHears(s: Spot, exports: Exports)
    requires Acts(s.core.phase) && Drive(s, exports).end.core.phase.Acked?
    ensures HeardInFull(Way(s.core.phase), Inputs(s, exports))
    ensures s.core.phase.GiveAck? ==> |Inputs(s, exports)| == 1
    decreases |s.script|, Rank(s.core.phase)
  {
    var t, x := Step(s, exports), Answer(s, exports);
    OnTheWay(s, exports);
    OneWay(s.core, x.input, x.at);
    StepGoesOn(s, exports);
    if s.core.phase.GiveAck? {
      LastStep(s, exports);
    } else {
      CommittedHears(t, exports);
      HeardBefore(Way(s.core.phase), x.input, Way(t.core.phase), Inputs(t, exports));
    }
  }

  lemma Ending(o: Old, i: Input, now: nat)
    requires Acts(o.phase)
    ensures var next := OldNext(o, i, now);
      if Acts(next.phase) then next.strikes == o.strikes
      else
        && (next.phase.Armed? || next.phase.Retiring? || next.phase.Acked?)
        && o.strikes <= next.strikes <= o.strikes + 1
        && (next.strikes > o.strikes ==> next.phase.Armed?)
        && (next.phase.Retiring? ==> i == Got(Message.Fallback))
  {
  }

  /** Every attempt ends waiting again, with one strike more at most, or
      retiring because it was asked to, or acknowledged. */
  lemma {:induction false} AttemptEnds(s: Spot, exports: Exports)
    requires Acts(s.core.phase)
    ensures var o, ins := Drive(s, exports).end.core, Inputs(s, exports);
      && (o.phase.Armed? || o.phase.Retiring? || o.phase.Acked?)
      && s.core.strikes <= o.strikes <= s.core.strikes + 1
      && (o.strikes > s.core.strikes ==> o.phase.Armed?)
      && (o.phase.Retiring? ==> ins != [] && ins[|ins| - 1] == Got(Message.Fallback))
    decreases |s.script|, Rank(s.core.phase)
  {
    var t := Step(s, exports);
    Ending(s.core, Answer(s, exports).input, Answer(s, exports).at);
    StepGoesOn(s, exports);
    if Acts(t.core.phase) {
      AttemptEnds(t, exports);
    } else {
      LastStep(s, exports);
    }
  }

  /** A request to fall back is honoured wherever the core waits past the greeting:
      an attempt ends retiring exactly when that is the last thing heard. */
  lemma {:induction false} RetiresExactlyWhen(s: Spot, exports: Exports)
    requires Acts(s.core.phase)
    ensures var ins := Inputs(s, exports);
      Drive(s, exports).end.core.phase.Retiring? <==>
        |ins| > (if s.core.phase.Greeting? then 1 else 0) && ins[|ins| - 1] == Got(Message.Fallback)
    decreases |s.script|, Rank(s.core.phase)
  {
    var t := Step(s, exports);
    StepGoesOn(s, exports);
    if Acts(t.core.phase) {
      NoWayBack(s.core, Answer(s, exports).input, Answer(s, exports).at);
      InputsGoOn(t, exports);
      RetiresExactlyWhen(t, exports);
    } else {
      LastStep(s, exports);
    }
  }

  lemma InputsGoOn(s: Spot, exports: Exports)
    requires Acts(s.core.phase)
    ensures |Inputs(s, exports)| > 0
  {
  }

  lemma NoWayBack(o: Old, i: Input, now: nat)
    requires Acts(o.phase)
    ensures !OldNext(o, i, now).phase.Greeting?
  {
  }

  /** A strike is counted for every failure from the control plane on, but for a
      break more than 35 seconds after the first snapshot. */
  lemma StrikeExactlyWhen(o: Old, i: Input, now: nat)
    requires Acts(o.phase) && !Acts(OldNext(o, i, now).phase)
    ensures var next := OldNext(o, i, now);
      next.strikes == o.strikes + 1 <==>
        && next.phase.Armed? && !o.phase.Greeting? && !o.phase.AwaitFallback?
        && (o.phase.AwaitWant? ==> now < o.phase.sent + 35_000)
  {
  }

  /** What the first thing heard decides: only a greeting of this version, with a
      strike to spare, is given anything. */
  lemma GreetingDecides(s: Spot, exports: Exports)
    requires s.core.phase.Greeting?
    ensures var x, p := Heard(s.script, s.now, true).input, Step(s, exports).core.phase;
      && (p.GiveControl? <==> x == Got(Hello(VERSION)) && s.core.strikes < MAX_STRIKES)
      && (p.GiveRefusal? <==> Refusable(s.script, s.now, s.core.strikes))
      && (p.Armed? <==> NoGreeting(s.script, s.now))
  {
  }

  /** What a refused peer says next decides alone. */
  lemma RefusedEnds(s: Spot, exports: Exports)
    requires s.core.phase.GiveRefusal?
    ensures Drive(s, exports).end.core ==
      if FallsBackNext(s.script, s.now) then Retire(s.core) else Abandon(s.core, false)
  {
    LastStep(Step(s, exports), exports);
  }

  /** ...and what is heard after the unexpected while it is awaited. */
  lemma WantingEnds(s: Spot, exports: Exports)
    requires s.core.phase.AwaitWant?
    ensures var x := Heard(Skip(s).script, Skip(s).now, false);
      if x.input == Got(WantListeners) then
        Drive(s, exports) ==
        Drive(Spot(s.core.(phase := GiveSecond, held := true), s.nextId, Rest(Skip(s).script), x.at), exports)
      else if x.input == Got(Message.Fallback) then Drive(s, exports).end.core == Retire(s.core)
      else Drive(s, exports).end.core == Abandon(s.core, x.at < s.core.phase.sent + 35_000)
  {
    IgnoresUnexpected(s, exports);
    NothingUnexpected(s.script, s.now);
    if Heard(Skip(s).script, Skip(s).now, false).input != Got(WantListeners) {
      LastStep(Skip(s), exports);
    }
  }

  lemma NothingUnexpected(script: seq<Timed>, now: nat)
    ensures var p := Skipped(script, now); !Unexpected(Heard(p.script, p.now, false))
  {
  }

  /** ...and at the last wait. */
  lemma CommitmentEnds(s: Spot, exports: Exports)
    requires s.core.phase.AwaitCommit?
    ensures var x := Heard(s.script, s.now, true).input;
      var o := Drive(s, exports).end.core;
      if x == Got(Message.Fallback) then o == Retire(s.core)
      else if x != Got(Commit) then o == Abandon(s.core, true)
      else if Delivered(Rest(s.script), Heard(s.script, s.now, true).at).input.ok then o == s.core.(phase := Acked)
      else o == Abandon(s.core, true)
  {
    if Heard(s.script, s.now, true).input == Got(Commit) {
      LastStep(Step(s, exports), exports);
    } else {
      LastStep(s, exports);
    }
  }

  /** Nobody is refused but by this one message. */
  lemma RefusalSays(s: Spot, exports: Exports)
    requires s.core.phase.GiveRefusal?
    ensures Drive(s, exports).sent <= [Refused] && Drive(s, exports).end.nextId == s.nextId
    ensures Drive(s, exports).end.core.strikes == s.core.strikes
  {
    LastStep(Step(s, exports), exports);
  }

  /** Once the strikes are used up a greeting is refused, whatever follows. */
  lemma RefusedOnceWornOut(s: Spot, exports: Exports)
    requires s.core.phase.Greeting? && s.core.strikes >= MAX_STRIKES
    ensures var t := Drive(s, exports).end;
      && Drive(s, exports).sent <= [Refused] && !t.core.phase.Acked?
      && t.core.strikes == s.core.strikes && t.nextId == s.nextId
  {
    var t := Step(s, exports);
    OffTheWay(t, exports);
    if Acts(t.core.phase) {
      RefusalSays(t, exports);
    } else {
      LastStep(s, exports);
    }
  }

  // ------------------------------------------------------------- the core

  datatype Given = Committed | Fallback | Abandoned(strike: bool) | NotASuccessor

  class Core {
    var renewalsHeld: bool
    var controlPaused: bool
    var accepting: bool
    var nextId: nat

    constructor (nextId: nat)
      ensures !renewalsHeld && !controlPaused && accepting && this.nextId == nextId
    {
      renewalsHeld, controlPaused, accepting, this.nextId := false, false, true, nextId;
    }

    function View(p: OldPhase, strikes: nat): Old
      reads this
    {
      Old(p, strikes, renewalsHeld, controlPaused, accepting)
    }

    /** What `armed` makes of `give`'s answer. */
    function After(g: Given, strikes: nat): Old
      reads this
    {
      match g
      case Committed => View(Acked, strikes)
      case Fallback => Retire(View(Greeting, strikes))
      case Abandoned(s) => Abandon(View(Greeting, strikes), s)
      case NotASuccessor => View(Armed, strikes)
    }

    /** From `s` the attempt ended here, and sent what it does after `before`. */
    ghost predicate Did(s: Spot, exports: Exports, link: Link, before: seq<Message>, g: Given, strikes: nat)
      reads this, link
    {
      && Drive(s, exports).end == Spot(After(g, strikes), nextId, link.script, link.now)
      && link.sent == before + Drive(s, exports).sent
    }

    /** `bus.next_id()` hands out the number it reports. */
    method TakeId() returns (id: nat)
      modifies this`nextId
      ensures id == old(nextId) && nextId == id + 1
    {
      id := nextId;
      nextId := nextId + 1;
    }

    method RefuseWith(link: Link, strikes: nat, ghost exports: Exports) returns (g: Given)
      modifies link
      ensures Did(Spot(View(GiveRefusal, strikes), nextId, old(link.script), old(link.now)),
                  exports, link, old(link.sent), g, strikes)
      ensures g == if FallsBackNext(old(link.script), old(link.now)) then Given.Fallback else Abandoned(false)
    {
      var s := link.Send(Refused);
      var r := link.Receive(true);
      LastStep(Spot(View(AwaitFallback, strikes), nextId, Rest(old(link.script)), s.at), exports);
      g := if r.input == Got(Message.Fallback) then Given.Fallback else Abandoned(false);
    }

    /** Hands the control plane, the snapshots and the listeners over, then waits
        for the commit: exactly the automaton's run on what the link answers. */
    method Give(link: Link, strikes: nat, exports: Exports) returns (g: Given)
      requires !renewalsHeld
      modifies this`renewalsHeld, this`controlPaused, this`nextId, link
      ensures Did(Spot(old(View(Greeting, strikes)), old(nextId), old(link.script), old(link.now)),
                  exports, link, old(link.sent), g, strikes)
      ensures g.NotASuccessor? <==> NoGreeting(old(link.script), old(link.now))
      ensures Refusable(old(link.script), old(link.now), strikes) ==>
        var hello := Heard(old(link.script), old(link.now), true);
        g == if FallsBackNext(Rest(old(link.script)), hello.at) then Given.Fallback else Abandoned(false)
    {
      var hello := link.Receive(true);
      if hello.input.Unreadable? {
        g := RefuseWith(link, strikes, exports);
      } else if !(hello.input.Got? && hello.input.m.Hello?) {
        g := NotASuccessor;
      } else if hello.input.m.version != VERSION || strikes >= MAX_STRIKES {
        g := RefuseWith(link, strikes, exports);
      } else {
        g := GiveControlPlane(link, strikes, exports);
      }
    }

    /** The control plane and the first snapshot. */
    method GiveControlPlane(link: Link, strikes: nat, exports: Exports) returns (g: Given)
      requires !renewalsHeld
      modifies this`renewalsHeld, this`controlPaused, this`nextId, link
      ensures Did(Spot(old(View(GiveControl, strikes)), old(nextId), old(link.script), old(link.now)),
                  exports, link, old(link.sent), g, strikes)
      ensures !g.NotASuccessor?
    {
      if !exports.control {
        return Abandoned(true);
      }
      controlPaused := true;
      var s := link.Send(Control);
      if !s.input.ok {
        return Abandoned(true);
      }
      g := GiveFirstSnapshot(link, strikes, exports);
    }

    method GiveFirstSnapshot(link: Link, strikes: nat, exports: Exports) returns (g: Given)
      requires !renewalsHeld && controlPaused
      modifies this`renewalsHeld, this`nextId, link
      ensures Did(Spot(old(View(GiveFirst, strikes)), old(nextId), old(link.script), old(link.now)),
                  exports, link, old(link.sent), g, strikes)
      ensures !g.NotASuccessor?
    {
      var id := TakeId();
      var s := link.Send(Snapshot(id));
      if !s.input.ok {
        return Abandoned(true);
      }
      ghost var next := Spot(View(AwaitWant(s.at), strikes), nextId, link.script, link.now);
      g := AwaitWanting(link, strikes, exports, s.at);
      Regroup(old(link.sent), [Snapshot(id)], Drive(next, exports).sent);
    }

    /** The loop: unexpected messages are ignored. */
    method AwaitAnswer(link: Link) returns (r: Timed)
      modifies link
      ensures var rest := Skipped(old(link.script), old(link.now));
        r == Heard(rest.script, rest.now, false) && link.script == Rest(rest.script)
      ensures link.now == r.at && link.sent == old(link.sent) && !Unexpected(r)
    {
      while true
        invariant Skipped(link.script, link.now) == Skipped(old(link.script), old(link.now))
        invariant link.sent == old(link.sent)
        decreases |link.script|
      {
        r := link.Receive(false);
        if !Unexpected(r) {
          return;
        }
      }
    }

    /** Its request for the listeners, however long that takes. */
    method AwaitWanting(link: Link, strikes: nat, exports: Exports, sent: nat) returns (g: Given)
      requires !renewalsHeld && controlPaused
      modifies this`renewalsHeld, this`nextId, link
      ensures Did(Spot(old(View(AwaitWant(sent), strikes)), old(nextId), old(link.script), old(link.now)),
                  exports, link, old(link.sent), g, strikes)
      ensures !g.NotASuccessor?
    {
      ghost var s := Spot(View(AwaitWant(sent), strikes), nextId, link.script, link.now);
      IgnoresUnexpected(s, exports);
      var r := AwaitAnswer(link);
      if r.input == Got(WantListeners) {
        g := GiveListeners(link, strikes, exports);
        return;
      }
      g := if r.input == Got(Message.Fallback) then Given.Fallback else Abandoned(BrokeEarly(sent, r.at));
      LastStep(Skip(s), exports);
    }

    /** From the request for the listeners on: renewals are held before the
        second snapshot is taken. */
    method GiveListeners(link: Link, strikes: nat, exports: Exports) returns (g: Given)
      requires !renewalsHeld && controlPaused
      modifies this`renewalsHeld, this`nextId, link
      ensures Did(Spot(old(View(GiveSecond, strikes)).(held := true), old(nextId), old(link.script), old(link.now)),
                  exports, link, old(link.sent), g, strikes)
      ensures !g.NotASuccessor?
    {
      renewalsHeld := true;
      var id := TakeId();
      var s := link.Send(Snapshot(id));
      if !s.input.ok {
        return Abandoned(true);
      }
      ghost var next := Spot(View(OldPhase.GiveListeners, strikes), nextId, link.script, link.now);
      g := GiveSockets(link, strikes, exports);
      Regroup(old(link.sent), [Snapshot(id)], Drive(next, exports).sent);
    }

    /** Copies of the gateway's listeners and of the remote control port. */
    method GiveSockets(link: Link, strikes: nat, exports: Exports) returns (g: Given)
      requires renewalsHeld && controlPaused
      modifies link
      ensures Did(Spot(View(OldPhase.GiveListeners, strikes), nextId, old(link.script), old(link.now)),
                  exports, link, old(link.sent), g, strikes)
      ensures !g.NotASuccessor?
    {
      if !exports.gateway || !exports.remote {
        return Abandoned(true);
      }
      var s := link.Send(Listeners);
      if !s.input.ok {
        return Abandoned(true);
      }
      ghost var next := Spot(View(AwaitCommit(s.at), strikes), nextId, link.script, link.now);
      g := AwaitCommitment(link, strikes, s.at, exports);
      Regroup(old(link.sent), [Listeners], Drive(next, exports).sent);
    }

    method AwaitCommitment(link: Link, strikes: nat, sent: nat, ghost exports: Exports) returns (g: Given)
      modifies link
      ensures Did(Spot(View(AwaitCommit(sent), strikes), nextId, old(link.script), old(link.now)),
                  exports, link, old(link.sent), g, strikes)
      ensures g.Committed? ==> Heard(old(link.script), old(link.now), true).input == Got(Commit)
      ensures g.Fallback? <==> Heard(old(link.script), old(link.now), true).input == Got(Message.Fallback)
      ensures !g.NotASuccessor?
    {
      var r := link.Receive(true);
      if r.input == Got(Commit) {
        g := Acknowledge(link, strikes, exports);
        return;
      }
      g := if r.input == Got(Message.Fallback) then Given.Fallback else Abandoned(true);
      LastStep(Spot(View(AwaitCommit(sent), strikes), nextId, old(link.script), old(link.now)), exports);
    }

    /** The commit is acknowledged before anything else: one that cannot be
        acknowledged does not count. */
    method Acknowledge(link: Link, strikes: nat, ghost exports: Exports) returns (g: Given)
      modifies link
      ensures Did(Spot(View(GiveAck, strikes), nextId, old(link.script), old(link.now)),
                  exports, link, old(link.sent), g, strikes)
      ensures g == if Delivered(old(link.script), old(link.now)).input.ok then Committed else Abandoned(true)
    {
      var s := link.Send(CommitAck);
      g := if s.input.ok then Committed else Abandoned(true);
    }
  }
}
