/** The new side of a hand-over, step by step: reaching the running core, taking
    its state and listeners, committing, and only then owning the lock.  As on
    the old side, the surroundings answer from a script, and what becomes of an
    attempt is a function of it. */
module Successor {
  import opened Protocol
  import opened OldCore
  import opened Lockfile

  // ------------------------------------------------------------- the attempt as a function

  datatype NewSpot = NewSpot(core: New, script: seq<Timed>, now: nat)

  predicate Moves(p: NewPhase) {
    NewReceives(p) || p.Preparing? || p.Serving? || p.Waiting? || p.WaitGone?
  }

  /** What the successor reacts to next.  `served`: it came to accept on every
      listener in time. */
  function NewAnswer(s: NewSpot, served: bool): Timed {
    var p := s.core.phase;
    if p.Serving? && !served then Timed(TimedOut, s.now)
    else if p.Serving? || p.Preparing? then Delivered(s.script, s.now)
    else if p.Waiting? || p.WaitGone? then Outlived(s.script, s.now)
    else Heard(s.script, s.now, true)
  }

  /** The first thing heard was neither the control plane nor silence. */
  predicate FallsBack(p: NewPhase, i: Input) {
    p.AwaitControl? && i != Got(Control) && (i.Got? || i.Unreadable?)
  }

  function NewStep(s: NewSpot, served: bool): NewSpot {
    var x := NewAnswer(s, served);
    var rest := if s.core.phase.Serving? && !served then s.script else Rest(s.script);
    if FallsBack(s.core.phase, x.input) then
      var f := Delivered(rest, x.at);
      NewSpot(NewNext(s.core, x.input, f.at), Rest(rest), f.at)
    else NewSpot(NewNext(s.core, x.input, x.at), rest, x.at)
  }

  /** Whether a step sends something, and what it can send. */
  predicate NewSends(s: NewSpot, served: bool) {
    var x := NewAnswer(s, served);
    x.input == Sent(true) || (FallsBack(s.core.phase, x.input) && Delivered(Rest(s.script), x.at).input.ok)
  }

  function NewSays(p: NewPhase): Message {
    if p.AwaitControl? then Message.Fallback else if p.Preparing? then WantListeners else Message.Commit
  }

  function Saying(s: NewSpot, served: bool, after: seq<Message>): seq<Message> {
    if NewSends(s, served) then [NewSays(s.core.phase)] + after else after
  }

  function NewRank(p: NewPhase): nat {
    match p
    case AwaitControl(_) => 7
    case AwaitFirst(_) => 6
    case AwaitSecond(_) => 5
    case AwaitListeners(_) => 4
    case Serving(_) => 3
    case Committing(_) => 2
    case Waiting(_, _) => 1
    case WaitGone(_) => 1
    case _ => 0
  }

  lemma NewStepGoesOn(s: NewSpot, served: bool)
    requires Moves(s.core.phase) && !s.core.phase.Preparing?
    ensures var t := NewStep(s, served);
      |t.script| < |s.script| || (|t.script| == |s.script| && NewRank(t.core.phase) < NewRank(s.core.phase))
  {
  }

  datatype NewPlayed = NewPlayed(end: NewSpot, sent: seq<Message>)

  /** The automaton driven by the script, until it is settled or has its state
      and prepares. */
  function NewDrive(s: NewSpot, served: bool): NewPlayed
    decreases |s.script|, NewRank(s.core.phase)
  {
    if !Moves(s.core.phase) || s.core.phase.Preparing? then NewPlayed(s, [])
    else
      NewStepGoesOn(s, served);
      var p := NewDrive(NewStep(s, served), served);
      p.(sent := Saying(s, served, p.sent))
  }

  /** The same from where it is prepared. */
  function NewDriveOn(s: NewSpot, served: bool): NewPlayed {
    var p := NewDrive(NewStep(s, served), served);
    p.(sent := Saying(s, served, p.sent))
  }

  lemma NewLastStep(s: NewSpot, served: bool)
    requires Moves(s.core.phase) && !s.core.phase.Preparing?
    requires var p := NewStep(s, served).core.phase; !Moves(p) || p.Preparing?
    ensures NewDrive(s, served) == NewPlayed(NewStep(s, served), Saying(s, served, []))
  {
  }

  lemma OneStep(s: NewSpot, served: bool)
    requires Moves(s.core.phase) && !s.core.phase.Preparing?
    ensures var p := NewDrive(NewStep(s, served), served);
      NewDrive(s, served) == NewPlayed(p.end, Saying(s, served, p.sent))
  {
  }

  /** A wait for the holder's end ends the attempt, one way or the other. */
  lemma WaitEnds(s: NewSpot, served: bool)
    requires s.core.phase.Waiting?
    ensures var x := Outlived(s.script, s.now);
      var p := if x.input.HolderGone? then NewPhase.Fresh else Gone(Why.NotArmed);
      NewDrive(s, served) == NewPlayed(NewSpot(s.core.(phase := p), Rest(s.script), x.at), [])
  {
    NewLastStep(s, served);
  }

  /** What comes of hearing something else than the control plane. */
  lemma NoControl(s: NewSpot, served: bool)
    requires s.core.phase.AwaitControl? && Heard(s.script, s.now, true).input != Got(Control)
    ensures var x, p := Heard(s.script, s.now, true), NewDrive(s, served);
      var rest := Rest(s.script);
      if x.input.TimedOut? then p == NewPlayed(NewSpot(s.core.(phase := Gone(Why.NotArmed)), rest, x.at), [])
      else
        var f := Delivered(rest, x.at);
        var said := !x.input.Broken?;
        var y := if said then Outlived(Rest(rest), f.at) else Outlived(rest, x.at);
        var end := if y.input.HolderGone? then NewPhase.Fresh else Gone(Why.NotArmed);
        p == NewPlayed(NewSpot(s.core.(phase := end), if said then Rest(Rest(rest)) else Rest(rest), y.at),
          if said && f.input.ok then [Message.Fallback] else [])
  {
    var t := NewStep(s, served);
    OneStep(s, served);
    if t.core.phase.Waiting? {
      WaitEnds(t, served);
    }
  }

  /** What comes of hearing the control plane: with the first snapshot it prepares,
      its ids a gap above; without one it waits for the holder to end. */
  lemma ControlEnds(s: NewSpot, served: bool)
    requires s.core.phase.AwaitControl? && Heard(s.script, s.now, true).input == Got(Control)
    ensures var x, end := Heard(s.script, s.now, true), NewDrive(s, served).end.core;
      var y := Heard(Rest(s.script), x.at, true);
      if y.input.Got? && y.input.m.Snapshot? then
        var k := y.input.m.nextId + ID_GAP;
        end == s.core.(phase := Preparing, idsFrom := if s.core.idsFrom < k then k else s.core.idsFrom)
      else
        end == s.core.(phase :=
          if Outlived(Rest(Rest(s.script)), y.at).input.HolderGone? then NewPhase.Fresh else Gone(Why.NotArmed))
  {
    var t := NewStep(s, served);
    var y := Heard(t.script, t.now, true);
    OneStep(s, served);
    if y.input.Got? && y.input.m.Snapshot? {
      NewLastStep(t, served);
    } else {
      OneStep(t, served);
      WaitEnds(NewStep(t, served), served);
    }
  }

  /** Whether the commit counts, and what is left of the script. */
  datatype Verdict = Verdict(ok: bool, script: seq<Timed>, now: nat)

  function GoneAnswer(script: seq<Timed>, now: nat): Verdict {
    var g := Outlived(script, now);
    Verdict(g.input.HolderGone?, Rest(script), g.at)
  }

  /** Other messages are ignored before the acknowledgement. */
  function AckAnswer(script: seq<Timed>, now: nat): Verdict
    decreases |script|
  {
    var r := Heard(script, now, true);
    if r.input == Got(CommitAck) then Verdict(true, Rest(script), r.at)
    else if r.input.Got? then AckAnswer(Rest(script), r.at)
    else GoneAnswer(Rest(script), r.at)
  }

  function CommitAnswer(script: seq<Timed>, now: nat): Verdict {
    var x := Delivered(script, now);
    if x.input.ok then AckAnswer(Rest(script), x.at) else GoneAnswer(Rest(script), x.at)
  }

  function Settled(n: New, ok: bool): New {
    if ok then n.(phase := Primary, held := false) else n.(phase := Gone(NotAcked))
  }

  lemma WaitGoneEnds(s: NewSpot, served: bool)
    requires s.core.phase.WaitGone?
    ensures var c := GoneAnswer(s.script, s.now);
      NewDrive(s, served) == NewPlayed(NewSpot(Settled(s.core, c.ok), c.script, c.now), [])
  {
    NewLastStep(s, served);
  }

  lemma {:induction false} CommittingEnds(s: NewSpot, served: bool)
    requires s.core.phase.Committing?
    ensures var c := AckAnswer(s.script, s.now);
      NewDrive(s, served) == NewPlayed(NewSpot(Settled(s.core, c.ok), c.script, c.now), [])
    decreases |s.script|
  {
    var r, t := Heard(s.script, s.now, true), NewStep(s, served);
    OneStep(s, served);
    if r.input == Got(CommitAck) {
      NewLastStep(s, served);
    } else if r.input.Got? {
      CommittingEnds(t, served);
    } else {
      WaitGoneEnds(t, served);
    }
  }

  /** Nothing is committed that was not served in time. */
  lemma ServingEnds(s: NewSpot, served: bool)
    requires s.core.phase.Serving?
    ensures !served ==> NewDrive(s, served) == NewPlayed(s.(core := s.core.(phase := Gone(NotServed))), [])
    ensures served ==>
      var c := CommitAnswer(s.script, s.now);
      NewDrive(s, served) == NewPlayed(NewSpot(Settled(s.core.(accepting := true), c.ok), c.script, c.now),
        if Delivered(s.script, s.now).input.ok then [Message.Commit] else [])
  {
    var t := NewStep(s, served);
    OneStep(s, served);
    if t.core.phase.Committing? {
      CommittingEnds(t, served);
    } else if t.core.phase.WaitGone? {
      WaitGoneEnds(t, served);
    }
  }

  lemma {:induction false} NewDriveKeepsOk(s: NewSpot, served: bool)
    requires NewOk(s.core)
    ensures NewOk(NewDrive(s, served).end.core)
    decreases |s.script|, NewRank(s.core.phase)
  {
    if Moves(s.core.phase) && !s.core.phase.Preparing? {
      var t := NewStep(s, served);
      NewStepKeepsOk(s.core, NewAnswer(s, served).input, t.now);
      NewStepGoesOn(s, served);
      NewDriveKeepsOk(t, served);
    }
  }

  /** The second snapshot came, and was imported, before the listeners did. */
  predicate SecondThenListeners(script: seq<Timed>, now: nat, idsFrom: nat) {
    var y := Heard(Rest(script), Delivered(script, now).at, true);
    && y.input.Got? && y.input.m.Snapshot? && idsFrom >= y.input.m.nextId + ID_GAP
    && Heard(Rest(Rest(script)), y.at, true).input == Got(Message.Listeners)
  }

  lemma ListenersEnd(s: NewSpot, served: bool)
    requires s.core.phase.AwaitListeners?
    ensures var z := Heard(s.script, s.now, true);
      if z.input == Got(Message.Listeners) then
        NewDrive(s, served).end == NewDrive(NewSpot(s.core.(phase := Serving(z.at)), Rest(s.script), z.at), served).end
      else NewDrive(s, served).end.core.phase == Gone(Left)
  {
    OneStep(s, served);
  }

  lemma SecondEnds(s: NewSpot, served: bool)
    requires s.core.phase.AwaitSecond?
    ensures var y := Heard(s.script, s.now, true);
      if y.input.Got? && y.input.m.Snapshot? then
        var n := Protocol.Import(s.core, y.input.m.nextId).(phase := NewPhase.AwaitListeners(y.at));
        NewDrive(s, served).end == NewDrive(NewSpot(n, Rest(s.script), y.at), served).end
      else NewDrive(s, served).end.core.phase == Gone(Left)
  {
    OneStep(s, served);
  }

  /** What the three steps before serving amount to. */
  lemma ToServing(s: NewSpot, served: bool)
    requires s.core.phase.Preparing?
    ensures var x := Delivered(s.script, s.now);
      var y := Heard(Rest(s.script), x.at, true);
      var z := Heard(Rest(Rest(s.script)), y.at, true);
      var ready := x.input.ok && y.input.Got? && y.input.m.Snapshot? && z.input == Got(Message.Listeners);
      if ready then
        var n := Protocol.Import(s.core, y.input.m.nextId).(phase := Serving(z.at));
        NewDriveOn(s, served).end == NewDrive(NewSpot(n, Rest(Rest(Rest(s.script))), z.at), served).end
      else NewDriveOn(s, served).end.core.phase == Gone(Left)
  {
    var t := NewStep(s, served);
    if t.core.phase.AwaitSecond? {
      SecondEnds(t, served);
      var y := Heard(t.script, t.now, true);
      if y.input.Got? && y.input.m.Snapshot? {
        var n := Protocol.Import(t.core, y.input.m.nextId).(phase := NewPhase.AwaitListeners(y.at));
        ListenersEnd(NewSpot(n, Rest(t.script), y.at), served);
      }
    }
  }

  /** A successor becomes the primary exactly when it got the second snapshot
      and then the listeners, served them in time, and its commit counted. */
  lemma PrimaryExactlyWhen(s: NewSpot, served: bool)
    requires s.core.phase.Preparing?
    ensures var x := Delivered(s.script, s.now);
      var y := Heard(Rest(s.script), x.at, true);
      var z := Heard(Rest(Rest(s.script)), y.at, true);
      NewDriveOn(s, served).end.core.phase.Primary? <==>
        && x.input.ok && y.input.Got? && y.input.m.Snapshot? && z.input == Got(Message.Listeners)
        && served && CommitAnswer(Rest(Rest(Rest(s.script))), z.at).ok
  {
    var x := Delivered(s.script, s.now);
    var y := Heard(Rest(s.script), x.at, true);
    var z := Heard(Rest(Rest(s.script)), y.at, true);
    ToServing(s, served);
    if y.input.Got? && y.input.m.Snapshot? {
      var n := Protocol.Import(s.core, y.input.m.nextId).(phase := Serving(z.at));
      ServingEnds(NewSpot(n, Rest(Rest(Rest(s.script))), z.at), served);
    }
  }

  // ------------------------------------------------------------- the successor

  datatype Approached = NotArmed | Proceed | StartFresh

  function PhaseOf(a: Approached): NewPhase {
    match a
    case NotArmed => Gone(Why.NotArmed)
    case Proceed => Preparing
    case StartFresh => NewPhase.Fresh
  }

  class Incoming {
    var renewalsHeld: bool
    var accepting: bool
    var idsFrom: nat

    constructor ()
      ensures renewalsHeld && !accepting && idsFrom == 0
    {
      renewalsHeld, accepting, idsFrom := true, false, 0;
    }

    function View(p: NewPhase): New
      reads this
    {
      New(p, renewalsHeld, accepting, idsFrom)
    }

    /** From `s` the attempt got to phase `p` here, and sent what it does. */
    ghost predicate Did(done: NewPlayed, p: NewPhase, link: Link, before: seq<Message>)
      reads this, link
    {
      done.end == NewSpot(View(p), link.script, link.now) && link.sent == before + done.sent
    }

    method Import(nextId: nat)
      modifies this`idsFrom
      ensures View(Preparing) == Protocol.Import(old(View(Preparing)), nextId)
      ensures idsFrom >= nextId + ID_GAP && idsFrom >= old(idsFrom)
      ensures idsFrom == nextId + ID_GAP || idsFrom == old(idsFrom)
    {
      if idsFrom < nextId + ID_GAP {
        idsFrom := nextId + ID_GAP;
      }
    }

    /** `gone_or_busy`: it may start the ordinary way exactly when the holder has
        ended in time. */
    method AwaitEnd(link: Link) returns (a: Approached)
      modifies link
      ensures var x := Outlived(old(link.script), old(link.now));
        && a == (if x.input.HolderGone? then StartFresh else Approached.NotArmed)
        && link.script == Rest(old(link.script)) && link.now == x.at && link.sent == old(link.sent)
    {
      var r := link.WaitGone();
      a := if r.input.HolderGone? then StartFresh else Approached.NotArmed;
    }

    /** Greets the running core and takes its control plane and first snapshot. */
    method Approach(link: Link, ghost served: bool) returns (a: Approached)
      requires View(Preparing) == New(Preparing, true, false, 0)
      modifies this`idsFrom, link
      ensures var s := Delivered(old(link.script), old(link.now));
        var from := New(if s.input.ok then AwaitControl(s.at) else Waiting(s.at, GONE_WITHIN), true, false, 0);
        var greeting := if s.input.ok then [Hello(VERSION)] else [];
        Did(NewDrive(NewSpot(from, Rest(old(link.script)), s.at), served), PhaseOf(a), link, old(link.sent) + greeting)
    {
      var s := link.Send(Hello(VERSION));
      if !s.input.ok {
        WaitEnds(NewSpot(View(Waiting(s.at, GONE_WITHIN)), link.script, link.now), served);
        a := AwaitEnd(link);
      } else {
        a := AwaitControlPlane(link, served);
      }
    }

    /** `fall_back`: asks the core to drain and exit the way it did before
        hand-overs, and waits for that. */
    method FallBack(link: Link) returns (a: Approached)
      modifies link
      ensures var f := Delivered(old(link.script), old(link.now));
        var x := Outlived(Rest(old(link.script)), f.at);
        && a == (if x.input.HolderGone? then StartFresh else Approached.NotArmed)
        && link.script == Rest(Rest(old(link.script))) && link.now == x.at
        && link.sent == old(link.sent) + (if f.input.ok then [Message.Fallback] else [])
    {
      var f := link.Send(Message.Fallback);
      a := AwaitEnd(link);
    }

    method AwaitControlPlane(link: Link, ghost served: bool) returns (a: Approached)
      requires View(Preparing) == New(Preparing, true, false, 0)
      modifies this`idsFrom, link
      ensures Did(NewDrive(NewSpot(old(View(AwaitControl(link.now))), old(link.script), old(link.now)), served),
                  PhaseOf(a), link, old(link.sent))
    {
      ghost var s := NewSpot(View(AwaitControl(link.now)), link.script, link.now);
      var r := link.Receive(true);
      if r.input == Got(Control) {
        OneStep(s, served);
        a := AwaitSnapshot(link, served);
        return;
      }
      NoControl(s, served);
      if r.input.TimedOut? {
        a := Approached.NotArmed;
      } else if r.input.Broken? {
        a := AwaitEnd(link);
      } else {
        a := FallBack(link);
      }
    }

    method AwaitSnapshot(link: Link, ghost served: bool) returns (a: Approached)
      modifies this`idsFrom, link
      ensures Did(NewDrive(NewSpot(old(View(AwaitFirst(link.now))), old(link.script), old(link.now)), served),
                  PhaseOf(a), link, old(link.sent))
    {
      var r := link.Receive(true);
      if !(r.input.Got? && r.input.m.Snapshot?) {
        WaitEnds(NewSpot(View(Waiting(r.at, GONE_WITHIN)), link.script, link.now), served);
        a := AwaitEnd(link);
      } else {
        Import(r.input.m.nextId);
        a := Approached.Proceed;
      }
    }

    /** Asks for the listeners; the second snapshot comes first. */
    method Listeners(link: Link, ghost served: bool) returns (ok: bool)
      modifies this`idsFrom, link
      ensures var s := NewSpot(old(View(Preparing)), old(link.script), old(link.now));
        var p := if ok then Serving(link.now) else Gone(Left);
        var rest := NewDrive(NewSpot(View(p), link.script, link.now), served);
        && NewDriveOn(s, served) == NewPlayed(rest.end, Saying(s, served, rest.sent))
        && link.sent == old(link.sent) + Saying(s, served, [])
      ensures ok ==> idsFrom >= old(idsFrom) && SecondThenListeners(old(link.script), old(link.now), idsFrom)
    {
      ghost var s := NewSpot(View(Preparing), link.script, link.now);
      var x := link.Send(WantListeners);
      if !x.input.ok {
        return false;
      }
      ok := AwaitSecond(link, served);
    }

    method AwaitSecond(link: Link, ghost served: bool) returns (ok: bool)
      modifies this`idsFrom, link
      ensures var p := if ok then Serving(link.now) else Gone(Left);
        NewDrive(NewSpot(old(View(NewPhase.AwaitSecond(link.now))), old(link.script), old(link.now)), served) ==
        NewDrive(NewSpot(View(p), link.script, link.now), served)
      ensures link.sent == old(link.sent)
      ensures ok ==> idsFrom >= old(idsFrom)
      ensures ok ==> var y := Heard(old(link.script), old(link.now), true);
        && y.input.Got? && y.input.m.Snapshot? && idsFrom >= y.input.m.nextId + ID_GAP
        && Heard(Rest(old(link.script)), y.at, true).input == Got(Message.Listeners)
    {
      ghost var s := NewSpot(View(NewPhase.AwaitSecond(link.now)), link.script, link.now);
      OneStep(s, served);
      var r := link.Receive(true);
      if !(r.input.Got? && r.input.m.Snapshot?) {
        return false;
      }
      Import(r.input.m.nextId);
      OneStep(NewSpot(View(AwaitListeners(r.at)), link.script, link.now), served);
      r := link.Receive(true);
      ok := r.input == Got(Message.Listeners);
    }

    /** Commits.  Only an acknowledgement counts, or the old core being gone. */
    method Commit(link: Link) returns (ok: bool)
      modifies link
      ensures Verdict(ok, link.script, link.now) == CommitAnswer(old(link.script), old(link.now))
      ensures link.sent == old(link.sent) +
        (if Delivered(old(link.script), old(link.now)).input.ok then [Message.Commit] else [])
    {
      var x := link.Send(Message.Commit);
      var waiting := x.input.ok;
      while waiting
        invariant waiting ==> AckAnswer(link.script, link.now) == CommitAnswer(old(link.script), old(link.now))
        invariant !waiting ==> GoneAnswer(link.script, link.now) == CommitAnswer(old(link.script), old(link.now))
        invariant link.sent == old(link.sent) + (if x.input.ok then [Message.Commit] else [])
        decreases waiting, |link.script|
      {
        var r := link.Receive(true);
        if r.input == Got(CommitAck) {
          return true;
        }
        waiting := r.input.Got?;
      }
      var g := link.WaitGone();
      ok := g.input.HolderGone?;
    }

    /** The takeover branch of `cmd_serve`, once the runtime is built.
        `servedInTime`: the gateway came to accept on every listener within
        `COMMIT_WITHIN`.  The lock and the marks change only after the commit,
        and renewals start only then. */
    method TakeOver(link: Link, dir: DataDir, self: nat, predecessor: nat, now: nat, servedInTime: bool)
      returns (ok: bool)
      requires renewalsHeld && !accepting
      modifies this, link, dir`lock, dir`marks
      ensures var s := NewSpot(old(View(Preparing)), old(link.script), old(link.now));
        var done := NewDriveOn(s, servedInTime);
        && done.end.core == View(done.end.core.phase) && (done.end.core.phase.Primary? <==> ok)
        && done.end.script == link.script && link.sent == old(link.sent) + done.sent
      ensures ok ==> servedInTime && !renewalsHeld && accepting && dir.lock == Pid(self)
      ensures ok ==> dir.marks == Marked(old(dir.marks), dir.living, self, Mark(predecessor, idsFrom, now))
      ensures ok ==> SecondThenListeners(old(link.script), old(link.now), idsFrom)
      ensures !ok ==> dir.lock == old(dir.lock) && dir.marks == old(dir.marks) && renewalsHeld
    {
      ok := Listeners(link, servedInTime);
      if !ok {
        return;
      }
      ServingEnds(NewSpot(View(Serving(link.now)), link.script, link.now), servedInTime);
      if !servedInTime {
        return false;
      }
      accepting := true;
      ok := Commit(link);
      if !ok {
        return;
      }
      renewalsHeld := false;
      var lock := dir.Claim(self);
      dir.MarkDraining(self, Mark(predecessor, idsFrom, now));
    }
  }
}
