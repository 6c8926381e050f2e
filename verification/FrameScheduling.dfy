/** The renderer's event scheduler: wrench events are coalesced into one per frame, and frame
    callbacks may come late, twice or after they were cancelled. */
module FrameScheduling {
  import opened Wrappers
  import Sequences

  datatype Event = Wrench(id: nat) | Boundary(id: nat) | Other(id: nat)

  /** A scheduled frame, as its environment knows it. */
  datatype Frame = Frame(generation: nat, cancelled: bool, fired: bool)

  /** An event handed on: its place among the pushed events, and how many had been pushed. */
  datatype Dispatch = Dispatch(event: Event, index: nat, after: nat)

  /** The scheduler's variables, the frames it asked for, and the history. The handle of a
      frame is its place among the frames asked for. */
  datatype State = State(latest: Option<(nat, Event)>, handle: Option<nat>, generation: nat, disposed: bool,
                         frames: seq<Frame>, pushed: seq<Event>, dispatched: seq<Dispatch>)

  datatype Input = Push(event: Event) | Fire(frame: nat) | Dispose

  const START := State(None, None, 0, false, [], [], [])

  function Cancelled(frames: seq<Frame>, handle: Option<nat>): seq<Frame> {
    if handle.None? || handle.value >= |frames| then frames
    else frames[handle.value := frames[handle.value].(cancelled := true)]
  }

  function Revoked(s: State): State {
    s.(generation := s.generation + 1, latest := None, handle := None,
       frames := Cancelled(s.frames, s.handle))
  }

  function Dispatched(s: State, index: nat, e: Event): State {
    s.(dispatched := s.dispatched + [Dispatch(e, index, |s.pushed|)])
  }

  function AfterPush(s: State, e: Event): State {
    if s.disposed then s
    else
      var index, t := |s.pushed|, s.(pushed := s.pushed + [e]);
      match e
      case Other(_) => Dispatched(t, index, e)
      case Boundary(_) => Dispatched(Revoked(t), index, e)
      case Wrench(_) =>
        if t.handle.Some? then t.(latest := Some((index, e)))
        else t.(latest := Some((index, e)), generation := t.generation + 1, handle := Some(|t.frames|),
                frames := t.frames + [Frame(t.generation + 1, false, false)])
  }

  function Flushed(s: State, generation: nat): State {
    if generation != s.generation then s
    else
      var t := s.(handle := None, latest := None);
      if s.disposed || s.latest.None? then t else Dispatched(t, s.latest.value.0, s.latest.value.1)
  }

  function AfterFire(s: State, frame: nat): State {
    if frame >= |s.frames| then s
    else Flushed(s.(frames := s.frames[frame := s.frames[frame].(fired := true)]), s.frames[frame].generation)
  }

  function Next(s: State, input: Input): State {
    match input
    case Push(e) => AfterPush(s, e)
    case Fire(frame) => AfterFire(s, frame)
    case Dispose => if s.disposed then s else Revoked(s.(disposed := true))
  }

  function Run(inputs: seq<Input>): State {
    if inputs == [] then START else Next(Run(inputs[..|inputs| - 1]), inputs[|inputs| - 1])
  }

  // The invariant.

  predicate Live(f: Frame) { !f.cancelled && !f.fired }

  /** Frames have increasing generations, none above the current one; one that is neither
      cancelled nor fired is the one the handle names, and has the current generation. */
  predicate FramesKept(frames: seq<Frame>, handle: Option<nat>, generation: nat) {
    (forall i :: 0 <= i < |frames| ==> frames[i].generation <= generation) &&
    (forall i, j :: 0 <= i < j < |frames| ==> frames[i].generation < frames[j].generation) &&
    (forall i :: 0 <= i < |frames| && Live(frames[i]) ==> handle == Some(i)) &&
    (handle.Some? ==>
      handle.value < |frames| && Live(frames[handle.value]) && frames[handle.value].generation == generation)
  }

  /** Nothing pushed from a place on is a wrench or a boundary. */
  predicate QuietFrom(pushed: seq<Event>, from: nat) {
    forall i :: from <= i < |pushed| ==> pushed[i].Other?
  }

  /** The pending wrench is the newest one and no boundary came after it. */
  predicate LatestKept(latest: Option<(nat, Event)>, pushed: seq<Event>) {
    latest.Some? ==>
      latest.value.0 < |pushed| && pushed[latest.value.0] == latest.value.1 && latest.value.1.Wrench? &&
      QuietFrom(pushed, latest.value.0 + 1)
  }

  /** A wrench is handed on while it is the newest and no boundary has passed, anything else
      as it is pushed. */
  predicate Rightly(pushed: seq<Event>, d: Dispatch) {
    d.index < d.after <= |pushed| && pushed[d.index] == d.event &&
    (if d.event.Wrench? then QuietFrom(pushed[..d.after], d.index + 1) else d.after == d.index + 1)
  }

  predicate AllRightly(dispatched: seq<Dispatch>, pushed: seq<Event>) {
    forall d <- dispatched :: Rightly(pushed, d)
  }

  /** Wrenches are handed on in order, each once, and before the pending one. */
  predicate WrenchesKept(dispatched: seq<Dispatch>, latest: Option<(nat, Event)>) {
    (forall d <- dispatched :: d.event.Wrench? && latest.Some? ==> d.index < latest.value.0) &&
    forall i, j :: 0 <= i < j < |dispatched| && dispatched[i].event.Wrench? && dispatched[j].event.Wrench? ==>
      dispatched[i].index < dispatched[j].index
  }

  function Outputs(dispatched: seq<Dispatch>): seq<Event> {
    if dispatched == [] then []
    else Outputs(dispatched[..|dispatched| - 1]) + [dispatched[|dispatched| - 1].event]
  }

  function NotWrench(): Event -> bool { (e: Event) => !e.Wrench? }

  /** Everything but wrenches is handed on, in the order of arrival. */
  predicate OthersKept(dispatched: seq<Dispatch>, pushed: seq<Event>) {
    Sequences.Filter(Outputs(dispatched), NotWrench()) == Sequences.Filter(pushed, NotWrench())
  }

  predicate LogsKept(dispatched: seq<Dispatch>, pushed: seq<Event>, latest: Option<(nat, Event)>) {
    LatestKept(latest, pushed) && AllRightly(dispatched, pushed) &&
    WrenchesKept(dispatched, latest) && OthersKept(dispatched, pushed)
  }

  predicate Inv(s: State) {
    FramesKept(s.frames, s.handle, s.generation) && LogsKept(s.dispatched, s.pushed, s.latest) &&
    (s.latest.Some? <==> s.handle.Some?) && (s.disposed ==> s.latest.None?)
  }

  lemma OutputsSnoc(dispatched: seq<Dispatch>, d: Dispatch)
    ensures Outputs(dispatched + [d]) == Outputs(dispatched) + [d.event]
  {
    assert (dispatched + [d])[..|dispatched|] == dispatched;
  }

  lemma RightlyGrows(dispatched: seq<Dispatch>, pushed: seq<Event>, e: Event)
    requires AllRightly(dispatched, pushed)
    ensures AllRightly(dispatched, pushed + [e])
  {
    forall d <- dispatched
      ensures Rightly(pushed + [e], d)
    {
      assert Rightly(pushed, d) && (pushed + [e])[..d.after] == pushed[..d.after];
    }
  }

  lemma RightlySnoc(dispatched: seq<Dispatch>, pushed: seq<Event>, d: Dispatch)
    requires AllRightly(dispatched, pushed) && Rightly(pushed, d)
    ensures AllRightly(dispatched + [d], pushed)
  {
  }

  lemma OthersGrow(dispatched: seq<Dispatch>, pushed: seq<Event>, d: Dispatch)
    requires OthersKept(dispatched, pushed)
    ensures !d.event.Wrench? ==> OthersKept(dispatched + [d], pushed + [d.event])
    ensures d.event.Wrench? ==> OthersKept(dispatched + [d], pushed)
    ensures d.event.Wrench? ==> OthersKept(dispatched, pushed + [d.event])
  {
    OutputsSnoc(dispatched, d);
    Sequences.FilterSnoc(Outputs(dispatched), d.event, NotWrench());
    Sequences.FilterSnoc(pushed, d.event, NotWrench());
    if d.event.Wrench? {
      var a, b := Sequences.Filter(Outputs(dispatched), NotWrench()), Sequences.Filter(pushed, NotWrench());
      assert a + [] == a && b + [] == b;
    }
  }

  // The frames.

  lemma RevokeKeepsFrames(frames: seq<Frame>, handle: Option<nat>, generation: nat)
    requires FramesKept(frames, handle, generation)
    ensures FramesKept(Cancelled(frames, handle), None, generation + 1)
  {
  }

  lemma NewFrameKept(frames: seq<Frame>, generation: nat)
    requires FramesKept(frames, None, generation)
    ensures FramesKept(frames + [Frame(generation + 1, false, false)], Some(|frames|), generation + 1)
  {
  }

  /** A frame of the current generation is the one the handle names, if it names one. */
  lemma FireKeepsFrames(frames: seq<Frame>, handle: Option<nat>, generation: nat, frame: nat)
    requires FramesKept(frames, handle, generation) && frame < |frames|
    ensures FramesKept(frames[frame := frames[frame].(fired := true)],
                       if frames[frame].generation == generation then None else handle, generation)
  {
  }

  // The logs.

  lemma HandOnKeepsWrenches(dispatched: seq<Dispatch>, latest: Option<(nat, Event)>, d: Dispatch)
    requires WrenchesKept(dispatched, latest) && !d.event.Wrench?
    ensures WrenchesKept(dispatched + [d], latest) && WrenchesKept(dispatched + [d], None)
  {
  }

  lemma HandOnKeepsLatest(pushed: seq<Event>, latest: Option<(nat, Event)>, e: Event)
    requires LatestKept(latest, pushed) && e.Other?
    ensures LatestKept(latest, pushed + [e])
  {
  }

  /** A pushed event that is not a wrench. */
  lemma HandOnKeepsLogs(dispatched: seq<Dispatch>, pushed: seq<Event>, latest: Option<(nat, Event)>, e: Event)
    requires LogsKept(dispatched, pushed, latest) && !e.Wrench?
    ensures var handed := dispatched + [Dispatch(e, |pushed|, |pushed| + 1)];
            LogsKept(handed, pushed + [e], None) && (e.Other? ==> LogsKept(handed, pushed + [e], latest))
  {
    var d := Dispatch(e, |pushed|, |pushed| + 1);
    RightlyGrows(dispatched, pushed, e);
    assert Rightly(pushed + [e], d);
    RightlySnoc(dispatched, pushed + [e], d);
    OthersGrow(dispatched, pushed, d);
    HandOnKeepsWrenches(dispatched, latest, d);
    if e.Other? {
      HandOnKeepsLatest(pushed, latest, e);
    }
  }

  lemma NewestWrench(dispatched: seq<Dispatch>, pushed: seq<Event>, latest: Option<(nat, Event)>, e: Event)
    requires AllRightly(dispatched, pushed) && WrenchesKept(dispatched, latest)
    ensures WrenchesKept(dispatched, Some((|pushed|, e)))
  {
    forall d <- dispatched
      ensures d.index < |pushed|
    {
      assert Rightly(pushed, d);
    }
  }

  lemma WrenchKeepsLogs(dispatched: seq<Dispatch>, pushed: seq<Event>, latest: Option<(nat, Event)>, e: Event)
    requires LogsKept(dispatched, pushed, latest) && e.Wrench?
    ensures LogsKept(dispatched, pushed + [e], Some((|pushed|, e)))
  {
    RightlyGrows(dispatched, pushed, e);
    OthersGrow(dispatched, pushed, Dispatch(e, 0, 0));
    NewestWrench(dispatched, pushed, latest, e);
  }

  /** The pending wrench is handed on. */
  lemma FlushKeepsLogs(dispatched: seq<Dispatch>, pushed: seq<Event>, latest: (nat, Event))
    requires LogsKept(dispatched, pushed, Some(latest))
    ensures LogsKept(dispatched + [Dispatch(latest.1, latest.0, |pushed|)], pushed, None)
  {
    var d := Dispatch(latest.1, latest.0, |pushed|);
    assert pushed[..|pushed|] == pushed;
    OthersGrow(dispatched, pushed, d);
    assert Rightly(pushed, d);
    RightlySnoc(dispatched, pushed, d);
  }

  // The steps.

  lemma HandOnKeepsInv(s: State, e: Event)
    requires Inv(s) && !s.disposed && !e.Wrench?
    ensures Inv(AfterPush(s, e))
  {
    HandOnKeepsLogs(s.dispatched, s.pushed, s.latest, e);
    RevokeKeepsFrames(s.frames, s.handle, s.generation);
  }

  lemma WrenchKeepsInv(s: State, e: Event)
    requires Inv(s) && !s.disposed && e.Wrench?
    ensures Inv(AfterPush(s, e))
  {
    WrenchKeepsLogs(s.dispatched, s.pushed, s.latest, e);
    assert LogsKept(s.dispatched, s.pushed + [e], Some((|s.pushed|, e)));
    if s.handle.None? {
      NewFrameKept(s.frames, s.generation);
    }
  }

  lemma FireKeepsInv(s: State, frame: nat)
    requires Inv(s)
    ensures Inv(AfterFire(s, frame))
  {
    if frame < |s.frames| {
      FireKeepsFrames(s.frames, s.handle, s.generation, frame);
      if s.frames[frame].generation == s.generation && s.latest.Some? {
        FlushKeepsLogs(s.dispatched, s.pushed, s.latest.value);
      }
    }
  }

  lemma DisposeKeepsInv(s: State)
    requires Inv(s)
    ensures Inv(Next(s, Dispose))
  {
    RevokeKeepsFrames(s.frames, s.handle, s.generation);
  }

  lemma StepKeepsInv(s: State, input: Input)
    requires Inv(s)
    ensures Inv(Next(s, input))
  {
    match input
    case Push(e) =>
      if !s.disposed {
        if e.Wrench? {
          WrenchKeepsInv(s, e);
        } else {
          HandOnKeepsInv(s, e);
        }
      }
    case Fire(frame) => FireKeepsInv(s, frame);
    case Dispose => DisposeKeepsInv(s);
  }

  lemma {:induction false} EveryRunKeepsInv(inputs: seq<Input>)
    ensures Inv(Run(inputs))
    decreases |inputs|
  {
    if inputs != [] {
      EveryRunKeepsInv(inputs[..|inputs| - 1]);
      StepKeepsInv(Run(inputs[..|inputs| - 1]), inputs[|inputs| - 1]);
    }
  }

  // What it means.

  /** Each wrench handed on was at that moment the newest one pushed, and no scope boundary
      had been pushed after it. */
  lemma WrenchIsNewest(inputs: seq<Input>, d: Dispatch, i: nat)
    requires d in Run(inputs).dispatched && d.event.Wrench? && d.index < i < d.after
    ensures d.after <= |Run(inputs).pushed| && Run(inputs).pushed[d.index] == d.event
    ensures Run(inputs).pushed[i].Other?
  {
    EveryRunKeepsInv(inputs);
    assert Rightly(Run(inputs).pushed, d);
    assert Run(inputs).pushed[..d.after][i] == Run(inputs).pushed[i];
  }

  /** Every other event is handed on as it arrives, and they keep their order. */
  lemma OthersKeepOrder(inputs: seq<Input>)
    ensures var s := Run(inputs);
            Sequences.Filter(Outputs(s.dispatched), NotWrench()) == Sequences.Filter(s.pushed, NotWrench())
    ensures forall d <- Run(inputs).dispatched :: !d.event.Wrench? ==> d.after == d.index + 1
  {
    EveryRunKeepsInv(inputs);
    assert forall d <- Run(inputs).dispatched :: Rightly(Run(inputs).pushed, d);
  }

  /** At most one frame is outstanding, and one is exactly while a wrench waits. */
  lemma OneFrameOutstanding(inputs: seq<Input>)
    ensures var s := Run(inputs);
            && (forall i, j :: 0 <= i < |s.frames| && 0 <= j < |s.frames| && Live(s.frames[i]) && Live(s.frames[j]) ==>
                  i == j)
            && ((exists i :: 0 <= i < |s.frames| && Live(s.frames[i])) <==> s.latest.Some?)
  {
    EveryRunKeepsInv(inputs);
    var s := Run(inputs);
    if s.latest.Some? {
      assert Live(s.frames[s.handle.value]);
    }
  }

  /** A waiting wrench is the newest one pushed, and the frame the handle names, when it
      fires, hands it on. */
  lemma FrameHandsOn(inputs: seq<Input>)
    requires Run(inputs).latest.Some?
    ensures var s := Run(inputs);
            && s.handle.Some? && s.handle.value < |s.frames| && Live(s.frames[s.handle.value])
            && (var (index, e), n := s.latest.value, Next(s, Fire(s.handle.value));
                && index < |s.pushed| && s.pushed[index] == e && e.Wrench? && QuietFrom(s.pushed, index + 1)
                && n.latest.None? && n.dispatched == s.dispatched + [Dispatch(e, index, |s.pushed|)])
  {
    EveryRunKeepsInv(inputs);
  }

  /** Nothing is handed on after dispose. */
  lemma {:induction false} DisposedIsSilent(s: State, inputs: seq<Input>)
    requires Inv(s) && s.disposed
    ensures Inv(RunFrom(s, inputs)) && RunFrom(s, inputs).disposed
    ensures RunFrom(s, inputs).dispatched == s.dispatched
    decreases |inputs|
  {
    if inputs != [] {
      var init := inputs[..|inputs| - 1];
      DisposedIsSilent(s, init);
      StepKeepsInv(RunFrom(s, init), inputs[|inputs| - 1]);
    }
  }

  function RunFrom(s: State, inputs: seq<Input>): State {
    if inputs == [] then s else Next(RunFrom(s, inputs[..|inputs| - 1]), inputs[|inputs| - 1])
  }

  // What a push does.

  lemma RunLast(inputs: seq<Input>, input: Input)
    ensures Run(inputs + [input]) == Next(Run(inputs), input)
  {
    assert (inputs + [input])[..|inputs|] == inputs;
  }

  /** A pushed wrench waits, in place of any before it, and a frame is outstanding for it. */
  lemma WrenchWaits(inputs: seq<Input>, id: nat)
    requires !Run(inputs).disposed
    ensures var s, n := Run(inputs), Run(inputs + [Push(Wrench(id))]);
            && n.latest == Some((|s.pushed|, Wrench(id))) && n.pushed == s.pushed + [Wrench(id)]
            && n.dispatched == s.dispatched && !n.disposed
            && exists i :: 0 <= i < |n.frames| && !n.frames[i].cancelled && !n.frames[i].fired
  {
    RunLast(inputs, Push(Wrench(id)));
    OneFrameOutstanding(inputs + [Push(Wrench(id))]);
    var n := Run(inputs + [Push(Wrench(id))]);
    var i :| 0 <= i < |n.frames| && Live(n.frames[i]);
    assert !n.frames[i].cancelled && !n.frames[i].fired;
  }

  /** Another event is handed on at once and leaves a waiting wrench where it is. */
  lemma OtherGoesOn(inputs: seq<Input>, id: nat)
    requires !Run(inputs).disposed
    ensures var s, n := Run(inputs), Run(inputs + [Push(Other(id))]);
            && n.dispatched == s.dispatched + [Dispatch(Other(id), |s.pushed|, |s.pushed| + 1)]
            && n.pushed == s.pushed + [Other(id)] && n.latest == s.latest && n.frames == s.frames && !n.disposed
  {
    RunLast(inputs, Push(Other(id)));
  }

  /** A scope boundary is handed on at once, and no wrench waits after it. */
  lemma BoundaryGoesOn(inputs: seq<Input>, id: nat)
    requires !Run(inputs).disposed
    ensures var s, n := Run(inputs), Run(inputs + [Push(Boundary(id))]);
            && n.dispatched == s.dispatched + [Dispatch(Boundary(id), |s.pushed|, |s.pushed| + 1)]
            && n.pushed == s.pushed + [Boundary(id)] && n.latest.None? && !n.disposed
  {
    RunLast(inputs, Push(Boundary(id)));
  }

  /** What has been pushed before the first dispose. */
  function PushedBefore(inputs: seq<Input>): seq<Event> {
    if inputs == [] then []
    else
      var init, last := inputs[..|inputs| - 1], inputs[|inputs| - 1];
      PushedBefore(init) + if last.Push? && Dispose !in init then [last.event] else []
  }

  /** The scheduler takes every event pushed until it is disposed, and is disposed by nothing else. */
  lemma {:induction false} TakesAll(inputs: seq<Input>)
    ensures Run(inputs).pushed == PushedBefore(inputs)
    ensures Run(inputs).disposed <==> Dispose in inputs
    decreases |inputs|
  {
    if inputs != [] {
      var init, last := inputs[..|inputs| - 1], inputs[|inputs| - 1];
      TakesAll(init);
      assert inputs == init + [last];
      StepTakes(Run(init), last);
    }
  }

  lemma StepTakes(s: State, input: Input)
    ensures Next(s, input).disposed <==> s.disposed || input == Dispose
    ensures Next(s, input).pushed == s.pushed + if input.Push? && !s.disposed then [input.event] else []
  {
    assert s.pushed + [] == s.pushed;
  }
}
