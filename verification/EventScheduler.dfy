/** The scheduler object, whose closure variables become fields. */
module EventScheduler {
  import opened Wrappers
  import opened FrameScheduling

  /** The fields are the variables of the state. */
  predicate Mirrors(s: State, latest: Option<Event>, handle: Option<nat>, generation: nat, disposed: bool,
                    frames: seq<Frame>) {
    handle == s.handle && generation == s.generation && disposed == s.disposed && frames == s.frames &&
    latest == if s.latest.None? then None else Some(s.latest.value.1)
  }

  /** What the callback of a frame changes. */
  lemma FireIs(s: State, frame: nat)
    requires Inv(s) && frame < |s.frames|
    ensures var n := AfterFire(s, frame);
            n.frames == s.frames[frame := s.frames[frame].(fired := true)] && n.generation == s.generation &&
            n.disposed == s.disposed &&
            (if s.frames[frame].generation == s.generation then
               n.handle == None && n.latest == None &&
               n.dispatched == if s.disposed || s.latest.None? then s.dispatched
                               else s.dispatched + [Dispatch(s.latest.value.1, s.latest.value.0, |s.pushed|)]
             else n.handle == s.handle && n.latest == s.latest && n.dispatched == s.dispatched)
  {
  }

  /** What pushing anything but a wrench changes. */
  lemma HandOnIs(s: State, e: Event)
    requires Inv(s) && !s.disposed && !e.Wrench?
    ensures var n := AfterPush(s, e);
            n.disposed == s.disposed && Outputs(n.dispatched) == Outputs(s.dispatched) + [e] &&
            (if e.Other? then n.handle == s.handle && n.latest == s.latest && n.generation == s.generation &&
                              n.frames == s.frames
             else n.handle == None && n.latest == None && n.generation == s.generation + 1 &&
                  n.frames == Cancelled(s.frames, s.handle))
  {
    OutputsSnoc(s.dispatched, Dispatch(e, |s.pushed|, |s.pushed| + 1));
  }

  class Scheduler {
    var latestWrench: Option<Event>
    var frameHandle: Option<nat>
    var frameGeneration: nat
    var disposed: bool
    var output: seq<Event>
    var frames: seq<Frame>
    ghost var history: State

    ghost predicate Valid()
      reads this
    {
      Inv(history) &&
      Mirrors(history, latestWrench, frameHandle, frameGeneration, disposed, frames) &&
      output == Outputs(history.dispatched)
    }

    constructor ()
      ensures Valid() && history == START
    {
      latestWrench, frameHandle, frameGeneration, disposed, output, frames := None, None, 0, false, [], [];
      history := START;
    }

    method Revoke()
      requires frameHandle.Some? ==> frameHandle.value < |frames|
      modifies this
      ensures frameGeneration == old(frameGeneration) + 1 && latestWrench == None && frameHandle == None
      ensures frames == Cancelled(old(frames), old(frameHandle))
      ensures disposed == old(disposed) && output == old(output) && history == old(history)
    {
      frameGeneration := frameGeneration + 1;
      latestWrench := None;
      if frameHandle.Some? {
        frames := frames[frameHandle.value := frames[frameHandle.value].(cancelled := true)];
        frameHandle := None;
      }
    }

    method PushEvent(e: Event)
      requires Valid()
      modifies this
      ensures Valid() && history == Next(old(history), Push(e))
    {
      if disposed {
        return;
      }
      if !e.Wrench? {
        HandOn(e);
      } else {
        Keep(e);
      }
    }

    method HandOn(e: Event)
      requires Valid() && !disposed && !e.Wrench?
      modifies this
      ensures Valid() && history == AfterPush(old(history), e)
    {
      HandOnKeepsInv(history, e);
      HandOnIs(history, e);
      ghost var n := AfterPush(history, e);
      if e.Boundary? {
        Revoke();
      }
      output := output + [e];
      assert Mirrors(n, latestWrench, frameHandle, frameGeneration, disposed, frames);
      history := n;
    }

    method Keep(e: Event)
      requires Valid() && !disposed && e.Wrench?
      modifies this
      ensures Valid() && history == AfterPush(old(history), e)
    {
      WrenchKeepsInv(history, e);
      ghost var n := AfterPush(history, e);
      assert n.dispatched == history.dispatched;
      latestWrench := Some(e);
      if frameHandle.None? {
        frameGeneration := frameGeneration + 1;
        frameHandle := Some(|frames|);
        frames := frames + [Frame(frameGeneration, false, false)];
      }
      assert Mirrors(n, latestWrench, frameHandle, frameGeneration, disposed, frames);
      history := n;
    }

    /** The environment runs the callback of a frame: flush with its generation. */
    method FireFrame(frame: nat)
      requires Valid() && frame < |frames|
      modifies this
      ensures Valid() && history == Next(old(history), Fire(frame))
    {
      FireKeepsInv(history, frame);
      FireIs(history, frame);
      if frames[frame].generation == frameGeneration {
        FireCurrent(frame, AfterFire(history, frame));
      } else {
        frames := frames[frame := frames[frame].(fired := true)];
        history := AfterFire(history, frame);
      }
    }

    /** The callback of the current generation. */
    method FireCurrent(frame: nat, ghost n: State)
      requires frame < |frames| && Inv(n) && output == Outputs(history.dispatched)
      requires Mirrors(history, latestWrench, frameHandle, frameGeneration, disposed, frames)
      requires Mirrors(n, None, None, frameGeneration, disposed, frames[frame := frames[frame].(fired := true)])
      requires n.dispatched == if disposed || history.latest.None? then history.dispatched
                               else history.dispatched + [Dispatch(history.latest.value.1, history.latest.value.0,
                                                                   |history.pushed|)]
      modifies this
      ensures Valid() && history == n
    {
      frames := frames[frame := frames[frame].(fired := true)];
      frameHandle := None;
      if latestWrench.Some? {
        OutputsSnoc(history.dispatched, Dispatch(latestWrench.value, history.latest.value.0, |history.pushed|));
      }
      if disposed {
        latestWrench := None;
      } else {
        var event := latestWrench;
        latestWrench := None;
        if event.Some? {
          output := output + [event.value];
        }
      }
      history := n;
    }

    method DisposeAll()
      requires Valid()
      modifies this
      ensures Valid() && history == Next(old(history), Dispose)
    {
      StepKeepsInv(history, Dispose);
      if disposed {
        return;
      }
      disposed := true;
      Revoke();
      history := Next(history, Dispose);
    }
  }
}
