/** The object that starts, pauses, resumes and resets the collector's capture. It keeps the captures whose
    goroutine has not returned as a set; unless a stop was given up early there is never more than one. Its calls
    are also the controller transitions of the pipeline's state machine. */
module CaptureControl {
  import QS = QueueStore
  import Sys = System

  /** The controller of the state machine that an object with these fields stands for. */
  function Control(cancel: bool, latest: nat, alive: set<nat>, pausedFor: string): Sys.Controller {
    Sys.Controller(cancel, latest in alive, |alive - {latest}|, pausedFor)
  }

  /** Starting a fresh capture is the state machine's start, and so is resuming one that was told to stop; resuming
      one that was not only ends the pause. */
  lemma CallsAreTransitions(latest: nat, next: nat, alive: set<nat>, pausedFor: string)
    requires next !in alive && next != latest
    ensures Control(true, next, alive + {next}, pausedFor) == Sys.Start(Control(false, latest, alive, pausedFor))
    ensures Control(true, next, alive + {next}, "") == Sys.ResumeCapture(Control(false, latest, alive, pausedFor))
    ensures Control(true, latest, alive, "") == Sys.ResumeCapture(Control(true, latest, alive, pausedFor))
  {
    assert alive + {next} - {next} == alive;
    if latest in alive {
      assert alive == alive - {latest} + {latest};
    } else {
      assert alive == alive - {latest};
    }
  }

  class CaptureController {
    const queue: QS.Store
    var cancel: bool          // the latest capture has not been told to stop
    var latest: nat           // the latest capture
    var alive: set<nat>       // the captures that have not returned
    var pausedFor: string
    var waiting: bool         // a stop is waiting for the latest capture
    ghost var abandoned: bool // some stop was given up with its capture alive

    ghost predicate Valid()
      reads this, queue
    {
      && queue.Valid()
      && (forall id | id in alive :: id <= latest) && (waiting ==> !cancel)
      && (!abandoned ==> Exclusive())
    }

    /** The only capture alive is the latest one, and it is running or being waited for. */
    predicate Exclusive()
      reads this
    {
      alive <= {latest} && (!cancel && !waiting ==> alive == {})
    }

    /** At most one capture is alive, unless a stop was given up early. */
    lemma OneAlive()
      requires Valid() && !abandoned
      ensures |alive| <= 1
    {
      assert alive == {} || alive == {latest};
    }

    constructor (queue: QS.Store)
      requires queue.Valid()
      ensures Valid() && !abandoned && !waiting && this.queue == queue
      ensures alive == {latest} && cancel && pausedFor == ""
    {
      this.queue := queue;
      cancel, latest, alive, pausedFor, waiting, abandoned := true, 0, {0}, "", false, false;
    }

    /** A new capture, beside whatever is still alive: nothing is, unless a stop was given up. */
    method Start()
      requires Valid() && !cancel && !waiting
      modifies this`cancel, this`latest, this`alive
      ensures Valid() && cancel
      ensures alive == old(alive) + {latest} && latest !in old(alive) && |alive| == |old(alive)| + 1
      ensures !abandoned ==> alive == {latest}
    {
      latest := latest + 1;
      alive := alive + {latest};
      cancel := true;
    }

    /** A capture returns. */
    method Exit(id: nat)
      requires Valid() && id in alive
      modifies this`alive
      ensures Valid() && alive == old(alive) - {id}
    {
      alive := alive - {id};
    }

    /** Claims the controller for a request and tells the capture to stop; a stop that has a capture to tell
        waits for it. A refusal changes nothing. */
    method Pause(request: string) returns (claimed: bool)
      requires Valid() && !waiting
      modifies this`pausedFor, this`cancel, this`waiting
      ensures Valid() && (claimed <==> old(pausedFor) in {"", request})
      ensures claimed ==> pausedFor == request && !cancel && waiting == old(cancel)
      ensures claimed && !waiting && !abandoned ==> alive == {}
      ensures !claimed ==> pausedFor == old(pausedFor) && cancel == old(cancel) && !waiting
    {
      if pausedFor != "" && pausedFor != request {
        return false;
      }
      pausedFor := request;
      waiting := cancel;
      cancel := false;
      return true;
    }

    /** The stop returns because its capture has. */
    method Stopped()
      requires Valid() && waiting && latest !in alive
      modifies this`waiting
      ensures Valid() && !waiting && (!abandoned ==> alive == {})
    {
      waiting := false;
    }

    /** The stop returns because its context has expired. */
    method GiveUp()
      requires Valid() && waiting
      modifies this`waiting, this`abandoned
      ensures Valid() && !waiting && (abandoned <==> old(abandoned) || latest in alive)
    {
      waiting := false;
      abandoned := abandoned || latest in alive;
    }

    /** After the stop: the source is scanned exactly if everything published has been acknowledged and nothing
        is invisible, and then no capture is alive; otherwise the pause is over and a capture runs. */
    method Settle(request: string) returns (scans: bool)
      requires Valid() && !waiting && !cancel && pausedFor == request
      modifies this`pausedFor, this`cancel, this`latest, this`alive
      ensures Valid() && (scans <==> Sys.Drained(queue.state))
      ensures scans ==> pausedFor == request && !cancel && alive == old(alive) && (!abandoned ==> alive == {})
      ensures !scans ==> pausedFor == "" && cancel && latest in alive && (!abandoned ==> alive == {latest})
    {
      if queue.state.nextSeq != queue.state.readySeq || queue.state.deliveredSeq != queue.state.readySeq {
        var _ := Resume(request);
        return false;
      }
      return true;
    }

    /** Ends the pause of this request and no other: afterwards a capture has been started that is not told to
        stop, the one that was running before if there was one. A refusal changes nothing. */
    method Resume(request: string) returns (ok: bool)
      requires Valid() && !waiting
      modifies this`pausedFor, this`cancel, this`latest, this`alive
      ensures Valid() && (ok <==> old(pausedFor) == request)
      ensures ok ==> pausedFor == "" && cancel && |alive| == |old(alive)| + (if old(cancel) then 0 else 1)
      ensures ok && old(cancel) ==> latest == old(latest) && alive == old(alive)
      ensures ok && !old(cancel) ==> latest in alive && latest !in old(alive) && (!abandoned ==> alive == {latest})
      ensures !ok ==>
                pausedFor == old(pausedFor) && cancel == old(cancel) && latest == old(latest) && alive == old(alive)
    {
      if pausedFor != request {
        return false;
      }
      pausedFor := "";
      if !cancel {
        Start();
      }
      return true;
    }

    /** Resets the queue and starts over: only for the pausing request, with the capture told to stop, and only
        if everything published has been acknowledged; no capture is alive then. Otherwise nothing changes. */
    method Repair(request: string) returns (ok: bool)
      requires Valid() && !waiting
      modifies this`pausedFor, this`cancel, this`latest, this`alive, queue
      ensures Valid()
      ensures ok <==> && old(pausedFor) == request && !old(cancel)
                      && old(queue.state.phase).Stream? && Sys.Drained(old(queue.state))
      ensures ok ==> && pausedFor == "" && cancel && latest in alive && |alive| == |old(alive)| + 1
                     && queue.items == map[] && queue.state.generation == "" && Sys.Drained(queue.state)
      ensures ok && !abandoned ==> old(alive) == {} && alive == {latest}
      ensures !ok ==>
              && pausedFor == old(pausedFor) && cancel == old(cancel) && latest == old(latest) && alive == old(alive)
                      && queue.Contents() == old(queue.Contents())
    {
      if pausedFor != request || cancel {
        return false;
      }
      var error := queue.ResetForSnapshot();
      if error.Some? {
        return false;
      }
      pausedFor := "";
      Start();
      return true;
    }
  }
}
