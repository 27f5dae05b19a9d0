/** The fields of the pool and of its io_service, as the code updates them: outstanding work is a number,
    and the service is stopped by whoever brings it to zero. */
module PoolHeap {
  import opened Prelude
  import opened ThreadPool

  function BusyOf(w: Worker): nat {
    if w.Busy? then 1 else 0
  }

  function WorkCount(s: State): nat {
    |s.queue| + Weight(s.workers, BusyOf) + (if s.work then 1 else 0)
  }

  lemma NoWorkLeft(s: State)
    ensures WorkCount(s) == 0 <==> !Outstanding(s)
  {
    WeightZero(s.workers, BusyOf);
  }

  /** What a worker does after the locked block of its loop. */
  datatype Next = Leaves | RunsAgain | Notifies

  class Pool {
    var outstanding: nat
    var stopped: bool
    var work: bool
    var toStop: bool
    ghost var model: State   // the state of the machine of module ThreadPool

    ghost predicate Valid()
      reads this
    {
      && Inv(model)
      && outstanding == WorkCount(model)
      && stopped == model.stopped && work == model.work && toStop == model.toStop
    }

    constructor (ghost start: State)
      requires Init(start)
      ensures Valid() && model == start
    {
      outstanding, stopped, work, toStop := 1, false, true, false;
      model := start;
      new;
      WeightZero(start.workers, BusyOf);
    }

    method Schedule()
      requires Valid() && (model.toStop ==> exists w :: 0 <= w < |model.workers| && model.workers[w].Busy?)
      modifies this
      ensures Valid() && Enabled(old(model), Post) && model == Apply(old(model), Post)
      ensures outstanding == old(outstanding) + 1 && stopped == old(stopped) && work == old(work) && toStop == old(toStop)
      ensures model.queue == old(model.queue) + [old(model.posted)]
    {
      outstanding := outstanding + 1;
      StepKeeps(model, Post);
      model := Apply(model, Post);
    }

    method StartTask(ghost w: nat, ghost i: nat)
      requires Valid() && w < |model.workers| && model.workers[w].InRun? && i < |model.queue| && !stopped
      modifies this`model
      ensures Valid() && Enabled(old(model), Start(w, i)) && model == Apply(old(model), Start(w, i))
      ensures model.workers[w] == Busy(old(model.queue[i]))
    {
      WeightUpdate(model.workers, w, Busy(model.queue[i]), BusyOf);
      StepKeeps(model, Start(w, i));
      model := Apply(model, Start(w, i));
    }

    /** One unit of outstanding work is finished. */
    method Finished()
      requires outstanding > 0
      modifies this`outstanding, this`stopped
      ensures outstanding == old(outstanding) - 1 && stopped == (old(stopped) || outstanding == 0)
    {
      outstanding := outstanding - 1;
      if outstanding == 0 {
        stopped := true;
      }
    }

    method CompleteTask(ghost w: nat)
      requires Valid() && w < |model.workers| && model.workers[w].Busy?
      modifies this
      ensures Valid() && Enabled(old(model), Complete(w)) && model == Apply(old(model), Complete(w))
      ensures outstanding == old(outstanding) - 1 && stopped == (old(stopped) || outstanding == 0)
      ensures work == old(work) && toStop == old(toStop)
    {
      WeightUpdate(model.workers, w, InRun, BusyOf);
      NoWorkLeft(Become(model, w, InRun));
      Finished();
      StepKeeps(model, Complete(w));
      model := Apply(model, Complete(w));
    }

    /** The locked block of the worker loop. */
    method AfterRun(ghost w: nat) returns (next: Next)
      requires Valid() && w < |model.workers| && model.workers[w].OutRun?
      modifies this
      ensures Valid() && Enabled(old(model), Lock(w)) && model == Apply(old(model), Lock(w))
      ensures next.Leaves? <==> old(toStop)
      ensures next.Notifies? <==> !old(toStop) && !old(work)
      ensures toStop == old(toStop) && work == (old(work) || next.Notifies?) && stopped == (old(stopped) && !next.Notifies?)
      ensures outstanding == old(outstanding) + (if next.Notifies? then 1 else 0)
      ensures model.workers[w] == match next case Leaves => Exited case RunsAgain => InRun case Notifies => Notifying
    {
      next := RunsAgain;
      if toStop {
        next := Leaves;
      } else if !work {
        work := true;
        outstanding := outstanding + 1;
        stopped := false;
        next := Notifies;
      }
      WeightUpdate(model.workers, w, Apply(model, Lock(w)).workers[w], BusyOf);
      StepKeeps(model, Lock(w));
      model := Apply(model, Lock(w));
    }

    /** work.reset() without a new value. */
    method ResetWork()
      requires work ==> outstanding > 0
      modifies this`outstanding, this`stopped, this`work
      ensures !work && outstanding == old(outstanding) - (if old(work) then 1 else 0)
      ensures stopped == (old(stopped) || (old(work) && outstanding == 0))
    {
      if work {
        work := false;
        Finished();
      }
    }

    /** wait up to the sleep. */
    method WaitEnter(ghost k: nat)
      requires Valid() && k < |model.callers| && model.callers[k].Out? && !toStop
      modifies this
      ensures Valid() && Enabled(old(model), WaitStart(k)) && model == Apply(old(model), WaitStart(k))
      ensures !work && !toStop && model.callers[k].Asleep? && outstanding == old(outstanding) - (if old(work) then 1 else 0)
      ensures stopped == (old(stopped) || (old(work) && outstanding == 0))
    {
      NoWorkLeft(model.(work := false, callers := model.callers[k := Asleep(false)]));
      NoWorkLeft(model);
      ResetWork();
      StepKeeps(model, WaitStart(k));
      model := Apply(model, WaitStart(k));
    }

    /** The test of wait after a wake-up; true if wait returns. */
    method WaitTest(ghost k: nat) returns (back: bool)
      requires Valid() && k < |model.callers| && model.callers[k].Asleep?
      modifies this`model
      ensures Valid() && Enabled(old(model), Wake(k)) && model == Apply(old(model), Wake(k))
      ensures (back <==> model.callers[k].Out?) && (back <==> old(work))
    {
      back := work;
      StepKeeps(model, Wake(k));
      model := Apply(model, Wake(k));
    }

    /** The destructor up to its joins. */
    method Stop()
      requires Valid() && !toStop && AllOut(model)
      modifies this
      ensures Valid() && Enabled(old(model), Destroy) && model == Apply(old(model), Destroy)
      ensures toStop && !work && outstanding == old(outstanding) - (if old(work) then 1 else 0)
      ensures stopped == (old(stopped) || (old(work) && outstanding == 0))
    {
      toStop := true;
      NoWorkLeft(model.(toStop := true, work := false));
      NoWorkLeft(model);
      ResetWork();
      StepKeeps(model, Destroy);
      model := Apply(model, Destroy);
    }
  }
}
