/** The objects of the joins: the counter of goAnyResult and the reusable Waiter with its shared pointer. */
module CounterHeap {
  import opened Prelude
  import opened Joins

  /** The first value in the order in which the handlers end. */
  function FirstValue<T>(os: seq<Outcome<T>>): Option<T> {
    if os == [] then None
    else if FirstValue(os[..|os| - 1]).Some? then FirstValue(os[..|os| - 1])
    else if os[|os| - 1].Returns? then os[|os| - 1].r else None
  }

  lemma {:induction false} FirstValueIsFirst<T>(os: seq<Outcome<T>>)
    ensures FirstValue(os).None? <==> forall i :: 0 <= i < |os| ==> os[i].Throws? || os[i].r.None?
    ensures FirstValue(os).Some? ==>
              exists i :: 0 <= i < |os| && os[i] == Returns(FirstValue(os)) && forall k :: 0 <= k < i ==> os[k].Throws? || os[k].r.None?
    decreases |os|
  {
    if os != [] {
      var m := |os| - 1;
      FirstValueIsFirst(os[..m]);
      if FirstValue(os[..m]).Some? {
        var i :| 0 <= i < m && os[..m][i] == Returns(FirstValue(os)) && forall k :: 0 <= k < i ==> os[..m][k].Throws? || os[..m][k].r.None?;
        assert os[i] == os[..m][i] && forall k :: 0 <= k < i ==> os[k] == os[..m][k];
      } else {
        assert forall k :: 0 <= k < m ==> os[k] == os[..m][k];
      }
    }
  }

  /** The suspended caller. */
  class Caller<T> {
    var result: Option<T>
    var proceeds: nat

    constructor ()
      ensures result == None && proceeds == 0
    {
      result, proceeds := None, 0;
    }
  }

  class Counter<T> {
    var counter: nat
    const caller: Caller<T>

    constructor (c: Caller<T>)
      ensures counter == 0 && caller == c
    {
      counter, caller := 0, c;
    }

    method TryProceed(r: Option<T>)
      modifies this, caller
      ensures counter == old(counter) + 1
      ensures old(counter) == 0 ==> caller.result == r && caller.proceeds == old(caller.proceeds) + 1
      ensures old(counter) > 0 ==> caller.result == old(caller.result) && caller.proceeds == old(caller.proceeds)
    {
      counter := counter + 1;
      if counter == 1 {
        caller.result := r;
        caller.proceeds := caller.proceeds + 1;
      }
    }

    /** The journeys of all handlers, in the order in which they increment, and then the destructor. */
    method Serve(os: seq<Outcome<T>>)
      requires counter == 0 && caller.proceeds == 0 && caller.result == None
      modifies this, caller
      ensures caller.proceeds == 1 && caller.result == FirstValue(os)
    {
      for i := 0 to |os|
        invariant caller.proceeds == if counter == 0 then 0 else 1
        invariant counter == 0 <==> FirstValue(os[..i]).None?
        invariant caller.result == FirstValue(os[..i])
      {
        assert os[..i + 1][..i] == os[..i];
        if os[i].Returns? && os[i].r.Some? {
          TryProceed(os[i].r);
        }
      }
      assert os[..|os|] == os;
      TryProceed(None);
    }
  }
}

module WaiterHeap {
  import opened Prelude
  import opened Barrier

  /** The control block of a shared pointer. */
  class Block {
    var refs: nat

    constructor ()
      ensures refs == 1
    {
      refs := 1;
    }
  }

  /** How the beginning of wait ends. */
  datatype Beginning = Returns | Throws | Yields

  /** The waiter, with the local pointer of its deferred handler. `model` is the state of the machine of
      module Barrier. */
  class Waiter {
    var proceeder: Block?
    var toDestroy: Block?
    var proceeds: nat
    ghost var block: Block        // the newest control block
    ghost var model: State

    ghost predicate Valid()
      reads this, block
    {
      && (Inv(model) || Emptied(model))
      && proceeder == (if model.member then block else null)
      && toDestroy == (if model.local then block else null)
      && block.refs == model.refs
      && proceeds == model.proceeds
    }

    lemma Kept(e: Event)
      requires (Inv(model) || Emptied(model)) && Enabled(model, e)
      ensures Inv(Apply(model, e)) || Emptied(Apply(model, e))
      ensures Emptied(model) ==> Emptied(Apply(model, e))
      ensures Inv(model) && !e.ReturnThrowing? ==> Inv(Apply(model, e))
    {
      if Inv(model) { StepKeeps(model, e); }
      if Emptied(model) { EmptiedStep(model, e); }
    }

    constructor ()
      ensures Valid() && model == START && fresh(block)
    {
      var b := new Block();
      proceeder, toDestroy, proceeds := b, null, 0;
      block, model := b, START;
      new;
      assert Copies([]) == 0;
    }

    /** go: the new journey captures a copy of the pointer. */
    method Go() returns (copy: Block?)
      requires Valid() && model.owner.Body?
      modifies this, block
      ensures Valid() && block == old(block) && Enabled(old(model), Event.Go) && model == Apply(old(model), Event.Go)
      ensures copy == old(proceeder) == proceeder && (copy != null ==> copy.refs == old(block.refs) + 1)
    {
      copy := proceeder;
      if copy != null {
        copy.refs := copy.refs + 1;
      }
      Kept(Event.Go);
      model := Apply(model, Event.Go);
    }

    /** The beginning of wait, up to the yield. It returns only if every journey launched before is gone
        and no event has ended a sleep; otherwise a deliverable event is thrown, with the pointer still in
        place, or the owner yields. */
    method Begin(deliverable: bool) returns (r: Beginning)
      requires Valid() && model.owner.Body?
      modifies this
      ensures Valid() && block == old(block) && proceeder == old(proceeder)
      ensures r.Returns? <==> AllGone(old(model)) && !Emptied(old(model))
      ensures r.Throws? <==> !r.Returns? && deliverable
      ensures Enabled(old(model), Call(old(model), deliverable))
      ensures model == Apply(old(model), Call(old(model), deliverable))
      ensures model.owner.Body? <==> !r.Yields?
    {
      NoCopies(model.children);
      ghost var e := Call(model, deliverable);
      if proceeder != null && proceeder.refs == 1 {
        r := Returns;
      } else if deliverable {
        r := Throws;
      } else {
        r := Yields;
      }
      Kept(e);
      model := Apply(model, e);
    }

    /** The deferred handler moves the member. */
    method MoveOut()
      requires Valid() && model.owner.Yielding?
      modifies this
      ensures Valid() && block == old(block) && Enabled(old(model), Move) && model == Apply(old(model), Move)
      ensures toDestroy == old(proceeder) && proceeder == null
    {
      toDestroy := proceeder;
      proceeder := null;
      Kept(Move);
      model := Apply(model, Move);
    }

    /** The deferred handler's pointer goes out of scope; true if the deleter is to run. */
    method DropLocal() returns (last: bool)
      requires Valid() && model.owner.Moved?
      modifies this, block
      ensures Valid() && block == old(block) && Enabled(old(model), Event.DropLocal) && model == Apply(old(model), Event.DropLocal)
      ensures toDestroy == null
      ensures last <==> AllGone(model) && !Emptied(model)
    {
      last := false;
      if toDestroy != null {
        toDestroy.refs := toDestroy.refs - 1;
        last := toDestroy.refs == 0;
      }
      toDestroy := null;
      Kept(Event.DropLocal);
      model := Apply(model, Event.DropLocal);
      NoCopies(model.children);
    }

    /** A journey that has ended destroys its copy; true if the deleter is to run. */
    method Release(i: nat, copy: Block?) returns (last: bool)
      requires Valid() && copy == (if Emptied(model) then null else block) && i < |model.children| && model.children[i].Releasing?
      modifies this, block
      ensures Valid() && block == old(block) && Enabled(old(model), Event.Release(i)) && model == Apply(old(model), Event.Release(i))
      ensures last <==> model.owner.Suspended? && AllGone(model) && !Emptied(model)
    {
      WeightUpdate(model.children, i, Gone, CopyOf);
      last := false;
      if copy != null {
        copy.refs := copy.refs - 1;
        last := copy.refs == 0;
      }
      Kept(Event.Release(i));
      model := Apply(model, Event.Release(i));
      NoCopies(model.children);
    }

    /** The deleter: the owner proceeds. */
    method Delete()
      requires Valid() && model.deleting
      modifies this
      ensures Valid() && block == old(block) && Enabled(old(model), Event.Delete) && model == Apply(old(model), Event.Delete)
      ensures model.owner.Ready?
      ensures proceeds == old(proceeds) + 1
    {
      proceeds := proceeds + 1;
      Kept(Event.Delete);
      model := Apply(model, Event.Delete);
    }

    /** The end of wait: init0. */
    method Renew()
      requires Valid() && model.owner.Ready?
      modifies this
      ensures Valid() && fresh(block) && Enabled(old(model), Return) && model == Apply(old(model), Return)
      ensures proceeder == block && block.refs == 1 && model.owner.Body?
    {
      proceeder := new Block();
      block := proceeder;
      Kept(Return);
      model := Apply(model, Return);
    }

    /** An event is thrown instead: init0 is not reached. */
    method SkipRenew()
      requires Valid() && model.owner.Ready?
      modifies this
      ensures Valid() && block == old(block) && Enabled(old(model), ReturnThrowing) && model == Apply(old(model), ReturnThrowing)
      ensures proceeder == null && model.owner.Body?
    {
      Kept(ReturnThrowing);
      model := Apply(model, ReturnThrowing);
    }
  }
}
