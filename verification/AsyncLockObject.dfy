/**
 async_lock as an object: the flag, the counter of the critical section and the linked list of waiters. Each section
 under the mutex is proved to be the event of AsyncLock's step system that it stands for.
 */
module AsyncLockObject {
  import L = AsyncLock
  import S = Slist

  class AsyncLock {
    var locked: bool
    var count: int
    const awaiters: S.Slist

    /** Where all coroutines are; the real fields agree with it. */
    ghost var state: L.State

    ghost predicate Valid()
      reads this, awaiters, awaiters.nodes
    {
      && awaiters.Valid() && L.Inv(state)
      && locked == state.locked && count == state.count
      && |awaiters.nodes| == |state.awaiters|
      && forall i :: 0 <= i < |awaiters.nodes| ==> awaiters.nodes[i].id == state.awaiters[i]
    }

    constructor (ghost coroutines: nat)
      ensures Valid() && L.Init(state) && |state.at| == coroutines && fresh(awaiters)
    {
      locked, count := false, 0;
      awaiters := new S.Slist();
      state := L.State(false, [], 0, seq(coroutines, _ => L.Out), [], []);
      new;
      L.RunInv([state], [], 0);
    }

    /** The section of lock_impl; a coroutine that finds the lock taken queues its awaiter. */
    method LockSection(c: nat, awaiter: S.Node) returns (acquired: bool)
      requires Valid() && L.Enabled(state, L.LockSection(c))
      requires awaiter.id == c && awaiter.next == null && awaiter !in awaiters.nodes
      modifies this, awaiters, awaiters.nodes
      ensures Valid() && state == L.Apply(old(state), L.LockSection(c))
      ensures acquired == !old(locked)
      ensures awaiters.nodes == old(awaiters.nodes) + (if acquired then [] else [awaiter])
    {
      L.StepInv(state, L.LockSection(c), L.Apply(state, L.LockSection(c)));
      acquired := !locked;
      if !locked {
        locked := true;
      } else {
        awaiters.PushBack(awaiter);
      }
      state := L.Apply(state, L.LockSection(c));
    }

    method TrySection(c: nat) returns (acquired: bool)
      requires Valid() && L.Enabled(state, L.TrySection(c))
      modifies this
      ensures Valid() && state == L.Apply(old(state), L.TrySection(c)) && acquired == !old(locked)
    {
      L.StepInv(state, L.TrySection(c), L.Apply(state, L.TrySection(c)));
      acquired := !locked;
      if !locked {
        locked := true;
      }
      state := L.Apply(state, L.TrySection(c));
    }

    /** The counter on entry to the critical section. */
    method Enter(c: nat)
      requires Valid() && L.Enabled(state, L.Enter(c))
      modifies this
      ensures Valid() && state == L.Apply(old(state), L.Enter(c))
    {
      L.StepInv(state, L.Enter(c), L.Apply(state, L.Enter(c)));
      assert count == 0 by {
        assert L.Owns(state.at[c]);
      }
      count := count + 1;
      state := L.Apply(state, L.Enter(c));
    }

    /** unlock, by the holder or of a free lock, which is refused; returns the waiter to be retried, if any. */
    method Unlock(c: nat) returns (refused: bool, awaiter: S.Node?)
      requires Valid() && (L.Enabled(state, L.UnlockSection(c)) || L.Enabled(state, L.UnlockNotOwned(c)))
      modifies this, awaiters
      ensures Valid() && (refused <==> !old(locked)) && !locked
      ensures state == L.Apply(old(state), if refused then L.UnlockNotOwned(c) else L.UnlockSection(c))
      ensures awaiter == null <==> refused || old(state.awaiters) == []
      ensures awaiter != null ==> awaiter.id == old(state.awaiters[0])
    {
      if !locked {
        HolderHasLock(state, c);
        return true, null;
      }
      L.StepInv(state, L.UnlockSection(c), L.Apply(state, L.UnlockSection(c)));
      HolderHasLock(state, c);
      locked := false;
      assert count == 1;
      count := count - 1;
      awaiter := awaiters.PopFront();
      state := L.Apply(state, L.UnlockSection(c));
      refused := false;
    }

    /** The section after a failed resume_on. */
    method FailSection(c: nat) returns (awaiter: S.Node?)
      requires Valid() && L.Enabled(state, L.FailSection(c))
      modifies this, awaiters
      ensures Valid() && state == L.Apply(old(state), L.FailSection(c))
      ensures awaiter == null <==> old(state.awaiters) == []
      ensures awaiter != null ==> awaiter.id == old(state.awaiters[0])
    {
      L.StepInv(state, L.FailSection(c), L.Apply(state, L.FailSection(c)));
      assert locked by {
        assert L.Owns(state.at[c]);
      }
      locked := false;
      awaiter := awaiters.PopFront();
      state := L.Apply(state, L.FailSection(c));
    }
  }

  lemma HolderHasLock(s: L.State, c: nat)
    requires L.Inv(s) && c < |s.at|
    ensures s.at[c] == L.Holding ==> s.locked && s.count == 1
  {
    assert s.at[c] == L.Holding ==> L.Owns(s.at[c]);
  }
}
