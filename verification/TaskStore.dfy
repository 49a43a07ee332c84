/**
 The representation of concurrencpp::task: a vtable pointer and a buffer that holds the callable itself or a pointer to
 it, with the shortcuts the source takes for its own functors and for trivial callables. Every operation is proved to do
 what TaskOwnership says about it, whichever path it takes.
 */
module TaskStore {
  import opened TaskOwnership

  predicate Inlinable(kind: Kind) {
    !kind.Callable? || kind.inlinable
  }

  /** make_vtable leaves move_destroy_fn null: a bytewise copy does. */
  predicate MoveIsNull(kind: Kind) {
    kind.Callable? && kind.triviallyCopyable && kind.triviallyDestructible && kind.inlinable
  }

  predicate DestroyIsNull(kind: Kind) {
    kind.Callable? && kind.triviallyDestructible && kind.inlinable
  }

  datatype Owned = Nothing | Owns(id: nat)

  /** A callable object; moving from it leaves it owning nothing. `armed`: m_interrupted of an await_via_functor is set. */
  datatype Object = Object(kind: Kind, owned: Owned, armed: bool)

  datatype Buffer = Bytes | Inline(callable: Object) | Pointer(address: nat) | NullPointer

  datatype Vtable = Null | Of(kind: Kind)

  datatype Cell = Cell(vtable: Vtable, buffer: Buffer)

  function Fresh(kind: Kind, id: nat): Object {
    Object(kind, Owns(id), kind == AwaitVia)
  }

  /** What the destructor of an object will do: drop what it owns, unless an invocation has dealt with the coroutine. */
  function Remaining(o: Object): seq<Effect> {
    match o.owned
    case Nothing => []
    case Owns(id) => if o.kind == AwaitVia && !o.armed then [Released(id)] else DropEffects(Full(o.kind, id))
  }

  /** The buffer, with the heap behind it, holds an untouched callable. */
  ghost predicate Live(b: Buffer, heap: map<nat, Object>, kind: Kind, id: nat) {
    if Inlinable(kind) then b == Inline(Fresh(kind, id))
    else b.Pointer? && b.address in heap && heap[b.address] == Fresh(kind, id)
  }

  /** The cell of task i represents what the task holds. */
  ghost predicate Fits(c: Cell, v: Content, heap: map<nat, Object>, owner: map<nat, nat>, i: nat) {
    && (c.vtable == Null <==> v == Empty)
    && (v.Full? ==> c.vtable == Of(v.kind) && Live(c.buffer, heap, v.kind, v.id))
    && (v.Full? && !Inlinable(v.kind) ==> c.buffer.address in owner && owner[c.buffer.address] == i)
  }

  /** The heap object belongs to task i; as each has just one owner, none is shared and none has leaked. */
  ghost predicate Belongs(a: nat, cells: seq<Cell>, view: seq<Content>, i: nat) {
    && i < |cells| == |view| && view[i].Full? && !Inlinable(view[i].kind)
    && cells[i].buffer == Pointer(a)
  }

  ghost predicate AllFit(cells: seq<Cell>, view: seq<Content>, heap: map<nat, Object>, owner: map<nat, nat>,
                         nextAddress: nat)
  {
    && |cells| == |view| && owner.Keys == heap.Keys
    && (forall i :: 0 <= i < |cells| ==> Fits(cells[i], view[i], heap, owner, i))
    && (forall a :: a in owner ==> a < nextAddress && Belongs(a, cells, view, owner[a]))
  }

  /** Moving what task j holds into task i keeps the representation. */
  lemma MoveFits(cells: seq<Cell>, cells': seq<Cell>, view: seq<Content>, heap: map<nat, Object>, owner: map<nat, nat>,
                 nextAddress: nat, i: nat, j: nat)
    requires AllFit(cells, view, heap, owner, nextAddress)
    requires i < |cells| == |cells'| && j < |cells| && i != j && view[i] == Empty && view[j].Full?
    requires cells'[i] == cells[j] && cells'[j].vtable == Null
    requires forall k :: 0 <= k < |cells| && k != i && k != j ==> cells'[k] == cells[k]
    ensures var owner' := if Inlinable(view[j].kind) then owner else owner[cells[j].buffer.address := i];
            AllFit(cells', Moved(view, i, j), heap, owner', nextAddress)
  {
    assert Fits(cells[j], view[j], heap, owner, j);
  }

  /** A map from addresses without the entry of a cell that gives up its callable. */
  ghost function Without<T>(m: map<nat, T>, c: Cell, kind: Kind): map<nat, T> {
    if !Inlinable(kind) && c.buffer.Pointer? then m - {c.buffer.address} else m
  }

  lemma DropFits(cells: seq<Cell>, cells': seq<Cell>, view: seq<Content>, heap: map<nat, Object>, owner: map<nat, nat>,
                 nextAddress: nat, i: nat)
    requires AllFit(cells, view, heap, owner, nextAddress)
    requires i < |cells| == |cells'| && view[i].Full? && cells'[i].vtable == Null
    requires forall k :: 0 <= k < |cells| && k != i ==> cells'[k] == cells[k]
    ensures var kind := view[i].kind;
            AllFit(cells', view[i := Empty], Without(heap, cells[i], kind), Without(owner, cells[i], kind), nextAddress)
  {
    assert Fits(cells[i], view[i], heap, owner, i);
  }

  lemma BuildFits(cells: seq<Cell>, view: seq<Content>, heap: map<nat, Object>, owner: map<nat, nat>, nextAddress: nat,
                  i: nat, kind: Kind, id: nat)
    requires AllFit(cells, view, heap, owner, nextAddress) && i < |cells| && view[i] == Empty
    ensures Inlinable(kind) ==>
      AllFit(cells[i := Cell(Of(kind), Inline(Fresh(kind, id)))], view[i := Full(kind, id)], heap, owner, nextAddress)
    ensures !Inlinable(kind) ==>
      AllFit(cells[i := Cell(Of(kind), Pointer(nextAddress))], view[i := Full(kind, id)],
             heap[nextAddress := Fresh(kind, id)], owner[nextAddress := i], nextAddress + 1)
  {
  }

  class Store {
    var cells: seq<Cell>
    var heap: map<nat, Object>
    var nextAddress: nat
    var log: seq<Effect>

    /** What each task holds, and which task owns each heap object. */
    ghost var view: seq<Content>
    ghost var owner: map<nat, nat>

    ghost predicate Valid()
      reads this
    {
      AllFit(cells, view, heap, owner, nextAddress)
    }

    constructor ()
      ensures Valid() && view == [] && log == []
    {
      cells, heap, nextAddress, log, view, owner := [], map[], 0, [], [], map[];
    }

    /** task(): a new empty task. */
    method Default() returns (i: nat)
      requires Valid()
      modifies this
      ensures Valid() && i == |old(view)| && view == old(view) + [Empty] && log == old(log)
    {
      i := |cells|;
      cells, view := cells + [Cell(Null, Bytes)], view + [Empty];
    }

    // ---------- the functors ----------

    /** The destructor of a callable object. */
    method Destruct(o: Object)
      modifies this`log
      ensures log == old(log) + Remaining(o)
    {
      if o.owned.Owns? {
        if o.kind == AwaitVia && o.armed {
          log := log + [Resumed(o.owned.id, true)];
        }
        log := log + [Released(o.owned.id)];
      }
    }

    /**
     operator() of a callable object: a coroutine handle is given away, an await_via_functor is disarmed. What the
     object's destructor still does then completes exactly one invocation.
     */
    method Call(o: Object) returns (o': Object)
      requires o.owned.Owns? && o == Fresh(o.kind, o.owned.id)
      modifies this`log
      ensures log + Remaining(o') == old(log) + InvokeEffects(Full(o.kind, o.owned.id))
      ensures old(log) + [Invoked(o.owned.id)] <= log
    {
      o' := o;
      log := log + [Invoked(o.owned.id)];
      match o.kind {
        case CoroutineHandle =>
          o' := o.(owned := Nothing);
          log := log + [Released(o.owned.id)];
        case AwaitVia =>
          o' := o.(armed := false);
          log := log + [Resumed(o.owned.id, false)];
        case Callable(_, _, _) =>
      }
    }

    /** Calling and then destroying has the effects of an invocation. */
    method CallAndDestruct(o: Object, ghost id: nat)
      requires o == Fresh(o.kind, id)
      modifies this`log
      ensures log == old(log) + InvokeEffects(Full(o.kind, id))
    {
      var o' := Call(o);
      Destruct(o');
    }

    // ---------- callable_vtable ----------

    ghost predicate OnlyBuffers(before: seq<Cell>, i: nat, j: nat)
      requires i < |before| && j < |before|
      reads this
    {
      && |cells| == |before| && cells[i].vtable == before[i].vtable && cells[j].vtable == before[j].vtable
      && forall k :: 0 <= k < |cells| && k != i && k != j ==> cells[k] == before[k]
    }

    /** move_destroy: the callable is in the destination and the source's remains own nothing. */
    method MoveDestroy(kind: Kind, src: nat, dst: nat, ghost id: nat)
      requires src < |cells| && dst < |cells| && src != dst && Live(cells[src].buffer, heap, kind, id)
      modifies this`cells, this`log
      ensures OnlyBuffers(old(cells), src, dst) && cells[dst].buffer == old(cells[src].buffer) && log == old(log)
    {
      if Inlinable(kind) {
        var o := cells[src].buffer.callable;
        cells := cells[dst := cells[dst].(buffer := Inline(o))];
        Destruct(o.(owned := Nothing, armed := false));
        cells := cells[src := cells[src].(buffer := Bytes)];
      } else {
        var p := cells[src].buffer;
        cells := cells[src := cells[src].(buffer := NullPointer)];
        cells := cells[dst := cells[dst].(buffer := p)];
      }
    }

    /** The four ways of task::build to move a callable; each does what the generic move_destroy does. */
    method MoveBuffer(kind: Kind, src: nat, dst: nat, ghost id: nat)
      requires src < |cells| && dst < |cells| && src != dst && Live(cells[src].buffer, heap, kind, id)
      modifies this`cells, this`log
      ensures OnlyBuffers(old(cells), src, dst) && cells[dst].buffer == old(cells[src].buffer) && log == old(log)
    {
      if kind == CoroutineHandle {
        MoveDestroy(CoroutineHandle, src, dst, id);
      } else if kind == AwaitVia {
        MoveDestroy(AwaitVia, src, dst, id);
      } else if MoveIsNull(kind) {
        cells := cells[dst := cells[dst].(buffer := cells[src].buffer)];
      } else {
        MoveDestroy(kind, src, dst, id);
      }
    }

    /** execute_destroy */
    method ExecuteDestroy(kind: Kind, i: nat, ghost id: nat)
      requires i < |cells| && Live(cells[i].buffer, heap, kind, id)
      modifies this`cells, this`heap, this`log
      ensures OnlyBuffers(old(cells), i, i) && log == old(log) + InvokeEffects(Full(kind, id))
      ensures heap == Without(old(heap), old(cells[i]), kind)
    {
      if Inlinable(kind) {
        CallAndDestruct(cells[i].buffer.callable, id);
        cells := cells[i := cells[i].(buffer := Bytes)];
      } else {
        var a := cells[i].buffer.address;
        CallAndDestruct(heap[a], id);
        heap := heap - {a};
      }
    }

    /** destroy */
    method DestroyCallable(kind: Kind, i: nat, ghost id: nat)
      requires i < |cells| && Live(cells[i].buffer, heap, kind, id)
      modifies this`cells, this`heap, this`log
      ensures OnlyBuffers(old(cells), i, i) && log == old(log) + DropEffects(Full(kind, id))
      ensures heap == Without(old(heap), old(cells[i]), kind)
    {
      if Inlinable(kind) {
        Destruct(cells[i].buffer.callable);
        cells := cells[i := cells[i].(buffer := Bytes)];
      } else {
        var a := cells[i].buffer.address;
        Destruct(heap[a]);
        heap := heap - {a};
      }
    }

    // ---------- task ----------

    /** task(callable) */
    method Build(i: nat, kind: Kind, id: nat)
      requires Valid() && i < |view| && view[i] == Empty
      modifies this
      ensures Valid() && view == old(view)[i := Full(kind, id)] && log == old(log)
    {
      BuildFits(cells, view, heap, owner, nextAddress, i, kind, id);
      if Inlinable(kind) {
        cells := cells[i := Cell(Of(kind), Inline(Fresh(kind, id)))];
      } else {
        heap, owner := heap[nextAddress := Fresh(kind, id)], owner[nextAddress := i];
        cells := cells[i := Cell(Of(kind), Pointer(nextAddress))];
        nextAddress := nextAddress + 1;
      }
      view := view[i := Full(kind, id)];
    }

    /** task(task&&) and the second half of operator=. */
    method BuildFrom(i: nat, j: nat)
      requires Valid() && i < |view| && j < |view| && i != j && view[i] == Empty
      modifies this
      ensures Valid() && view == Moved(old(view), i, j) && log == old(log)
    {
      var vtable := cells[j].vtable;
      cells := cells[j := cells[j].(vtable := Null)];
      cells := cells[i := cells[i].(vtable := vtable)];
      if vtable == Null {
        assert Moved(view, i, j) == view;
        return;
      }
      ghost var id := view[j].id;
      ghost var before := old(cells);
      MoveBuffer(vtable.kind, j, i, id);
      MoveFits(before, cells, view, heap, owner, nextAddress, i, j);
      if !Inlinable(vtable.kind) {
        owner := owner[cells[i].buffer.address := i];
      }
      view := Moved(view, i, j);
    }

    /** operator() */
    method Invoke(i: nat)
      requires Valid() && i < |view|
      modifies this
      ensures Valid() && view == old(view)[i := Empty] && log == old(log) + InvokeEffects(old(view[i]))
    {
      var vtable := cells[i].vtable;
      cells := cells[i := cells[i].(vtable := Null)];
      if vtable == Null {
        assert view[i := Empty] == view;
        return;
      }
      ghost var id := view[i].id;
      if vtable.kind == CoroutineHandle {
        ExecuteDestroy(CoroutineHandle, i, id);
      } else if vtable.kind == AwaitVia {
        ExecuteDestroy(AwaitVia, i, id);
      } else {
        ExecuteDestroy(vtable.kind, i, id);
      }
      DropFits(old(cells), cells, view, old(heap), owner, nextAddress, i);
      owner := Without(owner, old(cells[i]), vtable.kind);
      view := view[i := Empty];
    }

    /** clear, which is also the destructor. A trivial callable is let go of without calling anything. */
    method Clear(i: nat)
      requires Valid() && i < |view|
      modifies this
      ensures Valid() && view == old(view)[i := Empty] && log == old(log) + DropEffects(old(view[i]))
    {
      if cells[i].vtable == Null {
        assert view[i := Empty] == view;
        return;
      }
      var vtable := cells[i].vtable;
      cells := cells[i := cells[i].(vtable := Null)];
      ghost var id := view[i].id;
      if vtable.kind == CoroutineHandle {
        DestroyCallable(CoroutineHandle, i, id);
      } else if vtable.kind == AwaitVia {
        DestroyCallable(AwaitVia, i, id);
      } else if DestroyIsNull(vtable.kind) {
        log := log + [Released(cells[i].buffer.callable.owned.id)];
      } else {
        DestroyCallable(vtable.kind, i, id);
      }
      DropFits(old(cells), cells, view, old(heap), owner, nextAddress, i);
      owner := Without(owner, old(cells[i]), vtable.kind);
      view := view[i := Empty];
    }

    /** operator=(task&&) */
    method Assign(i: nat, j: nat)
      requires Valid() && i < |view| && j < |view|
      modifies this
      ensures Valid() && view == Moved(old(view), i, j)
      ensures log == old(log) + (if i == j then [] else DropEffects(old(view[i])))
    {
      if i == j {
        return;
      }
      Clear(i);
      BuildFrom(i, j);
    }
  }
}
