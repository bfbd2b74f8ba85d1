/**
  * The callback registry of `Ui` (lib.rs): closures the native library calls
  * back by id. `push_callback` boxes a closure and hands out its index in the
  * list; `add_callback` registers a closure that runs the user's `FnOnce` on
  * its first call only and puts its id into the draw list. `do_frame` starts
  * every frame with an empty list.
  *
  * What a user callback does is opaque: the model records which registered
  * closures ran their user code, in order.
  */
module Callbacks {
  /** One boxed closure of the callback list. */
  class Callback {
    /** The user's callback, by an opaque name. */
    const action: nat
    /**
      * True for the closure `add_callback` builds, which keeps the user's
      * `FnOnce` in an `Option` and takes it out on the first call.
      */
    const once: bool
    /** For a run-once closure: the `Option` still holds the user's callback. */
    var pending: bool

    /** A closure that runs the user's callback on every call (`FnMut`). */
    constructor Repeating(action: nat)
      ensures this.action == action && !once && !pending
    {
      this.action, once, pending := action, false, false;
    }

    /** The closure `add_callback` builds around `Some(cb)`. */
    constructor Once(action: nat)
      ensures this.action == action && once && pending
    {
      this.action, once, pending := action, true, true;
    }
  }

  /** How many entries of `s` are `x`. */
  function Count(s: seq<nat>, x: nat): nat
  {
    if s == [] then 0 else Count(s[..|s| - 1], x) + (if s[|s| - 1] == x then 1 else 0)
  }

  lemma CountAppend(s: seq<nat>, y: nat, x: nat)
    ensures Count(s + [y], x) == Count(s, x) + (if y == x then 1 else 0)
  {
    assert (s + [y])[..|s|] == s;
  }

  /** A value that no entry of `s` reaches occurs in it zero times. */
  lemma {:induction false} CountAbove(s: seq<nat>, n: nat)
    requires forall k :: 0 <= k < |s| ==> s[k] < n
    ensures Count(s, n) == 0
  {
    if s != [] {
      CountAbove(s[..|s| - 1], n);
    }
  }

  /** The ids `0, 1, …, n - 1`, in order. */
  function Ids(n: nat): (r: seq<nat>)
    ensures |r| == n && forall i :: 0 <= i < n ==> r[i] == i
  {
    seq(n, i => i)
  }

  /** The callback part of `Ui`. */
  class Ui {
    var callbacks: seq<Callback>
    /** The ids of the closures that ran their user callback, in the order they ran. */
    var ran: seq<nat>
    /** The ids `add_callback` put into the draw list with `ImDrawList_AddCallback`, in order. */
    var drawListCallbacks: seq<nat>

    /**
      * Every closure of the list is its own box, only listed closures ever
      * ran, and a run-once closure has run its user callback at most once,
      * and not at all while it still holds it.
      */
    ghost predicate Valid()
      reads this, callbacks
    {
      (forall i, j :: 0 <= i < j < |callbacks| ==> callbacks[i] != callbacks[j]) &&
      (forall k :: 0 <= k < |ran| ==> ran[k] < |callbacks|) &&
      (forall i :: 0 <= i < |callbacks| && callbacks[i].once ==>
        Count(ran, i) <= if callbacks[i].pending then 0 else 1)
    }

    /** The `Ui` that `do_frame` builds: an empty callback list. */
    constructor ()
      ensures Valid()
      ensures callbacks == [] && ran == [] && drawListCallbacks == []
    {
      callbacks, ran, drawListCallbacks := [], [], [];
    }

    /**
      * `push_callback`: appends the boxed closure and returns the length of
      * the list before the push, which is the closure's index.
      */
    method PushCallback(cb: Callback) returns (id: nat)
      requires Valid()
      requires cb !in callbacks && (cb.once ==> cb.pending)
      modifies this
      ensures Valid()
      ensures id == old(|callbacks|) && callbacks == old(callbacks) + [cb]
      ensures ran == old(ran) && drawListCallbacks == old(drawListCallbacks)
    {
      id := |callbacks|;
      CountAbove(ran, id);
      callbacks := callbacks + [cb];
      assert forall i :: 0 <= i < id ==> callbacks[i] == old(callbacks)[i];
    }

    /**
      * `add_callback`: registers a run-once closure around the user's
      * callback and puts its id into the draw list.
      */
    method AddCallback(action: nat) returns (id: nat)
      requires Valid()
      modifies this
      ensures Valid()
      ensures id == old(|callbacks|) && |callbacks| == id + 1 && callbacks[..id] == old(callbacks)
      ensures fresh(callbacks[id]) && callbacks[id].once && callbacks[id].pending && callbacks[id].action == action
      ensures drawListCallbacks == old(drawListCallbacks) + [id] && ran == old(ran)
    {
      var cb := new Callback.Once(action);
      id := PushCallback(cb);
      drawListCallbacks := drawListCallbacks + [id];
    }

    /**
      * `run_callback` on the closure `id` (the source indexes the list, so the
      * id must be in range): a repeating closure runs the user callback every
      * time; a run-once closure only while it still holds it, and gives it up.
      */
    method RunCallback(id: nat)
      requires Valid() && id < |callbacks|
      modifies this, callbacks[id]
      ensures Valid()
      ensures callbacks == old(callbacks) && drawListCallbacks == old(drawListCallbacks)
      ensures callbacks[id].once ==>
        !callbacks[id].pending && ran == old(ran) + if old(callbacks[id].pending) then [id] else []
      ensures !callbacks[id].once ==> ran == old(ran) + [id] && callbacks[id].pending == old(callbacks[id].pending)
    {
      var cb := callbacks[id];
      if cb.once {
        if cb.pending {
          cb.pending := false;
          forall i | 0 <= i < |callbacks| ensures Count(ran + [id], i) == Count(ran, i) + if i == id then 1 else 0 {
            CountAppend(ran, id, i);
          }
          ran := ran + [id];
        }
      } else {
        forall i | 0 <= i < |callbacks| ensures Count(ran + [id], i) == Count(ran, i) + if i == id then 1 else 0 {
          CountAppend(ran, id, i);
        }
        ran := ran + [id];
      }
    }

    /**
      * However often the native library calls a closure registered by
      * `add_callback`, the user's callback runs at most once: on the first
      * call, if it is still held.
      */
    method RunRepeatedly(id: nat, times: nat)
      requires Valid() && id < |callbacks| && callbacks[id].once
      modifies this, callbacks[id]
      ensures Valid()
      ensures callbacks == old(callbacks) && drawListCallbacks == old(drawListCallbacks)
      ensures ran == old(ran) + if old(callbacks[id].pending) && times > 0 then [id] else []
      ensures Count(ran, id) <= 1
    {
      var n := 0;
      while n < times
        invariant 0 <= n <= times
        invariant Valid() && callbacks == old(callbacks) && drawListCallbacks == old(drawListCallbacks)
        invariant n > 0 ==> !callbacks[id].pending
        invariant n == 0 ==> callbacks[id].pending == old(callbacks[id].pending)
        invariant ran == old(ran) + if old(callbacks[id].pending) && n > 0 then [id] else []
      {
        RunCallback(id);
        n := n + 1;
      }
    }
  }

  /**
    * A frame's `add_callback` calls on a fresh `Ui` put the ids 0, 1, 2, …
    * into the draw list, in order.
    */
  method FrameCallbacks(actions: seq<nat>) returns (ui: Ui)
    ensures fresh(ui) && ui.Valid()
    ensures ui.drawListCallbacks == Ids(|actions|) && |ui.callbacks| == |actions| && ui.ran == []
    ensures forall i :: 0 <= i < |actions| ==> ui.callbacks[i].action == actions[i] && ui.callbacks[i].pending
  {
    ui := new Ui();
    var i := 0;
    while i < |actions|
      invariant 0 <= i <= |actions|
      invariant fresh(ui) && ui.Valid()
      invariant ui.drawListCallbacks == Ids(i) && |ui.callbacks| == i && ui.ran == []
      invariant forall j :: 0 <= j < i ==> ui.callbacks[j].action == actions[j] && ui.callbacks[j].pending
    {
      var id := ui.AddCallback(actions[i]);
      i := i + 1;
    }
  }
}
