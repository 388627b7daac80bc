/** The bounded exit-handler stack.  Calls to `atexit` made by the engine
    are redirected to a fixed table of 32 handlers so that shutdown can run
    them without ending the process; they run newest first. */
module AtExit {

  /** Identity of a `cleanup_fn`. */
  type Handler = nat

  const MaxHandlers: nat := 32

  /** The first element of `s` last. */
  function Reversed<T>(s: seq<T>): (r: seq<T>)
    ensures |r| == |s|
    ensures forall i :: 0 <= i < |s| ==> r[i] == s[|s| - 1 - i]
  {
    if |s| == 0 then [] else Reversed(s[1..]) + [s[0]]
  }

  /** A handler registered after `s` is the first one run. */
  lemma {:induction false} ReversedAppend<T>(s: seq<T>, x: T)
    ensures Reversed(s + [x]) == [x] + Reversed(s)
  {
    var l := s + [x];
    assert Reversed(l)[0] == x;
    assert forall i :: 1 <= i < |l| ==> Reversed(l)[i] == Reversed(s)[i - 1];
  }

  lemma {:induction false} ReversedTwice<T>(s: seq<T>)
    ensures Reversed(Reversed(s)) == s
  {
    var r := Reversed(s);
    assert forall i :: 0 <= i < |s| ==> Reversed(r)[i] == r[|s| - 1 - i];
  }

  /** `handlers[32]` and `handler_count`. */
  class AtExitStack {
    const handlers: array<Handler>
    var count: nat

    ghost predicate Valid()
      reads this
    {
      handlers.Length == MaxHandlers && count <= MaxHandlers
    }

    /** The handlers registered so far, oldest first. */
    function Registered(): seq<Handler>
      reads this, handlers
      requires Valid()
    {
      handlers[..count]
    }

    constructor ()
      ensures Valid() && Registered() == []
    {
      handlers := new Handler[MaxHandlers];
      count := 0;
    }

    /** `__wrap_atexit`: -1 and no change when 32 handlers are held;
        otherwise the handler is appended and 0 returned. */
    method Register(f: Handler) returns (rc: int)
      requires Valid()
      modifies this, handlers
      ensures Valid()
      ensures old(count) >= MaxHandlers ==> rc == -1 && Registered() == old(Registered())
      ensures old(count) < MaxHandlers ==> rc == 0 && Registered() == old(Registered()) + [f]
    {
      if count >= MaxHandlers {
        return -1;
      }
      handlers[count] := f;
      count := count + 1;
      rc := 0;
    }

    /** `execute_atexit`: call every handler from the newest down to the
        oldest, then forget them all.  `called` is the order of the calls. */
    method Execute() returns (called: seq<Handler>)
      requires Valid()
      modifies this
      ensures Valid() && count == 0 && Registered() == []
      ensures called == Reversed(old(Registered()))
    {
      ghost var s := handlers[..count];
      called := [];
      var i: int := count - 1;
      while i >= 0
        invariant -1 <= i < |s| == count <= handlers.Length
        invariant s == handlers[..count]
        invariant called == Reversed(s[i + 1..])
      {
        assert s[i..] == [s[i]] + s[i + 1..];
        ReversedPrepend(s[i], s[i + 1..]);
        called := called + [handlers[i]];
        i := i - 1;
      }
      count := 0;
    }
  }

  lemma ReversedPrepend<T>(x: T, s: seq<T>)
    ensures Reversed([x] + s) == Reversed(s) + [x]
  {
    assert ([x] + s)[1..] == s;
  }
}
