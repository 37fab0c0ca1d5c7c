/** Signals: ordered lists of receivers that are called when an event is sent. */
module Events {
  import opened Common

  /** Position of the first occurrence of `x` in `s`. */
  function IndexOf<R(==)>(s: seq<R>, x: R): (k: nat)
    requires x in s
    ensures k < |s| && s[k] == x && x !in s[..k]
  {
    if s[0] == x then 0 else 1 + IndexOf(s[1..], x)
  }

  /** `list.remove(x)` guarded by `x in list`: drops the first occurrence, if any. */
  function RemoveFirst<R(==)>(s: seq<R>, x: R): (r: seq<R>)
    ensures x !in s ==> r == s
    ensures x in s ==> r == s[..IndexOf(s, x)] + s[IndexOf(s, x) + 1..]
  {
    if s == [] then []
    else if s[0] == x then s[1..]
    else
      var t := s[1..];
      assert s == [s[0]] + t;
      if x in t then
        var k := IndexOf(t, x);
        assert s[..k + 1] == [s[0]] + t[..k] && s[k + 2..] == t[k + 1..];
        [s[0]] + RemoveFirst(t, x)
      else
        [s[0]] + RemoveFirst(t, x)
  }

  /** Removal takes away exactly one copy of a receiver that is present. */
  lemma {:induction false} RemoveFirstCount<R>(s: seq<R>, x: R)
    ensures multiset(RemoveFirst(s, x)) == multiset(s) - multiset{x}
  {
    if s != [] {
      assert s == [s[0]] + s[1..];
      if s[0] != x {
        RemoveFirstCount(s[1..], x);
      }
    }
  }

  /** Removing a receiver that was just added, and not there before, gives back the old list. */
  lemma {:induction false} RemoveUndoesAdd<R>(s: seq<R>, x: R)
    requires x !in s
    ensures RemoveFirst(s + [x], x) == s
  {
    if s != [] {
      assert (s + [x])[1..] == s[1..] + [x];
      RemoveUndoesAdd(s[1..], x);
    }
  }

  /** The receivers among `s` that raise, in list order. */
  function Raising<R>(s: seq<R>, raises: R -> bool): (r: seq<R>)
    ensures |r| <= |s|
    ensures forall i :: 0 <= i < |r| ==> raises(r[i]) && r[i] in s
  {
    if s == [] then []
    else if raises(s[0]) then [s[0]] + Raising(s[1..], raises)
    else Raising(s[1..], raises)
  }

  lemma RaisingAppend<R>(s: seq<R>, x: R, raises: R -> bool)
    ensures Raising(s + [x], raises) == Raising(s, raises) + (if raises(x) then [x] else [])
  {
    if s != [] {
      assert (s + [x])[1..] == s[1..] + [x];
    }
  }

  class Signal<R(==)> {
    var receivers: seq<R>

    constructor ()
      ensures receivers == []
    {
      receivers := [];
    }

    /** Appends; the same receiver may be added more than once. */
    method AddReceiver(r: R)
      modifies this
      ensures receivers == old(receivers) + [r]
    {
      receivers := receivers + [r];
    }

    method RemoveReceiver(r: R)
      modifies this
      ensures receivers == RemoveFirst(old(receivers), r)
    {
      if r in receivers {
        receivers := RemoveFirst(receivers, r);
      }
    }

    /** Calls the receivers in list order; the first one that raises stops
        the loop and its exception reaches the caller. `raises` says which
        receivers raise for the event being sent. */
    method Send(raises: R -> bool) returns (called: seq<R>, raised: Option<R>)
      ensures |called| <= |receivers| && called == receivers[..|called|]
      ensures forall i :: 0 <= i < |called| - 1 ==> !raises(called[i])
      ensures raised.None? ==> called == receivers && forall i :: 0 <= i < |called| ==> !raises(called[i])
      ensures raised.Some? ==> |called| > 0 && raised.value == called[|called| - 1] && raises(raised.value)
    {
      called, raised := [], None;
      var i := 0;
      while i < |receivers|
        invariant 0 <= i <= |receivers|
        invariant called == receivers[..i]
        invariant forall j :: 0 <= j < i ==> !raises(receivers[j])
      {
        called := called + [receivers[i]];
        if raises(receivers[i]) {
          raised := Some(receivers[i]);
          return;
        }
        i := i + 1;
      }
    }

    /** Calls every receiver in list order; an exception is logged and the
        loop goes on. Returns the receivers called and those that raised. */
    method SendRobust(raises: R -> bool) returns (called: seq<R>, logged: seq<R>)
      ensures called == receivers
      ensures logged == Raising(receivers, raises)
    {
      called, logged := [], [];
      var i := 0;
      while i < |receivers|
        invariant 0 <= i <= |receivers|
        invariant called == receivers[..i]
        invariant logged == Raising(receivers[..i], raises)
      {
        called := called + [receivers[i]];
        RaisingAppend(receivers[..i], receivers[i], raises);
        assert receivers[..i + 1] == receivers[..i] + [receivers[i]];
        if raises(receivers[i]) {
          logged := logged + [receivers[i]];
        }
        i := i + 1;
      }
      assert receivers[..i] == receivers;
    }
  }
}
