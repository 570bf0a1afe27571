/**
 * What a client of `Function` can rely on, stated over whole sequences of
 * wrapper operations: value independence of copies, transfer on move,
 * exchange on swap and the effect of each assignment.
 */
module WrapperProperties {
  import opened Callables
  import opened TypeErasure

  /**
   * A client calling `f` once with each argument of `xs`, in order: the
   * answers and the payload's final state are those of `Run`, and only the
   * payload owned by `f` changes.
   */
  method CallAll(f: Function, xs: seq<int>) returns (rs: seq<int>)
    requires f.Live()
    modifies f.mConcept
    ensures f.mConcept == old(f.mConcept)
    ensures rs == Run(old(f.mConcept.mObject), xs).results
    ensures f.mConcept.mObject == Run(old(f.mConcept.mObject), xs).final
  {
    ghost var p := f.mConcept.mObject;
    rs := [];
    var i := 0;
    while i < |xs|
      invariant 0 <= i <= |xs|
      invariant f.mConcept == old(f.mConcept)
      invariant rs == Run(p, xs[..i]).results
      invariant f.mConcept.mObject == Run(p, xs[..i]).final
    {
      var r := f.Call(xs[i]);
      RunAppend(p, xs[..i], [xs[i]]);
      assert [xs[i]][1..] == [];
      assert xs[..i + 1] == xs[..i] + [xs[i]];
      rs := rs + [r];
      i := i + 1;
    }
    assert xs[..|xs|] == xs;
  }

  /**
   * Value independence: after `b` is copied from `a`, any calls on `a`
   * followed by any calls on `b` leave each answering, and ending, exactly as
   * the original payload would on its own sequence of calls.
   */
  method CopyIsIndependent(p: Payload, xs: seq<int>, ys: seq<int>)
    returns (ra: seq<int>, rb: seq<int>, pa: Payload, pb: Payload)
    ensures ra == Run(p, xs).results && pa == Run(p, xs).final
    ensures rb == Run(p, ys).results && pb == Run(p, ys).final
  {
    var a := new Function(p);
    var b := new Function.Copy(a);
    ra := CallAll(a, xs);
    rb := CallAll(b, ys);
    pa, pb := a.mConcept.mObject, b.mConcept.mObject;
  }

  /**
   * Move construction from a live `source`: `target` holds the very model
   * `source` owned (nothing was allocated), a call on it answers and
   * advances as the source's payload would, and `source` is left empty.
   */
  method MoveTransfers(source: Function, x: int) returns (r: int, target: Function)
    requires source.Live()
    modifies source, source.mConcept
    ensures target.mConcept == old(source.mConcept)
    ensures !source.Live()
    ensures r == Apply(old(source.mConcept.mObject), x).result
    ensures target.mConcept.mObject == Apply(old(source.mConcept.mObject), x).next
  {
    target := new Function.Move(source);
    r := target.Call(x);
  }

  /** Swap: each wrapper then answers, and advances, as the other one did. */
  method SwapExchanges(p: Payload, q: Payload, x: int)
    returns (ra: int, rb: int, pa: Payload, pb: Payload)
    ensures ra == Apply(q, x).result && pa == Apply(q, x).next
    ensures rb == Apply(p, x).result && pb == Apply(p, x).next
  {
    var a := new Function(p);
    var b := new Function(q);
    Swap(a, b);
    ra := a.Call(x);
    rb := b.Call(x);
    pa, pb := a.mConcept.mObject, b.mConcept.mObject;
  }

  /**
   * Copy assignment `a = b`: `a` answers as `b`'s payload and owns its own
   * copy of it, so calling `a` leaves `b`'s payload as it was.
   */
  method CopyAssignIsIndependent(p: Payload, q: Payload, x: int) returns (ra: int, pb: Payload)
    ensures ra == Apply(q, x).result
    ensures pb == q
  {
    var a := new Function(p);
    var b := new Function(q);
    var _ := a.CopyAssign(b);
    ra := a.Call(x);
    pb := b.mConcept.mObject;
  }

  /** Self copy assignment `a = a` keeps `a` usable and holding the same payload. */
  method SelfCopyAssign(p: Payload, x: int) returns (pa: Payload, r: int)
    ensures pa == p
    ensures r == Apply(p, x).result
  {
    var a := new Function(p);
    var _ := a.CopyAssign(a);
    pa := a.mConcept.mObject;
    r := a.Call(x);
  }

  /**
   * Move assignment `a = move(b)`: the handles are exchanged, so neither
   * wrapper is left empty and `b` now answers, and advances, as `a` did.
   */
  method MoveAssignExchanges(p: Payload, q: Payload, x: int)
    returns (ra: int, rb: int, pa: Payload, pb: Payload)
    ensures ra == Apply(q, x).result && pa == Apply(q, x).next
    ensures rb == Apply(p, x).result && pb == Apply(p, x).next
  {
    var a := new Function(p);
    var b := new Function(q);
    a.MoveAssign(b);
    ra := a.Call(x);
    rb := b.Call(x);
    pa, pb := a.mConcept.mObject, b.mConcept.mObject;
  }

  /**
   * Assignment from a payload: the wrapper answers as the new payload, and a
   * copy made before the assignment still holds and answers as the old one.
   */
  method AssignReplacesPayload(p: Payload, q: Payload, x: int)
    returns (ra: int, rc: int, pa: Payload, pc: Payload)
    ensures ra == Apply(q, x).result && pa == Apply(q, x).next
    ensures rc == Apply(p, x).result && pc == Apply(p, x).next
  {
    var a := new Function(p);
    var c := new Function.Copy(a);
    var _ := a.Assign(q);
    ra := a.Call(x);
    rc := c.Call(x);
    pa, pc := a.mConcept.mObject, c.mConcept.mObject;
  }

  /**
   * The counting functor boxed from a named object: the wrapper boxes a copy,
   * so calling it with 1 returns 1 and bumps the boxed counter from 5 to 15
   * while the named functor keeps its counter at 5.
   */
  method BoxedFunctorIsACopy() returns (r: int, original: Payload, boxed: Payload)
    ensures r == 1
    ensures original == Counter(5) && boxed == Counter(15)
  {
    var fun := Counter(5);
    var o2 := new Function(fun);
    r := o2.Call(1);
    original, boxed := fun, o2.mConcept.mObject;
  }
}
