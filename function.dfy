/**
 * The type-erased callable wrapper `Function<int(int)>`.
 *
 * A `Function` owns one heap handle `mConcept` to a `Model`, which boxes one
 * payload by value. Copying a `Function` clones the model (a fresh object),
 * moving it hands the same model over and leaves the source empty (a null
 * handle), and both assignments go through a temporary that is swapped in.
 */
module TypeErasure {
  import opened Callables

  /**
   * The erased handle together with its only implementation: it holds the
   * payload `mObject`, can clone itself and can be called.
   */
  class Model {
    var mObject: Payload

    /** Boxes `payload`. */
    constructor (payload: Payload)
      ensures mObject == payload
    {
      mObject := payload;
    }

    /** A new model holding a copy of this one's payload. */
    method Clone() returns (c: Model)
      ensures fresh(c)
      ensures c.mObject == mObject
    {
      c := new Model(mObject);
    }

    /** Calls the payload; the call may update the payload's own state and nothing else. */
    method Invoke(x: int) returns (r: int)
      modifies this
      ensures r == Apply(old(mObject), x).result
      ensures mObject == Apply(old(mObject), x).next
    {
      var s := Apply(mObject, x);
      r, mObject := s.result, s.next;
    }
  }

  class Function {
    /** The owned handle; null only after this wrapper was moved from. */
    var mConcept: Model?

    /** The wrapper still owns a model, that is, it has not been moved from. */
    predicate Live()
      reads this
    {
      mConcept != null
    }

    /** Copy construction: the new wrapper owns a fresh clone of `other`'s model. */
    constructor Copy(other: Function)
      requires other.Live()
      ensures Live() && fresh(mConcept)
      ensures mConcept.mObject == other.mConcept.mObject
      ensures other.mConcept == old(other.mConcept)
      ensures other.mConcept.mObject == old(other.mConcept.mObject)
    {
      var clone := other.mConcept.Clone();
      mConcept := clone;
    }

    /** Move construction: the new wrapper takes `other`'s very handle and `other` is emptied. */
    constructor Move(other: Function)
      modifies other
      ensures mConcept == old(other.mConcept)
      ensures other.mConcept == null
    {
      mConcept := other.mConcept;
      new;
      other.mConcept := null;
    }

    /** Construction from a payload: boxes it in one fresh model. */
    constructor (payload: Payload)
      ensures Live() && fresh(mConcept)
      ensures mConcept.mObject == payload
    {
      var model := new Model(payload);
      mConcept := model;
    }

    /**
     * Copy assignment: a clone of `other`'s model is built in a temporary
     * first and then swapped in, so this wrapper changes only through the swap.
     * Its previous model ends up in the temporary (`released`).
     */
    method CopyAssign(other: Function) returns (ghost released: Model?)
      requires other.Live()
      modifies this
      ensures Live() && fresh(mConcept)
      ensures mConcept.mObject == old(other.mConcept.mObject)
      ensures other != this ==> other.mConcept == old(other.mConcept)
      ensures other.mConcept.mObject == old(other.mConcept.mObject)
      ensures released == old(mConcept)
    {
      var temp := new Function.Copy(other);
      assert mConcept == old(mConcept);  // the clone exists and the target is still untouched
      Swap(temp);
      released := temp.mConcept;
    }

    /** Move assignment: the two wrappers exchange their handles; nothing is allocated. */
    method MoveAssign(other: Function)
      modifies this, other
      ensures mConcept == old(other.mConcept)
      ensures other.mConcept == old(mConcept)
    {
      Swap(other);
    }

    /**
     * Assignment from a payload: a temporary wrapper boxing `payload` is built
     * first and then swapped in; the previous model ends up in the temporary.
     */
    method Assign(payload: Payload) returns (ghost released: Model?)
      modifies this
      ensures Live() && fresh(mConcept)
      ensures mConcept.mObject == payload
      ensures released == old(mConcept)
    {
      var temp := new Function(payload);
      assert mConcept == old(mConcept);  // the new model exists and the target is still untouched
      Swap(temp);
      released := temp.mConcept;
    }

    /**
     * The call operator: forwards to the owned model. The handle itself is
     * not changed; only the payload's own state may be.
     */
    method Call(x: int) returns (r: int)
      requires Live()
      modifies mConcept
      ensures mConcept == old(mConcept)
      ensures r == Apply(old(mConcept.mObject), x).result
      ensures mConcept.mObject == Apply(old(mConcept.mObject), x).next
    {
      r := mConcept.Invoke(x);
    }

    /** Exchanges the two wrappers' handles and nothing else. */
    method Swap(other: Function)
      modifies this, other
      ensures mConcept == old(other.mConcept)
      ensures other.mConcept == old(mConcept)
    {
      var temp := mConcept;
      mConcept := other.mConcept;
      other.mConcept := temp;
    }
  }

  /** The free `swap`: the same exchange as `a.Swap(b)`. */
  method Swap(a: Function, b: Function)
    modifies a, b
    ensures a.mConcept == old(b.mConcept)
    ensures b.mConcept == old(a.mConcept)
  {
    a.Swap(b);
  }
}
