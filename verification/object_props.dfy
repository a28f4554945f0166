/** Properties of the list helpers and the primitive table. */
module ObjectProps {
  import opened Objects

  /** The list built from `v[i..]` flattens back to `v[i..]`; past the end
      it is the empty list. */
  lemma {:induction false} RawOfBuiltList(v: seq<Obj>, i: nat)
    ensures GetRawVector(GetObjFrowVector(v, i)) == if i <= |v| then v[i..] else []
    decreases |v| - i
  {
    if i < |v| {
      RawOfBuiltList(v, i + 1);
      assert v[i..] == [v[i]] + v[i + 1..];
    }
  }

  /** Rebuilding a proper list from its flattened elements gives the same
      list back. */
  lemma {:induction false} BuiltListOfRaw(v: seq<Obj>, i: nat, o: Obj)
    requires IsProperList(o)
    requires i <= |v| && v[i..] == GetRawVector(o)
    ensures GetObjFrowVector(v, i) == o
    decreases o
  {
    match o
    case Nil =>
    case Cell(f, s) =>
      assert v[i] == f && v[i + 1..] == GetRawVector(s) by {
        assert v[i..] == [f] + GetRawVector(s);
        assert v[i..][1..] == v[i + 1..];
      }
      BuiltListOfRaw(v, i + 1, s);
  }

  /** Flattening and rebuilding are inverse on proper lists. */
  lemma {:induction false} ProperListRoundTrip(o: Obj)
    requires IsProperList(o)
    ensures GetObjFrowVector(GetRawVector(o), 0) == o
  {
    BuiltListOfRaw(GetRawVector(o), 0, o);
  }

  /** Only the empty list flattens to nothing. */
  lemma {:induction false} RawEmptyIffNil(o: Obj)
    ensures GetRawVector(o) == [] <==> o == Nil
  {
  }

  /** On a proper list the flattened elements are exactly the `first`
      fields down the spine. */
  lemma {:induction false} RawOfProperList(o: Obj, i: nat)
    requires IsProperList(o) && i < Length(o)
    ensures |GetRawVector(o)| == Length(o)
    ensures GetRawVector(o)[i] == Nth(o, i)
    decreases o
  {
    match o
    case Cell(f, s) =>
      if i > 0 {
        if s.Cell? {
          RawOfProperList(s, i - 1);
        }
      }
  }

  /** On a list with a dotted tail the flattened elements are the `first`
      fields down the spine followed by the final tail. */
  lemma {:induction false} RawOfImproperList(o: Obj, i: nat)
    requires !IsProperList(o)
    ensures |GetRawVector(o)| == Length(o) + 1
    ensures GetRawVector(o)[Length(o)] == FinalTail(o)
    ensures i < Length(o) ==> GetRawVector(o)[i] == Nth(o, i)
    decreases o
  {
    match o
    case Cell(f, s) =>
      RawOfImproperList(s, if i > 0 then i - 1 else 0);
      assert GetRawVector(o) == [f] + GetRawVector(s);
    case _ =>
  }

  /** The `i`-th `first` field along the spine. */
  function Nth(o: Obj, i: nat): (x: Obj)
    requires i < Length(o)
  {
    if i == 0 then o.first else Nth(o.second, i - 1)
  }

  /** The lookup from the `i`-th entry on finds each primitive registered
      at or after that position. */
  lemma {:induction false} LookupFromBinds(p: Prim, i: nat)
    requires i <= RegistrationIndex(p)
    ensures LookupFrom(PrimName(p), i) == Func(p)
    decreases TableSize - i
  {
    if Registered(i) != p {
      if PrimName(Registered(i)) == PrimName(p) {
        PrimNameInjective(Registered(i), p);
      }
      LookupFromBinds(p, i + 1);
    }
  }

  /** Whatever the lookup from the `i`-th entry on finds is registered
      under the name looked up. */
  lemma {:induction false} LookupFromNames(name: string, i: nat)
    requires i <= TableSize
    ensures LookupFrom(name, i) == Nil || (LookupFrom(name, i).Func? && PrimName(LookupFrom(name, i).prim) == name)
    decreases TableSize - i
  {
    if i < TableSize && PrimName(Registered(i)) != name {
      LookupFromNames(name, i + 1);
    }
  }

  /** The table binds exactly one name per primitive, the name `PrimName`
      gives it, and nothing else: a name that is no primitive's is
      unbound. */
  lemma {:induction false} TableIsNaming()
    ensures forall p: Prim :: Lookup(PrimName(p)) == Func(p)
    ensures forall name :: Lookup(name) == Nil <==> forall p: Prim :: PrimName(p) != name
  {
    forall p: Prim
      ensures Lookup(PrimName(p)) == Func(p)
    {
      LookupFromBinds(p, 0);
    }
    forall name
      ensures Lookup(name) == Nil <==> forall p: Prim :: PrimName(p) != name
    {
      LookupFromNames(name, 0);
      if Lookup(name) != Nil {
        assert PrimName(Lookup(name).prim) == name;
      }
    }
  }
}
