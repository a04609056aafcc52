/**
 Resolving types in the documentation generator (`getType`): objects of the
 shared type table are flattened in place the first time they are asked for.
 */
module TypeTable {

  /** A type: nothing, a name or literal, or an object of the table. */
  datatype Val = Undefined | Name(name: string) | Obj(def: TypeDef)

  class TypeDef {
    var base: Val                      // the `_extends` property
    var props: map<string, string>     // all other properties
  }

  type Types = map<string, Val>

  /** What an object held when nothing had been resolved yet. */
  datatype Def = Def(base: Val, props: map<string, string>)
  type Origin = map<TypeDef, Def>

  predicate Truthy(v: Val) { v.Obj? || (v.Name? && v.name != "") }

  // ---- the meaning of a type, on the table as it was read ----

  function Decimal(n: nat): string {
    if n < 10 then ["0123456789"[n]] else Decimal(n / 10) + ["0123456789"[n % 10]]
  }

  /** Spreading a text gives one property a character. */
  function CharProps(s: string): map<string, string> {
    if s == "" then map[] else CharProps(s[..|s| - 1])[Decimal(|s| - 1) := [s[|s| - 1]]]
  }

  /** Every object is known, and names and extensions lead downwards. */
  ghost predicate Acyclic(types: Types, orig: Origin, rank: Val -> nat) {
    && (forall s | s in types :: Known(types[s], orig) && rank(types[s]) < rank(Name(s)))
    && (forall d | d in orig && Truthy(orig[d].base) :: Known(orig[d].base, orig) && rank(orig[d].base) < rank(Obj(d)))
  }

  ghost predicate Known(v: Val, orig: Origin) { v.Obj? ==> v.def in orig }

  /** Follows names to an object, or to the last name that means something. */
  ghost function Resolved(v: Val, types: Types, orig: Origin, rank: Val -> nat): (r: Val)
    requires Acyclic(types, orig, rank) && Known(v, orig)
    ensures Known(r, orig) && (r.Obj? ==> rank(r) <= rank(v))
    decreases rank(v)
  {
    if v.Obj? then v
    else if !Truthy(v) then Undefined
    else if v.name !in types then v
    else
      var r := Resolved(types[v.name], types, orig, rank);
      if Truthy(r) then r else v
  }

  /** Own properties over those of the base, along the whole chain. */
  ghost function Meaning(d: TypeDef, types: Types, orig: Origin, rank: Val -> nat): map<string, string>
    requires Acyclic(types, orig, rank) && d in orig
    decreases rank(Obj(d))
  {
    if !Truthy(orig[d].base) then orig[d].props
    else
      match Resolved(orig[d].base, types, orig, rank)
      case Undefined => orig[d].props
      case Name(s) => CharProps(s) + orig[d].props
      case Obj(b) => Meaning(b, types, orig, rank) + orig[d].props
  }

  // ---- the table while it is being used ----

  /** An object is as it was, or flattened to its meaning. */
  ghost predicate Agrees(d: TypeDef, types: Types, orig: Origin, rank: Val -> nat)
    requires Acyclic(types, orig, rank) && d in orig
    reads d
  {
    || (d.base == orig[d].base && d.props == orig[d].props)
    || (d.base == Undefined && d.props == Meaning(d, types, orig, rank))
  }

  ghost predicate Consistent(types: Types, orig: Origin, rank: Val -> nat)
    requires Acyclic(types, orig, rank)
    reads orig.Keys
  {
    forall d | d in orig :: Agrees(d, types, orig, rank)
  }

  /** The value that came back, and that its object is flat now. */
  ghost predicate Delivered(v: Val, r: Val, types: Types, orig: Origin, rank: Val -> nat)
    requires Acyclic(types, orig, rank) && Known(v, orig)
    reads orig.Keys
  {
    && r == Resolved(v, types, orig, rank)
    && (r.Obj? ==> !Truthy(r.def.base) && r.def.props == Meaning(r.def, types, orig, rank))
  }

  /** The properties that spreading a value gives. */
  function Spread(v: Val): map<string, string>
    reads if v.Obj? then {v.def} else {}
  {
    match v case Undefined => map[] case Name(s) => CharProps(s) case Obj(d) => d.props
  }

  /** Nothing is left to flatten for this value. */
  ghost predicate Settled(v: Val, types: Types, orig: Origin, rank: Val -> nat)
    requires Acyclic(types, orig, rank) && Known(v, orig)
    reads orig.Keys
  {
    var r := Resolved(v, types, orig, rank);
    r.Obj? ==> !Truthy(r.def.base)
  }

  /** The resolved base is spread under the object's own properties, and the extension deleted. */
  method Flatten(d: TypeDef, base: Val, types: Types, ghost orig: Origin, ghost rank: Val -> nat)
    requires Acyclic(types, orig, rank) && Consistent(types, orig, rank)
    requires d in orig && Truthy(orig[d].base) && Delivered(orig[d].base, base, types, orig, rank)
    modifies d
    ensures Consistent(types, orig, rank)
    ensures d.base == Undefined && d.props == Meaning(d, types, orig, rank)
  {
    assert Agrees(d, types, orig, rank);
    ghost var meaning := Spread(base) + d.props;
    assert meaning == Meaning(d, types, orig, rank);
    d.base := Undefined;
    d.props := Spread(base) + d.props;
    assert d.props == meaning;
    forall e | e in orig ensures Agrees(e, types, orig, rank) {
      assert old(Agrees(e, types, orig, rank));
    }
  }

  /**
   `getType`: in whatever state earlier calls left the table, the result is the
   type's meaning in the table as it was read.  Flattened objects are not
   touched again, and asking for a settled type changes nothing.
   */
  method GetType(val: Val, types: Types, ghost orig: Origin, ghost rank: Val -> nat) returns (r: Val)
    requires Acyclic(types, orig, rank) && Known(val, orig) && Consistent(types, orig, rank)
    modifies orig.Keys
    ensures Consistent(types, orig, rank) && Delivered(val, r, types, orig, rank)
    ensures forall d | d in orig && old(!Truthy(d.base)) :: d.base == old(d.base) && d.props == old(d.props)
    ensures old(Settled(val, types, orig, rank)) ==>
              forall d | d in orig :: d.base == old(d.base) && d.props == old(d.props)
    decreases rank(val)
  {
    if val.Obj? {
      var d := val.def;
      assert Agrees(d, types, orig, rank);
      if Truthy(d.base) {
        assert d.base == orig[d].base;
        var base := GetType(d.base, types, orig, rank);
        Flatten(d, base, types, orig, rank);
      }
      return val;
    }
    if !Truthy(val) {
      return Undefined;
    }
    if val.name in types {
      var found := GetType(types[val.name], types, orig, rank);
      return if Truthy(found) then found else val;
    }
    return val;
  }

  /** Any sequence of calls: every result is right, also after all the later calls. */
  method GetTypes(vals: seq<Val>, types: Types, ghost orig: Origin, ghost rank: Val -> nat) returns (rs: seq<Val>)
    requires Acyclic(types, orig, rank) && Consistent(types, orig, rank) && forall v | v in vals :: Known(v, orig)
    modifies orig.Keys
    ensures Consistent(types, orig, rank) && |rs| == |vals|
    ensures forall i | 0 <= i < |vals| :: Delivered(vals[i], rs[i], types, orig, rank)
  {
    rs := [];
    for i := 0 to |vals|
      invariant Consistent(types, orig, rank) && |rs| == i
      invariant forall k | 0 <= k < i :: Delivered(vals[k], rs[k], types, orig, rank)
    {
      var r := GetType(vals[i], types, orig, rank);
      rs := rs + [r];
    }
  }

  // ---- flattening some objects changes the meaning of none ----

  /** `now` is the table with some objects flattened. */
  ghost predicate Flattening(now: Origin, types: Types, orig: Origin, rank: Val -> nat)
    requires Acyclic(types, orig, rank)
  {
    && now.Keys == orig.Keys
    && forall d | d in orig :: now[d] == orig[d] || now[d] == Def(Undefined, Meaning(d, types, orig, rank))
  }

  lemma {:induction false} ResolvedStays(v: Val, now: Origin, types: Types, orig: Origin, rank: Val -> nat)
    requires Acyclic(types, orig, rank) && Flattening(now, types, orig, rank) && Known(v, orig)
    ensures Acyclic(types, now, rank) && Resolved(v, types, now, rank) == Resolved(v, types, orig, rank)
    decreases rank(v)
  {
    assert Acyclic(types, now, rank);
    if v.Name? && Truthy(v) && v.name in types {
      ResolvedStays(types[v.name], now, types, orig, rank);
    }
  }

  /** Read from the table in the middle of its use, every type means what it meant at the start. */
  lemma {:induction false} MeaningStays(d: TypeDef, now: Origin, types: Types, orig: Origin, rank: Val -> nat)
    requires Acyclic(types, orig, rank) && Flattening(now, types, orig, rank) && d in orig
    ensures Acyclic(types, now, rank) && Meaning(d, types, now, rank) == Meaning(d, types, orig, rank)
    decreases rank(Obj(d))
  {
    assert Acyclic(types, now, rank);
    if now[d] == orig[d] && Truthy(orig[d].base) {
      ResolvedStays(orig[d].base, now, types, orig, rank);
      var r := Resolved(orig[d].base, types, orig, rank);
      if r.Obj? {
        MeaningStays(r.def, now, types, orig, rank);
      }
    }
  }
}
