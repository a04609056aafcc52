/** What conversion gives, position by position: by printed type and over the type tree. */
module AbiShapes {
  import opened TypeLists
  import opened AbiTypes
  import opened AbiTheorems

  lemma PushIs<O>(r: Res<Out<O>>, rs: Res<seq<Out<O>>>, outs: seq<Out<O>>)
    ensures Push(r, rs) == Ok(outs) <==> outs != [] && r == Ok(outs[0]) && rs == Ok(outs[1..])
  {
    if r.Ok? && rs.Ok? {
      var all := [r.x] + rs.x;
      assert all[0] == r.x && all[1..] == rs.x;
      if outs != [] { assert outs == [outs[0]] + outs[1..]; }
    }
  }

  /** Each value is converted by its own type, and stays at its place. */
  ghost predicate EachBy<O>(vals: seq<Val>, ts: seq<string>, leaf: (string, Val) -> Res<O>, outs: seq<Out<O>>) {
    |vals| == |ts| == |outs| && forall i | 0 <= i < |vals| :: ConvertType(vals[i], ts[i], leaf) == Ok(outs[i])
  }

  lemma EachByFirst<O>(vals: seq<Val>, ts: seq<string>, leaf: (string, Val) -> Res<O>, outs: seq<Out<O>>)
    requires vals != [] && |vals| == |ts| == |outs|
    ensures EachBy(vals, ts, leaf, outs) <==>
            ConvertType(vals[0], ts[0], leaf) == Ok(outs[0]) && EachBy(vals[1..], ts[1..], leaf, outs[1..])
  {
    if EachBy(vals[1..], ts[1..], leaf, outs[1..]) && ConvertType(vals[0], ts[0], leaf) == Ok(outs[0]) {
      forall i | 0 <= i < |vals| ensures ConvertType(vals[i], ts[i], leaf) == Ok(outs[i]) {
        if i > 0 { assert vals[1..][i - 1] == vals[i] && ts[1..][i - 1] == ts[i] && outs[1..][i - 1] == outs[i]; }
      }
    }
  }

  lemma {:induction false} ConvertEachPointwise<O>(
    vals: seq<Val>, ts: seq<string>, leaf: (string, Val) -> Res<O>, outs: seq<Out<O>>)
    requires |vals| == |ts|
    ensures ConvertEach(vals, ts, leaf) == Ok(outs) <==> EachBy(vals, ts, leaf, outs)
    decreases vals
  {
    if vals != [] {
      PushIs(ConvertType(vals[0], ts[0], leaf), ConvertEach(vals[1..], ts[1..], leaf), outs);
      if outs != [] { ConvertEachPointwise(vals[1..], ts[1..], leaf, outs[1..]); }
      if |outs| == |vals| { EachByFirst(vals, ts, leaf, outs); }
    }
  }

  ghost predicate EachOf<O>(vals: seq<Val>, tys: seq<Ty>, leaf: (string, Val) -> Res<O>, outs: seq<Out<O>>) {
    |vals| == |tys| == |outs| && forall i | 0 <= i < |vals| :: Fold(vals[i], tys[i], leaf) == Ok(outs[i])
  }

  lemma EachOfFirst<O>(vals: seq<Val>, tys: seq<Ty>, leaf: (string, Val) -> Res<O>, outs: seq<Out<O>>)
    requires vals != [] && |vals| == |tys| == |outs|
    ensures EachOf(vals, tys, leaf, outs) <==>
            Fold(vals[0], tys[0], leaf) == Ok(outs[0]) && EachOf(vals[1..], tys[1..], leaf, outs[1..])
  {
    if EachOf(vals[1..], tys[1..], leaf, outs[1..]) && Fold(vals[0], tys[0], leaf) == Ok(outs[0]) {
      forall i | 0 <= i < |vals| ensures Fold(vals[i], tys[i], leaf) == Ok(outs[i]) {
        if i > 0 { assert vals[1..][i - 1] == vals[i] && tys[1..][i - 1] == tys[i] && outs[1..][i - 1] == outs[i]; }
      }
    }
  }

  lemma {:induction false} FoldEachPointwise<O>(
    vals: seq<Val>, tys: seq<Ty>, leaf: (string, Val) -> Res<O>, outs: seq<Out<O>>)
    requires |vals| == |tys|
    ensures FoldEach(vals, tys, leaf) == Ok(outs) <==> EachOf(vals, tys, leaf, outs)
    decreases vals
  {
    if vals != [] {
      PushIs(Fold(vals[0], tys[0], leaf), FoldEach(vals[1..], tys[1..], leaf), outs);
      if outs != [] { FoldEachPointwise(vals[1..], tys[1..], leaf, outs[1..]); }
      if |outs| == |vals| { EachOfFirst(vals, tys, leaf, outs); }
    }
  }

  /**
   By a tuple text: a list exactly if the value is a list with as many values as
   the text has components, and each is converted by the component at its place.
   */
  lemma TupleConverts<O>(val: Val, t: string, leaf: (string, Val) -> Res<O>, out: Out<O>)
    requires NoBracket(t) && t != "" && t[0] == '('
    ensures ConvertType(val, t, leaf) == Ok(out) <==> out.Node? && val.Items? && EachBy(val.vals, Split(t), leaf, out.outs)
  {
    FirstBracket(t);
    if val.Items? && |Split(t)| == |val.vals| && out.Node? {
      ConvertEachPointwise(val.vals, Split(t), leaf, out.outs);
    }
  }

  /**
   By a text with a bracket: an empty list for a missing value or an empty text;
   else a list exactly if the value is one, and each of its values is converted
   by the text before the bracket.
   */
  lemma ArrayConverts<O>(val: Val, t: string, leaf: (string, Val) -> Res<O>, out: Out<O>)
    requires !NoBracket(t)
    ensures
      ConvertType(val, t, leaf) == Ok(out) <==>
      out.Node? &&
      match val
      case Null => out.outs == []
      case Text(s) => s == "" && out.outs == []
      case Items(vals) => EachBy(vals, Repeat(|vals|, t[..IndexOf(t, '[')]), leaf, out.outs)
  {
    FirstBracket(t);
    if val.Items? && out.Node? {
      ConvertEachPointwise(val.vals, Repeat(|val.vals|, t[..IndexOf(t, '[')]), leaf, out.outs);
    }
  }

  /** By any other text: what the leaf converter of that text makes of the value. */
  lemma LeafConverts<O>(val: Val, t: string, leaf: (string, Val) -> Res<O>, out: Out<O>)
    requires NoBracket(t) && (t == "" || t[0] != '(')
    ensures ConvertType(val, t, leaf) == Ok(out) <==> out.Leaf? && leaf(t, val) == Ok(out.o)
  {
    FirstBracket(t);
  }

  /** The same over the type tree. */
  lemma TreeConverts<O>(val: Val, ty: Ty, leaf: (string, Val) -> Res<O>, out: Out<O>)
    ensures
      Fold(val, ty, leaf) == Ok(out) <==>
      match ty
      case Elem(name) => out.Leaf? && leaf(name, val) == Ok(out.o)
      case Tuple(items) => out.Node? && val.Items? && EachOf(val.vals, items, leaf, out.outs)
      case Arr(elem, _) =>
        out.Node? &&
        match val
        case Null => out.outs == []
        case Text(s) => s == "" && out.outs == []
        case Items(vals) => EachOf(vals, Repeat(|vals|, elem), leaf, out.outs)
  {
    if val.Items? && out.Node? {
      if ty.Tuple? && |ty.items| == |val.vals| { FoldEachPointwise(val.vals, ty.items, leaf, out.outs); }
      if ty.Arr? { FoldEachPointwise(val.vals, Repeat(|val.vals|, ty.elem), leaf, out.outs); }
    }
  }
}
