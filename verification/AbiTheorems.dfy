/** Conversion by printed type against the fold over the type tree. */
module AbiTheorems {
  import opened TypeLists
  import opened AbiTypes

  predicate NoBracket(s: string) { forall i | 0 <= i < |s| :: s[i] != '[' }

  lemma NoBracketAppend(a: string, b: string)
    ensures NoBracket(a + b) <==> NoBracket(a) && NoBracket(b)
  {
    if NoBracket(a + b) {
      forall i | 0 <= i < |a| ensures a[i] != '[' { assert a[i] == (a + b)[i]; }
      forall i | 0 <= i < |b| ensures b[i] != '[' { assert b[i] == (a + b)[|a| + i]; }
    }
  }

  lemma {:induction false} NoBracketJoin(items: seq<string>)
    ensures NoBracket(Join(items)) <==> forall i | 0 <= i < |items| :: NoBracket(items[i])
  {
    if |items| > 1 {
      NoBracketJoin(items[1..]);
      NoBracketAppend(items[0], ",");
      NoBracketAppend(items[0] + ",", Join(items[1..]));
      assert forall i | 0 <= i < |items| :: i == 0 || items[i] == items[1..][i - 1];
      assert forall i | 0 <= i < |items| - 1 :: items[1..][i] == items[i + 1];
    }
  }

  /** The printed type has a bracket exactly if the type has an array. */
  lemma {:induction false} BracketOfArray(ty: Ty)
    requires Named(ty)
    ensures NoBracket(Print(ty)) <==> Flat(ty)
    decreases ty, 1
  {
    match ty
    case Elem(name) =>
    case Tuple(items) =>
      var s := Join(PrintAll(items));
      BracketsOfArrays(items);
      NoBracketJoin(PrintAll(items));
      NoBracketAppend("(", s);
      NoBracketAppend("(" + s, ")");
    case Arr(elem, size) =>
      assert Print(ty)[|Print(elem)|] == '[';
  }

  lemma {:induction false} BracketsOfArrays(tys: seq<Ty>)
    requires forall i | 0 <= i < |tys| :: Named(tys[i])
    ensures forall i | 0 <= i < |tys| :: NoBracket(PrintAll(tys)[i]) <==> Flat(tys[i])
    decreases tys, 0
  {
    if tys != [] {
      BracketOfArray(tys[0]);
      BracketsOfArrays(tys[1..]);
    }
  }

  lemma FirstBracket(t: string)
    ensures NoBracket(t) <==> IndexOf(t, '[') == |t|
    ensures NoBracket(t[..IndexOf(t, '[')])
  {
  }

  /** The text before the first bracket of an array of a flat type is that type. */
  lemma BeforeBracket(s: string, size: string)
    requires NoBracket(s)
    ensures IndexOf(s + "[" + size + "]", '[') == |s| && (s + "[" + size + "]")[..|s|] == s
  {
    var t := s + "[" + size + "]";
    assert t[|s|] == '[' && t[..|s|] == s;
    assert forall k | 0 <= k < |s| :: t[k] == s[k];
  }

  lemma {:induction false} PrintAllSame(n: nat, ty: Ty)
    ensures PrintAll(Repeat(n, ty)) == Repeat(n, Print(ty))
  {
    if n > 0 { PrintAllSame(n - 1, ty); }
  }

  lemma {:induction false} FlatConverts<O>(val: Val, ty: Ty, leaf: (string, Val) -> Res<O>)
    requires Named(ty) && Flat(ty)
    ensures ConvertType(val, Print(ty), leaf) == Fold(val, ty, leaf)
    decreases val, 1
  {
    BracketOfArray(ty);
    FirstBracket(Print(ty));
    if ty.Tuple? {
      assert Print(ty)[0] == '(';
      SplitPrinted(ty.items);
      if val.Items? && |ty.items| == |val.vals| {
        EachConverts(val.vals, ty.items, leaf);
      }
    }
  }

  lemma {:induction false} EachConverts<O>(vals: seq<Val>, tys: seq<Ty>, leaf: (string, Val) -> Res<O>)
    requires |vals| == |tys| && forall i | 0 <= i < |tys| :: Named(tys[i]) && Flat(tys[i])
    ensures ConvertEach(vals, PrintAll(tys), leaf) == FoldEach(vals, tys, leaf)
    decreases vals, 0
  {
    if vals != [] {
      FlatConverts(vals[0], tys[0], leaf);
      EachConverts(vals[1..], tys[1..], leaf);
    }
  }

  /** On a type with at most one array, outermost, converting by the printed type is the fold over the tree. */
  lemma ConvertIsFold<O>(val: Val, ty: Ty, leaf: (string, Val) -> Res<O>)
    requires Named(ty) && Simple(ty)
    ensures ConvertType(val, Print(ty), leaf) == Fold(val, ty, leaf)
  {
    if ty.Arr? {
      BracketOfArray(ty.elem);
      BeforeBracket(Print(ty.elem), ty.size);
      if val.Items? {
        PrintAllSame(|val.vals|, ty.elem);
        EachConverts(val.vals, Repeat(|val.vals|, ty.elem), leaf);
      }
    } else {
      FlatConverts(val, ty, leaf);
    }
  }

  /** A tuple with an array in it is taken for an array: a missing value becomes an empty list, not an error. */
  lemma TupleWithArrayFails<O>(ty: Ty, leaf: (string, Val) -> Res<O>)
    requires Named(ty) && ty.Tuple? && !Flat(ty)
    ensures ConvertType(Null, Print(ty), leaf) == Ok(Node([])) && Fold(Null, ty, leaf) == Err
  {
    BracketOfArray(ty);
    FirstBracket(Print(ty));
  }

  lemma PushOne<O>(r: Res<Out<O>>)
    ensures Push(r, Ok([])) == if r.Ok? then Ok([r.x]) else Err
  {
    if r.Ok? { assert [r.x] + [] == [r.x]; }
  }

  lemma OneConverted<O>(vals: seq<Val>, ts: seq<string>, leaf: (string, Val) -> Res<O>)
    requires |vals| == |ts| == 1
    ensures
      var r := ConvertType(vals[0], ts[0], leaf);
      ConvertEach(vals, ts, leaf) == if r.Ok? then Ok([r.x]) else Err
  {
    assert vals[1..] == [] && ts[1..] == [];
    PushOne(ConvertType(vals[0], ts[0], leaf));
  }

  lemma OneFolded<O>(vals: seq<Val>, tys: seq<Ty>, leaf: (string, Val) -> Res<O>)
    requires |vals| == |tys| == 1
    ensures
      var r := Fold(vals[0], tys[0], leaf);
      FoldEach(vals, tys, leaf) == if r.Ok? then Ok([r.x]) else Err
  {
    assert vals[1..] == [] && tys[1..] == [];
    PushOne(Fold(vals[0], tys[0], leaf));
  }

  // ---- why arrays may not be inside ----

  lemma {:induction false} PiecesNoBracket(s: string)
    requires NoBracket(s)
    ensures forall i | 0 <= i < |Pieces(s)| :: NoBracket(Pieces(s)[i])
    decreases |s|
  {
    var n := NextCut(s, 0);
    if n < |s| { PiecesNoBracket(s[n + 1..]); }
  }

  lemma SplitNoBracket(t: string)
    requires NoBracket(t)
    ensures forall i | 0 <= i < |Split(t)| :: NoBracket(Split(t)[i])
  {
    PiecesNoBracket(Unbracketed(t));
  }

  predicate NullFree(v: Val) {
    v != Null && (v.Items? ==> forall i | 0 <= i < |v.vals| :: NullFree(v.vals[i]))
  }

  /** A value of the type whose arrays all have one element, or all have none. */
  function Filled(ty: Ty, one: bool, sample: string -> Val): Val
    decreases ty, 1
  {
    match ty
    case Elem(name) => sample(name)
    case Tuple(items) => Items(FilledAll(items, one, sample))
    case Arr(elem, _) => Items(if one then [Filled(elem, one, sample)] else [])
  }

  function FilledAll(tys: seq<Ty>, one: bool, sample: string -> Val): (r: seq<Val>)
    ensures |r| == |tys|
    decreases tys, 0
  {
    if tys == [] then [] else [Filled(tys[0], one, sample)] + FilledAll(tys[1..], one, sample)
  }

  lemma {:induction false} FilledNullFree(ty: Ty, one: bool, sample: string -> Val)
    requires forall name :: NullFree(sample(name))
    ensures NullFree(Filled(ty, one, sample))
    decreases ty, 1
  {
    match ty
    case Elem(name) =>
    case Tuple(items) => AllFilledNullFree(items, one, sample);
    case Arr(elem, _) => FilledNullFree(elem, one, sample);
  }

  lemma {:induction false} AllFilledNullFree(tys: seq<Ty>, one: bool, sample: string -> Val)
    requires forall name :: NullFree(sample(name))
    ensures forall i | 0 <= i < |tys| :: NullFree(FilledAll(tys, one, sample)[i])
    decreases tys, 0
  {
    if tys != [] {
      FilledNullFree(tys[0], one, sample);
      AllFilledNullFree(tys[1..], one, sample);
    }
  }

  /** The tree converts such a value. */
  lemma {:induction false} FilledFolds<O>(ty: Ty, one: bool, leaf: (string, Val) -> Res<O>, sample: string -> Val)
    requires forall name :: leaf(name, sample(name)).Ok?
    ensures var r := Fold(Filled(ty, one, sample), ty, leaf); r.Ok? && (r.x.Leaf? <==> ty.Elem?)
    decreases ty, 1
  {
    match ty
    case Elem(name) =>
    case Tuple(items) => AllFilledFold(items, one, leaf, sample);
    case Arr(elem, _) =>
      FilledFolds(elem, one, leaf, sample);
      if one { OneFolded([Filled(elem, one, sample)], Repeat(1, elem), leaf); }
  }

  lemma {:induction false} AllFilledFold<O>(tys: seq<Ty>, one: bool, leaf: (string, Val) -> Res<O>, sample: string -> Val)
    requires forall name :: leaf(name, sample(name)).Ok?
    ensures FoldEach(FilledAll(tys, one, sample), tys, leaf).Ok?
    decreases tys, 0
  {
    if tys != [] {
      FilledFolds(tys[0], one, leaf, sample);
      AllFilledFold(tys[1..], one, leaf, sample);
    }
  }

  /** Converting by text t makes of the value what the tree makes of it. */
  ghost predicate Alike<O>(val: Val, t: string, ty: Ty, leaf: (string, Val) -> Res<O>) {
    ConvertType(val, t, leaf) == Fold(val, ty, leaf)
  }

  ghost predicate EachAlike<O>(vals: seq<Val>, ts: seq<string>, tys: seq<Ty>, leaf: (string, Val) -> Res<O>)
    requires |vals| == |ts| == |tys|
  {
    ConvertEach(vals, ts, leaf) == FoldEach(vals, tys, leaf)
  }

  lemma PushInjective<O>(r: Res<Out<O>>, rs: Res<seq<Out<O>>>, r': Res<Out<O>>, rs': Res<seq<Out<O>>>)
    requires r'.Ok? && rs'.Ok? && Push(r, rs) == Push(r', rs')
    ensures r == r' && rs == rs'
  {
    assert ([r.x] + rs.x)[0] == ([r'.x] + rs'.x)[0];
    assert ([r.x] + rs.x)[1..] == rs.x && ([r'.x] + rs'.x)[1..] == rs'.x;
  }

  lemma FirstAlike<O>(tys: seq<Ty>, ts: seq<string>, one: bool, leaf: (string, Val) -> Res<O>, sample: string -> Val)
    requires tys != [] && |tys| == |ts| && forall name :: leaf(name, sample(name)).Ok?
    requires EachAlike(FilledAll(tys, one, sample), ts, tys, leaf)
    ensures Alike(Filled(tys[0], one, sample), ts[0], tys[0], leaf)
    ensures EachAlike(FilledAll(tys[1..], one, sample), ts[1..], tys[1..], leaf)
  {
    var vals := FilledAll(tys, one, sample);
    assert vals[1..] == FilledAll(tys[1..], one, sample);
    FilledFolds(tys[0], one, leaf, sample);
    AllFilledFold(tys[1..], one, leaf, sample);
    PushInjective(ConvertType(vals[0], ts[0], leaf), ConvertEach(vals[1..], ts[1..], leaf),
                  Fold(vals[0], tys[0], leaf), FoldEach(vals[1..], tys[1..], leaf));
  }

  /**
   A text without a bracket takes only lists of one length, or none, where the
   type has an array.  So it treats no array with and without an element alike.
   */
  lemma {:induction false} BracketlessDiffers<O>(ty: Ty, t: string, leaf: (string, Val) -> Res<O>, sample: string -> Val)
    requires !Flat(ty) && NoBracket(t) && forall name :: leaf(name, sample(name)).Ok?
    ensures !Alike(Filled(ty, false, sample), t, ty, leaf) || !Alike(Filled(ty, true, sample), t, ty, leaf)
    decreases ty, 1
  {
    FirstBracket(t);
    FilledFolds(ty, false, leaf, sample);
    FilledFolds(ty, true, leaf, sample);
    if ty.Tuple? && t != "" && t[0] == '(' && |Split(t)| == |ty.items| {
      SplitNoBracket(t);
      EachBracketlessDiffers(ty.items, Split(t), leaf, sample);
    }
  }

  lemma {:induction false} EachBracketlessDiffers<O>(
    tys: seq<Ty>, ts: seq<string>, leaf: (string, Val) -> Res<O>, sample: string -> Val)
    requires |tys| == |ts| && (forall i | 0 <= i < |ts| :: NoBracket(ts[i])) && forall name :: leaf(name, sample(name)).Ok?
    requires exists i | 0 <= i < |tys| :: !Flat(tys[i])
    ensures !EachAlike(FilledAll(tys, false, sample), ts, tys, leaf) || !EachAlike(FilledAll(tys, true, sample), ts, tys, leaf)
    decreases tys, 0
  {
    if EachAlike(FilledAll(tys, false, sample), ts, tys, leaf) && EachAlike(FilledAll(tys, true, sample), ts, tys, leaf) {
      FirstAlike(tys, ts, false, leaf, sample);
      FirstAlike(tys, ts, true, leaf, sample);
      if !Flat(tys[0]) {
        BracketlessDiffers(tys[0], ts[0], leaf, sample);
      } else {
        EachBracketlessDiffers(tys[1..], ts[1..], leaf, sample);
      }
    }
  }

  /** The text before the first bracket. */
  function Prefix(ty: Ty): string { Print(ty)[..IndexOf(Print(ty), '[')] }

  /** The code hands every element of such a value to the text before the first bracket. */
  lemma ElementsByPrefix<O>(vals: seq<Val>, ty: Ty, leaf: (string, Val) -> Res<O>)
    requires Named(ty) && !Flat(ty)
    ensures
      && NoBracket(Prefix(ty))
      && ConvertType(Items(vals), Print(ty), leaf) == List(ConvertEach(vals, Repeat(|vals|, Prefix(ty)), leaf))
  {
    BracketOfArray(ty);
    FirstBracket(Print(ty));
  }

  /** The tree converts the value, and the code does not, or to something else. */
  ghost predicate Mistreated<O>(val: Val, ty: Ty, leaf: (string, Val) -> Res<O>) {
    Fold(val, ty, leaf).Ok? && !Alike(val, Print(ty), ty, leaf)
  }

  /** A value of the type, an outermost array having one element, in which all further arrays have one or none. */
  function Probe(ty: Ty, one: bool, sample: string -> Val): Val {
    if ty.Arr? then Items([Filled(ty.elem, one, sample)]) else Filled(ty, one, sample)
  }

  lemma ElementFails<O>(v: Val, ty: Ty, leaf: (string, Val) -> Res<O>)
    requires Named(ty) && ty.Arr? && Fold(v, ty.elem, leaf).Ok? && !Alike(v, Prefix(ty), ty.elem, leaf)
    ensures Mistreated(Items([v]), ty, leaf)
  {
    ElementsByPrefix([v], ty, leaf);
    OneConverted([v], Repeat(1, Prefix(ty)), leaf);
    OneFolded([v], Repeat(1, ty.elem), leaf);
  }

  lemma ArrayProbeFails<O>(ty: Ty, leaf: (string, Val) -> Res<O>, sample: string -> Val)
    requires Named(ty) && ty.Arr? && !Flat(ty.elem) && forall name :: leaf(name, sample(name)).Ok?
    ensures Mistreated(Probe(ty, false, sample), ty, leaf) || Mistreated(Probe(ty, true, sample), ty, leaf)
  {
    BracketOfArray(ty);
    FirstBracket(Print(ty));
    BracketlessDiffers(ty.elem, Prefix(ty), leaf, sample);
    var one := Alike(Filled(ty.elem, false, sample), Prefix(ty), ty.elem, leaf);
    FilledFolds(ty.elem, one, leaf, sample);
    ElementFails(Filled(ty.elem, one, sample), ty, leaf);
  }

  lemma TupleProbeFails<O>(ty: Ty, leaf: (string, Val) -> Res<O>, sample: string -> Val)
    requires Named(ty) && ty.Tuple? && !Flat(ty) && forall name :: leaf(name, sample(name)).Ok?
    ensures Mistreated(Probe(ty, false, sample), ty, leaf) || Mistreated(Probe(ty, true, sample), ty, leaf)
  {
    FilledFolds(ty, false, leaf, sample);
    FilledFolds(ty, true, leaf, sample);
    ElementsByPrefix(FilledAll(ty.items, false, sample), ty, leaf);
    ElementsByPrefix(FilledAll(ty.items, true, sample), ty, leaf);
    EachBracketlessDiffers(ty.items, Repeat(|ty.items|, Prefix(ty)), leaf, sample);
  }

  /**
   Every type with an array in a tuple or in another array has a mistreated
   value, and one without nulls if the leaves have none.
   */
  lemma InnerArrayFails<O>(ty: Ty, leaf: (string, Val) -> Res<O>, sample: string -> Val)
    requires Named(ty) && !Simple(ty) && forall name :: leaf(name, sample(name)).Ok?
    ensures exists val :: Mistreated(val, ty, leaf) && ((forall name :: NullFree(sample(name))) ==> NullFree(val))
  {
    if ty.Tuple? { TupleProbeFails(ty, leaf, sample); } else { ArrayProbeFails(ty, leaf, sample); }
    var one := Mistreated(Probe(ty, true, sample), ty, leaf);
    if forall name :: NullFree(sample(name)) {
      FilledNullFree(if ty.Arr? then ty.elem else ty, one, sample);
    }
    assert Mistreated(Probe(ty, one, sample), ty, leaf);
  }

  /**
   For every type, and leaf converters that accept some value of every
   elementary type: code and tree agree on all values exactly if the type has
   at most one array, and that outermost.
   */
  lemma AgreeExactlyIfSimple<O>(ty: Ty, leaf: (string, Val) -> Res<O>, sample: string -> Val)
    requires Named(ty) && forall name :: leaf(name, sample(name)).Ok?
    ensures (forall val :: ConvertType(val, Print(ty), leaf) == Fold(val, ty, leaf)) <==> Simple(ty)
  {
    if Simple(ty) {
      forall val ensures ConvertType(val, Print(ty), leaf) == Fold(val, ty, leaf) { ConvertIsFold(val, ty, leaf); }
    } else {
      InnerArrayFails(ty, leaf, sample);
      var val :| Mistreated(val, ty, leaf);
      assert ConvertType(val, Print(ty), leaf) != Fold(val, ty, leaf);
    }
  }

  /** The type "(ab[])" and a list that holds an empty list: the tree converts it, the code does not. */
  lemma EmptyListFails<O>(leaf: (string, Val) -> Res<O>)
    ensures
      var ty, val := Tuple([Arr(Elem("ab"), "")]), Items([Items([])]);
      Print(ty) == "(ab[])" && Fold(val, ty, leaf) == Ok(Node([Node([])])) && ConvertType(val, Print(ty), leaf) == Err
  {
    var inner := Arr(Elem("ab"), "");
    var ty, vals, t := Tuple([inner]), [Items([])], "(ab[])";
    assert Print(inner) == "ab[]";
    assert [inner][1..] == [] && PrintAll([inner]) == [Print(inner)];
    assert "(" + "ab[]" + ")" == t;
    assert t[0] == '(' && t[1] == 'a' && t[2] == 'b' && t[3] == '[';
    assert IndexOf(t, '[') == 3 && t[..3] == "(ab";
    assert Level("(") == 1 && "(a"[..1] == "(" && Level("(a") == 1 && "(ab"[..2] == "(a";
    LastPiece("(ab");
    FirstBracket("(ab");
    OneConverted(vals, Repeat(1, "(ab"), leaf);
    OneFolded(vals, [inner], leaf);
  }
}
