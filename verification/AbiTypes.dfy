/** Converting decoded ABI values by their printed type: `convertType` and `convertTypes`. */
module AbiTypes {
  import opened TypeLists

  /** A decoded value, as JSON carries it. */
  datatype Val = Null | Text(text: string) | Items(vals: seq<Val>)

  /** A converted value: what a leaf converter made, or a list. */
  datatype Out<O> = Leaf(o: O) | Node(outs: seq<Out<O>>)

  datatype Res<X> = Ok(x: X) | Err

  predicate Falsy(v: Val) { v == Null || v == Text("") }

  function IndexOf(t: string, c: char): (i: nat)
    ensures i <= |t| && (i < |t| ==> t[i] == c) && forall k | 0 <= k < i :: t[k] != c
  {
    if t == "" || t[0] == c then 0 else 1 + IndexOf(t[1..], c)
  }

  function Push<O>(r: Res<Out<O>>, rs: Res<seq<Out<O>>>): Res<seq<Out<O>>> {
    if r.Ok? && rs.Ok? then Ok([r.x] + rs.x) else Err
  }

  function List<O>(rs: Res<seq<Out<O>>>): Res<Out<O>> {
    match rs case Ok(os) => Ok(Node(os)) case Err => Err
  }

  function Repeat<T>(n: nat, x: T): (r: seq<T>)
    ensures |r| == n && forall i | 0 <= i < n :: r[i] == x
  {
    if n == 0 then [] else [x] + Repeat(n - 1, x)
  }

  // ---- the code, on printed types ----

  /** Whatever the leaf converters do; they see the type text and the value. */
  function ConvertType<O>(val: Val, t: string, leaf: (string, Val) -> Res<O>): Res<Out<O>>
    decreases val, 1
  {
    var bracket := IndexOf(t, '[');
    if bracket < |t| then
      if Falsy(val) then Ok(Node([]))
      else if val.Items? then List(ConvertEach(val.vals, Repeat(|val.vals|, t[..bracket]), leaf))
      else Err
    else if t != "" && t[0] == '(' then
      if val.Items? && |Split(t)| == |val.vals| then List(ConvertEach(val.vals, Split(t), leaf)) else Err
    else
      match leaf(t, val) case Ok(o) => Ok(Leaf(o)) case Err => Err
  }

  function ConvertEach<O>(vals: seq<Val>, ts: seq<string>, leaf: (string, Val) -> Res<O>): Res<seq<Out<O>>>
    requires |vals| == |ts|
    decreases vals, 0
  {
    if vals == [] then Ok([]) else Push(ConvertType(vals[0], ts[0], leaf), ConvertEach(vals[1..], ts[1..], leaf))
  }

  // ---- the meaning, on type trees ----

  datatype Ty = Elem(name: string) | Tuple(items: seq<Ty>) | Arr(elem: Ty, size: string)

  function Fold<O>(val: Val, ty: Ty, leaf: (string, Val) -> Res<O>): Res<Out<O>>
    decreases val, 1
  {
    match ty
    case Elem(name) => (match leaf(name, val) case Ok(o) => Ok(Leaf(o)) case Err => Err)
    case Tuple(items) =>
      if val.Items? && |items| == |val.vals| then List(FoldEach(val.vals, items, leaf)) else Err
    case Arr(elem, _) =>
      if Falsy(val) then Ok(Node([]))
      else if val.Items? then List(FoldEach(val.vals, Repeat(|val.vals|, elem), leaf))
      else Err
  }

  function FoldEach<O>(vals: seq<Val>, tys: seq<Ty>, leaf: (string, Val) -> Res<O>): Res<seq<Out<O>>>
    requires |vals| == |tys|
    decreases vals, 0
  {
    if vals == [] then Ok([]) else Push(Fold(vals[0], tys[0], leaf), FoldEach(vals[1..], tys[1..], leaf))
  }

  // ---- printing ----

  function Print(ty: Ty): string
    decreases ty, 1
  {
    match ty
    case Elem(name) => name
    case Tuple(items) => "(" + Join(PrintAll(items)) + ")"
    case Arr(elem, size) => Print(elem) + "[" + size + "]"
  }

  function PrintAll(tys: seq<Ty>): (r: seq<string>)
    ensures |r| == |tys|
    decreases tys, 0
  {
    if tys == [] then [] else [Print(tys[0])] + PrintAll(tys[1..])
  }

  predicate Plain(s: string) {
    forall i | 0 <= i < |s| :: s[i] != '(' && s[i] != ')' && s[i] != ',' && s[i] != '['
  }

  /** Elementary names have at least two characters and no punctuation. */
  predicate Named(ty: Ty) {
    match ty
    case Elem(name) => |name| > 1 && Plain(name)
    case Tuple(items) => forall i | 0 <= i < |items| :: Named(items[i])
    case Arr(elem, size) => Named(elem) && Plain(size)
  }

  /** There is no array anywhere in the type. */
  predicate Flat(ty: Ty) {
    match ty
    case Elem(_) => true
    case Tuple(items) => forall i | 0 <= i < |items| :: Flat(items[i])
    case Arr(_, _) => false
  }

  /** At most one array, outermost. */
  predicate Simple(ty: Ty) { Flat(if ty.Arr? then ty.elem else ty) }

  // ---- printed types are balanced ----

  /** Parentheses match up and every comma is inside some. */
  ghost predicate Balanced(s: string) {
    && Level(s) == 0 && (forall k | 0 <= k <= |s| :: Level(s[..k]) >= 0)
    && (forall k | 0 <= k < |s| && s[k] == ',' :: Level(s[..k]) > 0)
  }

  /** Parentheses match up. */
  ghost predicate Matched(s: string) {
    Level(s) == 0 && forall k | 0 <= k <= |s| :: Level(s[..k]) >= 0
  }

  lemma {:induction false} PlainLevel(s: string)
    requires Plain(s)
    ensures Level(s) == 0
  {
    if s != "" { PlainLevel(s[..|s| - 1]); }
  }

  lemma PlainBalanced(s: string)
    requires Plain(s)
    ensures Balanced(s)
  {
    PlainLevel(s);
    forall k | 0 <= k <= |s| ensures Level(s[..k]) == 0 { PlainLevel(s[..k]); }
  }

  lemma PrefixLevel(a: string, b: string, k: nat)
    requires k <= |a| + |b|
    ensures Level((a + b)[..k]) == if k <= |a| then Level(a[..k]) else Level(a) + Level(b[..k - |a|])
  {
    if k <= |a| {
      assert (a + b)[..k] == a[..k];
    } else {
      assert (a + b)[..k] == a + b[..k - |a|];
      LevelAppend(a, b[..k - |a|]);
    }
  }

  lemma MatchedAppend(a: string, b: string)
    requires Matched(a) && Matched(b)
    ensures Matched(a + b)
  {
    LevelAppend(a, b);
    forall k | 0 <= k <= |a + b| ensures Level((a + b)[..k]) >= 0 { PrefixLevel(a, b, k); }
  }

  lemma BalancedAppendPlain(a: string, b: string)
    requires Balanced(a) && Plain(b)
    ensures Balanced(a + b)
  {
    PlainBalanced(b);
    MatchedAppend(a, b);
    forall k | 0 <= k < |a + b| && (a + b)[k] == ',' ensures Level((a + b)[..k]) > 0 {
      PrefixLevel(a, b, k);
      assert k < |a| && a[k] == ',';
    }
  }

  lemma {:induction false} JoinMatched(items: seq<string>)
    requires forall i | 0 <= i < |items| :: Matched(items[i])
    ensures Matched(Join(items))
  {
    if items == [] {
    } else if |items| > 1 {
      JoinMatched(items[1..]);
      assert Level(",") == 0 && Matched(",");
      MatchedAppend(items[0], ",");
      MatchedAppend(items[0] + ",", Join(items[1..]));
    }
  }

  lemma Bracketed(s: string)
    requires Matched(s)
    ensures Balanced("(" + s + ")")
  {
    var t := "(" + s + ")";
    assert Level("(") == 1 && Level(")") == -1;
    LevelAppend("(", s);
    LevelAppend("(" + s, ")");
    forall k | 1 <= k < |t| ensures Level(t[..k]) > 0 {
      assert t[..k] == "(" + s[..k - 1];
      LevelAppend("(", s[..k - 1]);
    }
    assert t[..|t|] == t && t[..0] == "";
  }

  lemma {:induction false} PrintBalanced(ty: Ty)
    requires Named(ty)
    ensures Balanced(Print(ty)) && |Print(ty)| > 1
    decreases ty, 1
  {
    match ty
    case Elem(name) => PlainBalanced(name);
    case Tuple(items) =>
      PrintAllBalanced(items);
      JoinMatched(PrintAll(items));
      Bracketed(Join(PrintAll(items)));
    case Arr(elem, size) =>
      PrintBalanced(elem);
      ArrayBalanced(Print(elem), size);
  }

  lemma ArrayBalanced(s: string, size: string)
    requires Balanced(s) && Plain(size)
    ensures Balanced(s + "[" + size + "]")
  {
    BracketBalanced(s);
    BalancedAppendPlain(s + "[", size);
    BalancedAppendPlain(s + "[" + size, "]");
  }

  lemma BracketBalanced(s: string)
    requires Balanced(s)
    ensures Balanced(s + "[")
  {
    assert Level("[") == 0;
    LevelAppend(s, "[");
    forall k | 0 <= k <= |s| + 1 ensures Level((s + "[")[..k]) >= 0 { PrefixLevel(s, "[", k); }
    forall k | 0 <= k < |s| + 1 && (s + "[")[k] == ',' ensures Level((s + "[")[..k]) > 0 {
      PrefixLevel(s, "[", k);
      assert s[k] == ',';
    }
  }

  lemma {:induction false} PrintAllBalanced(tys: seq<Ty>)
    requires forall i | 0 <= i < |tys| :: Named(tys[i])
    ensures forall i | 0 <= i < |tys| :: Balanced(PrintAll(tys)[i]) && |PrintAll(tys)[i]| > 1
    decreases tys, 0
  {
    if tys != [] {
      PrintBalanced(tys[0]);
      PrintAllBalanced(tys[1..]);
    }
  }

  lemma BalancedClosed(s: string)
    requires Balanced(s)
    ensures Closed(s)
  {
  }

  /** Splitting a printed tuple gives back the printed components. */
  lemma SplitPrinted(items: seq<Ty>)
    requires forall i | 0 <= i < |items| :: Named(items[i])
    ensures Split(Print(Tuple(items))) == PrintAll(items)
  {
    PrintAllBalanced(items);
    forall i | 0 <= i < |items| ensures Closed(PrintAll(items)[i]) { BalancedClosed(PrintAll(items)[i]); }
    SplitUndoesJoin(PrintAll(items));
  }
}
