/** Splitting ABI type lists at their top-level commas: `splitTypes`. */
module TypeLists {

  /** Opening minus closing parentheses. */
  function Level(s: string): int {
    if s == "" then 0
    else Level(s[..|s| - 1]) + (if s[|s| - 1] == '(' then 1 else if s[|s| - 1] == ')' then -1 else 0)
  }

  lemma {:induction false} LevelAppend(a: string, b: string)
    ensures Level(a + b) == Level(a) + Level(b)
  {
    if b == "" {
      assert a + b == a;
    } else {
      assert (a + b)[..|a + b| - 1] == a + b[..|b| - 1];
      LevelAppend(a, b[..|b| - 1]);
    }
  }

  /** There is a separating comma at position i. */
  predicate CutAt(s: string, i: nat) { i < |s| && s[i] == ',' && Level(s[..i]) == 0 }

  /** The first separating comma at or after i, or the end. */
  function NextCut(s: string, i: nat): (n: nat)
    requires i <= |s|
    ensures i <= n <= |s|
    ensures n < |s| ==> CutAt(s, n)
    ensures forall k | i <= k < n :: !CutAt(s, k)
    decreases |s| - i
  {
    if i == |s| || CutAt(s, i) then i else NextCut(s, i + 1)
  }

  /** The text cut at all separating commas. */
  function Pieces(s: string): (ps: seq<string>)
    ensures ps != []
    decreases |s|
  {
    var n := NextCut(s, 0);
    if n == |s| then [s] else [s[..n]] + Pieces(s[n + 1..])
  }

  function Unbracketed(types: string): string {
    if |types| > 1 && types[0] == '(' && types[|types| - 1] == ')' then types[1..|types| - 1] else types
  }

  /** A last piece of fewer than two characters is lost. */
  function WithoutShortTail(ps: seq<string>): seq<string>
    requires ps != []
  {
    if |ps[|ps| - 1]| > 1 then ps else ps[..|ps| - 1]
  }

  function Split(types: string): seq<string> {
    WithoutShortTail(Pieces(Unbracketed(types)))
  }

  /** None of the first n characters separates. */
  predicate Uncut(s: string, n: nat) { forall k | 0 <= k < n :: !CutAt(s, k) }

  lemma CutIs(s: string, n: nat)
    requires n <= |s| && Uncut(s, n) && (n == |s| || CutAt(s, n))
    ensures NextCut(s, 0) == n
  {
    var m := NextCut(s, 0);
    assert m < |s| ==> CutAt(s, m);
  }

  lemma PieceDone(s: string, p: nat, i: nat)
    requires p <= i < |s| && CutAt(s[p..], i - p) && Uncut(s[p..], i - p)
    ensures Pieces(s[p..]) == [s[p..i]] + Pieces(s[i + 1..])
  {
    CutIs(s[p..], i - p);
    assert s[p..][..i - p] == s[p..i] && s[p..][i - p + 1..] == s[i + 1..];
  }

  lemma UncutStep(t: string, n: nat)
    requires n < |t| && Uncut(t, n)
    ensures Uncut(t, n + 1) <==> !CutAt(t, n)
  {
  }

  /** Up to i the loop has collected `res`; the current piece starts at p. */
  ghost predicate Splitting(s: string, p: nat, i: nat, l: int, res: seq<string>) {
    && p <= i <= |s| && l == Level(s[p..i]) && Uncut(s[p..], i - p)
    && res + Pieces(s[p..]) == Pieces(s)
  }

  lemma SplitStep(s: string, p: nat, i: nat, l: int, res: seq<string>)
    requires Splitting(s, p, i, l, res) && i < |s|
    ensures s[i] == '(' ==> Splitting(s, p, i + 1, l + 1, res)
    ensures s[i] == ')' ==> Splitting(s, p, i + 1, l - 1, res)
    ensures s[i] == ',' && l == 0 ==> Splitting(s, i + 1, i + 1, l, res + [s[p..i]])
    ensures s[i] != '(' && s[i] != ')' && !(s[i] == ',' && l == 0) ==> Splitting(s, p, i + 1, l, res)
  {
    assert s[p..i + 1][..i - p] == s[p..i] == s[p..][..i - p];
    UncutStep(s[p..], i - p);
    if s[i] == ',' && l == 0 {
      PieceDone(s, p, i);
      assert res + ([s[p..i]] + Pieces(s[i + 1..])) == res + [s[p..i]] + Pieces(s[i + 1..]);
    }
  }

  method SplitTypes(types: string, removeBrackets: bool) returns (res: seq<string>)
    ensures res == if removeBrackets then Split(types) else WithoutShortTail(Pieces(types))
  {
    if removeBrackets && |types| > 1 && types[0] == '(' && types[|types| - 1] == ')' {
      res := Collect(types[1..|types| - 1]);
    } else {
      res := Collect(types);
    }
  }

  /** The loop of `splitTypes`. */
  method Collect(types: string) returns (res: seq<string>)
    ensures res == WithoutShortTail(Pieces(types))
  {
    var p, l := 0, 0;
    res := [];
    SplitStart(types);
    for i := 0 to |types|
      invariant Splitting(types, p, i, l, res)
    {
      SplitStep(types, p, i, l, res);
      match types[i]
      case '(' => l := l + 1;
      case ')' => l := l - 1;
      case ',' =>
        if l == 0 {
          res := res + [types[p..i]];
          p := i + 1;
        }
      case _ =>
    }
    SplitEnd(types, p, l, res);
    if |types| > p + 1 {
      res := res + [types[p..]];
    }
  }

  lemma SplitStart(s: string)
    ensures Splitting(s, 0, 0, 0, [])
  {
    assert s[0..] == s;
  }

  lemma SplitEnd(s: string, p: nat, l: int, res: seq<string>)
    requires Splitting(s, p, |s|, l, res)
    ensures WithoutShortTail(Pieces(s)) == if |s| > p + 1 then res + [s[p..]] else res
  {
    LastPiece(s[p..]);
  }

  lemma LastPiece(t: string)
    requires Uncut(t, |t|)
    ensures Pieces(t) == [t]
  {
    CutIs(t, |t|);
  }

  // ---- joining ----

  function Join(items: seq<string>): string {
    if items == [] then "" else if |items| == 1 then items[0] else items[0] + "," + Join(items[1..])
  }

  /** No comma of the item separates, and its parentheses cancel out. */
  predicate Closed(s: string) {
    Level(s) == 0 && Uncut(s, |s|)
  }

  lemma CutBehind(item: string, rest: string)
    requires Closed(item)
    ensures NextCut(item + "," + rest, 0) == |item|
  {
    var s := item + "," + rest;
    forall k | 0 <= k < |item| ensures !CutAt(s, k) {
      assert s[..k] == item[..k];
      assert !CutAt(item, k);
    }
    assert s[..|item|] == item;
    CutIs(s, |item|);
  }

  lemma {:induction false} PiecesOfJoin(items: seq<string>)
    requires items != [] && forall k | 0 <= k < |items| :: Closed(items[k])
    ensures Pieces(Join(items)) == items
  {
    if |items| == 1 {
      LastPiece(items[0]);
    } else {
      var rest := Join(items[1..]);
      CutBehind(items[0], rest);
      PiecesOfJoin(items[1..]);
      var s := items[0] + "," + rest;
      assert s[..|items[0]|] == items[0] && s[|items[0]| + 1..] == rest;
    }
  }

  /** Splitting undoes bracketing and joining, exactly unless the last item has fewer than two characters. */
  lemma SplitUndoesJoin(items: seq<string>)
    requires forall k | 0 <= k < |items| :: Closed(items[k])
    ensures Split("(" + Join(items) + ")") == items <==> (items == [] || |items[|items| - 1]| > 1)
  {
    var s := "(" + Join(items) + ")";
    assert s[1..|s| - 1] == Join(items);
    assert Unbracketed(s) == Join(items);
    if items == [] {
      assert Pieces("") == [""];
    } else {
      PiecesOfJoin(items);
    }
  }

  /** A last item of one character is lost. */
  lemma ShortItemIsLost()
    ensures Join(["ab", "c"]) == "ab,c" && Split("(ab,c)") == ["ab"]
  {
    var items := ["ab", "c"];
    assert Level("a") == 0 && Level("ab") == 0 && Level("c") == 0;
    assert "ab"[..1] == "a";
    assert items[1..] == ["c"];
    PiecesOfJoin(items);
    assert "(" + "ab,c" + ")" == "(ab,c)";
    assert Unbracketed("(ab,c)") == "ab,c";
  }

  /** The level of a text is the number of its opening minus that of its closing parentheses. */
  lemma {:induction false} LevelCounts(s: string)
    ensures Level(s) == multiset(s)['('] as int - multiset(s)[')'] as int
  {
    if s != "" {
      LevelCounts(s[..|s| - 1]);
      assert s == s[..|s| - 1] + [s[|s| - 1]];
    }
  }

  /**
   For every text, balanced or not: the pieces joined by commas are the text, no
   piece has a comma at level zero, and all but the last end at level zero.
   */
  lemma {:induction false} PiecesExactly(s: string)
    ensures Join(Pieces(s)) == s
    ensures forall i | 0 <= i < |Pieces(s)| :: Uncut(Pieces(s)[i], |Pieces(s)[i]|)
    ensures forall i | 0 <= i < |Pieces(s)| - 1 :: Level(Pieces(s)[i]) == 0
    decreases |s|
  {
    var n := NextCut(s, 0);
    FirstPiece(s);
    if n < |s| {
      PiecesExactly(s[n + 1..]);
      assert Pieces(s)[1..] == Pieces(s[n + 1..]);
      assert s == s[..n] + "," + s[n + 1..];
    }
  }

  lemma FirstPiece(s: string)
    ensures Uncut(s[..NextCut(s, 0)], NextCut(s, 0))
  {
    var n := NextCut(s, 0);
    forall k | 0 <= k < n ensures !CutAt(s[..n], k) {
      assert s[..n][..k] == s[..k];
      assert !CutAt(s, k);
    }
  }
}
