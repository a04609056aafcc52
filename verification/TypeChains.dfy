/** The meaning of a type, key by key along the chain of what it extends. */
module TypeChains {
  import opened Digits
  import opened TypeTable

  // ---- names ----

  predicate IsAlias(v: Val, types: Types) { Truthy(v) && v.Name? && v.name in types }

  /** A name, what the table has for it, what the table has for that, and so on to the end. */
  ghost predicate Aliases(path: seq<Val>, types: Types) {
    && path != [] && !IsAlias(path[|path| - 1], types)
    && forall i | 0 <= i < |path| - 1 :: IsAlias(path[i], types) && path[i + 1] == types[path[i].name]
  }

  ghost function AliasesOf(v: Val, types: Types, orig: Origin, rank: Val -> nat): (path: seq<Val>)
    requires Acyclic(types, orig, rank) && Known(v, orig)
    ensures Aliases(path, types) && path[0] == v
    decreases rank(v)
  {
    if IsAlias(v, types) then [v] + AliasesOf(types[v.name], types, orig, rank) else [v]
  }

  /** A value resolves to the last one of its aliases that means something. */
  lemma {:induction false} ResolvedIsLastAlias(path: seq<Val>, types: Types, orig: Origin, rank: Val -> nat)
    requires Acyclic(types, orig, rank) && Aliases(path, types) && Known(path[0], orig)
    ensures
      var last := path[|path| - 1];
      Resolved(path[0], types, orig, rank) ==
      if Truthy(last) then last else if |path| > 1 then path[|path| - 2] else Undefined
    decreases |path|
  {
    if |path| > 1 {
      ResolvedIsLastAlias(path[1..], types, orig, rank);
    }
  }

  // ---- extensions ----

  /** What the extension of d resolves to. */
  ghost function BaseOf(d: TypeDef, types: Types, orig: Origin, rank: Val -> nat): (r: Val)
    requires Acyclic(types, orig, rank) && d in orig
    ensures r.Obj? ==> r.def in orig && rank(r) < rank(Obj(d))
  {
    if Truthy(orig[d].base) then Resolved(orig[d].base, types, orig, rank) else Undefined
  }

  /** An object, the one it extends, and so on to one that extends none. */
  ghost predicate Chain(chain: seq<TypeDef>, types: Types, orig: Origin, rank: Val -> nat)
    requires Acyclic(types, orig, rank)
  {
    && chain != [] && (forall i | 0 <= i < |chain| :: chain[i] in orig)
    && (forall i | 0 <= i < |chain| - 1 :: BaseOf(chain[i], types, orig, rank) == Obj(chain[i + 1]))
    && !BaseOf(chain[|chain| - 1], types, orig, rank).Obj?
  }

  ghost function ChainOf(d: TypeDef, types: Types, orig: Origin, rank: Val -> nat): (chain: seq<TypeDef>)
    requires Acyclic(types, orig, rank) && d in orig
    ensures Chain(chain, types, orig, rank) && chain[0] == d
    decreases rank(Obj(d))
  {
    var b := BaseOf(d, types, orig, rank);
    if b.Obj? then [d] + ChainOf(b.def, types, orig, rank) else [d]
  }

  /** The text at the end of a chain: an extension that names nothing in the table. */
  ghost function FinalText(chain: seq<TypeDef>, types: Types, orig: Origin, rank: Val -> nat): string
    requires Acyclic(types, orig, rank) && Chain(chain, types, orig, rank)
  {
    var b := BaseOf(chain[|chain| - 1], types, orig, rank);
    if b.Name? then b.name else ""
  }

  /** Member i of the chain is the first one with property k. */
  ghost predicate FirstWith(chain: seq<TypeDef>, i: nat, k: string, orig: Origin)
    requires forall j | 0 <= j < |chain| :: chain[j] in orig
  {
    i < |chain| && k in orig[chain[i]].props && forall j | 0 <= j < i :: k !in orig[chain[j]].props
  }

  lemma FirstInRest(chain: seq<TypeDef>, i: nat, k: string, orig: Origin)
    requires (forall j | 0 <= j < |chain| :: chain[j] in orig) && FirstWith(chain, i, k, orig) && i > 0
    ensures FirstWith(chain[1..], i - 1, k, orig)
  {
    assert forall j | 0 <= j < i - 1 :: chain[1..][j] == chain[j + 1];
  }

  lemma RestIsChain(chain: seq<TypeDef>, types: Types, orig: Origin, rank: Val -> nat)
    requires Acyclic(types, orig, rank) && Chain(chain, types, orig, rank) && |chain| > 1
    ensures Chain(chain[1..], types, orig, rank)
    ensures FinalText(chain[1..], types, orig, rank) == FinalText(chain, types, orig, rank)
    ensures Meaning(chain[0], types, orig, rank) == Meaning(chain[1], types, orig, rank) + orig[chain[0]].props
  {
    var rest := chain[1..];
    assert BaseOf(chain[0], types, orig, rank) == Obj(chain[1]);
    forall i | 0 <= i < |rest| - 1 ensures BaseOf(rest[i], types, orig, rank) == Obj(rest[i + 1]) {
      assert rest[i] == chain[i + 1] && rest[i + 1] == chain[i + 2];
    }
  }

  /** The value of k is that of the first member of the chain that has it. */
  lemma {:induction false} FirstHolderWins(
    chain: seq<TypeDef>, i: nat, k: string, types: Types, orig: Origin, rank: Val -> nat)
    requires Acyclic(types, orig, rank) && Chain(chain, types, orig, rank) && FirstWith(chain, i, k, orig)
    ensures
      var m := Meaning(chain[0], types, orig, rank);
      k in m && m[k] == orig[chain[i]].props[k]
    decreases i
  {
    if i > 0 {
      RestIsChain(chain, types, orig, rank);
      FirstInRest(chain, i, k, orig);
      FirstHolderWins(chain[1..], i - 1, k, types, orig, rank);
    }
  }

  /** A key no member has comes from the characters of the final text, or from nowhere. */
  lemma {:induction false} OtherwiseFinalText(
    chain: seq<TypeDef>, k: string, types: Types, orig: Origin, rank: Val -> nat)
    requires Acyclic(types, orig, rank) && Chain(chain, types, orig, rank)
    requires forall i | 0 <= i < |chain| :: k !in orig[chain[i]].props
    ensures
      var m, end := Meaning(chain[0], types, orig, rank), CharProps(FinalText(chain, types, orig, rank));
      (k in m <==> k in end) && (k in end ==> m[k] == end[k])
    decreases |chain|
  {
    if |chain| > 1 {
      RestIsChain(chain, types, orig, rank);
      assert forall i | 0 <= i < |chain| - 1 :: chain[1..][i] == chain[i + 1];
      OtherwiseFinalText(chain[1..], k, types, orig, rank);
    } else {
      assert CharProps("") == map[];
    }
  }

  /** In particular every type keeps all its own properties, with their own values. */
  lemma OwnPropertiesSurvive(d: TypeDef, k: string, types: Types, orig: Origin, rank: Val -> nat)
    requires Acyclic(types, orig, rank) && d in orig && k in orig[d].props
    ensures var m := Meaning(d, types, orig, rank); k in m && m[k] == orig[d].props[k]
  {
    var chain := ChainOf(d, types, orig, rank);
    FirstHolderWins(chain, 0, k, types, orig, rank);
  }

  // ---- the characters of a text ----

  predicate IsDecimal(s: string) { forall i | 0 <= i < |s| :: '0' <= s[i] <= '9' }

  function DecimalDigits(s: string): (ds: seq<nat>)
    requires IsDecimal(s)
    ensures |ds| == |s|
  {
    seq(|s|, i requires 0 <= i < |s| => s[i] as nat - '0' as nat)
  }

  lemma DecimalChar(n: nat)
    requires n < 10
    ensures '0' <= "0123456789"[n] <= '9' && "0123456789"[n] as nat - '0' as nat == n
  {
    assert "0123456789" == ['0', '1', '2', '3', '4', '5', '6', '7', '8', '9'];
  }

  lemma DecimalAppend(front: string, c: char)
    requires IsDecimal(front) && '0' <= c <= '9'
    ensures IsDecimal(front + [c])
    ensures Value(10, DecimalDigits(front + [c])) == Value(10, DecimalDigits(front)) * 10 + (c as nat - '0' as nat)
  {
    var s := front + [c];
    assert DecimalDigits(s)[..|front|] == DecimalDigits(front);
  }

  /** The text of a number is its decimal numeral. */
  lemma {:induction false} DecimalDenotes(n: nat)
    ensures IsDecimal(Decimal(n)) && Value(10, DecimalDigits(Decimal(n))) == n
    ensures Decimal(n) != "" && (n > 0 ==> Decimal(n)[0] != '0')
  {
    DecimalChar(n % 10);
    if n < 10 {
      DecimalAppend("", "0123456789"[n]);
      assert Decimal(n) == "" + ["0123456789"[n]];
    } else {
      DecimalDenotes(n / 10);
      DecimalAppend(Decimal(n / 10), "0123456789"[n % 10]);
    }
  }

  lemma DecimalInjective(i: nat, n: nat)
    requires i != n
    ensures Decimal(i) != Decimal(n)
  {
    DecimalDenotes(i);
    DecimalDenotes(n);
  }

  lemma {:induction false} CharUnderPosition(s: string, i: nat)
    requires i < |s|
    ensures Decimal(i) in CharProps(s) && CharProps(s)[Decimal(i)] == [s[i]]
  {
    if i < |s| - 1 {
      CharUnderPosition(s[..|s| - 1], i);
      DecimalInjective(i, |s| - 1);
    }
  }

  ghost predicate IsPosition(s: string, k: string) { exists i | 0 <= i < |s| :: k == Decimal(i) }

  lemma {:induction false} KeyIsPosition(s: string, k: string)
    requires k in CharProps(s)
    ensures IsPosition(s, k)
  {
    if k != Decimal(|s| - 1) {
      KeyIsPosition(s[..|s| - 1], k);
      var i :| 0 <= i < |s| - 1 && k == Decimal(i);
    }
  }

  /** Spreading a text gives each character under its position, and nothing else. */
  lemma CharPropsAre(s: string)
    ensures forall k :: k in CharProps(s) <==> IsPosition(s, k)
    ensures forall i | 0 <= i < |s| :: Decimal(i) in CharProps(s) && CharProps(s)[Decimal(i)] == [s[i]]
  {
    forall i | 0 <= i < |s| ensures Decimal(i) in CharProps(s) && CharProps(s)[Decimal(i)] == [s[i]] {
      CharUnderPosition(s, i);
    }
    forall k | k in CharProps(s) ensures IsPosition(s, k) { KeyIsPosition(s, k); }
  }
}
