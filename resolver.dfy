/**
 * Alias references and their resolution (`src/utils/tokenResolver.ts`).
 * An alias is a string `{a.b.c}`; resolving it looks the dotted path up in
 * `global` first and in `semantic` second, picking the brand's entry from a
 * multi-brand `$value`, and repeats on the result within a depth budget.
 */
module TokenResolver {
  import opened Wrappers
  import opened Text
  import opened JsonTree

  /** `isAlias` on a string: it starts with `{` and ends with `}`. */
  predicate IsAliasString(s: string)
  {
    StartsWith(s, "{") && EndsWith(s, "}")
  }

  /** `isAlias`: only strings can be aliases. */
  predicate IsAlias(v: Json)
  {
    v.Str? && IsAliasString(v.str)
  }

  /** `extractAliasPath`: the alias without its braces; other strings are kept. */
  function ExtractAliasPath(alias: string): (path: string)
    ensures IsAliasString(alias) ==> alias == "{" + path + "}"
    ensures !IsAliasString(alias) ==> path == alias
  {
    if !IsAliasString(alias) then alias
    else
      assert alias[0] == '{' && alias[|alias| - 1] == '}';
      assert alias == [alias[0]] + alias[1..|alias| - 1] + [alias[|alias| - 1]];
      alias[1..|alias| - 1]
  }

  /** Wrapping a path in braces gives an alias whose path is that path. */
  lemma {:induction false} AliasRoundTrip(path: string)
    ensures IsAliasString("{" + path + "}")
    ensures ExtractAliasPath("{" + path + "}") == path
  {
    var alias := "{" + path + "}";
    assert alias[..1] == "{";
    assert alias[|alias| - 1..] == "}";
    assert alias[1..|alias| - 1] == path;
  }

  /** The value `getValueByPath` finds at a dotted path. */
  function ValueAtPath(obj: Option<Json>, path: string): Option<Json>
  {
    Walk(obj, Split(path, '.'))
  }

  /** `getValueByPath`: walks the dot-separated segments one at a time. */
  method GetValueByPath(obj: Option<Json>, path: string) returns (r: Option<Json>)
    ensures r == ValueAtPath(obj, path)
  {
    var parts := Split(path, '.');
    var current := obj;
    var i := 0;
    while i < |parts|
      invariant 0 <= i <= |parts|
      invariant Walk(obj, parts) == Walk(current, parts[i..])
    {
      assert parts[i..][1..] == parts[i + 1..];
      if current.None? || current.value == Null {
        return None;
      }
      if !current.value.Obj? {
        return None;
      }
      current := Get(current.value.fields, parts[i]);
      i := i + 1;
    }
    assert parts[i..] == [];
    return current;
  }

  /** `x && typeof x === 'object' && '$value' in x`. */
  predicate HasValueKey(x: Option<Json>)
  {
    x.Some? && HasKey(x.value, "$value")
  }

  /** The `$value` member of an object known to have one. */
  function ValueOf(x: Option<Json>): Json
    requires HasValueKey(x)
  {
    Member(x.value, "$value").value
  }

  /**
   * One dereference step of `resolveTokenValue` for the alias string `alias`:
   * the `$value` found under `global`, else the brand's entry (or the plain
   * string) found under `semantic`, else nothing.
   */
  function Deref(alias: string, doc: Json, brand: string): Option<Json>
  {
    var path := ExtractAliasPath(alias);
    var globalValue := ValueAtPath(Member(doc, "global"), path);
    if HasValueKey(globalValue) then Some(ValueOf(globalValue))
    else
      var semanticValue := ValueAtPath(Member(doc, "semantic"), path);
      if HasValueKey(semanticValue) then
        var valueObj := ValueOf(semanticValue);
        if valueObj.Obj? && brand in Keys(valueObj.fields) then Get(valueObj.fields, brand)
        else if valueObj.Str? then Some(valueObj)
        else None
      else None
  }

  /** A dereference step: the value an alias string points to, if any. */
  type Step = string -> Option<Json>

  /**
   * The recursion of `resolveTokenValue` over a dereference step: stop when
   * the budget is spent or the value is not an alias, return the alias itself
   * when it cannot be dereferenced, else continue with one unit less.
   */
  function Follow(step: Step, value: Json, maxDepth: int): Json
    decreases if maxDepth < 0 then 0 else maxDepth
  {
    if maxDepth <= 0 then value
    else if !IsAlias(value) then value
    else match step(value.str)
      case None => value
      case Some(next) => Follow(step, next, maxDepth - 1)
  }

  /** The dereference step of a document and brand. */
  function DerefStep(doc: Json, brand: string): Step
  {
    s => Deref(s, doc, brand)
  }

  /** `resolveTokenValue(value, tokens, brandName, maxDepth)`. */
  function Resolve(value: Json, doc: Json, brand: string, maxDepth: int): Json
  {
    Follow(DerefStep(doc, brand), value, maxDepth)
  }

  /** The outcome cases of a single resolution call. */
  lemma ResolveCases(value: Json, doc: Json, brand: string, maxDepth: int)
    ensures maxDepth <= 0 ==> Resolve(value, doc, brand, maxDepth) == value
    ensures !IsAlias(value) ==> Resolve(value, doc, brand, maxDepth) == value
    ensures maxDepth > 0 && IsAlias(value) ==>
      var path := ExtractAliasPath(value.str);
      var g := ValueAtPath(Member(doc, "global"), path);
      var s := ValueAtPath(Member(doc, "semantic"), path);
      (HasValueKey(g) ==> Resolve(value, doc, brand, maxDepth) == Resolve(ValueOf(g), doc, brand, maxDepth - 1))
      && (!HasValueKey(g) && HasValueKey(s) && ValueOf(s).Obj? && brand in Keys(ValueOf(s).fields) ==>
            Resolve(value, doc, brand, maxDepth)
            == Resolve(Get(ValueOf(s).fields, brand).value, doc, brand, maxDepth - 1))
      && (!HasValueKey(g) && HasValueKey(s) && ValueOf(s).Str? ==>
            Resolve(value, doc, brand, maxDepth) == Resolve(ValueOf(s), doc, brand, maxDepth - 1))
      && (!HasValueKey(g) && !HasValueKey(s) ==> Resolve(value, doc, brand, maxDepth) == value)
      && (!HasValueKey(g) && HasValueKey(s) && !(ValueOf(s).Obj? && brand in Keys(ValueOf(s).fields)) && !ValueOf(s).Str? ==>
            Resolve(value, doc, brand, maxDepth) == value)
  {
  }

  /** The value reached after exactly `k` dereference steps, if every step succeeds. */
  function Chain(step: Step, value: Json, k: nat): Option<Json>
    decreases k
  {
    if k == 0 then Some(value)
    else if !IsAlias(value) then None
    else match step(value.str)
      case None => None
      case Some(next) => Chain(step, next, k - 1)
  }

  /** A value resolution stops at: a non-alias, or an alias that cannot be dereferenced. */
  predicate Terminal(step: Step, value: Json)
  {
    !IsAlias(value) || step(value.str).None?
  }

  /**
   * Resolution follows the alias chain: its result is the value reached after
   * some `k <= maxDepth` steps, and when fewer steps than the budget were taken
   * that value is terminal. Budget exhaustion on a cycle is the case `k == maxDepth`.
   */
  lemma {:induction false} FollowIsChainEnd(step: Step, value: Json, maxDepth: int)
    ensures exists k: nat ::
      (k <= (if maxDepth < 0 then 0 else maxDepth)
       && Chain(step, value, k) == Some(Follow(step, value, maxDepth))
       && (k < maxDepth ==> Terminal(step, Follow(step, value, maxDepth))))
    decreases if maxDepth < 0 then 0 else maxDepth
  {
    var r := Follow(step, value, maxDepth);
    if maxDepth <= 0 || Terminal(step, value) {
      assert Chain(step, value, 0) == Some(r);
    } else {
      var next := step(value.str).value;
      FollowIsChainEnd(step, next, maxDepth - 1);
      var k: nat :| k <= maxDepth - 1
        && Chain(step, next, k) == Some(r)
        && (k < maxDepth - 1 ==> Terminal(step, r));
      assert Chain(step, value, k + 1) == Some(r);
    }
  }

  /** Once resolution ends on a terminal value, a larger budget gives the same result. */
  lemma {:induction false} FollowMoreBudget(step: Step, value: Json, n: int, m: int)
    requires n <= m
    requires Terminal(step, Follow(step, value, n))
    ensures Follow(step, value, m) == Follow(step, value, n)
    decreases if n < 0 then 0 else n
  {
    if n > 0 && !Terminal(step, value) {
      FollowMoreBudget(step, step(value.str).value, n - 1, m - 1);
    }
  }

  /** `isValidAlias`: an alias whose path reaches an object with `$value` in either section. */
  predicate IsValidAlias(alias: Json, doc: Json)
  {
    IsAlias(alias)
    && (HasValueKey(ValueAtPath(Member(doc, "global"), ExtractAliasPath(alias.str)))
        || HasValueKey(ValueAtPath(Member(doc, "semantic"), ExtractAliasPath(alias.str))))
  }

  /**
   * Any alias that makes progress is valid; an invalid alias resolves to
   * itself whatever the positive budget.
   */
  lemma InvalidAliasUnresolved(alias: Json, doc: Json, brand: string, maxDepth: int)
    ensures IsAlias(alias) && Deref(alias.str, doc, brand).Some? ==> IsValidAlias(alias, doc)
    ensures IsAlias(alias) && !IsValidAlias(alias, doc) ==> Resolve(alias, doc, brand, maxDepth) == alias
  {
  }

  /** A global colour token whose value is the alias of `target`. */
  function AliasToken(target: string): Json
  {
    Obj([("$value", Str("{" + target + "}")), ("$type", Str("color"))])
  }

  /** The `global` section of the cycle: `a` refers to `b` and `b` to `a`. */
  function CycleGlobal(): Json
  {
    Obj([("a", AliasToken("b")), ("b", AliasToken("a"))])
  }

  /** The document of the two-alias cycle `a -> b -> a` in `global`. */
  function CycleDoc(): Json
  {
    Obj([("global", CycleGlobal())])
  }

  /** A path whose global entry has a `$value` dereferences to that value. */
  lemma DerefGlobalHit(path: string, doc: Json, brand: string, token: Json)
    requires ValueAtPath(Member(doc, "global"), path) == Some(token)
    requires HasKey(token, "$value")
    ensures DerefStep(doc, brand)("{" + path + "}") == Member(token, "$value")
  {
    AliasRoundTrip(path);
  }

  /** A one-segment path is looked up as that single key. */
  lemma SingleSegment(key: string)
    requires '.' !in key
    ensures Split(key, '.') == [key]
  {
    SplitJoin([key], '.');
  }

  /** In the cycle document, `{from}` dereferences to the value of `global[from]`. */
  lemma CycleStep(brand: string, from: string, to: string)
    requires (from, to) == ("a", "b") || (from, to) == ("b", "a")
    ensures DerefStep(CycleDoc(), brand)("{" + from + "}") == Some(Str("{" + to + "}"))
  {
    var g := CycleGlobal();
    assert Member(CycleDoc(), "global") == Some(g);
    assert Get(g.fields, from) == Some(AliasToken(to));
    SingleSegment(from);
    assert ValueAtPath(Some(g), from) == Some(AliasToken(to));
    assert Member(AliasToken(to), "$value") == Some(Str("{" + to + "}"));
    DerefGlobalHit(from, CycleDoc(), brand, AliasToken(to));
  }

  lemma CycleSteps(brand: string)
    ensures DerefStep(CycleDoc(), brand)("{a}") == Some(Str("{b}"))
    ensures DerefStep(CycleDoc(), brand)("{b}") == Some(Str("{a}"))
    ensures IsAliasString("{a}") && IsAliasString("{b}")
  {
    CycleStep(brand, "a", "b");
    CycleStep(brand, "b", "a");
    assert "{" + "a" + "}" == "{a}";
    assert "{" + "b" + "}" == "{b}";
    AliasRoundTrip("a");
    AliasRoundTrip("b");
  }

  /** Two aliases that dereference to each other alternate until the budget is spent. */
  lemma {:induction false} FollowTwoCycle(step: Step, a: Json, b: Json, n: nat)
    requires IsAlias(a) && IsAlias(b)
    requires step(a.str) == Some(b) && step(b.str) == Some(a)
    ensures Follow(step, a, n) == (if n % 2 == 0 then a else b)
    ensures Follow(step, b, n) == (if n % 2 == 0 then b else a)
  {
    if n > 0 {
      FollowTwoCycle(step, a, b, n - 1);
    }
  }

  /** On the cycle the budget runs out, ending on `{a}` or `{b}` by parity. */
  lemma CycleExhaustsBudget(brand: string, n: nat)
    ensures Resolve(Str("{a}"), CycleDoc(), brand, n) == Str(if n % 2 == 0 then "{a}" else "{b}")
    ensures Resolve(Str("{b}"), CycleDoc(), brand, n) == Str(if n % 2 == 0 then "{b}" else "{a}")
  {
    CycleSteps(brand);
    FollowTwoCycle(DerefStep(CycleDoc(), brand), Str("{a}"), Str("{b}"), n);
  }
}
