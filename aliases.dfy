/**
 * Alias autocomplete (`getGlobalAliases`, `getSemanticAliases`,
 * `getAllAliases`, `getGlobalAliasesByType`, `getAllAliasesByType` in
 * `src/utils/tokenResolver.ts`). Each walks a part of the document depth-first
 * in key order, building `path ? path + "." + key : key` as it descends, and
 * pushes one suggestion per token that passes its filter.
 */
module AliasSuggestions {
  import opened Wrappers
  import opened Text
  import opened JsonTree
  import opened TokenResolver

  /** `AliasSuggestion`: an alias offered to the editor, with what it stands for. */
  datatype AliasSuggestion = AliasSuggestion(alias: string, resolvedValue: Json, path: string, category: string)

  /**
   * Which of the three traversals runs: they share their shape and differ at
   * tokens. The semantic walker carries the resolution it applies to brand
   * values, which is `BrandResolver(tokens, brand)` in every use.
   */
  datatype Walker =
    | GlobalColors
    | SemanticBrand(brand: string, resolve: Json -> Json)
    | CategoryTokens(root: string)

  /** `resolveTokenValue(·, tokens, brand)` with its default budget of 10. */
  function BrandResolver(doc: Json, brand: string): Json -> Json
  {
    v => Resolve(v, doc, brand, 10)
  }

  /** The walker resolves brand values against `doc`. */
  ghost predicate ResolvesIn(doc: Json, w: Walker)
  {
    w.SemanticBrand? ==> w.resolve == BrandResolver(doc, w.brand)
  }

  /** `category || key` accumulated along a key path: the first non-empty key, else "". */
  function FirstNonEmpty(keys: seq<string>): (c: string)
    ensures c == "" <==> forall i :: 0 <= i < |keys| ==> keys[i] == ""
    ensures c != "" ==> exists i :: 0 <= i < |keys| && keys[i] == c && forall k :: 0 <= k < i ==> keys[k] == ""
  {
    if |keys| == 0 then ""
    else
      var front := keys[..|keys| - 1];
      var c := FirstNonEmpty(front);
      assert forall i :: 0 <= i < |front| ==> keys[i] == front[i];
      if c != "" then c else keys[|keys| - 1]
  }

  /** The category a traversal carries into the group reached by `keys`. */
  function GroupCategory(w: Walker, keys: seq<string>): string
  {
    match w
    case CategoryTokens(root) => root
    case _ => FirstNonEmpty(keys)
  }

  /** `String(v)` for the values a token can hold. */
  function JsString(v: Json): string
  {
    match v
    case Null => "null"
    case Bool(b) => if b then "true" else "false"
    case Num(n) => IntToString(n)
    case Str(s) => s
    case Obj(_) => "[object Object]"
  }

  /** The `resolvedValue` text of `getGlobalAliasesByType`: numbers gain `px` when the type is `spacing`. */
  function Rendered(value: Json, tokenType: Option<Json>): string
  {
    if value.Num? then IntToString(value.n) + (if tokenType == Some(Str("spacing")) then "px" else "")
    else JsString(value)
  }

  /** The `$value` of a token, `null` standing in for a missing one. */
  function TokenValue(token: Json): Json
  {
    match Member(token, "$value")
    case Some(v) => v
    case None => Null
  }

  /** The suggestion a traversal pushes for the leaf `l`, if any. */
  function Suggest(w: Walker, l: Leaf): Option<AliasSuggestion>
  {
    if !IsToken(l.token) || |l.keys| == 0 then None
    else
      var path := DotPath(l.keys);
      var alias := "{" + path + "}";
      var value := TokenValue(l.token);
      var tokenType := Member(l.token, "$type");
      match w
      case GlobalColors =>
        if tokenType == Some(Str("color")) then
          Some(AliasSuggestion(alias, value, path, FirstNonEmpty(l.keys[..|l.keys| - 1])))
        else None
      case SemanticBrand(brand, resolve) =>
        if value.Obj? && Get(value.fields, brand).Some? && Truthy(Get(value.fields, brand).value)
          && tokenType == Some(Str("color"))
        then
          var resolved := resolve(Get(value.fields, brand).value);
          Some(AliasSuggestion(alias, resolved, path, FirstNonEmpty(l.keys)))
        else None
      case CategoryTokens(root) =>
        Some(AliasSuggestion(alias, Str(Rendered(value, tokenType)), path, root))
  }

  /** The suggestions pushed for a sequence of leaves, in order. */
  function Suggestions(w: Walker, leaves: seq<Leaf>): seq<AliasSuggestion>
  {
    if |leaves| == 0 then []
    else
      var rest := Suggestions(w, leaves[..|leaves| - 1]);
      match Suggest(w, leaves[|leaves| - 1])
      case Some(s) => rest + [s]
      case None => rest
  }

  lemma {:induction false} SuggestionsAppend(w: Walker, a: seq<Leaf>, b: seq<Leaf>)
    ensures Suggestions(w, a + b) == Suggestions(w, a) + Suggestions(w, b)
    decreases |b|
  {
    if |b| == 0 {
      assert a + b == a;
    } else {
      var front := b[..|b| - 1];
      SuggestionsAppend(w, a, front);
      assert (a + b)[..|a + b| - 1] == a + front;
      assert (a + b)[|a + b| - 1] == b[|b| - 1];
    }
  }

  /** Every suggestion comes from one of the leaves. */
  lemma {:induction false} SuggestionFromLeaf(w: Walker, leaves: seq<Leaf>, s: AliasSuggestion)
    requires s in Suggestions(w, leaves)
    ensures exists l :: l in leaves && Suggest(w, l) == Some(s)
    decreases |leaves|
  {
    var front := leaves[..|leaves| - 1];
    var last := leaves[|leaves| - 1];
    if Suggest(w, last) == Some(s) {
      assert last in leaves;
    } else {
      SuggestionFromLeaf(w, front, s);
      var l :| l in front && Suggest(w, l) == Some(s);
      assert l in leaves;
    }
  }

  /** The leaves under an optional value: none when it is missing. */
  function Below(o: Option<Json>, keys: seq<string>): seq<Leaf>
  {
    if o.Some? then Leaves(o.value, keys) else []
  }

  /**
   * The inner traversal of the three enumerators: `path` and `category` are
   * what the source threads through its recursion, `keys` the key path they
   * summarise. The suggestions the source pushes onto its shared array are
   * returned instead, and the caller appends them in the same order.
   */
  method Traverse(doc: Json, w: Walker, obj: Json, ghost keys: seq<string>, path: string, category: string)
    returns (found: seq<AliasSuggestion>)
    requires ResolvesIn(doc, w)
    requires path == DotPath(keys)
    requires category == GroupCategory(w, keys)
    ensures found == Suggestions(w, Leaves(obj, keys))
    decreases obj, 1
  {
    if !obj.Obj? {
      return [];
    }
    found := [];
    var i := 0;
    while i < |obj.fields|
      invariant 0 <= i <= |obj.fields|
      invariant found == Suggestions(w, LeavesUpTo(obj, keys, i))
    {
      var pushed := VisitMember(doc, w, obj.fields[i], keys, path, category);
      NextMember(w, obj, keys, i);
      found := found + pushed;
      i := i + 1;
    }
  }

  /**
   * One iteration of the traversal's loop: a token member is offered, any
   * other object member is descended into, and a primitive is skipped.
   */
  method VisitMember(doc: Json, w: Walker, member: Field, ghost keys: seq<string>, path: string, category: string)
    returns (pushed: seq<AliasSuggestion>)
    requires ResolvesIn(doc, w)
    requires path == DotPath(keys)
    requires category == GroupCategory(w, keys)
    ensures pushed == Suggestions(w, MemberLeaves(member, keys))
    decreases member, 2
  {
    var (key, value) := member;
    var newPath := if path == "" then key else path + "." + key;
    ghost var newKeys := keys + [key];
    DescendKeys(w, keys, key, path, category);
    if IsToken(value) {
      assert MemberLeaves(member, keys) == [Leaf(newKeys, value)];
      pushed := PushToken(doc, w, newKeys, value, newPath, category, key);
    } else if value.Obj? {
      assert MemberLeaves(member, keys) == Leaves(value, newKeys);
      var childCategory := if w.CategoryTokens? || category != "" then category else key;
      pushed := Traverse(doc, w, value, newKeys, newPath, childCategory);
    } else {
      assert MemberLeaves(member, keys) == Leaves(value, newKeys) == [];
      pushed := [];
    }
  }

  /** The leaves of the first `i + 1` members are those of the first `i`, then member `i`'s. */
  lemma NextMember(w: Walker, obj: Json, keys: seq<string>, i: nat)
    requires obj.Obj? && i < |obj.fields|
    ensures Suggestions(w, LeavesUpTo(obj, keys, i + 1))
      == Suggestions(w, LeavesUpTo(obj, keys, i)) + Suggestions(w, MemberLeaves(obj.fields[i], keys))
  {
    SuggestionsAppend(w, LeavesUpTo(obj, keys, i), MemberLeaves(obj.fields[i], keys));
  }

  /** Descending into `key` extends the path and the category as the source does. */
  lemma DescendKeys(w: Walker, keys: seq<string>, key: string, path: string, category: string)
    requires path == DotPath(keys)
    requires category == GroupCategory(w, keys)
    ensures (if path == "" then key else path + "." + key) == DotPath(keys + [key])
    ensures (if w.CategoryTokens? || category != "" then category else key) == GroupCategory(w, keys + [key])
    ensures (keys + [key])[..|keys|] == keys
  {
    assert (keys + [key])[..|keys|] == keys;
  }

  /** What a traversal pushes at a token member reached by `keys`: its suggestion, if any. */
  method PushToken(doc: Json, w: Walker, ghost keys: seq<string>, token: Json, path: string, category: string,
                   key: string) returns (pushed: seq<AliasSuggestion>)
    requires ResolvesIn(doc, w)
    requires IsToken(token) && |keys| >= 1 && key == keys[|keys| - 1]
    requires path == DotPath(keys)
    requires category == GroupCategory(w, keys[..|keys| - 1])
    ensures pushed == Suggestions(w, [Leaf(keys, token)])
  {
    var l := Leaf(keys, token);
    assert [l][..0] == [];
    var tokenValue := TokenValue(token);
    var tokenType := Member(token, "$type");
    var alias := "{" + path + "}";
    pushed := [];
    match w {
      case GlobalColors =>
        if tokenType == Some(Str("color")) {
          pushed := [AliasSuggestion(alias, tokenValue, path, category)];
        }
      case SemanticBrand(brand, _) =>
        if tokenValue.Obj? {
          var brandValue := Get(tokenValue.fields, brand);
          if brandValue.Some? && Truthy(brandValue.value) && tokenType == Some(Str("color")) {
            var resolved := Resolve(brandValue.value, doc, brand, 10);
            assert resolved == w.resolve(brandValue.value);
            pushed := [AliasSuggestion(alias, resolved, path, if category != "" then category else key)];
          }
        }
      case CategoryTokens(root) =>
        pushed := [AliasSuggestion(alias, Str(Rendered(tokenValue, tokenType)), path, category)];
    }
  }

  /** The value of `getGlobalAliases(tokens)`. */
  function GlobalAliases(doc: Json): seq<AliasSuggestion>
  {
    Suggestions(GlobalColors, Below(Member(doc, "global"), []))
  }

  /** The value of `getSemanticAliases(tokens, brand)`: only `semantic.brand` is walked. */
  function SemanticAliases(doc: Json, brand: string): seq<AliasSuggestion>
  {
    Suggestions(SemanticBrand(brand, BrandResolver(doc, brand)), Below(Prop(Member(doc, "semantic"), "brand"), ["brand"]))
  }

  /** `getGlobalAliases`. */
  method GetGlobalAliases(doc: Json) returns (r: seq<AliasSuggestion>)
    ensures r == GlobalAliases(doc)
  {
    r := [];
    var global := Member(doc, "global");
    if global.Some? {
      r := Traverse(doc, GlobalColors, global.value, [], "", "");
    }
  }

  /** `getSemanticAliases`: reading `tokens.semantic.brand` needs `semantic` to be present. */
  method GetSemanticAliases(doc: Json, brand: string) returns (r: seq<AliasSuggestion>)
    requires Member(doc, "semantic").Some? && Member(doc, "semantic").value != Null
    ensures r == SemanticAliases(doc, brand)
  {
    r := [];
    var brandSection := Prop(Member(doc, "semantic"), "brand");
    if brandSection.Some? {
      DotPathOfSingle("brand");
      assert FirstNonEmpty(["brand"]) == "brand" by {
        assert ["brand"][..0] == [];
      }
      r := Traverse(doc, SemanticBrand(brand, BrandResolver(doc, brand)), brandSection.value, ["brand"], "brand", "brand");
    }
  }

  /** `getAllAliases`: the global suggestions, then the brand's. */
  method GetAllAliases(doc: Json, brand: string) returns (r: seq<AliasSuggestion>)
    requires Member(doc, "semantic").Some? && Member(doc, "semantic").value != Null
    ensures r == GlobalAliases(doc) + SemanticAliases(doc, brand)
  {
    var g := GetGlobalAliases(doc);
    var s := GetSemanticAliases(doc, brand);
    r := g + s;
  }

  /** `TYPE_TO_CATEGORIES[tokenType] || ['colors']`. */
  function CategoriesFor(tokenType: string): (cats: seq<string>)
    ensures |cats| >= 1
    ensures forall i :: 0 <= i < |cats| ==> cats[i] in {"colors", "spacing", "radius"}
  {
    match tokenType
    case "color" => ["colors"]
    case "spacing" => ["spacing"]
    case "borderRadius" => ["radius"]
    case "number" => ["spacing", "radius"]
    case _ => ["colors"]
  }

  /** The suggestions of `getGlobalAliasesByType` for the categories `cats`, in order. */
  function CategoryAliases(doc: Json, global: Json, cats: seq<string>): seq<AliasSuggestion>
  {
    if |cats| == 0 then []
    else
      var c := cats[|cats| - 1];
      CategoryAliases(doc, global, cats[..|cats| - 1])
      + Suggestions(CategoryTokens(c), Below(Member(global, c), [c]))
  }

  lemma NextCategory(doc: Json, global: Json, cats: seq<string>, i: nat)
    requires i < |cats|
    ensures CategoryAliases(doc, global, cats[..i + 1])
      == CategoryAliases(doc, global, cats[..i])
         + Suggestions(CategoryTokens(cats[i]), Below(Member(global, cats[i]), [cats[i]]))
  {
    assert cats[..i + 1][..i] == cats[..i];
  }

  /** The value of `getGlobalAliasesByType(tokens, tokenType)`. */
  function AliasesByType(doc: Json, tokenType: string): seq<AliasSuggestion>
    requires Member(doc, "global").Some?
  {
    CategoryAliases(doc, Member(doc, "global").value, CategoriesFor(tokenType))
  }

  /** One iteration of `getGlobalAliasesByType`'s loop: the tokens of `global[category]`, if present. */
  method VisitCategory(doc: Json, global: Json, category: string) returns (found: seq<AliasSuggestion>)
    ensures found == Suggestions(CategoryTokens(category), Below(Member(global, category), [category]))
  {
    found := [];
    var categoryObj := Member(global, category);
    if categoryObj.Some? && Truthy(categoryObj.value) {
      DotPathOfSingle(category);
      found := Traverse(doc, CategoryTokens(category), categoryObj.value, [category], category, category);
    } else if categoryObj.Some? {
      assert Leaves(categoryObj.value, [category]) == [];
    }
  }

  /** `getGlobalAliasesByType`: reading `tokens.global[category]` needs `global` to be present. */
  method GetGlobalAliasesByType(doc: Json, tokenType: string) returns (r: seq<AliasSuggestion>)
    requires Member(doc, "global").Some? && Member(doc, "global").value != Null
    ensures r == AliasesByType(doc, tokenType)
  {
    r := [];
    var categories := CategoriesFor(tokenType);
    var global := Member(doc, "global").value;
    var i := 0;
    while i < |categories|
      invariant 0 <= i <= |categories|
      invariant r == CategoryAliases(doc, global, categories[..i])
    {
      var found := VisitCategory(doc, global, categories[i]);
      NextCategory(doc, global, categories, i);
      r := r + found;
      i := i + 1;
    }
    assert categories[..i] == categories;
  }

  /** `getAllAliasesByType`: colour requests also get the brand's semantic aliases. */
  method GetAllAliasesByType(doc: Json, brand: string, tokenType: string) returns (r: seq<AliasSuggestion>)
    requires Member(doc, "global").Some? && Member(doc, "global").value != Null
    requires Member(doc, "semantic").Some? && Member(doc, "semantic").value != Null
    ensures tokenType == "color" ==> r == AliasesByType(doc, tokenType) + SemanticAliases(doc, brand)
    ensures tokenType != "color" ==> r == AliasesByType(doc, tokenType)
  {
    r := GetGlobalAliasesByType(doc, tokenType);
    if tokenType == "color" {
      var s := GetSemanticAliases(doc, brand);
      r := r + s;
    }
  }

  /** A leaf the walker keeps shows up among the suggestions. */
  lemma {:induction false} LeafSuggested(w: Walker, leaves: seq<Leaf>, l: Leaf)
    requires l in leaves && Suggest(w, l).Some?
    ensures Suggest(w, l).value in Suggestions(w, leaves)
    decreases |leaves|
  {
    var front := leaves[..|leaves| - 1];
    if l != leaves[|leaves| - 1] {
      assert l in front by {
        var k :| 0 <= k < |leaves| && leaves[k] == l;
        assert front[k] == l;
      }
      LeafSuggested(w, front, l);
    }
  }

  /** A key path of plain keys is what splitting its dotted path gives back. */
  lemma PlainPath(keys: seq<string>)
    requires |keys| >= 1
    requires forall i :: 0 <= i < |keys| ==> PlainKey(keys[i])
    ensures DotPath(keys) == Join(keys, '.')
    ensures Split(DotPath(keys), '.') == keys
  {
    DotPathIsJoin(keys);
    SplitJoin(keys, '.');
  }

  /** The first non-empty key of a path that starts with a non-empty key is that key. */
  lemma FirstKeyWins(keys: seq<string>)
    requires |keys| >= 1 && keys[0] != ""
    ensures FirstNonEmpty(keys) == keys[0]
  {
  }

  /** What a kept leaf contributes to a global suggestion. */
  lemma GlobalSuggestFields(l: Leaf, s: AliasSuggestion)
    requires Suggest(GlobalColors, l) == Some(s)
    ensures IsToken(l.token) && |l.keys| >= 1
    ensures s == AliasSuggestion("{" + DotPath(l.keys) + "}", TokenValue(l.token), DotPath(l.keys),
                                 FirstNonEmpty(l.keys[..|l.keys| - 1]))
    ensures Member(l.token, "$type") == Some(Str("color"))
  {
  }

  /** The global suggestion of a colour token `l` lying below `global` describes that token. */
  lemma GlobalLeafSound(doc: Json, l: Leaf, s: AliasSuggestion, brand: string, n: nat)
    requires Member(doc, "global").Some?
    requires Wf(Member(doc, "global").value) && PlainKeys(Member(doc, "global").value)
    requires LeafBelow(Member(doc, "global").value, [], l)
    requires s == AliasSuggestion("{" + DotPath(l.keys) + "}", TokenValue(l.token), DotPath(l.keys),
                                  FirstNonEmpty(l.keys[..|l.keys| - 1]))
    requires Member(l.token, "$type") == Some(Str("color"))
    ensures s.alias == "{" + s.path + "}"
    ensures ValueAtPath(Member(doc, "global"), s.path) == Some(l.token)
    ensures Member(l.token, "$value") == Some(s.resolvedValue)
    ensures var parts := Split(s.path, '.');
      s.category == if |parts| == 1 then "" else parts[0]
    ensures IsValidAlias(Str(s.alias), doc)
    ensures Resolve(Str(s.alias), doc, brand, n + 1) == Resolve(s.resolvedValue, doc, brand, n)
  {
    assert l.keys[0..] == l.keys;
    PlainPath(l.keys);
    var front := l.keys[..|l.keys| - 1];
    if |front| > 0 {
      FirstKeyWins(front);
    }
    AliasRoundTrip(s.path);
    ResolveCases(Str(s.alias), doc, brand, n + 1);
  }

  /**
   * Soundness of `getGlobalAliases`: each suggestion is the alias of its own
   * path; that path reaches a colour token of `global` whose `$value` is the
   * suggested value; the category is the top-level group ("" for a token at
   * the top); and resolving the alias takes one step to that value.
   */
  lemma GlobalAliasSound(doc: Json, s: AliasSuggestion, brand: string, n: nat)
    requires Member(doc, "global").Some?
    requires Wf(Member(doc, "global").value) && PlainKeys(Member(doc, "global").value)
    requires s in GlobalAliases(doc)
    ensures s.alias == "{" + s.path + "}"
    ensures ValueAtPath(Member(doc, "global"), s.path).Some?
    ensures var token := ValueAtPath(Member(doc, "global"), s.path).value;
      IsToken(token) && Member(token, "$type") == Some(Str("color")) && Member(token, "$value") == Some(s.resolvedValue)
    ensures var parts := Split(s.path, '.');
      s.category == if |parts| == 1 then "" else parts[0]
    ensures IsValidAlias(Str(s.alias), doc)
    ensures Resolve(Str(s.alias), doc, brand, n + 1) == Resolve(s.resolvedValue, doc, brand, n)
  {
    var g := Member(doc, "global").value;
    SuggestionFromLeaf(GlobalColors, Leaves(g, []), s);
    var l :| l in Leaves(g, []) && Suggest(GlobalColors, l) == Some(s);
    LeavesSound(g, []);
    GlobalSuggestFields(l, s);
    GlobalLeafSound(doc, l, s, brand, n);
  }

  /** Completeness of `getGlobalAliases`: every colour token under `global` is offered. */
  lemma GlobalAliasComplete(doc: Json, l: Leaf)
    requires Member(doc, "global").Some?
    requires l in Leaves(Member(doc, "global").value, [])
    requires Member(l.token, "$type") == Some(Str("color"))
    ensures exists s :: s in GlobalAliases(doc) && s.path == DotPath(l.keys) && s.alias == "{" + s.path + "}"
  {
    var g := Member(doc, "global").value;
    LeavesSound(g, []);
    assert LeafBelow(g, [], l);
    LeafSuggested(GlobalColors, Leaves(g, []), l);
  }

  /** What a kept leaf contributes to a semantic suggestion. */
  lemma SemanticSuggestFields(doc: Json, brand: string, l: Leaf, s: AliasSuggestion)
    requires Suggest(SemanticBrand(brand, BrandResolver(doc, brand)), l) == Some(s)
    ensures IsToken(l.token) && |l.keys| >= 1
    ensures Member(l.token, "$type") == Some(Str("color"))
    ensures TokenValue(l.token).Obj? && Get(TokenValue(l.token).fields, brand).Some?
    ensures Truthy(Get(TokenValue(l.token).fields, brand).value)
    ensures s == AliasSuggestion("{" + DotPath(l.keys) + "}",
                                 Resolve(Get(TokenValue(l.token).fields, brand).value, doc, brand, 10),
                                 DotPath(l.keys), FirstNonEmpty(l.keys))
  {
  }

  lemma BrandKeyPlain()
    ensures PlainKey("brand")
  {
    assert "brand"[0] != '.' && "brand"[1] != '.' && "brand"[2] != '.' && "brand"[3] != '.' && "brand"[4] != '.';
  }

  /** A suggestion built from a token lying below `semantic.brand` names that token. */
  lemma SemanticLeafSound(doc: Json, l: Leaf, s: AliasSuggestion)
    requires Prop(Member(doc, "semantic"), "brand").Some?
    requires Wf(Prop(Member(doc, "semantic"), "brand").value)
    requires PlainKeys(Prop(Member(doc, "semantic"), "brand").value)
    requires LeafBelow(Prop(Member(doc, "semantic"), "brand").value, ["brand"], l)
    requires s.alias == "{" + DotPath(l.keys) + "}" && s.path == DotPath(l.keys)
    requires s.category == FirstNonEmpty(l.keys)
    ensures s.alias == "{" + s.path + "}" && s.category == "brand"
    ensures Split(s.path, '.')[0] == "brand"
    ensures ValueAtPath(Member(doc, "semantic"), s.path) == Some(l.token)
    ensures IsValidAlias(Str(s.alias), doc)
  {
    var b := Prop(Member(doc, "semantic"), "brand").value;
    var rel := l.keys[1..];
    assert l.keys == ["brand"] + rel;
    BrandKeyPlain();
    PlainPath(l.keys);
    FirstKeyWins(l.keys);
    var sem := Member(doc, "semantic").value;
    assert Walk(Some(sem), l.keys) == Walk(Some(b), rel);
    AliasRoundTrip(s.path);
  }

  /**
   * Soundness of `getSemanticAliases`: each suggestion is the alias of its
   * own path under `semantic.brand`, in category `brand`; that path reaches
   * a colour token whose `$value` map has a truthy entry for the brand, and
   * the suggested value is that entry resolved with the default budget. The
   * alias is valid.
   */
  lemma SemanticAliasSound(doc: Json, brand: string, s: AliasSuggestion)
    requires Prop(Member(doc, "semantic"), "brand").Some?
    requires Wf(Prop(Member(doc, "semantic"), "brand").value)
    requires PlainKeys(Prop(Member(doc, "semantic"), "brand").value)
    requires s in SemanticAliases(doc, brand)
    ensures s.alias == "{" + s.path + "}" && s.category == "brand"
    ensures Split(s.path, '.')[0] == "brand"
    ensures ValueAtPath(Member(doc, "semantic"), s.path).Some?
    ensures var token := ValueAtPath(Member(doc, "semantic"), s.path).value;
      IsToken(token) && Member(token, "$type") == Some(Str("color"))
      && TokenValue(token).Obj? && Get(TokenValue(token).fields, brand).Some?
      && Truthy(Get(TokenValue(token).fields, brand).value)
      && s.resolvedValue == Resolve(Get(TokenValue(token).fields, brand).value, doc, brand, 10)
    ensures IsValidAlias(Str(s.alias), doc)
  {
    var b := Prop(Member(doc, "semantic"), "brand").value;
    var w := SemanticBrand(brand, BrandResolver(doc, brand));
    SuggestionFromLeaf(w, Leaves(b, ["brand"]), s);
    var l :| l in Leaves(b, ["brand"]) && Suggest(w, l) == Some(s);
    LeavesSound(b, ["brand"]);
    SemanticSuggestFields(doc, brand, l, s);
    SemanticLeafSound(doc, l, s);
  }

  /** A by-type suggestion comes from one of the requested categories. */
  lemma {:induction false} CategoryOfSuggestion(doc: Json, global: Json, cats: seq<string>, s: AliasSuggestion)
    requires s in CategoryAliases(doc, global, cats)
    ensures exists i :: (0 <= i < |cats|
      && s in Suggestions(CategoryTokens(cats[i]), Below(Member(global, cats[i]), [cats[i]])))
    decreases |cats|
  {
    var n := |cats|;
    var c := cats[n - 1];
    if s !in Suggestions(CategoryTokens(c), Below(Member(global, c), [c])) {
      var front := cats[..n - 1];
      CategoryOfSuggestion(doc, global, front, s);
      var i :| 0 <= i < |front| && s in Suggestions(CategoryTokens(front[i]), Below(Member(global, front[i]), [front[i]]));
      assert cats[i] == front[i];
    }
  }

  /** What a leaf contributes to a by-type suggestion. */
  lemma CategorySuggestFields(c: string, l: Leaf, s: AliasSuggestion)
    requires Suggest(CategoryTokens(c), l) == Some(s)
    ensures IsToken(l.token) && |l.keys| >= 1
    ensures s == AliasSuggestion("{" + DotPath(l.keys) + "}",
                                 Str(Rendered(TokenValue(l.token), Member(l.token, "$type"))), DotPath(l.keys), c)
  {
  }

  /** A by-type suggestion built from a token below `global[c]` names that token. */
  lemma CategoryLeafSound(doc: Json, c: string, l: Leaf, s: AliasSuggestion)
    requires Member(doc, "global").Some?
    requires Wf(Member(doc, "global").value) && PlainKeys(Member(doc, "global").value)
    requires Member(Member(doc, "global").value, c).Some?
    requires LeafBelow(Member(Member(doc, "global").value, c).value, [c], l)
    requires s.alias == "{" + DotPath(l.keys) + "}" && s.path == DotPath(l.keys) && s.category == c
    ensures s.alias == "{" + s.path + "}"
    ensures Split(s.path, '.')[0] == s.category
    ensures ValueAtPath(Member(doc, "global"), s.path) == Some(l.token)
    ensures IsValidAlias(Str(s.alias), doc)
  {
    var g := Member(doc, "global").value;
    var sub := Member(g, c).value;
    MemberWf(g, c);
    var rel := l.keys[1..];
    assert l.keys == [c] + rel;
    assert PlainKey(c) by {
      var k :| 0 <= k < |g.fields| && g.fields[k] == (c, sub);
    }
    PlainPath(l.keys);
    assert Walk(Some(g), l.keys) == Walk(Some(sub), rel);
    AliasRoundTrip(s.path);
  }

  /**
   * Soundness of `getGlobalAliasesByType`: each suggestion's category is one
   * of those mapped from the type and is the first segment of its path; the
   * path reaches a token of `global`, and the suggested text is that token's
   * `$value` as the source renders it.
   */
  lemma TypeAliasSound(doc: Json, tokenType: string, s: AliasSuggestion)
    requires Member(doc, "global").Some?
    requires Wf(Member(doc, "global").value) && PlainKeys(Member(doc, "global").value)
    requires s in AliasesByType(doc, tokenType)
    ensures s.category in CategoriesFor(tokenType)
    ensures s.alias == "{" + s.path + "}"
    ensures Split(s.path, '.')[0] == s.category
    ensures ValueAtPath(Member(doc, "global"), s.path).Some?
    ensures var token := ValueAtPath(Member(doc, "global"), s.path).value;
      IsToken(token) && s.resolvedValue == Str(Rendered(TokenValue(token), Member(token, "$type")))
    ensures IsValidAlias(Str(s.alias), doc)
  {
    var g := Member(doc, "global").value;
    var cats := CategoriesFor(tokenType);
    CategoryOfSuggestion(doc, g, cats, s);
    var i :| 0 <= i < |cats| && s in Suggestions(CategoryTokens(cats[i]), Below(Member(g, cats[i]), [cats[i]]));
    var c := cats[i];
    var sub := Member(g, c).value;
    SuggestionFromLeaf(CategoryTokens(c), Leaves(sub, [c]), s);
    var l :| l in Leaves(sub, [c]) && Suggest(CategoryTokens(c), l) == Some(s);
    LeavesSound(sub, [c]);
    CategorySuggestFields(c, l, s);
    CategoryLeafSound(doc, c, l, s);
  }
}
