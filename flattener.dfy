/**
 * The editor's view of the semantic tokens (`src/utils/tokenFlattener.ts`):
 * one row per token that has a value for the chosen brand, grouped for
 * display; the brand names of a document; and the three edits the editor
 * makes to the multi-brand maps — set one brand's value, add a brand, remove
 * a brand.
 */
module TokenFlattener {
  import opened Wrappers
  import opened Text
  import opened JsonTree
  import opened Seqs

  /** The display group of a row: the top-level key it lies under. */
  datatype Category = Brand | Colors | Other

  /** `FlattenedToken`: one brand's value of one semantic token. */
  datatype FlattenedToken = FlattenedToken(
    path: string,
    fullPath: string,
    value: Json,
    tokenType: Json,
    category: Category,
    subcategory: Option<string>)

  /** The category and subcategory the traversal carries into a group. */
  datatype Group = Group(category: Category, subcategory: Option<string>)

  /**
   * The `fullPath` the traversal builds: `"semantic." + key` for the first
   * key, then `fullPath + "." + key`.
   */
  function FullPath(keys: seq<string>): (s: string)
    ensures s == "" <==> |keys| == 0
  {
    if |keys| == 0 then ""
    else
      var fullPath := FullPath(keys[..|keys| - 1]);
      var key := keys[|keys| - 1];
      if fullPath == "" then "semantic." + key else fullPath + "." + key
  }

  /** The category a top-level key opens. */
  function TopCategory(key: string): Category
  {
    if key == "brand" then Brand else if key == "colors" then Colors else Other
  }

  /**
   * The category and subcategory after descending through the groups `keys`:
   * a group entered while the path is still empty sets the category, a group
   * entered from `brand` or `colors` sets the subcategory.
   */
  function GroupOf(keys: seq<string>): Group
  {
    if |keys| == 0 then Group(Other, None)
    else
      var front := keys[..|keys| - 1];
      var g := GroupOf(front);
      var path := DotPath(front);
      var key := keys[|keys| - 1];
      if path == "" then Group(TopCategory(key), g.subcategory)
      else if path == "brand" || path == "colors" then Group(g.category, Some(key))
      else g
  }

  /** The `$type` of a token, `null` standing in for a missing one. */
  function TypeOf(token: Json): Json
  {
    match Member(token, "$type")
    case Some(t) => t
    case None => Null
  }

  /** The row the traversal pushes for a token reached by `l.keys`, if its `$value` object has the brand. */
  function Row(brand: string, l: Leaf): Option<FlattenedToken>
  {
    if |l.keys| == 0 then None
    else
      match Member(l.token, "$value")
      case Some(Obj(values)) =>
        (match Get(values, brand)
         case Some(v) =>
           var g := GroupOf(l.keys[..|l.keys| - 1]);
           Some(FlattenedToken(DotPath(l.keys), FullPath(l.keys), v, TypeOf(l.token), g.category, g.subcategory))
         case None => None)
      case _ => None
  }

  function RowFor(brand: string): Leaf -> Option<FlattenedToken>
  {
    l => Row(brand, l)
  }

  /** The tokens under `semantic`, in traversal order, with their key paths. */
  function SemanticLeaves(doc: Json): seq<Leaf>
  {
    match Member(doc, "semantic")
    case Some(s) => Leaves(s, [])
    case None => []
  }

  /** The value of `flattenSemanticTokens(tokens, brand)`. */
  function Flatten(doc: Json, brand: string): seq<FlattenedToken>
  {
    FilterMap(RowFor(brand), SemanticLeaves(doc))
  }

  /** `flattenSemanticTokens`. */
  method FlattenSemanticTokens(doc: Json, brand: string) returns (flattened: seq<FlattenedToken>)
    ensures flattened == Flatten(doc, brand)
  {
    flattened := [];
    var semantic := Member(doc, "semantic");
    if semantic.Some? {
      assert FullPath([]) == "" && DotPath([]) == "";
      flattened := Traverse(brand, semantic.value, [], "", "", Other, None);
    }
  }

  /**
   * The inner `traverse`: `path`, `fullPath`, `category` and `subcategory` are
   * what the source threads through its recursion, `keys` the key path they
   * summarise. The rows it pushes onto the shared array are returned, and the
   * caller appends them in the same order.
   */
  method Traverse(brand: string, obj: Json, ghost keys: seq<string>, path: string, fullPath: string,
                  category: Category, subcategory: Option<string>) returns (rows: seq<FlattenedToken>)
    requires path == DotPath(keys) && fullPath == FullPath(keys)
    requires Group(category, subcategory) == GroupOf(keys)
    ensures rows == FilterMap(RowFor(brand), Leaves(obj, keys))
    decreases obj, 1
  {
    if !obj.Obj? {
      return [];
    }
    rows := [];
    var i := 0;
    while i < |obj.fields|
      invariant 0 <= i <= |obj.fields|
      invariant rows == FilterMap(RowFor(brand), LeavesUpTo(obj, keys, i))
    {
      var pushed := VisitMember(brand, obj.fields[i], keys, path, fullPath, category, subcategory);
      FilterMapAppend(RowFor(brand), LeavesUpTo(obj, keys, i), MemberLeaves(obj.fields[i], keys));
      rows := rows + pushed;
      i := i + 1;
    }
  }

  /** One iteration of `traverse`'s loop. */
  method VisitMember(brand: string, member: Field, ghost keys: seq<string>, path: string, fullPath: string,
                     category: Category, subcategory: Option<string>) returns (pushed: seq<FlattenedToken>)
    requires path == DotPath(keys) && fullPath == FullPath(keys)
    requires Group(category, subcategory) == GroupOf(keys)
    ensures pushed == FilterMap(RowFor(brand), MemberLeaves(member, keys))
    decreases member, 2
  {
    var (key, value) := member;
    var newPath := if path == "" then key else path + "." + key;
    var newFullPath := if fullPath == "" then "semantic." + key else fullPath + "." + key;
    ghost var newKeys := keys + [key];
    assert newKeys[..|keys|] == keys;
    if IsToken(value) {
      var l := Leaf(newKeys, value);
      assert MemberLeaves(member, keys) == [l];
      assert [l][..0] == [];
      pushed := [];
      var tokenValue := Member(value, "$value");
      if tokenValue.Some? && tokenValue.value.Obj? {
        var brandValue := Get(tokenValue.value.fields, brand);
        if brandValue.Some? {
          pushed := [FlattenedToken(newPath, newFullPath, brandValue.value, TypeOf(value), category, subcategory)];
        }
      }
    } else if value.Obj? {
      var newCategory := category;
      var newSubcategory := subcategory;
      if path == "" {
        newCategory := TopCategory(key);
      } else if path == "brand" || path == "colors" {
        newSubcategory := Some(key);
      }
      pushed := Traverse(brand, value, newKeys, newPath, newFullPath, newCategory, newSubcategory);
    } else {
      pushed := [];
    }
  }

  /**
   * What a row says about the token it comes from: in a well-formed document
   * its key path leads to the token, whose `$value` object holds the row's
   * value under the brand; `path` is that key path and `fullPath` the same
   * path below `semantic`. A token directly under `semantic` is in no group;
   * below a non-empty top-level key the category is that key's, and the
   * subcategory is the second key under `brand` or `colors`.
   */
  ghost predicate RowAt(doc: Json, brand: string, r: FlattenedToken, keys: seq<string>, token: Json)
  {
    |keys| >= 1 && IsToken(token)
    && (Wf(doc) ==> Walk(Member(doc, "semantic"), keys) == Some(token))
    && (exists values :: Member(token, "$value") == Some(Obj(values)) && Get(values, brand) == Some(r.value))
    && r.tokenType == TypeOf(token) && r.path == DotPath(keys) && r.fullPath == FullPath(keys)
    && (keys[0] != "" ==> r.fullPath == "semantic." + r.path)
    && (|keys| == 1 ==> r.category == Other && r.subcategory == None)
    && (|keys| >= 2 && keys[0] != "" ==>
          r.category == TopCategory(keys[0])
          && r.subcategory == if |keys| >= 3 && (keys[0] == "brand" || keys[0] == "colors") then Some(keys[1]) else None)
  }

  /** Every row comes from a token of `semantic` as `RowAt` describes. */
  lemma FlattenSound(doc: Json, brand: string, r: FlattenedToken)
    requires r in Flatten(doc, brand)
    ensures exists keys, token :: RowAt(doc, brand, r, keys, token)
  {
    var leaves := SemanticLeaves(doc);
    FilterMapMembers(RowFor(brand), leaves, r);
    var i :| 0 <= i < |leaves| && RowFor(brand)(leaves[i]) == Some(r);
    LeafRowSound(doc, brand, leaves[i], r);
  }

  lemma LeafRowSound(doc: Json, brand: string, l: Leaf, r: FlattenedToken)
    requires l in SemanticLeaves(doc) && Row(brand, l) == Some(r)
    ensures RowAt(doc, brand, r, l.keys, l.token)
  {
    var s := Member(doc, "semantic").value;
    LeavesSound(s, []);
    assert LeafBelow(s, [], l);
    assert l.keys[0..] == l.keys;
    if Wf(doc) {
      MemberWf(doc, "semantic");
    }
    var front := l.keys[..|l.keys| - 1];
    var values := Member(l.token, "$value").value.fields;
    assert Member(l.token, "$value") == Some(Obj(values)) && Get(values, brand) == Some(r.value);
    assert r.tokenType == TypeOf(l.token) && r.path == DotPath(l.keys) && r.fullPath == FullPath(l.keys);
    assert Group(r.category, r.subcategory) == GroupOf(front);
    if l.keys[0] != "" {
      FullPathIsSemanticPath(l.keys);
    }
    if |l.keys| == 1 {
      assert front == [];
    } else if l.keys[0] != "" {
      assert front[0] == l.keys[0];
      GroupOfFacts(front);
    }
  }

  /** Every token of `semantic` whose `$value` object has the brand gives a row with that value. */
  lemma FlattenComplete(doc: Json, brand: string, l: Leaf, values: seq<Field>, v: Json)
    requires l in SemanticLeaves(doc)
    requires Member(l.token, "$value") == Some(Obj(values)) && Get(values, brand) == Some(v)
    ensures exists r :: (r in Flatten(doc, brand) && r.value == v && r.path == DotPath(l.keys)
      && r.fullPath == FullPath(l.keys) && r.tokenType == TypeOf(l.token))
  {
    var leaves := SemanticLeaves(doc);
    var i :| 0 <= i < |leaves| && leaves[i] == l;
    var s := Member(doc, "semantic").value;
    LeavesSound(s, []);
    assert LeafBelow(s, [], l);
    var r := Row(brand, l).value;
    FilterMapMembers(RowFor(brand), leaves, r);
  }

  /** When the first key is not empty, `fullPath` is `"semantic."` followed by `path`. */
  lemma {:induction false} FullPathIsSemanticPath(keys: seq<string>)
    requires |keys| >= 1 && keys[0] != ""
    ensures FullPath(keys) == "semantic." + DotPath(keys)
  {
    var n := |keys|;
    if n == 1 {
      assert keys[..0] == [];
    } else {
      var front := keys[..n - 1];
      assert front[0] == keys[0];
      FullPathIsSemanticPath(front);
      DotPathIsJoin(front);
    }
  }

  /** With an empty top-level key the two paths disagree: `path` skips it, `fullPath` keeps it. */
  lemma FullPathEmptyFirstKey(key: string)
    ensures DotPath(["", key]) == key
    ensures FullPath(["", key]) == "semantic.." + key
  {
    assert ["", key][..1] == [""];
    assert [""][..0] == [];
  }

  /** Groups under a non-empty top-level key: the category is that key's, the subcategory the next key under `brand` or `colors`. */
  lemma {:induction false} GroupOfFacts(keys: seq<string>)
    requires |keys| >= 1 && keys[0] != ""
    ensures GroupOf(keys).category == TopCategory(keys[0])
    ensures GroupOf(keys).subcategory == if |keys| >= 2 && (keys[0] == "brand" || keys[0] == "colors") then Some(keys[1]) else None
  {
    var n := |keys|;
    var front := keys[..n - 1];
    if n == 1 {
      assert front == [];
    } else {
      assert front[0] == keys[0];
      GroupOfFacts(front);
      DotPathIsJoin(front);
      if n == 2 {
        assert front == [keys[0]];
        DotPathOfSingle(keys[0]);
      } else {
        DotPathHasDot(front);
      }
    }
  }

  /** A path of two or more keys under a non-empty first key contains a dot, so it is no top-level name. */
  lemma DotPathHasDot(keys: seq<string>)
    requires |keys| >= 2 && keys[0] != ""
    ensures '.' in DotPath(keys) && DotPath(keys) != ""
  {
    var front := keys[..|keys| - 1];
    assert front[0] == keys[0];
    DotPathIsJoin(front);
    var p := DotPath(front);
    assert DotPath(keys) == p + "." + keys[|keys| - 1];
    assert DotPath(keys)[|p|] == '.';
  }

  /** The two levels of `groupTokensByCategory`'s nested `Map`: category, then subcategory, then rows. */
  type Groups = map<string, map<string, seq<FlattenedToken>>>

  /** The category's name as a map key. */
  function CategoryName(c: Category): string
  {
    match c
    case Brand => "brand"
    case Colors => "colors"
    case Other => "other"
  }

  /** `token.subcategory || 'general'`. */
  function SubgroupName(t: FlattenedToken): string
  {
    match t.subcategory
    case Some(s) => if s != "" then s else "general"
    case None => "general"
  }

  predicate InGroup(t: FlattenedToken, c: string, s: string)
  {
    CategoryName(t.category) == c && SubgroupName(t) == s
  }

  function InGroupFilter(c: string, s: string): FlattenedToken -> Option<FlattenedToken>
  {
    t => if InGroup(t, c, s) then Some(t) else None
  }

  /** The rows of group `(c, s)`, in input order. */
  function Select(rows: seq<FlattenedToken>, c: string, s: string): seq<FlattenedToken>
  {
    FilterMap(InGroupFilter(c, s), rows)
  }

  /** A group holds exactly the rows that belong to it. */
  lemma SelectMembers(rows: seq<FlattenedToken>, c: string, s: string, t: FlattenedToken)
    ensures t in Select(rows, c, s) <==> t in rows && InGroup(t, c, s)
  {
    FilterMapMembers(InGroupFilter(c, s), rows, t);
    if t in rows && InGroup(t, c, s) {
      var i :| 0 <= i < |rows| && rows[i] == t;
    }
  }

  /**
   * `groups` is the grouping of `rows`: a category appears exactly when some
   * row has it, a subgroup exactly when some row belongs to it, and every
   * subgroup holds its rows in input order.
   */
  ghost predicate Grouping(groups: Groups, rows: seq<FlattenedToken>)
  {
    (forall c :: c in groups <==> exists j :: 0 <= j < |rows| && CategoryName(rows[j].category) == c)
    && (forall c, s :: (c in groups && s in groups[c]) <==> Select(rows, c, s) != [])
    && (forall c, s :: c in groups && s in groups[c] ==> groups[c][s] == Select(rows, c, s))
  }

  /**
   * One iteration of the grouping loop: the category's map is created if
   * missing, then the subgroup, and the row joins the end of its subgroup.
   */
  function AddRow(groups: Groups, t: FlattenedToken): Groups
  {
    var c := CategoryName(t.category);
    var s := SubgroupName(t);
    var withCategory := if c in groups then groups else groups[c := map[]];
    var inner := withCategory[c];
    var withSubgroup := if s in inner then inner else inner[s := []];
    withCategory[c := withSubgroup[s := withSubgroup[s] + [t]]]
  }

  /** What `AddRow` changes: only the row's own subgroup, which gains the row at its end. */
  lemma AddRowFacts(groups: Groups, t: FlattenedToken)
    ensures forall c :: c in AddRow(groups, t) <==> c in groups || c == CategoryName(t.category)
    ensures forall c, s :: ((c in AddRow(groups, t) && s in AddRow(groups, t)[c])
      <==> (c in groups && s in groups[c]) || InGroup(t, c, s))
    ensures forall c, s :: c in AddRow(groups, t) && s in AddRow(groups, t)[c] ==>
      AddRow(groups, t)[c][s] == (if c in groups && s in groups[c] then groups[c][s] else []) + (if InGroup(t, c, s) then [t] else [])
  {
  }

  /** Adding a row to the grouping of `rows` gives the grouping of `rows + [t]`. */
  lemma AddRowKeeps(groups: Groups, rows: seq<FlattenedToken>, t: FlattenedToken)
    requires Grouping(groups, rows)
    ensures Grouping(AddRow(groups, t), rows + [t])
  {
    AddRowCategories(groups, rows, t);
    AddRowSubgroups(groups, rows, t);
  }

  lemma AddRowSubgroups(groups: Groups, rows: seq<FlattenedToken>, t: FlattenedToken)
    requires forall c, s :: (c in groups && s in groups[c]) <==> Select(rows, c, s) != []
    requires forall c, s :: c in groups && s in groups[c] ==> groups[c][s] == Select(rows, c, s)
    ensures forall c, s :: (c in AddRow(groups, t) && s in AddRow(groups, t)[c]) <==> Select(rows + [t], c, s) != []
    ensures forall c, s :: c in AddRow(groups, t) && s in AddRow(groups, t)[c] ==>
      AddRow(groups, t)[c][s] == Select(rows + [t], c, s)
  {
    AddRowFacts(groups, t);
    forall c, s
      ensures Select(rows + [t], c, s) == Select(rows, c, s) + if InGroup(t, c, s) then [t] else []
    {
      SelectStep(rows, t, c, s);
    }
  }

  /** A row added at the end joins the end of its own group only. */
  lemma SelectStep(rows: seq<FlattenedToken>, t: FlattenedToken, c: string, s: string)
    ensures Select(rows + [t], c, s) == Select(rows, c, s) + if InGroup(t, c, s) then [t] else []
  {
    var rows' := rows + [t];
    FilterMapStep(InGroupFilter(c, s), rows', |rows|);
    assert rows'[..|rows|] == rows && rows'[..|rows| + 1] == rows';
  }

  lemma AddRowCategories(groups: Groups, rows: seq<FlattenedToken>, t: FlattenedToken)
    requires forall c :: c in groups <==> exists j :: 0 <= j < |rows| && CategoryName(rows[j].category) == c
    ensures forall c :: c in AddRow(groups, t) <==> exists j :: 0 <= j < |rows + [t]| && CategoryName((rows + [t])[j].category) == c
  {
    AddRowFacts(groups, t);
    var rows' := rows + [t];
    forall c | c in AddRow(groups, t)
      ensures exists j :: 0 <= j < |rows'| && CategoryName(rows'[j].category) == c
    {
      if c == CategoryName(t.category) {
        assert rows'[|rows|] == t;
      } else {
        var j :| 0 <= j < |rows| && CategoryName(rows[j].category) == c;
        assert rows'[j] == rows[j];
      }
    }
    forall c | exists j :: 0 <= j < |rows'| && CategoryName(rows'[j].category) == c
      ensures c in AddRow(groups, t)
    {
      var j :| 0 <= j < |rows'| && CategoryName(rows'[j].category) == c;
      if j < |rows| {
        assert rows'[j] == rows[j];
      }
    }
  }

  /** `groupTokensByCategory`. */
  method GroupTokensByCategory(tokens: seq<FlattenedToken>) returns (groups: Groups)
    ensures Grouping(groups, tokens)
  {
    groups := map[];
    var i := 0;
    while i < |tokens|
      invariant 0 <= i <= |tokens|
      invariant Grouping(groups, tokens[..i])
    {
      NextRow(groups, tokens, i);
      groups := PushRow(groups, tokens[i]);
      i := i + 1;
    }
    assert tokens[..i] == tokens;
  }

  lemma NextRow(groups: Groups, tokens: seq<FlattenedToken>, i: nat)
    requires i < |tokens| && Grouping(groups, tokens[..i])
    ensures Grouping(AddRow(groups, tokens[i]), tokens[..i + 1])
  {
    TakeSnoc(tokens, i);
    AddRowKeeps(groups, tokens[..i], tokens[i]);
  }

  /** The body of the grouping loop for one row. */
  method PushRow(groups: Groups, token: FlattenedToken) returns (r: Groups)
    ensures r == AddRow(groups, token)
  {
    r := groups;
    var category := CategoryName(token.category);
    var subcategory := SubgroupName(token);
    if category !in r {
      r := r[category := map[]];
    }
    var categoryGroup := r[category];
    if subcategory !in categoryGroup {
      categoryGroup := categoryGroup[subcategory := []];
    }
    categoryGroup := categoryGroup[subcategory := categoryGroup[subcategory] + [token]];
    r := r[category := categoryGroup];
  }

  /** The token is an object whose `$value` is an object: a multi-brand map. */
  predicate OffersBrands(token: Option<Json>)
  {
    token.Some? && token.value.Obj? && Member(token.value, "$value").Some? && Member(token.value, "$value").value.Obj?
  }

  /** `'$value' in token` throws: the token is a truthy primitive. */
  predicate ThrowsOnIn(token: Option<Json>)
  {
    token.Some? && Truthy(token.value) && !token.value.Obj?
  }

  /**
   * The brand keys a token offers: the keys of its `$value` object. A missing
   * or falsy token offers none, and so does a token without an object
   * `$value`; `'$value' in token` on any other primitive throws a `TypeError`.
   */
  function BrandKeysOf(token: Option<Json>): (r: Result<Option<seq<string>>>)
    ensures r.Err? <==> ThrowsOnIn(token)
    ensures r.Ok? && r.value.Some? <==> OffersBrands(token)
    ensures OffersBrands(token) ==> r.value.value == Keys(Member(token.value, "$value").value.fields)
  {
    match token
    case None => Ok(None)
    case Some(t) =>
      if !Truthy(t) then Ok(None)
      else if !t.Obj? then Err("TypeError")
      else
        match Get(t.fields, "$value")
        case Some(Obj(values)) => Ok(Some(Keys(values)))
        case _ => Ok(None)
  }

  /** `semantic.brand.theme`, read with optional chaining. */
  function ThemeToken(doc: Json): Option<Json>
  {
    Prop(Prop(Member(doc, "semantic"), "brand"), "theme")
  }

  /** `semantic.brand.primary.main`, read with optional chaining. */
  function MainToken(doc: Json): Option<Json>
  {
    Prop(Prop(Prop(Member(doc, "semantic"), "brand"), "primary"), "main")
  }

  /**
   * `extractBrandNames`: the key list of the theme token's `$value` object
   * when there is one, otherwise that of `primary.main`, otherwise empty. It
   * fails only where `in` is applied to a truthy primitive.
   */
  function ExtractBrandNames(doc: Json): (r: Result<seq<string>>)
    ensures OffersBrands(ThemeToken(doc)) ==>
      r == Ok(Keys(Member(ThemeToken(doc).value, "$value").value.fields))
    ensures !OffersBrands(ThemeToken(doc)) && !ThrowsOnIn(ThemeToken(doc)) && OffersBrands(MainToken(doc)) ==>
      r == Ok(Keys(Member(MainToken(doc).value, "$value").value.fields))
    ensures (!OffersBrands(ThemeToken(doc)) && !ThrowsOnIn(ThemeToken(doc))
      && !OffersBrands(MainToken(doc)) && !ThrowsOnIn(MainToken(doc))) ==> r == Ok([])
    ensures r.Err? <==> ThrowsOnIn(ThemeToken(doc)) || (!OffersBrands(ThemeToken(doc)) && ThrowsOnIn(MainToken(doc)))
  {
    match BrandKeysOf(ThemeToken(doc))
    case Err(e) => Err(e)
    case Ok(Some(names)) => Ok(names)
    case Ok(None) =>
      match BrandKeysOf(MainToken(doc))
      case Err(e) => Err(e)
      case Ok(Some(names)) => Ok(names)
      case Ok(None) => Ok([])
  }

  /** In a well-formed document no brand is listed twice. */
  lemma ExtractBrandNamesDistinct(doc: Json)
    requires Wf(doc) && ExtractBrandNames(doc).Ok?
    ensures var names := ExtractBrandNames(doc).value;
      forall i, j :: 0 <= i < j < |names| ==> names[i] != names[j]
  {
    var semantic := Member(doc, "semantic");
    WfProp(Some(doc), "semantic");
    var brand := Prop(semantic, "brand");
    WfProp(semantic, "brand");
    WfProp(brand, "theme");
    var primary := Prop(brand, "primary");
    WfProp(brand, "primary");
    WfProp(primary, "main");
    if OffersBrands(ThemeToken(doc)) {
      WfProp(ThemeToken(doc), "$value");
    } else if OffersBrands(MainToken(doc)) {
      WfProp(MainToken(doc), "$value");
    }
  }

  lemma WfProp(o: Option<Json>, k: string)
    requires o.Some? ==> Wf(o.value)
    ensures Prop(o, k).Some? ==> Wf(Prop(o, k).value)
  {
    if Prop(o, k).Some? {
      MemberWf(o.value, k);
    }
  }

  /**
   * The walk `updateTokenValue` makes from `semantic` along the dotted path:
   * the token found there when it has an object `$value`.
   */
  function UpdateTarget(doc: Json, path: string): Option<Json>
  {
    match Walk(Member(doc, "semantic"), Split(path, '.'))
    case Some(token) =>
      if token.Obj? && HasKey(token, "$value") && Get(token.fields, "$value").value.Obj? then Some(token) else None
    case None => None
  }

  /** The key path of the brand's entry in the token at `path`. */
  function BrandEntryKeys(path: string, brand: string): seq<string>
  {
    ["semantic"] + Split(path, '.') + ["$value", brand]
  }

  /** The value of `updateTokenValue(tokens, path, brand, value)`. */
  function UpdatedTokens(doc: Json, path: string, brand: string, v: Json): Json
  {
    if UpdateTarget(doc, path).Some? then SetIn(doc, BrandEntryKeys(path, brand), v) else doc
  }

  /**
   * `updateTokenValue`: walk to the parent of the last segment, giving up as
   * soon as a member is missing or not an object, then write the brand's entry
   * when the token there has an object `$value`.
   */
  method UpdateTokenValue(doc: Json, path: string, brand: string, newValue: Json) returns (r: Json)
    ensures r == UpdatedTokens(doc, path, brand, newValue)
  {
    var parts := Split(path, '.');
    var semantic := Member(doc, "semantic");
    var current := semantic;
    var i := 0;
    while i < |parts| - 1
      invariant 0 <= i <= |parts| - 1
      invariant current == Walk(semantic, parts[..i])
    {
      if current.None? || !current.value.Obj? {
        WalkStops(semantic, parts, i);
        return doc;
      }
      WalkStep(semantic, parts, i);
      current := Get(current.value.fields, parts[i]);
      i := i + 1;
    }
    WalkLast(semantic, parts);
    var lastKey := parts[|parts| - 1];
    r := doc;
    if current.Some? && current.value.Obj? {
      var token := Get(current.value.fields, lastKey);
      if token.Some? && token.value.Obj? && HasKey(token.value, "$value") {
        var valueObj := Get(token.value.fields, "$value").value;
        if valueObj.Obj? {
          r := SetIn(doc, BrandEntryKeys(path, brand), newValue);
        }
      }
    }
  }

  lemma WalkStep(cur: Option<Json>, keys: seq<string>, i: nat)
    requires i < |keys| && Walk(cur, keys[..i]).Some? && Walk(cur, keys[..i]).value.Obj?
    ensures Walk(cur, keys[..i + 1]) == Get(Walk(cur, keys[..i]).value.fields, keys[i])
  {
    WalkAppend(cur, keys[..i], [keys[i]]);
    assert keys[..i] + [keys[i]] == keys[..i + 1];
    assert [keys[i]][1..] == [];
  }

  lemma WalkStops(cur: Option<Json>, keys: seq<string>, i: nat)
    requires i < |keys| && (Walk(cur, keys[..i]).None? || !Walk(cur, keys[..i]).value.Obj?)
    ensures Walk(cur, keys) == None
  {
    WalkAppend(cur, keys[..i], keys[i..]);
    assert keys[..i] + keys[i..] == keys;
  }

  lemma WalkLast(cur: Option<Json>, keys: seq<string>)
    requires |keys| >= 1
    ensures Walk(cur, keys) ==
      var above := Walk(cur, keys[..|keys| - 1]);
      if above.Some? && above.value.Obj? then Get(above.value.fields, keys[|keys| - 1]) else None
  {
    var n := |keys|;
    WalkAppend(cur, keys[..n - 1], [keys[n - 1]]);
    assert keys[..n - 1] + [keys[n - 1]] == keys;
    assert [keys[n - 1]][1..] == [];
  }

  /** When the walk finds a token with an object `$value`, the brand's entry holds the new value afterwards. */
  lemma UpdateWrites(doc: Json, path: string, brand: string, v: Json)
    requires UpdateTarget(doc, path).Some?
    ensures Walk(Some(UpdatedTokens(doc, path, brand, v)), BrandEntryKeys(path, brand)) == Some(v)
  {
    var parts := Split(path, '.');
    var keys := BrandEntryKeys(path, brand);
    var token := UpdateTarget(doc, path).value;
    assert keys[..|keys| - 1] == ["semantic"] + parts + ["$value"];
    WalkAppend(Some(doc), ["semantic"], parts);
    WalkAppend(Some(doc), ["semantic"] + parts, ["$value"]);
    assert Walk(Some(doc), ["semantic"]) == Member(doc, "semantic") by {
      assert ["semantic"][1..] == [];
    }
    assert Walk(Some(doc), keys[..|keys| - 1]) == Get(token.fields, "$value") by {
      assert ["$value"][1..] == [];
    }
    SetInReads(doc, keys, v);
  }

  /**
   * A walk that leaves the brand entry's key path anywhere sees the old value:
   * other tokens, the token's other brands and fields, and everything outside
   * `semantic` (such as `global`) are unchanged.
   */
  lemma UpdateFrame(doc: Json, path: string, brand: string, v: Json, q: seq<string>, i: nat)
    requires i < |q| && i < |BrandEntryKeys(path, brand)| && q[i] != BrandEntryKeys(path, brand)[i]
    ensures Walk(Some(UpdatedTokens(doc, path, brand, v)), q) == Walk(Some(doc), q)
  {
    if UpdateTarget(doc, path).Some? {
      SetInFrame(doc, BrandEntryKeys(path, brand), v, q, i);
    }
  }

  /** Writing the value the brand already has gives back the same document. */
  lemma UpdateSameValue(doc: Json, path: string, brand: string, v: Json)
    requires Walk(Some(doc), BrandEntryKeys(path, brand)) == Some(v)
    ensures UpdatedTokens(doc, path, brand, v) == doc
  {
    SetInExisting(doc, BrandEntryKeys(path, brand), v);
  }

  /**
   * `addBrandToTokens`' rule for one multi-brand map: copy the source brand's
   * value when a source is named and present, else the first value when it
   * is truthy, else leave the map alone.
   */
  function AddBrandValue(values: seq<Field>, newBrand: string, source: Option<string>): (r: seq<Field>)
    ensures source.Some? && source.value != "" && source.value in Keys(values) ==>
      Get(r, newBrand) == Get(values, source.value)
    ensures !(source.Some? && source.value != "" && source.value in Keys(values)) ==>
      Get(r, newBrand) == if |values| > 0 && Truthy(values[0].1) then Some(values[0].1) else Get(values, newBrand)
    ensures forall k :: k != newBrand ==> Get(r, k) == Get(values, k)
  {
    if source.Some? && source.value != "" && source.value in Keys(values) then
      Set(values, newBrand, Get(values, source.value).value)
    else if |values| > 0 && Truthy(values[0].1) then Set(values, newBrand, values[0].1)
    else values
  }

  function AddFn(newBrand: string, source: Option<string>): seq<Field> -> seq<Field>
  {
    values => AddBrandValue(values, newBrand, source)
  }

  function RemoveFn(brand: string): seq<Field> -> seq<Field>
  {
    values => Remove(values, brand)
  }

  /**
   * The inner `traverse` of `addBrandToTokens` and `removeBrandFromTokens`
   * applied to one member value: an object with `$value` is a token, whose
   * object `$value` is rewritten by `f`; any other object is descended into.
   */
  function MapBrands(v: Json, f: seq<Field> -> seq<Field>): (r: Json)
    ensures HasKey(v, "$value") ==>
      HasKey(r, "$value") && (forall k :: k != "$value" ==> Member(r, k) == Member(v, k))
      && Member(r, "$value") == match Member(v, "$value") case Some(Obj(values)) => Some(Obj(f(values))) case o => o
    ensures HasKey(r, "$value") <==> HasKey(v, "$value")
    decreases v, 1
  {
    if HasKey(v, "$value") then
      match Get(v.fields, "$value")
      case Some(Obj(values)) =>
        SetKeys(v.fields, "$value", Obj(f(values)));
        Obj(Set(v.fields, "$value", Obj(f(values))))
      case _ => v
    else if v.Obj? then MapMembers(v, f)
    else v
  }

  /** `traverse(obj)`: every member value of an object, through `MapBrands`. */
  function MapMembers(j: Json, f: seq<Field> -> seq<Field>): (r: Json)
    requires j.Obj?
    ensures r.Obj? && Keys(r.fields) == Keys(j.fields)
    decreases j, 0
  {
    var fields := seq(|j.fields|, i requires 0 <= i < |j.fields| => (j.fields[i].0, MapBrands(j.fields[i].1, f)));
    assert Keys(fields) == Keys(j.fields) by {
      KeysPointwise(fields, j.fields);
    }
    Obj(fields)
  }

  lemma KeysPointwise(a: seq<Field>, b: seq<Field>)
    requires |a| == |b| && forall i :: 0 <= i < |a| ==> a[i].0 == b[i].0
    ensures Keys(a) == Keys(b)
  {
  }

  /**
   * The member the brand traversals treat as a token at `keys` below `j`:
   * every member on the way is an object without `$value`, and the last one
   * has `$value`.
   */
  function BrandTokenAt(j: Json, keys: seq<string>): Option<Json>
    decreases |keys|
  {
    if |keys| == 0 || !j.Obj? then None
    else
      match Get(j.fields, keys[0])
      case None => None
      case Some(child) =>
        if |keys| == 1 then (if HasKey(child, "$value") then Some(child) else None)
        else if child.Obj? && !HasKey(child, "$value") then BrandTokenAt(child, keys[1..])
        else None
  }

  /** Reading a member of the rewritten object reads the rewritten member. */
  lemma GetMapMembers(j: Json, f: seq<Field> -> seq<Field>, k: string)
    requires j.Obj?
    ensures Get(MapMembers(j, f).fields, k) ==
      match Get(j.fields, k) case Some(c) => Some(MapBrands(c, f)) case None => None
  {
    GetPointwise(MapMembers(j, f).fields, j.fields, x => MapBrands(x, f), k);
  }

  lemma {:induction false} GetPointwise(a: seq<Field>, b: seq<Field>, g: Json -> Json, k: string)
    requires |a| == |b| && forall i :: 0 <= i < |a| ==> a[i] == (b[i].0, g(b[i].1))
    ensures Get(a, k) == match Get(b, k) case Some(c) => Some(g(c)) case None => None
  {
    if |a| > 0 && a[0].0 != k {
      GetPointwise(a[1..], b[1..], g, k);
    }
  }

  /**
   * The traversal keeps the shape of the tree: the same key paths lead to
   * tokens, and each token found is the old one with its map rewritten.
   */
  lemma {:induction false} MapMembersAt(j: Json, f: seq<Field> -> seq<Field>, keys: seq<string>)
    requires j.Obj?
    ensures BrandTokenAt(MapMembers(j, f), keys) ==
      match BrandTokenAt(j, keys) case Some(t) => Some(MapBrands(t, f)) case None => None
    decreases |keys|
  {
    if |keys| > 0 {
      GetMapMembers(j, f, keys[0]);
      match Get(j.fields, keys[0])
      case None =>
      case Some(child) =>
        if |keys| > 1 && child.Obj? && !HasKey(child, "$value") {
          MapMembersAt(child, f, keys[1..]);
        }
    }
  }

  /** The token the brand traversals reach at `keys` below `semantic`. */
  function TokenIn(doc: Json, keys: seq<string>): Option<Json>
  {
    match Member(doc, "semantic")
    case Some(s) => BrandTokenAt(s, keys)
    case None => None
  }

  /** `semantic` replaced by its traversal with `f`; nothing outside it changes. */
  function MapSemantic(doc: Json, f: seq<Field> -> seq<Field>): Json
  {
    match Member(doc, "semantic")
    case Some(s) => if s.Obj? then Obj(Set(doc.fields, "semantic", MapMembers(s, f))) else doc
    case None => doc
  }

  /** The value of `addBrandToTokens(tokens, newBrand, sourceBrand)`. */
  function AddBrandToTokens(doc: Json, newBrand: string, source: Option<string>): Json
  {
    MapSemantic(doc, AddFn(newBrand, source))
  }

  /** The value of `removeBrandFromTokens(tokens, brand)`. */
  function RemoveBrandFromTokens(doc: Json, brand: string): Json
  {
    MapSemantic(doc, RemoveFn(brand))
  }

  /** A semantic traversal changes only `semantic`, and there each token's map as `f` says. */
  lemma MapSemanticFacts(doc: Json, f: seq<Field> -> seq<Field>, keys: seq<string>)
    ensures forall k :: k != "semantic" ==> Member(MapSemantic(doc, f), k) == Member(doc, k)
    ensures TokenIn(MapSemantic(doc, f), keys) ==
      match TokenIn(doc, keys) case Some(t) => Some(MapBrands(t, f)) case None => None
  {
    match Member(doc, "semantic")
    case Some(s) =>
      if s.Obj? {
        MapMembersAt(s, f, keys);
      } else {
        assert BrandTokenAt(s, keys) == None;
      }
    case None =>
  }

  /**
   * `addBrandToTokens` gives every multi-brand map the new brand as
   * `AddBrandValue` says and changes nothing outside `semantic`.
   */
  lemma AddBrandEverywhere(doc: Json, newBrand: string, source: Option<string>, keys: seq<string>, values: seq<Field>)
    requires TokenIn(doc, keys).Some? && Member(TokenIn(doc, keys).value, "$value") == Some(Obj(values))
    ensures TokenIn(AddBrandToTokens(doc, newBrand, source), keys).Some?
    ensures Member(TokenIn(AddBrandToTokens(doc, newBrand, source), keys).value, "$value")
      == Some(Obj(AddBrandValue(values, newBrand, source)))
    ensures forall k :: k != "semantic" ==> Member(AddBrandToTokens(doc, newBrand, source), k) == Member(doc, k)
  {
    MapSemanticFacts(doc, AddFn(newBrand, source), keys);
    assert HasKey(TokenIn(doc, keys).value, "$value") by {
      var s := Member(doc, "semantic").value;
      BrandTokenAtIsToken(s, keys);
    }
  }

  /**
   * `removeBrandFromTokens` deletes the brand from every multi-brand map
   * (`Remove` keeps the other entries and their order) and changes nothing
   * outside `semantic`.
   */
  lemma RemoveBrandEverywhere(doc: Json, brand: string, keys: seq<string>, values: seq<Field>)
    requires TokenIn(doc, keys).Some? && Member(TokenIn(doc, keys).value, "$value") == Some(Obj(values))
    ensures TokenIn(RemoveBrandFromTokens(doc, brand), keys).Some?
    ensures Member(TokenIn(RemoveBrandFromTokens(doc, brand), keys).value, "$value") == Some(Obj(Remove(values, brand)))
    ensures forall k :: k != "semantic" ==> Member(RemoveBrandFromTokens(doc, brand), k) == Member(doc, k)
  {
    MapSemanticFacts(doc, RemoveFn(brand), keys);
    assert HasKey(TokenIn(doc, keys).value, "$value") by {
      var s := Member(doc, "semantic").value;
      BrandTokenAtIsToken(s, keys);
    }
  }

  lemma {:induction false} BrandTokenAtIsToken(j: Json, keys: seq<string>)
    requires BrandTokenAt(j, keys).Some?
    ensures HasKey(BrandTokenAt(j, keys).value, "$value")
    decreases |keys|
  {
    if |keys| > 1 {
      BrandTokenAtIsToken(Get(j.fields, keys[0]).value, keys[1..]);
    }
  }

  /** No multi-brand map reached from the member value `v` has the brand. */
  predicate BrandAbsent(v: Json, brand: string)
    decreases v, 1
  {
    if HasKey(v, "$value") then
      match Get(v.fields, "$value")
      case Some(Obj(values)) => brand !in Keys(values)
      case _ => true
    else v.Obj? ==> MembersLack(v, brand)
  }

  /** No multi-brand map below the object `j` has the brand. */
  predicate MembersLack(j: Json, brand: string)
    requires j.Obj?
    decreases j, 0
  {
    forall i :: 0 <= i < |j.fields| ==> BrandAbsent(j.fields[i].1, brand)
  }

  /** Removing a brand that `addBrandToTokens` has just added, and that was nowhere before, restores the document. */
  lemma RemoveAfterAdd(doc: Json, newBrand: string, source: Option<string>)
    requires Member(doc, "semantic").Some? && Member(doc, "semantic").value.Obj? ==>
      MembersLack(Member(doc, "semantic").value, newBrand)
    ensures RemoveBrandFromTokens(AddBrandToTokens(doc, newBrand, source), newBrand) == doc
  {
    match Member(doc, "semantic")
    case Some(s) =>
      if s.Obj? {
        var added := MapMembers(s, AddFn(newBrand, source));
        MembersRoundTrip(s, newBrand, source);
        SetTwice(doc.fields, "semantic", added, s);
        SetExisting(doc.fields, "semantic", s);
      }
    case None =>
  }

  lemma {:induction false} MembersRoundTrip(j: Json, newBrand: string, source: Option<string>)
    requires j.Obj? && MembersLack(j, newBrand)
    ensures MapMembers(MapMembers(j, AddFn(newBrand, source)), RemoveFn(newBrand)) == j
    decreases j, 0
  {
    var added := MapMembers(j, AddFn(newBrand, source));
    var back := MapMembers(added, RemoveFn(newBrand));
    forall i | 0 <= i < |j.fields|
      ensures back.fields[i] == j.fields[i]
    {
      MemberRoundTrip(j.fields[i].1, newBrand, source);
    }
    assert back.fields == j.fields;
  }

  lemma {:induction false} MemberRoundTrip(v: Json, newBrand: string, source: Option<string>)
    requires BrandAbsent(v, newBrand)
    ensures MapBrands(MapBrands(v, AddFn(newBrand, source)), RemoveFn(newBrand)) == v
    decreases v, 1
  {
    if HasKey(v, "$value") {
      match Get(v.fields, "$value")
      case Some(Obj(values)) =>
        var added := AddBrandValue(values, newBrand, source);
        assert Remove(added, newBrand) == values by {
          if added != values {
            RemoveAfterSet(values, newBrand, Get(added, newBrand).value);
          }
        }
        SetTwice(v.fields, "$value", Obj(added), Obj(values));
        SetExisting(v.fields, "$value", Obj(values));
      case _ =>
    } else if v.Obj? {
      MembersRoundTrip(v, newBrand, source);
    }
  }
}
