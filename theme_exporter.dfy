/**
 * The W3C export of a theme (`src/utils/themeExporter.ts`): one complete file
 * with every brand, or one file per brand with each multi-brand token cut
 * down to that brand's value, optionally with text styles filtered to chosen
 * properties; the brand names found in the tokens; and the checks run on the
 * export options. File contents are the JSON values written, not their text.
 */
module ThemeExporter {
  import opened Wrappers
  import opened Text
  import opened JsonTree
  import opened TokenFlattener
  import opened ExportFormat
  import opened Seqs

  datatype Format = Complete | PerBrand

  /** `ExportOptions`; a missing `brands` is `None`, a missing `includeGlobal` is `false`. */
  datatype ExportOptions = ExportOptions(
    format: Format,
    brands: Option<seq<string>>,
    includeTextStyles: bool,
    textStyleProperties: seq<string>,
    includeGlobal: bool)

  /** `ExportFile` without the byte size of its text. */
  datatype ExportFile = ExportFile(filename: string, content: Json)

  /** What `executeExport` reports, without the sizes it prints. */
  datatype Message = NoTokensLoaded | NoFilesGenerated | Exported(count: nat) | ExportFailed(error: string)

  datatype ExportResult = ExportResult(success: bool, message: Message, files: seq<ExportFile>)

  const CompleteFilename: string := "orbit-tokens.json"
  const NoBrandsError: string := "At least one brand must be selected for per-brand export"
  const NoPropertiesError: string := "At least one text style property must be selected"

  /**
   * `isMultiBrandValue(value)`: an object with at least one key, no key
   * starting with `$`, and only string values (a JSON value here is never an
   * array).
   */
  predicate IsMultiBrandValue(v: Json)
  {
    v.Obj? && |v.fields| > 0
    && (forall i :: 0 <= i < |v.fields| ==> !StartsWith(v.fields[i].0, "$"))
    && (forall i :: 0 <= i < |v.fields| ==> v.fields[i].1.Str?)
  }

  /** Every brand entry of a multi-brand value is a plain string. */
  lemma MultiBrandEntries(v: Json, brand: string)
    requires IsMultiBrandValue(v) && Get(v.fields, brand).Some?
    ensures Get(v.fields, brand).value.Str?
    ensures !StartsWith(brand, "$")
  {
    var i :| 0 <= i < |v.fields| && v.fields[i] == (brand, Get(v.fields, brand).value);
  }

  /** `obj[k]` when it is present and truthy, as the `'k' in obj && obj.k` spreads test. */
  function TruthyMember(obj: Json, k: string): (r: Option<Json>)
    ensures r.Some? <==> Member(obj, k).Some? && Truthy(Member(obj, k).value)
    ensures r.Some? ==> r == Member(obj, k)
  {
    match Member(obj, k)
    case Some(d) => if Truthy(d) then Some(d) else None
    case None => None
  }

  /** A one-field list for a present value, an empty one otherwise. */
  function Entry(k: string, o: Option<Json>): (r: seq<Field>)
    ensures Get(r, k) == o
    ensures forall k' :: k' != k ==> Get(r, k') == None
    ensures Keys(r) == if o.Some? then [k] else []
  {
    match o
    case Some(v) => Cons((k, v), []); [(k, v)]
    case None => []
  }

  /** The optional `$description` and, when asked for, `$extensions` spreads. */
  function Extras(obj: Json, withExtensions: bool): (r: seq<Field>)
    ensures Get(r, "$description") == TruthyMember(obj, "$description")
    ensures Get(r, "$extensions") == if withExtensions then TruthyMember(obj, "$extensions") else None
    ensures forall k :: k != "$description" && k != "$extensions" ==> Get(r, k) == None
  {
    var description := Entry("$description", TruthyMember(obj, "$description"));
    var extensions := Entry("$extensions", if withExtensions then TruthyMember(obj, "$extensions") else None);
    forall k {
      GetAppend(description, extensions, k);
    }
    description + extensions
  }

  /** An object literal with two leading fields followed by `rest`. */
  function Fields2(a: Field, b: Field, rest: seq<Field>): (r: seq<Field>)
    requires a.0 != b.0
    ensures Get(r, a.0) == Some(a.1) && Get(r, b.0) == Some(b.1)
    ensures forall k :: k != a.0 && k != b.0 ==> Get(r, k) == Get(rest, k)
  {
    Cons(b, rest);
    Cons(a, [b] + rest);
    assert [a, b] + rest == [a] + ([b] + rest);
    [a, b] + rest
  }

  /** The four member names of a token are distinct. */
  lemma TokenKeysDiffer()
    ensures "$value" != "$type" && "$description" != "$extensions"
    ensures "$description" != "$value" && "$description" != "$type"
    ensures "$extensions" != "$value" && "$extensions" != "$type"
  {
    assert "$value"[1] != "$type"[1] && "$description"[1] != "$extensions"[1];
    assert "$description"[1] != "$value"[1] && "$description"[1] != "$type"[1];
    assert "$extensions"[1] != "$value"[1] && "$extensions"[1] != "$type"[1];
  }

  /** The `$value` of a token. */
  function TokenValue(obj: Json): Json
    requires IsToken(obj)
  {
    Get(obj.fields, "$value").value
  }

  /**
   * The object literal `extractBrandFromObject` builds for a token: the
   * given `$value`, the token's `$type`, its truthy `$description` and, when
   * asked for, its truthy `$extensions`.
   */
  function SingleValueToken(obj: Json, value: Json, withExtensions: bool): (r: Json)
    requires IsToken(obj)
    ensures r.Obj? && IsToken(r)
    ensures Get(r.fields, "$value") == Some(value) && Get(r.fields, "$type") == Member(obj, "$type")
    ensures Get(r.fields, "$description") == TruthyMember(obj, "$description")
    ensures Get(r.fields, "$extensions") == if withExtensions then TruthyMember(obj, "$extensions") else None
  {
    var extras := Extras(obj, withExtensions);
    var fields := Fields2(("$value", value), ("$type", Get(obj.fields, "$type").value), extras);
    assert Get(fields, "$description") == Get(extras, "$description");
    assert Get(fields, "$extensions") == Get(extras, "$extensions");
    Obj(fields)
  }

  /**
   * `extractBrandFromObject` on a token: a multi-brand `$value` becomes the
   * brand's string with `$description` and `$extensions` kept, or, when the
   * brand is missing, the first brand's string with only `$description`
   * kept; any other token is returned as it is.
   */
  function ExtractToken(obj: Json, brand: string): (r: Json)
    requires IsToken(obj)
    ensures IsToken(r) && Member(r, "$type") == Member(obj, "$type")
    ensures !IsMultiBrandValue(TokenValue(obj)) ==> r == obj
    ensures IsMultiBrandValue(TokenValue(obj)) && brand in Keys(TokenValue(obj).fields) ==>
      Get(TokenValue(obj).fields, brand).value.Str?
      && r == SingleValueToken(obj, Get(TokenValue(obj).fields, brand).value, true)
    ensures IsMultiBrandValue(TokenValue(obj)) && brand !in Keys(TokenValue(obj).fields) ==>
      r == if TokenValue(obj).fields[0].0 != "" then SingleValueToken(obj, TokenValue(obj).fields[0].1, false) else obj
  {
    var value := TokenValue(obj);
    if IsMultiBrandValue(value) then
      match Get(value.fields, brand)
      case Some(brandValue) =>
        MultiBrandEntries(value, brand);
        SingleValueToken(obj, brandValue, true)
      case None =>
        var first := value.fields[0].0;
        if first != "" then
          FirstEntry(value.fields);
          SingleValueToken(obj, Get(value.fields, first).value, false)
        else obj
    else obj
  }

  lemma FirstEntry(fs: seq<Field>)
    requires |fs| > 0
    ensures Get(fs, fs[0].0) == Some(fs[0].1)
  {
  }

  /**
   * `extractBrandFromObject(obj, brand)`: primitives come back as they are,
   * tokens as `ExtractToken` gives them, and other objects keep their keys
   * with every member extracted in turn.
   */
  function ExtractBrand(obj: Json, brand: string): (r: Json)
    ensures !obj.Obj? ==> r == obj
    ensures obj.Obj? && !IsToken(obj) ==> r.Obj? && Keys(r.fields) == Keys(obj.fields)
    ensures IsToken(r) <==> IsToken(obj)
    decreases obj, 1
  {
    if !obj.Obj? then obj
    else if IsToken(obj) then ExtractToken(obj, brand)
    else ExtractMembers(obj, brand)
  }

  /** The `result` object: each entry of `obj` with its value extracted. */
  function ExtractMembers(obj: Json, brand: string): (r: Json)
    requires obj.Obj?
    ensures r.Obj? && Keys(r.fields) == Keys(obj.fields)
    decreases obj, 0
  {
    var fields := seq(|obj.fields|, i requires 0 <= i < |obj.fields| => (obj.fields[i].0, ExtractBrand(obj.fields[i].1, brand)));
    KeysPointwise(fields, obj.fields);
    Obj(fields)
  }

  /**
   * The per-brand tree keeps the shape of the original: the same key paths
   * lead to tokens, and each token found is the original one extracted.
   */
  lemma {:induction false} ExtractBrandAt(j: Json, brand: string, keys: seq<string>)
    ensures TypedTokenAt(ExtractBrand(j, brand), keys) ==
      (if TypedTokenAt(j, keys).Some? then Some(ExtractToken(TypedTokenAt(j, keys).value, brand)) else None)
    decreases |keys|
  {
    if !IsToken(j) && |keys| > 0 && j.Obj? {
      var e := ExtractMembers(j, brand);
      GetPointwise(e.fields, j.fields, x => ExtractBrand(x, brand), keys[0]);
      match Get(j.fields, keys[0])
      case Some(child) =>
        ExtractBrandAt(child, brand, keys[1..]);
      case None =>
    }
  }

  // Brand names

  /** No element appears twice. */
  predicate Distinct(s: seq<string>)
  {
    forall i, j :: 0 <= i < j < |s| ==> s[i] != s[j]
  }

  /** `brandNames.add(k)` on a set kept in insertion order. */
  function AddName(names: seq<string>, k: string): (r: seq<string>)
    ensures names <= r && (forall x :: x in r <==> x in names || x == k)
    ensures Distinct(names) ==> Distinct(r)
  {
    if k in names then names else names + [k]
  }

  /** `Object.keys(values).forEach(brand => brandNames.add(brand))`. */
  function AddNames(names: seq<string>, keys: seq<string>): (r: seq<string>)
    ensures names <= r && (forall x :: x in r <==> x in names || x in keys)
    ensures Distinct(names) ==> Distinct(r)
    decreases |keys|
  {
    if |keys| == 0 then names
    else
      var last := keys[|keys| - 1];
      assert forall x :: x in keys <==> x in keys[..|keys| - 1] || x == last;
      AddName(AddNames(names, keys[..|keys| - 1]), last)
  }

  /** The multi-brand map of `v` when it is a token whose `$value` is one. */
  function MultiBrandMap(v: Json): Option<seq<Field>>
  {
    if IsToken(v) && IsMultiBrandValue(Get(v.fields, "$value").value) then Some(Get(v.fields, "$value").value.fields)
    else None
  }

  /**
   * The inner `traverse` of `extractBrandNamesFromTokens`: a token with a
   * multi-brand `$value` adds its keys; every other object is descended into.
   */
  function Collect(v: Json, names: seq<string>): (r: seq<string>)
    ensures names <= r
    ensures Distinct(names) ==> Distinct(r)
    decreases v, 1
  {
    if !v.Obj? then names
    else match MultiBrandMap(v)
      case Some(values) => AddNames(names, Keys(values))
      case None => CollectUpTo(v, names, |v.fields|)
  }

  /** The loop over `Object.values(obj)`, up to position `n`. */
  function CollectUpTo(v: Json, names: seq<string>, n: nat): (r: seq<string>)
    requires v.Obj? && n <= |v.fields|
    ensures names <= r
    ensures Distinct(names) ==> Distinct(r)
    decreases v, 0, n
  {
    if n == 0 then names else Collect(v.fields[n - 1].1, CollectUpTo(v, names, n - 1))
  }

  /** `extractBrandNamesFromTokens(tokens)`, as a value. */
  function BrandNamesFromTokens(tokens: Json): seq<string>
  {
    match Member(tokens, "semantic")
    case Some(semantic) => Collect(semantic, [])
    case None => []
  }

  /**
   * `extractBrandNamesFromTokens(tokens)`: the brands of the semantic tree,
   * each once, in the order they are first met.
   */
  method ExtractBrandNamesFromTokens(tokens: Json) returns (names: seq<string>)
    ensures names == BrandNamesFromTokens(tokens)
    ensures Distinct(names)
  {
    names := [];
    if Member(tokens, "semantic").Some? {
      names := Traverse(Member(tokens, "semantic").value, names);
    }
  }

  /** `traverse(obj)`, adding to the set `names`. */
  method Traverse(obj: Json, names: seq<string>) returns (r: seq<string>)
    ensures r == Collect(obj, names)
    decreases obj, 1
  {
    r := names;
    if !obj.Obj? {
      return;
    }
    var values := MultiBrandMap(obj);
    if values.Some? {
      var keys := Keys(values.value);
      var j := 0;
      while j < |keys|
        invariant 0 <= j <= |keys|
        invariant r == AddNames(names, keys[..j])
      {
        assert keys[..j + 1][..j] == keys[..j];
        r := AddName(r, keys[j]);
        j := j + 1;
      }
      assert keys[..j] == keys;
      return;
    }
    var i := 0;
    while i < |obj.fields|
      invariant 0 <= i <= |obj.fields|
      invariant r == CollectUpTo(obj, names, i)
    {
      r := Traverse(obj.fields[i].1, r);
      i := i + 1;
    }
  }

  /**
   * The multi-brand map found at `keys` below `j` by the brand-name traversal,
   * which stops at multi-brand tokens and descends into everything else.
   */
  function BrandMapAt(j: Json, keys: seq<string>): Option<seq<Field>>
    decreases |keys|
  {
    if MultiBrandMap(j).Some? then (if |keys| == 0 then MultiBrandMap(j) else None)
    else if |keys| == 0 || !j.Obj? then None
    else
      match Get(j.fields, keys[0])
      case Some(child) => BrandMapAt(child, keys[1..])
      case None => None
  }

  ghost predicate BrandFound(j: Json, brand: string)
  {
    exists keys :: BrandMapAt(j, keys).Some? && brand in Keys(BrandMapAt(j, keys).value)
  }

  /**
   * A name is listed exactly when it was listed before or is a key of some
   * multi-brand map in the tree.
   */
  lemma {:induction false} CollectMembers(v: Json, names: seq<string>, brand: string)
    requires Wf(v)
    ensures brand in Collect(v, names) <==> brand in names || BrandFound(v, brand)
    decreases v, 1
  {
    if !v.Obj? {
      assert !BrandFound(v, brand) by {
        forall keys ensures BrandMapAt(v, keys).None? {
        }
      }
    } else if MultiBrandMap(v).Some? {
      if brand in Keys(MultiBrandMap(v).value) {
        assert BrandMapAt(v, []).Some?;
      }
      forall keys | BrandMapAt(v, keys).Some? ensures keys == [] {
      }
    } else {
      CollectUpToMembers(v, names, brand, |v.fields|);
    }
  }

  /** `BrandFound` restricted to the first `n` members. */
  ghost predicate BrandFoundUpTo(v: Json, brand: string, n: nat)
    requires v.Obj? && n <= |v.fields|
  {
    exists i :: 0 <= i < n && BrandFound(v.fields[i].1, brand)
  }

  lemma {:induction false} CollectUpToMembers(v: Json, names: seq<string>, brand: string, n: nat)
    requires Wf(v) && v.Obj? && MultiBrandMap(v).None? && n <= |v.fields|
    ensures brand in CollectUpTo(v, names, n) <==> brand in names || BrandFoundUpTo(v, brand, n)
    ensures n == |v.fields| ==> (BrandFoundUpTo(v, brand, n) <==> BrandFound(v, brand))
    decreases v, 0, n
  {
    if n > 0 {
      CollectUpToMembers(v, names, brand, n - 1);
      CollectMembers(v.fields[n - 1].1, CollectUpTo(v, names, n - 1), brand);
      assert BrandFoundUpTo(v, brand, n) <==> BrandFoundUpTo(v, brand, n - 1) || BrandFound(v.fields[n - 1].1, brand);
    }
    if n == |v.fields| {
      FoundBelow(v, brand);
    }
  }

  /** A brand found in an object that is not a multi-brand token is found in one of its members. */
  lemma FoundBelow(v: Json, brand: string)
    requires Wf(v) && v.Obj? && MultiBrandMap(v).None?
    ensures BrandFound(v, brand) <==> BrandFoundUpTo(v, brand, |v.fields|)
  {
    if BrandFound(v, brand) {
      FoundInMember(v, brand);
    }
    if BrandFoundUpTo(v, brand, |v.fields|) {
      FoundThroughMember(v, brand);
    }
  }

  lemma FoundInMember(v: Json, brand: string)
    requires v.Obj? && MultiBrandMap(v).None? && BrandFound(v, brand)
    ensures BrandFoundUpTo(v, brand, |v.fields|)
  {
    var keys :| BrandMapAt(v, keys).Some? && brand in Keys(BrandMapAt(v, keys).value);
    var child := Get(v.fields, keys[0]).value;
    var i :| 0 <= i < |v.fields| && v.fields[i] == (keys[0], child);
    assert BrandMapAt(child, keys[1..]) == BrandMapAt(v, keys);
    assert BrandFound(v.fields[i].1, brand);
  }

  lemma FoundThroughMember(v: Json, brand: string)
    requires Wf(v) && v.Obj? && MultiBrandMap(v).None? && BrandFoundUpTo(v, brand, |v.fields|)
    ensures BrandFound(v, brand)
  {
    var i :| 0 <= i < |v.fields| && BrandFound(v.fields[i].1, brand);
    var keys :| BrandMapAt(v.fields[i].1, keys).Some? && brand in Keys(BrandMapAt(v.fields[i].1, keys).value);
    var path := [v.fields[i].0] + keys;
    MapAtMember(v, i, keys);
    assert BrandMapAt(v, path).Some? && brand in Keys(BrandMapAt(v, path).value);
  }

  /** The traversal steps from an object that is not a brand map into its `i`-th member. */
  lemma MapAtMember(v: Json, i: nat, keys: seq<string>)
    requires v.Obj? && MultiBrandMap(v).None? && i < |v.fields|
    requires forall a, b :: 0 <= a < b < |v.fields| ==> v.fields[a].0 != v.fields[b].0
    ensures BrandMapAt(v, [v.fields[i].0] + keys) == BrandMapAt(v.fields[i].1, keys)
  {
    var path := [v.fields[i].0] + keys;
    GetDistinct(v.fields, i);
    assert path[1..] == keys;
  }

  /**
   * The listed brands are exactly the keys of the semantic tree's multi-brand
   * maps, each once.
   */
  lemma BrandNamesExactly(tokens: Json, brand: string)
    requires Member(tokens, "semantic").Some? && Wf(Member(tokens, "semantic").value)
    ensures brand in BrandNamesFromTokens(tokens) <==> BrandFound(Member(tokens, "semantic").value, brand)
    ensures Distinct(BrandNamesFromTokens(tokens))
  {
    CollectMembers(Member(tokens, "semantic").value, [], brand);
  }

  // Text styles

  /**
   * The `for (const prop of selectedProperties)` loop: the selected
   * properties the style's `$value` has, with their values.
   */
  function SelectedProperties(values: seq<Field>, props: seq<string>): (r: seq<Field>)
    ensures forall k :: Get(r, k) == if k in props then Get(values, k) else None
    decreases |props|
  {
    if |props| == 0 then []
    else
      var front := props[..|props| - 1];
      var prop := props[|props| - 1];
      assert forall k :: k in props <==> k in front || k == prop;
      var r := SelectedProperties(values, front);
      if prop in Keys(values) then Set(r, prop, Get(values, prop).value) else r
  }

  /** The `TypeError` that `prop in null` throws. */
  function InNullError(prop: string): string
  {
    "Cannot use 'in' operator to search for '" + prop + "' in null"
  }

  /**
   * The object built for a typography token: its `$type`, the filtered
   * `$value`, and its truthy `$description` and `$extensions`.
   */
  function FilteredToken(style: Json, selected: seq<Field>): (r: Json)
    requires IsToken(style)
    ensures r.Obj? && IsToken(r)
    ensures Get(r.fields, "$type") == Member(style, "$type")
    ensures Get(r.fields, "$value") == Some(Obj(selected))
    ensures Get(r.fields, "$description") == TruthyMember(style, "$description")
    ensures Get(r.fields, "$extensions") == TruthyMember(style, "$extensions")
  {
    var extras := Extras(style, true);
    TokenKeysDiffer();
    var fields := Fields2(("$type", Get(style.fields, "$type").value), ("$value", Obj(selected)), extras);
    assert Get(fields, "$description") == Get(extras, "$description");
    assert Get(fields, "$extensions") == Get(extras, "$extensions");
    Obj(fields)
  }

  /**
   * One entry of `filterTextStyleProperties`: a token whose `$value` is an
   * object keeps only the selected properties (a `null` `$value` throws),
   * another object is filtered recursively, anything else is kept.
   */
  function FilterStyle(style: Json, props: seq<string>): (r: Result<Json>)
    requires |props| > 0
    ensures IsToken(style) && TokenValue(style).Obj? ==>
      r == Ok(FilteredToken(style, SelectedProperties(TokenValue(style).fields, props)))
    ensures IsToken(style) && TokenValue(style).Null? ==> r == Err(InNullError(props[0]))
    ensures !style.Obj? ==> r == Ok(style)
    decreases style, 2
  {
    if IsToken(style) && TokenValue(style).Obj? then Ok(FilteredToken(style, SelectedProperties(TokenValue(style).fields, props)))
    else if IsToken(style) && TokenValue(style).Null? then Err(InNullError(props[0]))
    else if style.Obj? then FilterTextStyles(style, props)
    else Ok(style)
  }

  /**
   * `filterTextStyleProperties(textStyles, selectedProperties)`: the input
   * itself when it is not an object or nothing is selected, otherwise every
   * entry filtered, or the first error thrown.
   */
  function FilterTextStyles(textStyles: Json, props: seq<string>): (r: Result<Json>)
    ensures !textStyles.Obj? || |props| == 0 ==> r == Ok(textStyles)
    ensures textStyles.Obj? && r.Ok? ==> r.value.Obj? && Keys(r.value.fields) == Keys(textStyles.fields)
    decreases textStyles, 1
  {
    if !textStyles.Obj? || |props| == 0 then Ok(textStyles)
    else
      match FilterEntries(textStyles, props, |textStyles.fields|)
      case Ok(fields) => Ok(Obj(fields))
      case Err(e) => Err(e)
  }

  /** The loop over `Object.entries(textStyles)`, up to position `n`. */
  function FilterEntries(textStyles: Json, props: seq<string>, n: nat): (r: Result<seq<Field>>)
    requires textStyles.Obj? && |props| > 0 && n <= |textStyles.fields|
    ensures r.Ok? ==> Keys(r.value) == Keys(textStyles.fields[..n])
    decreases textStyles, 0, n
  {
    if n == 0 then Ok([])
    else
      match FilterEntries(textStyles, props, n - 1)
      case Err(e) => Err(e)
      case Ok(fields) =>
        match FilterStyle(textStyles.fields[n - 1].1, props)
        case Err(e) => Err(e)
        case Ok(filtered) =>
          var r := fields + [(textStyles.fields[n - 1].0, filtered)];
          KeysSnoc(fields, (textStyles.fields[n - 1].0, filtered));
          assert textStyles.fields[..n] == textStyles.fields[..n - 1] + [textStyles.fields[n - 1]];
          KeysSnoc(textStyles.fields[..n - 1], textStyles.fields[n - 1]);
          Ok(r)
  }

  lemma KeysSnoc(fs: seq<Field>, x: Field)
    ensures Keys(fs + [x]) == Keys(fs) + [x.0]
  {
  }

  /** Once an entry throws, the loop throws the same error whatever follows. */
  lemma {:induction false} FilterErrorSticks(textStyles: Json, props: seq<string>, i: nat, n: nat)
    requires textStyles.Obj? && |props| > 0 && i <= n <= |textStyles.fields|
    requires FilterEntries(textStyles, props, i).Err?
    ensures FilterEntries(textStyles, props, n) == FilterEntries(textStyles, props, i)
    decreases n - i
  {
    if i < n {
      FilterErrorSticks(textStyles, props, i, n - 1);
    }
  }

  /** `filterTextStyleProperties`, with its loops. */
  method FilterTextStyleProperties(textStyles: Json, props: seq<string>) returns (r: Result<Json>)
    ensures r == FilterTextStyles(textStyles, props)
    decreases textStyles, 1
  {
    if !textStyles.Obj? || |props| == 0 {
      return Ok(textStyles);
    }
    var result: seq<Field> := [];
    var i := 0;
    while i < |textStyles.fields|
      invariant 0 <= i <= |textStyles.fields|
      invariant FilterEntries(textStyles, props, i) == Ok(result)
    {
      var filtered := FilterStyleMember(textStyles.fields[i].1, props);
      if filtered.Err? {
        FilterErrorSticks(textStyles, props, i + 1, |textStyles.fields|);
        return Err(filtered.error);
      }
      result := result + [(textStyles.fields[i].0, filtered.value)];
      i := i + 1;
    }
    r := Ok(Obj(result));
  }

  /** The body of the entries loop. */
  method FilterStyleMember(style: Json, props: seq<string>) returns (r: Result<Json>)
    requires |props| > 0
    ensures r == FilterStyle(style, props)
    decreases style, 2
  {
    if IsToken(style) && TokenValue(style).Obj? {
      var filtered := SelectProperties(TokenValue(style).fields, props);
      r := Ok(FilteredToken(style, filtered));
    } else if IsToken(style) && TokenValue(style).Null? {
      r := Err(InNullError(props[0]));
    } else if style.Obj? {
      r := FilterTextStyleProperties(style, props);
    } else {
      r := Ok(style);
    }
  }

  /** The inner loop filling `filteredValue`. */
  method SelectProperties(values: seq<Field>, props: seq<string>) returns (filtered: seq<Field>)
    ensures filtered == SelectedProperties(values, props)
  {
    filtered := [];
    var i := 0;
    while i < |props|
      invariant 0 <= i <= |props|
      invariant filtered == SelectedProperties(values, props[..i])
    {
      assert props[..i + 1][..i] == props[..i];
      if props[i] in Keys(values) {
        filtered := Set(filtered, props[i], Get(values, props[i]).value);
      }
      i := i + 1;
    }
    assert props[..i] == props;
  }

  // Export routing

  /** The named member of the document when it is present and truthy, as `if (tokens.x)` tests. */
  function Section(tokens: Json, name: string): Option<Json>
  {
    TruthyMember(tokens, name)
  }

  /** The requested text styles, filtered, when the options ask for them and the document has some. */
  function TextStyles(tokens: Json, options: ExportOptions, brand: Option<string>): (r: Result<seq<Field>>)
    ensures r.Ok? ==> Keys(r.value) == if options.includeTextStyles && HasKey(tokens, "textStyles") then ["textStyles"] else []
  {
    if options.includeTextStyles && HasKey(tokens, "textStyles") then
      var styles := Get(tokens.fields, "textStyles").value;
      var source := if brand.Some? then ExtractBrand(styles, brand.value) else styles;
      match FilterTextStyles(source, options.textStyleProperties)
      case Ok(filtered) => Ok([("textStyles", filtered)])
      case Err(e) => Err(e)
    else Ok([])
  }

  /**
   * `exportCompleteW3C(tokens, options)`: one file holding the truthy
   * `global` and `semantic` trees unchanged and the filtered text styles.
   */
  function ExportCompleteW3C(tokens: Json, options: ExportOptions): (r: Result<seq<ExportFile>>)
    ensures r.Err? <==>
      (options.includeTextStyles && HasKey(tokens, "textStyles")
       && FilterTextStyles(Member(tokens, "textStyles").value, options.textStyleProperties).Err?)
    ensures r.Ok? ==> (|r.value| == 1 && r.value[0].filename == CompleteFilename
      && Member(r.value[0].content, "global") == Section(tokens, "global")
      && Member(r.value[0].content, "semantic") == Section(tokens, "semantic")
      && Member(r.value[0].content, "textStyles") ==
        (if options.includeTextStyles && HasKey(tokens, "textStyles")
         then Some(FilterTextStyles(Member(tokens, "textStyles").value, options.textStyleProperties).value)
         else None))
    ensures r.Ok? ==> (r.value[0].content.Obj? && Keys(r.value[0].content.fields) ==
      (if Section(tokens, "global").Some? then ["global"] else [])
      + (if Section(tokens, "semantic").Some? then ["semantic"] else [])
      + (if options.includeTextStyles && HasKey(tokens, "textStyles") then ["textStyles"] else []))
  {
    match TextStyles(tokens, options, None)
    case Err(e) => Err(e)
    case Ok(styles) =>
      var content := Entry("global", Section(tokens, "global")) + Entry("semantic", Section(tokens, "semantic")) + styles;
      ContentMembers(Entry("global", Section(tokens, "global")), Entry("semantic", Section(tokens, "semantic")), styles);
      Ok([ExportFile(CompleteFilename, Obj(content))])
  }

  /** The three sections of an export object are read back unchanged when each holds only its own key. */
  lemma ContentMembers(global: seq<Field>, semantic: seq<Field>, rest: seq<Field>)
    requires forall k :: k != "global" ==> Get(global, k) == None
    requires forall k :: k != "semantic" ==> Get(semantic, k) == None
    requires Keys(rest) == [] || Keys(rest) == ["textStyles"]
    ensures Get(global + semantic + rest, "global") == Get(global, "global")
    ensures Get(global + semantic + rest, "semantic") == Get(semantic, "semantic")
    ensures Get(global + semantic + rest, "textStyles") == Get(rest, "textStyles")
    ensures Keys(global + semantic + rest) == Keys(global) + Keys(semantic) + Keys(rest)
  {
    KeysAppend(global, semantic);
    KeysAppend(global + semantic, rest);
    GetAppend(global + semantic, rest, "global");
    GetAppend(global + semantic, rest, "semantic");
    GetAppend(global, semantic, "global");
    GetAppend(global, semantic, "semantic");
    GetAppend(global + semantic, rest, "textStyles");
    GetAppend(global, semantic, "textStyles");
  }

  /** `${brand}-semantic.tokens.json`. */
  function BrandFilename(brand: string): string
  {
    brand + "-semantic.tokens.json"
  }

  /**
   * One iteration of `exportPerBrand`: `global` only when `includeGlobal` is
   * set, the semantic tree extracted for the brand, and the brand's filtered
   * text styles.
   */
  function BrandFile(tokens: Json, options: ExportOptions, brand: string): (r: Result<ExportFile>)
    ensures r.Err? <==>
      (options.includeTextStyles && HasKey(tokens, "textStyles")
       && FilterTextStyles(ExtractBrand(Member(tokens, "textStyles").value, brand), options.textStyleProperties).Err?)
    ensures r.Ok? ==> (r.value.filename == BrandFilename(brand)
      && Member(r.value.content, "global") == (if options.includeGlobal then Section(tokens, "global") else None)
      && Member(r.value.content, "semantic") ==
        (if Section(tokens, "semantic").Some? then Some(ExtractBrand(Section(tokens, "semantic").value, brand)) else None)
      && Member(r.value.content, "textStyles") ==
        (if options.includeTextStyles && HasKey(tokens, "textStyles")
         then Some(FilterTextStyles(ExtractBrand(Member(tokens, "textStyles").value, brand), options.textStyleProperties).value)
         else None))
    ensures r.Ok? ==> (r.value.content.Obj? && Keys(r.value.content.fields) ==
      (if options.includeGlobal && Section(tokens, "global").Some? then ["global"] else [])
      + (if Section(tokens, "semantic").Some? then ["semantic"] else [])
      + (if options.includeTextStyles && HasKey(tokens, "textStyles") then ["textStyles"] else []))
  {
    match TextStyles(tokens, options, Some(brand))
    case Err(e) => Err(e)
    case Ok(styles) =>
      var global := Entry("global", if options.includeGlobal then Section(tokens, "global") else None);
      var semantic := Entry("semantic", match Section(tokens, "semantic") case Some(s) => Some(ExtractBrand(s, brand)) case None => None);
      ContentMembers(global, semantic, styles);
      Ok(ExportFile(BrandFilename(brand), Obj(global + semantic + styles)))
  }

  /** The brands the options ask for: `options.brands || []`. */
  function RequestedBrands(options: ExportOptions): seq<string>
  {
    if options.brands.Some? then options.brands.value else []
  }

  /** One iteration of the per-brand loop as a function of the brand. */
  function BrandFileFor(tokens: Json, options: ExportOptions): string -> Result<ExportFile>
  {
    brand => BrandFile(tokens, options, brand)
  }

  /** The files of `exportPerBrand`: one per requested brand, in order, or the first error thrown. */
  function PerBrandFiles(tokens: Json, options: ExportOptions): Result<seq<ExportFile>>
  {
    var brands := RequestedBrands(options);
    AllOk(Results(BrandFileFor(tokens, options), brands), |brands|)
  }

  /** `exportPerBrand(tokens, options)`: the `for (const brand of brands)` loop pushing each brand's file. */
  method ExportPerBrand(tokens: Json, options: ExportOptions) returns (r: Result<seq<ExportFile>>)
    ensures r == PerBrandFiles(tokens, options)
  {
    r := PushEach(BrandFileFor(tokens, options), RequestedBrands(options));
  }

  /**
   * A per-brand export gives one file per requested brand, in order, each
   * named after its brand, and fails exactly when some brand's text styles
   * throw.
   */
  lemma PerBrandShape(tokens: Json, options: ExportOptions)
    ensures PerBrandFiles(tokens, options).Ok? <==>
      forall i :: 0 <= i < |RequestedBrands(options)| ==> TextStyles(tokens, options, Some(RequestedBrands(options)[i])).Ok?
    ensures PerBrandFiles(tokens, options).Ok? ==>
      var files := PerBrandFiles(tokens, options).value;
      |files| == |RequestedBrands(options)|
      && forall i :: 0 <= i < |files| ==>
        (files[i] == BrandFile(tokens, options, RequestedBrands(options)[i]).value
         && files[i].filename == BrandFilename(RequestedBrands(options)[i]))
  {
    var results := Results(BrandFileFor(tokens, options), RequestedBrands(options));
    assert forall i :: 0 <= i < |results| ==> results[i] == BrandFile(tokens, options, RequestedBrands(options)[i]);
  }

  /** `exportTheme(tokens, options)`: the complete file or the per-brand files. */
  function ExportTheme(tokens: Json, options: ExportOptions): (r: Result<seq<ExportFile>>)
    ensures options.format == Complete && r.Ok? ==> |r.value| == 1 && r.value[0].filename == CompleteFilename
    ensures options.format == PerBrand && r.Ok? ==>
      |r.value| == |RequestedBrands(options)|
      && forall i :: 0 <= i < |r.value| ==> r.value[i].filename == BrandFilename(RequestedBrands(options)[i])
  {
    if options.format == Complete then ExportCompleteW3C(tokens, options)
    else
      PerBrandShape(tokens, options);
      PerBrandFiles(tokens, options)
  }

  /**
   * `executeExport(tokens, options)`: failure without files when no
   * document is loaded, when the export throws or when it produces no file;
   * otherwise success with the files `exportTheme` produced.
   */
  function ExecuteExport(tokens: Option<Json>, options: ExportOptions): (r: ExportResult)
    ensures tokens.None? ==> r == ExportResult(false, NoTokensLoaded, [])
    ensures r.success <==> tokens.Some? && ExportTheme(tokens.value, options).Ok? && |ExportTheme(tokens.value, options).value| > 0
    ensures r.success ==> r.files == ExportTheme(tokens.value, options).value && r.message == Exported(|r.files|)
    ensures !r.success ==> r.files == []
  {
    match tokens
    case None => ExportResult(false, NoTokensLoaded, [])
    case Some(document) =>
      match ExportTheme(document, options)
      case Err(e) => ExportResult(false, ExportFailed(e), [])
      case Ok(files) =>
        if |files| == 0 then ExportResult(false, NoFilesGenerated, [])
        else ExportResult(true, Exported(|files|), files)
  }

  /** A per-brand export with no brands requested reports that no file was generated. */
  lemma NoBrandsNoFiles(tokens: Json, options: ExportOptions)
    requires options.format == PerBrand && |RequestedBrands(options)| == 0
    ensures ExecuteExport(Some(tokens), options) == ExportResult(false, NoFilesGenerated, [])
  {
  }

  /**
   * `validateExportOptions(options)`: every rule the options break, each
   * once and in the order checked, and `valid` exactly when there is none.
   */
  method ValidateExportOptions(options: ExportOptions) returns (valid: bool, errors: seq<string>)
    ensures NoBrandsError in errors <==> options.format == PerBrand && |RequestedBrands(options)| == 0
    ensures NoPropertiesError in errors <==> options.includeTextStyles && |options.textStyleProperties| == 0
    ensures errors ==
      (if options.format == PerBrand && |RequestedBrands(options)| == 0 then [NoBrandsError] else [])
      + (if options.includeTextStyles && |options.textStyleProperties| == 0 then [NoPropertiesError] else [])
    ensures valid <==> |errors| == 0
  {
    errors := [];
    if options.format == PerBrand {
      if options.brands.None? || |options.brands.value| == 0 {
        errors := errors + [NoBrandsError];
      }
    }
    if options.includeTextStyles && |options.textStyleProperties| == 0 {
      errors := errors + [NoPropertiesError];
    }
    valid := |errors| == 0;
  }
}
