/**
 * The single-brand export file and its import (`src/utils/exportFormat.ts`):
 * the semantic tree narrowed to one brand, its file name, and the merge that
 * detects the brand of an imported file and writes that brand's values back.
 */
module ExportFormat {
  import opened Wrappers
  import opened JsonTree
  import opened TokenFlattener

  /**
   * The token found at `keys` below `j` by a traversal that treats an object
   * with both `$value` and `$type` as a token and descends into every other
   * object. The root itself may be the token.
   */
  function TypedTokenAt(j: Json, keys: seq<string>): (r: Option<Json>)
    ensures r.Some? ==> IsToken(r.value)
    decreases |keys|
  {
    if IsToken(j) then (if |keys| == 0 then Some(j) else None)
    else if |keys| == 0 || !j.Obj? then None
    else
      match Get(j.fields, keys[0])
      case Some(child) => TypedTokenAt(child, keys[1..])
      case None => None
  }

  /** The token's `$value` is an object with an entry for `brand`. */
  predicate HasBrandEntry(t: Json, brand: string)
  {
    Member(t, "$value").Some? && Member(t, "$value").value.Obj? && brand in Keys(Member(t, "$value").value.fields)
  }

  /**
   * `traverse` of `createSemanticBrandExport` on one token: the `$value` map
   * is cut down to the brand's entry when it has one, and every field other
   * than `$value` and `$type` is dropped.
   */
  function NarrowToken(t: Json, brand: string): (r: Json)
    requires IsToken(t)
    ensures r.Obj? && Keys(r.fields) == ["$value", "$type"]
    ensures Member(r, "$type") == Member(t, "$type")
    ensures HasBrandEntry(t, brand) ==>
      Member(r, "$value").value.Obj?
      && Keys(Member(r, "$value").value.fields) == [brand]
      && Get(Member(r, "$value").value.fields, brand) == Get(Member(t, "$value").value.fields, brand)
    ensures !HasBrandEntry(t, brand) ==> Member(r, "$value") == Member(t, "$value")
  {
    var value := Get(t.fields, "$value").value;
    var tokenType := Get(t.fields, "$type").value;
    if value.Obj? && brand in Keys(value.fields) then
      Obj([("$value", Obj([(brand, Get(value.fields, brand).value)])), ("$type", tokenType)])
    else
      Obj([("$value", value), ("$type", tokenType)])
  }

  /**
   * `traverse(obj)` of `createSemanticBrandExport`: primitives come back as
   * they are, tokens are narrowed, and other objects keep their keys with
   * every member narrowed in turn.
   */
  function Narrow(v: Json, brand: string): (r: Json)
    ensures !v.Obj? ==> r == v
    ensures v.Obj? && !IsToken(v) ==> r.Obj? && Keys(r.fields) == Keys(v.fields)
    ensures IsToken(r) <==> IsToken(v)
    ensures HasKey(r, "$value") <==> HasKey(v, "$value")
    decreases v, 1
  {
    if !v.Obj? then v
    else if IsToken(v) then NarrowToken(v, brand)
    else NarrowMembers(v, brand)
  }

  /** The `processed` object: each entry of `obj` with its value narrowed. */
  function NarrowMembers(j: Json, brand: string): (r: Json)
    requires j.Obj?
    ensures r.Obj? && Keys(r.fields) == Keys(j.fields)
    decreases j, 0
  {
    var fields := seq(|j.fields|, i requires 0 <= i < |j.fields| => (j.fields[i].0, Narrow(j.fields[i].1, brand)));
    KeysPointwise(fields, j.fields);
    Obj(fields)
  }

  /** `createSemanticBrandExport(tokens, brandName)`: `{ semantic }`, the narrowed semantic tree. */
  function CreateSemanticBrandExport(tokens: Json, brand: string): (r: Json)
    ensures r.Obj? && Keys(r.fields) == if Member(tokens, "semantic").Some? then ["semantic"] else []
  {
    match Member(tokens, "semantic")
    case Some(semantic) => Obj([("semantic", Narrow(semantic, brand))])
    case None => Obj([])
  }

  /**
   * The export keeps the shape of the tree: exactly the key paths that lead
   * to a token in the document lead to one in the export, and each exported
   * token is the document's token narrowed to the brand.
   */
  lemma {:induction false} NarrowAt(j: Json, brand: string, keys: seq<string>)
    ensures TypedTokenAt(Narrow(j, brand), keys) ==
      (if TypedTokenAt(j, keys).Some? then Some(NarrowToken(TypedTokenAt(j, keys).value, brand)) else None)
    decreases |keys|
  {
    if !IsToken(j) && |keys| > 0 && j.Obj? {
      var n := NarrowMembers(j, brand);
      GetPointwise(n.fields, j.fields, x => Narrow(x, brand), keys[0]);
      match Get(j.fields, keys[0])
      case Some(child) =>
        NarrowAt(child, brand, keys[1..]);
      case None =>
    }
  }

  /** The export of a document holds the narrowed token at every token path of its semantic tree. */
  lemma ExportedTokens(tokens: Json, brand: string, keys: seq<string>)
    requires Member(tokens, "semantic").Some?
    ensures Member(CreateSemanticBrandExport(tokens, brand), "semantic").Some?
    ensures TypedTokenAt(Member(CreateSemanticBrandExport(tokens, brand), "semantic").value, keys) ==
      (if TypedTokenAt(Member(tokens, "semantic").value, keys).Some?
       then Some(NarrowToken(TypedTokenAt(Member(tokens, "semantic").value, keys).value, brand))
       else None)
  {
    NarrowAt(Member(tokens, "semantic").value, brand, keys);
  }

  /** `generateExportFilename(brandName)`: the brand between `semantic-` and `.json`. */
  function ExportFilename(brand: string): (r: string)
    ensures |r| == |brand| + 14
    ensures r[..9] == "semantic-" && r[9..|r| - 5] == brand && r[|r| - 5..] == ".json"
  {
    "semantic-" + brand + ".json"
  }

  /** Different brands get different file names. */
  lemma FilenameInjective(a: string, b: string)
    requires ExportFilename(a) == ExportFilename(b)
    ensures a == b
  {
    var r := ExportFilename(a);
    assert a == r[9..|r| - 5];
  }

  /**
   * `findBrandName(obj)`: an object with `$value` answers for itself, with the
   * single key of its object `$value` or nothing; any other object asks its
   * member values in order.
   */
  function FindBrand(v: Json): Option<string>
    decreases v, 1
  {
    if !v.Obj? then None
    else if HasKey(v, "$value") then
      match Get(v.fields, "$value")
      case Some(Obj(values)) => if |values| == 1 then Some(values[0].0) else None
      case _ => None
    else FindFrom(v, 0)
  }

  /** The loop over `Object.values(obj)` from position `n`: the first truthy answer. */
  function FindFrom(v: Json, n: nat): Option<string>
    requires v.Obj? && n <= |v.fields|
    decreases v, 0, |v.fields| - n
  {
    if n == |v.fields| then None
    else
      var found := FindBrand(v.fields[n].1);
      if found.Some? && found.value != "" then found else FindFrom(v, n + 1)
  }

  /**
   * The member `findBrandName` treats as a token at `keys` below `j`: an
   * object with `$value`, reached through objects without one.
   */
  function ValueTokenAt(j: Json, keys: seq<string>): Option<Json>
    decreases |keys|
  {
    if HasKey(j, "$value") then (if |keys| == 0 then Some(j) else None)
    else if |keys| == 0 || !j.Obj? then None
    else
      match Get(j.fields, keys[0])
      case Some(child) => ValueTokenAt(child, keys[1..])
      case None => None
  }

  /** A token whose `$value` is an object with the single key `brand`. */
  ghost predicate SingleBrandTokenAt(j: Json, keys: seq<string>, brand: string)
  {
    ValueTokenAt(j, keys).Some?
    && Member(ValueTokenAt(j, keys).value, "$value").Some?
    && Member(ValueTokenAt(j, keys).value, "$value").value.Obj?
    && Keys(Member(ValueTokenAt(j, keys).value, "$value").value.fields) == [brand]
  }

  /** A detected brand is the single key of some token's `$value` in the tree. */
  lemma {:induction false} FindBrandSound(v: Json, brand: string)
    requires Wf(v) && FindBrand(v) == Some(brand)
    ensures exists keys :: SingleBrandTokenAt(v, keys, brand)
    decreases v, 1
  {
    if HasKey(v, "$value") {
      var values := Get(v.fields, "$value").value.fields;
      assert Keys(values) == [brand];
      assert SingleBrandTokenAt(v, [], brand);
    } else {
      FindFromSound(v, 0, brand);
    }
  }

  lemma {:induction false} FindFromSound(v: Json, n: nat, brand: string)
    requires Wf(v) && v.Obj? && !HasKey(v, "$value") && n <= |v.fields| && FindFrom(v, n) == Some(brand)
    ensures exists keys :: SingleBrandTokenAt(v, keys, brand)
    decreases v, 0, |v.fields| - n
  {
    var found := FindBrand(v.fields[n].1);
    if found.Some? && found.value != "" {
      var child := v.fields[n].1;
      FindBrandSound(child, brand);
      var keys :| SingleBrandTokenAt(child, keys, brand);
      GetDistinct(v.fields, n);
      assert ValueTokenAt(v, [v.fields[n].0] + keys) == ValueTokenAt(child, keys) by {
        assert ([v.fields[n].0] + keys)[1..] == keys;
      }
      assert SingleBrandTokenAt(v, [v.fields[n].0] + keys, brand);
    } else {
      FindFromSound(v, n + 1, brand);
    }
  }

  /** Detection is complete: a token whose `$value` has a single non-empty key yields a non-empty brand. */
  lemma {:induction false} FindBrandComplete(v: Json, keys: seq<string>, brand: string)
    requires Wf(v) && brand != "" && SingleBrandTokenAt(v, keys, brand)
    ensures FindBrand(v).Some? && FindBrand(v).value != ""
    decreases v, 1
  {
    if !HasKey(v, "$value") {
      var child := Get(v.fields, keys[0]).value;
      var i :| 0 <= i < |v.fields| && v.fields[i].0 == keys[0];
      GetDistinct(v.fields, i);
      assert ValueTokenAt(v, keys) == ValueTokenAt(child, keys[1..]);
      FindBrandComplete(child, keys[1..], brand);
      FindFromComplete(v, 0, i);
    } else {
      assert |keys| == 0;
      var values := Get(v.fields, "$value").value.fields;
      assert Keys(values) == [brand];
      assert |Keys(values)| == |values| == 1;
      assert Keys(values)[0] == values[0].0 == brand;
    }
  }

  lemma {:induction false} FindFromComplete(v: Json, n: nat, i: nat)
    requires v.Obj? && n <= i < |v.fields|
    requires FindBrand(v.fields[i].1).Some? && FindBrand(v.fields[i].1).value != ""
    ensures FindFrom(v, n).Some? && FindFrom(v, n).value != ""
    decreases |v.fields| - n
  {
    if n < i && !(FindBrand(v.fields[n].1).Some? && FindBrand(v.fields[n].1).value != "") {
      FindFromComplete(v, n + 1, i);
    }
  }

  /**
   * The single keys of the `$value` maps of the tree's tokens, in depth-first
   * key order: a reference list for detection, collected without stopping.
   */
  function SingleKeys(v: Json): seq<string>
    decreases v, 1
  {
    if !v.Obj? then []
    else if HasKey(v, "$value") then
      (var value := Get(v.fields, "$value").value;
       if value.Obj? && |value.fields| == 1 then [value.fields[0].0] else [])
    else SingleKeysFrom(v, 0)
  }

  function SingleKeysFrom(v: Json, n: nat): seq<string>
    requires v.Obj? && n <= |v.fields|
    decreases v, 0, |v.fields| - n
  {
    if n == |v.fields| then [] else SingleKeys(v.fields[n].1) + SingleKeysFrom(v, n + 1)
  }

  /** The first non-empty name of a list. */
  function FirstNonEmptyName(names: seq<string>): (r: Option<string>)
    ensures r.None? <==> forall i :: 0 <= i < |names| ==> names[i] == ""
    ensures r.Some? ==> r.value != "" && exists i :: 0 <= i < |names| && names[i] == r.value
  {
    if |names| == 0 then None
    else if names[0] != "" then Some(names[0])
    else FirstNonEmptyName(names[1..])
  }

  lemma {:induction false} FirstNonEmptyAppend(a: seq<string>, b: seq<string>)
    ensures FirstNonEmptyName(a + b) == if FirstNonEmptyName(a).Some? then FirstNonEmptyName(a) else FirstNonEmptyName(b)
    decreases |a|
  {
    if |a| > 0 {
      assert (a + b)[1..] == a[1..] + b;
      FirstNonEmptyAppend(a[1..], b);
    } else {
      assert a + b == b;
    }
  }

  /**
   * Detection answers with the first non-empty single key in depth-first key
   * order, and finds a non-empty brand exactly when there is one.
   */
  lemma {:induction false} FindBrandFirst(v: Json)
    ensures (FindBrand(v).Some? && FindBrand(v).value != "") <==> FirstNonEmptyName(SingleKeys(v)).Some?
    ensures FirstNonEmptyName(SingleKeys(v)).Some? ==> FindBrand(v) == FirstNonEmptyName(SingleKeys(v))
    decreases v, 1
  {
    if v.Obj? && !HasKey(v, "$value") {
      FindFromFirst(v, 0);
    }
  }

  lemma {:induction false} FindFromFirst(v: Json, n: nat)
    requires v.Obj? && n <= |v.fields|
    ensures FindFrom(v, n) == FirstNonEmptyName(SingleKeysFrom(v, n))
    decreases v, 0, |v.fields| - n
  {
    if n < |v.fields| {
      FindBrandFirst(v.fields[n].1);
      FindFromFirst(v, n + 1);
      FirstNonEmptyAppend(SingleKeys(v.fields[n].1), SingleKeysFrom(v, n + 1));
    }
  }

  /**
   * `mergeValues(existing, imported, brand)`: where both sides have `$value`
   * the brand's entry of the imported map is written into the existing map;
   * otherwise every member of `existing` whose key the import also has is
   * merged with the import's member. Members are updated in place in the
   * source; here the merged value is returned.
   */
  function Merge(existing: Json, imported: Json, brand: string): Json
    decreases existing, 1
  {
    if !existing.Obj? || !imported.Obj? then existing
    else if HasKey(existing, "$value") && HasKey(imported, "$value") then MergeToken(existing, imported, brand)
    else MergeMembers(existing, imported, brand)
  }

  /** `existingValues[brand] = importedValues[brand]` when both `$value`s are objects and the import has the brand. */
  function MergeToken(existing: Json, imported: Json, brand: string): (r: Json)
    requires HasKey(existing, "$value") && HasKey(imported, "$value")
    ensures r.Obj? && Keys(r.fields) == Keys(existing.fields)
    ensures forall k :: k != "$value" ==> Get(r.fields, k) == Get(existing.fields, k)
    ensures Member(existing, "$value").value.Obj? && Member(imported, "$value").value.Obj? ==>
      Member(r, "$value").value.Obj?
      && (forall k :: k != brand ==>
            Get(Member(r, "$value").value.fields, k) == Get(Member(existing, "$value").value.fields, k))
      && Get(Member(r, "$value").value.fields, brand) ==
           (if brand in Keys(Member(imported, "$value").value.fields)
            then Get(Member(imported, "$value").value.fields, brand)
            else Get(Member(existing, "$value").value.fields, brand))
    ensures !(Member(existing, "$value").value.Obj? && Member(imported, "$value").value.Obj?) ==> r == existing
  {
    var existingValue := Get(existing.fields, "$value").value;
    var importedValue := Get(imported.fields, "$value").value;
    if existingValue.Obj? && importedValue.Obj? && brand in Keys(importedValue.fields) then
      var values := Set(existingValue.fields, brand, Get(importedValue.fields, brand).value);
      SetKeys(existing.fields, "$value", Obj(values));
      Obj(Set(existing.fields, "$value", Obj(values)))
    else existing
  }

  /**
   * The loop over `Object.keys(imported)`. Keys of an object are distinct, so
   * merging the existing member of each imported key is the same as merging
   * each existing member whose key the import has.
   */
  function MergeMembers(existing: Json, imported: Json, brand: string): (r: Json)
    requires existing.Obj? && imported.Obj?
    ensures r.Obj? && Keys(r.fields) == Keys(existing.fields)
    decreases existing, 0
  {
    var fields := seq(|existing.fields|, i requires 0 <= i < |existing.fields| =>
      var k := existing.fields[i].0;
      if k in Keys(imported.fields) then (k, Merge(existing.fields[i].1, Get(imported.fields, k).value, brand)) else existing.fields[i]);
    KeysPointwise(fields, existing.fields);
    Obj(fields)
  }

  /** What `mergeSemanticBrandImport` returns: the merged tokens and the detected brand, if any. */
  datatype Merged = Merged(tokens: Json, brand: Option<string>)

  /**
   * `mergeSemanticBrandImport(existingTokens, importedData)`: the merged
   * document and the detected brand, or the document untouched and no brand
   * when none is detected (an empty name counts as none).
   */
  function MergeSemanticBrandImport(existing: Json, imported: Json): (r: Merged)
    ensures r.brand.None? ==> r.tokens == existing
    ensures r.brand.Some? ==>
      r.brand.value != "" && Member(imported, "semantic").Some? && FindBrand(Member(imported, "semantic").value) == r.brand
    ensures r.brand.None? <==>
      (Member(imported, "semantic").None?
       || FindBrand(Member(imported, "semantic").value).None?
       || FindBrand(Member(imported, "semantic").value).value == "")
    ensures forall k :: k != "semantic" ==> Member(r.tokens, k) == Member(existing, k)
    ensures existing.Obj? ==> r.tokens.Obj? && Keys(r.tokens.fields) == Keys(existing.fields)
  {
    var detected := match Member(imported, "semantic") case Some(s) => FindBrand(s) case None => None;
    if detected.None? || detected.value == "" then Merged(existing, None)
    else
      match Member(existing, "semantic")
      case Some(semantic) =>
        var merged := Merge(semantic, Member(imported, "semantic").value, detected.value);
        SetKeys(existing.fields, "semantic", merged);
        Merged(Obj(Set(existing.fields, "semantic", merged)), detected)
      case None => Merged(existing, detected)
  }

  /**
   * Where the existing tree has an object with `$value`, the import has one
   * too, so the merge never descends into an existing token.
   */
  predicate Aligned(existing: Json, imported: Json)
    decreases existing
  {
    (existing.Obj? && imported.Obj? && HasKey(existing, "$value") ==> HasKey(imported, "$value"))
    && (existing.Obj? && imported.Obj? && !HasKey(existing, "$value") ==>
      forall i :: 0 <= i < |existing.fields| && existing.fields[i].0 in Keys(imported.fields) ==>
        Aligned(existing.fields[i].1, Get(imported.fields, existing.fields[i].0).value))
  }

  /**
   * The merge changes nothing but the brand's entries: removing the brand
   * from every multi-brand map gives the same tree before and after.
   */
  lemma {:induction false} MergeOnlyBrand(existing: Json, imported: Json, brand: string)
    requires Aligned(existing, imported)
    ensures MapBrands(Merge(existing, imported, brand), RemoveFn(brand)) == MapBrands(existing, RemoveFn(brand))
    decreases existing
  {
    if !existing.Obj? || !imported.Obj? {
    } else if HasKey(existing, "$value") {
      MergeTokenOnlyBrand(existing, imported, brand);
    } else {
      var merged := MergeMembers(existing, imported, brand);
      var f := RemoveFn(brand);
      assert !HasKey(merged, "$value");
      forall i | 0 <= i < |existing.fields|
        ensures MapBrands(merged.fields[i].1, f) == MapBrands(existing.fields[i].1, f)
      {
        var k := existing.fields[i].0;
        if k in Keys(imported.fields) {
          MergeOnlyBrand(existing.fields[i].1, Get(imported.fields, k).value, brand);
        }
      }
      assert MapMembers(merged, f).fields == MapMembers(existing, f).fields;
    }
  }

  lemma MergeTokenOnlyBrand(existing: Json, imported: Json, brand: string)
    requires HasKey(existing, "$value") && HasKey(imported, "$value")
    ensures MapBrands(MergeToken(existing, imported, brand), RemoveFn(brand)) == MapBrands(existing, RemoveFn(brand))
  {
    var existingValue := Get(existing.fields, "$value").value;
    var importedValue := Get(imported.fields, "$value").value;
    if existingValue.Obj? && importedValue.Obj? && brand in Keys(importedValue.fields) {
      var values := Set(existingValue.fields, brand, Get(importedValue.fields, brand).value);
      var merged := Obj(Set(existing.fields, "$value", Obj(values)));
      assert MergeToken(existing, imported, brand) == merged;
      var erased := Obj(Remove(values, brand));
      MapBrandsOfToken(merged, values, brand);
      SetTwice(existing.fields, "$value", Obj(values), erased);
      RemoveAfterSet(existingValue.fields, brand, Get(importedValue.fields, brand).value);
      MapBrandsOfToken(existing, existingValue.fields, brand);
    }
  }

  /** Removing a brand from a token rewrites just its `$value` map. */
  lemma MapBrandsOfToken(v: Json, values: seq<Field>, brand: string)
    requires HasKey(v, "$value") && Get(v.fields, "$value") == Some(Obj(values))
    ensures MapBrands(v, RemoveFn(brand)) == Obj(Set(v.fields, "$value", Obj(Remove(values, brand))))
  {
  }

  /**
   * Every object with `$value` also has `$type`, so the export and the merge
   * see the same tokens.
   */
  predicate Typed(v: Json)
  {
    v.Obj? ==>
      (HasKey(v, "$value") ==> HasKey(v, "$type"))
      && (!IsToken(v) ==> forall i :: 0 <= i < |v.fields| ==> Typed(v.fields[i].1))
  }

  /**
   * Every multi-brand token, one whose `$value` is an object, has an entry for
   * `brand`; tokens with a plain `$value` are unconstrained.
   */
  predicate AllTokensHave(v: Json, brand: string)
  {
    if IsToken(v) then
      match Get(v.fields, "$value")
      case Some(Obj(values)) => brand in Keys(values)
      case _ => true
    else v.Obj? ==> forall i :: 0 <= i < |v.fields| ==> AllTokensHave(v.fields[i].1, brand)
  }

  /** The tree holds at least one multi-brand token: a token whose `$value` is an object. */
  predicate HasMapToken(v: Json)
  {
    if IsToken(v) then Get(v.fields, "$value").value.Obj?
    else v.Obj? && exists i :: 0 <= i < |v.fields| && HasMapToken(v.fields[i].1)
  }

  /** Merging a tree's own export back into it changes nothing. */
  lemma {:induction false} MergeNarrowed(v: Json, brand: string)
    requires Wf(v) && Typed(v)
    ensures Merge(v, Narrow(v, brand), brand) == v
    decreases v
  {
    if !v.Obj? {
    } else if IsToken(v) {
      var value := Get(v.fields, "$value").value;
      if value.Obj? && brand in Keys(value.fields) {
        SetExisting(value.fields, brand, Get(value.fields, brand).value);
        SetExisting(v.fields, "$value", value);
      }
    } else {
      var narrowed := NarrowMembers(v, brand);
      KeysListed(v.fields);
      forall i | 0 <= i < |v.fields|
        ensures Merge(v.fields[i].1, Get(narrowed.fields, v.fields[i].0).value, brand) == v.fields[i].1
      {
        GetPointwise(narrowed.fields, v.fields, x => Narrow(x, brand), v.fields[i].0);
        GetDistinct(v.fields, i);
        MergeNarrowed(v.fields[i].1, brand);
      }
      assert MergeMembers(v, narrowed, brand).fields == v.fields;
    }
  }

  /**
   * Detection on an export where every multi-brand token carries the brand
   * finds that brand exactly when the tree has a multi-brand token.
   */
  lemma {:induction false} DetectNarrowed(v: Json, brand: string)
    requires Typed(v) && AllTokensHave(v, brand) && brand != ""
    ensures FindBrand(Narrow(v, brand)) == if HasMapToken(v) then Some(brand) else None
    decreases v, 1
  {
    if v.Obj? && !IsToken(v) {
      DetectNarrowedFrom(v, brand, 0);
    }
  }

  lemma {:induction false} DetectNarrowedFrom(v: Json, brand: string, n: nat)
    requires v.Obj? && !IsToken(v) && n <= |v.fields|
    requires Typed(v) && AllTokensHave(v, brand) && brand != ""
    ensures FindFrom(Narrow(v, brand), n) ==
      if exists i :: n <= i < |v.fields| && HasMapToken(v.fields[i].1) then Some(brand) else None
    decreases v, 0, |v.fields| - n
  {
    if n < |v.fields| {
      var child := v.fields[n].1;
      var narrowed := NarrowMembers(v, brand);
      assert Narrow(v, brand) == narrowed;
      assert narrowed.fields[n].1 == Narrow(child, brand);
      assert Typed(child) && AllTokensHave(child, brand);
      DetectNarrowed(child, brand);
      DetectNarrowedFrom(v, brand, n + 1);
      if !HasMapToken(child) {
        assert (exists i :: n <= i < |v.fields| && HasMapToken(v.fields[i].1))
          <==> (exists i :: n + 1 <= i < |v.fields| && HasMapToken(v.fields[i].1));
      }
    }
  }

  /**
   * The tree an export round trip holds for: every token typed, every
   * multi-brand token carrying the brand, and at least one multi-brand token.
   */
  predicate RoundTrips(semantic: Json, brand: string)
  {
    Wf(semantic) && Typed(semantic) && AllTokensHave(semantic, brand) && HasMapToken(semantic) && brand != ""
  }

  /** A semantic tree with a plain token `p` and a token `m` mapping brand `a`. */
  function MixedTree(): Json
  {
    Obj([
      ("p", Obj([("$value", Str("x")), ("$type", Str("color"))])),
      ("m", Obj([("$value", Obj([("a", Str("1"))])), ("$type", Str("color"))]))])
  }

  /** The mixed tree round-trips for brand `a`: the plain token does not stand in the way. */
  lemma MixedTreeRoundTrips()
    ensures RoundTrips(MixedTree(), "a")
  {
    MixedTreeWf();
    MixedTreeTyped();
    MixedTreeHas();
    assert HasMapToken(MixedTree().fields[1].1);
  }

  lemma MixedTreeWf()
    ensures Wf(MixedTree())
  {
    var v := MixedTree();
    assert Wf(v.fields[0].1) && Wf(v.fields[1].1);
  }

  lemma MixedTreeTyped()
    ensures Typed(MixedTree())
  {
    var v := MixedTree();
    assert Typed(v.fields[0].1) && Typed(v.fields[1].1);
  }

  lemma MixedTreeHas()
    ensures AllTokensHave(MixedTree(), "a")
  {
    var v := MixedTree();
    assert Keys(Get(v.fields[1].1.fields, "$value").value.fields) == ["a"];
    assert AllTokensHave(v.fields[0].1, "a") && AllTokensHave(v.fields[1].1, "a");
  }

  /**
   * Importing a document's own single-brand export detects that brand and
   * gives back the document unchanged.
   */
  lemma MergeOwnExport(tokens: Json, brand: string)
    requires Member(tokens, "semantic").Some? && RoundTrips(Member(tokens, "semantic").value, brand)
    ensures MergeSemanticBrandImport(tokens, CreateSemanticBrandExport(tokens, brand)) == Merged(tokens, Some(brand))
  {
    var semantic := Member(tokens, "semantic").value;
    var exported := CreateSemanticBrandExport(tokens, brand);
    assert Member(exported, "semantic") == Some(Narrow(semantic, brand));
    DetectNarrowed(semantic, brand);
    MergeNarrowed(semantic, brand);
    SetExisting(tokens.fields, "semantic", semantic);
  }
}
