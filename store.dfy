/**
 * The editor's state (`src/store/themeStore.ts`): the token document, the
 * selected brand and the table of its rows, the unsaved-changes flag, the
 * JSON editor's error and the sidebar view, changed by the editing actions.
 * Each action runs to completion as one state transition; what it awaits
 * from the database is not part of this model.
 */
module Store {
  import opened Wrappers
  import opened Text
  import opened JsonTree
  import opened TokenFlattener
  import opened ExportFormat

  /** The message a `TypeError` carries here: property access on `undefined`, `null` or a primitive. */
  const TypeError: string := "TypeError"

  // Writes into `global`

  /**
   * `if (!o[k]) o[k] = {}` ahead of a write into `o[k]`: the members of the
   * container at `k`, a fresh empty one when it is missing or falsy; writing
   * into a truthy primitive throws.
   */
  function Container(fields: seq<Field>, k: string): (r: Result<seq<Field>>)
    ensures r.Err? <==> Get(fields, k).Some? && Truthy(Get(fields, k).value) && !Get(fields, k).value.Obj?
    ensures r.Ok? ==> r.value == (if Get(fields, k).Some? && Get(fields, k).value.Obj? then Get(fields, k).value.fields else [])
  {
    match Get(fields, k)
    case None => Ok([])
    case Some(c) => if !Truthy(c) then Ok([]) else if c.Obj? then Ok(c.fields) else Err(TypeError)
  }

  /**
   * Assigns `v` at `keys` below an object, making each container on the way
   * with `Container`.
   */
  function PutIn(fields: seq<Field>, keys: seq<string>, v: Json): (r: Result<seq<Field>>)
    requires |keys| >= 1
    decreases |keys|
  {
    if |keys| == 1 then Ok(Set(fields, keys[0], v))
    else
      match Container(fields, keys[0])
      case Err(e) => Err(e)
      case Ok(inner) =>
        match PutIn(inner, keys[1..], v)
        case Err(e) => Err(e)
        case Ok(written) => Ok(Set(fields, keys[0], Obj(written)))
  }

  /** After the assignment the value is found at `keys`. */
  lemma {:induction false} PutInReads(fields: seq<Field>, keys: seq<string>, v: Json)
    requires |keys| >= 1 && PutIn(fields, keys, v).Ok?
    ensures Walk(Some(Obj(PutIn(fields, keys, v).value)), keys) == Some(v)
    decreases |keys|
  {
    if |keys| == 1 {
      assert keys[1..] == [];
    } else {
      PutInReads(Container(fields, keys[0]).value, keys[1..], v);
    }
  }

  /** A walk that leaves `keys` at position `i` sees what it saw before the assignment. */
  lemma {:induction false} PutInFrame(fields: seq<Field>, keys: seq<string>, v: Json, q: seq<string>, i: nat)
    requires |keys| >= 1 && PutIn(fields, keys, v).Ok?
    requires i < |q| && i < |keys| && q[i] != keys[i]
    ensures Walk(Some(Obj(PutIn(fields, keys, v).value)), q) == Walk(Some(Obj(fields)), q)
    decreases |keys|
  {
    var r := PutIn(fields, keys, v).value;
    assert Walk(Some(Obj(r)), q) == Walk(Get(r, q[0]), q[1..]);
    assert Walk(Some(Obj(fields)), q) == Walk(Get(fields, q[0]), q[1..]);
    if q[0] == keys[0] {
      var inner := Container(fields, keys[0]).value;
      var written := PutIn(inner, keys[1..], v).value;
      assert Get(r, q[0]) == Some(Obj(written));
      PutInFrame(inner, keys[1..], v, q[1..], i - 1);
      ContainerWalk(fields, keys[0], q[1..]);
    }
  }

  /** Below a key, a walk through the container `Container` makes finds what it found before. */
  lemma ContainerWalk(fields: seq<Field>, k: string, q: seq<string>)
    requires Container(fields, k).Ok? && |q| >= 1
    ensures Walk(Some(Obj(Container(fields, k).value)), q) == Walk(Get(fields, k), q)
  {
    match Get(fields, k)
    case Some(c) =>
      if !c.Obj? {
        assert Walk(Some(c), q) == None;
        assert Walk(Some(Obj([])), q) == Walk(None, q[1..]) == None;
      }
    case None =>
      assert Walk(Some(Obj([])), q) == Walk(None, q[1..]) == None;
  }

  /**
   * `newTokens.global…[k] = v` on a copy: the document with `v` assigned at
   * `keys` below `global`, which must be an object.
   */
  function WriteGlobal(doc: Json, keys: seq<string>, v: Json): (r: Result<Json>)
    requires |keys| >= 1
    ensures r.Err? <==> (!(Member(doc, "global").Some? && Member(doc, "global").value.Obj?)
      || PutIn(Member(doc, "global").value.fields, keys, v).Err?)
    ensures r.Ok? ==> r.value.Obj? && Keys(r.value.fields) == Keys(doc.fields)
    ensures r.Ok? ==> Member(r.value, "semantic") == Member(doc, "semantic")
  {
    var global := Member(doc, "global");
    if global.Some? && global.value.Obj? then
      match PutIn(global.value.fields, keys, v)
      case Ok(written) =>
        SetKeys(doc.fields, "global", Obj(written));
        Ok(Obj(Set(doc.fields, "global", Obj(written))))
      case Err(e) => Err(e)
    else Err(TypeError)
  }

  /** A write below `global` lands at `global` + `keys`. */
  lemma WriteGlobalReads(doc: Json, keys: seq<string>, v: Json)
    requires |keys| >= 1 && WriteGlobal(doc, keys, v).Ok?
    ensures Walk(Some(WriteGlobal(doc, keys, v).value), ["global"] + keys) == Some(v)
  {
    var global := Member(doc, "global").value.fields;
    PutInReads(global, keys, v);
    assert (["global"] + keys)[1..] == keys;
  }

  /** A write below `global` changes nothing a walk leaving that path can see. */
  lemma WriteGlobalFrame(doc: Json, keys: seq<string>, v: Json, q: seq<string>, i: nat)
    requires |keys| >= 1 && WriteGlobal(doc, keys, v).Ok?
    requires i < |q| && i <= |keys| && q[i] != (["global"] + keys)[i]
    ensures Walk(Some(WriteGlobal(doc, keys, v).value), q) == Walk(Some(doc), q)
  {
    var r := WriteGlobal(doc, keys, v).value;
    assert Walk(Some(r), q) == Walk(Get(r.fields, q[0]), q[1..]);
    assert Walk(Some(doc), q) == Walk(Get(doc.fields, q[0]), q[1..]);
    if q[0] == "global" {
      var global := Member(doc, "global").value.fields;
      PutInFrame(global, keys, v, q[1..], i - 1);
    }
  }

  /**
   * `delete o[name]` on a copy, where `o` is the object at `container`: the
   * named entry goes, the rest of the document stays.
   */
  function RemoveEntry(doc: Json, container: seq<string>, name: string): Json
    requires |container| >= 1 && Walk(Some(doc), container).Some? && Walk(Some(doc), container).value.Obj?
  {
    SetIn(doc, container, Obj(Remove(Walk(Some(doc), container).value.fields, name)))
  }

  /** The object at `container` is the old one without the entry. */
  lemma RemoveEntryAt(doc: Json, container: seq<string>, name: string)
    requires |container| >= 1 && Walk(Some(doc), container).Some? && Walk(Some(doc), container).value.Obj?
    ensures Walk(Some(RemoveEntry(doc, container, name)), container)
      == Some(Obj(Remove(Walk(Some(doc), container).value.fields, name)))
  {
    var parent := container[..|container| - 1];
    assert parent + [container[|container| - 1]] == container;
    WalkAppend(Some(doc), parent, [container[|container| - 1]]);
    SetInReads(doc, container, Obj(Remove(Walk(Some(doc), container).value.fields, name)));
  }

  /** One step further than `keys` reads the member of the object found there. */
  lemma WalkOneMore(cur: Option<Json>, keys: seq<string>, k: string, o: seq<Field>)
    requires Walk(cur, keys) == Some(Obj(o))
    ensures Walk(cur, keys + [k]) == Get(o, k)
  {
    WalkAppend(cur, keys, [k]);
    assert [k][1..] == [];
  }

  /** After the deletion the entry is gone and its siblings are as they were. */
  lemma RemoveEntryReads(doc: Json, container: seq<string>, name: string, other: string)
    requires |container| >= 1 && Walk(Some(doc), container).Some? && Walk(Some(doc), container).value.Obj?
    requires other != name
    ensures Walk(Some(RemoveEntry(doc, container, name)), container + [name]) == None
    ensures Walk(Some(RemoveEntry(doc, container, name)), container + [other]) == Walk(Some(doc), container + [other])
  {
    var fields := Walk(Some(doc), container).value.fields;
    var r := RemoveEntry(doc, container, name);
    RemoveEntryAt(doc, container, name);
    WalkOneMore(Some(r), container, name, Remove(fields, name));
    WalkOneMore(Some(r), container, other, Remove(fields, name));
    WalkOneMore(Some(doc), container, other, fields);
  }

  /** A write along a path through `global` leaves `semantic` alone. */
  lemma SetInKeepsSemantic(doc: Json, keys: seq<string>, v: Json)
    requires |keys| >= 1 && keys[0] == "global"
    ensures Member(SetIn(doc, keys, v), "semantic") == Member(doc, "semantic")
  {
    SetInFrame(doc, keys, v, ["semantic"], 0);
    assert ["semantic"][1..] == [];
  }

  lemma RemoveEntryKeepsSemantic(doc: Json, container: seq<string>, name: string)
    requires |container| >= 1 && container[0] == "global"
    requires Walk(Some(doc), container).Some? && Walk(Some(doc), container).value.Obj?
    ensures Member(RemoveEntry(doc, container, name), "semantic") == Member(doc, "semantic")
  {
    SetInKeepsSemantic(doc, container, Obj(Remove(Walk(Some(doc), container).value.fields, name)));
  }

  // Global token actions

  /** The message `addColorFamily` rejects with when the family exists. */
  function FamilyExists(name: string): string
  {
    "Color family \"" + name + "\" already exists"
  }

  /**
   * The document `addColorFamily(name, steps)` stores: rejected when
   * `global.colors[name]` is truthy, otherwise `steps` assigned there, with
   * `global.colors` created when it is falsy.
   */
  function AddedColorFamily(doc: Json, name: string, steps: Json): (r: Result<Json>)
    ensures Walk(Some(doc), ["global", "colors", name]).Some? && Truthy(Walk(Some(doc), ["global", "colors", name]).value)
      ==> r == Err(FamilyExists(name))
    ensures r.Err? <==>
      (Walk(Some(doc), ["global", "colors", name]).Some? && Truthy(Walk(Some(doc), ["global", "colors", name]).value))
      || !(Member(doc, "global").Some? && Member(doc, "global").value.Obj?)
      || Container(Member(doc, "global").value.fields, "colors").Err?
    ensures r == Err(FamilyExists(name)) ==>
      Walk(Some(doc), ["global", "colors", name]).Some? && Truthy(Walk(Some(doc), ["global", "colors", name]).value)
    ensures r.Err? && r.error != FamilyExists(name) ==> r.error == TypeError
    ensures r.Ok? ==> Member(r.value, "semantic") == Member(doc, "semantic")
  {
    var existing := Walk(Some(doc), ["global", "colors", name]);
    if existing.Some? && Truthy(existing.value) then Err(FamilyExists(name))
    else
      var global := Member(doc, "global");
      if global.Some? && global.value.Obj? && Container(global.value.fields, "colors").Ok? then
        var keys := ["colors", name];
        assert keys[1..] == [name];
        assert PutIn(Container(global.value.fields, "colors").value, keys[1..], steps).Ok?;
        assert PutIn(global.value.fields, keys, steps).Ok?;
        WriteGlobal(doc, keys, steps)
      else WriteGlobal(doc, ["colors", name], steps)
  }

  /** An added family is found at `global.colors[name]`, and nothing else changes. */
  lemma AddColorFamilyEffect(doc: Json, name: string, steps: Json, q: seq<string>, i: nat)
    requires AddedColorFamily(doc, name, steps).Ok?
    requires i < |q| && i < 3 && q[i] != ["global", "colors", name][i]
    ensures Walk(Some(AddedColorFamily(doc, name, steps).value), ["global", "colors", name]) == Some(steps)
    ensures Walk(Some(AddedColorFamily(doc, name, steps).value), q) == Walk(Some(doc), q)
  {
    assert ["global"] + ["colors", name] == ["global", "colors", name];
    WriteGlobalReads(doc, ["colors", name], steps);
    WriteGlobalFrame(doc, ["colors", name], steps, q, i);
  }

  /**
   * The document `deleteColorFamily(name)` stores, or `None` when
   * `global.colors[name]` is not truthy and the action does nothing.
   */
  function DeletedColorFamily(doc: Json, name: string): (r: Option<Json>)
    ensures r.Some? <==> (Walk(Some(doc), ["global", "colors", name]).Some?
      && Truthy(Walk(Some(doc), ["global", "colors", name]).value))
    ensures r.Some? ==> Member(r.value, "semantic") == Member(doc, "semantic")
  {
    var existing := Walk(Some(doc), ["global", "colors", name]);
    if existing.Some? && Truthy(existing.value) then
      WalkAppend(Some(doc), ["global", "colors"], [name]);
      assert ["global", "colors"] + [name] == ["global", "colors", name];
      RemoveEntryKeepsSemantic(doc, ["global", "colors"], name);
      Some(RemoveEntry(doc, ["global", "colors"], name))
    else None
  }

  /** A deleted family is gone, every other family and the rest of the document are kept. */
  lemma DeleteColorFamilyEffect(doc: Json, name: string, other: string, q: seq<string>, i: nat)
    requires DeletedColorFamily(doc, name).Some? && other != name
    requires i < |q| && i < 2 && q[i] != ["global", "colors"][i]
    ensures Walk(Some(DeletedColorFamily(doc, name).value), ["global", "colors", name]) == None
    ensures Walk(Some(DeletedColorFamily(doc, name).value), ["global", "colors", other])
      == Walk(Some(doc), ["global", "colors", other])
    ensures Walk(Some(DeletedColorFamily(doc, name).value), q) == Walk(Some(doc), q)
  {
    var container := ["global", "colors"];
    WalkAppend(Some(doc), container, [name]);
    assert container + [name] == ["global", "colors", name];
    assert container + [other] == ["global", "colors", other];
    var fields := Walk(Some(doc), container).value.fields;
    RemoveEntryReads(doc, container, name, other);
    SetInFrame(doc, container, Obj(Remove(fields, name)), q, i);
  }

  /** `category.split('.')[1]` for a `typography.` category. */
  function SubCategory(category: string): string
    requires StartsWith(category, "typography.")
  {
    SplitHasSecond(category);
    Split(category, '.')[1]
  }

  lemma SplitHasSecond(category: string)
    requires StartsWith(category, "typography.")
    ensures |Split(category, '.')| >= 2
  {
    assert category[10] == "typography."[10];
    JoinSplit(category, '.');
  }

  /**
   * Where the global token actions find a token: `typography.<sub>` selects
   * `global.typography[sub][name]`, any other category `global[category][name]`.
   */
  function EntryPath(category: string, name: string): (p: seq<string>)
    ensures |p| >= 3 && p[0] == "global" && p[|p| - 1] == name
  {
    if StartsWith(category, "typography.") then ["global", "typography", SubCategory(category), name]
    else ["global", category, name]
  }

  /** `{ $value: value, $type: type }`. */
  function SingleToken(value: string, tokenType: string): Json
  {
    Obj([("$value", Str(value)), ("$type", Str(tokenType))])
  }

  /**
   * The document `addGlobalToken(category, name, value, type)` stores: the
   * token assigned at its entry path, with missing or falsy containers
   * created below `global`.
   */
  function AddedGlobalToken(doc: Json, category: string, name: string, value: string, tokenType: string): (r: Result<Json>)
    ensures r.Err? ==> r.error == TypeError
    ensures r.Err? <==> (!(Member(doc, "global").Some? && Member(doc, "global").value.Obj?)
      || PutIn(Member(doc, "global").value.fields, EntryPath(category, name)[1..], SingleToken(value, tokenType)).Err?)
    ensures r.Ok? ==> Member(r.value, "semantic") == Member(doc, "semantic")
  {
    var global := Member(doc, "global");
    if global.Some? && global.value.Obj? && PutIn(global.value.fields, EntryPath(category, name)[1..], SingleToken(value, tokenType)).Err? then
      PutInError(global.value.fields, EntryPath(category, name)[1..], SingleToken(value, tokenType));
      WriteGlobal(doc, EntryPath(category, name)[1..], SingleToken(value, tokenType))
    else WriteGlobal(doc, EntryPath(category, name)[1..], SingleToken(value, tokenType))
  }

  /** A `PutIn` that fails, fails with a `TypeError`. */
  lemma {:induction false} PutInError(fields: seq<Field>, keys: seq<string>, v: Json)
    requires |keys| >= 1 && PutIn(fields, keys, v).Err?
    ensures PutIn(fields, keys, v).error == TypeError
    decreases |keys|
  {
    if |keys| > 1 && Container(fields, keys[0]).Ok? {
      PutInError(Container(fields, keys[0]).value, keys[1..], v);
    }
  }

  /** An added token is found at its entry path, and nothing off that path changes. */
  lemma AddGlobalTokenEffect(doc: Json, category: string, name: string, value: string, tokenType: string,
                             q: seq<string>, i: nat)
    requires AddedGlobalToken(doc, category, name, value, tokenType).Ok?
    requires i < |q| && i < |EntryPath(category, name)| && q[i] != EntryPath(category, name)[i]
    ensures Walk(Some(AddedGlobalToken(doc, category, name, value, tokenType).value), EntryPath(category, name))
      == Some(SingleToken(value, tokenType))
    ensures Walk(Some(AddedGlobalToken(doc, category, name, value, tokenType).value), q) == Walk(Some(doc), q)
  {
    var path := EntryPath(category, name);
    assert ["global"] + path[1..] == path;
    WriteGlobalReads(doc, path[1..], SingleToken(value, tokenType));
    WriteGlobalFrame(doc, path[1..], SingleToken(value, tokenType), q, i);
  }

  /** `newTokens.global.x` throws when `global` is missing or `null`. */
  predicate GlobalUnreadable(doc: Json)
  {
    Member(doc, "global").None? || Member(doc, "global").value.Null?
  }

  /** `cat?.[name]` is truthy: the entry the update and delete actions act on exists. */
  predicate EntryPresent(doc: Json, category: string, name: string)
  {
    var entry := Walk(Some(doc), EntryPath(category, name));
    entry.Some? && Truthy(entry.value)
  }

  /**
   * The document `updateGlobalToken(category, name, value)` stores: the
   * entry's `$value` replaced when the entry is present, the document as it
   * was otherwise; nothing is ever created.
   */
  function UpdatedGlobalToken(doc: Json, category: string, name: string, value: string): (r: Result<Json>)
    ensures r.Err? <==> (GlobalUnreadable(doc)
      || (EntryPresent(doc, category, name) && !Walk(Some(doc), EntryPath(category, name)).value.Obj?))
    ensures r.Err? ==> r.error == TypeError
    ensures !GlobalUnreadable(doc) && !EntryPresent(doc, category, name) ==> r == Ok(doc)
    ensures r.Ok? ==> Member(r.value, "semantic") == Member(doc, "semantic")
  {
    var path := EntryPath(category, name);
    var entry := Walk(Some(doc), path);
    if GlobalUnreadable(doc) then Err(TypeError)
    else if entry.None? || !Truthy(entry.value) then Ok(doc)
    else if entry.value.Obj? then
      SetInKeepsSemantic(doc, path + ["$value"], Str(value));
      Ok(SetIn(doc, path + ["$value"], Str(value)))
    else Err(TypeError)
  }

  /** An updated entry holds the new `$value`, and nothing off that path changes. */
  lemma UpdateGlobalTokenEffect(doc: Json, category: string, name: string, value: string, q: seq<string>, i: nat)
    requires UpdatedGlobalToken(doc, category, name, value).Ok? && EntryPresent(doc, category, name)
    requires i < |q| && i <= |EntryPath(category, name)| && q[i] != (EntryPath(category, name) + ["$value"])[i]
    ensures Walk(Some(UpdatedGlobalToken(doc, category, name, value).value), EntryPath(category, name) + ["$value"])
      == Some(Str(value))
    ensures Walk(Some(UpdatedGlobalToken(doc, category, name, value).value), q) == Walk(Some(doc), q)
  {
    var path := EntryPath(category, name);
    var keys := path + ["$value"];
    assert keys[..|keys| - 1] == path;
    SetInReads(doc, keys, Str(value));
    SetInFrame(doc, keys, Str(value), q, i);
  }

  /**
   * The document `deleteGlobalToken(category, name)` stores: the entry
   * removed from its container when it is present, the document as it was
   * otherwise.
   */
  function DeletedGlobalToken(doc: Json, category: string, name: string): (r: Result<Json>)
    ensures r.Err? <==> GlobalUnreadable(doc)
    ensures r.Err? ==> r.error == TypeError
    ensures r.Ok? && !EntryPresent(doc, category, name) ==> r.value == doc
    ensures r.Ok? ==> Member(r.value, "semantic") == Member(doc, "semantic")
  {
    var path := EntryPath(category, name);
    var entry := Walk(Some(doc), path);
    if GlobalUnreadable(doc) then Err(TypeError)
    else if entry.None? || !Truthy(entry.value) then Ok(doc)
    else
      var container := path[..|path| - 1];
      assert container + [name] == path;
      WalkAppend(Some(doc), container, [name]);
      RemoveEntryKeepsSemantic(doc, container, name);
      Ok(RemoveEntry(doc, container, name))
  }

  /** The path of the entry `other` beside the entry `name` of a category. */
  function Sibling(category: string, name: string, other: string): seq<string>
  {
    EntryPath(category, name)[..|EntryPath(category, name)| - 1] + [other]
  }

  /** A deleted entry is gone; its siblings and everything off its container stay. */
  lemma DeleteGlobalTokenEffect(doc: Json, category: string, name: string, other: string, q: seq<string>, i: nat)
    requires DeletedGlobalToken(doc, category, name).Ok? && EntryPresent(doc, category, name) && other != name
    requires i < |q| && i < |EntryPath(category, name)| - 1 && q[i] != EntryPath(category, name)[i]
    ensures Walk(Some(DeletedGlobalToken(doc, category, name).value), EntryPath(category, name)) == None
    ensures Walk(Some(DeletedGlobalToken(doc, category, name).value), Sibling(category, name, other))
      == Walk(Some(doc), Sibling(category, name, other))
    ensures Walk(Some(DeletedGlobalToken(doc, category, name).value), q) == Walk(Some(doc), q)
  {
    var path := EntryPath(category, name);
    var container := path[..|path| - 1];
    assert container + [name] == path;
    WalkAppend(Some(doc), container, [name]);
    var fields := Walk(Some(doc), container).value.fields;
    RemoveEntryReads(doc, container, name, other);
    SetInFrame(doc, container, Obj(Remove(fields, name)), q, i);
  }

  // The store

  /** Two documents with the same `semantic` give every brand the same rows. */
  lemma SameSemanticSameRows(a: Json, b: Json, brand: string)
    requires Member(a, "semantic") == Member(b, "semantic")
    ensures Flatten(a, brand) == Flatten(b, brand)
  {
  }

  /** `SidebarView`. */
  datatype SidebarView = Themes | GlobalSection(section: string) | ColorFamily(familyName: string)

  /** How an action settles: resolved, or rejected with the error's message. */
  datatype Outcome = Done | Failed(error: string)

  /** `{ success, brandName?, error? }`. */
  datatype ImportResult = ImportResult(success: bool, brandName: Option<string>, error: Option<string>)

  const LastBrand: string := "Cannot delete the last brand"
  const InvalidStructure: string := "Invalid structure: missing \"global\" or \"semantic\" section"
  const NoTokensLoaded: string := "No tokens loaded. Please upload orbit-tokens.json first."
  const InvalidImport: string := "Invalid file format. Must have a \"semantic\" section."
  const NoBrandDetected: string := "Could not detect brand name in the imported file."

  function BrandExists(brandName: string): string
  {
    "Brand \"" + brandName + "\" already exists"
  }

  /** `names[0] || null`: the first name, unless there is none or it is the falsy empty string. */
  function FirstOrNull(names: seq<string>): (r: Option<string>)
    ensures r.Some? <==> |names| > 0 && names[0] != ""
    ensures r.Some? ==> r.value == names[0]
  {
    if |names| > 0 && names[0] != "" then Some(names[0]) else None
  }

  /** `brand ? flattenSemanticTokens(tokens, brand) : []`. */
  function RowsFor(doc: Json, brand: Option<string>): seq<FlattenedToken>
  {
    if brand.Some? && brand.value != "" then Flatten(doc, brand.value) else []
  }

  /** A present value that JavaScript treats as true. */
  predicate IsTruthy(o: Option<Json>)
  {
    o.Some? && Truthy(o.value)
  }

  /**
   * The guard shared by `addBrand` and `addBrandWithColors`: the error the
   * action rejects with, or `None` when the brand may be added.
   */
  function NewBrandError(doc: Json, brandName: string): (r: Option<string>)
    ensures ExtractBrandNames(doc).Err? ==> r == Some(ExtractBrandNames(doc).error)
    ensures ExtractBrandNames(doc).Ok? ==>
      (r.None? <==> brandName !in ExtractBrandNames(doc).value)
      && (r.Some? ==> r.value == BrandExists(brandName))
  {
    match ExtractBrandNames(doc)
    case Err(e) => Some(e)
    case Ok(names) => if brandName in names then Some(BrandExists(brandName)) else None
  }

  /** A document with the brand selected in it, as an action installs them. */
  datatype Selection = Selection(doc: Json, brand: Option<string>)

  /** A merged document with the brand imported into it. */
  datatype Imported = Imported(doc: Json, brand: string)

  /**
   * What `deleteBrand` leaves, the document and the selection, or the error
   * it rejects with: the last brand is never deleted, and the selection moves
   * to the first remaining brand only when the deleted brand was selected.
   */
  function BrandDeletion(doc: Json, selected: Option<string>, brandName: string): (r: Result<Selection>)
    ensures ExtractBrandNames(doc).Err? ==> r == Err(ExtractBrandNames(doc).error)
    ensures ExtractBrandNames(doc).Ok? && |ExtractBrandNames(doc).value| <= 1 ==> r == Err(LastBrand)
    ensures ExtractBrandNames(doc).Ok? && |ExtractBrandNames(doc).value| > 1 ==>
      (r.Ok? <==> ExtractBrandNames(RemoveBrandFromTokens(doc, brandName)).Ok?)
    ensures r.Ok? ==> r.value.doc == RemoveBrandFromTokens(doc, brandName) && ExtractBrandNames(r.value.doc).Ok?
    ensures r.Ok? && selected != Some(brandName) ==> r.value.brand == selected
    ensures r.Ok? && selected == Some(brandName) ==>
      (r.value.brand.Some? ==> r.value.brand.value in ExtractBrandNames(r.value.doc).value && r.value.brand.value != "")
      && (r.value.brand.None? ==> ExtractBrandNames(r.value.doc).value == [] || ExtractBrandNames(r.value.doc).value[0] == "")
    ensures r.Ok? && selected == Some(brandName) ==> r.value.brand == FirstOrNull(ExtractBrandNames(r.value.doc).value)
  {
    match ExtractBrandNames(doc)
    case Err(e) => Err(e)
    case Ok(existing) =>
      if |existing| <= 1 then Err(LastBrand)
      else
        var updated := RemoveBrandFromTokens(doc, brandName);
        match ExtractBrandNames(updated)
        case Err(e) => Err(e)
        case Ok(newBrands) => Ok(Selection(updated, if selected == Some(brandName) then FirstOrNull(newBrands) else selected))
  }

  /**
   * `selectedBrand && names.includes(selectedBrand) ? selectedBrand : names[0] || null`:
   * a selection that is still a brand is kept, and any new selection is a brand.
   */
  function KeptSelection(names: seq<string>, selected: Option<string>): (r: Option<string>)
    ensures r.Some? ==> r.value in names && r.value != ""
    ensures selected.Some? && selected.value != "" && selected.value in names ==> r == selected
    ensures r.None? <==> (|names| == 0 || names[0] == "") && !(selected.Some? && selected.value != "" && selected.value in names)
    ensures !(selected.Some? && selected.value != "" && selected.value in names) ==> r == FirstOrNull(names)
  {
    if selected.Some? && selected.value != "" && selected.value in names then selected else FirstOrNull(names)
  }

  /** `!parsed.global || !parsed.semantic`, for a parsed value that is not `null`. */
  predicate StructureMissing(doc: Json)
  {
    !IsTruthy(Member(doc, "global")) || !IsTruthy(Member(doc, "semantic"))
  }

  /**
   * What `updateTokensFromJson` installs, the document and the selection, or
   * the error it reports: the parse error, the `TypeError` of reading a
   * member of `null`, a missing section, or a failure to read the brands.
   */
  function JsonEdit(parsed: Result<Json>, selected: Option<string>): (r: Result<Selection>)
    ensures parsed.Err? ==> r == Err(parsed.error)
    ensures parsed.Ok? && parsed.value.Null? ==> r == Err(TypeError)
    ensures parsed.Ok? && !parsed.value.Null? && StructureMissing(parsed.value) ==> r == Err(InvalidStructure)
    ensures parsed.Ok? && !parsed.value.Null? && !StructureMissing(parsed.value) ==>
      (r.Ok? <==> ExtractBrandNames(parsed.value).Ok?)
      && (r.Err? ==> r.error == ExtractBrandNames(parsed.value).error)
    ensures r.Ok? ==>
      (parsed == Ok(r.value.doc) && !StructureMissing(r.value.doc) && ExtractBrandNames(r.value.doc).Ok?
       && r.value.brand == KeptSelection(ExtractBrandNames(r.value.doc).value, selected))
  {
    match parsed
    case Err(e) => Err(e)
    case Ok(doc) =>
      if doc.Null? then Err(TypeError)
      else if StructureMissing(doc) then Err(InvalidStructure)
      else
        match ExtractBrandNames(doc)
        case Err(e) => Err(e)
        case Ok(names) => Ok(Selection(doc, KeptSelection(names, selected)))
  }

  /** `!jsonData || typeof jsonData !== 'object' || !('semantic' in jsonData)`. */
  predicate NotABrandFile(jsonData: Json)
  {
    !(jsonData.Obj? && HasKey(jsonData, "semantic"))
  }

  /**
   * What `importSemanticBrand` installs into a loaded document, the merged
   * document and the imported brand, or the error it reports.
   */
  function BrandImport(doc: Json, jsonData: Json): (r: Result<Imported>)
    ensures NotABrandFile(jsonData) ==> r == Err(InvalidImport)
    ensures !NotABrandFile(jsonData) && MergeSemanticBrandImport(doc, jsonData).brand.None? ==> r == Err(NoBrandDetected)
    ensures !NotABrandFile(jsonData) && MergeSemanticBrandImport(doc, jsonData).brand.Some? ==>
      (r.Ok? <==> ExtractBrandNames(MergeSemanticBrandImport(doc, jsonData).tokens).Ok?)
    ensures r.Ok? ==>
      (r.value.brand != "" && Merged(r.value.doc, Some(r.value.brand)) == MergeSemanticBrandImport(doc, jsonData)
       && (forall k :: k != "semantic" ==> Member(r.value.doc, k) == Member(doc, k)))
  {
    if NotABrandFile(jsonData) then Err(InvalidImport)
    else
      var merged := MergeSemanticBrandImport(doc, jsonData);
      if merged.brand.None? then Err(NoBrandDetected)
      else
        match ExtractBrandNames(merged.tokens)
        case Err(e) => Err(e)
        case Ok(_) => Ok(Imported(merged.tokens, merged.brand.value))
  }

  /** The store of `useThemeStore`, with the fields the editing actions change. */
  class ThemeStore {
    var tokens: Option<Json>
    var selectedBrand: Option<string>
    var flattenedTokens: seq<FlattenedToken>
    var hasUnsavedChanges: bool
    var jsonEditorError: Option<string>
    var sidebarView: SidebarView

    /**
     * The table holds the selected brand's rows of the current document, and
     * a brand is selected only while a document is loaded. (An empty brand
     * name is falsy, and the actions disagree about its rows.)
     */
    predicate Valid()
      reads this
    {
      (selectedBrand.Some? ==> tokens.Some?)
      && (selectedBrand.None? ==> flattenedTokens == [])
      && (selectedBrand.Some? && selectedBrand.value != "" ==> flattenedTokens == Flatten(tokens.value, selectedBrand.value))
    }

    /** `if (!tokens) return`. */
    predicate Loaded()
      reads this
    {
      tokens.Some? && Truthy(tokens.value)
    }

    /** The initial state. */
    constructor()
      ensures Valid()
      ensures tokens == None && selectedBrand == None && flattenedTokens == []
      ensures !hasUnsavedChanges && jsonEditorError == None && sidebarView == Themes
    {
      tokens := None;
      selectedBrand := None;
      flattenedTokens := [];
      hasUnsavedChanges := false;
      jsonEditorError := None;
      sidebarView := Themes;
    }

    /** `selectBrand(brandName)`. */
    method SelectBrand(brandName: string)
      requires Valid()
      modifies this
      ensures Valid()
      ensures !old(Loaded()) ==> unchanged(this)
      ensures old(Loaded()) ==>
        (tokens == old(tokens) && selectedBrand == Some(brandName)
         && flattenedTokens == Flatten(tokens.value, brandName)
         && hasUnsavedChanges == old(hasUnsavedChanges) && jsonEditorError == old(jsonEditorError)
         && sidebarView == old(sidebarView))
    {
      if !Loaded() {
        return;
      }
      var flattened := FlattenSemanticTokens(tokens.value, brandName);
      selectedBrand := Some(brandName);
      flattenedTokens := flattened;
    }

    /**
     * `updateToken(path, newValue)`: nothing without a document or a selected
     * brand; otherwise the selected brand's value at `path` is written, the
     * table is rebuilt and the change is marked unsaved.
     */
    method UpdateToken(path: string, newValue: string)
      requires Valid()
      modifies this
      ensures Valid()
      ensures !old(Loaded()) || old(selectedBrand).None? || old(selectedBrand) == Some("") ==> unchanged(this)
      ensures old(Loaded()) && old(selectedBrand).Some? && old(selectedBrand) != Some("") ==>
        tokens == Some(UpdatedTokens(old(tokens).value, path, old(selectedBrand).value, Str(newValue)))
        && selectedBrand == old(selectedBrand) && flattenedTokens == Flatten(tokens.value, selectedBrand.value)
        && hasUnsavedChanges && jsonEditorError == old(jsonEditorError) && sidebarView == old(sidebarView)
    {
      if !Loaded() || selectedBrand.None? || selectedBrand.value == "" {
        return;
      }
      var updated := UpdateTokenValue(tokens.value, path, selectedBrand.value, Str(newValue));
      var flattened := FlattenSemanticTokens(updated, selectedBrand.value);
      tokens := Some(updated);
      flattenedTokens := flattened;
      hasUnsavedChanges := true;
    }

    /** `saveChanges()`: with a document loaded, the changes count as saved. */
    method SaveChanges()
      requires Valid()
      modifies this
      ensures Valid()
      ensures !old(Loaded()) ==> unchanged(this)
      ensures old(Loaded()) ==>
        (!hasUnsavedChanges && tokens == old(tokens) && selectedBrand == old(selectedBrand)
         && flattenedTokens == old(flattenedTokens) && jsonEditorError == old(jsonEditorError)
         && sidebarView == old(sidebarView))
    {
      if Loaded() {
        hasUnsavedChanges := false;
      }
    }

    /**
     * Installs a document with a selection and its table; the other fields
     * stay. Every action that replaces the document ends here.
     */
    method Show(doc: Json, brand: Option<string>, rows: seq<FlattenedToken>, unsaved: bool)
      requires brand.None? ==> rows == []
      requires brand.Some? && brand.value != "" ==> rows == Flatten(doc, brand.value)
      modifies this
      ensures Valid()
      ensures tokens == Some(doc) && selectedBrand == brand && flattenedTokens == rows
        && hasUnsavedChanges == unsaved && jsonEditorError == old(jsonEditorError) && sidebarView == old(sidebarView)
    {
      tokens := Some(doc);
      selectedBrand := brand;
      flattenedTokens := rows;
      hasUnsavedChanges := unsaved;
    }

    /**
     * `addBrand(brandName, sourceBrand)`: rejected, with the document
     * unchanged, when the brand names cannot be read or already include the
     * name; otherwise the brand is added and selected.
     */
    method AddBrand(brandName: string, sourceBrand: Option<string>) returns (outcome: Outcome)
      requires Valid()
      modifies this
      ensures Valid()
      ensures !old(Loaded()) ==> outcome == Done && unchanged(this)
      ensures old(Loaded()) ==> match NewBrandError(old(tokens).value, brandName)
        case Some(e) => outcome == Failed(e) && unchanged(this)
        case None =>
          (outcome == Done && tokens == Some(AddBrandToTokens(old(tokens).value, brandName, sourceBrand))
           && selectedBrand == Some(brandName) && flattenedTokens == Flatten(tokens.value, brandName)
           && !hasUnsavedChanges && jsonEditorError == old(jsonEditorError) && sidebarView == old(sidebarView))
    {
      if !Loaded() {
        return Done;
      }
      var error := NewBrandError(tokens.value, brandName);
      if error.Some? {
        return Failed(error.value);
      }
      var updated := AddBrandToTokens(tokens.value, brandName, sourceBrand);
      var flattened := FlattenSemanticTokens(updated, brandName);
      Show(updated, Some(brandName), flattened, false);
      outcome := Done;
    }

    /**
     * `addBrandWithColors(brandName, …)`: the guard of `addBrand`; `addCustom`
     * stands for the document `addBrandWithCustomColors` builds from the
     * template brand, the colours and the radius.
     */
    method AddBrandWithColors(brandName: string, addCustom: Json -> Json) returns (outcome: Outcome)
      requires Valid()
      modifies this
      ensures Valid()
      ensures !old(Loaded()) ==> outcome == Done && unchanged(this)
      ensures old(Loaded()) ==> match NewBrandError(old(tokens).value, brandName)
        case Some(e) => outcome == Failed(e) && unchanged(this)
        case None =>
          (outcome == Done && tokens == Some(addCustom(old(tokens).value))
           && selectedBrand == Some(brandName) && flattenedTokens == Flatten(tokens.value, brandName)
           && !hasUnsavedChanges && jsonEditorError == old(jsonEditorError) && sidebarView == old(sidebarView))
    {
      if !Loaded() {
        return Done;
      }
      var error := NewBrandError(tokens.value, brandName);
      if error.Some? {
        return Failed(error.value);
      }
      var updated := addCustom(tokens.value);
      var flattened := FlattenSemanticTokens(updated, brandName);
      Show(updated, Some(brandName), flattened, false);
      outcome := Done;
    }

    /** `deleteBrand(brandName)`, as `BrandDeletion` decides it. */
    method DeleteBrand(brandName: string) returns (outcome: Outcome)
      requires Valid()
      modifies this
      ensures Valid()
      ensures !old(Loaded()) ==> outcome == Done && unchanged(this)
      ensures old(Loaded()) ==> match BrandDeletion(old(tokens).value, old(selectedBrand), brandName)
        case Err(e) => outcome == Failed(e) && unchanged(this)
        case Ok(next) =>
          (outcome == Done && tokens == Some(next.doc) && selectedBrand == next.brand
           && flattenedTokens == RowsFor(next.doc, next.brand)
           && !hasUnsavedChanges && jsonEditorError == old(jsonEditorError) && sidebarView == old(sidebarView))
    {
      if !Loaded() {
        return Done;
      }
      var next := BrandDeletion(tokens.value, selectedBrand, brandName);
      if next.Err? {
        return Failed(next.error);
      }
      var updated, newSelected := next.value.doc, next.value.brand;
      var flattened: seq<FlattenedToken> := [];
      if newSelected.Some? && newSelected.value != "" {
        flattened := FlattenSemanticTokens(updated, newSelected.value);
      }
      Show(updated, newSelected, flattened, false);
      outcome := Done;
    }

    /** `importSemanticBrand(jsonData)`, as `BrandImport` decides it; a failure changes nothing. */
    method ImportSemanticBrand(jsonData: Json) returns (result: ImportResult)
      requires Valid()
      modifies this
      ensures Valid()
      ensures !old(Loaded()) ==> result == ImportResult(false, None, Some(NoTokensLoaded)) && unchanged(this)
      ensures old(Loaded()) ==> match BrandImport(old(tokens).value, jsonData)
        case Err(e) => result == ImportResult(false, None, Some(e)) && unchanged(this)
        case Ok(next) =>
          (result == ImportResult(true, Some(next.brand), None)
           && tokens == Some(next.doc) && selectedBrand == Some(next.brand) && flattenedTokens == Flatten(next.doc, next.brand)
           && !hasUnsavedChanges && jsonEditorError == old(jsonEditorError) && sidebarView == old(sidebarView))
    {
      if !Loaded() {
        return ImportResult(false, None, Some(NoTokensLoaded));
      }
      var next := BrandImport(tokens.value, jsonData);
      if next.Err? {
        return ImportResult(false, None, Some(next.error));
      }
      var merged, brandName := next.value.doc, next.value.brand;
      var flattened := FlattenSemanticTokens(merged, brandName);
      Show(merged, Some(brandName), flattened, false);
      result := ImportResult(true, Some(brandName), None);
    }

    /**
     * `updateTokensFromJson(jsonString)`, given what `JSON.parse` made of the
     * text, as `JsonEdit` decides it: an edit that is applied is unsaved and
     * clears the editor's error; a missing section changes nothing; any other
     * failure is shown in the editor.
     */
    method UpdateTokensFromJson(parsed: Result<Json>) returns (success: bool, error: Option<string>)
      requires Valid()
      modifies this
      ensures Valid()
      ensures match JsonEdit(parsed, old(selectedBrand))
        case Err(e) =>
          (!success && error == Some(e)
           && jsonEditorError == (if parsed.Ok? && !parsed.value.Null? && StructureMissing(parsed.value)
                                  then old(jsonEditorError) else error)
           && tokens == old(tokens) && selectedBrand == old(selectedBrand) && flattenedTokens == old(flattenedTokens)
           && hasUnsavedChanges == old(hasUnsavedChanges) && sidebarView == old(sidebarView))
        case Ok(next) =>
          (success && error.None? && tokens == Some(next.doc) && selectedBrand == next.brand
           && flattenedTokens == RowsFor(next.doc, next.brand)
           && hasUnsavedChanges && jsonEditorError.None? && sidebarView == old(sidebarView))
    {
      var next := JsonEdit(parsed, selectedBrand);
      if next.Err? {
        if !(parsed.Ok? && !parsed.value.Null? && StructureMissing(parsed.value)) {
          jsonEditorError := Some(next.error);
        }
        return false, Some(next.error);
      }
      var doc, newSelected := next.value.doc, next.value.brand;
      var flattened: seq<FlattenedToken> := [];
      if newSelected.Some? {
        flattened := FlattenSemanticTokens(doc, newSelected.value);
      }
      Show(doc, newSelected, flattened, true);
      jsonEditorError := None;
      return true, None;
    }

    /** `setJsonEditorError(error)`. */
    method SetJsonEditorError(error: Option<string>)
      requires Valid()
      modifies this
      ensures Valid()
      ensures jsonEditorError == error && tokens == old(tokens) && selectedBrand == old(selectedBrand)
        && flattenedTokens == old(flattenedTokens) && hasUnsavedChanges == old(hasUnsavedChanges)
        && sidebarView == old(sidebarView)
    {
      jsonEditorError := error;
    }

    /** `setSidebarView(view)`. */
    method SetSidebarView(view: SidebarView)
      requires Valid()
      modifies this
      ensures Valid()
      ensures sidebarView == view && tokens == old(tokens) && selectedBrand == old(selectedBrand)
        && flattenedTokens == old(flattenedTokens) && hasUnsavedChanges == old(hasUnsavedChanges)
        && jsonEditorError == old(jsonEditorError)
    {
      sidebarView := view;
    }

    /** `navigateToThemes()`. */
    method NavigateToThemes()
      requires Valid()
      modifies this
      ensures Valid()
      ensures sidebarView == Themes && tokens == old(tokens) && selectedBrand == old(selectedBrand)
        && flattenedTokens == old(flattenedTokens) && hasUnsavedChanges == old(hasUnsavedChanges)
        && jsonEditorError == old(jsonEditorError)
    {
      SetSidebarView(Themes);
    }

    /** `navigateToGlobalSection(section)`. */
    method NavigateToGlobalSection(section: string)
      requires Valid()
      modifies this
      ensures Valid()
      ensures sidebarView == GlobalSection(section) && tokens == old(tokens) && selectedBrand == old(selectedBrand)
        && flattenedTokens == old(flattenedTokens) && hasUnsavedChanges == old(hasUnsavedChanges)
        && jsonEditorError == old(jsonEditorError)
    {
      SetSidebarView(GlobalSection(section));
    }

    /** `navigateToColorFamily(familyName)`. */
    method NavigateToColorFamily(familyName: string)
      requires Valid()
      modifies this
      ensures Valid()
      ensures sidebarView == ColorFamily(familyName) && tokens == old(tokens) && selectedBrand == old(selectedBrand)
        && flattenedTokens == old(flattenedTokens) && hasUnsavedChanges == old(hasUnsavedChanges)
        && jsonEditorError == old(jsonEditorError)
    {
      SetSidebarView(ColorFamily(familyName));
    }

    /**
     * Stores a global document the actions below computed: it replaces the
     * old one and counts as saved; the table, which reads only `semantic`,
     * stays as it is.
     */
    method StoreGlobal(doc: Json)
      requires Valid() && tokens.Some? && Member(doc, "semantic") == Member(tokens.value, "semantic")
      modifies this
      ensures Valid()
      ensures tokens == Some(doc) && !hasUnsavedChanges && selectedBrand == old(selectedBrand)
        && flattenedTokens == old(flattenedTokens) && jsonEditorError == old(jsonEditorError)
        && sidebarView == old(sidebarView)
    {
      if selectedBrand.Some? {
        SameSemanticSameRows(doc, tokens.value, selectedBrand.value);
      }
      tokens := Some(doc);
      hasUnsavedChanges := false;
    }

    /** `addColorFamily(name, steps)`: rejected when the family exists; otherwise stored. */
    method AddColorFamily(name: string, steps: Json) returns (outcome: Outcome)
      requires Valid()
      modifies this
      ensures Valid()
      ensures outcome.Failed? ==> unchanged(this)
      ensures !old(Loaded()) ==> outcome == Done && unchanged(this)
      ensures old(Loaded()) ==> match AddedColorFamily(old(tokens).value, name, steps)
        case Err(e) => outcome == Failed(e)
        case Ok(doc) =>
          (outcome == Done && tokens == Some(doc) && !hasUnsavedChanges
           && selectedBrand == old(selectedBrand) && flattenedTokens == old(flattenedTokens)
           && jsonEditorError == old(jsonEditorError) && sidebarView == old(sidebarView))
    {
      if !Loaded() {
        return Done;
      }
      var r := AddedColorFamily(tokens.value, name, steps);
      if r.Err? {
        return Failed(r.error);
      }
      StoreGlobal(r.value);
      outcome := Done;
    }

    /**
     * `deleteColorFamily(name)`: nothing unless the family is present;
     * otherwise it is deleted and the sidebar shows the colours section.
     */
    method DeleteColorFamily(name: string)
      requires Valid()
      modifies this
      ensures Valid()
      ensures old(tokens).None? || DeletedColorFamily(old(tokens).value, name).None? ==> unchanged(this)
      ensures old(tokens).Some? && DeletedColorFamily(old(tokens).value, name).Some? ==>
        tokens == DeletedColorFamily(old(tokens).value, name) && !hasUnsavedChanges
        && sidebarView == GlobalSection("colors") && selectedBrand == old(selectedBrand)
        && flattenedTokens == old(flattenedTokens) && jsonEditorError == old(jsonEditorError)
    {
      if tokens.None? {
        return;
      }
      var r := DeletedColorFamily(tokens.value, name);
      if r.None? {
        return;
      }
      StoreGlobal(r.value);
      sidebarView := GlobalSection("colors");
    }

    /** `addGlobalToken(category, name, value, type)`. */
    method AddGlobalToken(category: string, name: string, value: string, tokenType: string) returns (outcome: Outcome)
      requires Valid()
      modifies this
      ensures Valid()
      ensures outcome.Failed? ==> unchanged(this)
      ensures !old(Loaded()) ==> outcome == Done && unchanged(this)
      ensures old(Loaded()) ==> match AddedGlobalToken(old(tokens).value, category, name, value, tokenType)
        case Err(e) => outcome == Failed(e)
        case Ok(doc) =>
          (outcome == Done && tokens == Some(doc) && !hasUnsavedChanges
           && selectedBrand == old(selectedBrand) && flattenedTokens == old(flattenedTokens)
           && jsonEditorError == old(jsonEditorError) && sidebarView == old(sidebarView))
    {
      if !Loaded() {
        return Done;
      }
      var r := AddedGlobalToken(tokens.value, category, name, value, tokenType);
      if r.Err? {
        return Failed(r.error);
      }
      StoreGlobal(r.value);
      outcome := Done;
    }

    /** `updateGlobalToken(category, name, value)`. */
    method UpdateGlobalToken(category: string, name: string, value: string) returns (outcome: Outcome)
      requires Valid()
      modifies this
      ensures Valid()
      ensures outcome.Failed? ==> unchanged(this)
      ensures !old(Loaded()) ==> outcome == Done && unchanged(this)
      ensures old(Loaded()) ==> match UpdatedGlobalToken(old(tokens).value, category, name, value)
        case Err(e) => outcome == Failed(e)
        case Ok(doc) =>
          (outcome == Done && tokens == Some(doc) && !hasUnsavedChanges
           && selectedBrand == old(selectedBrand) && flattenedTokens == old(flattenedTokens)
           && jsonEditorError == old(jsonEditorError) && sidebarView == old(sidebarView))
    {
      if !Loaded() {
        return Done;
      }
      var r := UpdatedGlobalToken(tokens.value, category, name, value);
      if r.Err? {
        return Failed(r.error);
      }
      StoreGlobal(r.value);
      outcome := Done;
    }

    /** `deleteGlobalToken(category, name)`. */
    method DeleteGlobalToken(category: string, name: string) returns (outcome: Outcome)
      requires Valid()
      modifies this
      ensures Valid()
      ensures outcome.Failed? ==> unchanged(this)
      ensures !old(Loaded()) ==> outcome == Done && unchanged(this)
      ensures old(Loaded()) ==> match DeletedGlobalToken(old(tokens).value, category, name)
        case Err(e) => outcome == Failed(e)
        case Ok(doc) =>
          (outcome == Done && tokens == Some(doc) && !hasUnsavedChanges
           && selectedBrand == old(selectedBrand) && flattenedTokens == old(flattenedTokens)
           && jsonEditorError == old(jsonEditorError) && sidebarView == old(sidebarView))
    {
      if !Loaded() {
        return Done;
      }
      var r := DeletedGlobalToken(tokens.value, category, name);
      if r.Err? {
        return Failed(r.error);
      }
      StoreGlobal(r.value);
      outcome := Done;
    }
  }
}
