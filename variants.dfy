/**
 * Brand-colour derivation and colour-family lookups
 * (`src/utils/colorVariantGenerator.ts`). A brand colour is chosen as a
 * family and a step of the 16-step lattice; each role (main, soft, light,
 * dark, faded) is the step at a fixed offset from it, clamped to the lattice
 * range and snapped to the nearest step, written as `{colors.<family>.<step>}`.
 */
module ColorVariants {
  import opened Wrappers
  import opened Text
  import opened JsonTree
  import opened Sorting
  import opened Seqs
  import opened TokenResolver

  /** `AVAILABLE_STEPS`. */
  const Steps: seq<int> := [5, 10, 20, 30, 40, 50, 60, 70, 80, 90, 100, 200, 300, 400, 500, 600]

  /** `Math.abs(a - b)`. */
  function Dist(a: int, b: int): nat
  {
    if a >= b then a - b else b - a
  }

  /** The lattice is strictly increasing. */
  lemma StepsIncreasing()
    ensures forall i, j :: 0 <= i < j < |Steps| ==> Steps[i] < Steps[j]
  {
  }

  /**
   * The `reduce` of `findNearestStep` from accumulator `prev` over `rest`: the
   * current element replaces the accumulator only when strictly closer.
   */
  function NearestFrom(prev: int, rest: seq<int>, target: int): (r: int)
    ensures r == prev || r in rest
    ensures Dist(r, target) <= Dist(prev, target)
    ensures forall x :: x in rest ==> Dist(r, target) <= Dist(x, target)
    decreases |rest|
  {
    if |rest| == 0 then prev
    else
      var next := if Dist(rest[0], target) < Dist(prev, target) then rest[0] else prev;
      assert forall x :: x in rest ==> x == rest[0] || x in rest[1..];
      NearestFrom(next, rest[1..], target)
  }

  /**
   * Over an increasing list the reduce keeps the first of equally close
   * elements, so among the closest it returns the smallest.
   */
  lemma {:induction false} NearestFromSmallestTie(prev: int, rest: seq<int>, target: int)
    requires forall i, j :: 0 <= i < j < |rest| ==> rest[i] < rest[j]
    requires forall i :: 0 <= i < |rest| ==> prev < rest[i]
    ensures var r := NearestFrom(prev, rest, target);
      (Dist(prev, target) == Dist(r, target) ==> r <= prev)
      && (forall x :: x in rest && Dist(x, target) == Dist(r, target) ==> r <= x)
    decreases |rest|
  {
    if |rest| > 0 {
      var next := if Dist(rest[0], target) < Dist(prev, target) then rest[0] else prev;
      var tail := rest[1..];
      NearestFromSmallestTie(next, tail, target);
      assert forall x :: x in rest ==> x == rest[0] || x in tail;
    }
  }

  /** `findNearestStep(target)`. */
  function FindNearestStep(target: int): int
  {
    NearestFrom(Steps[0], Steps[1..], target)
  }

  /**
   * The nearest step is a lattice step no farther from the target than any
   * other, and the smallest of those equally close.
   */
  lemma NearestStepIsClosest(target: int)
    ensures FindNearestStep(target) in Steps
    ensures forall s :: s in Steps ==> Dist(FindNearestStep(target), target) <= Dist(s, target)
    ensures forall s :: (s in Steps && Dist(s, target) == Dist(FindNearestStep(target), target)
      ==> FindNearestStep(target) <= s)
  {
    StepsIncreasing();
    NearestFromSmallestTie(Steps[0], Steps[1..], target);
    assert forall s :: s in Steps ==> s == Steps[0] || s in Steps[1..];
  }

  /** A step of the lattice is its own nearest step. */
  lemma NearestOfStep(step: int)
    requires step in Steps
    ensures FindNearestStep(step) == step
  {
    NearestStepIsClosest(step);
  }

  /** Snapping is monotone: a larger target never gets a smaller step. */
  lemma NearestMonotone(t1: int, t2: int)
    requires t1 <= t2
    ensures FindNearestStep(t1) <= FindNearestStep(t2)
  {
    var a := FindNearestStep(t1);
    var b := FindNearestStep(t2);
    NearestStepIsClosest(t1);
    NearestStepIsClosest(t2);
    // Were b < a: `a` is strictly closer to t1 than `b` (a tie would pick `b`), so t1 lies
    // above the midpoint of b and a, while `b` is at least as close to t2, which puts
    // t2 <= t1 below that midpoint.
    if b < a {
      assert false;
    }
  }

  /** Ties go to the smaller step: 150 is as close to 100 as to 200. */
  lemma NearestTieExample()
    ensures FindNearestStep(150) == 100
  {
    var r := FindNearestStep(150);
    NearestStepIsClosest(150);
    assert Dist(r, 150) <= Dist(100, 150) == 50;
    CloseTo150(r);
    assert Dist(200, 150) == Dist(r, 150);
  }

  /** Only 100 and 200 lie within 50 of 150. */
  lemma CloseTo150(s: int)
    requires s in Steps && Dist(s, 150) <= 50
    ensures s == 100 || s == 200
  {
  }

  /** `Math.max(lo, Math.min(hi, x))`. */
  function Clamp(x: int, lo: int, hi: int): int
  {
    if x < lo then lo else if x > hi then hi else x
  }

  /** `calculateVariantStep(baseStep, offset)`: clamp into the lattice range, then snap. */
  function CalculateVariantStep(baseStep: int, offset: int): int
  {
    FindNearestStep(Clamp(baseStep + offset, Steps[0], Steps[|Steps| - 1]))
  }

  /** Every variant step is a step of the lattice. */
  lemma VariantStepInLattice(baseStep: int, offset: int)
    ensures CalculateVariantStep(baseStep, offset) in Steps
  {
    NearestStepIsClosest(Clamp(baseStep + offset, 5, 600));
  }

  /** A larger offset never gives a smaller variant step. */
  lemma VariantStepMonotone(baseStep: int, o1: int, o2: int)
    requires o1 <= o2
    ensures CalculateVariantStep(baseStep, o1) <= CalculateVariantStep(baseStep, o2)
  {
    NearestMonotone(Clamp(baseStep + o1, 5, 600), Clamp(baseStep + o2, 5, 600));
  }

  /** The offset 0 keeps an anchor that is already on the lattice. */
  lemma VariantStepAnchor(baseStep: int)
    requires baseStep in Steps
    ensures CalculateVariantStep(baseStep, 0) == baseStep
  {
    assert Clamp(baseStep, 5, 600) == baseStep;
    NearestOfStep(baseStep);
  }

  /** Clamping before snapping: 70 - 75 snaps to 5 and 70 + 330 to 400. */
  lemma VariantStepExamples()
    ensures CalculateVariantStep(70, -75) == 5
    ensures CalculateVariantStep(70, 330) == 400
  {
    NearestOfStep(5);
    NearestOfStep(400);
  }

  /** `createAlias(family, step)`: the reference `{colors.<family>.<step>}`. */
  function CreateAlias(family: string, step: int): string
  {
    "{colors." + family + "." + IntToString(step) + "}"
  }

  /** `alias` is a reference to `colors.<family>.<step>`. */
  predicate NamesStep(alias: string, family: string, step: int)
  {
    IsAliasString(alias) && Split(ExtractAliasPath(alias), '.') == ["colors", family, IntToString(step)]
  }

  /** `String(step)` has no dot in it. */
  lemma NoDotInNumber(step: int)
    ensures '.' !in IntToString(step)
  {
    var m: nat := if step < 0 then -step else step;
    assert forall k :: 0 <= k < |NatToString(m)| ==> NatToString(m)[k] != '.';
  }

  /**
   * A created alias reads back as the path `colors`, the family, the step; its
   * last segment parses back to the step.
   */
  lemma CreateAliasNamesStep(family: string, step: int)
    requires '.' !in family
    ensures NamesStep(CreateAlias(family, step), family, step)
    ensures ParseInt(Split(ExtractAliasPath(CreateAlias(family, step)), '.')[2]) == Some(step)
  {
    var key := IntToString(step);
    var path := "colors" + "." + family + "." + key;
    assert CreateAlias(family, step) == "{" + path + "}";
    AliasRoundTrip(path);
    NoDotInNumber(step);
    var parts := ["colors", family, key];
    assert Join(parts[2..], '.') == key;
    assert Join(parts[1..], '.') == family + "." + key;
    assert Join(parts, '.') == path;
    SplitJoin(parts, '.');
    ParseIntToString(step);
  }

  /** The base colour picked for one brand role: a family and a step. */
  datatype ColorSelection = ColorSelection(family: string, step: int)

  datatype PrimaryVariants = PrimaryVariants(main: string, soft: string, light: string, dark: string, faded: string)

  datatype SecondaryVariants = SecondaryVariants(main: string, soft: string, light: string, dark: string)

  datatype AccentVariants = AccentVariants(main: string, soft: string, light: string, dark: string)

  datatype GeneratedBrandColors = GeneratedBrandColors(
    primary: PrimaryVariants, secondary: SecondaryVariants, accent: AccentVariants)

  /** `generatePrimaryVariants`, with `PRIMARY_OFFSETS` main 0, light -50, soft -75, dark +330, faded -40. */
  function GeneratePrimaryVariants(color: ColorSelection): PrimaryVariants
  {
    var family := color.family;
    var step := color.step;
    PrimaryVariants(
      main := CreateAlias(family, CalculateVariantStep(step, 0)),
      soft := CreateAlias(family, CalculateVariantStep(step, -75)),
      light := CreateAlias(family, CalculateVariantStep(step, -50)),
      dark := CreateAlias(family, CalculateVariantStep(step, 330)),
      faded := CreateAlias(family, CalculateVariantStep(step, -40)))
  }

  /** `generateSecondaryVariants`, with `SECONDARY_OFFSETS` main 0, soft -70, light -50, dark +300. */
  function GenerateSecondaryVariants(color: ColorSelection): SecondaryVariants
  {
    var family := color.family;
    var step := color.step;
    SecondaryVariants(
      main := CreateAlias(family, CalculateVariantStep(step, 0)),
      soft := CreateAlias(family, CalculateVariantStep(step, -70)),
      light := CreateAlias(family, CalculateVariantStep(step, -50)),
      dark := CreateAlias(family, CalculateVariantStep(step, 300)))
  }

  /** `generateAccentVariants`, with `ACCENT_OFFSETS` main 0, soft -60, light -30, dark +250. */
  function GenerateAccentVariants(color: ColorSelection): AccentVariants
  {
    var family := color.family;
    var step := color.step;
    AccentVariants(
      main := CreateAlias(family, CalculateVariantStep(step, 0)),
      soft := CreateAlias(family, CalculateVariantStep(step, -60)),
      light := CreateAlias(family, CalculateVariantStep(step, -30)),
      dark := CreateAlias(family, CalculateVariantStep(step, 250)))
  }

  /** `generateAllBrandColors`: each role derived from its own selection. */
  function GenerateAllBrandColors(primary: ColorSelection, secondary: ColorSelection, accent: ColorSelection): GeneratedBrandColors
  {
    GeneratedBrandColors(
      GeneratePrimaryVariants(primary), GenerateSecondaryVariants(secondary), GenerateAccentVariants(accent))
  }

  /** Each role of a group is the alias of the selected family at that role's variant step. */
  lemma RoleAlias(family: string, step: int, offset: int)
    requires '.' !in family
    ensures NamesStep(CreateAlias(family, CalculateVariantStep(step, offset)), family, CalculateVariantStep(step, offset))
    ensures CalculateVariantStep(step, offset) in Steps
  {
    CreateAliasNamesStep(family, CalculateVariantStep(step, offset));
    VariantStepInLattice(step, offset);
  }

  /**
   * Every primary variant references a lattice step of the selected family
   * and the steps run soft <= light <= faded <= main <= dark; main is the
   * selected step when that step is on the lattice.
   */
  lemma PrimaryVariantsFacts(color: ColorSelection)
    requires '.' !in color.family
    ensures var v := GeneratePrimaryVariants(color);
      var b := color.step;
      NamesStep(v.soft, color.family, CalculateVariantStep(b, -75))
      && NamesStep(v.light, color.family, CalculateVariantStep(b, -50))
      && NamesStep(v.faded, color.family, CalculateVariantStep(b, -40))
      && NamesStep(v.main, color.family, CalculateVariantStep(b, 0))
      && NamesStep(v.dark, color.family, CalculateVariantStep(b, 330))
    ensures var b := color.step;
      CalculateVariantStep(b, -75) <= CalculateVariantStep(b, -50) <= CalculateVariantStep(b, -40)
      <= CalculateVariantStep(b, 0) <= CalculateVariantStep(b, 330)
    ensures color.step in Steps ==> CalculateVariantStep(color.step, 0) == color.step
  {
    var f := color.family;
    var b := color.step;
    RoleAlias(f, b, -75);
    RoleAlias(f, b, -50);
    RoleAlias(f, b, -40);
    RoleAlias(f, b, 0);
    RoleAlias(f, b, 330);
    VariantStepMonotone(b, -75, -50);
    VariantStepMonotone(b, -50, -40);
    VariantStepMonotone(b, -40, 0);
    VariantStepMonotone(b, 0, 330);
    if b in Steps {
      VariantStepAnchor(b);
    }
  }

  /** Secondary variants: soft <= light <= main <= dark, all in the selected family, main anchored. */
  lemma SecondaryVariantsFacts(color: ColorSelection)
    requires '.' !in color.family
    ensures var v := GenerateSecondaryVariants(color);
      var b := color.step;
      NamesStep(v.soft, color.family, CalculateVariantStep(b, -70))
      && NamesStep(v.light, color.family, CalculateVariantStep(b, -50))
      && NamesStep(v.main, color.family, CalculateVariantStep(b, 0))
      && NamesStep(v.dark, color.family, CalculateVariantStep(b, 300))
    ensures var b := color.step;
      CalculateVariantStep(b, -70) <= CalculateVariantStep(b, -50)
      <= CalculateVariantStep(b, 0) <= CalculateVariantStep(b, 300)
    ensures color.step in Steps ==> CalculateVariantStep(color.step, 0) == color.step
  {
    var f := color.family;
    var b := color.step;
    RoleAlias(f, b, -70);
    RoleAlias(f, b, -50);
    RoleAlias(f, b, 0);
    RoleAlias(f, b, 300);
    VariantStepMonotone(b, -70, -50);
    VariantStepMonotone(b, -50, 0);
    VariantStepMonotone(b, 0, 300);
    if b in Steps {
      VariantStepAnchor(b);
    }
  }

  /** Accent variants: soft <= light <= main <= dark, all in the selected family, main anchored. */
  lemma AccentVariantsFacts(color: ColorSelection)
    requires '.' !in color.family
    ensures var v := GenerateAccentVariants(color);
      var b := color.step;
      NamesStep(v.soft, color.family, CalculateVariantStep(b, -60))
      && NamesStep(v.light, color.family, CalculateVariantStep(b, -30))
      && NamesStep(v.main, color.family, CalculateVariantStep(b, 0))
      && NamesStep(v.dark, color.family, CalculateVariantStep(b, 250))
    ensures var b := color.step;
      CalculateVariantStep(b, -60) <= CalculateVariantStep(b, -30)
      <= CalculateVariantStep(b, 0) <= CalculateVariantStep(b, 250)
    ensures color.step in Steps ==> CalculateVariantStep(color.step, 0) == color.step
  {
    var f := color.family;
    var b := color.step;
    RoleAlias(f, b, -60);
    RoleAlias(f, b, -30);
    RoleAlias(f, b, 0);
    RoleAlias(f, b, 250);
    VariantStepMonotone(b, -60, -30);
    VariantStepMonotone(b, -30, 0);
    VariantStepMonotone(b, 0, 250);
    if b in Steps {
      VariantStepAnchor(b);
    }
  }

  /** A selection on the lattice is the main colour of its role. */
  lemma BrandColorsAnchored(primary: ColorSelection, secondary: ColorSelection, accent: ColorSelection)
    requires primary.step in Steps && secondary.step in Steps && accent.step in Steps
    ensures var g := GenerateAllBrandColors(primary, secondary, accent);
      g.primary.main == CreateAlias(primary.family, primary.step)
      && g.secondary.main == CreateAlias(secondary.family, secondary.step)
      && g.accent.main == CreateAlias(accent.family, accent.step)
  {
    VariantStepAnchor(primary.step);
    VariantStepAnchor(secondary.step);
    VariantStepAnchor(accent.step);
  }

  /** The worked example: primary orange 70 gives soft 5, light 20, faded 30, main 70, dark 400. */
  lemma PrimaryExample()
    ensures GeneratePrimaryVariants(ColorSelection("orange", 70)) == PrimaryVariants(
      main := "{colors.orange.70}", soft := "{colors.orange.5}", light := "{colors.orange.20}",
      dark := "{colors.orange.400}", faded := "{colors.orange.30}")
  {
    VariantStepExamples();
    VariantStepAnchor(70);
    assert Clamp(70 - 50, 5, 600) == 20 && Clamp(70 - 40, 5, 600) == 30;
    NearestOfStep(20);
    NearestOfStep(30);
    OrangeAliases();
  }

  lemma OrangeAliases()
    ensures CreateAlias("orange", 5) == "{colors.orange.5}"
    ensures CreateAlias("orange", 20) == "{colors.orange.20}"
    ensures CreateAlias("orange", 30) == "{colors.orange.30}"
    ensures CreateAlias("orange", 70) == "{colors.orange.70}"
    ensures CreateAlias("orange", 400) == "{colors.orange.400}"
  {
    StepStrings();
  }

  lemma StepStrings()
    ensures IntToString(5) == "5" && IntToString(20) == "20" && IntToString(30) == "30"
    ensures IntToString(70) == "70" && IntToString(400) == "400"
  {
    assert NatToString(40) == "40";
  }

  /** `tokens.global?.colors`. */
  function GlobalColors(doc: Json): Option<Json>
  {
    Prop(Member(doc, "global"), "colors")
  }

  /**
   * `getColorValue`: the `$value` of `global.colors.<family>.<step>`, or
   * nothing when a level is missing or falsy or the family is not an object.
   * The step is looked up under the key `String(step)`.
   */
  function GetColorValue(doc: Json, family: string, step: int): Result<Option<Json>>
  {
    ColorValueAt(doc, family, IntToString(step))
  }

  /** The error of a `'$value' in` test on a primitive; the engine's exact wording is not modelled. */
  const InValueError: string := "TypeError: cannot use 'in' operator to search for '$value'"

  /**
   * The lookup of `getColorValue` under a step key. A step entry that is a
   * non-object truthy value makes its `'$value' in` test throw.
   */
  function ColorValueAt(doc: Json, family: string, key: string): Result<Option<Json>>
  {
    var colors := GlobalColors(doc);
    if colors.None? || !Truthy(colors.value) then Ok(None)
    else
      var familyColors := Member(colors.value, family);
      if familyColors.None? || !Truthy(familyColors.value) || !familyColors.value.Obj? then Ok(None)
      else
        var stepToken := Member(familyColors.value, key);
        if stepToken.None? || !Truthy(stepToken.value) then Ok(None)
        else if !stepToken.value.Obj? then Err(InValueError)
        else
          match Member(stepToken.value, "$value")
          case None => Ok(None)
          case Some(v) => if Truthy(v) then Ok(Some(v)) else Ok(None)
  }

  /** The step entry `global.colors.<family>.<step>` read as a path. */
  lemma StepEntryByPath(doc: Json, family: string, key: string)
    ensures var colors := GlobalColors(doc);
      var entry := Walk(Member(doc, "global"), ["colors", family, key]);
      entry == (if colors.None? || !colors.value.Obj? then None
        else
          var familyColors := Member(colors.value, family);
          if familyColors.None? || !familyColors.value.Obj? then None
          else Member(familyColors.value, key))
  {
    var colors := GlobalColors(doc);
    var familyColors := if colors.Some? && colors.value.Obj? then Member(colors.value, family) else None;
    WalkFirst(Member(doc, "global"), "colors", [family, key]);
    WalkFirst(colors, family, [key]);
    WalkFirst(familyColors, key, []);
  }


  /** The lookup decided by the step entry alone. */
  lemma ColorValueOfEntry(doc: Json, family: string, key: string)
    ensures var entry := Walk(Member(doc, "global"), ["colors", family, key]);
      ColorValueAt(doc, family, key)
      == if entry.None? || !Truthy(entry.value) then Ok(None)
        else if !entry.value.Obj? then Err(InValueError)
        else
          var v := Member(entry.value, "$value");
          if v.Some? && Truthy(v.value) then Ok(v) else Ok(None)
  {
    StepEntryByPath(doc, family, key);
    var colors := GlobalColors(doc);
    if colors.Some? && colors.value.Obj? {
      var familyColors := Member(colors.value, family);
      if familyColors.Some? && familyColors.value.Obj? {
        assert Truthy(colors.value) && Truthy(familyColors.value);
      }
    }
  }

  /** The lookup throws exactly when the step entry is a truthy non-object. */
  lemma ColorValueThrows(doc: Json, family: string, key: string)
    ensures var entry := Walk(Member(doc, "global"), ["colors", family, key]);
      ColorValueAt(doc, family, key).Err? <==> entry.Some? && Truthy(entry.value) && !entry.value.Obj?
  {
    ColorValueOfEntry(doc, family, key);
  }

  /**
   * Read as a path lookup: the lookup finds a colour exactly when the path
   * `colors.<family>.<step>.$value` under `global` holds a truthy value, which
   * is then the colour found.
   */
  lemma ColorValueByPath(doc: Json, family: string, key: string)
    ensures var r := ColorValueAt(doc, family, key);
      var value := Walk(Member(doc, "global"), ["colors", family, key, "$value"]);
      (r.Ok? && r.value.Some? <==> value.Some? && Truthy(value.value))
      && (r.Ok? && r.value.Some? ==> r.value.value == value.value)
  {
    var global := Member(doc, "global");
    var entry := Walk(global, ["colors", family, key]);
    ColorValueOfEntry(doc, family, key);
    PathOfFour("colors", family, key, "$value");
    WalkSnoc(global, ["colors", family, key], "$value");
  }

  lemma PathOfFour(a: string, b: string, c: string, d: string)
    ensures [a, b, c, d] == [a, b, c] + [d]
  {
  }

  /** `isValidColorSelection`: a non-empty family, a non-zero step, and a colour value there. */
  function IsValidColorSelection(doc: Json, color: ColorSelection): Result<bool>
  {
    if color.family == "" || color.step == 0 then Ok(false)
    else
      match GetColorValue(doc, color.family, color.step)
      case Err(e) => Err(e)
      case Ok(v) => Ok(v.Some?)
  }

  /** A selection is valid exactly when it names a step whose `$value` is truthy. */
  lemma ValidSelectionByPath(doc: Json, color: ColorSelection)
    ensures var value := Walk(Member(doc, "global"), ["colors", color.family, IntToString(color.step), "$value"]);
      IsValidColorSelection(doc, color) == Ok(true)
      <==> color.family != "" && color.step != 0 && value.Some? && Truthy(value.value)
    ensures IsValidColorSelection(doc, color).Err?
      <==> (GetColorValue(doc, color.family, color.step).Err? && color.family != "" && color.step != 0)
  {
    ColorValueThrows(doc, color.family, IntToString(color.step));
    ColorValueByPath(doc, color.family, IntToString(color.step));
  }

  /** The family object `global.colors.<family>`, when `getFamilySteps` reaches it. */
  function FamilyObject(doc: Json, family: string): Option<Json>
  {
    var colors := GlobalColors(doc);
    if colors.None? || !Truthy(colors.value) then None
    else
      var familyColors := Member(colors.value, family);
      if familyColors.None? || !familyColors.value.Obj? then None else familyColors
  }

  /** What `getFamilySteps` returns: the numbers `parseInt` reads from the keys, sorted. */
  function FamilySteps(doc: Json, family: string): seq<int>
  {
    match FamilyObject(doc, family)
    case None => []
    case Some(f) => SortInts(FilterMap(ParseInt, Keys(f.fields)))
  }

  /** `getFamilySteps`: collect the numeric keys of the family, then sort them. */
  method GetFamilySteps(doc: Json, family: string) returns (steps: seq<int>)
    ensures steps == FamilySteps(doc, family)
  {
    var colors := GlobalColors(doc);
    if colors.None? || !Truthy(colors.value) {
      return [];
    }
    var familyColors := Member(colors.value, family);
    if familyColors.None? || !Truthy(familyColors.value) || !familyColors.value.Obj? {
      return [];
    }
    var keys := Keys(familyColors.value.fields);
    var found: seq<int> := [];
    var i := 0;
    while i < |keys|
      invariant 0 <= i <= |keys|
      invariant found == FilterMap(ParseInt, keys[..i])
    {
      var n := ParseInt(keys[i]);
      FilterMapStep(ParseInt, keys, i);
      if n.Some? {
        found := found + [n.value];
      }
      i := i + 1;
    }
    assert keys[..|keys|] == keys;
    steps := SortInts(found);
  }

  /**
   * The family steps are ascending, and a number is among them exactly when
   * some key of the family object parses to it.
   */
  lemma FamilyStepsMembers(doc: Json, family: string, n: int)
    ensures Ascending(FamilySteps(doc, family))
    ensures n in FamilySteps(doc, family) <==>
      var f := Walk(Member(doc, "global"), ["colors", family]);
      f.Some? && f.value.Obj? && exists i :: 0 <= i < |Keys(f.value.fields)| && ParseInt(Keys(f.value.fields)[i]) == Some(n)
  {
    var global := Member(doc, "global");
    assert ["colors", family] == ["colors"] + [family];
    WalkAppend(global, ["colors"], [family]);
    match FamilyObject(doc, family)
    case None =>
    case Some(f) =>
      var nums := FilterMap(ParseInt, Keys(f.fields));
      FilterMapMembers(ParseInt, Keys(f.fields), n);
      assert n in SortInts(nums) <==> n in multiset(SortInts(nums));
      assert n in nums <==> n in multiset(nums);
  }

  /** A colour family offered to the wizard: its name, its steps and a sample colour. */
  datatype ColorFamily = ColorFamily(name: string, steps: seq<int>, sampleColor: Json)

  /**
   * The step number of a member of a family, when `extractColorFamilies`
   * counts it as a step: its key parses as a number and its value is an
   * object carrying `$value`.
   */
  function StepNumber(f: Field): Option<int>
  {
    if HasKey(f.1, "$value") then ParseInt(f.0) else None
  }

  predicate IsStepEntry(f: Field)
  {
    StepNumber(f).Some?
  }

  /** The `$value` of a step entry. */
  function StepValue(f: Field): Json
    requires IsStepEntry(f)
  {
    Member(f.1, "$value").value
  }

  /**
   * The sample colour after visiting the members: a step's `$value` replaces
   * it when the step is 70 or 80 or the sample so far is falsy; it starts as
   * the empty string.
   */
  function SampleColor(fs: seq<Field>): Json
  {
    if |fs| == 0 then Str("")
    else
      var prev := SampleColor(fs[..|fs| - 1]);
      var f := fs[|fs| - 1];
      if IsStepEntry(f) && (StepNumber(f) == Some(70) || StepNumber(f) == Some(80) || !Truthy(prev))
      then StepValue(f)
      else prev
  }

  /** The family a member of `colors` contributes, if any. */
  function FamilyOf(f: Field): Option<ColorFamily>
  {
    if f.0 == "neutral" || !f.1.Obj? then None
    else
      var steps := FilterMap(StepNumber, f.1.fields);
      if |steps| == 0 then None
      else Some(ColorFamily(f.0, SortInts(steps), SampleColor(f.1.fields)))
  }

  /** The comparator `(a, b) => a.name.localeCompare(b.name)`. */
  function NameOrder(a: ColorFamily, b: ColorFamily): int
  {
    Compare(a.name, b.name)
  }

  lemma NameOrderAntisymmetric()
    ensures Antisymmetric(NameOrder)
  {
    forall a: ColorFamily, b: ColorFamily
      ensures NameOrder(a, b) == -NameOrder(b, a)
    {
      CompareAntisymmetric(a.name, b.name);
    }
  }

  /** What `extractColorFamilies` returns. */
  function ColorFamilies(doc: Json): seq<ColorFamily>
  {
    // A falsy `colors` gives no families, and so does a truthy primitive: its
    // entries, if any, are not objects.
    match GlobalColors(doc)
    case Some(Obj(entries)) => SortBy(NameOrder, FilterMap(FamilyOf, entries))
    case _ => []
  }

  lemma SampleColorStep(fs: seq<Field>, i: int)
    requires 0 <= i < |fs|
    ensures SampleColor(fs[..i + 1])
      == if IsStepEntry(fs[i]) && (StepNumber(fs[i]) == Some(70) || StepNumber(fs[i]) == Some(80) || !Truthy(SampleColor(fs[..i])))
        then StepValue(fs[i])
        else SampleColor(fs[..i])
  {
    assert fs[..i + 1][..i] == fs[..i];
  }

  /** The inner loop of `extractColorFamilies` over the members of one family. */
  method CollectSteps(fs: seq<Field>) returns (steps: seq<int>, sample: Json)
    ensures steps == FilterMap(StepNumber, fs)
    ensures sample == SampleColor(fs)
  {
    steps := [];
    sample := Str("");
    var i := 0;
    while i < |fs|
      invariant 0 <= i <= |fs|
      invariant steps == FilterMap(StepNumber, fs[..i])
      invariant sample == SampleColor(fs[..i])
    {
      FilterMapStep(StepNumber, fs, i);
      SampleColorStep(fs, i);
      var (stepKey, stepValue) := fs[i];
      var stepNum := ParseInt(stepKey);
      if stepNum.Some? && HasKey(stepValue, "$value") {
        assert StepNumber(fs[i]) == stepNum;
        steps := steps + [stepNum.value];
        if stepNum.value == 70 || stepNum.value == 80 || !Truthy(sample) {
          sample := Member(stepValue, "$value").value;
        }
      } else {
        assert StepNumber(fs[i]).None?;
      }
      i := i + 1;
    }
    assert fs[..|fs|] == fs;
  }

  /** `extractColorFamilies`: one family per usable member of `global.colors`, sorted by name. */
  method ExtractColorFamilies(doc: Json) returns (families: seq<ColorFamily>)
    ensures families == ColorFamilies(doc)
  {
    var colors := GlobalColors(doc);
    if colors.None? || !Truthy(colors.value) || !colors.value.Obj? {
      return [];
    }
    var entries := colors.value.fields;
    var found: seq<ColorFamily> := [];
    var i := 0;
    while i < |entries|
      invariant 0 <= i <= |entries|
      invariant found == FilterMap(FamilyOf, entries[..i])
    {
      FilterMapStep(FamilyOf, entries, i);
      var (familyName, familyColors) := entries[i];
      if familyName != "neutral" && familyColors.Obj? {
        var steps, sample := CollectSteps(familyColors.fields);
        if |steps| > 0 {
          found := found + [ColorFamily(familyName, SortInts(steps), sample)];
        }
      }
      i := i + 1;
    }
    assert entries[..|entries|] == entries;
    families := SortBy(NameOrder, found);
  }

  /** A step 70 or 80. */
  predicate IsAnchor(f: Field)
  {
    StepNumber(f) == Some(70) || StepNumber(f) == Some(80)
  }

  /**
   * The sample is the `$value` of the last step 70 or 80, provided that value
   * is truthy: later steps only replace a falsy sample.
   */
  lemma {:induction false} SampleIsLastAnchor(fs: seq<Field>, i: int)
    requires 0 <= i < |fs| && IsAnchor(fs[i]) && Truthy(StepValue(fs[i]))
    requires forall j :: i < j < |fs| ==> !IsAnchor(fs[j])
    ensures SampleColor(fs) == StepValue(fs[i])
  {
    var front := fs[..|fs| - 1];
    if i < |fs| - 1 {
      assert front[i] == fs[i];
      assert forall j :: i < j < |front| ==> front[j] == fs[j];
      SampleIsLastAnchor(front, i);
    }
  }

  /** With only falsy step values seen, the sample is still falsy. */
  lemma {:induction false} SampleFalsy(fs: seq<Field>)
    requires forall j :: 0 <= j < |fs| && IsStepEntry(fs[j]) ==> !Truthy(StepValue(fs[j]))
    ensures !Truthy(SampleColor(fs))
  {
    if |fs| > 0 {
      var front := fs[..|fs| - 1];
      assert forall j :: 0 <= j < |front| ==> front[j] == fs[j];
      SampleFalsy(front);
    }
  }

  /**
   * Without a step 70 or 80, the sample is the first truthy `$value` among
   * the steps.
   */
  lemma {:induction false} SampleIsFirstTruthy(fs: seq<Field>, i: int)
    requires forall j :: 0 <= j < |fs| ==> !IsAnchor(fs[j])
    requires 0 <= i < |fs| && IsStepEntry(fs[i]) && Truthy(StepValue(fs[i]))
    requires forall j :: 0 <= j < i && IsStepEntry(fs[j]) ==> !Truthy(StepValue(fs[j]))
    ensures SampleColor(fs) == StepValue(fs[i])
  {
    SampleFirstTruthyUpTo(fs, i, |fs|);
    assert fs[..|fs|] == fs;
  }

  /** `SampleIsFirstTruthy` for the first `n` members. */
  lemma {:induction false} SampleFirstTruthyUpTo(fs: seq<Field>, i: int, n: nat)
    requires n <= |fs| && forall j :: 0 <= j < n ==> !IsAnchor(fs[j])
    requires 0 <= i < n && IsStepEntry(fs[i]) && Truthy(StepValue(fs[i]))
    requires forall j :: 0 <= j < i && IsStepEntry(fs[j]) ==> !Truthy(StepValue(fs[j]))
    ensures SampleColor(fs[..n]) == StepValue(fs[i])
  {
    SampleSnoc(fs, n);
    if i == n - 1 {
      assert forall j :: 0 <= j < |fs[..n - 1]| ==> fs[..n - 1][j] == fs[j];
      SampleFalsy(fs[..n - 1]);
    } else {
      SampleFirstTruthyUpTo(fs, i, n - 1);
    }
  }

  /** The sample over the first `n` members, from the sample over the first `n - 1`. */
  lemma SampleSnoc(fs: seq<Field>, n: nat)
    requires 0 < n <= |fs|
    ensures SampleColor(fs[..n]) ==
      if IsStepEntry(fs[n - 1]) && (IsAnchor(fs[n - 1]) || !Truthy(SampleColor(fs[..n - 1])))
      then StepValue(fs[n - 1]) else SampleColor(fs[..n - 1])
  {
    assert fs[..n][..n - 1] == fs[..n - 1];
  }

  /**
   * A family is offered for a member that is not `neutral` and whose value is
   * an object with at least one step entry.
   */
  lemma FamilyOfOffered(f: Field)
    ensures FamilyOf(f).Some? <==>
      f.0 != "neutral" && f.1.Obj? && exists i :: 0 <= i < |f.1.fields| && IsStepEntry(f.1.fields[i])
  {
    if f.1.Obj? {
      var fs := f.1.fields;
      var steps := FilterMap(StepNumber, fs);
      if exists i :: 0 <= i < |fs| && IsStepEntry(fs[i]) {
        var i :| 0 <= i < |fs| && IsStepEntry(fs[i]);
        FilterMapMembers(StepNumber, fs, StepNumber(fs[i]).value);
      } else if |steps| > 0 {
        FilterMapMembers(StepNumber, fs, steps[0]);
      }
    }
  }

  /**
   * An offered family carries the member's name and its sample colour; its
   * steps are ascending and are exactly the numbers of its step entries.
   */
  lemma FamilyOfSteps(f: Field, n: int)
    requires FamilyOf(f).Some?
    ensures var c := FamilyOf(f).value;
      c.name == f.0 && Ascending(c.steps) && c.sampleColor == SampleColor(f.1.fields)
      && (n in c.steps <==> exists i :: 0 <= i < |f.1.fields| && StepNumber(f.1.fields[i]) == Some(n))
  {
    var fs := f.1.fields;
    var steps := FilterMap(StepNumber, fs);
    FilterMapMembers(StepNumber, fs, n);
    assert n in SortInts(steps) <==> n in multiset(SortInts(steps));
    assert n in steps <==> n in multiset(steps);
  }

  /**
   * `extractColorFamilies` returns the families of the members of
   * `global.colors`, and only those.
   */
  lemma ColorFamiliesFacts(doc: Json, c: ColorFamily)
    ensures c in ColorFamilies(doc) <==>
      var colors := GlobalColors(doc);
      colors.Some? && colors.value.Obj?
      && exists i :: 0 <= i < |colors.value.fields| && FamilyOf(colors.value.fields[i]) == Some(c)
  {
    match GlobalColors(doc)
    case Some(Obj(entries)) =>
      FilterMapMembers(FamilyOf, entries, c);
      SortByMembers(NameOrder, FilterMap(FamilyOf, entries), c);
    case _ =>
  }

  /** The families come out in name order. */
  lemma ColorFamiliesSorted(doc: Json)
    ensures forall i :: 0 <= i < |ColorFamilies(doc)| - 1 ==>
      Compare(ColorFamilies(doc)[i].name, ColorFamilies(doc)[i + 1].name) <= 0
  {
    NameOrderAntisymmetric();
    var r := ColorFamilies(doc);
    assert SortedBy(NameOrder, r);
  }
}
