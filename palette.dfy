/**
 * Colour palettes (`src/utils/paletteGenerator.ts`): the sixteen Orbit steps
 * and their target lightness, the shape of a generated palette, its storage
 * as colour tokens, the hex colour format read and written by the
 * conversions, and the check on a new colour family's name. The OKLCH
 * arithmetic itself is floating point and enters only as a parameter.
 */
module Palette {
  import opened Wrappers
  import opened Text
  import opened JsonTree

  /** `ORBIT_STEPS`. */
  const OrbitSteps: seq<string> := ["5", "10", "20", "30", "40", "50", "60", "70", "80", "90", "100", "200", "300", "400", "500", "600"]

  /** `ORBIT_LIGHTNESS_MAP`, in its key order. */
  const LightnessMap: seq<(string, int)> := [
    ("5", 95), ("10", 92), ("20", 88), ("30", 80), ("40", 70), ("50", 60), ("60", 52), ("70", 45),
    ("80", 40), ("90", 36), ("100", 32), ("200", 28), ("300", 24), ("400", 20), ("500", 16), ("600", 13)]

  /** `ORBIT_LIGHTNESS_MAP[step]`. */
  function LightnessOf(step: string): Option<int>
  {
    LookUp(LightnessMap, step)
  }

  function LookUp(table: seq<(string, int)>, key: string): (r: Option<int>)
    ensures r.Some? ==> (key, r.value) in table
    ensures r.None? ==> forall i :: 0 <= i < |table| ==> table[i].0 != key
  {
    if |table| == 0 then None
    else if table[0].0 == key then Some(table[0].1)
    else LookUp(table[1..], key)
  }

  /**
   * The table has an entry for each of the sixteen steps, in step order,
   * and its lightness falls strictly from 95 at step 5 to 13 at step 600.
   */
  lemma LightnessTable()
    ensures |OrbitSteps| == 16 && |LightnessMap| == 16
    ensures forall i :: 0 <= i < 16 ==> LightnessMap[i].0 == OrbitSteps[i]
    ensures forall i, j :: 0 <= i < j < 16 ==> LightnessMap[i].1 > LightnessMap[j].1
    ensures LightnessMap[0].1 == 95 && LightnessMap[15].1 == 13
  {
  }

  /** No step name appears twice. */
  lemma StepsDistinct()
    ensures forall i, j :: 0 <= i < j < |OrbitSteps| ==> OrbitSteps[i] != OrbitSteps[j]
  {
  }

  /** Looking a step up in the table finds its own entry. */
  lemma LightnessOfStep(i: int)
    requires 0 <= i < 16
    ensures LightnessOf(OrbitSteps[i]) == Some(LightnessMap[i].1)
  {
    LightnessTable();
    StepsDistinct();
    LookUpDistinct(LightnessMap, i);
  }

  lemma {:induction false} LookUpDistinct(table: seq<(string, int)>, i: int)
    requires 0 <= i < |table|
    requires forall a, b :: 0 <= a < b < |table| ==> table[a].0 != table[b].0
    ensures LookUp(table, table[i].0) == Some(table[i].1)
  {
    if i > 0 {
      LookUpDistinct(table[1..], i - 1);
    }
  }

  // Hex colours

  /** A digit of `[a-f\d]` under the `i` flag. */
  predicate IsHexDigit(c: char)
  {
    '0' <= c <= '9' || 'a' <= c <= 'f' || 'A' <= c <= 'F'
  }

  function HexValue(c: char): (d: int)
    requires IsHexDigit(c)
    ensures 0 <= d < 16
  {
    if '0' <= c <= '9' then c as int - '0' as int
    else if 'a' <= c <= 'f' then c as int - 'a' as int + 10
    else c as int - 'A' as int + 10
  }

  /** The lower-case digit `toString(16)` writes for `d`. */
  function HexChar(d: int): (c: char)
    requires 0 <= d < 16
    ensures IsHexDigit(c) && HexValue(c) == d && !('A' <= c <= 'F')
  {
    "0123456789abcdef"[d]
  }

  /** The six digits after an optional `#`. */
  function HexBody(hex: string): string
  {
    if |hex| > 0 && hex[0] == '#' then hex[1..] else hex
  }

  /** `/^#?([a-f\d]{2})([a-f\d]{2})([a-f\d]{2})$/i` matches. */
  predicate IsHexColor(hex: string)
  {
    var body := HexBody(hex);
    |body| == 6 && forall k :: 0 <= k < 6 ==> IsHexDigit(body[k])
  }

  /** `parseInt` of two hex digits. */
  function ByteAt(body: string, k: int): (b: int)
    requires 0 <= k && k + 1 < |body| && IsHexDigit(body[k]) && IsHexDigit(body[k + 1])
    ensures 0 <= b < 256
  {
    HexValue(body[k]) * 16 + HexValue(body[k + 1])
  }

  /**
   * `hexToRgb(hex)` on integer channels 0..255 (before the division by 255):
   * the three channels, or the error it throws on any other string.
   */
  function HexToRgb(hex: string): (r: Result<(int, int, int)>)
    ensures r.Ok? <==> IsHexColor(hex)
    ensures r.Err? ==> r.error == "Invalid hex color: " + hex
    ensures r.Ok? ==> 0 <= r.value.0 < 256 && 0 <= r.value.1 < 256 && 0 <= r.value.2 < 256
  {
    if !IsHexColor(hex) then Err("Invalid hex color: " + hex)
    else
      var body := HexBody(hex);
      Ok((ByteAt(body, 0), ByteAt(body, 2), ByteAt(body, 4)))
  }

  /** `Math.max(0, Math.min(…))` on a quantised channel. */
  function Clamp(c: int): (n: int)
    ensures 0 <= n < 256
    ensures 0 <= c < 256 ==> n == c
  {
    if c < 0 then 0 else if c > 255 then 255 else c
  }

  /** `n.toString(16)`: base-16 digits, most significant first, lower case. */
  function ToString16(n: nat): (s: string)
    ensures |s| >= 1 && (n < 16 <==> |s| == 1)
    ensures n < 256 ==> |s| <= 2
    ensures forall k :: 0 <= k < |s| ==> IsHexDigit(s[k]) && !('A' <= s[k] <= 'F')
  {
    if n < 16 then [HexChar(n)] else ToString16(n / 16) + [HexChar(n % 16)]
  }

  /** The inner `toHex(c)`: two lower-case digits, zero-padded. */
  function ToHex(c: int): (s: string)
    ensures |s| == 2 && IsHexDigit(s[0]) && IsHexDigit(s[1])
    ensures !('A' <= s[0] <= 'F') && !('A' <= s[1] <= 'F')
    ensures HexValue(s[0]) * 16 + HexValue(s[1]) == Clamp(c)
  {
    var n := Clamp(c);
    var hex := ToString16(n);
    if |hex| == 1 then "0" + hex
    else
      assert hex == ToString16(n / 16) + [HexChar(n % 16)];
      hex
  }

  /** `rgbToHex(r, g, b)` on quantised channels: `#` and three two-digit pairs. */
  function RgbToHex(r: int, g: int, b: int): (s: string)
    ensures |s| == 7 && s[0] == '#' && IsHexColor(s)
  {
    var s := "#" + (ToHex(r) + ToHex(g) + ToHex(b));
    PairsAreColor(ToHex(r), ToHex(g), ToHex(b));
    s
  }

  lemma PairsAreColor(a: string, b: string, c: string)
    requires |a| == 2 && |b| == 2 && |c| == 2
    requires IsHexDigit(a[0]) && IsHexDigit(a[1]) && IsHexDigit(b[0]) && IsHexDigit(b[1])
    requires IsHexDigit(c[0]) && IsHexDigit(c[1])
    ensures HexBody("#" + (a + b + c)) == a + b + c && IsHexColor("#" + (a + b + c))
  {
    var s := "#" + (a + b + c);
    assert s[1..] == a + b + c;
  }

  /** Reading back a written colour gives its (clamped) channels. */
  lemma RgbRoundTrip(r: int, g: int, b: int)
    ensures HexToRgb(RgbToHex(r, g, b)) == Ok((Clamp(r), Clamp(g), Clamp(b)))
  {
    PairsAreColor(ToHex(r), ToHex(g), ToHex(b));
  }

  /** The lower-case letter `toLowerCase` gives for an ASCII upper-case one. */
  function LowerDigit(c: char): char
  {
    if 'A' <= c <= 'Z' then (c as int + 32) as char else c
  }

  /** Writing back a colour that was read gives its digits in lower case, after `#`. */
  lemma HexRoundTrip(hex: string)
    requires IsHexColor(hex)
    ensures var c := HexToRgb(hex).value; RgbToHex(c.0, c.1, c.2) == "#" + ToLowerAscii(HexBody(hex))
  {
    var body := HexBody(hex);
    assert HexToRgb(hex).value == (ByteAt(body, 0), ByteAt(body, 2), ByteAt(body, 4));
    BodyRoundTrip(body);
  }

  /** The three digit pairs of a body, read and written back, are the body in lower case. */
  lemma BodyRoundTrip(body: string)
    requires |body| == 6 && forall k :: 0 <= k < 6 ==> IsHexDigit(body[k])
    ensures RgbToHex(ByteAt(body, 0), ByteAt(body, 2), ByteAt(body, 4)) == "#" + ToLowerAscii(body)
  {
    var r, g, b := ByteAt(body, 0), ByteAt(body, 2), ByteAt(body, 4);
    PairAt(body, 0);
    PairAt(body, 2);
    PairAt(body, 4);
    assert RgbToHex(r, g, b) == "#" + (ToHex(r) + ToHex(g) + ToHex(b));
    LowerPairs(body);
  }

  /** The digit pair at `k`, read and written back, in lower case. */
  lemma PairAt(body: string, k: nat)
    requires k + 1 < |body| && IsHexDigit(body[k]) && IsHexDigit(body[k + 1])
    ensures ToHex(ByteAt(body, k)) == [LowerDigit(body[k]), LowerDigit(body[k + 1])]
  {
    PairRoundTrip(body[k], body[k + 1]);
  }

  lemma LowerPairs(body: string)
    requires |body| == 6
    ensures ToLowerAscii(body) == [LowerDigit(body[0]), LowerDigit(body[1])]
      + [LowerDigit(body[2]), LowerDigit(body[3])] + [LowerDigit(body[4]), LowerDigit(body[5])]
  {
    var l := ToLowerAscii(body);
    assert l[0] == LowerDigit(body[0]);
    assert l[1] == LowerDigit(body[1]);
    assert l[2] == LowerDigit(body[2]);
    assert l[3] == LowerDigit(body[3]);
    assert l[4] == LowerDigit(body[4]);
    assert l[5] == LowerDigit(body[5]);
    SixChars(l);
  }

  /** A six-character string is its three pairs. */
  lemma SixChars(l: string)
    requires |l| == 6
    ensures l == [l[0], l[1]] + [l[2], l[3]] + [l[4], l[5]]
  {
  }

  /** One channel: reading two digits and writing them back lower-cases them. */
  lemma PairRoundTrip(x: char, y: char)
    requires IsHexDigit(x) && IsHexDigit(y)
    ensures ToHex(HexValue(x) * 16 + HexValue(y)) == [LowerDigit(x), LowerDigit(y)]
  {
    var s := ToHex(HexValue(x) * 16 + HexValue(y));
    SameValue(s[0], s[1], x, y);
    SameDigit(s[0], x);
    SameDigit(s[1], y);
  }

  /** Two digit pairs with the same value have digits of the same values. */
  lemma SameValue(a: char, b: char, c: char, d: char)
    requires IsHexDigit(a) && IsHexDigit(b) && IsHexDigit(c) && IsHexDigit(d)
    requires HexValue(a) * 16 + HexValue(b) == HexValue(c) * 16 + HexValue(d)
    ensures HexValue(a) == HexValue(c) && HexValue(b) == HexValue(d)
  {
  }

  /** A lower-case digit with the value of a digit is that digit in lower case. */
  lemma SameDigit(written: char, read: char)
    requires IsHexDigit(written) && !('A' <= written <= 'F') && IsHexDigit(read)
    requires HexValue(written) == HexValue(read)
    ensures written == LowerDigit(read)
  {
  }

  // Palettes

  /** `PaletteStep`. */
  datatype PaletteStep = PaletteStep(name: string, lightness: int, hex: string)

  /**
   * The colour of one step before `rgbToHex`: its OKLCH colour (target
   * lightness, reduced chroma, shifted hue) converted to sRGB, each channel
   * scaled by 255 and rounded. It depends on the configuration and the
   * step's index and lightness.
   */
  type Shade = (nat, int) -> (int, int, int)

  /** `oklchToHex`: the shade's channels written by `rgbToHex`. */
  function ShadeHex(shade: Shade, index: nat, lightness: int): (hex: string)
    ensures IsHexColor(hex) && |hex| == 7 && hex[0] == '#'
  {
    var c := shade(index, lightness);
    RgbToHex(c.0, c.1, c.2)
  }

  /**
   * The sixteen steps in order, each with its target lightness and the
   * hex colour of its shade for the step's index and that lightness.
   */
  predicate IsGenerated(steps: seq<PaletteStep>, shade: Shade)
  {
    |steps| == 16 && forall i :: 0 <= i < 16 ==>
      steps[i] == PaletteStep(OrbitSteps[i], LightnessMap[i].1, ShadeHex(shade, i, LightnessMap[i].1))
  }

  /**
   * `generatePalette(config)`: the sixteen steps in order, each with its
   * target lightness and the hex colour of its shade (the OKLCH hue shift,
   * chroma and conversion, which depend on the configuration), so every
   * step's colour is a `#rrggbb` string. An invalid base colour throws
   * before any step.
   */
  method GeneratePalette(baseColor: string, shade: Shade) returns (r: Result<seq<PaletteStep>>)
    ensures r.Err? <==> !IsHexColor(baseColor)
    ensures r.Err? ==> r.error == "Invalid hex color: " + baseColor
    ensures r.Ok? ==> IsGenerated(r.value, shade)
    ensures r.Ok? ==> forall i :: 0 <= i < |r.value| ==> IsHexColor(r.value[i].hex)
  {
    var base := HexToRgb(baseColor);
    if base.Err? {
      return Err(base.error);
    }
    LightnessTable();
    StepsDistinct();
    var steps := ShadeSteps(OrbitSteps, LightnessMap, (index: nat, lightness: int) => ShadeHex(shade, index, lightness));
    r := Ok(steps);
  }

  /**
   * The loop of `generatePalette`, over the step names and the lightness
   * table it reads: one step per name, in order, with the lightness the
   * table gives that name and the colour `hexOf` gives for the step's index
   * and lightness.
   */
  method ShadeSteps(names: seq<string>, table: seq<(string, int)>, hexOf: (nat, int) -> string)
    returns (steps: seq<PaletteStep>)
    requires |table| == |names| && forall i :: 0 <= i < |names| ==> table[i].0 == names[i]
    requires forall i, j :: 0 <= i < j < |names| ==> names[i] != names[j]
    ensures |steps| == |names|
    ensures forall i :: 0 <= i < |names| ==> steps[i] == PaletteStep(names[i], table[i].1, hexOf(i, table[i].1))
  {
    steps := [];
    var index := 0;
    while index < |names|
      invariant 0 <= index <= |names| && |steps| == index
      invariant forall i :: 0 <= i < index ==> steps[i] == PaletteStep(names[i], table[i].1, hexOf(i, table[i].1))
    {
      var stepName := names[index];
      LookUpDistinct(table, index);
      var targetLightness := LookUp(table, stepName).value;
      steps := steps + [PaletteStep(stepName, targetLightness, hexOf(index, targetLightness))];
      index := index + 1;
    }
  }

  /** A generated palette lightens nothing: each step is strictly darker than the one before. */
  lemma GeneratedDarkens(steps: seq<PaletteStep>, shade: Shade, i: int, j: int)
    requires IsGenerated(steps, shade)
    requires 0 <= i < j < 16
    ensures steps[i].lightness > steps[j].lightness
  {
    LightnessTable();
  }

  /** `{ $value: hex, $type: 'color' }`. */
  function ColorToken(hex: string): Json
  {
    Obj([("$value", Str(hex)), ("$type", Str("color"))])
  }

  /** The record `paletteToTokens` fills, after the first `n` steps. */
  function TokensOf(steps: seq<PaletteStep>): seq<Field>
  {
    if |steps| == 0 then []
    else
      var last := steps[|steps| - 1];
      Set(TokensOf(steps[..|steps| - 1]), last.name, ColorToken(last.hex))
  }

  /** The record has a token exactly for the names of the steps. */
  lemma {:induction false} TokenNames(steps: seq<PaletteStep>, k: string)
    ensures Get(TokensOf(steps), k).Some? <==> exists i :: 0 <= i < |steps| && steps[i].name == k
  {
    if |steps| > 0 {
      var n := |steps| - 1;
      var front, last := TokensOf(steps[..n]), steps[n];
      TokenNames(steps[..n], k);
      SetHas(front, last.name, ColorToken(last.hex), k);
      NamedSplit(steps, steps[..n], k);
    }
  }

  /** A name occurs among the steps iff it is the last step's or occurs before it. */
  lemma NamedSplit(steps: seq<PaletteStep>, front: seq<PaletteStep>, k: string)
    requires |steps| > 0 && front == steps[..|steps| - 1]
    ensures (exists i :: 0 <= i < |steps| && steps[i].name == k)
      <==> steps[|steps| - 1].name == k || exists i :: 0 <= i < |front| && front[i].name == k
  {
    var n := |front|;
    if exists i :: 0 <= i < |steps| && steps[i].name == k {
      var i :| 0 <= i < |steps| && steps[i].name == k;
      if i < n {
        assert front[i].name == k;
      }
    }
    if exists i :: 0 <= i < n && front[i].name == k {
      var i :| 0 <= i < n && front[i].name == k;
      assert steps[i].name == k;
    }
  }

  /** A write adds its key and keeps every other key present or absent. */
  lemma SetHas(fs: seq<Field>, k: string, v: Json, k': string)
    ensures Get(Set(fs, k, v), k').Some? <==> k' == k || Get(fs, k').Some?
  {
  }

  /** The token of the last step named `k`, if any: the reference reading of the record. */
  function LastToken(steps: seq<PaletteStep>, k: string): Option<Json>
  {
    if |steps| == 0 then None
    else if steps[|steps| - 1].name == k then Some(ColorToken(steps[|steps| - 1].hex))
    else LastToken(steps[..|steps| - 1], k)
  }

  /** Each name holds the token of the last step with that name. */
  lemma {:induction false} TokensOfLastToken(steps: seq<PaletteStep>, k: string)
    ensures Get(TokensOf(steps), k) == LastToken(steps, k)
  {
    if |steps| > 0 {
      var n := |steps| - 1;
      TokensOfLastToken(steps[..n], k);
      if steps[n].name == k {
        SetSame(TokensOf(steps[..n]), k, ColorToken(steps[n].hex));
      } else {
        SetOther(TokensOf(steps[..n]), steps[n].name, ColorToken(steps[n].hex), k);
      }
    }
  }

  /** A step that no later step renames is the last step with its name. */
  lemma {:induction false} LastStepWins(steps: seq<PaletteStep>, i: nat)
    requires i < |steps| && forall j :: i < j < |steps| ==> steps[j].name != steps[i].name
    ensures LastToken(steps, steps[i].name) == Some(ColorToken(steps[i].hex))
  {
    var n := |steps| - 1;
    if i < n {
      var before := steps[..n];
      assert before[i] == steps[i];
      assert forall j :: i < j < |before| ==> before[j].name != before[i].name by {
        assert forall j :: i < j < n ==> before[j] == steps[j];
      }
      LastStepWins(before, i);
    }
  }

  /** A write stores its value. */
  lemma SetSame(fs: seq<Field>, k: string, v: Json)
    ensures Get(Set(fs, k, v), k) == Some(v)
  {
  }

  /** A write leaves the other keys' values. */
  lemma SetOther(fs: seq<Field>, k: string, v: Json, k': string)
    requires k' != k
    ensures Get(Set(fs, k, v), k') == Get(fs, k')
  {
  }

  /**
   * `paletteToTokens(steps)`: each step's name maps to a colour token with
   * its hex; a later step of the same name overwrites an earlier one.
   */
  method PaletteToTokens(steps: seq<PaletteStep>) returns (tokens: Json)
    ensures tokens == Obj(TokensOf(steps))
  {
    var fields: seq<Field> := [];
    var i := 0;
    while i < |steps|
      invariant 0 <= i <= |steps|
      invariant fields == TokensOf(steps[..i])
    {
      assert steps[..i + 1][..i] == steps[..i];
      fields := Set(fields, steps[i].name, ColorToken(steps[i].hex));
      i := i + 1;
    }
    assert steps[..i] == steps;
    tokens := Obj(fields);
  }

  /** Steps named by distinct `names` give one token each, in step order. */
  lemma {:induction false} TokensInOrder(steps: seq<PaletteStep>, names: seq<string>)
    requires |steps| == |names| && forall i :: 0 <= i < |steps| ==> steps[i].name == names[i]
    requires forall i, j :: 0 <= i < j < |names| ==> names[i] != names[j]
    ensures Keys(TokensOf(steps)) == names
  {
    if |steps| > 0 {
      var n := |steps| - 1;
      var front, before := steps[..n], names[..n];
      assert forall i :: 0 <= i < |front| ==> front[i].name == before[i];
      assert forall i, j :: 0 <= i < j < |before| ==> before[i] != before[j];
      TokensInOrder(front, before);
      assert names[n] !in before by {
        assert forall j :: 0 <= j < n ==> before[j] == names[j] != names[n];
      }
      assert TokensOf(steps) == Set(TokensOf(front), names[n], ColorToken(steps[n].hex));
      SetKeys(TokensOf(front), names[n], ColorToken(steps[n].hex));
      LastSplit(names);
    }
  }

  /** A non-empty list is its front followed by its last element. */
  lemma LastSplit(s: seq<string>)
    requires |s| > 0
    ensures s == s[..|s| - 1] + [s[|s| - 1]]
  {
  }

  /** With distinct names, every step's token holds its own colour. */
  lemma TokensHoldColors(steps: seq<PaletteStep>, names: seq<string>)
    requires |steps| == |names| && forall i :: 0 <= i < |steps| ==> steps[i].name == names[i]
    requires forall i, j :: 0 <= i < j < |names| ==> names[i] != names[j]
    ensures forall i :: 0 <= i < |steps| ==> Get(TokensOf(steps), names[i]) == Some(ColorToken(steps[i].hex))
  {
    forall i | 0 <= i < |steps|
      ensures Get(TokensOf(steps), names[i]) == Some(ColorToken(steps[i].hex))
    {
      assert forall j :: i < j < |steps| ==> steps[j].name != steps[i].name;
      LastStepWins(steps, i);
      TokensOfLastToken(steps, names[i]);
    }
  }

  /** A generated palette is stored as sixteen colour tokens named by the steps, in order. */
  lemma GeneratedTokens(steps: seq<PaletteStep>, shade: Shade)
    requires IsGenerated(steps, shade)
    ensures Keys(TokensOf(steps)) == OrbitSteps
    ensures forall k :: 0 <= k < 16 ==> Get(TokensOf(steps), OrbitSteps[k]) == Some(ColorToken(steps[k].hex))
  {
    StepsDistinct();
    TokensInOrder(steps, OrbitSteps);
    TokensHoldColors(steps, OrbitSteps);
  }

  // Family names

  const NameRequired: string := "Name is required"
  const NameFormat: string := "Name must start with a letter and contain only letters and numbers"
  const NameTaken: string := "A color family with this name already exists"
  const NameReserved: string := "Cannot use \"neutral\" as a family name"

  predicate IsAsciiLetter(c: char)
  {
    'a' <= c <= 'z' || 'A' <= c <= 'Z'
  }

  /** `/^[a-z][a-z0-9]*$/i` matches. */
  predicate IsFamilyNameFormat(name: string)
  {
    |name| >= 1 && IsAsciiLetter(name[0])
    && forall k :: 1 <= k < |name| ==> IsAsciiLetter(name[k]) || IsDigit(name[k])
  }

  /**
   * `validateFamilyName(name, existingFamilies)`: the message of the first
   * check that fails, in the order required, format, taken, reserved; `None`
   * when the name passes them all. A name of the right format is ASCII, so
   * `toLowerCase` is ASCII lower-casing there.
   */
  function ValidateFamilyName(name: string, existingFamilies: seq<string>): (r: Option<string>)
    ensures r == Some(NameRequired) <==> IsBlank(name)
    ensures r == Some(NameFormat) <==> !IsBlank(name) && !IsFamilyNameFormat(name)
    ensures r == Some(NameTaken) <==> IsFamilyNameFormat(name) && ToLowerAscii(name) in existingFamilies
    ensures r == Some(NameReserved) <==>
      IsFamilyNameFormat(name) && ToLowerAscii(name) !in existingFamilies && ToLowerAscii(name) == "neutral"
    ensures r.None? <==>
      !IsBlank(name) && IsFamilyNameFormat(name) && ToLowerAscii(name) !in existingFamilies && ToLowerAscii(name) != "neutral"
  {
    MessagesDiffer();
    FormatNotBlank(name);
    if IsBlank(name) then Some(NameRequired)
    else if !IsFamilyNameFormat(name) then Some(NameFormat)
    else if ToLowerAscii(name) in existingFamilies then Some(NameTaken)
    else if ToLowerAscii(name) == "neutral" then Some(NameReserved)
    else None
  }

  /** The four messages differ, so the message names the failed check. */
  lemma MessagesDiffer()
    ensures NameRequired != NameFormat && NameRequired != NameTaken && NameRequired != NameReserved
    ensures NameFormat != NameTaken && NameFormat != NameReserved && NameTaken != NameReserved
  {
    assert |NameRequired| < |NameReserved| < |NameTaken| < |NameFormat|;
  }

  /** A name of the right format is never blank, so the first check only catches blank names. */
  lemma FormatNotBlank(name: string)
    ensures IsFamilyNameFormat(name) ==> !IsBlank(name)
  {
    if IsFamilyNameFormat(name) {
      assert !IsJsWhitespace(name[0]);
    }
  }

  /** An accepted name is new and not reserved in any letter case. */
  lemma AcceptedNames(name: string, existingFamilies: seq<string>)
    requires ValidateFamilyName(name, existingFamilies).None?
    ensures forall f :: f in existingFamilies ==> ToLowerAscii(name) != f
    ensures ToLowerAscii(name) != "neutral" && |name| >= 1 && IsAsciiLetter(name[0])
  {
  }

  // Defaults

  /** The base colour of `getDefaultPaletteConfig()`. */
  const DefaultBaseColor: string := "#0072ef"

  /** The default base colour is a valid colour, so the default palette generates. */
  lemma DefaultColorValid()
    ensures HexToRgb(DefaultBaseColor) == Ok((0x00, 0x72, 0xef))
  {
    assert HexBody(DefaultBaseColor) == "0072ef";
  }
}
