# ThemeBuilder token core in Dafny

ThemeBuilder edits design-token documents in the W3C design-token style.
- A document has a `global` section of primitive tokens: colour families with numbered steps, spacing, radius and typography.
- It also has a `semantic` section. There a token's `$value` is either one value or a multi-brand map from brand name to value.
- Values may be aliases such as `{colors.orange.70}`, which point at another token by its dotted path.

This project models the part of ThemeBuilder that computes on such documents:

- **Alias resolver** (`TokenResolver`, `AliasSuggestions`). Modelled operations:
  - alias syntax;
  - path lookup;
  - depth-bounded alias resolution, which tries `global` before `semantic`;
  - alias validity;
  - the three autocomplete enumerations: global colours, semantic brand colours, and global tokens by type.
- **Brand-variant derivation** (`ColorVariants`). Modelled operations:
  - snapping to the 16-step colour lattice;
  - the primary, secondary and accent offset tables;
  - alias creation;
  - colour lookups;
  - the listing of colour families and of their steps.
- **Document transforms**:
  - `TokenFlattener`: the editor table rows and their grouping, brand discovery, a single value update, and adding or removing a brand;
  - `ExportFormat`: the single-brand semantic export, its file name, and merging such an export back in;
  - `ThemeExporter`: the complete and per-brand W3C exports, text-style property filtering, export routing and option validation.
- **Palette tables and validators** (`Palette`). Modelled parts:
  - the 16-step lightness table and the shape of a generated palette;
  - the hex parser and hex writer on integer channels;
  - conversion of palette steps to tokens;
  - validation of a colour-family name.
- **T-shirt size ordering** (`TShirtSizes`): the comparator and its size list.
- **The editor store** (`Store.ThemeStore`): a class whose fields are the store's state (tokens, selected brand, flattened rows, unsaved flag, JSON-editor error, sidebar view). Its methods are the document-editing actions, proved against the pure document functions beside them.

How the model represents the source:
- **JSON documents** are the datatype `JsonTree.Json`.
- **Objects** are ordered lists of fields:
  - a lookup takes the first field with the key;
  - an assignment replaces that field in place or appends a new one. This is JavaScript's key order for string keys, but not for integer-like keys (see `JsonTree.Set` under "## Left out");
  - `delete` drops the key.
- **JavaScript truthiness** is `JsonTree.Truthy`.
- **Exceptions**, such as a `TypeError` from the `in` operator on a string, become the `Err` case of `Wrappers.Result`.
- **Loops and recursive walks that push onto a list** become methods. Each is proved equal to a recursive specification function, and the properties are proved about that function.

## Verifying

All `.dfy` files form one project, verified together with Dafny 4.11:

```
dafny verify --resource-limit 2000000 --verification-time-limit 0 --warn-contradictory-assumptions *.dfy
```

## Model

| member | source | states |
|---|---|---|
| TokenResolver.IsAlias | src/utils/tokenResolver.ts:7-9 | `isAlias`: a string that starts with `{` and ends with `}`; `AliasRoundTrip` shows every braced path is one |
| TokenResolver.ExtractAliasPath | src/utils/tokenResolver.ts:7-18 | for an alias (starts with `{` and ends with `}`) the result is exactly the text between the braces; any other string is returned unchanged |
| TokenResolver.AliasRoundTrip | src/utils/tokenResolver.ts:7-18 | wrapping any path in braces gives an alias, and extracting from that alias gives back the path |
| TokenResolver.GetValueByPath | src/utils/tokenResolver.ts:23-34 | the segment loop ends at the value reached by descending one key per dot-separated segment, and at nothing as soon as a level is missing or not an object |
| TokenResolver.Resolve | src/utils/tokenResolver.ts:45-93 | `resolveTokenValue` as the dereference chain `Follow`; its outcomes are stated by `ResolveCases`, `FollowIsChainEnd`, `FollowMoreBudget` and `CycleExhaustsBudget` |
| TokenResolver.ResolveCases | src/utils/tokenResolver.ts:45-93 | covers each case of resolution: <br>• a depth of 0 or less, or a non-alias, returns its input; <br>• a `global` hit with `$value` is consulted first and resolves that `$value` with depth − 1; <br>• otherwise a semantic token resolves its brand's entry or its plain-string `$value` with depth − 1; <br>• an alias found in neither place comes back unchanged; <br>• so does an alias whose semantic token has a `$value` that is neither a map holding the brand nor a string (a map without the brand, `null`, a number) |
| TokenResolver.FollowIsChainEnd | src/utils/tokenResolver.ts:45-93 | resolution terminates: the result is the value reached after k ≤ maxDepth dereferencing steps, and if k < maxDepth it cannot be dereferenced further |
| TokenResolver.FollowMoreBudget | src/utils/tokenResolver.ts:51-54 | once resolution reaches a value that cannot be dereferenced, any larger depth gives the same result |
| TokenResolver.InvalidAliasUnresolved | src/utils/tokenResolver.ts:187-205 | an alias that dereferences through `global` or `semantic` is valid, and an alias that is not valid resolves to itself at every depth |
| TokenResolver.IsValidAlias | src/utils/tokenResolver.ts:187-205 | `isValidAlias`: an alias whose path reaches an object with `$value` under `global` or `semantic`; `InvalidAliasUnresolved` relates it to resolution |
| TokenResolver.DerefGlobalHit | src/utils/tokenResolver.ts:64-69 | when the path reaches a `global` object holding `$value`, one dereferencing step yields that `$value` |
| TokenResolver.FollowTwoCycle | src/utils/tokenResolver.ts:51-54 | two aliases that point at each other alternate with the parity of the depth, so a cycle stops when the depth runs out |
| TokenResolver.CycleExhaustsBudget | src/utils/tokenResolver.ts:51-54 | on a document where `{a}` → `{b}` → `{a}`, resolution with depth n returns `{a}` or `{b}` according to the parity of n |
| AliasSuggestions.FirstNonEmpty | src/utils/tokenResolver.ts:118 | the category-or-key accumulation: empty iff every key on the path is empty, otherwise the first non-empty key |
| AliasSuggestions.SuggestionsAppend | src/utils/tokenResolver.ts:101-121 | the suggestions for two runs of leaves are the first run's followed by the second's (push order is kept) |
| AliasSuggestions.SuggestionFromLeaf | src/utils/tokenResolver.ts:101-121 | every suggestion comes from some token leaf of the walked tree |
| AliasSuggestions.LeafSuggested | src/utils/tokenResolver.ts:101-121 | every leaf whose token passes the filter has its suggestion in the list |
| AliasSuggestions.Traverse | src/utils/tokenResolver.ts:101-121 | the recursive walk returns exactly the suggestions for the object's token leaves, in key order |
| AliasSuggestions.VisitMember | src/utils/tokenResolver.ts:104-120 | one member contributes exactly the suggestions for its own token leaves |
| AliasSuggestions.DescendKeys | src/utils/tokenResolver.ts:105-118 | the path and category handed to a child agree with the dotted path and first non-empty key of the extended key list |
| AliasSuggestions.PushToken | src/utils/tokenResolver.ts:107-116 | a token is pushed exactly when the filter admits it, with the suggestion its leaf defines |
| AliasSuggestions.GetGlobalAliases | src/utils/tokenResolver.ts:98-126 | the result is the list of suggestions for all token leaves of `global` |
| AliasSuggestions.GetSemanticAliases | src/utils/tokenResolver.ts:131-169 | the result is the list of suggestions for the token leaves of `semantic.brand` under the given brand |
| AliasSuggestions.GetAllAliases | src/utils/tokenResolver.ts:174-182 | global suggestions followed by semantic brand suggestions |
| AliasSuggestions.CategoriesFor | src/utils/tokenResolver.ts:210-215 | every token type maps to at least one category, and every category is one of `colors`, `spacing` or `radius` |
| AliasSuggestions.VisitCategory | src/utils/tokenResolver.ts:231-253 | walking one category yields the suggestions for that category's token leaves, tagged with the category |
| AliasSuggestions.GetGlobalAliasesByType | src/utils/tokenResolver.ts:224-264 | the result is the per-category suggestions for the type's categories, in table order |
| AliasSuggestions.GetAllAliasesByType | src/utils/tokenResolver.ts:269-282 | for `color`, the typed global suggestions followed by the semantic brand ones; for any other type, the typed global suggestions only |
| AliasSuggestions.PlainPath | src/utils/tokenResolver.ts:105 | a path built from dot-free keys is their dot-join, and splitting it on `.` gives the keys back |
| AliasSuggestions.GlobalSuggestFields | src/utils/tokenResolver.ts:107-116 | a global suggestion comes from a colour token and carries `{path}`, the token's `$value`, the path and the group's first non-empty key |
| AliasSuggestions.GlobalLeafSound | src/utils/tokenResolver.ts:101-121 | a suggestion built from a global colour leaf describes that leaf: <br>• its alias is `{path}`; <br>• the path leads back to the token; <br>• `resolvedValue` is the token's `$value`; <br>• the alias is valid and resolves to what `resolvedValue` resolves to |
| AliasSuggestions.GlobalAliasSound | src/utils/tokenResolver.ts:98-126 | every global suggestion satisfies: <br>• its alias is `{path}`; <br>• the path reaches a colour token whose `$value` is `resolvedValue`; <br>• its category is the first path segment when the path has more than one; <br>• the alias is valid and resolves to what `resolvedValue` resolves to |
| AliasSuggestions.GlobalAliasComplete | src/utils/tokenResolver.ts:107-116 | every `$type: color` token under `global` is suggested under its path |
| AliasSuggestions.SemanticSuggestFields | src/utils/tokenResolver.ts:143-157 | a semantic suggestion comes from a colour token whose map has a truthy entry for the brand, and its `resolvedValue` is that entry resolved |
| AliasSuggestions.SemanticLeafSound | src/utils/tokenResolver.ts:137-166 | a suggestion built from a leaf under `semantic.brand` has: <br>• category `brand`; <br>• a path starting `brand.` that leads back to the token; <br>• a valid alias |
| AliasSuggestions.SemanticAliasSound | src/utils/tokenResolver.ts:131-169 | every semantic suggestion satisfies: <br>• its alias is `{path}` with category `brand`; <br>• the path reaches a colour token whose brand entry is truthy; <br>• `resolvedValue` is that entry resolved; <br>• the alias is valid |
| AliasSuggestions.CategoryOfSuggestion | src/utils/tokenResolver.ts:256-261 | every by-type suggestion comes from the walk of one of the type's categories |
| AliasSuggestions.CategorySuggestFields | src/utils/tokenResolver.ts:237-248 | a by-type suggestion carries `{path}`, the token's value rendered as text (a number gets `px` for spacing), the path and the root category |
| AliasSuggestions.CategoryLeafSound | src/utils/tokenResolver.ts:231-253 | a suggestion from a category leaf has a path starting with its category, a path that leads back to the token, and a valid alias |
| AliasSuggestions.TypeAliasSound | src/utils/tokenResolver.ts:224-264 | every by-type suggestion satisfies: <br>• its category is one of the type's categories, and the path starts with it; <br>• the path reaches a token whose rendered value is `resolvedValue`; <br>• the alias is valid |
| Text.Split | src/utils/tokenResolver.ts:24 | `split('.')` yields at least one part, and no part contains the separator |
| Text.JoinSplit | src/utils/tokenResolver.ts:24 | joining the parts of a split with the separator restores the string |
| Text.SplitJoin | src/utils/tokenResolver.ts:24 | splitting a join of separator-free parts restores the parts |
| Text.DotPathIsJoin | src/utils/tokenFlattener.ts:23 | the `path ? path + '.' + key : key` accumulation is the dot-join of the keys when the first key is non-empty |
| Text.ParseIntToString | src/utils/colorVariantGenerator.ts:139 | `parseInt` reads back every integer written by `String`, negative ones included |
| Text.ToLowerAscii | src/utils/paletteGenerator.ts:255 | lower-casing keeps the length and maps exactly `A`–`Z` to `a`–`z` |
| Text.Compare | src/utils/colorVariantGenerator.ts:161 | the string order used for `localeCompare` returns −1, 0 or 1, and 0 exactly for equal strings |
| Text.CompareAntisymmetric | src/utils/colorVariantGenerator.ts:161 | swapping the arguments negates the comparison |
| Text.CompareTransitive | src/utils/colorVariantGenerator.ts:161 | the string order is transitive |
| Sorting.SortBy | src/utils/colorVariantGenerator.ts:150 | `Array.prototype.sort` with a comparator returns a permutation of its input, sorted whenever the comparator is antisymmetric |
| Sorting.InsertBySorted | src/utils/colorVariantGenerator.ts:161 | inserting into a sorted list under an antisymmetric comparator keeps it sorted |
| Sorting.SortByMembers | src/utils/colorVariantGenerator.ts:150 | sorting keeps exactly the elements it was given |
| JsonTree.Get | src/utils/tokenResolver.ts:29 | a property read finds a value iff the key is present, and that value is stored under the key |
| JsonTree.Set | src/store/themeStore.ts:497 | a property assignment stores the value under its key and leaves every other key's value alone |
| JsonTree.Remove | src/store/themeStore.ts:509 | `delete` removes exactly that key and leaves the other keys, their order and their values |
| JsonTree.SetInFrame | src/utils/tokenFlattener.ts:151 | a nested assignment leaves every path that branches off from the written path unchanged |
| JsonTree.SetInReads | src/utils/tokenFlattener.ts:151 | after a nested assignment, reading the written path gives the written value |
| ColorVariants.FindNearestStep | src/utils/colorVariantGenerator.ts:40-44 | `findNearestStep` as the strict-less reduce over the lattice; `NearestStepIsClosest`, `NearestOfStep` and `NearestMonotone` state its result |
| ColorVariants.NearestStepIsClosest | src/utils/colorVariantGenerator.ts:12-44 | `findNearestStep` returns a lattice step at minimal distance from the target, and the smallest such step on a tie |
| ColorVariants.NearestOfStep | src/utils/colorVariantGenerator.ts:40-44 | a target on the lattice snaps to itself |
| ColorVariants.NearestMonotone | src/utils/colorVariantGenerator.ts:40-44 | snapping is monotone in the target |
| ColorVariants.NearestTieExample | src/utils/colorVariantGenerator.ts:41-43 | target 150, equidistant from 100 and 200, gives 100 |
| ColorVariants.CalculateVariantStep | src/utils/colorVariantGenerator.ts:50-56 | `calculateVariantStep`: snap the clamped offset step; `VariantStepInLattice`, `VariantStepMonotone` and `VariantStepAnchor` state its result |
| ColorVariants.VariantStepInLattice | src/utils/colorVariantGenerator.ts:50-56 | every variant step is a lattice step |
| ColorVariants.VariantStepMonotone | src/utils/colorVariantGenerator.ts:50-56 | a larger offset never gives a smaller step |
| ColorVariants.VariantStepAnchor | src/utils/colorVariantGenerator.ts:50-56 | offset 0 from a lattice step is that step |
| ColorVariants.VariantStepExamples | src/utils/colorVariantGenerator.ts:50-56 | (70, −75) clamps to 5 and (70, +330) snaps to 400 |
| ColorVariants.CreateAlias | src/utils/colorVariantGenerator.ts:61-63 | `createAlias`; `CreateAliasNamesStep` states its shape and read-back |
| ColorVariants.CreateAliasNamesStep | src/utils/colorVariantGenerator.ts:61-63 | the alias for a dot-free family names `colors`, the family and the step, and the step reads back with `parseInt` |
| ColorVariants.GeneratePrimaryVariants | src/utils/colorVariantGenerator.ts:68-77 | `generatePrimaryVariants`; `PrimaryVariantsFacts` and `PrimaryExample` state its roles |
| ColorVariants.PrimaryVariantsFacts | src/utils/colorVariantGenerator.ts:68-77 | each of the five primary roles names the selection's family at the step for its offset, and the steps for soft, light and faded never decrease in that order |
| ColorVariants.GenerateSecondaryVariants | src/utils/colorVariantGenerator.ts:82-90 | `generateSecondaryVariants`; `SecondaryVariantsFacts` states its roles |
| ColorVariants.SecondaryVariantsFacts | src/utils/colorVariantGenerator.ts:82-90 | each of the four secondary roles names the selection's family at the step for its offset, and soft ≤ light |
| ColorVariants.GenerateAccentVariants | src/utils/colorVariantGenerator.ts:95-103 | `generateAccentVariants`; `AccentVariantsFacts` states its roles |
| ColorVariants.AccentVariantsFacts | src/utils/colorVariantGenerator.ts:95-103 | each of the four accent roles names the selection's family at the step for its offset, and soft ≤ light |
| ColorVariants.GenerateAllBrandColors | src/utils/colorVariantGenerator.ts:108-118 | `generateAllBrandColors`: the three role sets; `BrandColorsAnchored` states their anchoring |
| ColorVariants.BrandColorsAnchored | src/utils/colorVariantGenerator.ts:108-118 | for selections on the lattice, each `main` role is the alias of the selection itself |
| ColorVariants.PrimaryExample | src/utils/colorVariantGenerator.ts:68-77 | orange 70 gives main 70, soft 5, light 20, dark 400 and faded 30 |
| ColorVariants.GetColorValue | src/utils/colorVariantGenerator.ts:169-180 | `getColorValue` under the key `String(step)`; `ColorValueOfEntry`, `ColorValueThrows` and `ColorValueByPath` state its result |
| ColorVariants.ColorValueOfEntry | src/utils/colorVariantGenerator.ts:169-180 | the colour lookup gives: <br>• nothing for a missing or falsy step entry, or a missing or falsy `$value`; <br>• a `TypeError` for a truthy step entry that is not an object; <br>• otherwise the `$value` |
| ColorVariants.ColorValueThrows | src/utils/colorVariantGenerator.ts:176-177 | the lookup throws exactly when the step entry is truthy but not an object |
| ColorVariants.ColorValueByPath | src/utils/colorVariantGenerator.ts:169-180 | a value is found iff `global.colors.<family>.<step>.$value` exists and is truthy, and it is that value |
| ColorVariants.StepEntryByPath | src/utils/colorVariantGenerator.ts:170-176 | the guarded descent through `colors` and the family equals the plain path walk |
| ColorVariants.IsValidColorSelection | src/utils/colorVariantGenerator.ts:206-213 | `isValidColorSelection`; `ValidSelectionByPath` states when it holds and when it throws |
| ColorVariants.ValidSelectionByPath | src/utils/colorVariantGenerator.ts:206-213 | a selection is valid iff the family is non-empty, the step is not 0, and the step's `$value` exists and is truthy; it throws exactly when the lookup throws |
| ColorVariants.GetFamilySteps | src/utils/colorVariantGenerator.ts:185-201 | the loop computes the family's step list |
| ColorVariants.FamilyStepsMembers | src/utils/colorVariantGenerator.ts:185-201 | the steps come out ascending, and a number is among them iff some key of the family object parses to it |
| ColorVariants.CollectSteps | src/utils/colorVariantGenerator.ts:138-147 | the inner loop collects the numeric step keys that hold `$value`, in key order, and the sample colour |
| ColorVariants.ExtractColorFamilies | src/utils/colorVariantGenerator.ts:124-164 | the loop computes the sorted family list |
| ColorVariants.SampleColorStep | src/utils/colorVariantGenerator.ts:143-145 | one step of the loop replaces the sample exactly for a step-70 or step-80 entry, or while the sample is still empty |
| ColorVariants.SampleIsLastAnchor | src/utils/colorVariantGenerator.ts:143-145 | the sample is the last step-70/80 entry whose value is truthy and after which no step-70/80 entry follows |
| ColorVariants.SampleIsFirstTruthy | src/utils/colorVariantGenerator.ts:143-145 | without a step-70/80 entry, the sample is the first truthy step value |
| ColorVariants.SampleFalsy | src/utils/colorVariantGenerator.ts:136-145 | when no step value is truthy, the sample stays falsy |
| ColorVariants.FamilyOfOffered | src/utils/colorVariantGenerator.ts:132-156 | a family is listed iff it is not `neutral`, is an object and has at least one numeric step entry with `$value` |
| ColorVariants.FamilyOfSteps | src/utils/colorVariantGenerator.ts:149-155 | a listed family has the family's name, ascending steps that are exactly its numeric step keys, and the loop's sample colour |
| ColorVariants.ColorFamiliesFacts | src/utils/colorVariantGenerator.ts:124-164 | a family is in the result iff it comes from an entry of `global.colors` |
| ColorVariants.ColorFamiliesSorted | src/utils/colorVariantGenerator.ts:161 | families come out in name order |
| ColorVariants.NameOrderAntisymmetric | src/utils/colorVariantGenerator.ts:161 | the family comparator is antisymmetric, so the sort result is ordered |
| TokenFlattener.FlattenSemanticTokens | src/utils/tokenFlattener.ts:7-69 | the walk returns the rows of the semantic tree for the brand, in traversal order |
| TokenFlattener.Traverse | src/utils/tokenFlattener.ts:13-64 | the recursive walk returns exactly the rows of the object's token leaves |
| TokenFlattener.VisitMember | src/utils/tokenFlattener.ts:22-62 | one member contributes exactly the rows of its own token leaves |
| TokenFlattener.FlattenSound | src/utils/tokenFlattener.ts:26-42 | every row comes from a semantic token with an object `$value` holding the brand: <br>• its value is that brand's entry; <br>• its path and full path are those of the token's keys; <br>• its category and subcategory are the token's group |
| TokenFlattener.LeafRowSound | src/utils/tokenFlattener.ts:26-42 | a row built from a semantic leaf describes that leaf |
| TokenFlattener.FlattenComplete | src/utils/tokenFlattener.ts:26-42 | every semantic token whose `$value` map has the brand yields a row carrying that brand's value, its path, full path and type |
| TokenFlattener.FullPathIsSemanticPath | src/utils/tokenFlattener.ts:23-24 | for a non-empty top-level key, the full path is `semantic.` followed by the path |
| TokenFlattener.FullPathEmptyFirstKey | src/utils/tokenFlattener.ts:23-24 | with an empty top-level key, the path drops that segment and the full path keeps it (`semantic..x`) |
| TokenFlattener.GroupOfFacts | src/utils/tokenFlattener.ts:44-61 | the category is fixed by the top-level key (`brand`, `colors`, else `other`), and the subcategory is the second key under `brand` or `colors` |
| TokenFlattener.GroupTokensByCategory | src/utils/tokenFlattener.ts:74-96 | the result is a grouping of the rows: <br>• it has exactly the categories and subcategories that occur among them; <br>• each group is the input rows of that group, in input order |
| TokenFlattener.AddRowKeeps | src/utils/tokenFlattener.ts:79-93 | adding one row keeps the map a grouping of the rows seen so far |
| TokenFlattener.AddRowFacts | src/utils/tokenFlattener.ts:83-92 | adding one row creates its category and subgroup when missing and appends the row to that subgroup only |
| TokenFlattener.PushRow | src/utils/tokenFlattener.ts:80-92 | the loop body applies one row's addition |
| TokenFlattener.SelectMembers | src/utils/tokenFlattener.ts:81 | a row is in a group's list iff it belongs to that category and that subcategory or `general` |
| TokenFlattener.BrandKeysOf | src/utils/tokenFlattener.ts:103-118 | a token offers brands iff it is an object with an object `$value`, and the brands are that map's keys; the `in` test throws exactly for a truthy non-object |
| TokenFlattener.ExtractBrandNames | src/utils/tokenFlattener.ts:101-121 | the result is the keys of `brand.theme.$value`, else of `brand.primary.main.$value`, else empty; it throws where the `in` test throws |
| TokenFlattener.ExtractBrandNamesDistinct | src/utils/tokenFlattener.ts:101-121 | on a document without duplicate keys the brand names are distinct |
| TokenFlattener.UpdateTokenValue | src/utils/tokenFlattener.ts:127-157 | the navigation loop computes the updated document |
| TokenFlattener.UpdateWrites | src/utils/tokenFlattener.ts:146-153 | when the path leads to a token with an object `$value`, the brand entry there holds the new value afterwards |
| TokenFlattener.UpdateFrame | src/utils/tokenFlattener.ts:127-157 | every path that branches off from `semantic.<path>.$value.<brand>` reads the same before and after, `global` included |
| TokenFlattener.UpdateSameValue | src/utils/tokenFlattener.ts:146-153 | writing the value already stored leaves the document unchanged |
| TokenFlattener.AddBrandValue | src/utils/tokenFlattener.ts:177-187 | the new brand gets the source brand's value if the source is given and present, else the first value if truthy; other brands are unchanged |
| TokenFlattener.MapBrands | src/utils/tokenFlattener.ts:173-191 | a token keeps all its keys and values except that its object `$value` map is transformed |
| TokenFlattener.MapMembers | src/utils/tokenFlattener.ts:170-193 | a non-token object keeps its keys in order |
| TokenFlattener.AddBrandToTokens | src/utils/tokenFlattener.ts:163-198 | `addBrandToTokens`; `AddBrandEverywhere` and `RemoveAfterAdd` state its result |
| TokenFlattener.AddBrandEverywhere | src/utils/tokenFlattener.ts:163-198 | every semantic token with a map gains the new brand as `AddBrandValue` says, and every section other than `semantic` is unchanged |
| TokenFlattener.RemoveBrandFromTokens | src/utils/tokenFlattener.ts:203-228 | `removeBrandFromTokens`; `RemoveBrandEverywhere` and `RemoveAfterAdd` state its result |
| TokenFlattener.RemoveBrandEverywhere | src/utils/tokenFlattener.ts:203-228 | every semantic token with a map loses exactly the brand key, and every section other than `semantic` is unchanged |
| TokenFlattener.RemoveAfterAdd | src/utils/tokenFlattener.ts:163-228 | removing a brand that was absent before it was added restores the original document |
| TokenFlattener.MemberRoundTrip | src/utils/tokenFlattener.ts:163-228 | on one value, adding then removing an absent brand is the identity |
| ExportFormat.NarrowToken | src/utils/exportFormat.ts:23-43 | the exported token has exactly `$value` and `$type`, keeps `$type`, and when the map holds the brand, `$value` is the one-key map of that brand |
| ExportFormat.Narrow | src/utils/exportFormat.ts:19-52 | primitives pass through, non-token objects keep their keys, and tokens stay tokens |
| ExportFormat.NarrowAt | src/utils/exportFormat.ts:19-52 | the token at any path of the export is the narrowed token at that path of the input |
| ExportFormat.CreateSemanticBrandExport | src/utils/exportFormat.ts:15-57 | the export has exactly the one key `semantic` when the input has a semantic section |
| ExportFormat.ExportedTokens | src/utils/exportFormat.ts:15-57 | every token of the export is the narrowed token at the same path of the input |
| ExportFormat.ExportFilename | src/utils/exportFormat.ts:62-64 | the name is `semantic-`, then the brand, then `.json` |
| ExportFormat.FilenameInjective | src/utils/exportFormat.ts:62-64 | different brands give different file names |
| ExportFormat.FindBrand | src/utils/exportFormat.ts:94-114 | `findBrandName`; `FindBrandSound`, `FindBrandComplete` and `FindBrandFirst` state its answer |
| ExportFormat.FindBrandSound | src/utils/exportFormat.ts:94-114 | a detected brand is the single key of some token's `$value` map |
| ExportFormat.FindBrandComplete | src/utils/exportFormat.ts:94-114 | detection is complete: a token whose `$value` map has the single non-empty key `brand` anywhere in the tree makes detection find a non-empty brand |
| ExportFormat.FindBrandFirst | src/utils/exportFormat.ts:94-114 | detection finds a non-empty brand exactly when the depth-first, key-ordered list of single `$value` keys (`SingleKeys`) has a non-empty one, and then answers with the first such key |
| ExportFormat.Merge | src/utils/exportFormat.ts:125-160 | `mergeValues` on values; `MergeToken`, `MergeMembers`, `MergeOnlyBrand` and `MergeNarrowed` state its result |
| ExportFormat.MergeToken | src/utils/exportFormat.ts:130-147 | the merge writes only `$value[brand]`, and only when both maps exist and the import has the brand; every other key and brand is unchanged |
| ExportFormat.MergeMembers | src/utils/exportFormat.ts:151-159 | the existing object keeps its keys |
| ExportFormat.MergeSemanticBrandImport | src/utils/exportFormat.ts:87-165 | the brand detection decides the outcome: <br>• without a detected (non-empty) brand the existing tokens come back unchanged with no brand; <br>• with one, the brand is the one detection finds; <br>• every section other than `semantic` is unchanged; <br>• the top-level keys are kept |
| ExportFormat.MergeOnlyBrand | src/utils/exportFormat.ts:125-160 | after removing the brand from both sides, merged and existing trees are equal: the merge touches nothing but that brand |
| ExportFormat.MergeNarrowed | src/utils/exportFormat.ts:125-160 | merging a tree's own narrowed export back leaves it unchanged |
| ExportFormat.DetectNarrowed | src/utils/exportFormat.ts:94-114 | on a narrowed export of a tree whose multi-brand tokens (object `$value`) all carry the brand, with plain-valued tokens allowed anywhere, detection finds the brand iff there is a multi-brand token |
| ExportFormat.MergeOwnExport | src/utils/exportFormat.ts:15-165 | merging a document's own brand export into it yields the document and the brand, for any typed semantic tree that has a multi-brand token and whose multi-brand tokens all carry the brand; plain-valued tokens are allowed |
| ExportFormat.MixedTreeRoundTrips | src/utils/exportFormat.ts:15-165 | a semantic tree with a plain token `p` and a multi-brand token `m` holding brand `a` meets the round trip's hypothesis for `a` |
| ThemeExporter.IsMultiBrandValue | src/utils/themeExporter.ts:72-85 | `isMultiBrandValue`; `MultiBrandEntries` states what it admits |
| ThemeExporter.MultiBrandEntries | src/utils/themeExporter.ts:72-85 | every entry of a multi-brand value is a string under a key that does not start with `$` |
| ThemeExporter.Extras | src/utils/themeExporter.ts:116-121 | the spread adds `$description` and (when asked) `$extensions` exactly when they are truthy |
| ThemeExporter.SingleValueToken | src/utils/themeExporter.ts:113-133 | the rebuilt token has the given `$value`, the old `$type` and only the truthy extras |
| ThemeExporter.ExtractToken | src/utils/themeExporter.ts:108-137 | the brand extraction of one token: <br>• a multi-brand token becomes the brand's plain string with `$description` and `$extensions`; <br>• when the brand is absent it becomes the first brand's value with `$description` only (unless that key is empty); <br>• any other token is returned as is |
| ThemeExporter.ExtractBrand | src/utils/themeExporter.ts:102-146 | primitives pass through, non-token objects keep their keys, and tokens stay tokens |
| ThemeExporter.ExtractBrandAt | src/utils/themeExporter.ts:102-146 | the token at any path of the output is the extracted token at that path of the input |
| ThemeExporter.ExtractBrandNamesFromTokens | src/utils/themeExporter.ts:151-171 | the traversal computes the collected names, and they are distinct |
| ThemeExporter.Traverse | src/utils/themeExporter.ts:154-167 | the recursive walk adds the brand keys below the object to the names |
| ThemeExporter.AddNames | src/utils/themeExporter.ts:158 | adding keys to the set keeps earlier names first and in order, adds exactly the new keys, and keeps the names distinct |
| ThemeExporter.CollectMembers | src/utils/themeExporter.ts:154-167 | a brand is collected iff it was already there or is a key of a multi-brand token reached by the walk |
| ThemeExporter.BrandNamesExactly | src/utils/themeExporter.ts:151-171 | the result lists exactly the brand keys of the semantic multi-brand tokens, each once |
| ThemeExporter.SelectedProperties | src/utils/themeExporter.ts:277-281 | a property is kept iff it was selected and present, with its value |
| ThemeExporter.FilteredToken | src/utils/themeExporter.ts:283-292 | the filtered style keeps `$type`, has the selected properties as `$value`, and has only the truthy extras |
| ThemeExporter.FilterStyle | src/utils/themeExporter.ts:273-298 | a typography token is filtered; a token with a null `$value` throws from the `in` test; a primitive is kept |
| ThemeExporter.FilterTextStyles | src/utils/themeExporter.ts:259-302 | no selected properties, or a non-object, means the input is returned; otherwise the result keeps the style names |
| ThemeExporter.FilterTextStyleProperties | src/utils/themeExporter.ts:259-302 | the loop computes the filtered text styles or the first error |
| ThemeExporter.FilterStyleMember | src/utils/themeExporter.ts:273-298 | one style entry is filtered as `FilterStyle` says |
| ThemeExporter.SelectProperties | src/utils/themeExporter.ts:275-281 | the loop keeps the selected properties |
| ThemeExporter.FilterErrorSticks | src/utils/themeExporter.ts:273-299 | once a style throws, the whole filtering throws that error |
| ThemeExporter.ExportCompleteW3C | src/utils/themeExporter.ts:180-211 | a complete export is one file `orbit-tokens.json` whose `global` and `semantic` are the document's own truthy sections, and whose `textStyles` are the filtered text styles exactly when they are requested and the document has them; the content is an object whose keys are exactly the present members in the order `global`, `semantic`, `textStyles`; it fails exactly when that filter throws |
| ThemeExporter.BrandFile | src/utils/themeExporter.ts:223-250 | a brand's file is named `<brand>-semantic.tokens.json`, has `global` only when asked, has the brand-extracted semantic section, and has `textStyles` (the brand-extracted styles, filtered) exactly when they are requested and the document has them; the content is an object whose keys are exactly the present members in the order `global`, `semantic`, `textStyles`; it fails exactly when that filter throws |
| ThemeExporter.ExportPerBrand | src/utils/themeExporter.ts:216-254 | the loop computes one file per requested brand |
| ThemeExporter.PerBrandShape | src/utils/themeExporter.ts:216-254 | the per-brand export succeeds iff every brand's text styles do, and then yields one file per brand, in order, named for it |
| ThemeExporter.ExportTheme | src/utils/themeExporter.ts:307-316 | the `complete` format yields the single complete file, and any other format yields one file per requested brand |
| ThemeExporter.ExecuteExport | src/utils/themeExporter.ts:321-359 | the export result: <br>• no tokens gives failure with no files; <br>• success holds iff the export produced files without throwing; <br>• on success the files are the export's; <br>• on failure there are no files |
| ThemeExporter.NoBrandsNoFiles | src/utils/themeExporter.ts:336-341 | a per-brand export with no brands fails with "no files" |
| ThemeExporter.ValidateExportOptions | src/utils/themeExporter.ts:442-462 | the errors are exactly the broken rules' messages, each once, the brand rule's before the property rule's, and `valid` iff there are none |
| Palette.LookUp | src/utils/paletteGenerator.ts:197 | a found lightness is the table's entry for the step, and nothing is found only for a step missing from the table |
| Palette.LightnessTable | src/utils/paletteGenerator.ts:6-25 | the table lists the 16 steps in order, and lightness strictly decreases from 95 to 13 |
| Palette.LightnessOfStep | src/utils/paletteGenerator.ts:6-23 | each step's lightness is its table entry |
| Palette.HexToRgb | src/utils/paletteGenerator.ts:32-40 | parsing succeeds iff the string is an optional `#` and six hex digits, with channels in 0..255; otherwise it fails with `Invalid hex color: <hex>` |
| Palette.ToHex | src/utils/paletteGenerator.ts:46-50 | a channel is written as exactly two lower-case hex digits whose value is the clamped channel |
| Palette.RgbToHex | src/utils/paletteGenerator.ts:45-52 | the result is `#` and six hex digits, a valid hex colour |
| Palette.ShadeHex | src/utils/paletteGenerator.ts:135-140 | `oklchToHex` ends in `rgbToHex`, so whatever the colour conversion gives, the result is a valid seven-character `#rrggbb` colour |
| Palette.RgbRoundTrip | src/utils/paletteGenerator.ts:32-52 | parsing a written colour gives back the clamped channels |
| Palette.HexRoundTrip | src/utils/paletteGenerator.ts:32-52 | writing a parsed colour gives `#` and the lower-cased digits |
| Palette.GeneratePalette | src/utils/paletteGenerator.ts:192-225 | fails with the parser's message iff the base colour is not hex; otherwise 16 steps named in lattice order with their table lightness and the `rgbToHex` of each step's shade, so every step's colour is a valid `#rrggbb` |
| Palette.ShadeSteps | src/utils/paletteGenerator.ts:196-222 | the loop pushes one step per table entry, in order, with the entry's lightness and the colour for its index and lightness |
| Palette.GeneratedDarkens | src/utils/paletteGenerator.ts:192-225 | each later step of a generated palette is darker |
| Palette.PaletteToTokens | src/utils/paletteGenerator.ts:230-241 | the loop builds the token record of the steps |
| Palette.TokenNames | src/utils/paletteGenerator.ts:230-241 | the record has a token exactly under each step name |
| Palette.TokensOfLastToken | src/utils/paletteGenerator.ts:233-238 | the token under a name is the colour token of the last step with that name |
| Palette.LastStepWins | src/utils/paletteGenerator.ts:233-238 | a step that no later step renames keeps its colour token |
| Palette.TokensInOrder | src/utils/paletteGenerator.ts:230-241 | with distinct names the record's keys are the step names in order |
| Palette.TokensHoldColors | src/utils/paletteGenerator.ts:230-241 | with distinct names every step's name holds `{ $value: hex, $type: color }` |
| Palette.GeneratedTokens | src/utils/paletteGenerator.ts:192-241 | a generated palette gives 16 colour tokens keyed by the lattice steps in order |
| Palette.ValidateFamilyName | src/utils/paletteGenerator.ts:246-264 | each message is returned iff its check is the first to fail (blank, format, duplicate, reserved), and no message iff all pass |
| Palette.AcceptedNames | src/utils/paletteGenerator.ts:246-264 | an accepted name starts with a letter, and its lower-case form is neither an existing family nor `neutral` |
| Palette.DefaultColorValid | src/utils/paletteGenerator.ts:269-276 | the default base colour `#0072ef` is a valid hex colour with channels 0x00, 0x72, 0xef |
| TShirtSizes.SortByTShirtSize | src/utils/tshirtSizeSort.ts:34-51 | `sortByTShirtSize`; `BothSizes`, `SizeBeforeOther`, `OthersByString`, `SignFlips`, `Transitive` and `Extremes` state its order |
| TShirtSizes.IndexIn | src/utils/tshirtSizeSort.ts:35-36 | `indexOf` gives the first position of the name, or −1 exactly when it is absent |
| TShirtSizes.BothSizes | src/utils/tshirtSizeSort.ts:6-41 | two sizes compare by the difference of their positions in the size list |
| TShirtSizes.SizeBeforeOther | src/utils/tshirtSizeSort.ts:44-47 | a size sorts before a non-size, in both argument orders |
| TShirtSizes.OthersByString | src/utils/tshirtSizeSort.ts:50 | two non-sizes compare by string order |
| TShirtSizes.SignFlips | src/utils/tshirtSizeSort.ts:34-51 | the comparator is 0 exactly on equal names and negates when its arguments swap |
| TShirtSizes.Transitive | src/utils/tshirtSizeSort.ts:34-51 | the comparator's strict order is transitive |
| TShirtSizes.Extremes | src/utils/tshirtSizeSort.ts:6-41 | `none` precedes every other size and `4xl` follows every other size |
| TShirtSizes.DocExample | src/utils/tshirtSizeSort.ts:30-32 | sorting `xl, sm, 2xl, md` gives `sm, md, xl, 2xl` |
| Store.Container | src/store/themeStore.ts:490-496 | reading a container for writing throws exactly when the entry is truthy but not an object; otherwise the existing fields (or a fresh empty object) |
| Store.PutInReads | src/store/themeStore.ts:521-537 | after a container-creating write the path reads the written value |
| Store.PutInFrame | src/store/themeStore.ts:521-537 | a container-creating write leaves every branching path unchanged |
| Store.WriteGlobal | src/store/themeStore.ts:518-537 | a write under `global` keeps the top-level keys and the semantic section |
| Store.AddedColorFamily | src/store/themeStore.ts:484-501 | it fails exactly when the family already exists as a truthy value or `global`/`colors` cannot be read; an existing truthy family, and only that, gives `Color family "<name>" already exists`, and every other failure is a type error; `semantic` is untouched |
| Store.AddColorFamilyEffect | src/store/themeStore.ts:489-497 | after adding, `global.colors.<name>` holds the steps and every branching path is unchanged |
| Store.DeletedColorFamily | src/store/themeStore.ts:503-512 | deletion happens iff the family exists and is truthy, and `semantic` is untouched |
| Store.DeleteColorFamilyEffect | src/store/themeStore.ts:503-512 | after deleting, the family is gone, every other family and every path outside `global.colors` are unchanged |
| Store.EntryPath | src/store/themeStore.ts:520-533 | a `typography.<sub>` category goes under `global.typography.<sub>`, any other category under `global.<category>`; the path ends with the name |
| Store.AddedGlobalToken | src/store/themeStore.ts:514-541 | the write fails only with a `TypeError`, exactly when a container on the way is a truthy non-object, and `semantic` is untouched |
| Store.AddGlobalTokenEffect | src/store/themeStore.ts:521-537 | after adding, the entry holds `{ $value, $type }` and every branching path is unchanged |
| Store.UpdatedGlobalToken | src/store/themeStore.ts:543-564 | a missing entry leaves the document as it was (nothing is created); a non-object entry throws; `semantic` is untouched |
| Store.UpdateGlobalTokenEffect | src/store/themeStore.ts:549-559 | an existing entry's `$value` is the new value, and every other path is unchanged |
| Store.DeletedGlobalToken | src/store/themeStore.ts:566-587 | deletion fails only when `global` is unreadable, leaves the document as it was when the entry is missing, and leaves `semantic` untouched |
| Store.DeleteGlobalTokenEffect | src/store/themeStore.ts:572-583 | the named entry is gone, and its siblings and every branching path are unchanged |
| Store.SameSemanticSameRows | src/store/themeStore.ts:484-587 | two documents with the same `semantic` section give the same editor rows, so the global-token actions keep the shown rows correct without recomputing them |
| Store.FirstOrNull | src/store/themeStore.ts:325-327 | the first remaining brand or null: the first brand when it exists and is non-empty |
| Store.NewBrandError | src/store/themeStore.ts:245-248 | a new brand is rejected iff brand discovery fails or the name is already a brand, with `Brand "<name>" already exists` |
| Store.BrandDeletion | src/store/themeStore.ts:302-340 | the rules for deleting a brand: <br>• deletion is refused while at most one brand exists; <br>• on success the document is the brand-removed one; <br>• a selection of another brand is kept; <br>• a deleted selection moves to `FirstOrNull` of the remaining brands: the first one when it is a non-empty name, else none |
| Store.KeptSelection | src/store/themeStore.ts:440-443 | a non-empty selection that is still a brand is kept; in every other case the selection is `FirstOrNull` of the brands: the first one when it is a non-empty name, else none |
| Store.JsonEdit | src/store/themeStore.ts:428-471 | the outcome of a JSON edit: <br>• a parse error, a null document, a missing section or a failed brand discovery each reject it; <br>• a successful edit keeps the parsed document and the selection as `KeptSelection` says |
| Store.BrandImport | src/store/themeStore.ts:365-409 | the outcome of an import: <br>• a file without `semantic` is rejected; <br>• a file with no detectable brand is rejected; <br>• otherwise the merge's document and brand are taken and every non-semantic section is kept |
| Store.ThemeStore.constructor | src/store/themeStore.ts:74-87 | the initial state: no tokens, no brand, no rows, nothing unsaved, no editor error, the themes view |
| Store.ThemeStore.SelectBrand | src/store/themeStore.ts:198-208 | with tokens loaded, the brand is selected and the rows are that brand's; without tokens nothing changes |
| Store.ThemeStore.UpdateToken | src/store/themeStore.ts:211-223 | without tokens or a selected brand nothing changes; otherwise the brand's value is written, the rows are recomputed and `hasUnsavedChanges` is set |
| Store.ThemeStore.SaveChanges | src/store/themeStore.ts:226-237 | with tokens loaded only the unsaved flag is cleared |
| Store.ThemeStore.AddBrand | src/store/themeStore.ts:240-268 | a rejected name fails and changes nothing; otherwise the brand is added to every token, selected and shown |
| Store.ThemeStore.AddBrandWithColors | src/store/themeStore.ts:271-299 | the same guard as adding a brand; on success the document is the colour-derived one and the new brand is selected |
| Store.ThemeStore.DeleteBrand | src/store/themeStore.ts:302-340 | a refused deletion changes nothing; otherwise the state takes the document and selection `BrandDeletion` gives |
| Store.ThemeStore.ImportSemanticBrand | src/store/themeStore.ts:365-409 | without tokens, or on a rejected import, nothing changes and the reason is returned; otherwise the merged document is stored and the imported brand selected |
| Store.ThemeStore.UpdateTokensFromJson | src/store/themeStore.ts:428-471 | a rejected edit keeps the document (and records the error, except for the missing-section case); an accepted one stores it, keeps or moves the selection, clears the error and marks changes unsaved |
| Store.ThemeStore.SetJsonEditorError | src/store/themeStore.ts:426 | only the editor error changes |
| Store.ThemeStore.SetSidebarView | src/store/themeStore.ts:478 | only the sidebar view changes |
| Store.ThemeStore.NavigateToThemes | src/store/themeStore.ts:479 | only the sidebar view changes, to the themes view |
| Store.ThemeStore.NavigateToGlobalSection | src/store/themeStore.ts:480 | only the sidebar view changes, to the given global section |
| Store.ThemeStore.NavigateToColorFamily | src/store/themeStore.ts:481 | only the sidebar view changes, to the given colour family |
| Store.ThemeStore.AddColorFamily | src/store/themeStore.ts:484-501 | a failure changes nothing; a success stores the document `AddedColorFamily` gives and clears the unsaved flag |
| Store.ThemeStore.DeleteColorFamily | src/store/themeStore.ts:503-512 | a missing family changes nothing; otherwise the family is removed and the view moves to the colours section |
| Store.ThemeStore.AddGlobalToken | src/store/themeStore.ts:514-541 | a failure changes nothing; a success stores the document `AddedGlobalToken` gives |
| Store.ThemeStore.UpdateGlobalToken | src/store/themeStore.ts:543-564 | a failure changes nothing; a success stores the document `UpdatedGlobalToken` gives |
| Store.ThemeStore.DeleteGlobalToken | src/store/themeStore.ts:566-587 | a failure changes nothing; a success stores the document `DeletedGlobalToken` gives |

## Left out

- Palette.GeneratePalette: the colour science of `paletteGenerator.ts` (OKLCH conversion, easing, hue shift and chroma scaling) is floating point and is not modelled. The function takes each step's shade as a function parameter: its sRGB channels scaled to 0–255 and rounded, before `rgbToHex`. That parameter does not take the base colour, so the dependence of each step on the base colour's hue and chroma (src/utils/paletteGenerator.ts:192-225) is not stated. Nor are the colour values or a hex → OKLCH → hex round trip.
- JsonTree.Get: property reads (`o[k]`) and the `in` operator, and with them `JsonTree.HasKey`, are modelled on an object's own keys only. In JavaScript they also find members inherited from `Object.prototype`. So names such as `constructor`, `toString`, `valueOf`, `hasOwnProperty` and `__proto__` behave differently in the source wherever a user-chosen name is looked up. Examples include a brand named `toString`. It affects the brand value read by the flattener (src/utils/tokenFlattener.ts:31) and the source-brand test when a brand is added (src/utils/tokenFlattener.ts:180). It affects the brand test in reference resolution (src/utils/tokenResolver.ts:78) and the brand tests on export and import (src/utils/exportFormat.ts:29, 143). It affects brand extraction on export (src/utils/themeExporter.ts:111), and a text-style property name affects property selection (src/utils/themeExporter.ts:278). The model's results agree with the source only for names that are not such members.
- The second lightness table in `src/types/globalTokens.ts` is never read by `generatePalette` and is not part of this model.
- Browser downloads (`downloadJson`, `downloadFile`, `downloadFiles`, `downloadAsZip`) are left out, because they are I/O.
- Export sizes, `JSON.stringify` text and the KB message of `executeExport` are left out. File contents are the `Json` value, and the success message records only the file count.
- Persistence and startup are left out because they are asynchronous I/O. This covers the database writes, `initialize`, `loadTokensFromFile` and the `fetch` preload. Store actions are synchronous state changes.
- The store's `brands` list, `isLoading`, `isInitialized`, `viewMode`, `selectedTokenPath` and `isTokenTreeOpen` are left out. They are display state that no modelled action reads.
- `exportSemanticBrand`, `exportFullTokens`, `exportAdvanced` and `getAvailableBrands` are left out of the store. They only call the modelled export functions and download the result.
- Store.ThemeStore.AddBrandWithColors: `addBrandWithCustomColors` is not part of this model. Its document transformation is a function parameter, and only the guard and the resulting state are stated.
- Store.ThemeStore.UpdateTokensFromJson: `JSON.parse` is not modelled. The method takes the parse outcome as a `Result`, and a parse error's message is passed through.
- Exception messages are not the engine's text, except where noted. The store (`Store.TypeError`) and the flattener's brand test carry the abstract message `TypeError`. `ThemeExporter.InNullError` carries V8's text for `prop in null`, which `ThemeExporter.ExecuteExport` shows after `Export failed: `. `ColorVariants.InValueError` carries a shortened form of the engine's message for a `'$value' in` test on a primitive. A thrown error in an async store action is a `Failed` outcome with the state unchanged.
- The resolver's `console.warn` and the store's `console.error` are left out, because they do not affect results.
- JSON arrays are not in the `Json` datatype, because token documents hold none in the modelled paths. `isMultiBrandValue`'s array test therefore never fires.
- Numbers are integers. Rendering a number in `getGlobalAliasesByType` uses integer decimal text.
- JsonTree.Set: a new key is always appended. A JavaScript object lists integer-like keys (such as `"2024"` or `"4"`) first, in ascending order, before its string keys. So where a write adds an integer-like key to an object that already has string keys, the model's key order differs from the source's. Affected results:
  - the brand order of `TokenFlattener.ExtractBrandNames` after `addBrand` with such a name, and with it the brand `Store.FirstOrNull` picks in `Store.BrandDeletion` and `Store.KeptSelection`;
  - the "first value" `TokenFlattener.AddBrandValue` copies;
  - the order of alias suggestions over a token added by `addGlobalToken` under such a name;
  - the key order of exported files.
  Contents and values are unaffected. Documents given as input are taken to be already in JavaScript's key order. Palettes are unaffected: `Palette.TokensInOrder` writes the integer step names into an empty object in ascending order.
- Text.Compare: `localeCompare` is locale-dependent. It is modelled as plain lexicographic order on Unicode code points (Dafny characters). That order also differs from UTF-16 code-unit order for characters outside the Basic Multilingual Plane.
- Sorting.SortBy: modelled as an insertion sort that places each element after the equal ones before it. It is therefore stable, as ECMAScript 2019 requires of `Array.prototype.sort`, but the contract states only order and permutation, not stability.
- The source's deep clones (`JSON.parse(JSON.stringify(...))`) followed by in-place mutation are modelled as pure functions on values, so aliasing between the clone and the original is not represented.
- TokenFlattener.GroupTokensByCategory: a JavaScript `Map` keeps groups in insertion order. The model uses Dafny maps, so it states the contents of each group and its order within the group, but not the order of the groups.
- TokenFlattener.FullPathIsSemanticPath: stated only for a non-empty top-level key. With the key `""` the source's `path` drops the segment while `fullPath` keeps it, as TokenFlattener.FullPathEmptyFirstKey shows.
- AliasSuggestions.GetSemanticAliases: requires `semantic` to be present and not null. The source reads `tokens.semantic.brand` unguarded and would throw otherwise.
- AliasSuggestions.GetGlobalAliasesByType: requires `global` to be present and not null, for the same reason (`tokens.global[category]`).
- AliasSuggestions.GlobalAliasSound: stated for documents whose `global` keys are non-empty, contain no `.` and have no duplicates, so that a dotted path leads back to its token.
- `validateFamilyName`'s regular expression is modelled as its meaning: an ASCII letter followed by ASCII letters or digits, case-insensitive. `trim` is modelled with JavaScript's whitespace set.
