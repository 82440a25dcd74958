# web_openapi registry and OpenAPI synthesiser, modelled in Dafny

`mod.ts` keeps three module-level stores:
- `Routes`: five sets of `URLPattern`, one for each of get, put, post, delete and patch.
- `Metadata`: operation overrides keyed by pattern.
- `Components`: named schemas.

`generateOpenAPISpec` turns these stores into one OpenAPI 3.1 document. It works in four steps:
- It lists every distinct registered pathname once, sorted (`getPathSorted`, `getUniquePaths`).
- For each pathname and method, it finds the first pattern in that method's set with the same pathname (`hasInSet`).
- It derives an operation id from the template (`pathToString`).
- It spreads the matching `Metadata` override over a default operation object.

The model has six files:
- `Wrappers.dfy`: `Option`, which stands for `undefined` and for absent fields.
- `Strings.dfy`:
  - the code-point order that `sortBy` applies to pathnames, proved a strict total order;
  - `split` on one character, with a round trip through `join`;
  - the non-empty filter;
  - `indexOf` and the first-occurrence `replace`.
- `OperationId.dfy`: `pathToString`, with the casing function as a parameter. `OperationIdExamples.dfy` works the derivation out on sample templates.
- `Canonical.dfy`:
  - `Pattern`: the id stands for object identity, and the pathname is the template text;
  - `getPathSorted`, as an insertion sort proved sorted and a permutation;
  - `getUniquePaths`, proved strictly ascending and exactly the registered pathnames;
  - `hasInSet`, as a loop proved to return the earliest match.
- `OpenApi.dfy`:
  - the document and its header records (`LicenseMap`, servers, `info`);
  - the operation and path-item construction;
  - the `Registry` class that holds the three stores, with the registration calls and the imperative `GenerateOpenAPISpec`;
  - the lemmas about the `paths` object.

On these points the model follows `mod.ts` as written:
- **`:` prefix.** A `:` parameter keeps its leading `:` when it reaches the casing function. Only the first `Id` is removed (`String.replace` with a string pattern), so `:userId` becomes `:user`.
- **Segment order.** Segments are reversed, so the innermost comes first: `/users/:userId` gives the tokens `:user`, then `users`.
- **`@` sentinel.** For `/users/@me`, only `@me` is kept, because everything outside the innermost sentinel is dropped.
- **Identity, not text.** Sets and `Metadata` are keyed by pattern identity, not by template text. One method set can hold two patterns with the same pathname; `hasInSet` returns the earlier one.
- **Per-method override.** The override an operation receives is the `Metadata` entry of the pattern found in *that method's* set. Two methods that registered different pattern objects for one template therefore get separate overrides.

## Model

| member | source | states |
|---|---|---|
| `Strings.Split` | mod.ts:142 | `split("/")` gives at least one piece, and no piece contains the separator. Joining the pieces back with the separator gives the input again. |
| `Strings.NonEmpty` | mod.ts:143 | `filter(x => x)` keeps exactly the non-empty strings, and only those. Order and repeats are kept: see `Strings.NonEmptyAppend`. |
| `Strings.NonEmptyAppend` | mod.ts:143 | Filtering a concatenation gives the filtered parts concatenated, so the filter keeps the order and the repeats of its input. |
| `Strings.SplitAppend` | mod.ts:142 | Splitting `a + sep + b` gives the pieces of `a` followed by the pieces of `b`. |
| `Strings.Join` | mod.ts:148 | `join(sep)`. Its shape is stated by `Strings.JoinEnds`, and `Strings.Split` proves it inverts `split`. |
| `Strings.JoinEnds` | mod.ts:148 | Joining no pieces gives the empty string. Otherwise the result starts with the first piece, continues with the separator when there is more than one piece, and ends with the last piece. |
| `Strings.ReplaceFirst` | mod.ts:146 | `replace(pat, rep)` with a string pattern and a replacement without `$` patterns, such as the `""` of mod.ts:146, leaves the string unchanged when `pat` does not occur. Otherwise the part before the first occurrence is kept, `rep` stands where that occurrence was, and everything after it is kept. |
| `Strings.IndexOf` | mod.ts:146 | `indexOf` returns a position where the pattern occurs, with no occurrence before it. It returns nothing exactly when the pattern occurs nowhere. |
| `Strings.ReplaceFirstRemoves` | mod.ts:146 | `replace(pat, "")` with a string pattern removes only the first occurrence. The result is shorter by the pattern's length. Putting the pattern back at that position restores the input, and the prefix before it is untouched. |
| `Strings.BelowTotal` | mod.ts:22 | The code-point order on pathnames is total: two strings are equal or one is strictly below the other. |
| `Strings.BelowTransitive` | mod.ts:22 | The code-point order on pathnames is transitive. |
| `OperationId.Pieces` | mod.ts:141-143 | The pieces of a template are non-empty and `/`-free, and they are exactly the non-empty results of the split. |
| `OperationId.PiecesAppend` | mod.ts:141-143 | The pieces of `a/b` are the pieces of `a` followed by the pieces of `b`, so the pieces of any template come left to right. |
| `OperationId.PiecesOfSegment` | mod.ts:141-143 | A string without `/` is one piece, or no piece when it is empty. |
| `OperationId.PiecesOfTemplate` | mod.ts:141-143 | A template written as `/s1/.../sn` from non-empty, `/`-free segments reads back as exactly those segments. |
| `OperationId.Reverse` | mod.ts:144 | `reverse()` keeps the length and puts element `k` at position `n-1-k`. |
| `OperationId.FirstSentinel` | mod.ts:145 | `findIndex(startsWith("@"))` returns the first sentinel index and nothing earlier. It returns nothing exactly when no segment is a sentinel. |
| `OperationId.Selected` | mod.ts:141-145 | The segments that reach the naming step: the pieces, reversed and cut after the first sentinel. Their properties are stated by `OperationId.SelectedSegments`. |
| `OperationId.KeepUpToSentinel` | mod.ts:145 | The kept segments are a prefix of the input. Only the last of them can be a sentinel, and it is one whenever the input has a sentinel. Without a sentinel, every segment is kept. |
| `OperationId.SelectedSegments` | mod.ts:141-145 | The selected segments are the template's pieces read from the innermost outwards. With a sentinel, the list ends at the innermost sentinel: it is the last token, no other token is a sentinel, and no piece left of any sentinel contributes. Without one, all pieces are kept. |
| `OperationId.StripIdToken` | mod.ts:146 | A non-`:` segment is handed on unchanged, and so is a `:` segment without `Id`. Otherwise only the first `Id` is removed: the token keeps its leading `:`, is two characters shorter, and re-inserting `Id` gives the segment back. |
| `OperationId.StripId` | mod.ts:146 | The per-segment `Id` removal. Its behaviour is stated by `OperationId.StripIdToken`. |
| `OperationId.Tokens` | mod.ts:141-146 | The selected segments, each passed through `StripId`, in order. The per-token behaviour is stated by `OperationId.StripIdToken`. |
| `OperationId.PathToString` | mod.ts:140-149 | `pathToString`: the selected segments (`OperationId.SelectedSegments`) become tokens (`OperationId.StripIdToken`), which are cased and joined with `By` (`OperationId.NameShape`). |
| `OperationId.NameShape` | mod.ts:140-149 | The name is empty when no token is selected. Otherwise it starts with the cased innermost token, continues with `By` when there are several tokens, and ends with the cased outermost selected token. |
| `OperationIdExamples.ExampleUsers` | mod.ts:140-149 | `/users` gives `pascal("users")`. |
| `OperationIdExamples.ExampleMe` | mod.ts:140-149 | `/users/@me` gives `pascal("@me")` alone. |
| `OperationIdExamples.ExampleUserId` | mod.ts:140-149 | `/users/:userId` gives `pascal(":user") + "By" + pascal("users")`: innermost first, with `:` kept and `Id` dropped. |
| `OperationIdExamples.ExampleMeExtra` | mod.ts:140-149 | `/users/@me/extra` gives `pascal("extra") + "By" + pascal("@me")`. |
| `OperationIdExamples.ExtraSlashes` | mod.ts:141-143 | `/users/` and `//users` derive the same name as `/users`: paths are not normalised, but empty pieces do not reach the name. |
| `OpenApi.Routes.All` | mod.ts:18-20 | The flattened list holds a pattern exactly when some method set holds it. |
| `Canonical.Pathnames` | mod.ts:30 | `list.map(it => it.pathname)` keeps the length, and entry `k` is the pathname of pattern `k`. |
| `Canonical.PathSorted` | mod.ts:17-25 | `getPathSorted` applied to the flattened sets. It is `Canonical.SortByPathname`, whose contract states that the result is sorted and a permutation. |
| `Canonical.SortByPathname` | mod.ts:17-25 | `getPathSorted`'s sort returns a list ordered by pathname that is a permutation of its input. |
| `Canonical.InsertSorted` | mod.ts:22 | Inserting a pattern into a list sorted by pathname keeps it sorted. |
| `Canonical.Distinct` | mod.ts:30-32 | `Array.from(new Set(xs))` has no duplicates and holds exactly the members of `xs`. |
| `Canonical.DistinctOfSorted` | mod.ts:27-33 | Deduplicating a sorted list of pathnames leaves it strictly ascending. |
| `Canonical.UniquePaths` | mod.ts:27-33 | `getUniquePaths`: the deduplicated pathnames of the sorted list. Its properties are stated by `Canonical.UniquePathsSpec`. |
| `Canonical.UniquePathsSpec` | mod.ts:17-33 | `getUniquePaths` is strictly ascending, so it has no duplicates. A string is in it exactly when it is the pathname of some registered pattern. |
| `Canonical.FirstWithPathname` | mod.ts:151-159 | The result is the earliest pattern in insertion order whose pathname equals the probe. It is `undefined` exactly when no pattern has that pathname. |
| `Canonical.HasInSet` | mod.ts:151-159 | The loop with early return yields the earliest matching pattern, which is in the set and has the probe's pathname. It yields `undefined` exactly when none matches. |
| `OpenApi.LicenseMap` | mod.ts:40-51 | `MIT` maps to identifier "MIT", named "MIT License", with url `https://opensource.org/licenses/MIT`. `Apache2` maps to "Apache-2.0", named "Apache License 2.0", with url `https://www.apache.org/licenses/LICENSE-2.0`. |
| `OpenApi.Overlay` | mod.ts:57-62 | Each field a partial server supplies wins. Each missing field takes the default url, description or empty variables. |
| `OpenApi.Servers` | mod.ts:56-63 | Without `servers`, the result is exactly one default server. Otherwise each supplied partial, in order, is overlaid on the default. |
| `OpenApi.MapOverlay` | mod.ts:57-62 | `servers.map(item => ...)` keeps the length, and entry `i` is the default server overlaid with partial `i`. |
| `OpenApi.InfoOf` | mod.ts:74-78 | Title and version default to "Example API" and "1.0.0". An enum license maps through `LicenseMap`, a license object passes unchanged, and an absent one stays absent. |
| `OpenApi.DefaultHeader` | mod.ts:53-78 | With no options, the document has version "3.1.0", the default info and the one default server. Components hold the given schemas and the fixed HTTP bearer `jwtAuth` scheme. |
| `OpenApi.OverrideFor` | mod.ts:94 | `...Metadata.get(xPattern)`: the stored override, and nothing when the pattern has none, because spreading `undefined` adds no field. Its effect on the operation is stated by `OpenApi.OperationFields`. |
| `OpenApi.DefaultOperation` | mod.ts:89-93 | The default operation object. Its fields are stated by `OpenApi.OperationFields`. |
| `OpenApi.Operation` | mod.ts:89-95 | The default with the override of the found pattern spread over it. Its fields are stated by `OpenApi.OperationFields`. |
| `OpenApi.OperationFields` | mod.ts:89-131 | `operationId`, `responses` and `security` are always present. Each takes the override's value when the override of the found pattern has that field, and otherwise the default: `m + pathToString(path)`, `{}` or `[]`. The derived id starts with the method name, so it is non-empty. Every top-level field of the override reaches the operation unchanged, and the operation has no other fields. |
| `OpenApi.WithOperation` | mod.ts:89-96 | One `if (xPattern) { obj.x = ... }` step. Its effect is stated by `OpenApi.WithOperationFields`. |
| `OpenApi.WithOperationFields` | mod.ts:89-96 | One `if (xPattern)` step adds the operation for its method exactly when `hasInSet` finds the path, and leaves every other method unchanged. |
| `OpenApi.PathItemOf` | mod.ts:80-135 | The body of the `paths` callback: the five steps in the order get, put, post, delete, patch. Its fields are stated by `OpenApi.PathItemFields`. |
| `OpenApi.PathItemFields` | mod.ts:81-134 | A path item has a field for `m` exactly when `hasInSet(Routes[m], path)` is defined. That field is the default operation with the override of the found pattern spread over it. |
| `OpenApi.Generate` | mod.ts:53-138 | The document has version "3.1.0" and the given schemas plus the `jwtAuth` scheme. Its `info` is `InfoOf` of the options, and its `servers` is `Servers` of the given servers, for any options. Its `paths` entries follow `getUniquePaths` in order, each with the path item built for that path. The header's properties come from `OpenApi.InfoOf` and `OpenApi.Servers`, and the path items' from the lemmas below. |
| `OpenApi.PathEntries` | mod.ts:79-136 | `paths.map(path => [path, item])`: one entry per given path, in order, each holding the path item built for that path. |
| `OpenApi.Paths` | mod.ts:79-136 | The `paths` field, built over `getUniquePaths()`. Its properties are stated by `OpenApi.PathKeys`, `OpenApi.KeysAreRegistered`, `OpenApi.MethodPresence` and `OpenApi.RoundTrip`. |
| `OpenApi.UniqueIffRegistered` | mod.ts:17-33 | A pathname is among the unique paths exactly when at least one method set has a pattern with it. |
| `OpenApi.PathKeys` | mod.ts:79-80 | The `paths` keys are exactly `getUniquePaths()`, in its order, so they are strictly ascending and free of duplicates. |
| `OpenApi.KeysAreRegistered` | mod.ts:79-136 | A template is a `paths` key exactly when some method registers it, so synthesis never invents or loses a template. |
| `OpenApi.MethodPresence` | mod.ts:83-132 | In every path item, a method field is present exactly when the template is registered under that method. |
| `OpenApi.RoundTrip` | mod.ts:79-136 | The (method, template) pairs present in `paths` are exactly the registered pairs. |
| `OpenApi.NoRoutesNoPaths` | mod.ts:79-136 | With no registered routes, `paths` is empty. |
| `OpenApi.Registry.constructor` | mod.ts:5-15 | The stores start empty. |
| `OpenApi.Registry.Add` | mod.ts:9-15 | `Routes[m].add(p)` appends `p` unless that pattern is already in the set, in which case nothing changes. Each set keeps every pattern at most once, and the other sets and stores are untouched. |
| `OpenApi.Registry.SetMetadata` | mod.ts:5 | `Metadata.set(p, o)` maps `p` to `o` and changes nothing else, so each method set still holds a pattern at most once. |
| `OpenApi.Registry.SetComponent` | mod.ts:7 | `Components.set(name, schema)` maps `name` to `schema` and changes nothing else, so each method set still holds a pattern at most once. |
| `OpenApi.Registry.AddOperation` | mod.ts:83-131 | Calling `hasInSet` for one method and, on a hit, setting that method's operation performs exactly one `WithOperation` step. |
| `OpenApi.Registry.BuildPathItem` | mod.ts:80-135 | The `paths` callback builds exactly `PathItemOf` for the path. |
| `OpenApi.Registry.GenerateOpenAPISpec` | mod.ts:53-138 | The imperative synthesis returns `Generate` of the current stores, which the lemmas above characterise. It reads the stores and does not modify them. |

## Left out

- Operation-id casing: `pascalCase` (mod.ts:3, 147) comes from an outside library. It is the parameter `pascal`, and nothing is claimed about the text it produces.
- `URLPattern` (mod.ts:82): the model neither constructs patterns nor canonicalises pathnames. The probe's pathname is the unique path itself, and a pattern's pathname is the string it was registered with.
- `Canonical.SortByPathname`: it is a stable insertion sort, but stability is not proved. The deduplicated result does not depend on it.
- String order: `sortBy` compares UTF-16 code units, while the model compares Dafny characters (Unicode scalar values). The two orders differ only for characters outside the Basic Multilingual Plane.
- `Strings.ReplaceFirst`: the `$` patterns that JavaScript's `replace` expands in a replacement string (`$$`, `$&`, `` $` ``, `$'`) are not modelled, and `rep` is inserted literally. The one call, at mod.ts:146, passes `""`, which holds no `$`.
- Opaque payloads: schemas, responses, security requirements and server variables are `Json` values passed through unchanged. The OpenAPI typings (mod.ts:1) and JSON serialisation are not modelled.
- `Object.fromEntries` (mod.ts:79, 136): its key order is modelled as the order of `getUniquePaths`. JavaScript would move integer-like keys first; pathnames are not integer-like in practice.
- Explicit `undefined`: a field given explicitly as `undefined` in a partial server or an override still overrides the default under `...`. The model represents only fields that are present or absent.
- `options.license`: the runtime `typeof ... === "number"` test is modelled as the two cases of `LicenseOption`.
- demo.ts: subprocess, pipe and file I/O. Some of its registrations appear as example templates in `OperationIdExamples.dfy`.
