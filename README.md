# create-sandbox, modelled in Dafny

A model of the sandbox-assembly step of the CodeSandbox GitHub importer
(`src/routes/github/pull/create-sandbox/index.ts`). It takes an in-memory tree
of modules keyed by path and builds a sandbox descriptor. The steps are:

- find and parse `package.json`;
- classify the template;
- pick the entry file and check that it exists;
- pick the HTML entry (`index.html` before `public/index.html`);
- split that HTML entry into body and external resources, overwriting its
  content in place with the body;
- denormalize the rewritten tree;
- select the dependencies: the runtime ones, plus those devDependencies that a
  requirement found in the files starts with;
- build the descriptor.

Files:

- `wrappers.dfy` (module `Wrappers`): `Option`, `Result`, JavaScript truthiness
  of optional strings, and `a || b`.
- `dependencies.dfy` (module `Dependencies`): `getDependencies` as pure
  functions. It covers the `startsWith` test, the `.some` scan, the `pickBy`
  filter, the object-spread merge and the defaulting of absent fields.
- `sandbox.dfy` (module `Sandbox`): the tree as a `map<string, Module>` over a
  `Module` class with a mutable `content` field. `GetHtmlInfo` and
  `CreateSandbox` are methods that rewrite the HTML module in place.
  `Validate`, `ExtractHtml`, `Describe` and `Assemble` are the same pipeline
  on the tree's contents, and `CreateSandbox` is proved against them.

The functions whose bodies live in other files are fields of the
`Collaborators` record, as total function values:

- reading the manifest, returning `None` when `JSON.parse` throws or yields
  `null` (a `null` manifest makes the property reads at lines 79-80 throw a
  TypeError); any other JSON value gives a `Manifest`, with every field
  absent when it is not an object;
- `getTemplate` and `getMainFile`;
- `parseHTML`;
- `denormalize`;
- `getDependencyRequiresFromFiles`;
- `mapDependencies`.

Two details of the dependency rule:

- On a name collision, the merge `{...dependencies, ...depsToMatch}` lets the
  used devDependency's version replace the runtime one; a rule where runtime
  wins would differ (`DevVersionWinsCollision`).
- The prefix test is a plain `startsWith`, with no `/` boundary, so requiring
  `react-dom` keeps a devDependency `react` (`ReactDomKeepsReact`). Exact and
  `key/sub` requirements are kept too (`ExactRequirementIsUse`,
  `SubpathRequirementIsUse`).

A manifest that `JSON.parse` rejects, or one that parses to `null`, makes
`createSandbox` throw; the model gives both the error `ManifestParseError`.

JavaScript truthiness, as modelled:

- A string field is falsy when it is absent or `""`. So `main: ""` falls back
  to the template's default entry, and `title: ""` falls back to `name`.
- A present module object or array is always truthy. So `keywords: []` stays
  `[]`, and an empty `index.html` module is still chosen over
  `public/index.html`.
- A parser body is applied only when it is truthy (present and non-empty).

## Model

| member | source | states |
|---|---|---|
| `Dependencies.SomeStartsWith` | src/routes/github/pull/create-sandbox/index.ts:40 | the left-to-right `.some(dep => dep.startsWith(key))` scan is true exactly when some requirement has `key` as a prefix (`UsedIn`) |
| `Dependencies.KeptDevDependencies` | src/routes/github/pull/create-sandbox/index.ts:38-41 | a devDependency key is kept iff some requirement starts with it, and a kept key keeps its declared version |
| `Dependencies.Spread` | src/routes/github/pull/create-sandbox/index.ts:44-47 | object spread: the keys are the union; a key of the later map takes that map's value; any other key keeps the earlier map's value |
| `Dependencies.MergedDependencies` | src/routes/github/pull/create-sandbox/index.ts:34-47 | the map given to `mapDependencies` has exactly the runtime keys plus the used dev keys (absent fields read as empty); a used dev key carries the dev version even when runtime declares it; every other key carries its runtime version |
| `Dependencies.ExactRequirementIsUse` | src/routes/github/pull/create-sandbox/index.ts:40 | a requirement equal to a devDependency's name counts as a use |
| `Dependencies.SubpathRequirementIsUse` | src/routes/github/pull/create-sandbox/index.ts:40 | a requirement `key/sub` counts as a use of `key` |
| `Dependencies.ReactDomKeepsReact` | src/routes/github/pull/create-sandbox/index.ts:39-41 | the prefix test has no boundary: requiring only `react-dom` keeps the devDependency `react` |
| `Dependencies.MoreRequirementsKeepMore` | src/routes/github/pull/create-sandbox/index.ts:36-41 | the filter is monotone: with more requirements, every kept devDependency stays kept with the same version |
| `Dependencies.GetDependencies` | src/routes/github/pull/create-sandbox/index.ts:27-49 | the result is `mapDependencies` applied to `MergedDependencies` over `requiresFromFiles(files)`; when the files use no devDependency it is `mapDependencies` of the runtime map alone, and with nothing declared it is `mapDependencies({})`; `SameUseSameDependencies` is the lemma about it |
| `Dependencies.SameUseSameDependencies` | src/routes/github/pull/create-sandbox/index.ts:27-49 | `getDependencies` depends on the files only through the set of requirements found in them (order and repetition do not matter) |
| `Dependencies.DevVersionWinsCollision` | src/routes/github/pull/create-sandbox/index.ts:44-47 | runtime `react@^17` together with a used dev `react@^18` merges to `react@^18` |
| `Dependencies.AbsentFieldsAreEmpty` | src/routes/github/pull/create-sandbox/index.ts:34 | absent `dependencies`/`devDependencies` behave as `{}`; with none declared the merged map is empty |
| `Dependencies.RuntimePlusUsedDev` | src/routes/github/pull/create-sandbox/index.ts:34-47 | runtime `react` plus a dev `react-dom` that a file requires merge to both entries with their declared versions |
| `Dependencies.UnusedDevDropped` | src/routes/github/pull/create-sandbox/index.ts:39-47 | a devDependency that no requirement starts with, and that runtime does not declare, is absent from the merged map |
| `Sandbox.HtmlPath` | src/routes/github/pull/create-sandbox/index.ts:88 | `index.html` is chosen whenever present, else `public/index.html` when present; none is chosen exactly when both are absent; a chosen path is in the tree |
| `Sandbox.ExtractHtml` | src/routes/github/pull/create-sandbox/index.ts:51-63 | without an HTML module: no resources and the tree unchanged; with one: the parser's resources unchanged, the same key set, the HTML path's content is the body iff the body is truthy, else unchanged (`RewrittenContent`, lines 58-60), every other path unchanged |
| `Sandbox.ExtractHtmlStable` | src/routes/github/pull/create-sandbox/index.ts:56-60 | when the parser returns its own body unchanged and with no resources, a second rewrite changes nothing and finds no resources |
| `Sandbox.Validate` | src/routes/github/pull/create-sandbox/index.ts:74-84 | fails with `PackageJsonMissing` when `package.json` is absent; `ManifestParseError` when it does not parse or parses to `null`; `EntryPointMissing(entry)` when the entry (`EntryPoint`, line 80: `main` if truthy, else `getMainFile(getTemplate(manifest, tree))`) is absent; else succeeds with that entry, which is in the tree, and with the template classified on the unrewritten tree |
| `Sandbox.Describe` | src/routes/github/pull/create-sandbox/index.ts:91-109 | title is `title` when truthy, else `name`; tags `keywords`, else `[]`; description as given; modules/directories from denormalizing the rewritten tree; dependencies from the merged map over those modules; resources, template, entry from the earlier steps |
| `Sandbox.Assemble` | src/routes/github/pull/create-sandbox/index.ts:73-110 | succeeds iff validation succeeds, with validation's error otherwise; on success the descriptor is `Describe` over the HTML extraction of the tree |
| `Sandbox.GetHtmlInfo` | src/routes/github/pull/create-sandbox/index.ts:51-63 | with null: empty resources, null file, nothing modified; otherwise the same module back, the parser's resources, and the module's content set to the body iff the body is truthy; no other object is modified |
| `Sandbox.CreateSandbox` | src/routes/github/pull/create-sandbox/index.ts:73-110 | fails exactly when `Validate` does, with its error and no module changed; on success only the chosen HTML object changes (as `GetHtmlInfo` says), and the descriptor is built from the tree after that rewrite; with no module shared between paths, the result is `Assemble` of the original contents and the new tree is `ExtractHtml`'s |

## Left out

- `JSON.parse` of the manifest: an abstract parse that returns a typed
  `Manifest` or fails (failing also for a `null` manifest). JSON syntax is
  not modelled, and neither is which of lines 79-80 throws for `null`. Fields of an unexpected
  JSON type (a numeric `main`, a string `keywords`) are not modelled either.
- `getTemplate`, `getMainFile`, `parseHTML`, `denormalize`,
  `getDependencyRequiresFromFiles`: their files are not part of this model.
  They are abstract total functions.
- The shapes of the denormalizer's file and directory records are placeholders.
  Only their passage into the descriptor is modelled.
- `mapDependencies`: an abstract total map transformer. Its registry lookups,
  its exclusion table, its asynchrony, and a rejection of its promise are not
  modelled.
- The diagnostic `console.log` naming the template is left out: it is
  observability only.
- Key order of JavaScript objects: dependency maps are Dafny `map`s, so the
  insertion order the spread produces is not represented.
- Property lookup on the tree object is modelled as map membership. Names
  inherited from `Object.prototype` (such as `main: "toString"`) are not
  modelled; in JavaScript those would pass the entry check.
- The unused imports (`shortid`, `path.join`) play no part. `lodash.pickBy`
  is modelled directly as a map filter.
