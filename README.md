# Storybook CLI automigration: the `gfm` fix

A Dafny model of the `gfm` fix of the Storybook CLI's automigration tool
(`code/lib/cli/src/automigrate/fixes/mdx-gfm.ts`). Storybook 7.0 compiles MDX
with MDX2, which no longer includes GitHub-flavoured markdown (GFM). The fix
has two hooks that matter:

- `check` decides whether a project still needs GFM support. It answers
  "not applicable" (`null`) when the Storybook version is below 7.0.0, when
  `features.legacyMdx1` is exactly `true`, or when an entry of `addons`
  already provides GFM. An entry provides GFM if it is the bare string
  `@storybook/addon-gfm`, or if it is the `@storybook/addon-docs` preset
  with at least one remark plugin under
  `options.mdxPluginOptions.mdxCompileOptions.remarkPlugins`. Otherwise it
  answers "applicable" (`{}`).
- `run` does the migration. A dry run does nothing. Otherwise it installs
  `@storybook/addon-gfm` as a dev dependency, unless installs are skipped.
  Then it appends the bare name to the configuration's `addons` list.

Files:

- `wrappers.dfy`: `Option`, `Result` and `Outcome`. An absent JavaScript
  value is `None`, and a thrown exception is `Err` or `Fail`.
- `semver.dfy`: release versions `major.minor.patch` and their `>=` order.
- `mdx_gfm.dfy`: module `MdxGfm`. It holds the configuration shape, `Check`
  as a function, and `run` as `Project.Run`, a method on a class. The class
  has two fields: the main configuration and the list of install requests.

`Check` is specified against a reference predicate: "some entry provides GFM"
as an `exists` over the list. The code computes this with `Array.find`
followed by `!!`, modelled by `Find` and `Truthy`. `Project.Run` is specified
against the pure function `AppendGfm`. The lemmas connect the two hooks:
after the append, `check` says "skip". The append is not idempotent.

Behaviour the code has and the model keeps:

- `check` tests the version before it inspects the configuration's fields. So an old
  version gives `null` even with no configuration at all. A newer version
  with no configuration throws when `mainConfig.addons` is read.
- In `run`, an unset `addons` field throws when the code spreads
  `existingAddons`. The dependency has already been installed by then.
  `check` calls such a configuration applicable. This assumes
  `getFieldValue` returns `undefined` for a missing field. The
  configuration-file editor is not part of this model.

## Model

The predicates `MdxGfm.UsesLegacyMdx1` and `MdxGfm.Truthy` define the expressions at lines 25 and 28 (the `=== true` flag test and the `!!` on the found entry). They are covered by the rows for `MdxGfm.Check`, `MdxGfm.LegacyFlagSkips` and `MdxGfm.CoveringEntryIsTruthy`.

| member | source | states |
|---|---|---|
| `MdxGfm.Check` | code/lib/cli/src/automigrate/fixes/mdx-gfm.ts:18-46 | The result is `null` exactly when the version is below 7.0.0, or `legacyMdx1` is `true`, or some entry of a present `addons` list provides GFM. It throws exactly when the version passes, the flag is not `true`, and there is no configuration. Otherwise it is `{}`. |
| `Semver.Gte` | code/lib/cli/src/automigrate/fixes/mdx-gfm.ts:21 | `semver.gte` on release versions: the first of major, minor and patch in which the two versions differ decides, and equal versions compare as `>=`. |
| `MdxGfm.CoversGfm` | code/lib/cli/src/automigrate/fixes/mdx-gfm.ts:28-39 | The `find` callback accepts exactly two kinds of entry: the bare string `@storybook/addon-gfm`, and an `@storybook/addon-docs` preset with a non-empty `remarkPlugins`. It rejects every other entry, including a preset record named `@storybook/addon-gfm`. |
| `MdxGfm.Find` | code/lib/cli/src/automigrate/fixes/mdx-gfm.ts:28 | `Array.find`: the result is undefined iff no element satisfies the callback. Otherwise it is the element at the first index that satisfies it. |
| `MdxGfm.CoveringEntryIsTruthy` | code/lib/cli/src/automigrate/fixes/mdx-gfm.ts:28 | Every entry the callback accepts is truthy, so `!!find(...)` means "some entry provides GFM". |
| `MdxGfm.ThresholdIsMajorSeven` | code/lib/cli/src/automigrate/fixes/mdx-gfm.ts:21-23 | On release versions, `gte(version, 7.0.0)` holds iff the major version is at least 7. |
| `MdxGfm.LegacyFlagSkips` | code/lib/cli/src/automigrate/fixes/mdx-gfm.ts:25-43 | `legacyMdx1 === true` gives `null` whatever `addons` holds. With `addons` unset and the flag absent or not `true`, a version at or above 7.0.0 gives `{}`, so the flag alone decides. |
| `MdxGfm.GfmNameSkips` | code/lib/cli/src/automigrate/fixes/mdx-gfm.ts:29-31 | The bare string `@storybook/addon-gfm` anywhere in `addons` gives `null`. |
| `MdxGfm.DocsWithRemarkPluginsSkips` | code/lib/cli/src/automigrate/fixes/mdx-gfm.ts:35-37 | An `@storybook/addon-docs` preset with a non-empty `remarkPlugins` list anywhere in `addons` gives `null`. |
| `MdxGfm.AppendNonCoveringKeepsCheck` | code/lib/cli/src/automigrate/fixes/mdx-gfm.ts:28-39 | Appending an entry the callback rejects leaves the result of `check` unchanged, for every version and configuration. |
| `MdxGfm.OtherEntriesNeverSkip` | code/lib/cli/src/automigrate/fixes/mdx-gfm.ts:32-38 | Some entries never change the result: any other bare string, a preset named anything but the docs addon (including a preset named `@storybook/addon-gfm`), and a docs preset whose `remarkPlugins` is missing or empty. |
| `MdxGfm.AppendGfm` | code/lib/cli/src/automigrate/fixes/mdx-gfm.ts:70-76 | The new `addons` is one longer than the old one. The old entries come first, in order, then the bare `@storybook/addon-gfm`. `features` is unchanged. It throws iff `addons` is unset. |
| `MdxGfm.AppendGfmDisablesFix` | code/lib/cli/src/automigrate/fixes/mdx-gfm.ts:69-77 | After a successful append, `check` on the updated configuration returns `null` for every version. |
| `MdxGfm.AppendGfmAddsOneOccurrence` | code/lib/cli/src/automigrate/fixes/mdx-gfm.ts:70-73 | Each append adds exactly one more occurrence of `@storybook/addon-gfm`. There is no deduplication, even when the name is already present. |
| `MdxGfm.ApplicableWithoutAddonsRunFails` | code/lib/cli/src/automigrate/fixes/mdx-gfm.ts:72-73 | With a version at or above 7.0.0, a configuration without `addons` and without the legacy flag is judged applicable. The append then throws on it. |
| `MdxGfm.Project.AddDependencies` | code/lib/cli/src/automigrate/fixes/mdx-gfm.ts:64-66 | An install request is appended to the recorded installs. Nothing else changes. |
| `MdxGfm.Project.UpdateAddons` | code/lib/cli/src/automigrate/fixes/mdx-gfm.ts:69-78 | The `updateMainConfig` callback. The configuration becomes `AppendGfm` of the old one, or stays as it was under `dryRun`. It fails, leaving the configuration unchanged, iff `addons` is unset. |
| `MdxGfm.Project.Run` | code/lib/cli/src/automigrate/fixes/mdx-gfm.ts:61-80 | A dry run changes neither the installs nor the configuration. Otherwise one dev-dependency install of `@storybook/addon-gfm` is recorded iff `skipInstall` is false. The configuration becomes `AppendGfm` of the old one, and `addons` is still appended when the install is skipped. If the append throws, the configuration is unchanged but the install stays. |

## Left out

- `prompt` (lines 48-59) returns fixed advisory text. There is nothing to verify in it.
- Console output through `logger.info` (line 74) is not modelled.
- `getStorybookData` and `updateMainConfig`, with `getFieldValue` and `setFieldValue`, load and edit the configuration file and persist it. They are replaced by the `MainConfig` value and the `Project.mainConfig` field. Only the two fields the fix touches are modelled. The configuration-file editor is not part of this model.
- `packageManager.addDependencies` runs an external process. It is modelled only as a recorded `InstallRequest`. Its failures are not modelled.
- `semver.gte` is modelled on `major.minor.patch` naturals with lexicographic order. Pre-release and build tags are not modelled. Neither is the exception `semver` raises for a malformed version string.
- `async`/`await` and the fixed calling order `check`, `prompt`, `run` belong to the driver. The hooks are modelled as separate sequential operations.
- MdxGfm.Project.Run: the model assumes `updateMainConfig` passes an exception thrown in its callback on to the caller, so an unset `addons` field makes `run` fail. `updateMainConfig` is not part of this model. If it instead catches the exception, `run` resolves normally with the configuration unchanged and the install kept.
- A `legacyMdx1` value other than a boolean is modelled as absent. Under `=== true` it behaves the same.
- `addons` entries other than strings and `{ name, options }` records are not modelled. `null` is one example: the code would throw on `item.name`. So is an `addons` value that is not an array.
- Remark plugins are modelled as opaque strings. Only their number matters.
- The unused `value` field of the fix's `Options` type exists only as the shape of the `{}` result. The fix registry typing (`Fix<Options>`, `id`) is not modelled.
