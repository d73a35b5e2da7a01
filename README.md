# Search-index build classification and documentation dialect selection

Two small pieces of the Convex backend repository, modelled in Dafny.

- `IndexWorkers` (`index_workers.dfy`) models the classification used by the search
  index workers. A `BuildReason` says why an index is being built: `Backfilling`,
  `TooOld`, `TooLarge` or `VersionMismatch`. Each reason is sent to the backfill
  flusher or to the live flusher, and each gets one of two read-rate limits (pages per
  second): the passive limit or the normal one. The two limits are deployment knobs; the
  model takes them as a `Knobs` parameter of two non-zero 32-bit values, with no assumed
  order between them. `MAX_BACKOFF` is the ten-minute cap on a worker's retry backoff.
- `DocsTheme` (`docs_theme.dfy`) models the dialect state owned by the documentation
  site's `Root` theme wrapper. `Root` is a class with a `lang` field. Its constructor
  `Mount` sets `lang` to `"TS"`, and `SetLang` overwrites `lang` with any string. A ghost
  history of every value written lets the invariant `Valid()` say that `lang` is the
  last write since mount. What a component gets from `useContext` is a `Context`: either
  `Provider(root)` or `NoProvider`. `UseSelectedDialect` and `UseSetDialect` fail with
  `UndefinedContext` outside a provider, because there the context value is `undefined`
  and reading `.lang` or `.setLang` throws.

`setLang` never checks its argument against any set of tags: any value becomes the
selected dialect, and the model has no "invalid dialect" error.

## Model

| member | source | states |
|---|---|---|
| `IndexWorkers.FlusherTypeOf` | crates/database/src/index_workers/mod.rs:47-54 | a reason goes to the backfill flusher exactly when the index is new or on the wrong version (`Backfilling`, `VersionMismatch`), and to the live flusher exactly when the in-memory index is too old or too large (`TooOld`, `TooLarge`) |
| `IndexWorkers.ReasonsPartition` | crates/database/src/index_workers/mod.rs:47-54 | every reason needs exactly one of a backfill or a memory flush, so the conversion is total and gives one flusher type per reason |
| `IndexWorkers.ReadMaxPagesPerSecond` | crates/database/src/index_workers/mod.rs:56-68 | the limit is strictly positive; it is the normal knob for the reasons a developer waits on (`Backfilling`, `TooLarge`) and the passive knob for the other two (`TooOld`, `VersionMismatch`) |
| `IndexWorkers.FlusherTypeDoesNotDetermineKnob` | crates/database/src/index_workers/mod.rs:47-68 | for each flusher type and any knobs, one reason of that type reads at the passive knob and one at the normal knob, and flusher type plus choice of knob identifies the reason uniquely |
| `IndexWorkers.MaxBackoffIsTenMinutes` | crates/database/src/index_workers/mod.rs:24 | the maximum backoff is 600 seconds with no sub-second part |
| `DocsTheme.LastWriteIsLast` | npm-packages/docs/src/theme/Root.jsx:36 | after any sequence of `setLang` calls the state is the argument of the last call, and with no calls it is the starting value |
| `DocsTheme.Root.Mount` | npm-packages/docs/src/theme/Root.jsx:36 | a freshly mounted `Root` selects `"TS"` and has seen no writes |
| `DocsTheme.Root.SetLang` | npm-packages/docs/src/theme/Root.jsx:36 | callable on any `Root`; any value is accepted and becomes `lang`; the history grows by that value; the invariant "`lang` is the last write since mount" is kept |
| `DocsTheme.UseSelectedDialect` | npm-packages/docs/src/theme/Root.jsx:46-50 | inside a provider it returns the enclosing `Root`'s `lang`; it fails exactly when there is no provider; being a function, it changes nothing |
| `DocsTheme.UseSetDialect` | npm-packages/docs/src/theme/Root.jsx:52-54 | inside a provider it hands back the enclosing `Root`, whose `SetLang` is the setter and callers use nothing else of it; it fails exactly when there is no provider |
| `DocsTheme.SetDialect` | npm-packages/docs/src/theme/Root.jsx:39-54 | any component calling `useSetDialect()(v)` with the context it finds fails exactly outside a provider; inside one, every component under the same `Root` then reads `v`, and the `Root` keeps its invariant |
| `DocsTheme.PickThenRead` | npm-packages/docs/src/theme/Root.jsx:36-54 | one consumer reads `"TS"` after mount; after another consumer under the same `Root` sets `v` through `useSetDialect`, the first consumer reads `v` |
| `DocsTheme.SeparateRoots` | npm-packages/docs/src/theme/Root.jsx:12-36 | two separately mounted `Root`s are independent: after two writes to one, it reads the last one written and the other still reads `"TS"` |

## Left out

- `timeout_with_jitter` (mod.rs:71-76): it is async and sleeps on the runtime for between half and one and a half times the duration, the extra part scaled by a random `f32`.
- The concrete values of the two page-rate knobs: they are configuration defined elsewhere, so the model takes them as parameters.
- The submodules declared in mod.rs:1-7 (`fast_forward`, `search_flusher`, `writer`, and the others) are not part of this model.
- `MultiSegmentBackfillResult` (mod.rs:78-82): a plain record with no behaviour.
- In `Root.jsx`: the `logEvent` analytics call on mount (I/O), the effect that scrolls the active sidebar link into view (browser DOM), the font imports, and the `<Analytics />` component.
- React's rendering machinery. `setLang` is modelled as taking effect at once; React actually schedules a re-render, and consumers see the new value on their next render.
- `DocsTheme.Root.SetLang`: does not model React's functional-update form `setLang(prev => ...)`.
- Unmounting a `Root`, and calls to a setter kept after unmount. Outside a provider is modelled only as the `NoProvider` context.
- Nested providers. `useContext` finds the nearest one; here the `Context` argument stands for that nearest provider.
