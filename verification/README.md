# soukousei configuration layers, modelled in Dafny

`soukousei` builds a typed configuration from partial sources: in-code defaults, documents
and environment variables. Each configuration type has a *layer* in which every field is
optional. Layers are created empty (`new`) or from defaults (`default`), filled from the
environment (`from_env`), and combined with a right-biased `merge`. The last step is
`complete`. It yields the finished value, or a report that lists every missing field with
its path, all in one pass. The crate does not stop at the first error.

This project models these parts of the crates:

- **The error accumulator** (`Soukousei`, `soukousei.dfy`).
  - `FieldsAcc` / `MultipleFieldsError` hold an ordered sequence of (path, leaf error)
    entries. They support `new`, `add`, `nest`, `nest_if_err`, `add_if_none` and
    `result`.
  - `into_diagnostic` renders each path joined with ".".
  - `CompleteError` is either `MissingSelf` or `MissingFields`. The `ResultExt` bridge
    folds it into a parent's accumulator.
- **The environment helpers** (`Env`, `env.dfy`).
  - These are `add_if_err`, `fetch_and_parse` and `try_fetch_multiple_and_parse`.
  - A provider is any function from a variable name to present / absent / error.
  - A parser is any function from text to a value or an error.
- **The in-memory test provider** `TestEnv` (`TestEnvProvider`, `test_env.dfy`). It is
  map-backed and never fails. The scenario lemmas use it as the provider handed to the
  layers' `from_env` (see "Left out" for how this differs from the source).
- **The layer contract, as the hand-written macro output.**
  - `CustomLayer` (`custom_layer.dfy`) merges by taking the maximum.
  - `NestedLayer` (`nested_layer.dfy`) has two plain fields read from the environment.
  - `SampleLayer` (`sample_layer.dfy`) has three plain fields, a nested layer and a
    custom layer.
  - Each has `new`, `merge`, `default`, `complete` and `from_env`.
  - The override rule every plain field of `merge` follows is `Layers.Overrides`
    (`layer.dfy`).
- **The derive macro's schema side.**
  - Field classification and the parsing of `env` attributes (`Derive`, `derive.dfy`).
  - The per-field code emission of `new`, `merge` and `default` (`Codegen`,
    `codegen.dfy`). The emitted Rust is kept as a small expression datatype. `Eval`
    gives it the meaning the Rust has.

`Codegen.NestedLayerIsGenerated` compares the hand-written `NestedLayer` with the
generator's output, for `new`, `merge` and `default` only. The generator's input for that
comparison, `Codegen.NestedSchema`, is written by hand as two `IrField`s, for two reasons:
- `Ir::from_args` is `todo!()`.
- The attributes on `Nested` (manual_macro.rs lines 184 and 186) are commented out and
  spelled `#[param(...)]`, while darling reads only `layer` attributes.

`NestedSchema` transcribes what those comments declare.

Every operation is a pure function over immutable datatypes. The source threads its
accumulator by value as well.

### Path order

`WithPath::add_loc` pushes a segment onto the end of the path, and nesting happens from the
inside out. So a stored path runs leaf-to-root: `foo_env` inside `nested` is stored as
`["foo_env", "nested"]`. `into_diagnostic` joins the segments without reversing them, so
the path renders as `foo_env.nested`. Rendering is therefore leaf-first: the outermost
field name comes last. `Soukousei.NestedPathRendersLeafFirst` and `SampleLayers.ThreeMissingFieldsReported` state
the rendering as written.

### Default-then-complete

`SampleLayers.Default` proves that completing the default layer fails, with a single entry
at `required_baz`. The source's document-based test (`success_build_from_toml`) merges the
default layer with a document whose only line, `required_baz`, is commented out. That
merge is the default layer itself (`SampleLayers.New` is a merge identity), so the test's
`complete` reports `required_baz` missing. `SampleLayers.DefaultDocumentEnvironmentRoundTrip`
instead proves the pipeline with `required_baz = false` present in the document.

## Model

| member | source | states |
|---|---|---|
| `Soukousei.AddLoc` | crates/soukousei/src/lib.rs:315-318 | `add_loc` keeps the existing segments and the error, and puts the new, outer segment last: the source of the leaf-first path order |
| `Soukousei.NestedEntries` | crates/soukousei/src/lib.rs:199-203 | nesting keeps the child's entries and their order, and pushes the segment onto the end of each path |
| `Soukousei.NestedEntriesTwice` | crates/soukousei/src/lib.rs:315-318 | a failure nested two levels deep keeps both segments, inner first, so paths are stored leaf-to-root |
| `Soukousei.AddField` | crates/soukousei/src/lib.rs:195-197 | `add_field` appends one entry whose path is exactly `[loc]` |
| `Soukousei.NestFields` | crates/soukousei/src/lib.rs:199-203 | the push loop of `FieldsAcc::nest` leaves the parent's entries in front, followed by every child entry re-rooted at `loc` |
| `Soukousei.New` | crates/soukousei/src/lib.rs:216-220 | a fresh accumulator has no entries, and `result()` on it succeeds |
| `Soukousei.Add` | crates/soukousei/src/lib.rs:222-225 | `add` adds exactly one entry at the end with path `[loc]`; existing entries are unchanged |
| `Soukousei.Nest` | crates/soukousei/src/lib.rs:227-230 | after `nest` the length is parent plus child, the parent's entries are untouched, and child entry i sits at parent-length + i with `loc` pushed onto its path |
| `Soukousei.NestIfErr` | crates/soukousei/src/lib.rs:232-241 | `Ok(v)` gives `(Some(v), acc)` unchanged; `Err(child)` gives `None` and nests the child at `loc` |
| `Soukousei.AsResult` | crates/soukousei/src/lib.rs:243-249 | `result()` is `Ok(())` exactly when there are no entries, and otherwise `Err` of the accumulator itself |
| `Soukousei.AddIfNone` | crates/soukousei/src/lib.rs:293-298 | one `MissingFieldError` at `loc` exactly when the option is `None`; otherwise the accumulator is unchanged |
| `Soukousei.Join` | crates/soukousei/src/lib.rs:262 | `path.join(".")` renders nothing for no segments, and otherwise starts with the first stored segment, i.e. the leaf |
| `Soukousei.WellFormedPreserved` | crates/soukousei/src/lib.rs:216-230 | `new`, `add` and `nest` only ever build accumulators whose every entry has a non-empty path |
| `Soukousei.JoinSnoc` | crates/soukousei/src/lib.rs:261-262 | joining with "." after an outer segment is pushed appends "." and that segment to the rendered path |
| `Soukousei.IntoDiagnostic` | crates/soukousei/src/lib.rs:256-268 | one report item per entry, in entry order, whose path is the stored segments joined by "." |
| `Soukousei.DiagnosticOfNest` | crates/soukousei/src/lib.rs:256-268 | after a nest, the parent's report items are unchanged, and each child item reappears with ".loc" appended, so the outer name renders last |
| `Soukousei.NestedPathRendersLeafFirst` | crates/soukousei/src/lib.rs:315-318 | `foo_env` added to a child and nested under `nested` renders as "foo_env.nested" |
| `Soukousei.CompleteNestIfErr` | crates/soukousei/src/lib.rs:159-178 | `Ok(v)`: `(Some(v), acc)` unchanged. `MissingSelf`: one entry at `loc`. `MissingFields(child)`: the child nested at `loc`. Any non-empty failure grows the accumulator |
| `Env.ParseString` | crates/soukousei/src/lib.rs:17-24 | `default_env_parse` for `String` never fails and keeps the text as it is |
| `Env.StringFieldReadsRawValue` | crates/soukousei/src/lib.rs:17-24 | a `String` field read through `default_env_parse` fails exactly when the provider fails, and otherwise holds what the provider returned |
| `Env.AddIfErr` | crates/soukousei/src/lib.rs:46-55 | `Ok(v)` gives `(v, acc)` unchanged; `Err(e)` gives `None` and one more entry carrying `e` at `loc` |
| `Env.FetchAndParse` | crates/soukousei/src/lib.rs:61-75 | a fetch error or a parse error becomes an error naming the key; the result is `Ok(None)` exactly when the variable is absent; a present value yields the parser's result |
| `Env.AbsentIgnoresParser` | crates/soukousei/src/lib.rs:69-74 | for an absent variable the parser is never consulted: any two parsers give `Ok(None)` |
| `Env.TryFetchMultipleAndParse` | crates/soukousei/src/lib.rs:77-94 | `Ok(None)` exactly when every key is absent; when the first key is present or fails, its fetch-and-parse result is returned as it is |
| `Env.FirstPresentKeyDecides` | crates/soukousei/src/lib.rs:87-93 | if key j is the first key not absent, the search returns exactly key j's fetch-and-parse result, a value or an error, and never consults later keys |
| `TestEnvProvider.New` | crates/totonoeru/tests/util.rs:9-13 | a fresh `TestEnv` has every variable absent |
| `TestEnvProvider.Add` | crates/totonoeru/tests/util.rs:15-19 | after `add(k, v)` the key reads `v`, and every other key reads as before |
| `TestEnvProvider.Fetch` | crates/totonoeru/tests/util.rs:25-27 | `fetch` never errors; it is present exactly for added keys, with the stored value |
| `TestEnvProvider.LaterAddOverwrites` | crates/totonoeru/tests/util.rs:16-17 | a later `add` of the same key replaces the earlier value entirely |
| `TestEnvProvider.FetchAfterAdd` | crates/totonoeru/tests/util.rs:15-27 | through `fetch`: after `add(k, v)`, key k gives `Some(v)` and every other key gives its old answer |
| `CustomLayers.New` | crates/soukousei/tests/manual_macro.rs:57-59 | `new()` is absent, and it is a left and right identity of the max-merge |
| `CustomLayers.Merge` | crates/soukousei/tests/manual_macro.rs:61-70 | present iff either side is present; never smaller than a present side; always one of the two inputs |
| `CustomLayers.MergeCommutative` | crates/soukousei/tests/manual_macro.rs:61-70 | the max-merge does not depend on argument order |
| `CustomLayers.MergeAssociative` | crates/soukousei/tests/manual_macro.rs:61-70 | the max-merge is associative |
| `CustomLayers.Default` | crates/soukousei/tests/manual_macro.rs:37-41 | the default is 100, and it completes to 100 |
| `CustomLayers.Complete` | crates/soukousei/tests/manual_macro.rs:72-74 | succeeds exactly when present, with that value; otherwise `MissingSelf` |
| `CustomLayers.FromEnv` | crates/soukousei/tests/manual_macro.rs:43-52 | never fails and yields the empty layer for any provider |
| `NestedLayers.New` | crates/soukousei/tests/manual_macro.rs:245-250 | both fields absent; a left and right identity of `merge` |
| `NestedLayers.Merge` | crates/soukousei/tests/manual_macro.rs:252-257 | each field takes `other`'s value when present, else keeps `self`'s |
| `NestedLayers.MergeAssociative` | crates/soukousei/tests/manual_macro.rs:252-257 | override merging is associative |
| `NestedLayers.LastSourceWins` | crates/soukousei/tests/manual_macro.rs:252-257 | after merging any chain of sources, each field holds the value of the latest source that set it, and is absent iff no source set it |
| `NestedLayers.Default` | crates/soukousei/tests/manual_macro.rs:202-209 | `foo_env` is "I am default foo!", `bar_env_multiple` is absent, and the default completes |
| `NestedLayers.Complete` | crates/soukousei/tests/manual_macro.rs:259-270 | succeeds iff `foo_env` is present, carrying both fields over; otherwise `MissingFields` with exactly one entry, at `foo_env` |
| `NestedLayers.FromEnv` | crates/soukousei/tests/manual_macro.rs:211-240 | `foo_env` comes from FOO, and `bar_env_multiple` from SPECIFIC_BAR then BAR. Succeeds iff neither lookup failed. Otherwise every failure is reported under its own field name, both fields examined |
| `NestedLayers.BarPrecedence` | crates/soukousei/tests/manual_macro.rs:223-231 | with only BAR set, its parsed value is used; with SPECIFIC_BAR also set, SPECIFIC_BAR wins |
| `SampleLayers.New` | crates/soukousei/tests/manual_macro.rs:132-140 | plain fields absent and nested fields their own `new()`; a left and right identity of `merge` |
| `SampleLayers.Merge` | crates/soukousei/tests/manual_macro.rs:142-150 | plain fields are overridden by `other` when present; `nested` and `custom` are combined by their own merge, never replaced |
| `SampleLayers.MergeAssociative` | crates/soukousei/tests/manual_macro.rs:142-150 | merging layers is associative |
| `SampleLayers.Default` | crates/soukousei/tests/manual_macro.rs:94-104 | `with_default_foo` is 100; `nested` and `custom` take their defaults; the rest is absent. Completing it fails with one entry, at `required_baz` |
| `SampleLayers.Complete` | crates/soukousei/tests/manual_macro.rs:152-175 | succeeds iff every required field at every depth is present, and then holds the layer's values. Otherwise `MissingFields` with one entry per missing field, in visit order, the nested one at `["foo_env", "nested"]` |
| `SampleLayers.CompleteReportsEveryMissingField` | crates/soukousei/tests/manual_macro.rs:152-165 | the number of reported entries equals the number of missing required fields: no fail-fast, no extras |
| `SampleLayers.ThreeMissingFieldsReported` | crates/soukousei/tests/manual_macro.rs:152-165 | missing `with_default_foo`, `required_baz` and nested `foo_env` render exactly "with_default_foo", "required_baz", "foo_env.nested" |
| `SampleLayers.MissingCustomIsOneEntry` | crates/soukousei/tests/manual_macro.rs:161-165 | an absent `custom` is `MissingSelf` in its own layer and one entry at "custom" in the parent |
| `SampleLayers.FromEnv` | crates/soukousei/tests/manual_macro.rs:106-127 | plain fields absent, `custom` empty, `nested` from its own `from_env`; its failures are reported nested under "nested" |
| `SampleLayers.DefaultDocumentEnvironmentRoundTrip` | crates/soukousei/tests/manual_macro.rs:281-286 | default, then a document with `required_baz = false`, then an environment with FOO completes. `with_default_foo` and `custom` stay 100 and `foo_env` is FOO's value |
| `Derive.CollectStrLits` | crates/soukousei_derive/src/lib.rs:95-104 | all literal values in order when every element is an attribute-free string literal; otherwise the error for the first element that is not |
| `Derive.FromExpr` | crates/soukousei_derive/src/lib.rs:89-114 | accepts exactly a plain string literal (`Single`) or a non-empty, attribute-free array of them (`Multiple`, order kept), and returns what was written. Anything else fails |
| `Derive.EnvRoundTrip` | crates/soukousei_derive/src/lib.rs:94-111 | writing an `env` value as an attribute and parsing it back gives it back, provided a candidate list is non-empty |
| `Derive.ArgsFromAttrs` | crates/soukousei_derive/src/lib.rs:14-30 | `default` is kept as written, `env` is parsed (its error aborts), and an omitted `nested` means `false` |
| `Derive.TryFromArgs` | crates/soukousei_derive/src/lib.rs:62-79 | rejected iff the field has no name, or it is `nested` with a `default` or an `env`. Otherwise `Nested` iff `nested`, and a `Field` carries `default` and `env` unchanged |
| `Derive.NestedWithDefaultOrEnvIsRejected` | crates/soukousei_derive/src/lib.rs:73-77 | a nested field with an `env` and a nested field with a `default` are both schema errors |
| `Derive.ParseAllAttributes` | crates/soukousei_derive/src/lib.rs:353-403 | the five fields of the attribute test extract to the `LayerFieldArgs` that test asserts. The model adds its own check, which the test does not make: classifying the array-`env` field gives a `Field` and the `nested` field gives `Nested` |
| `Codegen.CodegenNew` | crates/soukousei_derive/src/lib.rs:149-154 | the `new` initialiser names the field itself and reads neither layer |
| `Codegen.CodegenMerge` | crates/soukousei_derive/src/lib.rs:156-163 | the `merge` initialiser names the field itself and reads exactly that field of `self` and of `other` |
| `Codegen.CodegenDefault` | crates/soukousei_derive/src/lib.rs:165-180 | the `default` initialiser names the field itself and reads neither layer |
| `Codegen.CodegenNewFields` | crates/soukousei_derive/src/lib.rs:255-261 | one initialiser per field, same names in field order, none reading a layer |
| `Codegen.CodegenMergeFields` | crates/soukousei_derive/src/lib.rs:263-269 | one initialiser per field, same names in field order, each reading only its own field of the two layers |
| `Codegen.CodegenDefaultFields` | crates/soukousei_derive/src/lib.rs:271-277 | one initialiser per field, same names in field order, none reading a layer |
| `Codegen.EmittedNewIsEmpty` | crates/soukousei_derive/src/lib.rs:149-154 | the emitted `new` sets a plain field to `None` and a nested field to its layer's `new()` |
| `Codegen.EmittedMergeSemantics` | crates/soukousei_derive/src/lib.rs:156-163 | the emitted `merge` of a field is right-biased on a plain field and delegates to the nested layer's `merge(self, other)`, and its value is of the field's kind |
| `Codegen.EmittedNewIsMergeIdentity` | crates/soukousei_derive/src/lib.rs:149-163 | if the nested layer's `new()` is a merge identity, then so is every field's emitted `new` value under the emitted `merge` |
| `Codegen.EmittedDefaultSemantics` | crates/soukousei_derive/src/lib.rs:165-180 | the emitted `default` gives `Some(d)` for a plain field with default d, `None` without one, and `Default::default()` for a nested field |
| `Codegen.EvalInitsPointwise` | crates/soukousei_derive/src/lib.rs:255-277 | a generated struct literal with distinct field names, each initialiser well-typed, evaluates to the record that maps each name to its initialiser's value |
| `Codegen.EmittedNewLayer` | crates/soukousei_derive/src/lib.rs:255-261 | for a schema with distinct field names, the generated `new` is a layer value of the schema holding every field's empty value |
| `Codegen.EmittedMergeLayer` | crates/soukousei_derive/src/lib.rs:263-269 | the generated `merge` of two layer values of a schema is one too. Every plain field follows the override rule, and every nested field is the nested layers' merge |
| `Codegen.EmittedNewIsLayerMergeIdentity` | crates/soukousei_derive/src/lib.rs:255-269 | if the nested layers' `new()` is a merge identity, the generated `new` is a two-sided identity of the generated `merge` for the whole struct |
| `Codegen.EmittedDefaultLayer` | crates/soukousei_derive/src/lib.rs:271-277 | the generated `default` is a layer value holding each plain field's declared default or `None`, and each nested layer's default |
| `Codegen.NestedLayerIsGenerated` | crates/soukousei/tests/manual_macro.rs:242-257 | the hand-written `new`, `merge` and `default` of `NestedLayer` equal the generator's output for the hand-written `NestedSchema` |

## Left out

- `StdEnv` reads the process environment and checks it for valid UTF-8. It is I/O; the
  model has the abstract provider and `TestEnv`.
- `default_env_parse` wraps the foreign `FromStr`. For `String` it cannot fail
  (`Env.ParseString`). The `u32` parser is an arbitrary function parameter.
- Error reports are opaque values of a type parameter. miette's `Report` / `Diagnostic`,
  thiserror, and the `FieldsErrorBunch` wrapper are not modelled. Only the "." path join
  of `into_diagnostic` is kept.
- The provider's error and the parser's error share one type parameter; in the
  `soukousei` crate both are `Report`.
- `FieldsAcc::is_empty` is folded into `Soukousei.AsResult`.
- The `From` conversion of a `MultipleFieldsError` into `CompleteError` is written inline
  where `?` uses it.
- `HasLayer` only names a type. The `Layer` trait has no Dafny counterpart beyond its
  merge rule `Layers.Overrides`, because traits are not used. Each layer's operations are
  functions of its own module.
- The darling/syn attribute extraction is modelled only as far as `Derive.ArgsFromAttrs`
  goes: the `nested` default, and `env` through `from_expr`. Expressions are a
  three-shape datatype; the struct-level `LayerArgs` is not modelled.
- `quote!` token streams are not modelled; the emitted code is a small expression
  datatype instead.
- `Ir::codegen` is not modelled: as written it interpolates `#self.ident_main` and leaves
  `complete` empty.
- `Ir::from_args`, `derive_layer` and `is_option_already` are `todo!()`.
- The two `should_panic` tests of the derive crate have `todo!()` bodies. Their intent is
  stated by `Derive.NestedWithDefaultOrEnvIsRejected`.
- `from_env` and `complete` are not emitted by the generator in the source, so they have
  no emission model.
- The derive's rejection of `nested` on a type without a layer counterpart is only a
  TODO in the source.
- `SampleLayer` is not compared with generated code. Its `custom` field would need
  `nested = "CustomPartial"`, which the derive's boolean `nested` cannot express.
- `TestEnv` in the source implements the `totonoeru` crate's `EnvProvider`, with error
  type `()`, and not the `soukousei` trait, whose errors are `Report`.
  `TestEnvProvider.Fetch` is therefore generic in the error type. Handing it to the
  `soukousei` layers' `from_env` is a modelling choice; the source does not do this.
- `Codegen.NestedSchema` is written by hand: `Ir::from_args` is `todo!()`, and `Nested`'s
  attributes are commented out. Only `new`, `merge` and `default` are compared with the
  hand-written `NestedLayer`; `from_env` and `complete` are not generated.
- serde/toml deserialisation of a layer is not modelled. A document is any layer value,
  which is what every lemma quantifies over.
- `crates/soukousei/tests/heap.rs` relies on a `Config` derive that does not exist, so it
  is not part of this model.
- The older fail-fast layer code in `crates/totonoeru/tests/manual_macro.rs` (`Partial`,
  `ResolveError`) is superseded and is not part of this model.
