# Index declaration validation rules

A model of the semantic checks that the schema compiler of Prisma's data model
runs on every `@@index`, `@@unique`/`@unique` and `@@fulltext` declaration
(`libs/datamodel/core/src/transform/ast_to_dml/validation_pipeline/validations/indexes.rs`).
Each of the ten rules reads three things. The first is the set of enabled preview
features. The second is the capability set of the active connector. The third is
one index declaration. The rule then appends diagnostics to a shared sink or does
nothing.

Files:

- `wrappers.dfy`: `Option`.
- `error_reporting.dfy`: `Span`, `Span::empty` (`EmptySpan`), the attribute
  validation error, the `Diagnostics` sink (a class whose `errors` sequence is
  only appended to), and `FirstPresent`. `FirstPresent` is the "first span that
  can be found, else a fallback" chain the rules use to pick a location.
- `index_model.dfy`: the declaration the rules read (`IndexDecl`: kind,
  algorithm, per-field `length`/`sort` arguments, the attribute's syntax with
  the spans of its named arguments, the model's span), the `Database`
  (preview features and connector capabilities as plain sets), and `Any`,
  the iterator `any` the rules use over the fields.
- `fulltext_bundling.dfy`: the four-state machine of the bundling rule
  (`Step`), its run over the sort flags of the fields (`Run`), and the proof
  that it accepts exactly the lists shaped sorted\* unsorted\* sorted\*. It
  fails exactly when a text field, then a sorted field, then a text field
  occur in that order.
- `indexes.dfy`: the messages, one firing condition per rule written as a
  declarative predicate, the ten rules as methods on the sink, and lemmas
  relating the rules to one another.

Each rule method mirrors the source's guard clauses and early returns. Its
postcondition says that the sink afterwards is the old sink plus exactly the
diagnostic (message, attribute tag, span) that the rule's firing predicate
calls for. Nothing is appended when the predicate is false. So every rule only
appends, and it appends nothing when a guard returns early.

## Model

| member | source | states |
|---|---|---|
| `ErrorReporting.Diagnostics.PushError` | libs/datamodel/core/src/transform/ast_to_dml/validation_pipeline/validations/indexes.rs:36-40 | the sink after a push is the old sink with the one new error at its end |
| `ErrorReporting.FirstPresent` | libs/datamodel/core/src/transform/ast_to_dml/validation_pipeline/validations/indexes.rs:28-34 | the result is the first candidate span that is present, or the fallback when none is |
| `IndexModel.Any` | libs/datamodel/core/src/transform/ast_to_dml/validation_pipeline/validations/indexes.rs:54-56 | true exactly when some element of the sequence satisfies the predicate |
| `Indexes.UniqueNameSpan` | libs/datamodel/core/src/transform/ast_to_dml/validation_pipeline/validations/indexes.rs:28-34 | a name collision points at the `map` argument, else the `name` argument, else the attribute, else the model |
| `Indexes.HasAUniqueConstraintName` | libs/datamodel/core/src/transform/ast_to_dml/validation_pipeline/validations/indexes.rs:13-42 | exactly one error per scope violation, in violation order, after the unchanged old errors; each names the final constraint name and the violation's description, with the attribute's name as tag and the span chosen by `UniqueNameSpan` |
| `Indexes.UsesLengthOrSortWithoutPreviewFlag` | libs/datamodel/core/src/transform/ast_to_dml/validation_pipeline/validations/indexes.rs:45-66 | one error iff `extendedIndexes` is off and some field has a sort order or a length, whatever the connector; the span is the attribute's, else the empty span |
| `Indexes.FieldLengthPrefixSupported` | libs/datamodel/core/src/transform/ast_to_dml/validation_pipeline/validations/indexes.rs:69-91 | one error iff the connector lacks length prefixing and some field has a length; the span is the attribute's, else the empty span |
| `Indexes.IndexAlgorithmIsSupported` | libs/datamodel/core/src/transform/ast_to_dml/validation_pipeline/validations/indexes.rs:94-115 | one error tagged `index` iff the connector lacks hash indexes and the algorithm is `Hash`, whatever the preview features; the span is the `type` argument's, else the empty span |
| `Indexes.FulltextIndexPreviewFeatureEnabled` | libs/datamodel/core/src/transform/ast_to_dml/validation_pipeline/validations/indexes.rs:118-139 | one error tagged `fulltext` iff the declaration is full-text and `fullTextIndex` is off, whatever the connector |
| `Indexes.FulltextIndexSupported` | libs/datamodel/core/src/transform/ast_to_dml/validation_pipeline/validations/indexes.rs:142-163 | one error tagged `fulltext` iff the declaration is full-text and the connector lacks full-text indexes, whatever the preview features |
| `Indexes.IndexAlgorithmPreviewFeature` | libs/datamodel/core/src/transform/ast_to_dml/validation_pipeline/validations/indexes.rs:166-185 | one error tagged `index` iff `extendedIndexes` is off and any algorithm is given |
| `Indexes.FulltextColumnsShouldNotDefineLength` | libs/datamodel/core/src/transform/ast_to_dml/validation_pipeline/validations/indexes.rs:188-218 | one error iff full-text is enabled and supported, the declaration is full-text and some field has a length |
| `Indexes.FulltextColumnSortIsSupported` | libs/datamodel/core/src/transform/ast_to_dml/validation_pipeline/validations/indexes.rs:221-258 | one error iff full-text is enabled and supported, the declaration is full-text, the connector lacks sort order in full-text, and some field has a sort order |
| `Indexes.FulltextTextColumnsShouldBeBundledTogether` | libs/datamodel/core/src/transform/ast_to_dml/validation_pipeline/validations/indexes.rs:265-325 | at most one error; one iff full-text is enabled and supported, the declaration is full-text, the connector supports sort in full-text, and some text field, sorted field, text field occur in that order |
| `FulltextBundling.Step` | libs/datamodel/core/src/transform/ast_to_dml/validation_pipeline/validations/indexes.rs:303-323 | the only failing transition is a text field read in the tail state; no transition returns to `Init`; a successful step lands in the text-run state exactly on a text field |
| `FulltextBundling.RunCharacterization` | libs/datamodel/core/src/transform/ast_to_dml/validation_pipeline/validations/indexes.rs:289-324 | the machine fails exactly on a split text run; it is in `Init` only on no fields, in the head state only on sorted fields, in the text-run state when no sorted field follows a text field, and in the tail state otherwise |
| `FulltextBundling.BundledIffNoSplit` | libs/datamodel/core/src/transform/ast_to_dml/validation_pipeline/validations/indexes.rs:260-264 | a flag list is sorted\* unsorted\* sorted\* exactly when it has no text, sorted, text triple |
| `FulltextBundling.AcceptsExactlyBundled` | libs/datamodel/core/src/transform/ast_to_dml/validation_pipeline/validations/indexes.rs:300-324 | the machine runs to the end without error exactly on the sorted\* unsorted\* sorted\* lists |
| `FulltextBundling.BundlingExamples` | libs/datamodel/core/src/transform/ast_to_dml/validation_pipeline/validations/indexes.rs:289-309 | no fields, two sorted, two text, and sorted-text-sorted are accepted; text-sorted-text is a split run |
| `Indexes.BundlingRuleExamples` | libs/datamodel/core/src/transform/ast_to_dml/validation_pipeline/validations/indexes.rs:270-324 | on a declaration where the bundling rule is active, those flag lists give no error and text-sorted-text gives the error |
| `Indexes.FulltextGatesSilenceFieldRules` | libs/datamodel/core/src/transform/ast_to_dml/validation_pipeline/validations/indexes.rs:193-203 | when either full-text gate fires, the length, sort and bundling rules for full-text fields do not |
| `Indexes.FulltextGatesBothFire` | libs/datamodel/core/src/transform/ast_to_dml/validation_pipeline/validations/indexes.rs:123-151 | the preview gate and the connector gate are independent: both fire on a full-text declaration when neither the feature nor the capability is present |
| `Indexes.SortAndBundlingRulesExclusive` | libs/datamodel/core/src/transform/ast_to_dml/validation_pipeline/validations/indexes.rs:238-287 | the full-text sort rule and the bundling rule never both fire on one declaration |
| `Indexes.BundlingViolationHasSortedField` | libs/datamodel/core/src/transform/ast_to_dml/validation_pipeline/validations/indexes.rs:302-309 | a bundling violation implies a field with a sort order, so without `extendedIndexes` the sort-or-length gate fires too |

## Left out

- The host pipeline that calls the rules for each declaration, and their order, live outside this file and are not part of this model.
- The parser database, the index walker, `ConstraintName` and the scope lookup are not part of this model. The scope lookup's collisions are an input sequence. Each collision's description (rendered with the model's name) is an opaque string.
- `attribute_name()` and `final_database_name()` of the walker are not part of this model. They are opaque strings carried by the declaration.
- The connector capability tables and the preview-feature registry are not modelled. Features and capabilities are plain sets over only the members these rules consult.
- `span_for_argument` is modelled as a map from argument name to span. An attribute that repeats an argument name is not represented.
- `Span::empty` is taken to be the zero-width range at offset 0.
- The rendering of an attribute validation error into its final text, and the warnings part of the sink, are not modelled.
- `IndexAlgorithm` is modelled with `BTree` and `Hash` only. The rules distinguish only `Hash` from the rest and "some algorithm" from none.
