/**
 * The validation rules for `@@index`, `@@unique`/`@unique` and `@@fulltext`
 * declarations. Each rule reads the enabled preview features, the capabilities
 * of the active connector and one declaration, and either appends one
 * diagnostic to the sink or leaves it alone; the constraint-name rule appends
 * one diagnostic per name collision.
 */
module Indexes {
  import opened Wrappers
  import opened ErrorReporting
  import opened IndexModel
  import opened FulltextBundling

  // ---------------------------------------------------------------- messages

  const SortOrLengthWithoutPreviewMessage :=
    "You must enable `extendedIndexes` preview feature to use sort or length parameters."
  const LengthPrefixUnsupportedMessage :=
    "The length argument is not supported in an index definition with the current connector"
  const HashUnsupportedMessage :=
    "The given type argument is not supported with the current connector"
  const FulltextWithoutPreviewMessage :=
    "You must enable `fullTextIndex` preview feature to be able to define a @@fulltext index."
  const FulltextUnsupportedMessage :=
    "Defining fulltext indexes is not supported with the current connector."
  const AlgorithmWithoutPreviewMessage :=
    "You must enable `extendedIndexes` preview feature to be able to define the index type."
  const FulltextLengthMessage :=
    "The length argument is not supported in a @@fulltext attribute."
  const FulltextSortMessage :=
    "The sort argument is not supported in a @@fulltext attribute in the current connector."
  const FulltextBundleMessage :=
    "All index fields must be listed adjacently in the fields argument."

  /** The message for a constraint name that collides within its namespace. */
  function UniqueNameMessage(name: string, description: string): string {
    "The given constraint name `" + name + "` has to be unique in the following namespace: "
    + description + ". Please provide a different name using the `map` argument."
  }

  // ------------------------------------------------------------------- spans

  /**
   * Where a name collision is reported: the `map` argument, else the `name`
   * argument, else the whole attribute, else the owning model.
   */
  function UniqueNameSpan(index: IndexDecl): (s: Span)
    ensures ArgumentSpan(index, "map").Some? ==> s == ArgumentSpan(index, "map").value
    ensures ArgumentSpan(index, "map").None? && ArgumentSpan(index, "name").Some? ==>
              s == ArgumentSpan(index, "name").value
    ensures index.astAttribute.Some? && ArgumentSpan(index, "map").None? && ArgumentSpan(index, "name").None? ==>
              s == index.astAttribute.value.span
    ensures index.astAttribute.None? ==> s == index.modelSpan
  {
    var candidates := [ArgumentSpan(index, "map"), ArgumentSpan(index, "name"), AttributeSpan(index)];
    assert candidates[0].None? ==> NoneBefore(candidates, 1);
    assert candidates[0].None? && candidates[1].None? ==> NoneBefore(candidates, 2);
    FirstPresent(candidates, index.modelSpan)
  }

  /** The attribute's span, else `fallback`. */
  function AttributeSpanOr(index: IndexDecl, fallback: Span): Span {
    FirstPresent([AttributeSpan(index)], fallback)
  }

  /** The span of the `type` argument, else the empty span. */
  function TypeArgumentSpan(index: IndexDecl): Span {
    FirstPresent([ArgumentSpan(index, "type")], EmptySpan)
  }

  // ---------------------------------------------------- firing conditions

  ghost predicate SomeFieldHasLength(index: IndexDecl) {
    exists i :: 0 <= i < |index.fields| && index.fields[i].length.Some?
  }

  ghost predicate SomeFieldHasSortOrder(index: IndexDecl) {
    exists i :: 0 <= i < |index.fields| && index.fields[i].sortOrder.Some?
  }

  /** The sort flag of each field, in declaration order. */
  function SortFlags(fields: seq<FieldAttribute>): seq<bool> {
    seq(|fields|, i requires 0 <= i < |fields| => fields[i].sortOrder.Some?)
  }

  ghost predicate SortOrLengthWithoutPreviewFlag(db: Database, index: IndexDecl) {
    && PreviewFeature.ExtendedIndexes !in db.previewFeatures
    && (SomeFieldHasSortOrder(index) || SomeFieldHasLength(index))
  }

  ghost predicate LengthPrefixUnsupported(db: Database, index: IndexDecl) {
    && ConnectorCapability.IndexColumnLengthPrefixing !in db.capabilities
    && SomeFieldHasLength(index)
  }

  ghost predicate HashAlgorithmUnsupported(db: Database, index: IndexDecl) {
    && ConnectorCapability.UsingHashIndex !in db.capabilities
    && index.algorithm == Some(Hash)
  }

  ghost predicate FulltextWithoutPreviewFlag(db: Database, index: IndexDecl) {
    && PreviewFeature.FullTextIndex !in db.previewFeatures
    && index.IsFulltext()
  }

  ghost predicate FulltextUnsupported(db: Database, index: IndexDecl) {
    && ConnectorCapability.FullTextIndex !in db.capabilities
    && index.IsFulltext()
  }

  ghost predicate AlgorithmWithoutPreviewFlag(db: Database, index: IndexDecl) {
    && PreviewFeature.ExtendedIndexes !in db.previewFeatures
    && index.algorithm.Some?
  }

  /** The common guard of the last three rules: a full-text index that is allowed at all. */
  ghost predicate FulltextEnabled(db: Database, index: IndexDecl) {
    && PreviewFeature.FullTextIndex in db.previewFeatures
    && ConnectorCapability.FullTextIndex in db.capabilities
    && index.IsFulltext()
  }

  ghost predicate FulltextLengthDefined(db: Database, index: IndexDecl) {
    FulltextEnabled(db, index) && SomeFieldHasLength(index)
  }

  ghost predicate FulltextSortUnsupported(db: Database, index: IndexDecl) {
    && FulltextEnabled(db, index)
    && ConnectorCapability.SortOrderInFullTextIndex !in db.capabilities
    && SomeFieldHasSortOrder(index)
  }

  ghost predicate FulltextFieldsNotBundled(db: Database, index: IndexDecl) {
    && FulltextEnabled(db, index)
    && ConnectorCapability.SortOrderInFullTextIndex in db.capabilities
    && HasSplitBundle(SortFlags(index.fields))
  }

  // ------------------------------------------------------------------ rules

  /** One error per collision of the final constraint name, in collision order. */
  method HasAUniqueConstraintName(violations: seq<ScopeViolation>, index: IndexDecl, diagnostics: Diagnostics)
    modifies diagnostics
    ensures |diagnostics.errors| == |old(diagnostics.errors)| + |violations|
    ensures diagnostics.errors[..|old(diagnostics.errors)|] == old(diagnostics.errors)
    ensures forall i :: 0 <= i < |violations| ==>
              diagnostics.errors[|old(diagnostics.errors)| + i] == AttributeValidationError(
                UniqueNameMessage(index.finalDatabaseName, violations[i].description),
                index.attributeName,
                UniqueNameSpan(index))
  {
    ghost var before := diagnostics.errors;
    for n := 0 to |violations|
      invariant |diagnostics.errors| == |before| + n
      invariant diagnostics.errors[..|before|] == before
      invariant forall i :: 0 <= i < n ==>
                  diagnostics.errors[|before| + i] == AttributeValidationError(
                    UniqueNameMessage(index.finalDatabaseName, violations[i].description),
                    index.attributeName,
                    UniqueNameSpan(index))
    {
      var message := UniqueNameMessage(index.finalDatabaseName, violations[n].description);
      var span := UniqueNameSpan(index);
      diagnostics.PushError(AttributeValidationError(message, index.attributeName, span));
    }
  }

  /** Sort and length arguments need the `extendedIndexes` preview feature. */
  method UsesLengthOrSortWithoutPreviewFlag(db: Database, index: IndexDecl, diagnostics: Diagnostics)
    modifies diagnostics
    ensures diagnostics.errors == old(diagnostics.errors) +
      if SortOrLengthWithoutPreviewFlag(db, index) then
        [AttributeValidationError(SortOrLengthWithoutPreviewMessage, index.attributeName, AttributeSpanOr(index, EmptySpan))]
      else []
  {
    if PreviewFeature.ExtendedIndexes in db.previewFeatures {
      return;
    }
    if Any(index.fields, (f: FieldAttribute) => f.sortOrder.Some? || f.length.Some?) {
      diagnostics.PushError(
        AttributeValidationError(SortOrLengthWithoutPreviewMessage, index.attributeName, AttributeSpanOr(index, EmptySpan)));
    }
  }

  /** A length prefix needs a connector that supports it. */
  method FieldLengthPrefixSupported(db: Database, index: IndexDecl, diagnostics: Diagnostics)
    modifies diagnostics
    ensures diagnostics.errors == old(diagnostics.errors) +
      if LengthPrefixUnsupported(db, index) then
        [AttributeValidationError(LengthPrefixUnsupportedMessage, index.attributeName, AttributeSpanOr(index, EmptySpan))]
      else []
  {
    if ConnectorCapability.IndexColumnLengthPrefixing in db.capabilities {
      return;
    }
    if Any(index.fields, (f: FieldAttribute) => f.length.Some?) {
      var span := AttributeSpanOr(index, EmptySpan);
      diagnostics.PushError(AttributeValidationError(LengthPrefixUnsupportedMessage, index.attributeName, span));
    }
  }

  /** `type: Hash` needs a connector that supports hash indexes. */
  method IndexAlgorithmIsSupported(db: Database, index: IndexDecl, diagnostics: Diagnostics)
    modifies diagnostics
    ensures diagnostics.errors == old(diagnostics.errors) +
      if HashAlgorithmUnsupported(db, index) then
        [AttributeValidationError(HashUnsupportedMessage, "index", TypeArgumentSpan(index))]
      else []
  {
    if ConnectorCapability.UsingHashIndex in db.capabilities {
      return;
    }
    if index.algorithm == Some(Hash) {
      var span := TypeArgumentSpan(index);
      diagnostics.PushError(AttributeValidationError(HashUnsupportedMessage, "index", span));
    }
  }

  /** `@@fulltext` needs the `fullTextIndex` preview feature. */
  method FulltextIndexPreviewFeatureEnabled(db: Database, index: IndexDecl, diagnostics: Diagnostics)
    modifies diagnostics
    ensures diagnostics.errors == old(diagnostics.errors) +
      if FulltextWithoutPreviewFlag(db, index) then
        [AttributeValidationError(FulltextWithoutPreviewMessage, "fulltext", AttributeSpanOr(index, index.modelSpan))]
      else []
  {
    if PreviewFeature.FullTextIndex in db.previewFeatures {
      return;
    }
    if index.IsFulltext() {
      var span := AttributeSpanOr(index, index.modelSpan);
      diagnostics.PushError(AttributeValidationError(FulltextWithoutPreviewMessage, "fulltext", span));
    }
  }

  /** `@@fulltext` needs a connector that supports full-text indexes. */
  method FulltextIndexSupported(db: Database, index: IndexDecl, diagnostics: Diagnostics)
    modifies diagnostics
    ensures diagnostics.errors == old(diagnostics.errors) +
      if FulltextUnsupported(db, index) then
        [AttributeValidationError(FulltextUnsupportedMessage, "fulltext", AttributeSpanOr(index, index.modelSpan))]
      else []
  {
    if ConnectorCapability.FullTextIndex in db.capabilities {
      return;
    }
    if index.IsFulltext() {
      var span := AttributeSpanOr(index, index.modelSpan);
      diagnostics.PushError(AttributeValidationError(FulltextUnsupportedMessage, "fulltext", span));
    }
  }

  /** Choosing an index algorithm needs the `extendedIndexes` preview feature. */
  method IndexAlgorithmPreviewFeature(db: Database, index: IndexDecl, diagnostics: Diagnostics)
    modifies diagnostics
    ensures diagnostics.errors == old(diagnostics.errors) +
      if AlgorithmWithoutPreviewFlag(db, index) then
        [AttributeValidationError(AlgorithmWithoutPreviewMessage, "index", TypeArgumentSpan(index))]
      else []
  {
    if PreviewFeature.ExtendedIndexes in db.previewFeatures {
      return;
    }
    if index.algorithm.Some? {
      var span := TypeArgumentSpan(index);
      diagnostics.PushError(AttributeValidationError(AlgorithmWithoutPreviewMessage, "index", span));
    }
  }

  /** Fields of an enabled full-text index may not have a length. */
  method FulltextColumnsShouldNotDefineLength(db: Database, index: IndexDecl, diagnostics: Diagnostics)
    modifies diagnostics
    ensures diagnostics.errors == old(diagnostics.errors) +
      if FulltextLengthDefined(db, index) then
        [AttributeValidationError(FulltextLengthMessage, index.attributeName, AttributeSpanOr(index, index.modelSpan))]
      else []
  {
    if PreviewFeature.FullTextIndex !in db.previewFeatures {
      return;
    }
    if ConnectorCapability.FullTextIndex !in db.capabilities {
      return;
    }
    if !index.IsFulltext() {
      return;
    }
    if Any(index.fields, (f: FieldAttribute) => f.length.Some?) {
      var span := AttributeSpanOr(index, index.modelSpan);
      diagnostics.PushError(AttributeValidationError(FulltextLengthMessage, index.attributeName, span));
    }
  }

  /** Sorted fields in an enabled full-text index need connector support. */
  method FulltextColumnSortIsSupported(db: Database, index: IndexDecl, diagnostics: Diagnostics)
    modifies diagnostics
    ensures diagnostics.errors == old(diagnostics.errors) +
      if FulltextSortUnsupported(db, index) then
        [AttributeValidationError(FulltextSortMessage, index.attributeName, AttributeSpanOr(index, index.modelSpan))]
      else []
  {
    if PreviewFeature.FullTextIndex !in db.previewFeatures {
      return;
    }
    if ConnectorCapability.FullTextIndex !in db.capabilities {
      return;
    }
    if !index.IsFulltext() {
      return;
    }
    if ConnectorCapability.SortOrderInFullTextIndex in db.capabilities {
      return;
    }
    if Any(index.fields, (f: FieldAttribute) => f.sortOrder.Some?) {
      var span := AttributeSpanOr(index, index.modelSpan);
      diagnostics.PushError(AttributeValidationError(FulltextSortMessage, index.attributeName, span));
    }
  }

  /**
   * The text fields of a full-text index with sortable fields must be listed
   * together: the state machine reads the fields in order and reports the
   * first text field that would start a second run, then stops.
   */
  method FulltextTextColumnsShouldBeBundledTogether(db: Database, index: IndexDecl, diagnostics: Diagnostics)
    modifies diagnostics
    ensures diagnostics.errors == old(diagnostics.errors) +
      if FulltextFieldsNotBundled(db, index) then
        [AttributeValidationError(FulltextBundleMessage, "fulltext", AttributeSpanOr(index, index.modelSpan))]
      else []
  {
    if PreviewFeature.FullTextIndex !in db.previewFeatures {
      return;
    }
    if ConnectorCapability.FullTextIndex !in db.capabilities {
      return;
    }
    if !index.IsFulltext() {
      return;
    }
    if ConnectorCapability.SortOrderInFullTextIndex !in db.capabilities {
      return;
    }

    ghost var flags := SortFlags(index.fields);
    var state := Init;
    for n := 0 to |index.fields|
      invariant Run(flags[..n]) == Some(state)
      invariant diagnostics.errors == old(diagnostics.errors)
    {
      assert flags[..n + 1][..n] == flags[..n];
      var next := Step(state, index.fields[n].sortOrder.Some?);
      match next
      case Some(s) =>
        state := s;
      case None =>
        var span := AttributeSpanOr(index, index.modelSpan);
        diagnostics.PushError(AttributeValidationError(FulltextBundleMessage, "fulltext", span));
        RunCharacterization(flags[..n + 1]);
        SplitInPrefix(flags, n + 1);
        return;
    }
    assert flags[..|index.fields|] == flags;
    RunCharacterization(flags);
  }

  // ------------------------------------------------ relations between rules

  /**
   * Once either full-text gate fires, none of the three rules that inspect the
   * fields of a full-text index can fire on the same declaration.
   */
  lemma FulltextGatesSilenceFieldRules(db: Database, index: IndexDecl)
    requires FulltextWithoutPreviewFlag(db, index) || FulltextUnsupported(db, index)
    ensures !FulltextLengthDefined(db, index)
    ensures !FulltextSortUnsupported(db, index)
    ensures !FulltextFieldsNotBundled(db, index)
  {
  }

  /** The two full-text gates do not depend on each other: both fire on a full-text index when neither is met. */
  lemma FulltextGatesBothFire(db: Database, index: IndexDecl)
    requires index.IsFulltext()
    requires PreviewFeature.FullTextIndex !in db.previewFeatures
    requires ConnectorCapability.FullTextIndex !in db.capabilities
    ensures FulltextWithoutPreviewFlag(db, index) && FulltextUnsupported(db, index)
  {
  }

  /** The sort rule and the bundling rule never both fire: one needs sort support in full-text, the other its absence. */
  lemma SortAndBundlingRulesExclusive(db: Database, index: IndexDecl)
    ensures !(FulltextSortUnsupported(db, index) && FulltextFieldsNotBundled(db, index))
  {
  }

  /**
   * A bundling violation has a sorted field between its two text runs, so without
   * `extendedIndexes` the sort-or-length gate reports the same declaration.
   */
  lemma BundlingViolationHasSortedField(db: Database, index: IndexDecl)
    requires FulltextFieldsNotBundled(db, index)
    ensures SomeFieldHasSortOrder(index)
    ensures PreviewFeature.ExtendedIndexes !in db.previewFeatures ==> SortOrLengthWithoutPreviewFlag(db, index)
  {
  }

  /**
   * The bundling rule on declarations where it is active: text, sorted, text
   * fields are reported; no fields, only sorted, only text, or sorted around a
   * text run are not.
   */
  lemma BundlingRuleExamples(db: Database, index: IndexDecl)
    requires FulltextEnabled(db, index)
    requires ConnectorCapability.SortOrderInFullTextIndex in db.capabilities
    ensures SortFlags(index.fields) == [false, true, false] ==> FulltextFieldsNotBundled(db, index)
    ensures SortFlags(index.fields) in {[], [true, true], [false, false], [true, false, true]} ==>
              !FulltextFieldsNotBundled(db, index)
  {
    BundlingExamples();
  }
}
