/**
 * What the index rules read: the preview features, the active connector's
 * capabilities, and one index, unique or full-text declaration.
 */
module IndexModel {
  import opened Wrappers
  import opened ErrorReporting

  /** The preview features the index rules consult. */
  datatype PreviewFeature = ExtendedIndexes | FullTextIndex

  /** The connector capabilities the index rules consult. */
  datatype ConnectorCapability =
    | IndexColumnLengthPrefixing
    | UsingHashIndex
    | FullTextIndex
    | SortOrderInFullTextIndex

  /** The enabled preview features and the capabilities of the active connector. */
  datatype Database = Database(previewFeatures: set<PreviewFeature>, capabilities: set<ConnectorCapability>)

  type U32 = n: nat | n < 0x1_0000_0000

  datatype SortOrder = Asc | Desc

  datatype IndexAlgorithm = BTree | Hash

  datatype IndexType = Normal | Unique | Fulltext

  /** The per-field arguments of an index: `length:` and `sort:`. */
  datatype FieldAttribute = FieldAttribute(length: Option<U32>, sortOrder: Option<SortOrder>)

  /** The attribute as written in the schema: its span and the span of each named argument. */
  datatype AttributeSyntax = AttributeSyntax(span: Span, argumentSpans: map<string, Span>)

  /**
   * One index-like declaration. `attributeName` and `finalDatabaseName` are what the
   * declaration's walker reports; `astAttribute` is absent for constraints that have
   * no attribute of their own; `modelSpan` is the span of the owning model.
   */
  datatype IndexDecl = IndexDecl(
    indexType: IndexType,
    algorithm: Option<IndexAlgorithm>,
    fields: seq<FieldAttribute>,
    attributeName: string,
    finalDatabaseName: string,
    astAttribute: Option<AttributeSyntax>,
    modelSpan: Span)
  {
    predicate IsFulltext() {
      indexType == Fulltext
    }
  }

  /** A name collision found in the declaration's namespace, with its rendered description. */
  datatype ScopeViolation = ScopeViolation(description: string)

  /** Iterator `any`: some element satisfies `p`. */
  function Any<T>(s: seq<T>, p: T -> bool): (b: bool)
    ensures b <==> exists i :: 0 <= i < |s| && p(s[i])
  {
    if s == [] then false
    else if p(s[0]) then true
    else
      var rest := Any(s[1..], p);
      assert rest ==> exists i :: 0 <= i < |s| && p(s[i]) by {
        if rest {
          var i :| 0 <= i < |s[1..]| && p(s[1..][i]);
          assert p(s[i + 1]);
        }
      }
      assert (exists i :: 0 <= i < |s| && p(s[i])) ==> rest by {
        if exists i :: 0 <= i < |s| && p(s[i]) {
          var i :| 0 <= i < |s| && p(s[i]);
          assert s[1..][i - 1] == s[i];
        }
      }
      rest
  }

  /** The span of the attribute, when the declaration has one. */
  function AttributeSpan(index: IndexDecl): Option<Span>
  {
    match index.astAttribute
    case None => None
    case Some(a) => Some(a.span)
  }

  /** The span of the named argument of the attribute, when both exist. */
  function ArgumentSpan(index: IndexDecl, name: string): Option<Span>
  {
    match index.astAttribute
    case None => None
    case Some(a) => if name in a.argumentSpans then Some(a.argumentSpans[name]) else None
  }
}
