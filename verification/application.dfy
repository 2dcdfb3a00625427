/** The accessors of the persisted application record: which DSL is live,
    the defaults of its nullable fields, the query sets derived from the
    DSLs, the container size, and query lookup by view mode and id. */
module ApplicationModel {
  import opened Wrappers

  /** A JSON value, as held in a DSL map. `JNull` is Java's `null`. */
  datatype Json =
    | JNull
    | JBool(b: bool)
    | JNum(n: int)
    | JStr(s: string)
    | JArray(items: seq<Json>)
    | JObject(fields: map<string, Json>)

  /** An application DSL: the top-level map of the application document. */
  type Dsl = map<string, Json>

  /** A query stored in a DSL. Its id may be missing. */
  datatype Query = Query(id: Option<string>, definition: Json)

  /** The integer value of the `APPLICATION` application type. */
  const APPLICATION: int := 1

  /** The DSL key under which the queries are stored. */
  const QUERIES_KEY: string := "queries"

  /** The persisted record; every `Option` field may be `null` in the store. */
  datatype Application = Application(
    applicationType: Option<int>,
    publishedDsl: Option<Dsl>,
    editingDsl: Option<Dsl>,
    publicToAll: Option<bool>,
    publicToMarketplace: Option<bool>,
    agencyProfile: Option<bool>)

  /** The DSL helpers the record calls but does not define: reading a JSON
      value as a set of queries, collecting the modules a DSL depends on, and
      reading the container size out of a DSL. The model treats them as
      arbitrary total functions. */
  datatype DslCodec = DslCodec(
    queriesFromJson: Json -> set<Query>,
    dependentModules: Option<Dsl> -> set<string>,
    containerSize: Option<Dsl> -> Option<Json>)

  /** The failures of the accessors: the `QUERY_NOT_FOUND` business error,
      and the null dereference of a missing live DSL. */
  datatype AppError = QueryNotFound | NullPointer

  /** Null or with no entries. */
  predicate IsEmptyMap(m: Option<Dsl>) {
    m.None? || |m.value| == 0
  }

  /** The live DSL: the published one when it has entries, otherwise the
      editing one (which may itself be missing). */
  function LiveDsl(app: Application): (r: Option<Dsl>)
    ensures !IsEmptyMap(app.publishedDsl) ==> r == app.publishedDsl
    ensures IsEmptyMap(app.publishedDsl) ==> r == app.editingDsl
    ensures r.None? <==> app.editingDsl.None? && IsEmptyMap(app.publishedDsl)
  {
    if IsEmptyMap(app.publishedDsl) then app.editingDsl else app.publishedDsl
  }

  /** Once something non-empty is published, edits do not reach the live
      DSL; before that, the live DSL follows the editing one. */
  lemma LiveDslSelection(app: Application, edited: Option<Dsl>)
    ensures !IsEmptyMap(app.publishedDsl) ==> LiveDsl(app.(editingDsl := edited)) == LiveDsl(app)
    ensures IsEmptyMap(app.publishedDsl) ==> LiveDsl(app.(editingDsl := edited)) == edited
  {
  }

  /** The stored type, or `APPLICATION` when none is stored. */
  function ApplicationType(app: Application): (t: int)
    ensures app.applicationType.Some? ==> t == app.applicationType.value
    ensures app.applicationType.None? ==> t == APPLICATION
  {
    app.applicationType.GetOr(APPLICATION)
  }

  /** A nullable boolean read with `false` for `null`. */
  function BoolDefaultFalse(b: Option<bool>): bool {
    b.GetOr(false)
  }

  function IsPublicToAll(app: Application): (r: bool)
    ensures r <==> app.publicToAll == Some(true)
  {
    BoolDefaultFalse(app.publicToAll)
  }

  function IsPublicToMarketplace(app: Application): (r: bool)
    ensures r <==> app.publicToMarketplace == Some(true)
  {
    BoolDefaultFalse(app.publicToMarketplace)
  }

  function AgencyProfile(app: Application): (r: bool)
    ensures r <==> app.agencyProfile == Some(true)
  {
    BoolDefaultFalse(app.agencyProfile)
  }

  /** The queries of the editing DSL: empty when that DSL is missing or has
      no (or a null) `queries` entry. */
  function EditingQueries(app: Application, codec: DslCodec): (qs: set<Query>)
    ensures app.editingDsl.None? ==> qs == {}
    ensures app.editingDsl.Some? && QUERIES_KEY !in app.editingDsl.value ==> qs == {}
    ensures (app.editingDsl.Some? && QUERIES_KEY in app.editingDsl.value
             && app.editingDsl.value[QUERIES_KEY] == JNull) ==> qs == {}
    ensures (app.editingDsl.Some? && QUERIES_KEY in app.editingDsl.value
             && app.editingDsl.value[QUERIES_KEY] != JNull) ==>
              qs == codec.queriesFromJson(app.editingDsl.value[QUERIES_KEY])
  {
    match app.editingDsl
    case None => {}
    case Some(dsl) =>
      if QUERIES_KEY in dsl && dsl[QUERIES_KEY] != JNull then codec.queriesFromJson(dsl[QUERIES_KEY])
      else {}
  }

  /** The `queries` entry of a DSL, `null` when absent. */
  function QueriesEntry(dsl: Dsl): Json {
    if QUERIES_KEY in dsl then dsl[QUERIES_KEY] else JNull
  }

  /** The queries of the live DSL. A missing live DSL is dereferenced and
      fails; a missing entry is read as the JSON `null`. */
  function LiveQueries(app: Application, codec: DslCodec): (r: Result<set<Query>, AppError>)
    ensures r.Err? <==> LiveDsl(app).None?
    ensures r.Err? ==> r.error == NullPointer
    ensures r.Ok? ==> r.value == codec.queriesFromJson(QueriesEntry(LiveDsl(app).value))
  {
    match LiveDsl(app)
    case None => Err(NullPointer)
    case Some(dsl) => Ok(codec.queriesFromJson(QueriesEntry(dsl)))
  }

  /** The modules the editing DSL depends on; until something non-empty is
      published they are also the live modules. */
  function EditingModules(app: Application, codec: DslCodec): (r: set<string>)
    ensures IsEmptyMap(app.publishedDsl) ==> r == LiveModules(app, codec)
  {
    codec.dependentModules(app.editingDsl)
  }

  /** The modules the live DSL depends on: those of the published DSL when
      it has entries, otherwise those of the editing DSL. */
  function LiveModules(app: Application, codec: DslCodec): (r: set<string>)
    ensures !IsEmptyMap(app.publishedDsl) ==> r == codec.dependentModules(app.publishedDsl)
    ensures IsEmptyMap(app.publishedDsl) ==> r == codec.dependentModules(app.editingDsl)
  {
    codec.dependentModules(LiveDsl(app))
  }

  /** No container size for a plain application; otherwise the size read
      from the live DSL. */
  function LiveContainerSize(app: Application, codec: DslCodec): (r: Option<Json>)
    ensures ApplicationType(app) == APPLICATION ==> r == None
    ensures app.applicationType.None? ==> r == None
    ensures ApplicationType(app) != APPLICATION ==> r == codec.containerSize(LiveDsl(app))
  {
    if ApplicationType(app) == APPLICATION then None
    else codec.containerSize(LiveDsl(app))
  }

  /** The live queries, modules and container size depend on the record
      only through its live DSL (and, for the size, its type): two records
      with the same live DSL agree on all of them, whatever their other
      DSLs hold. */
  lemma LiveViewsDependOnlyOnLiveDsl(a: Application, b: Application, codec: DslCodec)
    requires LiveDsl(a) == LiveDsl(b)
    ensures LiveQueries(a, codec) == LiveQueries(b, codec)
    ensures LiveModules(a, codec) == LiveModules(b, codec)
    ensures ApplicationType(a) == ApplicationType(b) ==>
              LiveContainerSize(a, codec) == LiveContainerSize(b, codec)
  {
  }

  /** The editing queries and modules never look at the published DSL. */
  lemma EditingViewsIgnorePublished(app: Application, published: Option<Dsl>, codec: DslCodec)
    ensures EditingQueries(app.(publishedDsl := published), codec) == EditingQueries(app, codec)
    ensures EditingModules(app.(publishedDsl := published), codec) == EditingModules(app, codec)
  {
  }

  /** Before anything is published, live and editing queries coincide as
      long as the editing DSL holds a non-null `queries` entry. */
  lemma UnpublishedQueriesAgree(app: Application, codec: DslCodec)
    requires IsEmptyMap(app.publishedDsl)
    requires app.editingDsl.Some? && QUERIES_KEY in app.editingDsl.value
    requires app.editingDsl.value[QUERIES_KEY] != JNull
    ensures LiveQueries(app, codec) == Ok(EditingQueries(app, codec))
  {
  }

  /** The query set a lookup searches: live in view mode, editing otherwise.
      Only a view-mode lookup without a live DSL hits the null dereference. */
  function QueryCandidates(app: Application, codec: DslCodec, isViewMode: bool): (r: Result<set<Query>, AppError>)
    ensures r.Err? <==> isViewMode && LiveDsl(app).None?
    ensures r.Err? ==> r.error == NullPointer
    ensures !isViewMode ==> r.Ok? && r.value == EditingQueries(app, codec)
    ensures isViewMode && r.Ok? ==> r.value == codec.queriesFromJson(QueriesEntry(LiveDsl(app).value))
  {
    if isViewMode then LiveQueries(app, codec) else Ok(EditingQueries(app, codec))
  }

  predicate HasId(q: Query, queryId: string) {
    q.id == Some(queryId)
  }

  /** Some query of the chosen set whose id is `queryId`, in no promised
      order; `QUERY_NOT_FOUND` exactly when the set holds none. */
  method GetQueryByViewModeAndQueryId(app: Application, codec: DslCodec, isViewMode: bool, queryId: string)
    returns (r: Result<Query, AppError>)
    ensures QueryCandidates(app, codec, isViewMode).Err? ==> r == Err(NullPointer)
    ensures r.Ok? ==> QueryCandidates(app, codec, isViewMode).Ok?
                      && r.value in QueryCandidates(app, codec, isViewMode).value
                      && HasId(r.value, queryId)
    ensures QueryCandidates(app, codec, isViewMode).Ok? ==>
              (r == Err(QueryNotFound) <==>
                 forall q :: q in QueryCandidates(app, codec, isViewMode).value ==> !HasId(q, queryId))
    ensures QueryCandidates(app, codec, isViewMode).Ok? ==> r.Ok? || r == Err(QueryNotFound)
  {
    var candidates := QueryCandidates(app, codec, isViewMode);
    if candidates.Err? {
      return Err(candidates.error);
    }
    var remaining := candidates.value;
    while remaining != {}
      invariant remaining <= candidates.value
      invariant forall q :: q in candidates.value && q !in remaining ==> !HasId(q, queryId)
      decreases |remaining|
    {
      var q :| q in remaining;
      if HasId(q, queryId) {
        return Ok(q);
      }
      remaining := remaining - {q};
    }
    return Err(QueryNotFound);
  }
}
