/** What the extraction code of the three scripts computes, one function per loop body.
    The scripts differ in three places, selected by `Script`: which exceptions the visual
    container's `try` catches, which exception a non-string measure fragment raises, and which
    relationship endpoints the date-table filter inspects. */
module Extraction {
  import opened PyJson
  import opened PyText
  import opened Collect
  import opened Report

  datatype Script = Codv02 | Testes | Testes02

  /** The script being run and the decoder its `json.loads` uses on nested `config` strings. */
  datatype Env = Env(script: Script, parse: string -> Option<Json>)

  /** codv02.py catches only `JSONDecodeError` and `AttributeError` around a visual container;
      testes.py and testes02.py catch every `Exception`. */
  predicate Catches(script: Script, e: Exc) {
    script != Codv02 || e == JSONDecodeError || e == AttributeError
  }

  /** A non-string measure fragment: codv02.py filters with `lambda x: x.strip()`, which raises
      AttributeError; the others filter with `str.strip`, which raises TypeError. */
  function StripFailure(script: Script): Exc {
    if script == Codv02 then AttributeError else TypeError
  }

  // ---------------------------------------------------------------- pages

  /** `if item.get("queryRef")`: the item's query reference when it is truthy. */
  function ItemRef(u: (), item: Json): Py<seq<Json>> {
    var q :- Get(item, "queryRef", Null);
    Ok(if Truthy(q) then [q] else [])
  }

  /** `for item in items`: the truthy query references of one projection role. */
  function RoleRefs(u: (), items: Json): Py<seq<Json>> {
    var elems :- Iter(items);
    FlatCollect(ItemRef, (), elems)
  }

  /** The measure comprehension: truthy query references, role by role, item by item. */
  function QueryRefs(roles: seq<Json>): Py<seq<Json>> {
    FlatCollect(RoleRefs, (), roles)
  }

  /** `config_data.get("singleVisual", {})` of the container's decoded `config` ("{}" when absent). */
  function SingleVisual(parse: string -> Option<Json>, container: Json): Py<Json> {
    var config :- Get(container, "config", Str("{}"));
    var configData :- Loads(parse, config);
    Get(configData, "singleVisual", Obj([]))
  }

  /** `.get("projections", {}).values()`: the visual's projection roles. */
  function Roles(single: Json): Py<seq<Json>> {
    var projections :- Get(single, "projections", Obj([]));
    Values(projections)
  }

  /** The body of the `try` around one visual container. */
  function TryVisual(parse: string -> Option<Json>, container: Json): Py<Visual> {
    var single :- SingleVisual(parse, container);
    var visualType :- Get(single, "visualType", Null);
    var roles :- Roles(single);
    var refs :- QueryRefs(roles);
    Ok(Visual(visualType, if refs == [] then [Str(NoMeasure)] else refs))
  }

  /** One iteration over `visualContainers`: the visual, nothing when the `try` caught the
      exception, or the exception when it did not. */
  function VisualStep(env: Env, container: Json): Py<seq<Visual>> {
    match TryVisual(env.parse, container)
    case Ok(v) => Ok([v])
    case Raise(e) => if Catches(env.script, e) then Ok([]) else Raise(e)
  }

  function Sections(layout: Json): Py<seq<Json>> {
    var sections :- Get(layout, "sections", Arr([]));
    Iter(sections)
  }

  function Containers(section: Json): Py<seq<Json>> {
    var containers :- Get(section, "visualContainers", Arr([]));
    Iter(containers)
  }

  /** One iteration over `sections`: exactly one page. */
  function PageStep(env: Env, section: Json): Py<seq<Page>> {
    var name :- Get(section, "displayName", Str(NoName));
    var containers :- Containers(section);
    var visuals :- FlatCollect(VisualStep, env, containers);
    Ok([Page(name, visuals)])
  }

  function Pages(env: Env, layout: Json): Py<seq<Page>> {
    var sections :- Sections(layout);
    FlatCollect(PageStep, env, sections)
  }

  // ---------------------------------------------------------------- tables

  function ModelTables(modelData: Json): Py<seq<Json>> {
    var model :- Get(modelData, "model", Obj([]));
    var tables :- Get(model, "tables", Arr([]));
    Iter(tables)
  }

  function ModelRelationships(modelData: Json): Py<seq<Json>> {
    var model :- Get(modelData, "model", Obj([]));
    var relationships :- Get(model, "relationships", Arr([]));
    Iter(relationships)
  }

  /** `'Sim' if column.get('type', "") in ['calculatedTableColumn', 'calculated'] else 'Não'` */
  function CalculatedFlag(columnType: Json): string {
    if columnType == Str(CalculatedTableColumn) || columnType == Str(Calculated) then Yes else No
  }

  /** One iteration over `columns`: exactly one column record. */
  function ColumnStep(script: Script, column: Json): Py<seq<Column>> {
    var name :- Get(column, "name", Str(""));
    var dataType :- Get(column, "dataType", Str(""));
    var columnType :- Get(column, "type", Str(""));
    Ok([Column(name, dataType, CalculatedFlag(columnType))])
  }

  /** The `filter` over a list-form expression: keeps a fragment whose strip is non-empty. */
  function FragmentStep(script: Script, fragment: Json): Py<seq<string>> {
    match fragment
    case Str(s) => Ok(if Strip(s) != "" then [s] else [])
    case _ => Raise(StripFailure(script))
  }

  /** A list-form expression becomes its non-blank fragments joined by single spaces;
      any other value is kept as it is. */
  function Flatten(script: Script, expression: Json): Py<Json> {
    match expression
    case Arr(fragments) =>
      var kept :- FlatCollect(FragmentStep, script, fragments);
      Ok(Str(Join(" ", kept)))
    case _ => Ok(expression)
  }

  /** One iteration over `measures`: exactly one measure record. */
  function MeasureStep(script: Script, measure: Json): Py<seq<Measure>> {
    var expression :- Get(measure, "expression", Str(""));
    var flat :- Flatten(script, expression);
    var name :- Get(measure, "name", Str(""));
    Ok([Measure(name, flat)])
  }

  function TableColumns(table: Json): Py<seq<Json>> {
    var columns :- Get(table, "columns", Arr([]));
    Iter(columns)
  }

  function TableMeasures(table: Json): Py<seq<Json>> {
    var measures :- Get(table, "measures", Arr([]));
    Iter(measures)
  }

  /** The record of a table that passed the date-table filter. */
  function TableRecord(script: Script, table: Json): Py<Table> {
    var name :- Get(table, "name", Str(""));
    var columns :- TableColumns(table);
    var columnRecords :- FlatCollect(ColumnStep, script, columns);
    var measures :- TableMeasures(table);
    var measureRecords :- FlatCollect(MeasureStep, script, measures);
    Ok(Table(name, columnRecords, measureRecords))
  }

  /** One iteration over `tables`: nothing for a generated date table, else its record. */
  function TableStep(script: Script, table: Json): Py<seq<Table>> {
    var name :- Get(table, "name", Str(""));
    var excluded :- StartsWithDatePrefix(name);
    if excluded then Ok([])
    else
      var record :- TableRecord(script, table);
      Ok([record])
  }

  function Tables(script: Script, modelData: Json): Py<seq<Table>> {
    var tables :- ModelTables(modelData);
    FlatCollect(TableStep, script, tables)
  }

  // ---------------------------------------------------------------- relationships

  /** One iteration over `relationships`. codv02.py tests both endpoints, each of which must be a
      string, and defaults missing column names to ''; the other scripts test only `fromTable`
      (absent counts as '') and copy all four fields with None for a missing one. */
  function RelationshipStep(script: Script, rel: Json): Py<seq<Relationship>> {
    if script == Codv02 then
      var fromTable :- Get(rel, "fromTable", Null);
      var toTable :- Get(rel, "toTable", Null);
      var fromExcluded :- StartsWithDatePrefix(fromTable);
      if fromExcluded then Ok([])
      else
        var toExcluded :- StartsWithDatePrefix(toTable);
        if toExcluded then Ok([])
        else
          var fromColumn :- Get(rel, "fromColumn", Str(""));
          var toColumn :- Get(rel, "toColumn", Str(""));
          Ok([Relationship(fromTable, toTable, fromColumn, toColumn)])
    else
      var fromTest :- Get(rel, "fromTable", Str(""));
      var excluded :- StartsWithDatePrefix(fromTest);
      if excluded then Ok([])
      else
        var fromTable :- Get(rel, "fromTable", Null);
        var toTable :- Get(rel, "toTable", Null);
        var fromColumn :- Get(rel, "fromColumn", Null);
        var toColumn :- Get(rel, "toColumn", Null);
        Ok([Relationship(fromTable, toTable, fromColumn, toColumn)])
  }

  function Relationships(script: Script, modelData: Json): Py<seq<Relationship>> {
    var relationships :- ModelRelationships(modelData);
    FlatCollect(RelationshipStep, script, relationships)
  }

  // ---------------------------------------------------------------- single pass

  /** `extrair_dados`: pages, then tables, then relationships; the first exception ends it. */
  function SummaryOf(env: Env, layout: Json, modelData: Json): Py<Summary> {
    var pages :- Pages(env, layout);
    var tables :- Tables(env.script, modelData);
    var relationships :- Relationships(env.script, modelData);
    Ok(Summary(pages, tables, relationships))
  }
}
