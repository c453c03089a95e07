/** The extraction loops as the scripts run them: each builds its list by appending inside a
    `for` loop, skips with `continue`, and stops at the first exception it does not catch.
    Each method is proved to compute the matching function of `Extraction`. */
module Extractor {
  import opened PyJson
  import opened Collect
  import opened Report
  import opened Extraction

  /** The `visualContainers` loop of one section. */
  method CollectVisuals(env: Env, containers: seq<Json>) returns (r: Py<seq<Visual>>)
    ensures r == FlatCollect(VisualStep, env, containers)
  {
    var visuals: seq<Visual> := [];
    for j := 0 to |containers|
      invariant FlatCollect(VisualStep, env, containers[..j]) == Ok(visuals)
    {
      FlatCollectNext(VisualStep, env, containers, j);
      match TryVisual(env.parse, containers[j]) {
        case Ok(v) =>
          visuals := visuals + [v];
        case Raise(e) =>
          if !Catches(env.script, e) {
            FlatCollectStops(VisualStep, env, containers, j + 1);
            return Raise(e);
          }
          assert visuals + [] == visuals;
      }
    }
    assert containers[..|containers|] == containers;
    return Ok(visuals);
  }

  /** `extrair_dados_paginas` (and the pages part of `extrair_dados`): one page per section. */
  method ExtractPages(env: Env, layout: Json) returns (r: Py<seq<Page>>)
    ensures r == Pages(env, layout)
  {
    var sections := Sections(layout);
    if sections.Raise? {
      return Raise(sections.exc);
    }
    var ss := sections.value;
    var pages: seq<Page> := [];
    for i := 0 to |ss|
      invariant FlatCollect(PageStep, env, ss[..i]) == Ok(pages)
    {
      FlatCollectNext(PageStep, env, ss, i);
      var name := Get(ss[i], "displayName", Str(NoName));
      var containers := Containers(ss[i]);
      if name.Raise? || containers.Raise? {
        FlatCollectStops(PageStep, env, ss, i + 1);
        return if name.Raise? then Raise(name.exc) else Raise(containers.exc);
      }
      var visuals := CollectVisuals(env, containers.value);
      if visuals.Raise? {
        FlatCollectStops(PageStep, env, ss, i + 1);
        return Raise(visuals.exc);
      }
      pages := pages + [Page(name.value, visuals.value)];
    }
    assert ss[..|ss|] == ss;
    return Ok(pages);
  }

  /** The `columns` loop of one table. */
  method CollectColumns(script: Script, columns: seq<Json>) returns (r: Py<seq<Column>>)
    ensures r == FlatCollect(ColumnStep, script, columns)
  {
    var records: seq<Column> := [];
    for j := 0 to |columns|
      invariant FlatCollect(ColumnStep, script, columns[..j]) == Ok(records)
    {
      FlatCollectNext(ColumnStep, script, columns, j);
      var step := ColumnStep(script, columns[j]);
      if step.Raise? {
        FlatCollectStops(ColumnStep, script, columns, j + 1);
        return Raise(step.exc);
      }
      records := records + step.value;
    }
    assert columns[..|columns|] == columns;
    return Ok(records);
  }

  /** The `measures` loop of one table. */
  method CollectMeasures(script: Script, measures: seq<Json>) returns (r: Py<seq<Measure>>)
    ensures r == FlatCollect(MeasureStep, script, measures)
  {
    var records: seq<Measure> := [];
    for j := 0 to |measures|
      invariant FlatCollect(MeasureStep, script, measures[..j]) == Ok(records)
    {
      FlatCollectNext(MeasureStep, script, measures, j);
      var step := MeasureStep(script, measures[j]);
      if step.Raise? {
        FlatCollectStops(MeasureStep, script, measures, j + 1);
        return Raise(step.exc);
      }
      records := records + step.value;
    }
    assert measures[..|measures|] == measures;
    return Ok(records);
  }

  /** `extrair_dados_tabelas` (and the tables part of `extrair_dados`). */
  method ExtractTables(script: Script, modelData: Json) returns (r: Py<seq<Table>>)
    ensures r == Tables(script, modelData)
  {
    var tables := ModelTables(modelData);
    if tables.Raise? {
      return Raise(tables.exc);
    }
    var ts := tables.value;
    var records: seq<Table> := [];
    for i := 0 to |ts|
      invariant FlatCollect(TableStep, script, ts[..i]) == Ok(records)
    {
      FlatCollectNext(TableStep, script, ts, i);
      var name := Get(ts[i], "name", Str(""));
      if name.Raise? {
        FlatCollectStops(TableStep, script, ts, i + 1);
        return Raise(name.exc);
      }
      var excluded := StartsWithDatePrefix(name.value);
      if excluded.Raise? {
        FlatCollectStops(TableStep, script, ts, i + 1);
        return Raise(excluded.exc);
      }
      if excluded.value {
        assert records + [] == records;
        continue;
      }
      var columns := TableColumns(ts[i]);
      if columns.Raise? {
        FlatCollectStops(TableStep, script, ts, i + 1);
        return Raise(columns.exc);
      }
      var columnRecords := CollectColumns(script, columns.value);
      if columnRecords.Raise? {
        FlatCollectStops(TableStep, script, ts, i + 1);
        return Raise(columnRecords.exc);
      }
      var measures := TableMeasures(ts[i]);
      if measures.Raise? {
        FlatCollectStops(TableStep, script, ts, i + 1);
        return Raise(measures.exc);
      }
      var measureRecords := CollectMeasures(script, measures.value);
      if measureRecords.Raise? {
        FlatCollectStops(TableStep, script, ts, i + 1);
        return Raise(measureRecords.exc);
      }
      records := records + [Table(name.value, columnRecords.value, measureRecords.value)];
    }
    assert ts[..|ts|] == ts;
    return Ok(records);
  }

  /** `extrair_dados_relacionamentos` (and the relationships part of `extrair_dados`). */
  method ExtractRelationships(script: Script, modelData: Json) returns (r: Py<seq<Relationship>>)
    ensures r == Relationships(script, modelData)
  {
    var relationships := ModelRelationships(modelData);
    if relationships.Raise? {
      return Raise(relationships.exc);
    }
    var rs := relationships.value;
    var records: seq<Relationship> := [];
    for i := 0 to |rs|
      invariant FlatCollect(RelationshipStep, script, rs[..i]) == Ok(records)
    {
      FlatCollectNext(RelationshipStep, script, rs, i);
      var step := RelationshipStep(script, rs[i]);
      if step.Raise? {
        FlatCollectStops(RelationshipStep, script, rs, i + 1);
        return Raise(step.exc);
      }
      records := records + step.value;
    }
    assert rs[..|rs|] == rs;
    return Ok(records);
  }

  /** `extrair_dados` of testes.py and testes02.py: the `resumo` dict, filled list by list. */
  method ExtractSummary(env: Env, layout: Json, modelData: Json) returns (r: Py<Summary>)
    ensures r == SummaryOf(env, layout, modelData)
  {
    var pages := ExtractPages(env, layout);
    if pages.Raise? {
      return Raise(pages.exc);
    }
    var tables := ExtractTables(env.script, modelData);
    if tables.Raise? {
      return Raise(tables.exc);
    }
    var relationships := ExtractRelationships(env.script, modelData);
    if relationships.Raise? {
      return Raise(relationships.exc);
    }
    return Ok(Summary(pages.value, tables.value, relationships.value));
  }
}
