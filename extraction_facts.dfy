/** What the extractors promise about their output: one page per section, visuals for exactly the
    containers that parse, non-empty measure lists, date tables and date relationships filtered
    out, one-to-one columns and measures, and where each script's narrower or wider `try` makes
    the difference between skipping and crashing. */
module ExtractionFacts {
  import opened PyJson
  import opened PyText
  import opened Collect
  import opened Report
  import opened Extraction

  // ---------------------------------------------------------------- pages

  /** The visuals of the containers whose `try` body completes, in container order. */
  function ParsedVisuals(parse: string -> Option<Json>, cs: seq<Json>): (r: seq<Visual>)
    ensures |r| <= |cs|
    decreases |cs|
  {
    if cs == [] then []
    else
      ParsedVisuals(parse, cs[..|cs| - 1]) +
      (match TryVisual(parse, cs[|cs| - 1])
       case Ok(v) => [v]
       case Raise(_) => [])
  }

  /** One container under the script's `except`: the visual, nothing, or TypeError escaping
      codv02.py's narrower clause. */
  lemma VisualStepOutcome(env: Env, c: Json)
    ensures VisualStep(env, c).Raise? <==> env.script == Codv02 && TryVisual(env.parse, c) == Raise(TypeError)
    ensures VisualStep(env, c).Raise? ==> VisualStep(env, c).exc == TypeError
    ensures VisualStep(env, c).Ok? ==>
              VisualStep(env, c).value == (if TryVisual(env.parse, c).Ok? then [TryVisual(env.parse, c).value] else [])
  {
  }

  /** The `visualContainers` loop. Whatever it completes with is the visuals of the containers
      that parsed. testes.py and testes02.py always complete; codv02.py raises exactly when some
      container raises TypeError (a `config` that is not a string, a `projections` role that is not
      iterable), which its `except (json.JSONDecodeError, AttributeError)` lets through. */
  lemma {:induction false} ContainerLoop(env: Env, cs: seq<Json>)
    ensures FlatCollect(VisualStep, env, cs).Ok? ==>
              FlatCollect(VisualStep, env, cs).value == ParsedVisuals(env.parse, cs)
    ensures env.script != Codv02 ==> FlatCollect(VisualStep, env, cs).Ok?
    ensures FlatCollect(VisualStep, env, cs).Raise? <==>
              env.script == Codv02 && exists i :: 0 <= i < |cs| && TryVisual(env.parse, cs[i]) == Raise(TypeError)
    ensures FlatCollect(VisualStep, env, cs).Raise? ==> FlatCollect(VisualStep, env, cs).exc == TypeError
    decreases |cs|
  {
    if cs != [] {
      var init := cs[..|cs| - 1];
      var last := cs[|cs| - 1];
      ContainerLoop(env, init);
      VisualStepOutcome(env, last);
      var before := FlatCollect(VisualStep, env, init);
      var step := VisualStep(env, last);
      var whole := FlatCollect(VisualStep, env, cs);
      assert whole == (if before.Raise? then Raise(before.exc)
                       else if step.Raise? then Raise(step.exc)
                       else Ok(before.value + step.value));
      assert ParsedVisuals(env.parse, cs) == ParsedVisuals(env.parse, init) +
               (if TryVisual(env.parse, last).Ok? then [TryVisual(env.parse, last).value] else []);
      assert forall i :: 0 <= i < |init| ==> init[i] == cs[i];
      if env.script == Codv02 && (exists i :: 0 <= i < |cs| && TryVisual(env.parse, cs[i]) == Raise(TypeError)) {
        var i :| 0 <= i < |cs| && TryVisual(env.parse, cs[i]) == Raise(TypeError);
        if i < |init| {
          assert TryVisual(env.parse, init[i]) == Raise(TypeError);
        } else {
          assert step.Raise?;
        }
      }
      if whole.Raise? && step.Raise? {
        assert TryVisual(env.parse, cs[|cs| - 1]) == Raise(TypeError);
      }
    }
  }

  /** One page per section, in section order: named by `displayName` or "Sem Nome", holding the
      visuals of the section's containers that parsed. */
  lemma PagesOnePerSection(env: Env, layout: Json)
    requires Pages(env, layout).Ok?
    ensures Sections(layout).Ok?
    ensures |Pages(env, layout).value| == |Sections(layout).value|
    ensures forall i :: 0 <= i < |Sections(layout).value| ==>
              Get(Sections(layout).value[i], "displayName", Str(NoName)) == Ok(Pages(env, layout).value[i].name)
              && Containers(Sections(layout).value[i]).Ok?
              && Pages(env, layout).value[i].visuals == ParsedVisuals(env.parse, Containers(Sections(layout).value[i]).value)
  {
    var ss := Sections(layout).value;
    FlatCollectOneEach(PageStep, env, ss);
    forall i | 0 <= i < |ss|
      ensures Containers(ss[i]).Ok?
      ensures Pages(env, layout).value[i].visuals == ParsedVisuals(env.parse, Containers(ss[i]).value)
    {
      ContainerLoop(env, Containers(ss[i]).value);
    }
  }

  /** With testes.py's and testes02.py's `except Exception`, nothing inside a container can stop
      the page loop: the pages come out as soon as every section has a container list. */
  lemma BroadScopePagesComplete(env: Env, layout: Json)
    requires env.script != Codv02
    requires Sections(layout).Ok?
    requires forall i :: 0 <= i < |Sections(layout).value| ==> Containers(Sections(layout).value[i]).Ok?
    ensures Pages(env, layout).Ok?
  {
    var ss := Sections(layout).value;
    forall i | 0 <= i < |ss|
      ensures PageStep(env, ss[i]).Ok?
    {
      ContainerLoop(env, Containers(ss[i]).value);
    }
    FlatCollectOkIff(PageStep, env, ss);
  }

  /** `item.get("queryRef")` read off a dict item: None when the key is absent, and None for an
      item that is not a dict. */
  function QueryRefOf(item: Json): Json {
    match item
    case Obj(fields) =>
      (match Lookup(fields, "queryRef")
       case Some(q) => q
       case None => Null)
    case _ => Null
  }

  /** The truthy `queryRef` values of a role's items, front to back. */
  function TruthyItems(items: seq<Json>): (r: seq<Json>)
    ensures forall m :: m in r ==> Truthy(m)
    decreases |items|
  {
    if items == [] then []
    else (if Truthy(QueryRefOf(items[0])) then [QueryRefOf(items[0])] else []) + TruthyItems(items[1..])
  }

  /** The truthy `queryRef` values of every role, role by role and, inside a role, item by item. */
  function TruthyRefs(roles: seq<Json>): (r: seq<Json>)
    ensures forall m :: m in r ==> Truthy(m)
    decreases |roles|
  {
    if roles == [] then []
    else
      (match Iter(roles[0])
       case Ok(items) => TruthyItems(items)
       case Raise(_) => []) + TruthyRefs(roles[1..])
  }

  /** One role's comprehension completes exactly when every item is a dict (`.get` raises
      AttributeError on anything else), and then yields the item's truthy `queryRef`s in order. */
  lemma {:induction false} ItemRefsTruthy(items: seq<Json>)
    ensures FlatCollect(ItemRef, (), items).Ok? <==> forall j :: 0 <= j < |items| ==> items[j].Obj?
    ensures FlatCollect(ItemRef, (), items).Ok? ==> FlatCollect(ItemRef, (), items).value == TruthyItems(items)
    ensures FlatCollect(ItemRef, (), items).Raise? ==> FlatCollect(ItemRef, (), items).exc == AttributeError
    decreases |items|
  {
    if items != [] {
      FlatCollectCons(ItemRef, (), items);
      ItemRefsTruthy(items[1..]);
      assert forall j :: 1 <= j < |items| ==> items[1..][j - 1] == items[j];
      if items[0].Obj? {
        assert ItemRef((), items[0]) ==
               Ok(if Truthy(QueryRefOf(items[0])) then [QueryRefOf(items[0])] else []);
      }
    }
  }

  /** The measure comprehension completes exactly when every role is iterable and every item of
      every role is a dict, and then yields exactly the truthy `queryRef`s in role order, then item
      order. */
  lemma {:induction false} QueryRefsTruthy(roles: seq<Json>)
    ensures QueryRefs(roles).Ok? <==>
              forall i :: 0 <= i < |roles| ==>
                Iter(roles[i]).Ok? && forall j :: 0 <= j < |Iter(roles[i]).value| ==> Iter(roles[i]).value[j].Obj?
    ensures QueryRefs(roles).Ok? ==> QueryRefs(roles).value == TruthyRefs(roles)
    decreases |roles|
  {
    if roles != [] {
      FlatCollectCons(RoleRefs, (), roles);
      QueryRefsTruthy(roles[1..]);
      assert forall i :: 1 <= i < |roles| ==> roles[1..][i - 1] == roles[i];
      if Iter(roles[0]).Ok? {
        ItemRefsTruthy(Iter(roles[0]).value);
      }
    }
  }

  /** What a parsed visual holds: its `tipo` is `singleVisual.visualType` (None when absent), and
      its measures are exactly the truthy `queryRef`s of its projection roles, in role order then
      item order, or the placeholder alone when there is none. The list is never empty and every
      entry is truthy. */
  lemma VisualMeasures(parse: string -> Option<Json>, container: Json)
    requires TryVisual(parse, container).Ok?
    ensures SingleVisual(parse, container).Ok? && SingleVisual(parse, container).value.Obj?
    ensures TryVisual(parse, container).value.kind ==
              (match Lookup(SingleVisual(parse, container).value.fields, "visualType")
               case Some(t) => t
               case None => Null)
    ensures Roles(SingleVisual(parse, container).value).Ok?
    ensures TryVisual(parse, container).value.measures ==
              (if TruthyRefs(Roles(SingleVisual(parse, container).value).value) == [] then [Str(NoMeasure)]
               else TruthyRefs(Roles(SingleVisual(parse, container).value).value))
    ensures TryVisual(parse, container).value.measures != []
    ensures forall m :: m in TryVisual(parse, container).value.measures ==> Truthy(m)
  {
    var roles := Roles(SingleVisual(parse, container).value).value;
    QueryRefsTruthy(roles);
    assert Truthy(Str(NoMeasure));
  }

  /** The same container under the two scopes: a numeric `config` makes `json.loads` raise
      TypeError, which stops codv02.py's page loop but only skips the visual in testes.py. */
  lemma NumericConfigScope(parse: string -> Option<Json>)
    ensures FlatCollect(VisualStep, Env(Codv02, parse), [Obj([("config", Num(1.0))])]) == Raise(TypeError)
    ensures FlatCollect(VisualStep, Env(Testes, parse), [Obj([("config", Num(1.0))])]) == Ok([])
  {
    var cs := [Obj([("config", Num(1.0))])];
    assert cs[..|cs| - 1] == [];
    assert Get(cs[0], "config", Str("{}")) == Ok(Num(1.0));
    assert TryVisual(parse, cs[0]) == Raise(TypeError);
    assert VisualStep(Env(Codv02, parse), cs[0]) == Raise(TypeError);
    assert VisualStep(Env(Testes, parse), cs[0]) == Ok([]);
    assert FlatCollect(VisualStep, Env(Codv02, parse), cs[..0]) == Ok([]);
    assert FlatCollect(VisualStep, Env(Testes, parse), cs[..0]) == Ok([]);
    var none: seq<Visual> := [];
    assert none + none == none;
  }

  // ---------------------------------------------------------------- tables

  /** A table the filter drops: its name is a string with a date-table prefix. */
  predicate IsDateTable(table: Json) {
    match Get(table, "name", Str(""))
    case Ok(Str(n)) => HasDatePrefix(n)
    case _ => false
  }

  /** The filter's verdict, in the shape `FilterBy` takes. */
  predicate KeepsTable(script: Script, table: Json) {
    !IsDateTable(table)
  }

  predicate NotDateNamed(t: Table) {
    t.name.Str? && !HasDatePrefix(t.name.s)
  }

  /** The tables are the records of the raw tables that are not date tables, in order, and no
      emitted table has a date-table name. */
  lemma TablesFiltered(script: Script, modelData: Json)
    requires Tables(script, modelData).Ok?
    ensures ModelTables(modelData).Ok?
    ensures |Tables(script, modelData).value| == |FilterBy(KeepsTable, script, ModelTables(modelData).value)|
    ensures forall k :: 0 <= k < |FilterBy(KeepsTable, script, ModelTables(modelData).value)| ==>
              TableRecord(script, FilterBy(KeepsTable, script, ModelTables(modelData).value)[k])
                == Ok(Tables(script, modelData).value[k])
    ensures forall t :: t in Tables(script, modelData).value ==> NotDateNamed(t)
  {
    var raws := ModelTables(modelData).value;
    FlatCollectFilter(TableStep, KeepsTable, script, raws);
    FlatCollectAll(TableStep, script, raws, NotDateNamed);
  }

  /** A kept table's columns and measures correspond one to one, in order, to the raw ones. */
  lemma TableRecordOneToOne(script: Script, table: Json)
    requires TableRecord(script, table).Ok?
    ensures Get(table, "name", Str("")) == Ok(TableRecord(script, table).value.name)
    ensures TableColumns(table).Ok? && TableMeasures(table).Ok?
    ensures |TableRecord(script, table).value.columns| == |TableColumns(table).value|
    ensures forall j :: 0 <= j < |TableColumns(table).value| ==>
              ColumnStep(script, TableColumns(table).value[j]) == Ok([TableRecord(script, table).value.columns[j]])
    ensures |TableRecord(script, table).value.measures| == |TableMeasures(table).value|
    ensures forall j :: 0 <= j < |TableMeasures(table).value| ==>
              MeasureStep(script, TableMeasures(table).value[j]) == Ok([TableRecord(script, table).value.measures[j]])
  {
    FlatCollectOneEach(ColumnStep, script, TableColumns(table).value);
    FlatCollectOneEach(MeasureStep, script, TableMeasures(table).value);
  }

  /** A column record copies `name` and `dataType` ('' when absent) and is flagged "Sim" exactly
      when `type` is "calculatedTableColumn" or "calculated", "Não" otherwise; only a column that
      is not a dict raises. */
  lemma ColumnRecord(script: Script, column: Json)
    ensures ColumnStep(script, column).Ok? <==> column.Obj?
    ensures ColumnStep(script, column).Ok? ==>
              |ColumnStep(script, column).value| == 1
              && Get(column, "name", Str("")) == Ok(ColumnStep(script, column).value[0].name)
              && Get(column, "dataType", Str("")) == Ok(ColumnStep(script, column).value[0].dataType)
              && (ColumnStep(script, column).value[0].calculated == Yes <==>
                    Get(column, "type", Str("")) == Ok(Str(CalculatedTableColumn))
                    || Get(column, "type", Str("")) == Ok(Str(Calculated)))
              && (ColumnStep(script, column).value[0].calculated == Yes
                  || ColumnStep(script, column).value[0].calculated == No)
  {
    assert Yes[0] != No[0];
  }

  /** `measure.get('expression', '')` is a list holding something other than a string, which the
      `filter` cannot strip. */
  predicate UnstrippableExpression(measure: Json) {
    match Get(measure, "expression", Str(""))
    case Ok(Arr(fragments)) => exists i :: 0 <= i < |fragments| && !fragments[i].Str?
    case _ => false
  }

  /** A measure record copies `name` ('' when absent) and holds `expression` ('' when absent),
      flattened when it is a list; only a measure that is not a dict (AttributeError) or a list
      expression with a fragment that is not a string (the script's strip failure) raises. */
  lemma MeasureRecord(script: Script, measure: Json)
    ensures MeasureStep(script, measure).Ok? <==> measure.Obj? && !UnstrippableExpression(measure)
    ensures MeasureStep(script, measure).Ok? ==>
              |MeasureStep(script, measure).value| == 1
              && Get(measure, "name", Str("")) == Ok(MeasureStep(script, measure).value[0].name)
              && Flatten(script, Get(measure, "expression", Str("")).value)
                   == Ok(MeasureStep(script, measure).value[0].expression)
    ensures MeasureStep(script, measure).Ok? && !Get(measure, "expression", Str("")).value.Arr? ==>
              Get(measure, "expression", Str("")) == Ok(MeasureStep(script, measure).value[0].expression)
    ensures MeasureStep(script, measure).Raise? ==>
              MeasureStep(script, measure).exc == (if measure.Obj? then StripFailure(script) else AttributeError)
  {
    if measure.Obj? {
      var expression := Get(measure, "expression", Str("")).value;
      if expression.Arr? {
        FlattenList(script, expression.items);
      }
    }
  }

  /** A column without `type` is not calculated. */
  lemma UntypedColumnNotCalculated(script: Script, name: string)
    ensures ColumnStep(script, Obj([("name", Str(name))])) == Ok([Column(Str(name), Str(""), No)])
  {
    var fields := [("name", Str(name))];
    assert "name"[0] != "dataType"[0] && "name"[0] != "type"[0];
    assert Lookup(fields[1..], "type") == None;
    assert Lookup(fields[1..], "dataType") == None;
    assert Get(Obj(fields), "type", Str("")) == Ok(Str(""));
    assert Get(Obj(fields), "dataType", Str("")) == Ok(Str(""));
    assert CalculatedFlag(Str("")) == No;
  }

  // ---------------------------------------------------------------- measure expressions

  /** The text of the string fragments that are not whitespace only, in order. */
  function NonBlankTexts(fragments: seq<Json>): (r: seq<string>)
    ensures forall t :: t in r ==> !Blank(t)
    decreases |fragments|
  {
    if fragments == [] then []
    else
      NonBlankTexts(fragments[..|fragments| - 1]) +
      (match fragments[|fragments| - 1]
       case Str(s) => if Blank(s) then [] else [s]
       case _ => [])
  }

  /** The `filter` over a list-form expression: it completes exactly when every fragment is a
      string, keeping the non-blank ones in order; otherwise it raises the script's strip failure. */
  lemma {:induction false} FragmentsKept(script: Script, fragments: seq<Json>)
    ensures FlatCollect(FragmentStep, script, fragments).Ok? <==>
              forall i :: 0 <= i < |fragments| ==> fragments[i].Str?
    ensures FlatCollect(FragmentStep, script, fragments).Ok? ==>
              FlatCollect(FragmentStep, script, fragments).value == NonBlankTexts(fragments)
    ensures FlatCollect(FragmentStep, script, fragments).Raise? ==>
              FlatCollect(FragmentStep, script, fragments).exc == StripFailure(script)
    decreases |fragments|
  {
    if fragments != [] {
      var init := fragments[..|fragments| - 1];
      FragmentsKept(script, init);
      assert forall i :: 0 <= i < |init| ==> init[i] == fragments[i];
      match fragments[|fragments| - 1]
      case Str(s) => StripEmptyIffBlank(s);
      case _ =>
    }
  }

  /** A list-form expression becomes its non-blank fragments joined by single spaces. */
  lemma FlattenList(script: Script, fragments: seq<Json>)
    ensures Flatten(script, Arr(fragments)).Ok? <==> forall i :: 0 <= i < |fragments| ==> fragments[i].Str?
    ensures Flatten(script, Arr(fragments)).Ok? ==>
              Flatten(script, Arr(fragments)).value == Str(Join(" ", NonBlankTexts(fragments)))
    ensures Flatten(script, Arr(fragments)).Raise? ==> Flatten(script, Arr(fragments)).exc == StripFailure(script)
  {
    FragmentsKept(script, fragments);
  }

  /** A flattened expression is a fixed point of flattening: a string passes through unchanged. */
  lemma FlattenIdempotent(script: Script, expression: Json)
    requires Flatten(script, expression).Ok?
    ensures Flatten(script, Flatten(script, expression).value) == Flatten(script, expression)
  {
  }

  /** `["SUM(", " ", "Sales[Amount])"]` flattens to `"SUM( Sales[Amount])"`. */
  lemma FlattenExample(script: Script)
    ensures Flatten(script, Arr([Str("SUM("), Str(" "), Str("Sales[Amount])")])) == Ok(Str("SUM( Sales[Amount])"))
  {
    ExampleFragments(script);
    FlattenArr(script, [Str("SUM("), Str(" "), Str("Sales[Amount])")], ["SUM(", "Sales[Amount])"]);
    ExampleJoin();
  }

  lemma ExampleJoin()
    ensures Join(" ", ["SUM(", "Sales[Amount])"]) == "SUM( Sales[Amount])"
  {
    JoinPair(" ", "SUM(", "Sales[Amount])");
    assert "SUM(" + " " + "Sales[Amount])" == "SUM( Sales[Amount])";
  }

  lemma FlattenArr(script: Script, fragments: seq<Json>, kept: seq<string>)
    requires FlatCollect(FragmentStep, script, fragments) == Ok(kept)
    ensures Flatten(script, Arr(fragments)) == Ok(Str(Join(" ", kept)))
  {
  }

  lemma JoinPair(sep: string, a: string, b: string)
    ensures Join(sep, [a, b]) == a + sep + b
  {
    assert [a, b][1..] == [b];
  }

  lemma ExampleFragments(script: Script)
    ensures FlatCollect(FragmentStep, script, [Str("SUM("), Str(" "), Str("Sales[Amount])")])
              == Ok(["SUM(", "Sales[Amount])"])
  {
    var fragments := [Str("SUM("), Str(" "), Str("Sales[Amount])")];
    ExampleStrips(script);
    var none: seq<string> := [];
    assert fragments[..1] == [Str("SUM(")] && fragments[..1][..0] == [];
    assert FlatCollect(FragmentStep, script, fragments[..1]) == Ok(none + ["SUM("]);
    assert none + ["SUM("] == ["SUM("];
    assert fragments[..2][..1] == fragments[..1];
    assert fragments[..2][1] == Str(" ");
    assert FlatCollect(FragmentStep, script, fragments[..2]) == Ok(["SUM("] + none);
    assert ["SUM("] + none == ["SUM("];
    assert fragments[..|fragments| - 1] == fragments[..2];
    assert fragments[|fragments| - 1] == Str("Sales[Amount])");
    assert FlatCollect(FragmentStep, script, fragments) == Ok(["SUM("] + ["Sales[Amount])"]);
    assert ["SUM("] + ["Sales[Amount])"] == ["SUM(", "Sales[Amount])"];
  }

  lemma ExampleStrips(script: Script)
    ensures FragmentStep(script, Str("SUM(")) == Ok(["SUM("])
    ensures FragmentStep(script, Str(" ")) == Ok([])
    ensures FragmentStep(script, Str("Sales[Amount])")) == Ok(["Sales[Amount])"])
  {
    assert TrimStart("SUM(") == "SUM(" && TrimEnd("SUM(") == "SUM(";
    assert TrimStart(" ") == TrimStart(" "[1..]) == "";
    assert TrimStart("Sales[Amount])") == "Sales[Amount])" && TrimEnd("Sales[Amount])") == "Sales[Amount])";
  }

  // ---------------------------------------------------------------- relationships

  /** An endpoint the codv02.py filter rejects: a string with a date-table prefix. */
  predicate DateEndpoint(v: Json) {
    v.Str? && HasDatePrefix(v.s)
  }

  /** The relationship filter's verdict: codv02.py drops a relationship when either endpoint is a
      date table; the other scripts look at `fromTable` alone. */
  predicate KeepsRelationship(script: Script, rel: Json) {
    if script == Codv02 then !DateField(rel, "fromTable", Null) && !DateField(rel, "toTable", Null)
    else !DateField(rel, "fromTable", Str(""))
  }

  /** `rel.get(key, default)` is a string with a date-table prefix. */
  predicate DateField(rel: Json, key: string, default: Json) {
    match Get(rel, key, default)
    case Ok(v) => DateEndpoint(v)
    case Raise(_) => false
  }

  predicate ValidEndpoints(script: Script, r: Relationship) {
    if script == Codv02 then
      r.fromTable.Str? && r.toTable.Str? && !HasDatePrefix(r.fromTable.s) && !HasDatePrefix(r.toTable.s)
    else
      !DateEndpoint(r.fromTable)
  }

  /** codv02.py's rule for one relationship: dropped iff `fromTable` or `toTable` is a date
      table; a missing or non-string endpoint raises AttributeError unless `fromTable` already
      dropped it; a kept one carries both endpoints and the column names ('' when absent). */
  lemma Codv02Relationship(rel: Json)
    requires rel.Obj?
    ensures RelationshipStep(Codv02, rel) == Ok([]) <==>
              DateEndpoint(Get(rel, "fromTable", Null).value)
              || (Get(rel, "fromTable", Null).value.Str? && DateEndpoint(Get(rel, "toTable", Null).value))
    ensures RelationshipStep(Codv02, rel).Raise? <==>
              !Get(rel, "fromTable", Null).value.Str?
              || (!DateEndpoint(Get(rel, "fromTable", Null).value) && !Get(rel, "toTable", Null).value.Str?)
    ensures RelationshipStep(Codv02, rel).Raise? ==> RelationshipStep(Codv02, rel).exc == AttributeError
    ensures KeepsRelationship(Codv02, rel) && RelationshipStep(Codv02, rel).Ok? ==>
              RelationshipStep(Codv02, rel) == Ok([Relationship(
                Get(rel, "fromTable", Null).value, Get(rel, "toTable", Null).value,
                Get(rel, "fromColumn", Str("")).value, Get(rel, "toColumn", Str("")).value)])
  {
  }

  /** testes.py's and testes02.py's rule for one relationship: dropped iff `fromTable` (absent
      counts as '') is a date table, whatever `toTable` holds; a kept one carries the four fields
      with None for an absent one. */
  lemma LaterRelationship(script: Script, rel: Json)
    requires script != Codv02
    requires rel.Obj?
    ensures RelationshipStep(script, rel).Raise? <==> !Get(rel, "fromTable", Str("")).value.Str?
    ensures RelationshipStep(script, rel) == Ok([]) <==> DateEndpoint(Get(rel, "fromTable", Str("")).value)
    ensures KeepsRelationship(script, rel) && RelationshipStep(script, rel).Ok? ==>
              RelationshipStep(script, rel) == Ok([Relationship(
                Get(rel, "fromTable", Null).value, Get(rel, "toTable", Null).value,
                Get(rel, "fromColumn", Null).value, Get(rel, "toColumn", Null).value)])
  {
  }

  /** The relationships are the records of the raw relationships the filter keeps, in order, and
      every emitted one passes the script's endpoint test. */
  lemma RelationshipsFiltered(script: Script, modelData: Json)
    requires Relationships(script, modelData).Ok?
    ensures ModelRelationships(modelData).Ok?
    ensures |Relationships(script, modelData).value| ==
              |FilterBy(KeepsRelationship, script, ModelRelationships(modelData).value)|
    ensures forall k :: 0 <= k < |FilterBy(KeepsRelationship, script, ModelRelationships(modelData).value)| ==>
              RelationshipStep(script, FilterBy(KeepsRelationship, script, ModelRelationships(modelData).value)[k])
                == Ok([Relationships(script, modelData).value[k]])
    ensures forall r :: r in Relationships(script, modelData).value ==> ValidEndpoints(script, r)
  {
    var raws := ModelRelationships(modelData).value;
    FlatCollectFilter(RelationshipStep, KeepsRelationship, script, raws);
    forall i, b | 0 <= i < |raws| && RelationshipStep(script, raws[i]).Ok? && b in RelationshipStep(script, raws[i]).value
      ensures ValidEndpoints(script, b)
    {
    }
    FlatCollectAll(RelationshipStep, script, raws, b => ValidEndpoints(script, b));
  }

  /** The two rules apart: a relationship into a generated date table is dropped by codv02.py and
      kept by testes.py. */
  lemma DateTargetRelationship()
    ensures RelationshipStep(Codv02, Obj([("fromTable", Str("Sales")), ("toTable", Str("LocalDateTable_1"))])) == Ok([])
    ensures RelationshipStep(Testes, Obj([("fromTable", Str("Sales")), ("toTable", Str("LocalDateTable_1"))]))
              == Ok([Relationship(Str("Sales"), Str("LocalDateTable_1"), Null, Null)])
  {
    assert StartsWith("LocalDateTable_1", LocalDateTable);
    assert !StartsWith("Sales", DateTableTemplate);
    assert !StartsWith("Sales", LocalDateTable);
  }

  // ---------------------------------------------------------------- whole documents

  /** A layout with one section "Sales" and no containers gives one page "Sales" with no visuals. */
  lemma OneEmptySection(env: Env)
    ensures Pages(env, Obj([("sections", Arr([Obj([("displayName", Str("Sales"))])]))]))
              == Ok([Page(Str("Sales"), [])])
  {
    var ss := [Obj([("displayName", Str("Sales"))])];
    var layout := Obj([("sections", Arr(ss))]);
    assert Sections(layout) == Ok(ss);
    assert "displayName"[0] != "visualContainers"[0];
    assert Lookup(ss[0].fields[1..], "visualContainers") == None;
    assert Containers(ss[0]) == Ok([]);
    assert PageStep(env, ss[0]) == Ok([Page(Str("Sales"), [])]);
    assert ss[..|ss| - 1] == [];
    var none: seq<Page> := [];
    assert FlatCollect(PageStep, env, ss[..|ss| - 1]) == Ok(none);
    assert none + [Page(Str("Sales"), [])] == [Page(Str("Sales"), [])];
  }

  /** Of the tables "DateTableTemplate_X" and "Customers" only "Customers" survives. */
  lemma DateTemplateDropped(script: Script)
    ensures Tables(script, Obj([("model", Obj([("tables", Arr([
              Obj([("name", Str("DateTableTemplate_X"))]), Obj([("name", Str("Customers"))])]))]))]))
            == Ok([Table(Str("Customers"), [], [])])
  {
    var ts := [Obj([("name", Str("DateTableTemplate_X"))]), Obj([("name", Str("Customers"))])];
    assert ts[..1][..0] == [];
    assert StartsWith("DateTableTemplate_X", DateTableTemplate);
    assert !StartsWith("Customers", DateTableTemplate);
    assert !StartsWith("Customers", LocalDateTable);
    var modelData := Obj([("model", Obj([("tables", Arr(ts))]))]);
    assert ModelTables(modelData) == Ok(ts);
    assert "name"[0] != "columns"[0] && "name"[0] != "measures"[0];
    assert Lookup(ts[1].fields[1..], "columns") == None;
    assert Lookup(ts[1].fields[1..], "measures") == None;
    assert TableColumns(ts[1]) == Ok([]) && TableMeasures(ts[1]) == Ok([]);
    assert TableStep(script, ts[0]) == Ok([]);
    assert TableStep(script, ts[1]) == Ok([Table(Str("Customers"), [], [])]);
    assert ts[..|ts| - 1] == ts[..1];
    var none: seq<Table> := [];
    assert ts[..1][..0] == [];
    assert FlatCollect(TableStep, script, ts[..1]) == Ok(none + none);
    assert none + none == none;
    assert none + [Table(Str("Customers"), [], [])] == [Table(Str("Customers"), [], [])];
  }
}
