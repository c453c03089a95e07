/** The report model the extractors build: pages with their visuals, tables with their columns and
    measures, and relationships. Field values the scripts copy straight from the decoded document
    stay JSON values, since nothing in the scripts checks their kind. */
module Report {
  import opened PyJson
  import opened PyText

  /** Page name used when a section has no `displayName`. */
  const NoName := "Sem Nome"
  /** The single measure reference of a visual that references none. */
  const NoMeasure := "Nenhuma medida explícita"
  /** The `calculada` flag values. */
  const Yes := "Sim"
  const No := "Não"
  const CalculatedTableColumn := "calculatedTableColumn"
  const Calculated := "calculated"
  /** Name prefixes of the date tables Power BI generates on its own. */
  const DateTableTemplate := "DateTableTemplate"
  const LocalDateTable := "LocalDateTable"

  /** `{"tipo": ..., "medidas": [...]}` */
  datatype Visual = Visual(kind: Json, measures: seq<Json>)
  /** `{"nome": ..., "visuais": [...]}` */
  datatype Page = Page(name: Json, visuals: seq<Visual>)
  /** `{"nome": ..., "tipo_dado": ..., "calculada": "Sim" | "Não"}` */
  datatype Column = Column(name: Json, dataType: Json, calculated: string)
  /** `{"nome": ..., "expressao": ...}` */
  datatype Measure = Measure(name: Json, expression: Json)
  /** `{"nome": ..., "colunas": [...], "medidas": [...]}` */
  datatype Table = Table(name: Json, columns: seq<Column>, measures: seq<Measure>)
  /** `{"de_tabela": ..., "para_tabela": ..., "de_coluna": ..., "para_coluna": ...}` */
  datatype Relationship = Relationship(fromTable: Json, toTable: Json, fromColumn: Json, toColumn: Json)
  /** The `resumo` dict of the single-pass extractor. */
  datatype Summary = Summary(pages: seq<Page>, tables: seq<Table>, relationships: seq<Relationship>)

  /** `s.startswith(("DateTableTemplate", "LocalDateTable"))` */
  predicate HasDatePrefix(s: string) {
    StartsWith(s, DateTableTemplate) || StartsWith(s, LocalDateTable)
  }

  /** The same test on a JSON value: only a string has `startswith`. */
  function StartsWithDatePrefix(v: Json): Py<bool> {
    match v
    case Str(s) => Ok(HasDatePrefix(s))
    case _ => Raise(AttributeError)
  }
}
