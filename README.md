# Power BI documentation scripts, modelled in Dafny

Three near-identical scripts (`codv02.py`, `testes.py`, `testes02.py`) document a Power BI report.
Each one unpacks the `.pbit` template and reads two decoded JSON documents from it: the report
`Layout` and the `DataModelSchema`. From these it extracts:

- pages, with their visuals and the measures each visual references;
- tables, with their columns and measures, leaving out Power BI's generated date tables;
- relationships.

It then fills a Word template and saves it under a name that overwrites nothing.

This project models the core of all three scripts:

- **Extraction.** `Report` holds the records. `Extraction` gives one function per loop body, with
  `Script` selecting between the three variants. `Extractor` holds the scripts' `for` loops as
  methods, each proved equal to the extraction function. `ExtractionFacts` proves what the
  extraction promises.
- **Python behaviour.** Decoded JSON is modelled as a `Json` datatype. Python's dynamic errors
  (`.get` on a non-dict, iterating `None`, `startswith` on `None`, ...) are explicit `Raise`
  outcomes. Which ones a script's `try` catches decides whether a bad visual is skipped or stops
  the run.
- **Naming.** `Naming` holds the `salvar_versao` and `_v0{i}` counter loops over a finite set of
  existing paths.
- **Documents.** `Docx` is the python-docx paragraph list, as a `Document` class changed in
  place. `Assembly` holds the three `gerar_documento` variants and codv02.py's filter on tables to
  narrate.

The three scripts differ in three places, all selected by `Script`:

- **Exceptions caught per container.** codv02.py catches `JSONDecodeError` and `AttributeError`;
  the others catch every exception.
- **Non-string measure fragment.** codv02.py raises `AttributeError`; the others raise
  `TypeError`.
- **Relationship filter.** codv02.py checks both endpoints; the others check `fromTable` only.

The differences have consequences. In codv02.py, a `config` that is not a string, or a projection
role that is None, a boolean or a number (not iterable), stops the whole extraction with
`TypeError`; the others skip only that visual. A role that is a non-empty string or dict yields
items that have no `.get`, so it raises `AttributeError`, which every script catches: only that
visual is skipped (`ExtractionFacts.ContainerLoop`, `ExtractionFacts.NumericConfigScope`,
`ExtractionFacts.QueryRefsTruthy`). A relationship into a `LocalDateTable_…` is dropped by
codv02.py and kept by the others
(`ExtractionFacts.DateTargetRelationship`).

Three details of the code that are easy to misread:

- A version name is `{base}_versão_{NN}{ext}`, not `_version_`.
- The alternate archive name is `_v0` followed by the counter, so the tenth is `_v010`, not a
  two-digit suffix (`Naming.AlternateTen`).
- In codv02.py, a relationship without `fromTable` or `toTable` raises `AttributeError`
  (`startswith` on `None`). It is modelled as that outcome, not as a precondition.

## Model

| member | source | states |
|---|---|---|
| Extractor.CollectVisuals | codv02.py:66-78 | The container loop's outcome is the loop function over `VisualStep`. A caught exception adds no visual. An uncaught one ends the loop with that exception. |
| Extractor.ExtractPages | codv02.py:58-80 | `extrair_dados_paginas` returns exactly `Pages(env, layout)`: one `PageStep` per section, stopping at the first uncaught exception. testes.py:65-80 and testes02.py:65-83 run the same loop with the broad `except Exception`, selected by `Script`. |
| Extractor.CollectColumns | codv02.py:94-99 | The column loop returns the loop function over `ColumnStep`. |
| Extractor.CollectMeasures | codv02.py:100-107 | The measure loop returns the loop function over `MeasureStep`, flattening list expressions first. |
| Extractor.ExtractTables | codv02.py:83-109 | `extrair_dados_tabelas` returns exactly `Tables(script, modelData)`. A date table is skipped with `continue`; any other table gives one record. The tables part of `extrair_dados` (testes.py:83-101, testes02.py:86-108) is the same loop. |
| Extractor.ExtractRelationships | codv02.py:112-127 | `extrair_dados_relacionamentos` returns exactly `Relationships(script, modelData)`. The relationships part of `extrair_dados` (testes.py:104-112, testes02.py:111-119) applies the `fromTable`-only rule. |
| Extractor.ExtractSummary | testes.py:60-114 | `extrair_dados` fills pages, then tables, then relationships. The first exception ends it. testes02.py:60-121 is the same function. |
| ExtractionFacts.ContainerLoop | codv02.py:66-78 | When the container loop completes, its visuals are exactly those of the containers that parse, in order. Under testes.py/testes02.py it always completes. Under codv02.py it raises, always `TypeError`, iff some container raises `TypeError`. |
| ExtractionFacts.PagesOnePerSection | codv02.py:61-79 | Pages correspond one to one, in order, to sections. Each page's name is `displayName`, or "Sem Nome" when it is absent. Its visuals are those of its containers that parse. |
| ExtractionFacts.BroadScopePagesComplete | testes.py:67-79 | With `except Exception`, no container content can stop the page loop. |
| ExtractionFacts.ItemRefsTruthy | codv02.py:71-73 | One role's items yield their truthy `queryRef`s in order, by an independent front-to-back definition (`TruthyItems`). This completes iff every item is a dict; otherwise it raises `AttributeError`. |
| ExtractionFacts.QueryRefsTruthy | codv02.py:71-73 | The measure comprehension yields exactly `TruthyRefs(roles)`: the truthy `queryRef`s in role order, then item order. It completes iff every role is iterable and every item is a dict. |
| ExtractionFacts.VisualMeasures | codv02.py:68-75 | A parsed visual's `tipo` is `singleVisual.visualType`, None when absent. Its `medidas` are exactly `TruthyRefs` of the projection roles, or the placeholder alone when there are none. The list is never empty and every entry is truthy. |
| ExtractionFacts.NumericConfigScope | testes.py:67-79 | A numeric `config` stops codv02.py's loop with `TypeError` but is skipped by testes.py. |
| ExtractionFacts.TablesFiltered | codv02.py:86-108 | The tables are, in order, the records of exactly the raw tables whose name has no date-table prefix. No emitted table has such a name. |
| ExtractionFacts.TableRecordOneToOne | codv02.py:89-107 | A kept table keeps its name. Its columns and measures correspond one to one, in order, to the raw ones. |
| ExtractionFacts.ColumnRecord | codv02.py:95-99 | A column record copies name and data type ('' when absent). `calculada` is "Sim" iff `type` is "calculatedTableColumn" or "calculated", and "Não" otherwise. Only a non-dict column raises. |
| ExtractionFacts.UntypedColumnNotCalculated | testes.py:88-92 | A column without `type` is flagged "Não". |
| ExtractionFacts.FragmentsKept | testes.py:96 | The fragment filter completes iff every fragment is a string. It then keeps exactly the non-blank fragments, in order. Otherwise it raises the script's strip failure. |
| ExtractionFacts.MeasureRecord | codv02.py:100-107 | A measure record copies `name` ('' when absent). Its `expressao` is `expression` ('' when absent), flattened when it is a list. It raises iff the measure is not a dict (`AttributeError`) or its list expression has a non-string fragment (the script's strip failure). |
| ExtractionFacts.FlattenList | codv02.py:101-103 | A list expression becomes its non-blank fragments joined by single spaces. A non-string fragment raises `AttributeError` in codv02.py and `TypeError` in the others. |
| ExtractionFacts.FlattenIdempotent | testes02.py:101-103 | Flattening a flattened expression changes nothing. |
| ExtractionFacts.FlattenExample | codv02.py:101-103 | `["SUM(", " ", "Sales[Amount])"]` flattens to `"SUM( Sales[Amount])"`. |
| ExtractionFacts.Codv02Relationship | codv02.py:115-126 | Dropped iff `fromTable` is a date table, or `fromTable` is a string and `toTable` is a date table. Raises `AttributeError` iff an endpoint that gets tested is missing or not a string. A kept relationship carries both endpoints, with column names defaulting to ''. |
| ExtractionFacts.LaterRelationship | testes.py:104-112 | Dropped iff `fromTable` (absent counts as '') is a date table, whatever `toTable` is. Raises iff `fromTable` is present and not a string. A kept relationship carries all four fields, with None for an absent one. |
| ExtractionFacts.RelationshipsFiltered | testes02.py:111-119 | The relationships are, in order, the records of exactly the raw relationships the script's filter keeps. Every emitted one passes that script's endpoint test. |
| ExtractionFacts.DateTargetRelationship | codv02.py:118-119 | A relationship into a `LocalDateTable` is dropped by codv02.py and kept by testes.py. |
| ExtractionFacts.OneEmptySection | testes02.py:65-83 | A layout with one section "Sales" and no containers gives one page "Sales" with no visuals. |
| ExtractionFacts.DateTemplateDropped | codv02.py:86-88 | Of the tables "DateTableTemplate_X" and "Customers", only "Customers" is emitted. |
| PyText.StripEmptyIffBlank | codv02.py:103 | `strip()` yields "" iff the string is whitespace only, so the filter drops exactly the blank fragments. |
| PyText.SplitPieces | testes02.py:181 | `split("\n")` gives one more piece than there are '\n'. No piece holds a '\n'. Joining the pieces with '\n' gives back the text. |
| PyText.Pad2RoundTrip | codv02.py:185-187 | `{versao:02}` reads back as the version number. |
| PyText.DecimalRoundTrip | testes.py:26-29 | `{i}` reads back as the counter. |
| Naming.SplitExt | codv02.py:183 | `os.path.splitext` gives a base and an extension that concatenate to the path. The extension is empty, or a '.' followed by neither '.' nor '/'. |
| Naming.SplitExtExamples | testes.py:26 | The path is cut at the file name's last dot, not a directory's. A leading dot is not an extension. |
| Naming.VersionedPathInjective | codv02.py:184-187 | Distinct version numbers give distinct names. |
| Naming.AlternatePathInjective | testes.py:26-29 | Distinct counters give distinct names. |
| Naming.InjectiveRunBound | codv02.py:185-186 | A run of k distinct existing names needs k existing paths, so the counter loops end. |
| Naming.SaveVersion | codv02.py:179-187 | Returns the path when it is free. Otherwise returns `{base}_versão_{NN}{ext}` for an NN ≥ 2 with every lower version existing. The result is never an existing path. testes.py:156-164 and testes02.py:157-165 are the same function. |
| Naming.LeastFreeVersionUnique | codv02.py:184-187 | Only one version number is free with every lower one taken, so `SaveVersion`'s result is determined. |
| Naming.SaveVersionExample | codv02.py:179-187 | With "report_doc.docx" and its version 02 existing, the name is "report_doc_versão_03.docx". |
| Naming.RenameTarget | testes.py:22-34 | The rename target is the `.zip` path when it is free. Otherwise it is `{base}_v0{i}{ext}` for an i ≥ 2 with every lower one existing. It never exists. testes02.py:22-34 is the same code. |
| Naming.AlternateTen | testes02.py:26-29 | The tenth alternate of "R.zip" is "R_v010.zip". |
| Docx.RelabelLines | codv02.py:194-198 | Every paragraph keeps its style. One mentioning the date label becomes "Data da documentação: <date>": the label, one space, then the date. One mentioning only the name label becomes "Nome do Relatório: <name>" in the same way. All others are untouched. |
| Docx.RelabelIdempotent | testes02.py:172-176 | A second label pass changes nothing, unless the report name itself contains the date label. |
| Docx.FirstTitle | codv02.py:201-203 | Finds the least index whose stripped, lower-cased text equals the lower-cased title, or none when no paragraph matches. |
| Docx.TitleReplacedFirstOnly | codv02.py:200-210 | Only the first title paragraph is replaced, by a "Normal" paragraph holding the content. Every other paragraph is kept, later title paragraphs included. With no match the body is unchanged. |
| Docx.TitlesAbsentUnchanged | codv02.py:200-210 | A body containing none of the titles comes through the title loop unchanged. |
| Docx.TitlesReplacedParagraphs | codv02.py:200-210 | After all titles, each paragraph is either the original at that place or a "Normal" paragraph holding one of the contents. |
| Docx.Document.constructor | codv02.py:192 | Opening the template gives its paragraphs. |
| Docx.Document.Relabel | codv02.py:194-198 | The in-place label loop leaves exactly `RelabelAll` of the old paragraphs. |
| Docx.Document.ReplaceTitle | codv02.py:201-210 | The in-place inner loop (insert, style, remove, `break`) leaves exactly `TitleReplaced` of the old paragraphs. |
| Docx.Document.AddPageBreak | testes02.py:179 | Appends one page-break paragraph. |
| Docx.Document.AddHeading | testes02.py:180 | Appends one "Heading 1" paragraph with the text. |
| Docx.Document.AddParagraph | testes.py:194-195 | Appends one paragraph with the text and style. |
| Assembly.FillTemplate | codv02.py:190-213 | The saved body is the template after label substitution and then title replacement, block by block in order. The name is a `salvar_versao` name that does not exist. |
| Assembly.AppendLines | testes02.py:168-185 | The saved body is the substituted template, a page break, the heading "Análise Técnica Automatizada (IA)", and one unstyled paragraph per line of the analysis text. The name overwrites nothing. |
| Assembly.LinesBodyShape | testes02.py:179-182 | That body has \|template\| + 2 + (number of '\n') + 1 paragraphs. No line paragraph holds '\n'. Their texts joined by '\n' give back the analysis text. |
| Assembly.AppendConverted | testes.py:181-198 | The saved body is the substituted template, a page break, the heading, and a copy of each converted paragraph's text and style, in order. The name overwrites nothing. |
| Assembly.ConvertedBodyShape | testes.py:189-195 | After the heading come the converted texts in order, each with its own style. A converted document without page breaks is copied exactly. |
| Assembly.NarratedTables | codv02.py:266-268 | The table loop of `main` keeps, in order, the tables that have at least one column. |
| Assembly.NarratedTablesMembers | codv02.py:267-268 | A table is analysed iff it was extracted and has a column. |

## Left out

- The ZIP I/O is not modelled: `extrair_arquivos_zip`, the `os.rename` calls and restoring the `.pbit`. Only the name choice is (`Naming.RenameTarget`).
- `carregar_dados_json` is not modelled: UTF-16-LE decoding and `json.load` are library I/O. The model starts from decoded `Json` values.
- `json.loads` of a visual's `config` is an abstract decoder, `parse: string -> Option<Json>`. `None` stands for `JSONDecodeError`. Its `RecursionError` on deeply nested input is not modelled.
- The Gemini calls are network clients with prompt text, so they are not modelled: `analisar_item_com_ia`, `analisar_relatorio_completo`, and the prompt and block formatting in `main`. Their fallback strings are not modelled either. Nor is `main`'s fixed relationships text, "Nenhum relacionamento encontrado no modelo.", since the other branch of that `if` is the AI analysis.
- testes.py's pypandoc conversion and temporary file are an external tool plus I/O. The converted paragraphs are an input of `Assembly.AppendConverted`.
- python-docx internals are abstracted as a list of paragraph texts and style names. Not modelled: runs, XML element insertion and removal, how `'\n'` or `'\r'` in a text becomes a line break inside one paragraph, and `save`.
- Docx.Document.AddHeading: only `level=1`, the one level the scripts use; python-docx's `ValueError` for other levels is not modelled.
- Runtime context is not modelled: `datetime.now().strftime('%d/%m/%Y')` is the `date` parameter; `load_dotenv`/`os.getenv`, the `config` module, `print` and `main`'s orchestration are left out.
- Naming.SplitExt follows the POSIX `os.path.splitext`. The Windows variant, with `\` and drive letters as separators, is not modelled.
- PyText.Lower lower-cases ASCII and Latin-1 letters only, which covers the Portuguese titles the scripts use. The rest of Unicode's case mapping is not modelled.
- A JSON number is a `real`. NaN and infinities, which Python's decoder accepts, are not modelled. Their truthiness plays no part beyond `queryRef`.
- Naming.SaveVersion and Naming.RenameTarget: the file system is a finite set of existing paths fixed during the call. Races with other processes are not modelled.
