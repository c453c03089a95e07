/** The document each script writes: the template after label substitution, then codv02.py's title
    replacement, or testes02.py's page break, heading and one paragraph per line of the analysis,
    or testes.py's page break, heading and copy of the converted document; and the file name it is
    saved under. The current date, the report name and the set of existing paths are inputs. */
module Assembly {
  import opened PyText
  import opened Collect
  import opened Report
  import opened Docx
  import opened Naming

  /** codv02.py `gerar_documento`: labels, then one title replacement per block in order. */
  method FillTemplate(template: seq<Paragraph>, blocks: seq<(string, string)>, date: string, reportName: string,
                      existing: set<string>, savePath: string)
    returns (body: seq<Paragraph>, finalPath: string)
    ensures body == TitlesReplaced(RelabelAll(template, date, reportName), blocks)
    ensures finalPath !in existing
    ensures savePath !in existing ==> finalPath == savePath
    ensures savePath in existing ==>
              exists n: nat :: 2 <= n && finalPath == VersionedPath(savePath, n)
                && forall k :: 2 <= k < n ==> VersionedPath(savePath, k) in existing
  {
    var doc := new Document(template);
    doc.Relabel(date, reportName);
    for k := 0 to |blocks|
      invariant doc.paragraphs == TitlesReplaced(RelabelAll(template, date, reportName), blocks[..k])
    {
      assert blocks[..k + 1][..k] == blocks[..k];
      doc.ReplaceTitle(blocks[k].0, blocks[k].1);
    }
    assert blocks[..|blocks|] == blocks;
    body := doc.paragraphs;
    finalPath := SaveVersion(existing, savePath);
  }

  /** `document.add_paragraph(linha)` for each line: unstyled paragraphs. */
  function LineParagraphs(lines: seq<string>): (r: seq<Paragraph>)
    ensures |r| == |lines|
  {
    seq(|lines|, i requires 0 <= i < |lines| => Paragraph(lines[i], DefaultStyle))
  }

  /** The body testes02.py saves. */
  function LinesBody(template: seq<Paragraph>, aiText: string, date: string, reportName: string): seq<Paragraph> {
    RelabelAll(template, date, reportName) + [PageBreak, Paragraph(AnalysisHeading, Heading1)]
    + LineParagraphs(Split(aiText))
  }

  /** testes02.py `gerar_documento`. */
  method AppendLines(template: seq<Paragraph>, aiText: string, date: string, reportName: string,
                     existing: set<string>, savePath: string)
    returns (body: seq<Paragraph>, finalPath: string)
    ensures body == LinesBody(template, aiText, date, reportName)
    ensures finalPath !in existing
    ensures savePath !in existing ==> finalPath == savePath
    ensures savePath in existing ==>
              exists n: nat :: 2 <= n && finalPath == VersionedPath(savePath, n)
                && forall k :: 2 <= k < n ==> VersionedPath(savePath, k) in existing
  {
    var doc := new Document(template);
    doc.Relabel(date, reportName);
    doc.AddPageBreak();
    doc.AddHeading(AnalysisHeading);
    var head := doc.paragraphs;
    var lines := Split(aiText);
    for k := 0 to |lines|
      invariant doc.paragraphs == head + LineParagraphs(lines[..k])
    {
      assert LineParagraphs(lines[..k + 1]) == LineParagraphs(lines[..k]) + [Paragraph(lines[k], DefaultStyle)];
      doc.AddParagraph(lines[k], DefaultStyle);
    }
    assert lines[..|lines|] == lines;
    body := doc.paragraphs;
    finalPath := SaveVersion(existing, savePath);
  }

  /** The texts of a list of paragraphs. */
  function Texts(ps: seq<Paragraph>): (r: seq<string>)
    ensures |r| == |ps|
  {
    seq(|ps|, i requires 0 <= i < |ps| => TextOf(ps[i]))
  }

  /** testes02.py appends one paragraph per '\n'-separated line, plus one: no paragraph holds a
      line break, and joining their texts with '\n' gives back the analysis text. */
  lemma LinesBodyShape(template: seq<Paragraph>, aiText: string, date: string, reportName: string)
    ensures |LinesBody(template, aiText, date, reportName)| == |template| + 2 + Count(aiText, '\n') + 1
    ensures LinesBody(template, aiText, date, reportName)[..|template|] == RelabelAll(template, date, reportName)
    ensures LinesBody(template, aiText, date, reportName)[|template|] == PageBreak
    ensures LinesBody(template, aiText, date, reportName)[|template| + 1] == Paragraph(AnalysisHeading, Heading1)
    ensures forall i :: |template| + 2 <= i < |LinesBody(template, aiText, date, reportName)| ==>
              '\n' !in TextOf(LinesBody(template, aiText, date, reportName)[i])
    ensures Join("\n", Texts(LinesBody(template, aiText, date, reportName)[|template| + 2..])) == aiText
  {
    SplitPieces(aiText);
    var body := LinesBody(template, aiText, date, reportName);
    var lines := Split(aiText);
    assert body[|template| + 2..] == LineParagraphs(lines);
    assert Texts(LineParagraphs(lines)) == lines;
    forall i | |template| + 2 <= i < |body|
      ensures '\n' !in TextOf(body[i])
    {
      assert body[i] == LineParagraphs(lines)[i - |template| - 2];
    }
  }

  /** `base_doc.add_paragraph(elem.text)` with `.style = elem.style`, for each converted paragraph. */
  function Copies(converted: seq<Paragraph>): (r: seq<Paragraph>)
    ensures |r| == |converted|
  {
    seq(|converted|, i requires 0 <= i < |converted| => Paragraph(TextOf(converted[i]), StyleOf(converted[i])))
  }

  /** The body testes.py saves. */
  function ConvertedBody(template: seq<Paragraph>, converted: seq<Paragraph>, date: string, reportName: string): seq<Paragraph> {
    RelabelAll(template, date, reportName) + [PageBreak, Paragraph(AnalysisHeading, Heading1)] + Copies(converted)
  }

  /** testes.py `gerar_documento`, with the pandoc-converted document as an input. */
  method AppendConverted(template: seq<Paragraph>, converted: seq<Paragraph>, date: string, reportName: string,
                         existing: set<string>, savePath: string)
    returns (body: seq<Paragraph>, finalPath: string)
    ensures body == ConvertedBody(template, converted, date, reportName)
    ensures finalPath !in existing
    ensures savePath !in existing ==> finalPath == savePath
    ensures savePath in existing ==>
              exists n: nat :: 2 <= n && finalPath == VersionedPath(savePath, n)
                && forall k :: 2 <= k < n ==> VersionedPath(savePath, k) in existing
  {
    var doc := new Document(template);
    doc.Relabel(date, reportName);
    doc.AddPageBreak();
    doc.AddHeading(AnalysisHeading);
    var head := doc.paragraphs;
    for k := 0 to |converted|
      invariant doc.paragraphs == head + Copies(converted[..k])
    {
      assert Copies(converted[..k + 1]) == Copies(converted[..k]) + [Paragraph(TextOf(converted[k]), StyleOf(converted[k]))];
      doc.AddParagraph(TextOf(converted[k]), StyleOf(converted[k]));
    }
    assert converted[..|converted|] == converted;
    body := doc.paragraphs;
    finalPath := SaveVersion(existing, savePath);
  }

  /** After the heading come the converted paragraphs' texts in order, each with its own style; a
      converted document without page breaks is copied exactly. */
  lemma ConvertedBodyShape(template: seq<Paragraph>, converted: seq<Paragraph>, date: string, reportName: string)
    ensures |ConvertedBody(template, converted, date, reportName)| == |template| + 2 + |converted|
    ensures ConvertedBody(template, converted, date, reportName)[|template|] == PageBreak
    ensures ConvertedBody(template, converted, date, reportName)[|template| + 1] == Paragraph(AnalysisHeading, Heading1)
    ensures Texts(ConvertedBody(template, converted, date, reportName)[|template| + 2..]) == Texts(converted)
    ensures forall i :: 0 <= i < |converted| ==>
              StyleOf(ConvertedBody(template, converted, date, reportName)[|template| + 2 + i]) == StyleOf(converted[i])
    ensures (forall i :: 0 <= i < |converted| ==> converted[i].Paragraph?) ==>
              ConvertedBody(template, converted, date, reportName)[|template| + 2..] == converted
  {
    var body := ConvertedBody(template, converted, date, reportName);
    assert body[|template| + 2..] == Copies(converted);
  }

  /** The tables codv02.py `main` sends for analysis: those with at least one column. */
  predicate Narrated(u: (), t: Table) {
    t.columns != []
  }

  /** The table loop of codv02.py `main`, which skips a table without columns with `continue`. */
  method NarratedTables(tables: seq<Table>) returns (r: seq<Table>)
    ensures r == FilterBy(Narrated, (), tables)
  {
    r := [];
    for i := 0 to |tables|
      invariant r == FilterBy(Narrated, (), tables[..i])
    {
      assert tables[..i + 1][..i] == tables[..i];
      if tables[i].columns == [] {
        continue;
      }
      r := r + [tables[i]];
    }
    assert tables[..|tables|] == tables;
  }

  /** A table is analysed exactly when it was extracted and has a column. */
  lemma NarratedTablesMembers(tables: seq<Table>)
    ensures forall t :: t in FilterBy(Narrated, (), tables) <==> t in tables && t.columns != []
  {
    FilterByMembers(Narrated, (), tables);
  }
}
