/** The part of a Word document the scripts touch: its body as a list of paragraphs, each with a
    text and a style. `Document` holds the list and changes it the way the scripts do through
    python-docx: rewriting a paragraph's text, replacing a title paragraph by a content paragraph,
    and appending a page break, a heading or a paragraph. */
module Docx {
  import opened PyJson
  import opened PyText

  datatype Style = DefaultStyle | Named(name: string)

  /** A paragraph, or the paragraph `add_page_break` appends, whose text reads as "". */
  datatype Paragraph = Paragraph(text: string, style: Style) | PageBreak

  const DateLabel := "Data da documentação:"
  const NameLabel := "Nome do Relatório:"
  const AnalysisHeading := "Análise Técnica Automatizada (IA)"
  const NormalStyle := Named("Normal")
  /** The style `add_heading(..., level=1)` gives. */
  const Heading1 := Named("Heading 1")

  /** `para.text` */
  function TextOf(p: Paragraph): string {
    match p
    case Paragraph(t, _) => t
    case PageBreak => ""
  }

  /** `para.style` */
  function StyleOf(p: Paragraph): Style {
    match p
    case Paragraph(_, s) => s
    case PageBreak => DefaultStyle
  }

  // ---------------------------------------------------------------- label substitution

  /** One paragraph of the label loop: a paragraph mentioning the date label becomes the date
      line; otherwise one mentioning the report-name label becomes the name line; the `elif`
      makes the date label win. Setting `para.text` keeps the paragraph's style. */
  function Relabelled(p: Paragraph, date: string, reportName: string): Paragraph {
    if Contains(TextOf(p), DateLabel) then Paragraph(DateLabel + " " + date, StyleOf(p))
    else if Contains(TextOf(p), NameLabel) then Paragraph(NameLabel + " " + reportName, StyleOf(p))
    else p
  }

  /** The label loop over the whole body. */
  function RelabelAll(ps: seq<Paragraph>, date: string, reportName: string): (r: seq<Paragraph>)
    ensures |r| == |ps|
  {
    seq(|ps|, i requires 0 <= i < |ps| => Relabelled(ps[i], date, reportName))
  }

  lemma StartsWithContains(s: string, p: string)
    requires StartsWith(s, p)
    ensures Contains(s, p)
  {
  }

  /** What the label loop leaves behind: every paragraph keeps its style; one that mentioned the
      date label reads "Data da documentação: <date>", one that mentioned only the name label reads
      "Nome do Relatório: <name>" (label, one space, value), and every other paragraph is
      untouched. */
  lemma RelabelLines(ps: seq<Paragraph>, date: string, reportName: string)
    ensures forall i :: 0 <= i < |ps| ==> StyleOf(RelabelAll(ps, date, reportName)[i]) == StyleOf(ps[i])
    ensures forall i :: 0 <= i < |ps| && Contains(TextOf(ps[i]), DateLabel) ==>
              StartsWith(TextOf(RelabelAll(ps, date, reportName)[i]), DateLabel)
              && TextOf(RelabelAll(ps, date, reportName)[i])[|DateLabel|] == ' '
              && TextOf(RelabelAll(ps, date, reportName)[i])[|DateLabel| + 1..] == date
    ensures forall i :: 0 <= i < |ps| && !Contains(TextOf(ps[i]), DateLabel) && Contains(TextOf(ps[i]), NameLabel) ==>
              StartsWith(TextOf(RelabelAll(ps, date, reportName)[i]), NameLabel)
              && TextOf(RelabelAll(ps, date, reportName)[i])[|NameLabel|] == ' '
              && TextOf(RelabelAll(ps, date, reportName)[i])[|NameLabel| + 1..] == reportName
    ensures forall i :: 0 <= i < |ps| && !Contains(TextOf(ps[i]), DateLabel) && !Contains(TextOf(ps[i]), NameLabel) ==>
              RelabelAll(ps, date, reportName)[i] == ps[i]
  {
    forall i | 0 <= i < |ps|
      ensures Contains(TextOf(ps[i]), DateLabel) ==>
                StartsWith(TextOf(RelabelAll(ps, date, reportName)[i]), DateLabel)
                && TextOf(RelabelAll(ps, date, reportName)[i])[|DateLabel|] == ' '
                && TextOf(RelabelAll(ps, date, reportName)[i])[|DateLabel| + 1..] == date
      ensures !Contains(TextOf(ps[i]), DateLabel) && Contains(TextOf(ps[i]), NameLabel) ==>
                StartsWith(TextOf(RelabelAll(ps, date, reportName)[i]), NameLabel)
                && TextOf(RelabelAll(ps, date, reportName)[i])[|NameLabel|] == ' '
                && TextOf(RelabelAll(ps, date, reportName)[i])[|NameLabel| + 1..] == reportName
    {
      var line := DateLabel + " " + date;
      assert line[..|DateLabel|] == DateLabel && line[|DateLabel| + 1..] == date;
      var nameLine := NameLabel + " " + reportName;
      assert nameLine[..|NameLabel|] == NameLabel && nameLine[|NameLabel| + 1..] == reportName;
    }
  }

  /** Running the label loop a second time changes nothing, as long as the report name does not
      itself bring in the date label. */
  lemma RelabelIdempotent(ps: seq<Paragraph>, date: string, reportName: string)
    requires !Contains(NameLabel + " " + reportName, DateLabel)
    ensures RelabelAll(RelabelAll(ps, date, reportName), date, reportName) == RelabelAll(ps, date, reportName)
  {
    var once := RelabelAll(ps, date, reportName);
    forall i | 0 <= i < |ps|
      ensures Relabelled(once[i], date, reportName) == once[i]
    {
      var line := DateLabel + " " + date;
      assert line[..|DateLabel|] == DateLabel;
      StartsWithContains(line, DateLabel);
      var nameLine := NameLabel + " " + reportName;
      assert nameLine[..|NameLabel|] == NameLabel;
      StartsWithContains(nameLine, NameLabel);
    }
  }

  // ---------------------------------------------------------------- title replacement

  /** `para.text.strip().lower() == titulo.lower()` */
  predicate IsTitle(p: Paragraph, title: string) {
    Lower(Strip(TextOf(p))) == Lower(title)
  }

  /** The index of the first title paragraph, the one the inner loop stops at. */
  function FirstTitle(ps: seq<Paragraph>, title: string): (r: Option<nat>)
    ensures r.Some? ==> r.value < |ps| && IsTitle(ps[r.value], title)
                        && forall j :: 0 <= j < r.value ==> !IsTitle(ps[j], title)
    ensures r.None? ==> forall j :: 0 <= j < |ps| ==> !IsTitle(ps[j], title)
    decreases |ps|
  {
    if ps == [] then None
    else if IsTitle(ps[0], title) then Some(0)
    else
      match FirstTitle(ps[1..], title)
      case None => None
      case Some(k) => Some(k + 1)
  }

  /** One title of codv02.py's replacement loop: the first title paragraph gives way to a
      "Normal" paragraph holding the content; without a title paragraph nothing changes. */
  function TitleReplaced(ps: seq<Paragraph>, title: string, content: string): (r: seq<Paragraph>)
    ensures |r| == |ps|
  {
    match FirstTitle(ps, title)
    case None => ps
    case Some(i) => ps[..i] + [Paragraph(content, NormalStyle)] + ps[i + 1..]
  }

  /** All titles, in the order of the `extracoes` dict. */
  function TitlesReplaced(ps: seq<Paragraph>, blocks: seq<(string, string)>): (r: seq<Paragraph>)
    ensures |r| == |ps|
    decreases |blocks|
  {
    if blocks == [] then ps
    else
      var last := blocks[|blocks| - 1];
      TitleReplaced(TitlesReplaced(ps, blocks[..|blocks| - 1]), last.0, last.1)
  }

  /** Only the first title paragraph (as `FirstTitle` finds it) is replaced, by the content; every
      other paragraph, later title paragraphs included, is untouched; with no title paragraph the
      body is unchanged. */
  lemma TitleReplacedFirstOnly(ps: seq<Paragraph>, title: string, content: string)
    ensures FirstTitle(ps, title).None? ==> TitleReplaced(ps, title, content) == ps
    ensures FirstTitle(ps, title).Some? ==>
              TitleReplaced(ps, title, content)[FirstTitle(ps, title).value] == Paragraph(content, NormalStyle)
              && forall j :: 0 <= j < |ps| && j != FirstTitle(ps, title).value ==> TitleReplaced(ps, title, content)[j] == ps[j]
  {
    if FirstTitle(ps, title).Some? {
      var i := FirstTitle(ps, title).value;
      var r := TitleReplaced(ps, title, content);
      assert r == ps[..i] + [Paragraph(content, NormalStyle)] + ps[i + 1..];
      forall j | 0 <= j < |ps| && j != i
        ensures r[j] == ps[j]
      {
        if j < i {
          assert r[j] == ps[..i][j];
        } else {
          assert r[j] == ps[i + 1..][j - i - 1];
        }
      }
    }
  }

  /** A body without any of the titles comes through the replacement loop unchanged. */
  lemma {:induction false} TitlesAbsentUnchanged(ps: seq<Paragraph>, blocks: seq<(string, string)>)
    requires forall k, j :: 0 <= k < |blocks| && 0 <= j < |ps| ==> !IsTitle(ps[j], blocks[k].0)
    ensures TitlesReplaced(ps, blocks) == ps
    decreases |blocks|
  {
    if blocks != [] {
      TitlesAbsentUnchanged(ps, blocks[..|blocks| - 1]);
    }
  }

  /** After the replacement loop every paragraph is the template's paragraph at the same place or
      a "Normal" paragraph holding one of the contents. */
  lemma {:induction false} TitlesReplacedParagraphs(ps: seq<Paragraph>, blocks: seq<(string, string)>)
    ensures forall j :: 0 <= j < |ps| ==>
              TitlesReplaced(ps, blocks)[j] == ps[j]
              || exists k :: 0 <= k < |blocks| && TitlesReplaced(ps, blocks)[j] == Paragraph(blocks[k].1, NormalStyle)
    decreases |blocks|
  {
    if blocks != [] {
      var init := blocks[..|blocks| - 1];
      TitlesReplacedParagraphs(ps, init);
      var before := TitlesReplaced(ps, init);
      var last := blocks[|blocks| - 1];
      TitleReplacedFirstOnly(before, last.0, last.1);
      forall j | 0 <= j < |ps| && TitlesReplaced(ps, blocks)[j] != ps[j]
        ensures exists k :: 0 <= k < |blocks| && TitlesReplaced(ps, blocks)[j] == Paragraph(blocks[k].1, NormalStyle)
      {
        if TitlesReplaced(ps, blocks)[j] == before[j] {
          var k :| 0 <= k < |init| && before[j] == Paragraph(init[k].1, NormalStyle);
          assert blocks[k] == init[k];
        } else {
          assert TitlesReplaced(ps, blocks)[j] == Paragraph(blocks[|blocks| - 1].1, NormalStyle);
        }
      }
    }
  }

  // ---------------------------------------------------------------- the document object

  /** A python-docx `Document` opened on a template. */
  class Document {
    var paragraphs: seq<Paragraph>

    /** `Document(modelo_path)` */
    constructor(template: seq<Paragraph>)
      ensures paragraphs == template
    {
      paragraphs := template;
    }

    /** The label loop: `para.text = ...` on each paragraph that mentions a label. */
    method Relabel(date: string, reportName: string)
      modifies this
      ensures paragraphs == RelabelAll(old(paragraphs), date, reportName)
    {
      ghost var original := paragraphs;
      for i := 0 to |paragraphs|
        invariant |paragraphs| == |original|
        invariant forall j :: 0 <= j < i ==> paragraphs[j] == Relabelled(original[j], date, reportName)
        invariant forall j :: i <= j < |paragraphs| ==> paragraphs[j] == original[j]
      {
        paragraphs := paragraphs[i := Relabelled(paragraphs[i], date, reportName)];
      }
    }

    /** The inner loop of codv02.py for one title: insert the content before the first title
      paragraph, give it the "Normal" style, remove the title paragraph, `break`. */
    method ReplaceTitle(title: string, content: string)
      modifies this
      ensures paragraphs == TitleReplaced(old(paragraphs), title, content)
    {
      var i := 0;
      while i < |paragraphs|
        invariant 0 <= i <= |paragraphs|
        invariant paragraphs == old(paragraphs)
        invariant forall j :: 0 <= j < i ==> !IsTitle(paragraphs[j], title)
      {
        if IsTitle(paragraphs[i], title) {
          paragraphs := paragraphs[..i] + [Paragraph(content, NormalStyle)] + paragraphs[i + 1..];
          return;
        }
        i := i + 1;
      }
    }

    /** `add_page_break()` */
    method AddPageBreak()
      modifies this
      ensures paragraphs == old(paragraphs) + [PageBreak]
    {
      paragraphs := paragraphs + [PageBreak];
    }

    /** `add_heading(text, level=1)` */
    method AddHeading(text: string)
      modifies this
      ensures paragraphs == old(paragraphs) + [Paragraph(text, Heading1)]
    {
      paragraphs := paragraphs + [Paragraph(text, Heading1)];
    }

    /** `add_paragraph(text)` followed, when the caller sets one, by `.style = style`. */
    method AddParagraph(text: string, style: Style)
      modifies this
      ensures paragraphs == old(paragraphs) + [Paragraph(text, style)]
    {
      paragraphs := paragraphs + [Paragraph(text, style)];
    }
  }
}
