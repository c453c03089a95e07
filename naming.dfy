/** Collision-free output names. `salvar_versao` keeps a path that does not exist yet and otherwise
    numbers it `{base}_versão_{NN}{ext}` from 02 up; `verificar_ou_renomear_arquivo` names the
    renamed template `{base}_v0{i}{ext}` from i = 2 up when the `.zip` name is taken. The file
    system is the set of paths that exist; `os.path.exists` is membership. */
module Naming {
  import opened PyText

  const VersionTag := "_versão_"
  const AlternateTag := "_v0"

  /** `s.rfind(c)`: the last index of `c` in `s`, or -1 when there is none. */
  function LastIndex(s: string, c: char): (r: int)
    ensures -1 <= r < |s|
    ensures r >= 0 ==> s[r] == c
    ensures forall j :: r < j < |s| ==> s[j] != c
    decreases |s|
  {
    if s == [] then -1
    else if s[|s| - 1] == c then |s| - 1
    else LastIndex(s[..|s| - 1], c)
  }

  /** `os.path.splitext` with the POSIX separator: the extension runs from the last '.' that comes
      after the last '/', provided the file name has a character other than '.' before it;
      otherwise there is no extension. */
  function SplitExt(p: string): (r: (string, string))
    ensures r.0 + r.1 == p
    ensures r.1 == [] || (r.1[0] == '.' && forall j :: 1 <= j < |r.1| ==> r.1[j] != '.' && r.1[j] != '/')
  {
    var sep := LastIndex(p, '/');
    var dot := LastIndex(p, '.');
    if dot > sep && exists k :: sep < k < dot && p[k] != '.' then
      assert forall j :: 1 <= j < |p[dot..]| ==> p[dot..][j] == p[dot + j];
      (p[..dot], p[dot..])
    else
      (p, [])
  }

  /** `f"{base}_versão_{versao:02}{ext}"` */
  function VersionedPath(p: string, n: nat): string {
    SplitExt(p).0 + VersionTag + Pad2(n) + SplitExt(p).1
  }

  /** `f'{base}_v0{i}{ext}'` */
  function AlternatePath(p: string, i: nat): string {
    SplitExt(p).0 + AlternateTag + Decimal(i) + SplitExt(p).1
  }

  lemma CancelAround(x: string, m1: string, m2: string, e: string)
    requires x + m1 + e == x + m2 + e
    ensures m1 == m2
  {
    var s := x + m1 + e;
    assert m1 == s[|x|..|s| - |e|];
    assert m2 == (x + m2 + e)[|x|..|s| - |e|];
  }

  /** Distinct version numbers give distinct names. */
  lemma VersionedPathInjective(p: string, n: nat, m: nat)
    requires VersionedPath(p, n) == VersionedPath(p, m)
    ensures n == m
  {
    CancelAround(SplitExt(p).0 + VersionTag, Pad2(n), Pad2(m), SplitExt(p).1);
    Pad2RoundTrip(n);
    Pad2RoundTrip(m);
  }

  /** Distinct counters give distinct names. */
  lemma AlternatePathInjective(p: string, i: nat, j: nat)
    requires AlternatePath(p, i) == AlternatePath(p, j)
    ensures i == j
  {
    CancelAround(SplitExt(p).0 + AlternateTag, Decimal(i), Decimal(j), SplitExt(p).1);
    DecimalRoundTrip(i);
    DecimalRoundTrip(j);
  }

  /** A run of `n - lo` distinct names that all exist needs at least that many existing paths:
      the reason the counter loops stop on a finite file system. */
  lemma {:induction false} InjectiveRunBound(f: nat -> string, existing: set<string>, lo: nat, n: nat)
    requires lo <= n
    requires forall i, j :: lo <= i < j < n ==> f(i) != f(j)
    requires forall k :: lo <= k < n ==> f(k) in existing
    ensures n - lo <= |existing|
    decreases n - lo
  {
    if lo < n {
      InjectiveRunBound(f, existing - {f(n - 1)}, lo, n - 1);
    }
  }

  lemma VersionsBound(existing: set<string>, p: string, n: nat)
    requires 2 <= n
    requires forall k :: 2 <= k < n ==> VersionedPath(p, k) in existing
    ensures n - 2 <= |existing|
  {
    var f := (k: nat) => VersionedPath(p, k);
    forall i, j | 2 <= i < j < n
      ensures f(i) != f(j)
    {
      if f(i) == f(j) {
        VersionedPathInjective(p, i, j);
      }
    }
    InjectiveRunBound(f, existing, 2, n);
  }

  lemma AlternatesBound(existing: set<string>, p: string, n: nat)
    requires 2 <= n
    requires forall k :: 2 <= k < n ==> AlternatePath(p, k) in existing
    ensures n - 2 <= |existing|
  {
    var f := (k: nat) => AlternatePath(p, k);
    forall i, j | 2 <= i < j < n
      ensures f(i) != f(j)
    {
      if f(i) == f(j) {
        AlternatePathInjective(p, i, j);
      }
    }
    InjectiveRunBound(f, existing, 2, n);
  }

  /** `salvar_versao`: the path itself when it is free; otherwise the version name with the least
      NN >= 2 that is free, every lower version existing. The result never exists. */
  method SaveVersion(existing: set<string>, path: string) returns (r: string)
    ensures r !in existing
    ensures path !in existing ==> r == path
    ensures path in existing ==>
              exists n: nat :: 2 <= n && r == VersionedPath(path, n)
                && forall k :: 2 <= k < n ==> VersionedPath(path, k) in existing
  {
    if path !in existing {
      return path;
    }
    var n: nat := 2;
    while VersionedPath(path, n) in existing
      invariant 2 <= n
      invariant forall k :: 2 <= k < n ==> VersionedPath(path, k) in existing
      decreases |existing| - (n - 2)
    {
      VersionsBound(existing, path, n + 1);
      n := n + 1;
    }
    return VersionedPath(path, n);
  }

  /** The name `verificar_ou_renomear_arquivo` renames the template to: the `.zip` name when it is
      free; otherwise the alternate name with the least i >= 2 that is free, every lower one
      existing. The result never exists. */
  method RenameTarget(existing: set<string>, zipPath: string) returns (r: string)
    ensures r !in existing
    ensures zipPath !in existing ==> r == zipPath
    ensures zipPath in existing ==>
              exists i: nat :: 2 <= i && r == AlternatePath(zipPath, i)
                && forall k :: 2 <= k < i ==> AlternatePath(zipPath, k) in existing
  {
    if zipPath !in existing {
      return zipPath;
    }
    var i: nat := 2;
    while AlternatePath(zipPath, i) in existing
      invariant 2 <= i
      invariant forall k :: 2 <= k < i ==> AlternatePath(zipPath, k) in existing
      decreases |existing| - (i - 2)
    {
      AlternatesBound(existing, zipPath, i + 1);
      i := i + 1;
    }
    return AlternatePath(zipPath, i);
  }

  /** The version that the postcondition of `SaveVersion` describes is unique: no other number is
      free with all lower ones taken. */
  lemma LeastFreeVersionUnique(existing: set<string>, p: string, n: nat, m: nat)
    requires 2 <= n && 2 <= m
    requires VersionedPath(p, n) !in existing && VersionedPath(p, m) !in existing
    requires forall k :: 2 <= k < n ==> VersionedPath(p, k) in existing
    requires forall k :: 2 <= k < m ==> VersionedPath(p, k) in existing
    ensures n == m
  {
  }

  lemma LastIndexAt(s: string, c: char, i: nat)
    requires i < |s| && s[i] == c
    requires forall j :: i < j < |s| ==> s[j] != c
    ensures LastIndex(s, c) == i
  {
  }

  lemma LastIndexNone(s: string, c: char)
    requires forall j :: 0 <= j < |s| ==> s[j] != c
    ensures LastIndex(s, c) == -1
  {
  }

  /** How `splitext` cuts: at the last dot of the file name, not of a directory; a leading dot
      starts a hidden name, not an extension. */
  lemma SplitExtExamples()
    ensures SplitExt("report_doc.docx") == ("report_doc", ".docx")
    ensures SplitExt("out.v1/report") == ("out.v1/report", "")
    ensures SplitExt(".env") == (".env", "")
  {
    ReportDocSplit();
    LastIndexAt("out.v1/report", '/', 6);
    LastIndexAt("out.v1/report", '.', 3);
    LastIndexNone(".env", '/');
    LastIndexAt(".env", '.', 0);
  }

  lemma ReportDocSplit()
    ensures SplitExt("report_doc.docx") == ("report_doc", ".docx")
  {
    LastIndexNone("report_doc.docx", '/');
    LastIndexAt("report_doc.docx", '.', 10);
    assert "report_doc.docx"[0] != '.';
    assert "report_doc.docx"[..10] == "report_doc" && "report_doc.docx"[10..] == ".docx";
  }

  /** The counter is written after a literal "_v0", so the tenth alternate is `_v010`. */
  lemma AlternateTen()
    ensures AlternatePath("R.zip", 10) == "R_v010.zip"
  {
    LastIndexNone("R.zip", '/');
    LastIndexAt("R.zip", '.', 1);
    assert "R.zip"[0] != '.';
    assert Decimal(10) == Decimal(1) + [Digit(0)] == "10";
  }

  lemma ReportDocVersions()
    ensures VersionedPath("report_doc.docx", 2) == "report_doc_versão_02.docx"
    ensures VersionedPath("report_doc.docx", 3) == "report_doc_versão_03.docx"
  {
    ReportDocSplit();
    assert Pad2(2) == "0" + Decimal(2) == "02";
    assert Pad2(3) == "0" + Decimal(3) == "03";
    assert VersionedPath("report_doc.docx", 2) == "report_doc" + VersionTag + "02" + ".docx";
    assert VersionedPath("report_doc.docx", 3) == "report_doc" + VersionTag + "03" + ".docx";
  }

  /** With `report_doc.docx` and its version 02 both present, the next name is version 03. */
  method SaveVersionExample() returns (r: string)
    ensures r == "report_doc_versão_03.docx"
  {
    ReportDocVersions();
    var existing := {"report_doc.docx", "report_doc_versão_02.docx"};
    r := SaveVersion(existing, "report_doc.docx");
    var n: nat :| 2 <= n && r == VersionedPath("report_doc.docx", n)
                   && forall k :: 2 <= k < n ==> VersionedPath("report_doc.docx", k) in existing;
    var v3 := VersionedPath("report_doc.docx", 3);
    assert v3 !in existing;
    LeastFreeVersionUnique(existing, "report_doc.docx", n, 3);
  }
}
