/**
 * The text export format (SimpleSelectionExport/SimpleSelectionExport.cs, the Text branch of
 * ExportItems). Each record becomes one block: the verbatim interpolated literal (five labelled
 * lines and a line of 58 dashes, each ended by the literal's own line break `nl`) followed by the
 * line terminator `eol` that WriteLine appends. Values are inserted with no escaping.
 */
module TextFormat {
  import opened Records

  /** The labels that open the five lines. */
  const TitleLabel: string := "Title: "
  const UsernameLabel: string := "Username: "
  const PasswordLabel: string := "Password: "
  const UrlLabel: string := "Url: "
  const NotesLabel: string := "Notes: "

  /** The separator line of the literal: 58 dashes. */
  const Dashes: string := "----------------------------------------------------------"

  lemma DashesLength()
    ensures |Dashes| == 58
  {
  }

  /** The interpolated literal for one record: five labelled lines and the separator line. */
  function TextPattern(r: BasicExportEntry, nl: string): string
  {
    TitleLabel + r.Title + nl
    + UsernameLabel + r.Username + nl
    + PasswordLabel + r.Password + nl
    + UrlLabel + r.Url + nl
    + NotesLabel + r.Notes + nl
    + Dashes + nl
  }

  /** One record's text block: the literal, then the terminator WriteLine appends. */
  function Block(r: BasicExportEntry, nl: string, eol: string): string
  {
    TextPattern(r, nl) + eol
  }

  /** The blocks of records, one per record, in order. */
  function Blocks(rs: seq<BasicExportEntry>, nl: string, eol: string): seq<string>
  {
    seq(|rs|, i requires 0 <= i < |rs| => Block(rs[i], nl, eol))
  }

  /** Strings joined end to end, in order. */
  function Concat(parts: seq<string>): string
  {
    if parts == [] then "" else parts[0] + Concat(parts[1..])
  }

  /** The text export of records: their blocks, concatenated in order. */
  function TextExport(rs: seq<BasicExportEntry>, nl: string, eol: string): string
  {
    Concat(Blocks(rs, nl, eol))
  }

  // ---- A line-oriented reading of a block ----

  /** The six lines of the literal, in order, without their line breaks. */
  function Lines(r: BasicExportEntry): seq<string>
  {
    [TitleLabel + r.Title, UsernameLabel + r.Username, PasswordLabel + r.Password,
     UrlLabel + r.Url, NotesLabel + r.Notes, Dashes]
  }

  /** Lines each followed by a line break. */
  function Terminated(lines: seq<string>, nl: string): string
  {
    if lines == [] then "" else Terminated(lines[..|lines| - 1], nl) + lines[|lines| - 1] + nl
  }

  lemma {:induction false} TerminatedAppend(a: seq<string>, b: seq<string>, nl: string)
    ensures Terminated(a + b, nl) == Terminated(a, nl) + Terminated(b, nl)
  {
    if b == [] {
      assert a + b == a;
    } else {
      var last := b[|b| - 1];
      assert (a + b)[..|a + b| - 1] == a + b[..|b| - 1];
      TerminatedAppend(a, b[..|b| - 1], nl);
      AppendAssoc3(Terminated(a, nl), Terminated(b[..|b| - 1], nl), last + nl);
      AppendAssoc3(Terminated(a, nl) + Terminated(b[..|b| - 1], nl), last, nl);
      AppendAssoc3(Terminated(b[..|b| - 1], nl), last, nl);
    }
  }

  lemma AppendAssoc3(a: string, b: string, c: string)
    ensures a + (b + c) == a + b + c
  {
  }

  /** Helper: one more line, given as a label and a value, ends the terminated lines. */
  lemma TerminatedSnoc(lines: seq<string>, l: string, v: string, nl: string, prefix: string)
    requires Terminated(lines, nl) == prefix
    ensures Terminated(lines + [l + v], nl) == prefix + l + v + nl
  {
    assert (lines + [l + v])[..|lines|] == lines;
    AppendAssoc3(prefix, l, v);
  }

  /** The shape of a block over arbitrary labels, values and separator (no literals involved). */
  lemma LayoutIsLines(l0: string, v0: string, l1: string, v1: string, l2: string, v2: string,
                      l3: string, v3: string, l4: string, v4: string, sep: string, nl: string)
    ensures Terminated([l0 + v0, l1 + v1, l2 + v2, l3 + v3, l4 + v4, sep], nl)
      == l0 + v0 + nl + l1 + v1 + nl + l2 + v2 + nl + l3 + v3 + nl + l4 + v4 + nl + sep + nl
  {
    TerminatedSnoc([], l0, v0, nl, "");
    assert [] + [l0 + v0] == [l0 + v0];
    var p0 := l0 + v0 + nl;
    TerminatedSnoc([l0 + v0], l1, v1, nl, p0);
    assert [l0 + v0] + [l1 + v1] == [l0 + v0, l1 + v1];
    var p1 := p0 + l1 + v1 + nl;
    TerminatedSnoc([l0 + v0, l1 + v1], l2, v2, nl, p1);
    assert [l0 + v0, l1 + v1] + [l2 + v2] == [l0 + v0, l1 + v1, l2 + v2];
    var p2 := p1 + l2 + v2 + nl;
    TerminatedSnoc([l0 + v0, l1 + v1, l2 + v2], l3, v3, nl, p2);
    assert [l0 + v0, l1 + v1, l2 + v2] + [l3 + v3] == [l0 + v0, l1 + v1, l2 + v2, l3 + v3];
    var p3 := p2 + l3 + v3 + nl;
    TerminatedSnoc([l0 + v0, l1 + v1, l2 + v2, l3 + v3], l4, v4, nl, p3);
    assert [l0 + v0, l1 + v1, l2 + v2, l3 + v3] + [l4 + v4] == [l0 + v0, l1 + v1, l2 + v2, l3 + v3, l4 + v4];
    var p4 := p3 + l4 + v4 + nl;
    assert sep + "" == sep;
    TerminatedSnoc([l0 + v0, l1 + v1, l2 + v2, l3 + v3, l4 + v4], sep, "", nl, p4);
    assert [l0 + v0, l1 + v1, l2 + v2, l3 + v3, l4 + v4] + [sep + ""] == [l0 + v0, l1 + v1, l2 + v2, l3 + v3, l4 + v4, sep];
  }

  /**
   * A block is the six lines of the literal, each ended by the literal's line break, and then
   * WriteLine's terminator; when both line breaks are the same, it is seven lines, the last blank.
   */
  lemma BlockIsLines(r: BasicExportEntry, nl: string, eol: string)
    ensures |Lines(r)| == 6 && Lines(r)[5] == Dashes
    ensures Block(r, nl, eol) == Terminated(Lines(r), nl) + eol
    ensures Block(r, nl, nl) == Terminated(Lines(r) + [""], nl)
  {
    LayoutIsLines(TitleLabel, r.Title, UsernameLabel, r.Username, PasswordLabel, r.Password,
                  UrlLabel, r.Url, NotesLabel, r.Notes, Dashes, nl);
    TerminatedAppend(Lines(r), [""], nl);
    assert Terminated([""], nl) == "" + nl + Terminated([], nl);
  }

  // ---- Values are copied verbatim ----

  /** The five labels, in the order of the record's properties. */
  const Labels: seq<string> := [TitleLabel, UsernameLabel, PasswordLabel, UrlLabel, NotesLabel]

  /** Line k of a block, for each of the five properties, is its label followed by its value. */
  lemma LinesAreLabelledFields(r: BasicExportEntry)
    ensures |Lines(r)| == |Labels| + 1 == |Fields(r)| + 1
    ensures forall k :: 0 <= k < |Labels| ==> Lines(r)[k] == Labels[k] + Fields(r)[k]
  {
  }

  /** Over arbitrary lines: terminated lines split around line k, given as a label and a value. */
  lemma TerminatedAround(ls: seq<string>, k: nat, lab: string, val: string, nl: string)
    requires k < |ls| && ls[k] == lab + val
    ensures Terminated(ls, nl)
      == Terminated(ls[..k], nl) + lab + val + nl + Terminated(ls[k + 1..], nl)
  {
    assert ls == ls[..k] + [ls[k]] + ls[k + 1..];
    TerminatedAppend(ls[..k] + [ls[k]], ls[k + 1..], nl);
    TerminatedAppend(ls[..k], [ls[k]], nl);
    assert [ls[k]][..0] == [];
    assert Terminated([ls[k]], nl) == ls[k] + nl;
    AppendAssoc3(Terminated(ls[..k], nl), ls[k], nl);
    AppendAssoc3(Terminated(ls[..k], nl), lab, val);
  }

  /**
   * Every value is copied verbatim into its block, right after its label: the block is the lines
   * before it, the label, the value itself (whatever line breaks or dashes it holds), a line
   * break, the lines after it and the terminator.
   */
  lemma BlockFieldVerbatim(r: BasicExportEntry, k: nat, nl: string, eol: string)
    requires k < |Labels|
    ensures Block(r, nl, eol)
      == Terminated(Lines(r)[..k], nl) + Labels[k] + Fields(r)[k] + nl + Terminated(Lines(r)[k + 1..], nl) + eol
  {
    BlockIsLines(r, nl, eol);
    LinesAreLabelledFields(r);
    TerminatedAround(Lines(r), k, Labels[k], Fields(r)[k], nl);
  }

  /** Over arbitrary strings: a line break and the last label moved from one value into the next. */
  lemma LayoutShift(q: string, n: string, nl: string, d: string, eol: string)
    ensures q + (nl + n) + nl + n + "" + nl + d + nl + eol == q + "" + nl + n + (nl + n) + nl + d + nl + eol
  {
  }

  /**
   * Because values are not escaped, a block does not determine its record: for every choice of
   * line breaks there are two different records with the same block (a Url holding a line break
   * and the Notes label reads like an empty Url followed by Notes).
   */
  lemma BlockNotInjective(nl: string, eol: string)
    ensures exists r1: BasicExportEntry, r2: BasicExportEntry :: r1 != r2 && Block(r1, nl, eol) == Block(r2, nl, eol)
  {
    var moved := nl + NotesLabel;
    var r1 := BasicExportEntry("", "", "", moved, "");
    var r2 := BasicExportEntry("", "", "", "", moved);
    assert r1.Url != r2.Url by { assert |NotesLabel| == 7; }
    var q := TitleLabel + "" + nl + UsernameLabel + "" + nl + PasswordLabel + "" + nl + UrlLabel;
    LayoutShift(q, NotesLabel, nl, Dashes, eol);
    assert Block(r1, nl, eol) == Block(r2, nl, eol);
  }

  // ---- The export is one block per record, in order ----

  lemma {:induction false} ConcatAppend(a: seq<string>, b: seq<string>)
    ensures Concat(a + b) == Concat(a) + Concat(b)
  {
    if a == [] {
      assert a + b == b;
    } else {
      assert (a + b)[1..] == a[1..] + b;
      ConcatAppend(a[1..], b);
    }
  }

  lemma ConcatAt(parts: seq<string>, i: nat)
    requires i < |parts|
    ensures Concat(parts) == Concat(parts[..i]) + parts[i] + Concat(parts[i + 1..])
  {
    assert parts == parts[..i] + parts[i..];
    ConcatAppend(parts[..i], parts[i..]);
    assert parts[i..][1..] == parts[i + 1..];
    assert Concat(parts[i..]) == parts[i] + Concat(parts[i + 1..]);
    AppendAssoc3(Concat(parts[..i]), parts[i], Concat(parts[i + 1..]));
  }

  /** Taking blocks commutes with concatenating and slicing the records. */
  lemma BlocksSlices(rs: seq<BasicExportEntry>, i: nat, nl: string, eol: string)
    requires i <= |rs|
    ensures Blocks(rs[..i], nl, eol) == Blocks(rs, nl, eol)[..i]
    ensures Blocks(rs[i..], nl, eol) == Blocks(rs, nl, eol)[i..]
  {
  }

  lemma BlocksAppend(a: seq<BasicExportEntry>, b: seq<BasicExportEntry>, nl: string, eol: string)
    ensures Blocks(a + b, nl, eol) == Blocks(a, nl, eol) + Blocks(b, nl, eol)
  {
  }

  /** Exporting two selections one after the other is exporting their concatenation. */
  lemma TextExportAppend(a: seq<BasicExportEntry>, b: seq<BasicExportEntry>, nl: string, eol: string)
    ensures TextExport(a + b, nl, eol) == TextExport(a, nl, eol) + TextExport(b, nl, eol)
  {
    BlocksAppend(a, b, nl, eol);
    ConcatAppend(Blocks(a, nl, eol), Blocks(b, nl, eol));
  }

  /** Exporting nothing produces nothing; exporting one record produces exactly its block. */
  lemma TextExportSingle(r: BasicExportEntry, nl: string, eol: string)
    ensures TextExport([], nl, eol) == ""
    ensures TextExport([r], nl, eol) == Block(r, nl, eol)
  {
    var bs := Blocks([r], nl, eol);
    assert bs == [Block(r, nl, eol)];
    assert bs[1..] == [];
  }

  /**
   * The output for records rs is the output for the records before i, then exactly the block of
   * record i, then the output for the records after it.
   */
  lemma BlockAt(rs: seq<BasicExportEntry>, i: nat, nl: string, eol: string)
    requires i < |rs|
    ensures TextExport(rs, nl, eol)
      == TextExport(rs[..i], nl, eol) + Block(rs[i], nl, eol) + TextExport(rs[i + 1..], nl, eol)
  {
    BlocksSlices(rs, i, nl, eol);
    BlocksSlices(rs, i + 1, nl, eol);
    ConcatAt(Blocks(rs, nl, eol), i);
  }
}
