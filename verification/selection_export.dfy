/**
 * The export flow (SimpleSelectionExport/SimpleSelectionExport.cs, ExportItems): the
 * empty-selection guard, then, once a destination has been opened, either the text loop that
 * writes one block per selected entry or the loop that collects the records handed to the CSV
 * writer.
 */
module SelectionExport {
  import opened Wrappers
  import opened Records
  import opened Normalizer
  import opened TextFormat

  datatype ExportFormat = Text | Csv

  /** A text writer over the opened file: everything written so far, and its line terminator. */
  class StreamWriter {
    const NewLine: string
    var Written: string

    constructor (newLine: string)
      ensures NewLine == newLine && Written == ""
    {
      NewLine := newLine;
      Written := "";
    }

    /** Writes s followed by the line terminator. */
    method WriteLine(s: string)
      modifies this
      ensures Written == old(Written) + s + NewLine
    {
      Written := Written + s + NewLine;
    }
  }

  /** The records of a selection, entry by entry. */
  function NormalizeAll(selection: seq<Entry>): seq<BasicExportEntry>
  {
    seq(|selection|, i requires 0 <= i < |selection| => GetExportRecordFromEntry(selection[i]))
  }

  /** The text the Text branch writes for a selection. */
  function TextOf(selection: seq<Entry>, nl: string, eol: string): string
  {
    TextExport(NormalizeAll(selection), nl, eol)
  }

  /**
   * The Text branch: for each selected entry, in order, normalise it and write its block with
   * WriteLine. `nl` is the line break inside the interpolated literal.
   */
  method WriteText(selection: seq<Entry>, writer: StreamWriter, nl: string)
    modifies writer
    ensures writer.Written == old(writer.Written) + TextOf(selection, nl, writer.NewLine)
  {
    var i := 0;
    while i < |selection|
      invariant 0 <= i <= |selection|
      invariant writer.Written == old(writer.Written) + TextOf(selection[..i], nl, writer.NewLine)
    {
      var simplified := GetExportRecordFromEntry(selection[i]);
      var textPattern := TextPattern(simplified, nl);
      writer.WriteLine(textPattern);
      ghost var done := TextOf(selection[..i], nl, writer.NewLine);
      TextOfStep(selection, i, nl, writer.NewLine);
      AppendAssoc3(old(writer.Written) + done, textPattern, writer.NewLine);
      AppendAssoc3(old(writer.Written), done, textPattern + writer.NewLine);
      i := i + 1;
    }
    assert selection[..i] == selection;
  }

  /** Extending the written prefix of the selection by one entry appends exactly that entry's block. */
  lemma TextOfStep(selection: seq<Entry>, i: nat, nl: string, eol: string)
    requires i < |selection|
    ensures TextOf(selection[..i + 1], nl, eol)
      == TextOf(selection[..i], nl, eol) + Block(GetExportRecordFromEntry(selection[i]), nl, eol)
  {
    var r := GetExportRecordFromEntry(selection[i]);
    assert NormalizeAll(selection[..i + 1]) == NormalizeAll(selection[..i]) + [r];
    TextExportAppend(NormalizeAll(selection[..i]), [r], nl, eol);
    TextExportSingle(r, nl, eol);
  }

  /**
   * The text for a selection is the text for the entries before entry i, then exactly the block
   * of entry i's record, then the text for the entries after it: one block per entry, in order.
   */
  lemma TextOfBlockAt(selection: seq<Entry>, i: nat, nl: string, eol: string)
    requires i < |selection|
    ensures TextOf(selection, nl, eol)
      == TextOf(selection[..i], nl, eol) + Block(GetExportRecordFromEntry(selection[i]), nl, eol)
         + TextOf(selection[i + 1..], nl, eol)
  {
    var rs := NormalizeAll(selection);
    assert NormalizeAll(selection[..i]) == rs[..i];
    assert NormalizeAll(selection[i + 1..]) == rs[i + 1..];
    BlockAt(rs, i, nl, eol);
  }

  /** An empty selection has an empty text. */
  lemma TextOfEmpty(nl: string, eol: string)
    ensures TextOf([], nl, eol) == ""
  {
  }

  /**
   * The CSV branch's list: one record per selected entry, in selection order; the list is then
   * handed whole to the CSV writer.
   */
  method BuildRecords(selection: seq<Entry>) returns (records: seq<BasicExportEntry>)
    ensures |records| == |selection|
    ensures forall i :: 0 <= i < |selection| ==> records[i] == GetExportRecordFromEntry(selection[i])
  {
    records := [];
    for i := 0 to |selection|
      invariant |records| == i
      invariant forall j :: 0 <= j < i ==> records[j] == GetExportRecordFromEntry(selection[j])
    {
      records := records + [GetExportRecordFromEntry(selection[i])];
    }
  }

  /** What an export call did. */
  datatype ExportOutcome =
    | NothingSelected                             // the guard fired: no dialog, nothing written
    | NoDestination                               // the dialog was cancelled or gave no stream
    | TextFile(contents: string)                  // the text written to the file
    | CsvFile(records: seq<BasicExportEntry>)     // the records handed to the CSV writer

  /** A selection that is null or holds no entries. */
  predicate IsEmptySelection(selected: Option<seq<Entry>>)
  {
    selected.None? || |selected.value| == 0
  }

  /**
   * ExportItems. `selected` is what the host reports as selected (None for null);
   * `destinationOpened` is whether the save dialog was confirmed and produced a stream;
   * `nl` is the literal's line break and `newLine` the writer's line terminator.
   */
  method ExportItems(fmt: ExportFormat, selected: Option<seq<Entry>>, destinationOpened: bool,
                     nl: string, newLine: string)
    returns (outcome: ExportOutcome)
    ensures outcome.NothingSelected? <==> IsEmptySelection(selected)
    ensures !IsEmptySelection(selected) && !destinationOpened ==> outcome == NoDestination
    ensures !IsEmptySelection(selected) && destinationOpened && fmt == Text
      ==> outcome == TextFile(TextOf(selected.value, nl, newLine))
    ensures !IsEmptySelection(selected) && destinationOpened && fmt == Csv
      ==> (&& outcome.CsvFile?
           && |outcome.records| == |selected.value|
           && forall i :: 0 <= i < |selected.value| ==> outcome.records[i] == GetExportRecordFromEntry(selected.value[i]))
  {
    if selected.None? || |selected.value| == 0 {
      return NothingSelected;
    }
    var selectedPwEntries := selected.value;
    if !destinationOpened {
      return NoDestination;
    }
    var streamWriter := new StreamWriter(newLine);
    if fmt == Text {
      WriteText(selectedPwEntries, streamWriter, nl);
      outcome := TextFile(streamWriter.Written);
    } else {
      var records := BuildRecords(selectedPwEntries);
      outcome := CsvFile(records);
    }
  }
}
