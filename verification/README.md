# SimpleSelectionExport, modelled in Dafny

SimpleSelectionExport is a KeePass plugin. It exports the entries the user has selected to a
text file or a CSV file. This project models the plugin's core:

- **The export record** (`Records`, from `BasicExportEntry.cs`). `BasicExportEntry` is an
  immutable value of five strings: Title, Username, Password, Url and Notes. The C# class has a
  constructor and five get-only properties, so here it is a datatype.
- **The record normaliser** (`Normalizer`). `getRawValue` reads one string field of an entry, or
  gives `""` when the entry lacks it. `GetExportRecordFromEntry` reads the five standard fields
  into a record. An entry's string dictionary is a `map<string, string>`. Its values are already
  decrypted plaintext.
- **The text format** (`TextFormat`). For each record, the Text branch of `ExportItems` writes a
  verbatim interpolated literal with `WriteLine`: five labelled lines, then a line of 58 dashes.
  `TextPattern` is that literal. `Block` is the literal plus the terminator `WriteLine` appends.
  `TextExport` is the concatenation of the blocks. Two line breaks are kept as parameters:
  - `nl` is the line break inside the literal. It comes from the source file's line endings.
  - `eol` (`StreamWriter.NewLine`) is the terminator `WriteLine` appends, `Environment.NewLine`.
- **The export flow** (`SelectionExport`). `ExportItems` first applies the empty-selection guard.
  It then runs one of two branches. The text branch is a loop of `WriteLine` calls on a
  `StreamWriter` class whose `Written` field accumulates the file's text. The CSV branch is the
  loop that builds the record list handed to the CSV writer.

The lemmas state what the code promises:
- an absent field reads as `""` and a present one is copied unchanged;
- normalisation inverts `ToEntry`, is idempotent and ignores every other field;
- a block is six lines ended by `nl`, then `eol` (seven lines, the last blank, when the two
  line breaks are equal);
- each value sits in its block right after its label, copied verbatim;
- because nothing is escaped, two different records can produce the same block;
- the export of a selection is its blocks in selection order, and block `i` sits between the
  export of the entries before it and the export of those after it;
- the CSV list has one record per entry, record `i` being entry `i` normalised.

## Model

| member | source | states |
|---|---|---|
| `Records.ConstructorStoresArguments` | SimpleSelectionExport/BasicExportEntry.cs:7-14 | each constructor argument is stored, untransformed and unvalidated, in its same-named property (title→Title, …, notes→Notes) |
| `Records.FromFields` | SimpleSelectionExport/BasicExportEntry.cs:16-24 | five values given in declaration order build the record whose properties list back exactly those values |
| `Records.FieldsRoundTrip` | SimpleSelectionExport/BasicExportEntry.cs:16-24 | a record is rebuilt exactly from its five property values |
| `Records.FieldsInjective` | SimpleSelectionExport/BasicExportEntry.cs:16-24 | two records with the same five values are equal: a record has no identity beyond its values |
| `Normalizer.CanonicalFieldsDistinct` | SimpleSelectionExport/SimpleSelectionExport.cs:168-172 | the five field names read are pairwise distinct |
| `Normalizer.Get` | SimpleSelectionExport/SimpleSelectionExport.cs:179 | the dictionary lookup yields a value exactly when the entry has the field |
| `Normalizer.GetRawValue` | SimpleSelectionExport/SimpleSelectionExport.cs:177-185 | an absent field reads as the empty string; a present field reads as its stored value, unchanged |
| `Normalizer.GetExportRecordFromEntry` | SimpleSelectionExport/SimpleSelectionExport.cs:165-175 | Title, Username, Password, Url and Notes come from the Title, UserName, Password, URL and Notes fields, positionally; each is the stored value, or `""` when absent |
| `Normalizer.NormalizeRoundTrip` | SimpleSelectionExport/SimpleSelectionExport.cs:165-175 | normalising the entry built from a record gives back that record |
| `Normalizer.NormalizeEmptyEntry` | SimpleSelectionExport/SimpleSelectionExport.cs:180-183 | an entry with no fields normalises to five empty strings |
| `Normalizer.NormalizeIdempotent` | SimpleSelectionExport/SimpleSelectionExport.cs:165-175 | normalising the entry of a normalised record changes nothing |
| `Normalizer.NormalizeReadsOnlyCanonicalFields` | SimpleSelectionExport/SimpleSelectionExport.cs:168-172 | entries that agree on the five standard fields normalise to the same record |
| `Normalizer.NormalizeIgnoresOtherField` | SimpleSelectionExport/SimpleSelectionExport.cs:168-172 | adding or changing any other field does not change the record |
| `TextFormat.DashesLength` | SimpleSelectionExport/SimpleSelectionExport.cs:138 | the separator line is 58 characters long |
| `TextFormat.LayoutIsLines` | SimpleSelectionExport/SimpleSelectionExport.cs:133-139 | for any labels, values and separator, the literal's flat concatenation is the six lines `label+value` and the separator, each followed by the line break |
| `TextFormat.BlockIsLines` | SimpleSelectionExport/SimpleSelectionExport.cs:133-141 | a block is the lines `Title: t`, `Username: u`, `Password: p`, `Url: r`, `Notes: n` and the dash line, each ended by the literal's line break, then WriteLine's terminator; with equal line breaks, seven lines, the last one blank |
| `TextFormat.BlockFieldVerbatim` | SimpleSelectionExport/SimpleSelectionExport.cs:133-141 | for each of the five properties, the block is the lines before its line, its label, the value itself unescaped (whatever line breaks or dashes it holds), the literal's line break, the lines after it and WriteLine's terminator |
| `TextFormat.BlockNotInjective` | SimpleSelectionExport/SimpleSelectionExport.cs:133-139 | since values are not escaped, for every choice of line breaks two different records give the same block (a Url holding a line break and the Notes label) |
| `TextFormat.ConcatAppend` | SimpleSelectionExport/SimpleSelectionExport.cs:129-142 | joining two lists of blocks one after the other is joining their concatenation |
| `TextFormat.TextExportAppend` | SimpleSelectionExport/SimpleSelectionExport.cs:129-142 | the export of two selections in sequence is the export of their concatenation |
| `TextFormat.TextExportSingle` | SimpleSelectionExport/SimpleSelectionExport.cs:129-142 | no records export to nothing; one record exports to exactly its block |
| `TextFormat.BlockAt` | SimpleSelectionExport/SimpleSelectionExport.cs:129-142 | the export is the export of the records before i, then exactly the block of record i, then the export of the records after it |
| `SelectionExport.StreamWriter.constructor` | SimpleSelectionExport/SimpleSelectionExport.cs:124 | a new writer has written nothing and keeps its line terminator |
| `SelectionExport.StreamWriter.WriteLine` | SimpleSelectionExport/SimpleSelectionExport.cs:141 | WriteLine appends its argument and then the line terminator |
| `SelectionExport.WriteText` | SimpleSelectionExport/SimpleSelectionExport.cs:127-142 | the loop appends to what was written exactly the text export of the normalised selection, in selection order |
| `SelectionExport.TextOfStep` | SimpleSelectionExport/SimpleSelectionExport.cs:129-142 | handling one more entry appends exactly that entry's block |
| `SelectionExport.TextOfBlockAt` | SimpleSelectionExport/SimpleSelectionExport.cs:129-142 | the text of a selection is the text of the entries before entry i, then exactly the block of entry i's record, then the text of the entries after it |
| `SelectionExport.TextOfEmpty` | SimpleSelectionExport/SimpleSelectionExport.cs:129-142 | an empty selection has an empty text |
| `SelectionExport.BuildRecords` | SimpleSelectionExport/SimpleSelectionExport.cs:148-153 | the record list has one record per selected entry, record i being entry i normalised |
| `SelectionExport.ExportItems` | SimpleSelectionExport/SimpleSelectionExport.cs:95-163 | a null or empty selection returns before any destination or output; otherwise no destination means nothing written; Text writes the text export of the selection; Csv hands the writer one normalised record per entry, in order |

## Left out

- Plugin lifecycle and menus (`Initialize`, `GetMenuItem`, the enable/disable delegate, the click
  handlers): host and WinForms UI callbacks.
- The save dialog, `OpenFile`, the file path lookup and the `MessageService` messages: UI and
  file I/O. The dialog's result and `OpenFile` returning a stream are one boolean parameter,
  `destinationOpened`. The messages are not modelled.
- `using` disposal and flushing of the writers, the UTF-8 encoding of the output, and I/O
  exceptions thrown while writing. The written text is a `string` that only grows.
- ExportItems: for CSV, the outcome is the record list passed to `CsvWriter.WriteRecords`, not the
  bytes of the file. The header, the quoting and quote-doubling, the delimiter and the row
  terminator all happen inside the CsvHelper library with the invariant culture. CsvHelper is not
  part of this model.
- `ProtectedString.ReadString()` decryption and the `PwEntry` / `PwDefs` internals. The lookup is a
  map lookup over plaintext. `PwDefs` is not part of this model. The five field names are given
  KeePass's standard values ("Title", "UserName", "Password", "URL", "Notes"). Every lemma only
  uses the fact that they are distinct.
- `Environment.NewLine` and the source file's line endings are parameters (`eol`, `nl`), not
  fixed values.
- Error reporting: the code has no typed errors. On an empty selection it shows an information
  message and returns. When no stream is obtained it does nothing. Exceptions raised while
  writing propagate out of the click handler. The model follows the code: `ExportOutcome` tells
  these cases apart, and write failures are not modelled.
