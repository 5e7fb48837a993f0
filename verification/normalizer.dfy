/**
 * Reading an entry into an export record (SimpleSelectionExport/SimpleSelectionExport.cs,
 * getRawValue and GetExportRecordFromEntry). An entry's string dictionary is a map from field
 * name to its (already decrypted) plaintext value.
 */
module Normalizer {
  import opened Wrappers
  import opened Records

  /** The string fields of a KeePass entry, keyed by field name. */
  type Entry = map<string, string>

  /** The standard field names used for the five lookups. */
  const TitleField: string := "Title"
  const UserNameField: string := "UserName"
  const PasswordField: string := "Password"
  const UrlField: string := "URL"
  const NotesField: string := "Notes"

  const CanonicalFields: set<string> := {TitleField, UserNameField, PasswordField, UrlField, NotesField}

  /** The five field names are pairwise distinct. */
  lemma CanonicalFieldsDistinct()
    ensures |CanonicalFields| == 5
  {
  }

  /** The dictionary lookup: None where the C# lookup yields null. */
  function Get(entry: Entry, field: string): (v: Option<string>)
    ensures v.Some? <==> field in entry
  {
    if field in entry then Some(entry[field]) else None
  }

  /** The value of a field, or the empty string when the entry has none. */
  function GetRawValue(entry: Entry, field: string): (v: string)
    ensures field !in entry ==> v == ""
    ensures field in entry ==> v == entry[field]
  {
    match Get(entry, field)
    case None => ""
    case Some(s) => s
  }

  /** The export record of an entry: five lookups, stored positionally. */
  function GetExportRecordFromEntry(entry: Entry): (r: BasicExportEntry)
    ensures TitleField in entry ==> r.Title == entry[TitleField]
    ensures TitleField !in entry ==> r.Title == ""
    ensures UserNameField in entry ==> r.Username == entry[UserNameField]
    ensures UserNameField !in entry ==> r.Username == ""
    ensures PasswordField in entry ==> r.Password == entry[PasswordField]
    ensures PasswordField !in entry ==> r.Password == ""
    ensures UrlField in entry ==> r.Url == entry[UrlField]
    ensures UrlField !in entry ==> r.Url == ""
    ensures NotesField in entry ==> r.Notes == entry[NotesField]
    ensures NotesField !in entry ==> r.Notes == ""
  {
    var title := GetRawValue(entry, TitleField);
    var username := GetRawValue(entry, UserNameField);
    var password := GetRawValue(entry, PasswordField);
    var url := GetRawValue(entry, UrlField);
    var notes := GetRawValue(entry, NotesField);
    BasicExportEntry(title, username, password, url, notes)
  }

  /** The entry holding exactly a record's five values under the five field names. */
  function ToEntry(r: BasicExportEntry): (e: Entry)
    ensures e.Keys == CanonicalFields
  {
    map[TitleField := r.Title, UserNameField := r.Username, PasswordField := r.Password,
        UrlField := r.Url, NotesField := r.Notes]
  }

  /** Reading back an entry built from a record gives that record, field for field. */
  lemma NormalizeRoundTrip(r: BasicExportEntry)
    ensures GetExportRecordFromEntry(ToEntry(r)) == r
  {
  }

  /** An entry with no string fields normalises to five empty strings. */
  lemma NormalizeEmptyEntry()
    ensures GetExportRecordFromEntry(map[]) == BasicExportEntry("", "", "", "", "")
  {
  }

  /** Normalising is idempotent: re-normalising the entry of a normalised record changes nothing. */
  lemma NormalizeIdempotent(e: Entry)
    ensures GetExportRecordFromEntry(ToEntry(GetExportRecordFromEntry(e))) == GetExportRecordFromEntry(e)
  {
  }

  /** Entries that agree on the five field names give the same record: other fields are ignored. */
  lemma NormalizeReadsOnlyCanonicalFields(e1: Entry, e2: Entry)
    requires forall f :: f in CanonicalFields ==> Get(e1, f) == Get(e2, f)
    ensures GetExportRecordFromEntry(e1) == GetExportRecordFromEntry(e2)
  {
  }

  /** Adding or replacing a field outside the five does not change the record. */
  lemma NormalizeIgnoresOtherField(e: Entry, k: string, v: string)
    requires k !in CanonicalFields
    ensures GetExportRecordFromEntry(e[k := v]) == GetExportRecordFromEntry(e)
  {
  }
}
