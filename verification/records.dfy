/**
 * The export record (SimpleSelectionExport/BasicExportEntry.cs): an immutable value of five
 * strings. Its constructor stores each argument into the property of the same name, and all
 * five properties are get-only, so a Dafny datatype captures it exactly.
 */
module Records {

  /** The five properties, in the order they are declared. */
  datatype BasicExportEntry = BasicExportEntry(
    Title: string,
    Username: string,
    Password: string,
    Url: string,
    Notes: string)

  /** The constructor stores every argument, untransformed, into its same-named property. */
  lemma ConstructorStoresArguments(title: string, username: string, password: string, url: string, notes: string)
    ensures var r := BasicExportEntry(title, username, password, url, notes);
      && r.Title == title && r.Username == username && r.Password == password
      && r.Url == url && r.Notes == notes
  {
  }

  /** The property values of a record, in declaration order. */
  function Fields(r: BasicExportEntry): seq<string>
  {
    [r.Title, r.Username, r.Password, r.Url, r.Notes]
  }

  /** Builds a record from five values given in declaration order. */
  function FromFields(fs: seq<string>): (r: BasicExportEntry)
    requires |fs| == 5
    ensures Fields(r) == fs
  {
    BasicExportEntry(fs[0], fs[1], fs[2], fs[3], fs[4])
  }

  /** A record has no identity beyond its five values: FromFields inverts Fields. */
  lemma FieldsRoundTrip(r: BasicExportEntry)
    ensures FromFields(Fields(r)) == r
  {
  }

  /** Two records with the same five values are the same record. */
  lemma FieldsInjective(r1: BasicExportEntry, r2: BasicExportEntry)
    requires Fields(r1) == Fields(r2)
    ensures r1 == r2
  {
  }
}
