/** The process-wide configuration of the feed: the Airtable base and the ordered source registry. */
module Config {
  import opened Wrappers

  /** Python truthiness of an optional string: present and non-empty. */
  predicate Truthy(s: Option<string>) {
    s.Some? && s.value != ""
  }

  /** One registry entry: a section name mapped to a table and an optional view. */
  datatype Source = Source(name: string, table: string, view: Option<string>)

  /** The hard-coded Airtable base identifier. */
  const BaseId: string := "appW2SWPgF4UpXNlX"

  /** The source registry in declaration order (the other entries are commented out in the source). */
  const Registry: seq<Source> := [Source("Inspiration", "tbl7X4PErUG8qyhDz", Some("API Full"))]
}
