/**
 * Documents as the service moves them around: JSON-shaped Python dictionaries,
 * the same shape the document store keeps and the scraper prints.
 */
module Documents {

  /** One JSON value: what a dictionary entry of a page document can hold. */
  datatype Value =
    | Null
    | Bool(b: bool)
    | Int(i: int)
    | Str(s: string)
    | List(items: seq<Value>)
    | Object(fields: map<string, Value>)

  /** A page document: a dictionary from field name to value. */
  type Document = map<string, Value>

  /** The whole collection of page documents, keyed by username. */
  type Store = map<string, Document>
}
