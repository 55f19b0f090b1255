/** Nested values as parsed or built by a program. */
module JsonValues {
  datatype Atom = Null | Bool(b: bool) | Number(n: real) | Text(s: string)

  /** An object is its entries in insertion order; an entry may be present and undefined. */
  datatype Json = Undefined | Leaf(atom: Atom) | Array(items: seq<Json>) | Object(entries: seq<Entry>)

  datatype Entry = Entry(key: string, value: Json)

  predicate DistinctKeys(entries: seq<Entry>) {
    forall i, j | 0 <= i < j < |entries| :: entries[i].key != entries[j].key
  }

  /** A value that a parser or program can build: no object repeats a key. */
  ghost predicate Proper(v: Json) {
    match v
    case Undefined => true
    case Leaf(_) => true
    case Array(items) => forall i | 0 <= i < |items| :: Proper(items[i])
    case Object(entries) => DistinctKeys(entries) && forall i | 0 <= i < |entries| :: Proper(entries[i].value)
  }
}
