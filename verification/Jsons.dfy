/** JSON values, and a codec known only by its law. */
module Jsons {
  import opened Options

  datatype Json =
    | Null
    | Bool(b: bool)
    | Num(n: int)
    | Str(s: string)
    | Arr(items: seq<Json>)
    | Obj(fields: map<string, Json>)

  /** `parse` ignores blanks around the text, and refuses a blank text. */
  datatype Codec = Codec(write: Json -> string, parse: string -> Option<Json>)

  ghost predicate Lawful(c: Codec) {
    forall v :: c.parse(c.write(v)) == Some(v)
  }

  function Field(fields: map<string, Json>, name: string): Option<Json> {
    if name in fields then Some(fields[name]) else None
  }

  function TextField(fields: map<string, Json>, name: string): Option<string> {
    if name in fields && fields[name].Str? then Some(fields[name].s) else None
  }
}
