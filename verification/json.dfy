/** JSON documents, as produced by `json.dumps` and `getInfo`.

    A payload in this model is the document itself: `json.dumps` is a
    deterministic, injective printing of a document, so two payload strings
    are equal exactly when their documents are. Objects are maps, so the key
    order `json.dumps` happens to print is not part of the model. */
module Json {

  datatype Value =
    | JNull
    | JBool(b: bool)
    | JInt(i: int)
    | JReal(r: real)
    | JStr(s: string)
    | JArr(elems: seq<Value>)
    | JObj(fields: map<string, Value>)
}
