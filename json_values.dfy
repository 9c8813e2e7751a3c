/**
 JSON values as the validator hands them to a custom keyword: the output of
 `encoding/json` decoding with numbers kept as number tokens. A number is an
 exact rational here; the float64 conversion the Go code applies is not modelled.
 */
module JsonValues {

  datatype Json =
    | Null
    | Bool(b: bool)
    | Num(n: real)
    | Str(s: string)
    | Arr(elems: seq<Json>)
    | Obj(members: map<string, Json>)
}
