/** JSON values as the metadata code walks them. */
module Json {
  datatype Member = Member(key: string, value: Json)

  datatype Json = Null
                | Bool(b: bool)
                | Num(n: real)
                | Str(s: string)
                | Arr(items: seq<Json>)
                | Obj(members: seq<Member>)
}
