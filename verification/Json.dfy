/** JSON values as cJSON presents them. */
module Json {
  import opened Options

  datatype Value =
    | Null
    | Bool(b: bool)
    | Number(text: string)
    | Text(s: string)
    | Array(items: seq<Value>)
    | Object(members: seq<Member>)

  datatype Member = Member(name: string, value: Value)

  function Lower(c: char): char {
    if 'A' <= c <= 'Z' then ((c as int) + 32) as char else c
  }

  /** cJSON_GetObjectItem compares names without regard to case. */
  predicate SameName(a: string, b: string) {
    |a| == |b| && forall i :: 0 <= i < |a| ==> Lower(a[i]) == Lower(b[i])
  }

  function FirstNamed(members: seq<Member>, name: string): (r: Option<Value>)
    ensures r.Some? ==> exists i :: 0 <= i < |members| && members[i].value == r.value
  {
    if members == [] then None
    else if SameName(members[0].name, name) then Some(members[0].value)
    else FirstNamed(members[1..], name)
  }

  /** The member of that name, if it is an object and has one; it is a part of the object. */
  function Item(v: Value, name: string): (r: Option<Value>)
    ensures r.Some? ==> r.value < v
  {
    if v.Object? then FirstNamed(v.members, name) else None
  }

  /** jStr: the string of that name, or the empty string. */
  function StringItem(v: Value, name: string): string {
    match Item(v, name)
    case Some(Text(s)) => s
    case _ => ""
  }
}
