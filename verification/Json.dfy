/** JSON trees with unique keys, and the readings and edits gjson and sjson make of them. */
module Json {
  import opened Prelude

  /** `Frac` is a number written with a fraction or an exponent: its text and integer readings. */
  datatype Json =
    | Null
    | Bool(value: bool)
    | Num(number: int)
    | Frac(text: string, whole: int)
    | Str(chars: string)
    | Arr(items: seq<Json>)
    | Obj(fields: map<string, Json>)

  // ---- Readings ----

  function Decimal(n: int): string
    decreases if n < 0 then 1 - n else n
  {
    if n < 0 then "-" + Decimal(-n)
    else if n < 10 then [('0' as int + n) as char]
    else Decimal(n / 10) + [('0' as int + n % 10) as char]
  }

  /** The text of a value; of an array or object, only that it is none of the words looked for. */
  function AsText(j: Json): string {
    match j
    case Null => ""
    case Bool(b) => if b then "true" else "false"
    case Num(n) => Decimal(n)
    case Frac(text, _) => text
    case Str(s) => s
    case Arr(_) => "["
    case Obj(_) => "{"
  }

  function Digits(s: string): Option<nat> {
    if s == "" then Some(0)
    else if !('0' <= s[|s| - 1] <= '9') then None
    else match Digits(s[..|s| - 1])
      case None => None
      case Some(n) => Some(10 * n + (s[|s| - 1] as int - '0' as int))
  }

  function ParseInt(s: string): int {
    var digits := if s != "" && s[0] == '-' then s[1..] else s;
    if digits == "" || Digits(digits).None? then 0
    else
      var n: int := Digits(digits).value;
      if s[0] == '-' then -n else n
  }

  function AsInt(j: Json): int {
    match j
    case Bool(b) => if b then 1 else 0
    case Num(n) => n
    case Frac(_, whole) => whole
    case Str(s) => ParseInt(s)
    case _ => 0
  }

  function AsBool(j: Json): bool {
    match j
    case Bool(b) => b
    case Num(n) => n != 0
    case Frac(text, _) => text !in {"0", "-0"}
    case Str(s) => ToLower(s) in {"1", "t", "true"}
    case _ => false
  }

  // ---- Members ----

  function Get(j: Json, key: string): Option<Json> {
    if j.Obj? && key in j.fields then Some(j.fields[key]) else None
  }

  function GetIn(j: Json, path: seq<string>): Option<Json> {
    if path == [] then Some(j)
    else match Get(j, path[0])
      case None => None
      case Some(child) => GetIn(child, path[1..])
  }

  /** Sets a member; a scalar in its way becomes an object. Inside an array nothing is set. */
  function With(j: Json, key: string, v: Json): Json {
    match j
    case Obj(fields) => Obj(fields[key := v])
    case Arr(_) => j
    case _ => Obj(map[key := v])
  }

  function Without(j: Json, key: string): Json {
    if j.Obj? then Obj(j.fields - {key}) else j
  }

  function SetIn(j: Json, path: seq<string>, v: Json): Json
    decreases |path|
  {
    if path == [] then v
    else
      var child := Get(j, path[0]);
      With(j, path[0], SetIn(if child.Some? then child.value else Obj(map[]), path[1..], v))
  }

  function DeleteIn(j: Json, path: seq<string>): Json
    requires path != []
  {
    if |path| == 1 then Without(j, path[0])
    else match Get(j, path[0])
      case None => j
      case Some(child) => With(j, path[0], DeleteIn(child, path[1..]))
  }

  /** `renameJSONPathRaw` for two members of one object. */
  function Rename(j: Json, from: string, to: string): Json {
    match Get(j, from)
    case None => j
    case Some(v) => Without(With(j, to, v), from)
  }

  lemma RenameTwice(j: Json, from: string, to: string)
    requires from != to
    ensures Rename(Rename(j, from, to), from, to) == Rename(j, from, to)
  {
  }

  /** Setting what is there already changes nothing. */
  lemma WithSame(j: Json, key: string)
    requires Get(j, key).Some?
    ensures With(j, key, Get(j, key).value) == j
  {
    assert j.fields[key := j.fields[key]] == j.fields;
  }

  /** A member that was set is read back, and the last setting wins. */
  lemma WithWith(j: Json, key: string, v: Json, w: Json)
    requires !j.Arr?
    ensures Get(With(j, key, v), key) == Some(v) && With(With(j, key, v), key, w) == With(j, key, w)
  {
    if j.Obj? {
      assert j.fields[key := v][key := w] == j.fields[key := w];
    } else {
      assert map[key := v][key := w] == map[key := w];
    }
  }
}
