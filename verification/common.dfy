/**
 * Values and helpers shared by every route and middleware of the backend:
 * optional fields, JavaScript truthiness of strings, `String.prototype.trim`,
 * `startsWith`, `split(":")[1]`, JavaScript numbers that may be NaN, and the
 * replies an Express handler can produce.
 */
module Common {

  datatype Option<+T> = None | Some(value: T) {
    function GetOr(default: T): T {
      match this
      case Some(v) => v
      case None => default
    }
  }

  /** The outcome of a call that either returns a value or throws `new Error(msg)`. */
  datatype Result<+T> = Ok(value: T) | Err(msg: string)

  /** A document field as stored: missing (or null), a string, or any other JSON value. */
  datatype Field = Absent | Str(s: string) | NonString

  /** A flat JSON value, as used for provider options and bot kwargs. */
  datatype Json = JNull | JBool(b: bool) | JNum(r: real) | JStr(s: string)

  type Kwargs = map<string, Json>

  /** The `{ role, content }` projection of a chat message. */
  datatype Entry = Entry(role: Field, content: Field)

  /** A JavaScript number as far as the routes compute with it: an integer or NaN. */
  datatype JsNumber = Num(n: int) | NaN {
    /** JavaScript `+` on numbers: NaN absorbs everything. */
    function Plus(other: JsNumber): JsNumber {
      match (this, other)
      case (Num(a), Num(b)) => Num(a + b)
      case _ => NaN
    }
  }

  /** What a middleware does: call `next()` with the projected request, or answer with an error. */
  datatype Gate<+T> = Next(value: T) | Halt(status: nat, error: string)

  /** What a route handler sends: a 200 JSON body, an error JSON, or nothing at all. */
  datatype HttpReply<+T> = Reply(body: T) | ErrorReply(status: nat, error: string, details: string) | NoReply

  /** A write or a choice a handler decided on, or the error status it answers with instead. */
  datatype Checked<+T> = Valid(value: T) | Invalid(status: nat, error: string)

  /** A read of one document or one query: the value, or the exception the read raised. */
  datatype Lookup<+T> = Found(value: T) | LookupFailed(reason: string)

  /** JavaScript truthiness of an optional string: present and not empty. */
  predicate Truthy(o: Option<string>) {
    o.Some? && o.value != ""
  }

  /** `o || fallback` for an optional string. */
  function OrElse(o: Option<string>, fallback: string): string {
    if Truthy(o) then o.value else fallback
  }

  predicate StartsWith(s: string, prefix: string) {
    |prefix| <= |s| && s[..|prefix|] == prefix
  }

  /** The characters `String.prototype.trim` removes: WhiteSpace and LineTerminator of ECMA-262. */
  predicate IsJsWhitespace(c: char) {
    || c == '\t' || c == '\n' || c == '\U{0B}' || c == '\U{0C}' || c == '\r' || c == ' '
    || c == '\U{A0}' || c == '\U{1680}' || ('\U{2000}' <= c <= '\U{200A}')
    || c == '\U{2028}' || c == '\U{2029}' || c == '\U{202F}' || c == '\U{205F}'
    || c == '\U{3000}' || c == '\U{FEFF}'
  }

  /** `s.trim() === ''`. */
  predicate IsBlank(s: string) {
    forall i :: 0 <= i < |s| ==> IsJsWhitespace(s[i])
  }

  function TrimStart(s: string): (r: string)
    ensures |r| <= |s| && r == s[|s| - |r|..]
    ensures forall i :: 0 <= i < |s| - |r| ==> IsJsWhitespace(s[i])
    ensures r == [] || !IsJsWhitespace(r[0])
  {
    if |s| > 0 && IsJsWhitespace(s[0]) then TrimStart(s[1..]) else s
  }

  function TrimEnd(s: string): (r: string)
    ensures |r| <= |s| && r == s[..|r|]
    ensures forall i :: |r| <= i < |s| ==> IsJsWhitespace(s[i])
    ensures r == [] || !IsJsWhitespace(r[|r| - 1])
  {
    if |s| > 0 && IsJsWhitespace(s[|s| - 1]) then TrimEnd(s[..|s| - 1]) else s
  }

  /** `s.trim()`: `s` without its leading and trailing whitespace. */
  function Trim(s: string): (r: string)
    ensures |r| <= |s|
    ensures r == [] || (!IsJsWhitespace(r[0]) && !IsJsWhitespace(r[|r| - 1]))
  {
    TrimEnd(TrimStart(s))
  }

  /** `s.trim() === ''` holds exactly when every character of `s` is whitespace. */
  lemma TrimEmptyIffBlank(s: string)
    ensures Trim(s) == [] <==> IsBlank(s)
  {
  }

  /** Trimming a trimmed string changes nothing. */
  lemma TrimIdempotent(s: string)
    ensures Trim(Trim(s)) == Trim(s)
  {
    var r := Trim(s);
    assert TrimStart(r) == r;
    assert TrimEnd(r) == r;
  }

  /** `s && s.trim() !== ''` for an optional string. */
  predicate NonBlank(o: Option<string>) {
    o.Some? && Trim(o.value) != ""
  }

  /** A request value stored as a document field: `undefined` is a missing field. */
  function FieldOf(o: Option<string>): Field {
    match o
    case Some(s) => Str(s)
    case None => Absent
  }

  function LowerAscii(c: char): char {
    if 'A' <= c <= 'Z' then (c as int + 32) as char else c
  }

  /** `s.toLowerCase()` on the ASCII letters. */
  function ToLowerAscii(s: string): (r: string)
    ensures |r| == |s|
    ensures forall i :: 0 <= i < |s| ==> r[i] == LowerAscii(s[i])
  {
    seq(|s|, i requires 0 <= i < |s| => LowerAscii(s[i]))
  }

  /** The index of the first `c` in `s`, if any. */
  function IndexOf(s: string, c: char): (r: Option<nat>)
    ensures r.Some? ==> r.value < |s| && s[r.value] == c && forall j :: 0 <= j < r.value ==> s[j] != c
    ensures r.None? ==> forall j :: 0 <= j < |s| ==> s[j] != c
  {
    if |s| == 0 then None
    else if s[0] == c then Some(0)
    else match IndexOf(s[1..], c)
      case None => None
      case Some(k) => Some(k + 1)
  }

  /** `s.split(":")[1]`: the text between the first and the second colon, or `undefined`. */
  function SecondColonField(s: string): (r: Option<string>)
    ensures r.None? <==> IndexOf(s, ':').None?
    ensures r.Some? ==> forall j :: 0 <= j < |r.value| ==> r.value[j] != ':'
  {
    match IndexOf(s, ':')
    case None => None
    case Some(i) =>
      var rest := s[i + 1..];
      match IndexOf(rest, ':')
      case None => Some(rest)
      case Some(j) => Some(rest[..j])
  }

  /**
   * The property names a plain object literal finds on `Object.prototype` although it
   * does not define them: looking one up gives a function, which is truthy. `__proto__`
   * also finds something (the prototype object itself) and is kept apart, because
   * assigning to it behaves differently.
   */
  const ObjectPrototypeNames: set<string> := {
    "constructor", "hasOwnProperty", "isPrototypeOf", "propertyIsEnumerable", "toLocaleString", "toString",
    "valueOf", "__defineGetter__", "__defineSetter__", "__lookupGetter__", "__lookupSetter__"}

  const ProtoName: string := "__proto__"
}
