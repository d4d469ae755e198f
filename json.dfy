/**
 * Decoded JSON values and the few JavaScript operations the extension applies
 * to them.  Parsing and printing stay abstract: a `Codec` supplies them.
 */
module Json {
  import opened Wrappers
  import Ordered
  import Text

  datatype Json =
    | JNull
    | JBool(b: bool)
    | JNum(n: int)
    | JStr(s: string)
    | JArr(elems: seq<Json>)
    | JObj(fields: Ordered.Assoc<string, Json>)

  /**
   * The engine's JSON facilities, left uninterpreted:
   * `parse` is `JSON.parse` (None when it throws), `stringify` is `JSON.stringify`,
   * and `text` is the string coercion `JSON.parse` applies to a non-string
   * argument (`Argument` uses it only there).
   */
  datatype Codec = Codec(parse: string -> Option<Json>, stringify: Json -> string, text: Json -> string)

  /** The text `JSON.parse(j)` parses: a string as it is, any other value coerced to a string. */
  function Argument(codec: Codec, j: Json): (r: string)
    ensures j.JStr? ==> r == j.s
  {
    if j.JStr? then j.s else codec.text(j)
  }

  /** JavaScript truthiness of a decoded value. */
  predicate Truthy(j: Json)
  {
    match j
    case JNull => false
    case JBool(b) => b
    case JNum(n) => n != 0
    case JStr(s) => s != ""
    case _ => true
  }

  /** `j.name` on a value that is not null: only objects have own fields here. */
  function Field(j: Json, name: string): Option<Json>
  {
    if j.JObj? then Ordered.Lookup(j.fields, name) else None
  }

  /** `x || fallback` where `x` may be undefined. */
  function OrElse(x: Option<Json>, fallback: Json): Json
  {
    if x.Some? && Truthy(x.value) then x.value else fallback
  }

  /** The fields `"0"`, `"1"`, … that a spread copies from the elements `parts` of an array or a string. */
  function IndexFields(parts: seq<Json>): Ordered.Assoc<string, Json>
    decreases |parts|
  {
    if |parts| == 0 then []
    else IndexFields(parts[..|parts| - 1]) + [(Text.Decimal(|parts| - 1), parts[|parts| - 1])]
  }

  /** Index `k` is bound to element `k`, and is absent past the end. */
  lemma {:induction false} IndexFieldsLookup(parts: seq<Json>, k: nat)
    ensures Ordered.Lookup(IndexFields(parts), Text.Decimal(k)) == if k < |parts| then Some(parts[k]) else None
    decreases |parts|
  {
    if |parts| > 0 {
      var n := |parts| - 1;
      Ordered.LookupAppend(IndexFields(parts[..n]), Text.Decimal(n), parts[n], Text.Decimal(k));
      IndexFieldsLookup(parts[..n], k);
      if Text.Decimal(n) == Text.Decimal(k) {
        Text.DecimalInjective(n, k);
      }
    }
  }

  /** A name that is no decimal index is absent. */
  lemma {:induction false} IndexFieldsOther(parts: seq<Json>, name: string)
    requires forall k: nat :: name != Text.Decimal(k)
    ensures Ordered.Lookup(IndexFields(parts), name) == None
    decreases |parts|
  {
    if |parts| > 0 {
      var n := |parts| - 1;
      Ordered.LookupAppend(IndexFields(parts[..n]), Text.Decimal(n), parts[n], name);
      IndexFieldsOther(parts[..n], name);
    }
  }

  /** The one-character strings a spread of `s` copies. */
  function Chars(s: string): (r: seq<Json>)
    ensures |r| == |s|
  {
    seq(|s|, i requires 0 <= i < |s| => JStr([s[i]]))
  }

  /**
   * The own enumerable fields a spread `{...j}` copies: an object's fields, an
   * array's elements and a string's characters under their decimal indices,
   * and nothing for null, booleans and numbers.
   */
  function OwnFields(j: Json): Ordered.Assoc<string, Json>
  {
    match j
    case JObj(fields) => fields
    case JArr(elems) => IndexFields(elems)
    case JStr(s) => IndexFields(Chars(s))
    case _ => []
  }

  /**
   * A spread copies an object's fields as they are, binds each index of an
   * array or a string to its element or one-character string and nothing else,
   * and copies nothing from null, a boolean or a number.
   */
  lemma SpreadFields(j: Json, name: string, k: nat)
    ensures j.JObj? ==> Ordered.Lookup(OwnFields(j), name) == Field(j, name)
    ensures j.JArr? ==> Ordered.Lookup(OwnFields(j), Text.Decimal(k)) == if k < |j.elems| then Some(j.elems[k]) else None
    ensures j.JStr? ==> Ordered.Lookup(OwnFields(j), Text.Decimal(k)) == if k < |j.s| then Some(JStr([j.s[k]])) else None
    ensures (j.JArr? || j.JStr?) && (forall i: nat :: name != Text.Decimal(i)) ==> Ordered.Lookup(OwnFields(j), name) == None
    ensures (j.JNull? || j.JBool? || j.JNum?) ==> OwnFields(j) == []
  {
    if j.JArr? {
      IndexFieldsLookup(j.elems, k);
      if forall i: nat :: name != Text.Decimal(i) { IndexFieldsOther(j.elems, name); }
    }
    if j.JStr? {
      IndexFieldsLookup(Chars(j.s), k);
      if forall i: nat :: name != Text.Decimal(i) { IndexFieldsOther(Chars(j.s), name); }
    }
  }

  /** `{...j, name: v}`: a fresh object with `name` set to `v`. */
  function WithField(j: Json, name: string, v: Json): (r: Json)
    ensures r.JObj?
    ensures Field(r, name) == Some(v)
    ensures forall other :: other != name ==> Field(r, other) == Ordered.Lookup(OwnFields(j), other)
  {
    var r := JObj(Ordered.Put(OwnFields(j), name, v));
    Ordered.LookupPut(OwnFields(j), name, v, name);
    forall other | other != name ensures Field(r, other) == Ordered.Lookup(OwnFields(j), other) {
      Ordered.LookupPut(OwnFields(j), name, v, other);
    }
    r
  }
}
