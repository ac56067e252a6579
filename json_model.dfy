/**
 * Parsed JSON values, as Python's `json.loads` returns them (objects become
 * dicts, arrays lists, `null` becomes `None`), and the `dict.get` readers the
 * core applies to them. Numbers are carried as their literal text: the core
 * never computes with them.
 */
module JsonModel {
  import opened Wrappers

  datatype Json =
    | JNull
    | JBool(b: bool)
    | JNum(literal: string)
    | JStr(str: string)
    | JArr(items: seq<Json>)
    | JObj(fields: map<string, Json>)

  /** A Python dict parsed from a JSON object. */
  type Object = map<string, Json>

  /** A dict whose values are all strings (`Dict[str, str]`). */
  type StrDict = map<string, string>

  /** `o.get(k, d)` yields a string: the key is absent or holds one. */
  predicate StrOrAbsent(o: Object, k: string)
  {
    k in o ==> o[k].JStr?
  }

  function GetStr(o: Object, k: string, d: string): string
    requires StrOrAbsent(o, k)
  {
    if k in o then o[k].str else d
  }

  /** The key is absent, holds a string, or holds `null`. */
  predicate StrOrNullOrAbsent(o: Object, k: string)
  {
    k in o ==> o[k].JStr? || o[k].JNull?
  }

  /** `o.get(k, d)` where `null` reads as `None` and an absent key as `absent`. */
  function GetOptStr(o: Object, k: string, absent: Option<string>): Option<string>
    requires StrOrNullOrAbsent(o, k)
  {
    if k !in o then absent else if o[k].JNull? then None else Some(o[k].str)
  }

  /** `o.get(k, d)` for a value the core only carries along. */
  function GetValue(o: Object, k: string, d: Json): Json
  {
    if k in o then o[k] else d
  }

  predicate IsObjectArray(v: Json)
  {
    v.JArr? && forall i :: 0 <= i < |v.items| ==> v.items[i].JObj?
  }

  /** The key is absent or holds a list of dicts. */
  predicate ObjectsOrAbsent(o: Object, k: string)
  {
    k in o ==> IsObjectArray(o[k])
  }

  /** `o.get(k, [])` for a list of dicts. */
  function GetObjects(o: Object, k: string): (r: seq<Object>)
    requires ObjectsOrAbsent(o, k)
    ensures k !in o ==> r == []
    ensures k in o ==> |r| == |o[k].items|
  {
    if k !in o then []
    else
      var items := o[k].items;
      seq(|items|, i requires 0 <= i < |items| => items[i].fields)
  }

  predicate IsStrArray(v: Json)
  {
    v.JArr? && forall i :: 0 <= i < |v.items| ==> v.items[i].JStr?
  }

  function Strings(v: Json): seq<string>
    requires IsStrArray(v)
  {
    seq(|v.items|, i requires 0 <= i < |v.items| => v.items[i].str)
  }

  /** The key is absent or holds a list of strings. */
  predicate StrsOrAbsent(o: Object, k: string)
  {
    k in o ==> IsStrArray(o[k])
  }

  /** `o.get(k, [])` for a list of strings. */
  function GetStrings(o: Object, k: string): seq<string>
    requires StrsOrAbsent(o, k)
  {
    if k in o then Strings(o[k]) else []
  }

  /** The key is absent, `null`, or a list of strings. */
  predicate StrsOrNullOrAbsent(o: Object, k: string)
  {
    k in o ==> o[k].JNull? || IsStrArray(o[k])
  }

  /** `o.get(k, []) or []` for a list of strings: `null` also reads as the empty list. */
  function GetStringsOrEmpty(o: Object, k: string): seq<string>
    requires StrsOrNullOrAbsent(o, k)
  {
    if k in o && o[k].JArr? then Strings(o[k]) else []
  }

  predicate IsStrDict(v: Json)
  {
    v.JObj? && forall k :: k in v.fields ==> v.fields[k].JStr?
  }

  function ToStrDict(v: Json): StrDict
    requires IsStrDict(v)
  {
    map k | k in v.fields :: v.fields[k].str
  }

  predicate IsStrDictArray(v: Json)
  {
    v.JArr? && forall i :: 0 <= i < |v.items| ==> IsStrDict(v.items[i])
  }

  /** The key is absent or holds a list of string-valued dicts. */
  predicate StrDictsOrAbsent(o: Object, k: string)
  {
    k in o ==> IsStrDictArray(o[k])
  }

  /** `o.get(k, [])` for a list of string-valued dicts. */
  function GetStrDicts(o: Object, k: string): seq<StrDict>
    requires StrDictsOrAbsent(o, k)
  {
    if k !in o then []
    else
      var items := o[k].items;
      seq(|items|, i requires 0 <= i < |items| => ToStrDict(items[i]))
  }

  /** `d.get(k, default)` on a string-valued dict. */
  function Lookup(d: StrDict, k: string, default: string): string
  {
    if k in d then d[k] else default
  }
}
