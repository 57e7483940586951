/** JavaScript values as the relay and the clients see them, ECMAScript
    truthiness, property access by destructuring, and `String.prototype.trim`. */
module Js {

  datatype Option<+T> = None | Some(value: T)

  /** A JSON value, or `undefined` for a property that is absent.
      Numbers are kept exact; `+0` and `-0` are both `Num(0.0)`. */
  datatype Value =
    | Undefined
    | Null
    | Bool(b: bool)
    | Num(x: real)
    | Str(s: string)
    | Arr(items: seq<Value>)
    | Obj(fields: map<string, Value>)
  {
    /** ECMAScript ToBoolean is false for exactly these values (JSON cannot produce NaN). */
    predicate IsFalsy() {
      || Undefined?
      || Null?
      || (Bool? && !b)
      || (Num? && x == 0.0)
      || (Str? && s == "")
    }
  }

  /** The two property names the application reads out of a JSON body. */
  datatype Key = PromptKey | ReplyKey {
    function Name(): string {
      match this
      case PromptKey => "prompt"
      case ReplyKey => "reply"
    }
  }

  /** `const { k } = v` or `v.k`: a TypeError (None) on `undefined` and `null`,
      the own property of an object, and `undefined` for every other value,
      because neither key names a property of strings, numbers, booleans or arrays. */
  function Field(v: Value, k: Key): (r: Option<Value>)
    ensures r.None? <==> v.Undefined? || v.Null?
    ensures r.Some? && v.Obj? ==> (r.value == if k.Name() in v.fields then v.fields[k.Name()] else Undefined)
    ensures r.Some? && !v.Obj? ==> r.value.Undefined?
  {
    match v
    case Undefined => None
    case Null => None
    case Obj(fields) => Some(if k.Name() in fields then fields[k.Name()] else Undefined)
    case _ => Some(Undefined)
  }

  /** `String(v)` throws a TypeError. An object with its own `toString`
      property cannot be converted, because no JSON value is callable and
      `Object.prototype.valueOf` returns the object itself; an array cannot
      be converted when `join` meets such an element. Every other JSON value
      converts. */
  predicate ToStringThrows(v: Value) {
    match v
    case Obj(fields) => "toString" in fields
    case Arr(items) => exists i :: 0 <= i < |items| && ToStringThrows(items[i])
    case _ => false
  }

  /** WhiteSpace and LineTerminator code points of ECMAScript, the characters `trim` removes. */
  predicate IsWhiteSpace(c: char) {
    var n := c as int;
    || (0x09 <= n <= 0x0D)
    || n == 0x20
    || n == 0xA0
    || n == 0x1680
    || (0x2000 <= n <= 0x200A)
    || n == 0x2028
    || n == 0x2029
    || n == 0x202F
    || n == 0x205F
    || n == 0x3000
    || n == 0xFEFF
  }

  predicate AllWhiteSpace(s: string) {
    forall i :: 0 <= i < |s| ==> IsWhiteSpace(s[i])
  }

  /** Drops the longest all-whitespace prefix. */
  function TrimStart(s: string): (r: string)
    ensures |r| <= |s| && r == s[|s| - |r|..]
    ensures forall k :: 0 <= k < |s| - |r| ==> IsWhiteSpace(s[k])
    ensures r == [] || !IsWhiteSpace(r[0])
  {
    if s != [] && IsWhiteSpace(s[0]) then
      var r := TrimStart(s[1..]);
      assert forall k :: 1 <= k < |s| - |r| ==> s[k] == s[1..][k - 1];
      r
    else s
  }

  /** Drops the longest all-whitespace suffix. */
  function TrimEnd(s: string): (r: string)
    ensures |r| <= |s| && r == s[..|r|]
    ensures forall k :: |r| <= k < |s| ==> IsWhiteSpace(s[k])
    ensures r == [] || !IsWhiteSpace(r[|r| - 1])
  {
    if s != [] && IsWhiteSpace(s[|s| - 1]) then
      var r := TrimEnd(s[..|s| - 1]);
      assert forall k :: |r| <= k < |s| - 1 ==> s[k] == s[..|s| - 1][k];
      r
    else s
  }

  /** `s.trim()`. */
  function Trim(s: string): string {
    TrimEnd(TrimStart(s))
  }

  /** `s` splits as whitespace, then `r`, then whitespace, with `r` neither
      starting nor ending in whitespace: the defining property of `trim`. */
  ghost predicate IsTrimOf(r: string, s: string) {
    && (r == [] || (!IsWhiteSpace(r[0]) && !IsWhiteSpace(r[|r| - 1])))
    && exists i, j :: 0 <= i <= j <= |s| && SplitsAt(s, i, j) && r == s[i..j]
  }

  /** Everything before `i` and from `j` on is whitespace. */
  ghost predicate SplitsAt(s: string, i: int, j: int)
    requires 0 <= i <= j <= |s|
  {
    && (forall k :: 0 <= k < i ==> IsWhiteSpace(s[k]))
    && (forall k :: j <= k < |s| ==> IsWhiteSpace(s[k]))
  }

  lemma TrimIsTrimOf(s: string)
    ensures IsTrimOf(Trim(s), s)
  {
    var a := TrimStart(s);
    var i := |s| - |a|;
    var r := TrimEnd(a);
    TrimEndInside(s, a, i, r);
    assert SplitsAt(s, i, i + |r|);
  }

  /** Where the trimmed suffix `a` of `s` starts at `i`, the trim of `a` is a
      slice of `s`, followed in `s` by whitespace only. */
  lemma TrimEndInside(s: string, a: string, i: int, r: string)
    requires 0 <= i <= |s| && a == s[i..] && r == TrimEnd(a)
    ensures i + |r| <= |s| && r == s[i..i + |r|]
    ensures forall k :: i + |r| <= k < |s| ==> IsWhiteSpace(s[k])
  {
    assert forall k :: i + |r| <= k < |s| ==> s[k] == a[k - i];
  }

  /** A string trims to the empty string exactly when it is all whitespace. */
  lemma TrimEmptyIff(s: string)
    ensures Trim(s) == [] <==> AllWhiteSpace(s)
  {
    var a := TrimStart(s);
    if Trim(s) == [] {
      TrimEndInside(s, a, |s| - |a|, Trim(s));
    }
  }

  lemma TrimIdempotent(s: string)
    ensures Trim(Trim(s)) == Trim(s)
  {
    var r := Trim(s);
    assert TrimStart(r) == r;
    assert TrimEnd(r) == r;
  }
}
