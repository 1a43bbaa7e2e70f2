/** JavaScript value semantics that the payment code relies on: values that may be
    `undefined`/`null`, truthiness, the `a || b` default idiom, and ASCII case mapping
    as done by `String.prototype.toUpperCase` / `toLowerCase` on ASCII text. */
module Js {

  /** A value that may be missing (`undefined` or `null` in JavaScript). */
  datatype Option<T> = None | Some(value: T)

  /** The outcome of a call that may throw an `Error` carrying a message. */
  datatype Result<T> = Ok(value: T) | Err(message: string)

  /** The three shapes a field of a JSON payload can take. A key whose value is
      `undefined` is dropped by `JSON.stringify`, while `null` is sent as null. */
  datatype JsField = Undefined | Null | Str(s: string)

  /** JavaScript truthiness of a possibly missing string: `undefined`, `null` and `''` are falsy. */
  predicate Truthy(s: Option<string>) {
    s.Some? && s.value != ""
  }

  /** `s || fallback` for a possibly missing string. */
  function OrElse(s: Option<string>, fallback: string): (r: string)
    ensures Truthy(s) ==> r == s.value
    ensures !Truthy(s) ==> r == fallback
  {
    if Truthy(s) then s.value else fallback
  }

  function OptionOf(f: JsField): (r: Option<string>)
    ensures r.Some? <==> f.Str?
  {
    if f.Str? then Some(f.s) else None
  }

  predicate IsLowerChar(c: char) { 'a' <= c <= 'z' }
  predicate IsUpperChar(c: char) { 'A' <= c <= 'Z' }

  function UpperChar(c: char): (r: char)
    ensures !IsLowerChar(r)
    ensures !IsLowerChar(c) ==> r == c
  {
    if IsLowerChar(c) then (c as int - 32) as char else c
  }

  function LowerChar(c: char): (r: char)
    ensures !IsUpperChar(r)
    ensures !IsUpperChar(c) ==> r == c
  {
    if IsUpperChar(c) then (c as int + 32) as char else c
  }

  /** `s.toUpperCase()` restricted to ASCII letters. */
  function ToUpper(s: string): (r: string)
    ensures |r| == |s|
    ensures forall i :: 0 <= i < |s| ==> r[i] == UpperChar(s[i])
  {
    if s == [] then [] else [UpperChar(s[0])] + ToUpper(s[1..])
  }

  /** `s.toLowerCase()` restricted to ASCII letters. */
  function ToLower(s: string): (r: string)
    ensures |r| == |s|
    ensures forall i :: 0 <= i < |s| ==> r[i] == LowerChar(s[i])
  {
    if s == [] then [] else [LowerChar(s[0])] + ToLower(s[1..])
  }

  /** Two characters that are the same letter up to ASCII case, or are equal. */
  predicate CharEqualsIgnoreCase(a: char, b: char) {
    a == b
    || (IsLowerChar(a) && IsUpperChar(b) && a as int - b as int == 32)
    || (IsUpperChar(a) && IsLowerChar(b) && b as int - a as int == 32)
  }

  /** Case-insensitive equality of strings, defined character by character. */
  predicate EqualsIgnoreCase(s: string, t: string) {
    |s| == |t| && forall i :: 0 <= i < |s| ==> CharEqualsIgnoreCase(s[i], t[i])
  }

  /** A string with no lower-case ASCII letter, such as "STARTER" or "PRO". */
  predicate NoLowerCase(t: string) {
    forall i :: 0 <= i < |t| ==> !IsLowerChar(t[i])
  }

  /** A string with no upper-case ASCII letter, such as "monthly". */
  predicate NoUpperCase(t: string) {
    forall i :: 0 <= i < |t| ==> !IsUpperChar(t[i])
  }

  /** Upper-casing yields exactly an upper-case target `t` iff the input spells `t`
      in any mix of cases. */
  lemma {:induction false} ToUpperMatches(s: string, t: string)
    requires NoLowerCase(t)
    ensures ToUpper(s) == t <==> EqualsIgnoreCase(s, t)
  {
    if ToUpper(s) == t {
      forall i | 0 <= i < |s| ensures CharEqualsIgnoreCase(s[i], t[i]) {
        assert t[i] == UpperChar(s[i]);
      }
    }
    if EqualsIgnoreCase(s, t) {
      forall i | 0 <= i < |s| ensures ToUpper(s)[i] == t[i] {
        assert CharEqualsIgnoreCase(s[i], t[i]);
        assert !IsLowerChar(t[i]);
      }
    }
  }

  /** Lower-casing yields exactly a lower-case target `t` iff the input spells `t`
      in any mix of cases. */
  lemma {:induction false} ToLowerMatches(s: string, t: string)
    requires NoUpperCase(t)
    ensures ToLower(s) == t <==> EqualsIgnoreCase(s, t)
  {
    if ToLower(s) == t {
      forall i | 0 <= i < |s| ensures CharEqualsIgnoreCase(s[i], t[i]) {
        assert t[i] == LowerChar(s[i]);
      }
    }
    if EqualsIgnoreCase(s, t) {
      forall i | 0 <= i < |s| ensures ToLower(s)[i] == t[i] {
        assert CharEqualsIgnoreCase(s[i], t[i]);
        assert !IsUpperChar(t[i]);
      }
    }
  }

  /** Upper-casing is idempotent and leaves no lower-case letter. */
  lemma ToUpperIdempotent(s: string)
    ensures NoLowerCase(ToUpper(s))
    ensures ToUpper(ToUpper(s)) == ToUpper(s)
  {
  }

  /** Lower-casing undoes upper-casing on text without upper-case letters. */
  lemma {:induction false} LowerOfUpper(s: string)
    requires NoUpperCase(s)
    ensures ToLower(ToUpper(s)) == s
  {
    forall i | 0 <= i < |s| ensures ToLower(ToUpper(s))[i] == s[i] {
      assert !IsUpperChar(s[i]);
    }
  }

  /** A digit as a character. */
  function DigitChar(d: nat): char
    requires d < 10
  {
    "0123456789"[d]
  }

  /** `String(n)` for a natural number. */
  function NatToString(n: nat): string {
    if n < 10 then [DigitChar(n)] else NatToString(n / 10) + [DigitChar(n % 10)]
  }

  /** `s.startsWith(p)`. */
  predicate StartsWith(s: string, p: string) {
    |p| <= |s| && s[..|p|] == p
  }

  /** `s.includes(p)`. */
  predicate Contains(s: string, p: string)
    decreases |s|
  {
    StartsWith(s, p) || (s != [] && Contains(s[1..], p))
  }

  /** A string that lacks the first character of `p` cannot include `p`. */
  lemma {:induction false} MissingFirstChar(s: string, p: string)
    requires p != [] && p[0] !in s
    ensures !Contains(s, p)
    decreases |s|
  {
    if s != [] {
      assert p[0] !in s[1..] by {
        assert forall i :: 0 <= i < |s[1..]| ==> s[1..][i] == s[i + 1];
      }
      MissingFirstChar(s[1..], p);
    }
  }

  /** A string includes each of its prefixes: `(p + q).includes(p)`. */
  lemma ContainsPrefix(p: string, q: string)
    ensures Contains(p + q, p)
  {
    assert (p + q)[..|p|] == p;
  }
}
