/** The few pieces of JavaScript value semantics the dashboard's views rely on:
    optional fields, the `||` default on strings and numbers, ASCII case folding,
    `String.prototype.includes`, the regular-expression class `\s` and `Array.prototype.join`. */
module Js {

  /** A field that may be `undefined`/`null` (None) or hold a value. */
  datatype Option<+T> = None | Some(value: T)

  function Min(a: int, b: int): int { if a <= b then a else b }
  function Max(a: int, b: int): int { if a <= b then b else a }

  /** `field || fallback` for a string field: `undefined`, `null` and `""` are falsy. */
  function StringOr(field: Option<string>, fallback: string): (r: string)
    ensures field.Some? && field.value != "" ==> r == field.value
    ensures field.None? || field.value == "" ==> r == fallback
  {
    if field.Some? && field.value != "" then field.value else fallback
  }

  /** `field || fallback` for a numeric field: `undefined`, `null` and `0` are falsy. */
  function NumberOr(field: Option<int>, fallback: int): (r: int)
    ensures field.Some? && field.value != 0 ==> r == field.value
    ensures field.None? || field.value == 0 ==> r == fallback
  {
    if field.Some? && field.value != 0 then field.value else fallback
  }

  /** "Missing, null or empty" cells render as the placeholder "N/A", which is never empty. */
  lemma StringOrNeverEmpty(field: Option<string>)
    ensures StringOr(field, "N/A") != ""
    ensures StringOr(field, "N/A") == "N/A" <==> field.None? || field.value in {"", "N/A"}
  {
  }

  predicate IsUpper(c: char) { 'A' <= c <= 'Z' }

  /** `toLowerCase` on one character, restricted to the ASCII letters. */
  function LowerChar(c: char): (d: char)
    ensures !IsUpper(d)
    ensures IsUpper(c) ==> d as int == c as int + 32
    ensures !IsUpper(c) ==> d == c
  {
    if IsUpper(c) then (c as int + 32) as char else c
  }

  function Lower(s: string): (r: string)
    ensures |r| == |s|
    ensures forall i :: 0 <= i < |s| ==> r[i] == LowerChar(s[i])
  {
    seq(|s|, i requires 0 <= i < |s| => LowerChar(s[i]))
  }

  lemma LowerIdempotent(s: string)
    ensures Lower(Lower(s)) == Lower(s)
  {
  }

  predicate StartsWith(s: string, prefix: string) {
    |prefix| <= |s| && s[..|prefix|] == prefix
  }

  /** `s.includes(sub)`, searching from the left. */
  predicate Includes(s: string, sub: string)
    decreases |s|
  {
    StartsWith(s, sub) || (|s| > 0 && Includes(s[1..], sub))
  }

  predicate OccursAt(s: string, sub: string, i: nat) {
    i + |sub| <= |s| && s[i..i + |sub|] == sub
  }

  /** `includes` holds exactly when `sub` occurs at some position of `s`. */
  lemma {:induction false} IncludesIffOccurs(s: string, sub: string)
    ensures Includes(s, sub) <==> exists i: nat :: OccursAt(s, sub, i)
    decreases |s|
  {
    if StartsWith(s, sub) {
      assert OccursAt(s, sub, 0);
    } else if |s| == 0 {
      forall i: nat ensures !OccursAt(s, sub, i) {
      }
    } else {
      IncludesIffOccurs(s[1..], sub);
      if Includes(s[1..], sub) {
        var i: nat :| OccursAt(s[1..], sub, i);
        assert s[1..][i..i + |sub|] == s[i + 1..i + 1 + |sub|];
        assert OccursAt(s, sub, i + 1);
      } else {
        forall i: nat ensures !OccursAt(s, sub, i) {
          if OccursAt(s, sub, i) {
            if i > 0 {
              assert s[1..][i - 1..i - 1 + |sub|] == s[i..i + |sub|];
              assert OccursAt(s[1..], sub, i - 1);
            }
          }
        }
      }
    }
  }

  /** Every string includes the empty string, so an empty search box hides nothing. */
  lemma {:induction false} IncludesEmpty(s: string)
    ensures Includes(s, "")
  {
    assert StartsWith(s, "");
  }

  /** JavaScript's `\s`: the white-space and line-terminator characters of ECMA-262. */
  predicate IsSpace(c: char) {
    c == ' ' || c == '\t' || c == '\n' || c == '\r' || c == '\U{000B}' || c == '\U{000C}'
    || c == '\U{00A0}' || c == '\U{1680}' || ('\U{2000}' <= c <= '\U{200A}')
    || c == '\U{2028}' || c == '\U{2029}' || c == '\U{202F}' || c == '\U{205F}'
    || c == '\U{3000}' || c == '\U{FEFF}'
  }

  /** `items.join(separator)`. */
  function Join(items: seq<string>, separator: string): (r: string)
    ensures items == [] ==> r == ""
    ensures |items| == 1 ==> r == items[0]
    decreases |items|
  {
    if items == [] then ""
    else if |items| == 1 then items[0]
    else items[0] + separator + Join(items[1..], separator)
  }

  /** The first label always heads the joined text. */
  lemma {:induction false} JoinStartsWithFirst(items: seq<string>, separator: string)
    requires items != []
    ensures StartsWith(Join(items, separator), items[0])
  {
    var r := Join(items, separator);
    if |items| > 1 {
      assert r == items[0] + (separator + Join(items[1..], separator));
    }
    assert r[..|items[0]|] == items[0];
  }

  /** Joining one more label appends the separator and that label. */
  lemma {:induction false} JoinSnoc(items: seq<string>, separator: string, x: string)
    requires items != []
    ensures Join(items + [x], separator) == Join(items, separator) + separator + x
    decreases |items|
  {
    var ys := items + [x];
    assert ys[0] == items[0];
    if |items| == 1 {
      assert ys[1..] == [x];
    } else {
      assert ys[1..] == items[1..] + [x];
      JoinSnoc(items[1..], separator, x);
    }
  }

  /** The total length of the labels. */
  function TotalLength(items: seq<string>): nat
    decreases |items|
  {
    if items == [] then 0 else |items[0]| + TotalLength(items[1..])
  }

  /** The joined text is the labels plus one separator between each two of them. */
  lemma {:induction false} JoinLength(items: seq<string>, separator: string)
    requires items != []
    ensures |Join(items, separator)| == TotalLength(items) + (|items| - 1) * |separator|
    decreases |items|
  {
    if |items| > 1 {
      JoinLength(items[1..], separator);
      assert (|items| - 1) * |separator| == (|items| - 2) * |separator| + |separator|;
    }
  }
}
