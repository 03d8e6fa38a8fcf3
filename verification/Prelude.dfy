/** Shared datatypes and small text helpers used by every component model. */
module Prelude {

  datatype Option<+T> = None | Some(value: T) {
    function GetOr(default: T): T {
      if Some? then value else default
    }
  }

  datatype Result<+T, +E> = Ok(value: T) | Err(error: E)

  /** `str::is_empty` filtered out: an absent and an empty text read the same. */
  function NonEmpty(text: Option<string>): Option<string> {
    if text.Some? && text.value != "" then text else None
  }

  /** Unicode White_Space, the characters `trim` removes. */
  predicate IsSpace(c: char) {
    var code := c as int;
    || 9 <= code <= 13 || code in {32, 0x85, 0xa0, 0x1680}
    || 0x2000 <= code <= 0x200a || code in {0x2028, 0x2029, 0x202f, 0x205f, 0x3000}
  }

  /** The characters JavaScript counts as whitespace. */
  predicate IsJsSpace(c: char) {
    c == '\U{FEFF}' || (IsSpace(c) && c != '\U{85}')
  }

  /** JavaScript's `trim`. */
  function Trim(s: string): string
    decreases |s|
  {
    if s != "" && IsJsSpace(s[0]) then Trim(s[1..])
    else if s != "" && IsJsSpace(s[|s| - 1]) then Trim(s[..|s| - 1])
    else s
  }

  /** Trimming takes whitespace off both ends, and only that. */
  lemma {:induction false} TrimMeans(s: string) returns (left: string, right: string)
    ensures s == left + Trim(s) + right && Spaces(left) && Spaces(right)
    ensures Trim(s) != "" ==> !IsJsSpace(Trim(s)[0]) && !IsJsSpace(Trim(s)[|Trim(s)| - 1])
    decreases |s|
  {
    hide IsJsSpace, Spaces;
    if s != "" && IsJsSpace(s[0]) {
      left, right := TrimMeans(s[1..]);
      SpacesJoin([s[0]], left);
      left := [s[0]] + left;
      assert s == [s[0]] + s[1..];
    } else if s != "" && IsJsSpace(s[|s| - 1]) {
      left, right := TrimMeans(s[..|s| - 1]);
      SpacesJoin(right, [s[|s| - 1]]);
      right := right + [s[|s| - 1]];
      assert s == s[..|s| - 1] + [s[|s| - 1]];
    } else {
      left, right := "", "";
      SpacesJoin("", "");
    }
  }

  lemma SpacesJoin(a: string, b: string)
    ensures Spaces("")
    ensures |a| == 1 && IsJsSpace(a[0]) ==> Spaces(a)
    ensures |b| == 1 && IsJsSpace(b[0]) ==> Spaces(b)
    ensures Spaces(a) && Spaces(b) ==> Spaces(a + b)
  {
  }

  predicate Spaces(s: string) {
    forall i :: 0 <= i < |s| ==> IsJsSpace(s[i])
  }

  predicate Blank(s: string) {
    forall k :: 0 <= k < |s| ==> IsSpace(s[k])
  }

  predicate StartsWith(s: string, prefix: string) {
    prefix <= s
  }

  function Digits(n: nat): string {
    if n < 10 then [DigitChar(n)] else Digits(n / 10) + [DigitChar(n % 10)]
  }

  function DigitChar(d: nat): char
    requires d < 10
  {
    "0123456789"[d]
  }

  /** The parts with the separator between them. */
  function Join(parts: seq<string>, separator: string): string {
    if parts == [] then ""
    else if |parts| == 1 then parts[0]
    else parts[0] + separator + Join(parts[1..], separator)
  }

  lemma {:induction false} JoinSnoc(parts: seq<string>, part: string, separator: string)
    ensures Join(parts + [part], separator)
            == if parts == [] then part else Join(parts, separator) + separator + part
  {
    if parts != [] {
      var all := parts + [part];
      JoinSnoc(parts[1..], part, separator);
      assert all[1..] == parts[1..] + [part];
    }
  }

  /** Concatenation of a sequence of sequences. */
  function Flatten<T>(parts: seq<seq<T>>): seq<T> {
    if parts == [] then [] else parts[0] + Flatten(parts[1..])
  }

  lemma {:induction false} FlattenSnoc<T>(parts: seq<seq<T>>, part: seq<T>)
    ensures Flatten(parts + [part]) == Flatten(parts) + part
  {
    if parts == [] {
      assert [part][1..] == [];
      assert Flatten([part]) == part + [];
    } else {
      FlattenSnoc(parts[1..], part);
      assert (parts + [part])[1..] == parts[1..] + [part];
    }
  }

  // ----- finite sets of naturals in ascending order (the iteration order of an ordered map)

  predicate Ascends(s: seq<nat>) {
    forall i, j :: 0 <= i < j < |s| ==> s[i] < s[j]
  }

  lemma {:induction false} LeastExists(s: set<nat>, x: nat)
    requires x in s
    ensures exists m :: m in s && forall k :: k in s ==> m <= k
    decreases x
  {
    if y :| y in s && y < x {
      LeastExists(s, y);
    } else {
      assert forall k :: k in s ==> x <= k;
    }
  }

  ghost predicate Lists(r: seq<nat>, s: set<nat>) {
    && Ascends(r)
    && (forall k :: k in s ==> k in r)
    && (forall j :: 0 <= j < |r| ==> r[j] in s)
  }

  lemma ListsCons(m: nat, rest: seq<nat>, s: set<nat>)
    requires m in s && forall k :: k in s ==> m <= k
    requires Lists(rest, s - {m})
    ensures Lists([m] + rest, s)
  {
    var r := [m] + rest;
    forall i, j | 0 <= i < j < |r| ensures r[i] < r[j] {
      assert r[j] == rest[j - 1] && rest[j - 1] in s - {m};
    }
    forall j | 0 <= j < |r| ensures r[j] in s {
      assert j > 0 ==> r[j] == rest[j - 1];
    }
    forall k | k in s ensures k in r {
      assert k == m || k in rest;
    }
  }

  function Least(s: set<nat>): (m: nat)
    requires s != {}
    ensures m in s && forall k :: k in s ==> m <= k
  {
    var x :| x in s;
    LeastExists(s, x);
    var m :| m in s && forall k :: k in s ==> m <= k;
    m
  }

  /** The members of a set, smallest first. */
  function Ascending(s: set<nat>): (r: seq<nat>)
    ensures Lists(r, s)
  {
    if s == {} then []
    else
      var rest := Ascending(s - {Least(s)});
      ListsCons(Least(s), rest, s);
      [Least(s)] + rest
  }

  lemma HeadIsMember<T>(s: seq<T>)
    ensures s == [] || s[0] in s
  {
  }

  /** Strictly ascending listings of the same members are equal. */
  lemma {:induction false} AscendingUnique(a: seq<nat>, b: seq<nat>)
    requires Ascends(a) && Ascends(b)
    requires forall k :: k in a <==> k in b
    ensures a == b
  {
    if a == [] {
      HeadIsMember(b);
    } else {
      assert a[0] in a && a[0] in b;
      assert b[0] in b && b[0] in a;
      assert a[0] == b[0];
      forall k ensures k in a[1..] <==> k in b[1..] {
        assert k in a <==> k == a[0] || k in a[1..];
        assert k in b <==> k == b[0] || k in b[1..];
      }
      AscendingUnique(a[1..], b[1..]);
      assert a == [a[0]] + a[1..];
      assert b == [b[0]] + b[1..];
    }
  }
}
