/** The list edits the screens perform on their in-memory lists: the next id
    `Math.max(0, ...ids) + 1`, replace-by-id with `map`, delete-by-id with `filter`, and the
    hex-colour check the map-settings forms apply before saving. Each list element is read
    through a `key` function giving its `id`. */
module ListEditing {
  import opened Sequences
  import opened Text

  /** `Math.max(0, ...ids) + 1`: one more than the largest id, or 1 for an empty list. */
  function NextListId(ids: seq<int>): (id: int)
    ensures id >= 1
    ensures forall i | 0 <= i < |ids| :: ids[i] < id
    ensures id == 1 || exists i | 0 <= i < |ids| :: ids[i] == id - 1
  {
    MaxFrom(0, ids) + 1
  }

  /** No two elements share an id. */
  predicate DistinctKeys<T>(s: seq<T>, key: T -> int) {
    forall i, j | 0 <= i < j < |s| :: key(s[i]) != key(s[j])
  }

  /** The selector `x => key(x) === id`. */
  function KeyIs<T>(key: T -> int, id: int): T -> bool {
    x => key(x) == id
  }

  /** The selector `x => key(x) !== id`. */
  function KeyIsNot<T>(key: T -> int, id: int): T -> bool {
    x => key(x) != id
  }

  /** The function that ignores its argument and gives `y`. */
  function Constant<T>(y: T): T -> T {
    _ => y
  }

  /** `s.map(x => key(x) === id ? y : x)`: every element with the id becomes `y`; the others
      stay where they are. */
  function ReplaceById<T>(s: seq<T>, key: T -> int, id: int, y: T): (r: seq<T>)
    ensures |r| == |s|
    ensures forall i | 0 <= i < |s| && key(s[i]) == id :: r[i] == y
    ensures forall i | 0 <= i < |s| && key(s[i]) != id :: r[i] == s[i]
  {
    MapWhere(s, KeyIs(key, id), Constant(y))
  }

  /** `s.filter(x => key(x) !== id)`: the elements without the id, and only those. */
  function RemoveById<T(==)>(s: seq<T>, key: T -> int, id: int): (r: seq<T>)
    ensures forall i | 0 <= i < |r| :: key(r[i]) != id && r[i] in s
    ensures forall i | 0 <= i < |s| && key(s[i]) != id :: s[i] in r
  {
    Filter(s, KeyIsNot(key, id))
  }

  /** Deleting keeps the other elements in their order and as often as they occur. */
  lemma RemoveByIdKeepsOthers<T>(s: seq<T>, key: T -> int, id: int)
    ensures IsSubsequence(RemoveById(s, key, id), s)
    ensures forall x :: multiset(RemoveById(s, key, id))[x] == if key(x) != id then multiset(s)[x] else 0
  {
    FilterIsSubsequence(s, KeyIsNot(key, id));
    forall x
      ensures multiset(RemoveById(s, key, id))[x] == if key(x) != id then multiset(s)[x] else 0
    {
      FilterCount(s, KeyIsNot(key, id), x);
    }
  }

  /** Appending an element under the next id keeps the ids distinct. */
  lemma AppendNextKeepsDistinct<T>(s: seq<T>, key: T -> int, y: T)
    requires DistinctKeys(s, key)
    requires key(y) == NextListId(Map(s, key))
    ensures DistinctKeys(s + [y], key)
  {
    var ids := Map(s, key);
    forall i, j | 0 <= i < j < |s + [y]|
      ensures key((s + [y])[i]) != key((s + [y])[j])
    {
      if j == |s| {
        assert ids[i] == key(s[i]);
      }
    }
  }

  /** Replacing by id with an element that carries the same id keeps every id in place. */
  lemma ReplaceByIdKeepsIds<T>(s: seq<T>, key: T -> int, id: int, y: T)
    requires key(y) == id
    ensures Map(ReplaceById(s, key, id, y), key) == Map(s, key)
    ensures DistinctKeys(s, key) ==> DistinctKeys(ReplaceById(s, key, id, y), key)
  {
    var r := ReplaceById(s, key, id, y);
    assert forall i | 0 <= i < |s| :: key(r[i]) == key(s[i]);
  }

  /** An element whose id no element of a distinct list has can go in front of it. */
  lemma ConsKeepsDistinct<T>(x: T, s: seq<T>, key: T -> int)
    requires DistinctKeys(s, key)
    requires forall k | 0 <= k < |s| :: key(s[k]) != key(x)
    ensures DistinctKeys([x] + s, key)
  {
    var r := [x] + s;
    forall i, j | 0 <= i < j < |r|
      ensures key(r[i]) != key(r[j])
    {
      assert r[j] == s[j - 1];
      if i > 0 {
        assert r[i] == s[i - 1];
      }
    }
  }

  /** Deleting by id keeps distinct ids distinct. */
  lemma {:induction false} RemoveByIdKeepsDistinct<T>(s: seq<T>, key: T -> int, id: int)
    requires DistinctKeys(s, key)
    ensures DistinctKeys(RemoveById(s, key, id), key)
  {
    if s != [] {
      var tail := s[1..];
      assert DistinctKeys(tail, key) by {
        forall i, j | 0 <= i < j < |tail|
          ensures key(tail[i]) != key(tail[j])
        {
          assert tail[i] == s[i + 1] && tail[j] == s[j + 1];
        }
      }
      RemoveByIdKeepsDistinct(tail, key, id);
      var rest := RemoveById(tail, key, id);
      assert RemoveById(s, key, id) == (if key(s[0]) != id then [s[0]] else []) + rest;
      if key(s[0]) != id {
        forall k | 0 <= k < |rest|
          ensures key(rest[k]) != key(s[0])
        {
          var t :| 0 <= t < |tail| && tail[t] == rest[k];
          assert tail[t] == s[t + 1];
        }
        ConsKeepsDistinct(s[0], rest, key);
      } else {
        assert [] + rest == rest;
      }
    }
  }

  /** One `[0-9A-F]{3}` group, case-insensitive, at the front of `s`. */
  predicate HexTriple(s: string) {
    |s| >= 3 && IsHexDigit(s[0]) && IsHexDigit(s[1]) && IsHexDigit(s[2])
  }

  /** `s` matches `([0-9A-F]{3}){lo,hi}` exactly: between `lo` and `hi` groups and nothing else. */
  predicate HexTriples(s: string, lo: nat, hi: nat)
    decreases |s|
  {
    if s == [] then lo == 0
    else hi > 0 && HexTriple(s) && HexTriples(s[3..], if lo > 0 then lo - 1 else 0, hi - 1)
  }

  /** The shape the expression accepts: `#` followed by exactly 3 or exactly 6 hex digits. */
  predicate HexColorShape(color: string) {
    (|color| == 4 || |color| == 7) && color[0] == '#'
    && forall i | 1 <= i < |color| :: IsHexDigit(color[i])
  }

  /** `([0-9A-F]{3}){1,2}` matches exactly the strings of 3 or 6 hex digits. */
  lemma HexTriplesOneOrTwo(s: string)
    ensures HexTriples(s, 1, 2) <==> (|s| == 3 || |s| == 6) && forall i | 0 <= i < |s| :: IsHexDigit(s[i])
  {
    if |s| >= 3 {
      var rest := s[3..];
      assert HexTriples(s, 1, 2) == (HexTriple(s) && HexTriples(rest, 0, 1));
      assert forall i | 0 <= i < |rest| :: rest[i] == s[i + 3];
      if |rest| >= 3 {
        assert HexTriples(rest, 0, 1) == (HexTriple(rest) && HexTriples(rest[3..], 0, 0));
        assert HexTriples(rest[3..], 0, 0) <==> |s| == 6;
      }
    }
  }

  /** `validateHexColor`: the regular expression `^#([0-9A-F]{3}){1,2}$` with the `i` flag, which
      accepts exactly `#` plus 3 or 6 hex digits. */
  predicate ValidateHexColor(color: string)
    ensures ValidateHexColor(color) <==> HexColorShape(color)
  {
    if |color| > 0 && color[0] == '#' then
      var body := color[1..];
      HexTriplesOneOrTwo(body);
      assert forall i | 0 <= i < |body| :: body[i] == color[i + 1];
      HexTriples(body, 1, 2)
    else false
  }

  /** A hex digit stays a hex digit when upper-cased, and only hex digits upper-case to one. */
  lemma UpperHexDigit(c: char)
    ensures IsHexDigit(UpperChar(c)) <==> IsHexDigit(c)
  {
  }

  /** The check ignores case, and the colour a screen stores (`warna.toUpperCase()`) still passes it
      and has no lower-case letters. */
  lemma UpperKeepsValid(color: string)
    ensures ValidateHexColor(ToUpper(color)) <==> ValidateHexColor(color)
    ensures forall i | 0 <= i < |color| :: !IsLowerAscii(ToUpper(color)[i])
  {
    var up := ToUpper(color);
    forall i | 0 <= i < |color|
      ensures IsHexDigit(up[i]) <==> IsHexDigit(color[i])
    {
      UpperHexDigit(color[i]);
    }
    if |color| > 0 {
      assert up[0] == '#' <==> color[0] == '#';
    }
  }
}
