/**
 * map.ts: tile coordinates, the string encoding `"x,y"` that keys the
 * point-keyed dictionaries, the dictionary `KeyMap` itself, and `GameMap`
 * with its seeded wall row and its bounds check.
 */
module Grid {
  import opened Wrappers

  /** A tile coordinate `{x, y}`; coordinates are integers. */
  datatype Point = Point(x: int, y: int)

  /** The inclusive rectangle `MAP_BOUNDS`. */
  datatype Bounds = Bounds(left: int, top: int, right: int, bottom: int)

  const MAP_BOUNDS := Bounds(0, 0, 10, 10)

  // ---------------------------------------------------------------------
  // The key encoding `${p.x},${p.y}`
  // ---------------------------------------------------------------------

  predicate IsDigit(c: char)
  {
    '0' <= c <= '9'
  }

  function DigitChar(d: int): (c: char)
    requires 0 <= d <= 9
    ensures IsDigit(c)
  {
    (48 + d) as char
  }

  function DigitValue(c: char): int
  {
    c as int - 48
  }

  /** Decimal digits of n, most significant first, with no leading zero. */
  function NatToString(n: nat): (s: string)
    ensures |s| >= 1
    ensures forall i :: 0 <= i < |s| ==> IsDigit(s[i])
    decreases n
  {
    if n < 10 then [DigitChar(n)] else NatToString(n / 10) + [DigitChar(n % 10)]
  }

  /** The text a template literal makes of an integer: a minus sign, then the digits. */
  function IntToString(i: int): (s: string)
    ensures |s| >= 1
    ensures forall k :: 0 <= k < |s| ==> s[k] != ','
  {
    if i < 0 then "-" + NatToString(-i) else NatToString(i)
  }

  /** The key under which `GameMap.tiles` stores a point: `"x,y"`. */
  function PointKey(p: Point): string
  {
    IntToString(p.x) + "," + IntToString(p.y)
  }

  // Reading a key back, used to show that the encoding loses nothing.

  function ParseNat(s: string): int
    decreases |s|
  {
    if s == [] then 0 else 10 * ParseNat(s[..|s| - 1]) + DigitValue(s[|s| - 1])
  }

  function ParseInt(s: string): int
  {
    if |s| > 0 && s[0] == '-' then -ParseNat(s[1..]) else ParseNat(s)
  }

  /** Position of the first comma of s, or |s| when there is none. */
  function CommaIndex(s: string): (i: nat)
    ensures i <= |s|
    ensures forall k :: 0 <= k < i ==> s[k] != ','
    ensures i < |s| ==> s[i] == ','
    decreases |s|
  {
    if s == [] || s[0] == ',' then 0 else 1 + CommaIndex(s[1..])
  }

  function ParseKey(s: string): Option<Point>
  {
    var i := CommaIndex(s);
    if i == |s| then None else Some(Point(ParseInt(s[..i]), ParseInt(s[i + 1..])))
  }

  lemma {:induction false} ParseNatRoundTrip(n: nat)
    ensures ParseNat(NatToString(n)) == n
    decreases n
  {
    if n >= 10 {
      var s := NatToString(n);
      assert s[..|s| - 1] == NatToString(n / 10);
      ParseNatRoundTrip(n / 10);
    }
  }

  lemma ParseIntRoundTrip(i: int)
    ensures ParseInt(IntToString(i)) == i
  {
    if i < 0 {
      var s := IntToString(i);
      assert s[1..] == NatToString(-i);
      ParseNatRoundTrip(-i);
    } else {
      ParseNatRoundTrip(i);
    }
  }

  /** Decoding a point's key gives the point back. */
  lemma ParseKeyRoundTrip(p: Point)
    ensures ParseKey(PointKey(p)) == Some(p)
  {
    var a, b := IntToString(p.x), IntToString(p.y);
    var s := PointKey(p);
    assert s == a + "," + b;
    var i := CommaIndex(s);
    assert s[|a|] == ',';
    assert s[..|a|] == a;
    assert i == |a|;
    assert s[..i] == a;
    assert s[i + 1..] == b;
    ParseIntRoundTrip(p.x);
    ParseIntRoundTrip(p.y);
  }

  /** Two points share a key exactly when they are the same point, so a
      `KeyMap` keyed by `PointKey` behaves as a dictionary over points. */
  lemma PointKeyInjective(p: Point, q: Point)
    ensures PointKey(p) == PointKey(q) <==> p == q
  {
    if PointKey(p) == PointKey(q) {
      ParseKeyRoundTrip(p);
      ParseKeyRoundTrip(q);
    }
  }

  // ---------------------------------------------------------------------
  // KeyMap: a JavaScript Map whose keys pass through `toStr`
  // ---------------------------------------------------------------------

  class KeyMap<K(!new), V> {
    const toStr: K -> string
    var entries: map<string, V>

    constructor (toStr: K -> string)
      ensures this.toStr == toStr && entries == map[]
    {
      this.toStr := toStr;
      entries := map[];
    }

    /** `has(key)`: some value is stored under the key's encoding. */
    function Has(key: K): bool
      reads this
    {
      toStr(key) in entries
    }

    /** `get(key)`: the value stored under the key's encoding, or absent.
        This is the definition; `Set` and `Delete` state what it returns. */
    function Get(key: K): Option<V>
      reads this
    {
      if toStr(key) in entries then Some(entries[toStr(key)]) else None
    }

    /** `set(key, value)`. */
    method Set(key: K, value: V)
      modifies this
      ensures entries == old(entries)[toStr(key) := value]
      ensures Get(key) == Some(value) && Has(key)
      ensures forall k :: toStr(k) != toStr(key) ==> Get(k) == old(Get(k))
    {
      entries := entries[toStr(key) := value];
    }

    /** `delete(key)`: reports whether an entry was there. */
    method Delete(key: K) returns (existed: bool)
      modifies this
      ensures existed == old(Has(key))
      ensures entries == old(entries) - {toStr(key)}
      ensures !Has(key)
      ensures forall k :: toStr(k) != toStr(key) ==> Get(k) == old(Get(k))
    {
      existed := toStr(key) in entries;
      entries := entries - {toStr(key)};
    }
  }

  /** The entries after `set(k, v)` for each k of ks in turn. */
  function SetAll<K, V>(m: map<string, V>, toStr: K -> string, ks: seq<K>, v: V): map<string, V>
    decreases |ks|
  {
    if ks == [] then m else SetAll(m, toStr, ks[..|ks| - 1], v)[toStr(ks[|ks| - 1]) := v]
  }

  /** Setting every key of ks adds exactly their encodings to the key set. */
  lemma {:induction false} SetAllKeys<K, V>(m: map<string, V>, toStr: K -> string, ks: seq<K>, v: V)
    ensures SetAll(m, toStr, ks, v).Keys == m.Keys + set k | k in ks :: toStr(k)
    decreases |ks|
  {
    if ks != [] {
      var init := ks[..|ks| - 1];
      SetAllKeys(m, toStr, init, v);
      assert ks == init + [ks[|ks| - 1]];
      assert (set k | k in ks :: toStr(k)) == (set k | k in init :: toStr(k)) + {toStr(ks[|ks| - 1])};
    }
  }

  /** Over point keys: after setting every point of ps to v, a point holds v
      when it is on ps and otherwise whatever it held before. */
  lemma {:induction false} SetAllPoints<V>(m: map<string, V>, ps: seq<Point>, v: V, q: Point)
    ensures PointKey(q) in SetAll(m, PointKey, ps, v) <==> q in ps || PointKey(q) in m
    ensures q in ps ==> SetAll(m, PointKey, ps, v)[PointKey(q)] == v
    ensures q !in ps && PointKey(q) in m ==> SetAll(m, PointKey, ps, v)[PointKey(q)] == m[PointKey(q)]
    decreases |ps|
  {
    if ps != [] {
      var init, last := ps[..|ps| - 1], ps[|ps| - 1];
      SetAllPoints(m, init, v, q);
      assert ps == init + [last];
      PointKeyInjective(q, last);
    }
  }

  // ---------------------------------------------------------------------
  // GameMap
  // ---------------------------------------------------------------------

  datatype TileType = Floor | Wall

  /** The points (5,7), (6,7), ... the constructor's loop has walled after n rounds. */
  function SeededWalls(n: nat): (ps: seq<Point>)
    ensures |ps| == n
    ensures forall i :: 0 <= i < n ==> ps[i] == Point(5 + i, 7)
  {
    seq(n, i => Point(5 + i, 7))
  }

  class GameMap {
    const tiles: KeyMap<Point, TileType>
    /** The `objects` dictionary input.ts writes walls into; map.ts does not declare it. */
    const objects: KeyMap<Point, TileType>

    ghost predicate Valid()
      reads this
    {
      tiles.toStr == PointKey && objects.toStr == PointKey && tiles != objects
    }

    /** A new map: the row (5,7)..(9,7) is wall, nothing else is set. */
    constructor ()
      ensures Valid() && fresh(tiles) && fresh(objects)
      ensures tiles.entries == SetAll(map[], PointKey, SeededWalls(5), Wall)
      ensures objects.entries == map[]
    {
      tiles := new KeyMap(PointKey);
      objects := new KeyMap(PointKey);
      new;
      for q := 5 to 10
        invariant tiles.entries == SetAll(map[], PointKey, SeededWalls(q - 5), Wall)
        invariant objects.entries == map[]
      {
        assert SeededWalls(q - 5 + 1) == SeededWalls(q - 5) + [Point(q, 7)];
        tiles.Set(Point(q, 7), Wall);
      }
    }

    /** `inBounds(p)`: p lies in MAP_BOUNDS, both ends included. */
    static function InBounds(p: Point): (r: bool)
      ensures r <==> 0 <= p.x <= 10 && 0 <= p.y <= 10
    {
      MAP_BOUNDS.left <= p.x && p.x <= MAP_BOUNDS.right
      && MAP_BOUNDS.top <= p.y && p.y <= MAP_BOUNDS.bottom
    }
  }

  /** A new map's tiles hold exactly (5,7)..(9,7), each as a wall. */
  lemma InitialWalls(p: Point)
    ensures var t := SetAll(map[], PointKey, SeededWalls(5), Wall);
      (PointKey(p) in t <==> 5 <= p.x <= 9 && p.y == 7)
      && (PointKey(p) in t ==> t[PointKey(p)] == Wall)
  {
    var ps := SeededWalls(5);
    SetAllPoints(map[], ps, Wall, p);
    if 5 <= p.x <= 9 && p.y == 7 {
      assert ps[p.x - 5] == p;
    }
  }

  /** The constructor's seed has no key besides those of the five wall points. */
  lemma InitialKeys()
    ensures SetAll(map[], PointKey, SeededWalls(5), Wall).Keys
         == set i | 5 <= i < 10 :: PointKey(Point(i, 7))
  {
    var ps := SeededWalls(5);
    SetAllKeys(map[], PointKey, ps, Wall);
    forall i | 5 <= i < 10
      ensures PointKey(Point(i, 7)) in (set k | k in ps :: PointKey(k))
    {
      assert ps[i - 5] == Point(i, 7);
    }
  }

  /** Every wall the constructor seeds is inside the map. */
  lemma InitialWallsInBounds()
    ensures forall p :: p in SeededWalls(5) ==> GameMap.InBounds(p)
  {
  }
}
