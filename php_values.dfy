/** PHP values as the plugin handles them: decoded gateway responses, arrays
    built from XML, configuration values. A PHP array is ordered; it is kept
    here as a sequence of (key, value) entries. Keys are kept in string form:
    PHP folds the integer-like string "0" and the integer 0 into one key, so
    the string form loses nothing the plugin relies on. */
module Php {
  import opened Base

  datatype Value =
    | Null
    | Bool(b: bool)
    | Int(i: int)
    | Str(s: string)
    | Arr(entries: seq<(string, Value)>)

  type Entry = (string, Value)

  /** PHP's boolean conversion (`if ($v)`, `$v ? a : b`). */
  predicate Truthy(v: Value)
  {
    match v
    case Null => false
    case Bool(b) => b
    case Int(i) => i != 0
    case Str(s) => s != "" && s != "0"
    case Arr(es) => |es| > 0
  }

  /** PHP's string conversion, as `explode` and `.` apply it. */
  function ToPhpString(v: Value): string
  {
    match v
    case Null => ""
    case Bool(b) => if b then "1" else ""
    case Int(i) => IntString(i)
    case Str(s) => s
    case Arr(_) => "Array"
  }

  /** Position of the first entry with key `k`, or |es| when there is none
      (`FindFound` states what it finds). */
  function Find(es: seq<Entry>, k: string): (i: nat)
    ensures i <= |es|
  {
    if |es| == 0 then 0 else if es[0].0 == k then 0 else 1 + Find(es[1..], k)
  }

  /** `$es[$k]` when the key exists. */
  function Get(es: seq<Entry>, k: string): Option<Value>
  {
    var i := Find(es, k);
    if i < |es| then Some(es[i].1) else None
  }

  /** `isset($es[$k])`: the key exists and its value is not null. */
  predicate IsSet(es: seq<Entry>, k: string)
  {
    Get(es, k).Some? && Get(es, k).value != Null
  }

  /** Reading `$v[$k]`: a missing key, or a value that is not an array, reads as null. */
  function Index(v: Value, k: string): Value
  {
    if v.Arr? && Get(v.entries, k).Some? then Get(v.entries, k).value else Null
  }

  /** What `foreach ($v as $key => $val)` visits: nothing when `$v` is not an array. */
  function Entries(v: Value): seq<Entry>
  {
    if v.Arr? then v.entries else []
  }

  /** Keys are distinct, as in every PHP array. */
  predicate DistinctKeys(es: seq<Entry>)
  {
    forall i, j :: 0 <= i < j < |es| ==> es[i].0 != es[j].0
  }

  /** `Find` stops at the first entry with the key, and only there. */
  lemma {:induction false} FindFound(es: seq<Entry>, k: string)
    ensures Find(es, k) < |es| ==> es[Find(es, k)].0 == k
    ensures forall j :: 0 <= j < Find(es, k) ==> es[j].0 != k
    decreases |es|
  {
    if |es| > 0 && es[0].0 != k {
      FindFound(es[1..], k);
      forall j | 0 < j < Find(es, k) ensures es[j].0 != k {
        assert es[j] == es[1..][j - 1];
      }
    }
  }

  /** The characterisation in `FindFound` determines `Find`'s result. */
  lemma {:induction false} FindIs(es: seq<Entry>, k: string, i: nat)
    requires i <= |es|
    requires i < |es| ==> es[i].0 == k
    requires forall j :: 0 <= j < i ==> es[j].0 != k
    ensures Find(es, k) == i
    decreases |es|
  {
    if |es| > 0 && i > 0 {
      assert es[0].0 != k;
      forall j | 0 <= j < i - 1 ensures es[1..][j].0 != k {
        assert es[1..][j] == es[j + 1];
      }
      FindIs(es[1..], k, i - 1);
    }
  }

  /** `$es[$k] = $v`: an existing key keeps its position and takes the new
      value (last write wins); a new key is appended at the end. */
  function Put(es: seq<Entry>, k: string, v: Value): (r: seq<Entry>)
    ensures |r| == |es| || r == es + [(k, v)]
  {
    var i := Find(es, k);
    if i < |es| then es[i := (k, v)] else es + [(k, v)]
  }

  /** An assigned key reads back the assigned value. */
  lemma PutGet(es: seq<Entry>, k: string, v: Value)
    ensures Get(Put(es, k, v), k) == Some(v)
  {
    var i := Find(es, k);
    FindFound(es, k);
    if i < |es| {
      FindIs(es[i := (k, v)], k, i);
    } else {
      FindIs(es + [(k, v)], k, |es|);
    }
  }

  /** Assigning one key leaves every other key's value as it was. */
  lemma PutOther(es: seq<Entry>, k: string, v: Value, k': string)
    requires k' != k
    ensures Get(Put(es, k, v), k') == Get(es, k')
  {
    var r := Put(es, k, v);
    var g := Find(es, k');
    FindFound(es, k');
    FindFound(es, k);
    if g < |es| {
      FindIs(r, k', g);
    } else if Find(es, k) < |es| {
      FindIs(r, k', g);
    } else {
      FindIs(r, k', |r|);
    }
  }

  /** Assignment keeps the keys of an array distinct. */
  lemma PutDistinct(es: seq<Entry>, k: string, v: Value)
    requires DistinctKeys(es)
    ensures DistinctKeys(Put(es, k, v))
  {
    FindFound(es, k);
    var i := Find(es, k);
    if i == |es| {
      assert forall j :: 0 <= j < |es| ==> es[j].0 != k;
    }
  }

  /** Reading through a one-entry prefix. */
  lemma GetCons(e: Entry, rest: seq<Entry>, k: string)
    ensures Get([e] + rest, k) == if e.0 == k then Some(e.1) else Get(rest, k)
  {
    assert ([e] + rest)[1..] == rest;
  }

  /** `unset($es[$k])`: every entry with key `k` goes, the others keep their order. */
  function Remove(es: seq<Entry>, k: string): (r: seq<Entry>)
    ensures |r| <= |es|
  {
    if |es| == 0 then []
    else (if es[0].0 == k then [] else [es[0]]) + Remove(es[1..], k)
  }

  /** After `unset` the key is gone and every other key reads as before. */
  lemma {:induction false} RemoveGet(es: seq<Entry>, k: string, k': string)
    ensures Get(Remove(es, k), k') == if k' == k then None else Get(es, k')
    decreases |es|
  {
    if |es| > 0 {
      var tail := Remove(es[1..], k);
      RemoveGet(es[1..], k, k');
      GetCons(es[0], es[1..], k');
      assert es == [es[0]] + es[1..];
      if es[0].0 == k {
        assert Remove(es, k) == tail;
      } else {
        GetCons(es[0], tail, k');
      }
    }
  }

  /** `unset` keeps every entry whose key differs. */
  lemma {:induction false} RemoveKeeps(es: seq<Entry>, k: string, i: nat)
    requires i < |es| && es[i].0 != k
    ensures es[i] in Remove(es, k)
    decreases |es|
  {
    if i > 0 {
      RemoveKeeps(es[1..], k, i - 1);
    }
  }

  /** Removing a key undoes assigning it. */
  lemma {:induction false} RemovePut(es: seq<Entry>, k: string, v: Value)
    ensures Remove(Put(es, k, v), k) == Remove(es, k)
  {
    var i := Find(es, k);
    FindFound(es, k);
    if i < |es| {
      RemoveUpdate(es, i, k, v);
    } else {
      RemoveAppend(es, k, v);
    }
  }

  lemma {:induction false} RemoveUpdate(es: seq<Entry>, i: nat, k: string, v: Value)
    requires i < |es| && es[i].0 == k
    ensures Remove(es[i := (k, v)], k) == Remove(es, k)
    decreases |es|
  {
    var es' := es[i := (k, v)];
    if i > 0 {
      assert es'[1..] == es[1..][i - 1 := (k, v)];
      RemoveUpdate(es[1..], i - 1, k, v);
    } else {
      assert es'[1..] == es[1..];
    }
  }

  lemma {:induction false} RemoveAppend(es: seq<Entry>, k: string, v: Value)
    ensures Remove(es + [(k, v)], k) == Remove(es, k)
    decreases |es|
  {
    if |es| == 0 {
      assert Remove([(k, v)], k) == [] + Remove([], k);
    } else {
      assert (es + [(k, v)])[1..] == es[1..] + [(k, v)];
      RemoveAppend(es[1..], k, v);
    }
  }

  /** Entries assigned one after another, `$out[$k] = $v` for each pair in turn. */
  function PutAll(es: seq<Entry>, ps: seq<Entry>): seq<Entry>
    decreases |ps|
  {
    if |ps| == 0 then es else Put(PutAll(es, ps[..|ps| - 1]), ps[|ps| - 1].0, ps[|ps| - 1].1)
  }

  /** The value of the last pair with key `k`. */
  function LastPair(ps: seq<Entry>, k: string): Option<Value>
    decreases |ps|
  {
    if |ps| == 0 then None
    else if ps[|ps| - 1].0 == k then Some(ps[|ps| - 1].1)
    else LastPair(ps[..|ps| - 1], k)
  }

  lemma PutAllSnoc(es: seq<Entry>, ps: seq<Entry>, p: Entry)
    ensures PutAll(es, ps + [p]) == Put(PutAll(es, ps), p.0, p.1)
  {
    assert (ps + [p])[..|ps|] == ps;
  }

  /** Two runs of assignments one after the other are one run. */
  lemma {:induction false} PutAllAppend(es: seq<Entry>, ps: seq<Entry>, qs: seq<Entry>)
    ensures PutAll(PutAll(es, ps), qs) == PutAll(es, ps + qs)
    decreases |qs|
  {
    if |qs| > 0 {
      var init := qs[..|qs| - 1];
      var q := qs[|qs| - 1];
      PutAllAppend(es, ps, init);
      assert qs == init + [q];
      PutAllSnoc(PutAll(es, ps), init, q);
      assert ps + qs == (ps + init) + [q];
      PutAllSnoc(es, ps + init, q);
    } else {
      assert ps + qs == ps;
    }
  }

  /** After a run of assignments each key holds the value written last to it,
      or its earlier value when the run never wrote it. */
  lemma {:induction false} PutAllGet(es: seq<Entry>, ps: seq<Entry>, k: string)
    ensures Get(PutAll(es, ps), k) == if LastPair(ps, k).Some? then LastPair(ps, k) else Get(es, k)
    decreases |ps|
  {
    if |ps| > 0 {
      var init := ps[..|ps| - 1];
      var p := ps[|ps| - 1];
      PutAllGet(es, init, k);
      if p.0 != k {
        PutOther(PutAll(es, init), p.0, p.1, k);
      } else {
        PutGet(PutAll(es, init), p.0, p.1);
      }
    }
  }

  /** A run of assignments keeps keys distinct. */
  lemma {:induction false} PutAllDistinct(es: seq<Entry>, ps: seq<Entry>)
    requires DistinctKeys(es)
    ensures DistinctKeys(PutAll(es, ps))
    decreases |ps|
  {
    if |ps| > 0 {
      PutAllDistinct(es, ps[..|ps| - 1]);
      PutDistinct(PutAll(es, ps[..|ps| - 1]), ps[|ps| - 1].0, ps[|ps| - 1].1);
    }
  }

  /** Assigning pairs with distinct keys to an empty array yields exactly those
      pairs, in order. */
  lemma {:induction false} PutAllFresh(ps: seq<Entry>)
    requires DistinctKeys(ps)
    ensures PutAll([], ps) == ps
    decreases |ps|
  {
    if |ps| > 0 {
      var init := ps[..|ps| - 1];
      var p := ps[|ps| - 1];
      PutAllFresh(init);
      FindIs(init, p.0, |init|);
      assert init + [p] == ps;
    }
  }

  /** Nested assignment `$v[$p0][$p1]...[$pn] = $x`: a missing or null level
      becomes a new array; the other keys of every level are left alone. */
  function PutPath(v: Value, path: seq<string>, x: Value): (r: Value)
    ensures |path| > 0 ==> r.Arr?
    decreases |path|
  {
    if |path| == 0 then x
    else Arr(Put(Entries(v), path[0], PutPath(Index(v, path[0]), path[1..], x)))
  }

  /** Nested read `$v[$p0]...[$pn]` when every level exists. */
  function GetPath(v: Value, path: seq<string>): Option<Value>
    decreases |path|
  {
    if |path| == 0 then Some(v)
    else if v.Arr? && Get(v.entries, path[0]).Some? then GetPath(Get(v.entries, path[0]).value, path[1..])
    else None
  }

  /** A nested assignment can be read back. */
  lemma {:induction false} PutPathGet(v: Value, path: seq<string>, x: Value)
    ensures GetPath(PutPath(v, path, x), path) == Some(x)
    decreases |path|
  {
    if |path| > 0 {
      PutPathGet(Index(v, path[0]), path[1..], x);
      PutGet(Entries(v), path[0], PutPath(Index(v, path[0]), path[1..], x));
    }
  }

  /** A nested assignment leaves every other path of the same depth alone. */
  lemma {:induction false} PutPathOther(v: Value, p: seq<string>, x: Value, q: seq<string>)
    requires |p| == |q| && p != q
    ensures GetPath(PutPath(v, p, x), q) == GetPath(v, q)
    decreases |p|
  {
    var r := PutPath(v, p, x);
    var child := PutPath(Index(v, p[0]), p[1..], x);
    assert r.entries == Put(Entries(v), p[0], child);
    if p[0] != q[0] {
      PutOther(Entries(v), p[0], child, q[0]);
    } else {
      assert p[1..] != q[1..];
      PutGet(Entries(v), p[0], child);
      PutPathOther(Index(v, p[0]), p[1..], x, q[1..]);
    }
  }
}
