/**
 * The fragment of JavaScript's value semantics that the DID documents,
 * resolver replies and option objects of did-whisper go through:
 * truthiness, property reads (`v.k`, `v[i]`) that throw a TypeError on
 * `null` and `undefined`, and object spread (`{...target, ...source}`).
 * Objects list their keys in insertion order. JavaScript lists
 * array-index keys ("0", "1", ...) first, in ascending order; the model
 * does not, which only matters for objects that have such keys.
 */
module Js {
  import opened Wrappers

  datatype Value =
    | Undefined
    | Null
    | Bool(b: bool)
    | Num(n: int)
    | Str(s: string)
    | Arr(elems: seq<Value>)
    | Obj(props: seq<Property>)

  /** One own property of an object; an object lists them in insertion order. */
  datatype Property = Property(key: string, value: Value)

  /** JavaScript's `!!v`. */
  predicate Truthy(v: Value) {
    match v
    case Undefined => false
    case Null => false
    case Bool(b) => b
    case Num(n) => n != 0
    case Str(s) => s != ""
    case Arr(_) => true
    case Obj(_) => true
  }

  // ---------------------------------------------------------------------
  // Objects as ordered property lists

  function Keys(ps: seq<Property>): (ks: seq<string>)
    ensures |ks| == |ps|
    ensures forall i :: 0 <= i < |ps| ==> ks[i] == ps[i].key
  {
    if ps == [] then [] else [ps[0].key] + Keys(ps[1..])
  }

  /** No key occurs twice, as in every JavaScript object. */
  predicate Unique(ps: seq<Property>) {
    forall i, j :: 0 <= i < j < |ps| ==> ps[i].key != ps[j].key
  }

  /** The own property `k`, if the object has one. */
  function Lookup(ps: seq<Property>, k: string): Option<Value> {
    if ps == [] then None
    else if ps[0].key == k then Some(ps[0].value)
    else Lookup(ps[1..], k)
  }

  /** `o[k] = v`: an existing key keeps its position, a new key goes last (an array-index key would go first in JavaScript). */
  function Put(ps: seq<Property>, k: string, v: Value): seq<Property> {
    if ps == [] then [Property(k, v)]
    else if ps[0].key == k then [Property(k, v)] + ps[1..]
    else [ps[0]] + Put(ps[1..], k, v)
  }

  /** `{...target, ...source}`: the own properties of source assigned, in order, onto a copy of target. */
  function Spread(target: seq<Property>, source: seq<Property>): seq<Property>
    decreases |source|
  {
    if source == [] then target
    else Spread(Put(target, source[0].key, source[0].value), source[1..])
  }

  lemma {:induction false} LookupFound(ps: seq<Property>, k: string)
    ensures Lookup(ps, k).Some? <==> k in Keys(ps)
  {
    if ps != [] {
      LookupFound(ps[1..], k);
      assert Keys(ps) == [ps[0].key] + Keys(ps[1..]);
    }
  }

  lemma {:induction false} LookupPut(ps: seq<Property>, k: string, v: Value, q: string)
    ensures Lookup(Put(ps, k, v), q) == if q == k then Some(v) else Lookup(ps, q)
  {
    if ps != [] && ps[0].key != k {
      LookupPut(ps[1..], k, v, q);
    }
  }

  lemma {:induction false} KeysPut(ps: seq<Property>, k: string, v: Value)
    ensures Keys(Put(ps, k, v)) == if k in Keys(ps) then Keys(ps) else Keys(ps) + [k]
  {
    if ps != [] {
      if ps[0].key != k {
        KeysPut(ps[1..], k, v);
        assert Put(ps, k, v) == [ps[0]] + Put(ps[1..], k, v);
        assert Keys(Put(ps, k, v)) == [ps[0].key] + Keys(Put(ps[1..], k, v));
      }
    }
  }

  lemma PutUnique(ps: seq<Property>, k: string, v: Value)
    requires Unique(ps)
    ensures Unique(Put(ps, k, v))
  {
    KeysPut(ps, k, v);
    var r := Put(ps, k, v);
    forall i, j | 0 <= i < j < |r| ensures r[i].key != r[j].key {
      assert Keys(r)[i] == r[i].key && Keys(r)[j] == r[j].key;
      if j < |ps| {
        assert Keys(ps)[i] == ps[i].key && Keys(ps)[j] == ps[j].key;
      } else {
        assert Keys(ps)[i] == ps[i].key;
      }
    }
  }

  /** Spreading a source object: its own keys win, every other key reads as in target. */
  lemma {:induction false} LookupSpread(target: seq<Property>, source: seq<Property>, q: string)
    requires Unique(source)
    ensures Lookup(Spread(target, source), q)
         == if q in Keys(source) then Lookup(source, q) else Lookup(target, q)
    decreases |source|
  {
    if source != [] {
      var p, rest := source[0], source[1..];
      assert Unique(rest) by {
        forall i, j | 0 <= i < j < |rest| ensures rest[i].key != rest[j].key {
          assert rest[i] == source[i + 1] && rest[j] == source[j + 1];
        }
      }
      assert Keys(source) == [p.key] + Keys(rest);
      LookupSpread(Put(target, p.key, p.value), rest, q);
      LookupPut(target, p.key, p.value, q);
      if q == p.key {
        assert q !in Keys(rest) by {
          forall i | 0 <= i < |rest| ensures Keys(rest)[i] != q {
            assert rest[i] == source[i + 1];
          }
        }
      }
    }
  }

  /** Spreading never reorders or drops target's keys: they stay a prefix. */
  lemma {:induction false} SpreadKeepsTargetKeys(target: seq<Property>, source: seq<Property>)
    ensures Keys(target) <= Keys(Spread(target, source))
    decreases |source|
  {
    if source != [] {
      var t' := Put(target, source[0].key, source[0].value);
      KeysPut(target, source[0].key, source[0].value);
      SpreadKeepsTargetKeys(t', source[1..]);
    }
  }

  lemma {:induction false} SpreadUnique(target: seq<Property>, source: seq<Property>)
    requires Unique(target)
    ensures Unique(Spread(target, source))
    decreases |source|
  {
    if source != [] {
      PutUnique(target, source[0].key, source[0].value);
      SpreadUnique(Put(target, source[0].key, source[0].value), source[1..]);
    }
  }

  // ---------------------------------------------------------------------
  // Property reads

  /** A property access: `v.name` or `v[i]`. */
  datatype Step = Key(name: string) | Index(i: nat)

  /**
   * The value read by one access step; None when JavaScript throws a
   * TypeError, which it does exactly for `null` and `undefined`.
   */
  function Get(v: Value, step: Step): (r: Option<Value>)
    ensures r.None? <==> v.Undefined? || v.Null?
  {
    match v
    case Undefined => None
    case Null => None
    case Obj(ps) => Some(if step.Key? then Lookup(ps, step.name).GetOr(Undefined) else Undefined)
    case Arr(es) => Some(if step.Index? && step.i < |es| then es[step.i] else Undefined)
    case _ => Some(Undefined)
  }

  /** The value of an access chain `v.s0.s1...`; None when some step throws. */
  function Path(v: Value, steps: seq<Step>): Option<Value>
    decreases |steps|
  {
    if steps == [] then Some(v)
    else match Get(v, steps[0])
      case None => None
      case Some(w) => Path(w, steps[1..])
  }

  lemma {:induction false} PathAppend(v: Value, p: seq<Step>, q: seq<Step>)
    ensures Path(v, p + q) == match Path(v, p) case None => None case Some(w) => Path(w, q)
    decreases |p|
  {
    if p == [] {
      assert p + q == q;
    } else {
      assert (p + q)[0] == p[0] && (p + q)[1..] == p[1..] + q;
      match Get(v, p[0])
      case None =>
      case Some(w) => PathAppend(w, p[1..], q);
    }
  }
}
