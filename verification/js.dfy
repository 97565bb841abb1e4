/** JavaScript values as `JSON.parse` produces them, plus `undefined`, and the
    handful of language operators the product normaliser is built from:
    optional property access (`v?.key`, `v?.[i]`), nullish coalescing (`??`),
    truthiness (`cond ? a : b`) and object spread (`{...a, ...b}`). */
module Js {

  /** A JavaScript value reachable from parsed JSON. Numbers are reals:
      `-0` is represented by `0.0`, which is falsy like `-0`; NaN cannot come
      out of JSON text, and a literal too large for a double (which would
      parse to an infinity) has no counterpart here. */
  datatype Json =
    | Undefined
    | Null
    | Bool(b: bool)
    | Num(n: real)
    | Str(s: string)
    | Arr(elems: seq<Json>)
    | Obj(fields: map<string, Json>)
  {
    /** `v == null`: the only two values that `??` and `?.` skip. */
    predicate Nullish() {
      Undefined? || Null?
    }

    /** `Boolean(v)`: the falsy values are undefined, null, false, 0 and "". */
    predicate Truthy() {
      match this
      case Undefined => false
      case Null => false
      case Bool(b) => b
      case Num(n) => n != 0.0
      case Str(s) => s != ""
      case Arr(_) => true
      case Obj(_) => true
    }

    /** `v?.key`. Only objects have own properties of the names the normaliser
        reads; on every other value, nullish or not, the access yields undefined. */
    function Get(key: string): Json {
      if Obj? && key in fields then fields[key] else Undefined
    }

    /** `v?.[i]`: an element of an array, a one-character string of a string,
        the property named by the decimal digits of `i` of an object, and
        undefined otherwise or out of range. */
    function At(i: nat): Json {
      if Arr? && i < |elems| then elems[i]
      else if Str? && i < |s| then Str([s[i]])
      else if Obj? && IndexKey(i) in fields then fields[IndexKey(i)]
      else Undefined
    }

    /** `this ?? other`: the chain is missing only when both sides are. */
    function OrElse(other: Json): (r: Json)
      ensures r.Nullish() <==> Nullish() && other.Nullish()
      ensures r == this || r == other
    {
      if Nullish() then other else this
    }
  }

  /** The property name an index denotes: `String(i)`, its decimal digits. */
  function IndexKey(i: nat): (key: string)
    ensures |key| >= 1 && forall c | c in key :: '0' <= c <= '9'
    ensures i < 10 ==> key == [('0' as int + i) as char]
  {
    if i < 10 then [('0' as int + i) as char] else IndexKey(i / 10) + IndexKey(i % 10)
  }

  /** `??` regroups freely: `(a ?? b) ?? c` and `a ?? (b ?? c)` agree, so the
      left-grouped chains of the source have the value of the right fold. */
  lemma OrElseAssociative(a: Json, b: Json, c: Json)
    ensures a.OrElse(b).OrElse(c) == a.OrElse(b.OrElse(c))
  {
  }

  /** The falsy values are exactly undefined, null, `false`, `0` and `""`;
      in particular a nullish value is never truthy. */
  lemma FalsyExactly(v: Json)
    ensures !v.Truthy() <==> v in {Undefined, Null, Bool(false), Num(0.0), Str("")}
    ensures v.Nullish() ==> !v.Truthy()
  {
  }

  /** The names of the own enumerable properties of `v`; only objects have any
      that matter to the normaliser (see `Spread`). */
  function OwnKeys(v: Json): set<string> {
    if v.Obj? then v.fields.Keys else {}
  }

  /** `{...target, ...src}`: every own property of `src` is copied over
      `target`, so on a shared key the value of `src` wins. */
  function Spread(target: map<string, Json>, src: Json): (r: map<string, Json>)
    ensures r.Keys == target.Keys + OwnKeys(src)
    ensures forall k | k in OwnKeys(src) :: r[k] == src.fields[k]
    ensures forall k | k in target && k !in OwnKeys(src) :: r[k] == target[k]
  {
    if src.Obj? then target + src.fields else target
  }

  /** Position of the first candidate that is neither null nor undefined,
      `|cands|` when there is none. */
  function FirstDefinedIndex(cands: seq<Json>): (k: nat)
    ensures k <= |cands|
    ensures forall j | 0 <= j < k :: cands[j].Nullish()
    ensures k < |cands| ==> !cands[k].Nullish()
  {
    if cands == [] || !cands[0].Nullish() then 0 else 1 + FirstDefinedIndex(cands[1..])
  }

  /** The value of the chain `c0 ?? c1 ?? ... ?? dflt`: the first candidate
      that is neither null nor undefined, whatever its truthiness, else `dflt`. */
  function FirstDefined(cands: seq<Json>, dflt: Json): (r: Json)
    ensures FirstDefinedIndex(cands) < |cands| ==> r == cands[FirstDefinedIndex(cands)]
    ensures FirstDefinedIndex(cands) == |cands| ==> r == dflt
  {
    if cands == [] then dflt else cands[0].OrElse(FirstDefined(cands[1..], dflt))
  }

  /** `a ?? dflt` is the chain of one candidate. */
  lemma ChainOfOne(a: Json, dflt: Json)
    ensures FirstDefined([a], dflt) == a.OrElse(dflt)
  {
    assert [a][1..] == [];
  }

  /** `a ?? b ?? dflt`, which JavaScript groups to the left. */
  lemma ChainOfTwo(a: Json, b: Json, dflt: Json)
    ensures FirstDefined([a, b], dflt) == a.OrElse(b).OrElse(dflt)
  {
    assert [a, b][1..] == [b];
    ChainOfOne(b, dflt);
  }

  /** `a ?? b ?? c ?? dflt`. */
  lemma ChainOfThree(a: Json, b: Json, c: Json, dflt: Json)
    ensures FirstDefined([a, b, c], dflt) == a.OrElse(b).OrElse(c).OrElse(dflt)
  {
    assert [a, b, c][1..] == [b, c];
    ChainOfTwo(b, c, dflt);
  }

  /** `a ?? b ?? c ?? d ?? dflt`. */
  lemma ChainOfFour(a: Json, b: Json, c: Json, d: Json, dflt: Json)
    ensures FirstDefined([a, b, c, d], dflt) == a.OrElse(b).OrElse(c).OrElse(d).OrElse(dflt)
  {
    assert [a, b, c, d][1..] == [b, c, d];
    ChainOfThree(b, c, d, dflt);
  }

  /** `a ?? b ?? c ?? d ?? e ?? dflt`. */
  lemma ChainOfFive(a: Json, b: Json, c: Json, d: Json, e: Json, dflt: Json)
    ensures FirstDefined([a, b, c, d, e], dflt) == a.OrElse(b).OrElse(c).OrElse(d).OrElse(e).OrElse(dflt)
  {
    assert [a, b, c, d, e][1..] == [b, c, d, e];
    ChainOfFour(b, c, d, e, dflt);
  }

  /** A defined candidate preceded only by nullish ones is the chain's value,
      even when it is falsy (`""`, `0`, `false`). */
  lemma DefinedCandidateWins(cands: seq<Json>, dflt: Json, i: nat)
    requires i < |cands| && !cands[i].Nullish()
    requires forall j | 0 <= j < i :: cands[j].Nullish()
    ensures FirstDefined(cands, dflt) == cands[i]
  {
  }
}
