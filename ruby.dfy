/**
 * The slice of Ruby's runtime that the plugin's code depends on: values as they
 * arrive from the pipeline configuration, ordered hashes whose keys are either
 * strings or symbols, truthiness, and the exceptions the modelled code raises.
 *
 * A Ruby Hash is an ordered association list. Ruby never stores a key twice;
 * every operation below that builds a hash keeps it duplicate-free, and on
 * duplicate-free lists each operation agrees with its Ruby counterpart.
 */
module Ruby {

  datatype Option<T> = None | Some(value: T)

  /** The exceptions the modelled code can raise. */
  datatype Error =
    | ConfigurationError(message: string)  // LogStash::ConfigurationError
    | TypeError                            // String + nil, a regexp matched against a non-String, ...
    | NoMethodError                        // `[]` sent to true or to a Float
    | NameError                            // a reference to an undefined constant

  datatype Result<T> = Ok(value: T) | Err(error: Error)

  /** Hash keys: the configuration produces string keys, `to_sym` turns them into symbols. */
  datatype Key = StringKey(name: string) | SymbolKey(name: string)

  datatype Value =
    | Nil
    | Bool(b: bool)
    | Int(i: int)
    | Float(r: real)
    | Str(s: string)
    | Array(items: seq<Value>)
    | Hash(entries: seq<(Key, Value)>)

  type Dict = seq<(Key, Value)>

  /** Only nil and false are falsy in Ruby. */
  predicate Truthy(v: Value) {
    v != Nil && v != Bool(false)
  }

  /** The value stored under k (the first entry with that key). */
  function Get(d: Dict, k: Key): Option<Value> {
    if d == [] then None
    else if d[0].0 == k then Some(d[0].1)
    else Get(d[1..], k)
  }

  /** `h.key?(k)`. */
  predicate HasKey(d: Dict, k: Key) {
    Get(d, k).Some?
  }

  /** No key occurs twice, as in every Ruby Hash. */
  predicate Distinct(d: Dict) {
    d == [] || (!HasKey(d[1..], d[0].0) && Distinct(d[1..]))
  }

  /** `h[k]`: nil when the key is absent. */
  function Fetch(d: Dict, k: Key): Value {
    match Get(d, k)
    case None => Nil
    case Some(v) => v
  }

  /** `h[k] = v`: an existing key keeps its position, a new key goes to the end. */
  function Put(d: Dict, k: Key, v: Value): (r: Dict)
    ensures forall j :: Get(r, j) == if j == k then Some(v) else Get(d, j)
    ensures |r| == if HasKey(d, k) then |d| else |d| + 1
    ensures forall i :: 0 <= i < |d| ==> r[i].0 == d[i].0
    ensures !HasKey(d, k) ==> r[|d|] == (k, v)
  {
    if d == [] then [(k, v)]
    else if d[0].0 == k then [(k, v)] + d[1..]
    else [d[0]] + Put(d[1..], k, v)
  }

  /** `h.delete(k)`: the hash without the entry for k. */
  function Delete(d: Dict, k: Key): (r: Dict)
    ensures forall j :: Get(r, j) == if j == k then None else Get(d, j)
    ensures forall i :: 0 <= i < |r| ==> r[i].0 != k
  {
    if d == [] then []
    else if d[0].0 == k then Delete(d[1..], k)
    else [d[0]] + Delete(d[1..], k)
  }

  /** The value of the LAST pair with key k. */
  function LastValue(ps: seq<(Key, Value)>, k: Key): Option<Value> {
    if ps == [] then None
    else
      var later := LastValue(ps[1..], k);
      if later.Some? then later
      else if ps[0].0 == k then Some(ps[0].1)
      else None
  }

  /** Stores the pairs into acc one after the other, so a later pair overwrites an earlier one. */
  function StorePairs(acc: Dict, ps: seq<(Key, Value)>): (r: Dict)
    ensures forall k :: Get(r, k) == if LastValue(ps, k).Some? then LastValue(ps, k) else Get(acc, k)
    decreases ps
  {
    if ps == [] then acc
    else StorePairs(Put(acc, ps[0].0, ps[0].1), ps[1..])
  }

  lemma {:induction false} PutKeepsDistinct(d: Dict, k: Key, v: Value)
    requires Distinct(d)
    ensures Distinct(Put(d, k, v))
  {
    if d != [] && d[0].0 != k {
      PutKeepsDistinct(d[1..], k, v);
    }
  }

  lemma {:induction false} DeleteKeepsDistinct(d: Dict, k: Key)
    requires Distinct(d)
    ensures Distinct(Delete(d, k))
  {
    if d != [] {
      DeleteKeepsDistinct(d[1..], k);
    }
  }

  lemma {:induction false} StorePairsKeepsDistinct(acc: Dict, ps: seq<(Key, Value)>)
    requires Distinct(acc)
    ensures Distinct(StorePairs(acc, ps))
    decreases ps
  {
    if ps != [] {
      PutKeepsDistinct(acc, ps[0].0, ps[0].1);
      StorePairsKeepsDistinct(Put(acc, ps[0].0, ps[0].1), ps[1..]);
    }
  }

  /** `Hash[pairs]`. */
  function FromPairs(ps: seq<(Key, Value)>): (r: Dict)
    ensures forall k :: Get(r, k) == LastValue(ps, k)
    ensures Distinct(r)
  {
    StorePairsKeepsDistinct([], ps);
    StorePairs([], ps)
  }

  /** The value of the last entry whose key, string or symbol, is spelt n. */
  function LastNamed(d: Dict, n: string): Option<Value> {
    if d == [] then None
    else
      var later := LastNamed(d[1..], n);
      if later.Some? then later
      else if d[0].0.name == n then Some(d[0].1)
      else None
  }

  /** Each key converted with `to_sym` (symbols = true) or with `to_s` (symbols = false). */
  function Rekeyed(d: Dict, symbols: bool): seq<(Key, Value)> {
    if d == [] then []
    else
      var (k, v) := d[0];
      [(if symbols then SymbolKey(k.name) else StringKey(k.name), v)] + Rekeyed(d[1..], symbols)
  }

  lemma {:induction false} LastValueRekeyed(d: Dict, symbols: bool, k: Key)
    ensures LastValue(Rekeyed(d, symbols), k) == if k.SymbolKey? == symbols then LastNamed(d, k.name) else None
  {
    if d != [] {
      assert Rekeyed(d, symbols)[1..] == Rekeyed(d[1..], symbols);
      LastValueRekeyed(d[1..], symbols, k);
    }
  }

  /** `Hash[h.map { |k, v| [k.to_sym, v] }]`: only symbol keys remain, and when two keys
      are spelt alike the later entry wins. */
  function Symbolize(d: Dict): (r: Dict)
    ensures forall k :: Get(r, k) == if k.SymbolKey? then LastNamed(d, k.name) else None
    ensures Distinct(r)
  {
    var ps := Rekeyed(d, true);
    assert forall k :: LastValue(ps, k) == if k.SymbolKey? then LastNamed(d, k.name) else None by {
      forall k ensures LastValue(ps, k) == if k.SymbolKey? then LastNamed(d, k.name) else None {
        LastValueRekeyed(d, true, k);
      }
    }
    FromPairs(ps)
  }

  /** `Hash[h.map { |k, v| [k.to_sym, v] }][k.to_sym]`: what the symbolised hash holds
      under a name. */
  lemma FetchSymbolized(d: Dict, n: string)
    ensures Get(Symbolize(d), SymbolKey(n)) == LastNamed(d, n)
    ensures Fetch(Symbolize(d), SymbolKey(n)) == match LastNamed(d, n) case None => Nil case Some(v) => v
  {
    assert Get(Symbolize(d), SymbolKey(n)) == LastNamed(d, n);
  }

  /** `Hash[h.map { |k, v| [k.to_s, v] }]`: only string keys remain, the later entry wins. */
  function Stringify(d: Dict): (r: Dict)
    ensures forall k :: Get(r, k) == if k.StringKey? then LastNamed(d, k.name) else None
    ensures Distinct(r)
  {
    var ps := Rekeyed(d, false);
    assert forall k :: LastValue(ps, k) == if k.StringKey? then LastNamed(d, k.name) else None by {
      forall k ensures LastValue(ps, k) == if k.StringKey? then LastNamed(d, k.name) else None {
        LastValueRekeyed(d, false, k);
      }
    }
    FromPairs(ps)
  }

  /** Storing under k does not change what is stored under the other spellings. */
  lemma {:induction false} LastNamedPutOther(d: Dict, k: Key, v: Value, n: string)
    requires n != k.name
    ensures LastNamed(Put(d, k, v), n) == LastNamed(d, n)
  {
    if d != [] && d[0].0 != k {
      assert Put(d, k, v)[1..] == Put(d[1..], k, v);
      LastNamedPutOther(d[1..], k, v, n);
    }
  }

  /** In a hash where k is the only key spelt k.name, storing v under k makes v the
      value of that spelling. */
  lemma {:induction false} LastNamedPutSame(d: Dict, k: Key, v: Value)
    requires Distinct(d)
    requires forall j: Key :: j.name == k.name && j != k ==> !HasKey(d, j)
    ensures LastNamed(Put(d, k, v), k.name) == Some(v)
  {
    if d == [] {
    } else if d[0].0 == k {
      LastNamedAbsent(d[1..], k);
    } else {
      assert Put(d, k, v)[1..] == Put(d[1..], k, v);
      LastNamedPutSame(d[1..], k, v);
    }
  }

  /** No entry is spelt like k once k and its other spelling are both absent. */
  lemma {:induction false} LastNamedAbsent(d: Dict, k: Key)
    requires forall j: Key :: j.name == k.name ==> !HasKey(d, j)
    ensures LastNamed(d, k.name) == None
  {
    if d != [] {
      assert d[0].0.name != k.name by { assert HasKey(d, d[0].0); }
      assert forall j: Key :: HasKey(d[1..], j) ==> HasKey(d, j);
      LastNamedAbsent(d[1..], k);
    }
  }

  /** `s.start_with?(p)`. */
  predicate StartsWith(s: string, p: string) {
    |p| <= |s| && s[..|p|] == p
  }

  /** `s.end_with?(p)`. */
  predicate EndsWith(s: string, p: string) {
    |p| <= |s| && s[|s| - |p|..] == p
  }

  /** `s.include?(t)`. */
  predicate Contains(s: string, t: string)
    decreases |s|
  {
    StartsWith(s, t) || (|s| > 0 && Contains(s[1..], t))
  }

  /** `recv[k]` for the receivers a configuration value can be: a Hash looks the key up,
      a String given a String returns that string when it occurs in it and nil otherwise,
      and every other receiver raises. */
  function Index(recv: Value, k: Key): (r: Result<Value>)
    ensures recv.Hash? ==> r == Ok(Fetch(recv.entries, k))
    ensures recv.Str? && k.StringKey? ==> r == Ok(if Contains(recv.s, k.name) then Str(k.name) else Nil)
    ensures r.Ok? <==> recv.Hash? || (recv.Str? && k.StringKey?)
  {
    match recv
    case Hash(d) => Ok(Fetch(d, k))
    case Str(s) =>
      if k.SymbolKey? then Err(TypeError)          // no implicit conversion of Symbol into Integer
      else if Contains(s, k.name) then Ok(Str(k.name))
      else Ok(Nil)
    case Int(_) => Err(TypeError)                  // Integer#[] wants a bit index
    case Array(_) => Err(TypeError)                // Array#[] wants an index
    case _ => Err(NoMethodError)                   // nil, true, false and Floats have no []
  }
}
