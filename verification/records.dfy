/** JavaScript object literals used as lookup tables (`Record<string, V>`). The entries are kept
    in source order; when a literal repeats a key, `Object.entries` lists that key once, at the
    place it was first written, with the value written last. */
module Records {
  import opened Wrappers
  import opened Collections

  function Keys<V>(es: seq<(string, V)>): (ks: seq<string>)
    ensures |ks| == |es|
    ensures forall i :: 0 <= i < |es| ==> ks[i] == es[i].0
  {
    seq(|es|, i requires 0 <= i < |es| => es[i].0)
  }

  /** The value written last for `k`. */
  function LastValue<V>(raw: seq<(string, V)>, k: string): V
    requires k in Keys(raw)
  {
    var n := |raw| - 1;
    if raw[n].0 == k then raw[n].1
    else
      assert Keys(raw) == Keys(raw[..n]) + [raw[n].0];
      LastValue(raw[..n], k)
  }

  /** Position of the first entry with key `k`. */
  function KeyIndex<V>(es: seq<(string, V)>, k: string): (i: nat)
    requires k in Keys(es)
    ensures i < |es| && es[i].0 == k
    ensures forall j :: 0 <= j < i ==> es[j].0 != k
  {
    if es[0].0 == k then 0
    else
      KeysTail(es, k);
      1 + KeyIndex(es[1..], k)
  }

  lemma KeysTail<V>(es: seq<(string, V)>, k: string)
    requires k in Keys(es) && es[0].0 != k
    ensures k in Keys(es[1..])
  {
    var i :| 0 <= i < |es| && Keys(es)[i] == k;
    assert Keys(es[1..])[i - 1] == k;
  }

  /** One assignment `obj[k] = v`: overwrite in place, or append a new key. */
  function Put<V>(es: seq<(string, V)>, k: string, v: V): (r: seq<(string, V)>)
    ensures Keys(r) == if k in Keys(es) then Keys(es) else Keys(es) + [k]
  {
    if k in Keys(es) then es[KeyIndex(es, k) := (k, v)] else es + [(k, v)]
  }

  lemma {:induction false} AppendNewConcat<T(!new)>(acc: seq<T>, s: seq<T>, t: seq<T>)
    requires NoDup(acc)
    ensures AppendNew(acc, s + t) == AppendNew(AppendNew(acc, s), t)
    decreases |s|
  {
    if |s| == 0 {
      assert s + t == t;
    } else {
      assert (s + t)[0] == s[0] && (s + t)[1..] == s[1..] + t;
      if s[0] in acc {
        AppendNewConcat(acc, s[1..], t);
      } else {
        AppendNewConcat(acc + [s[0]], s[1..], t);
      }
    }
  }

  /** The entries `Object.entries` reports for a literal written as `raw`. */
  function Collapse<V>(raw: seq<(string, V)>): (r: seq<(string, V)>)
    ensures Keys(r) == Distinct(Keys(raw))
    ensures forall i :: 0 <= i < |r| ==> r[i].0 in Keys(raw) && r[i].1 == LastValue(raw, r[i].0)
  {
    if |raw| == 0 then []
    else
      var n := |raw| - 1;
      var init := Collapse(raw[..n]);
      var (k, v) := raw[n];
      assert Keys(raw) == Keys(raw[..n]) + [k];
      AppendNewConcat([], Keys(raw[..n]), [k]);
      assert k in Keys(init) <==> k in Keys(raw[..n]);
      var r := Put(init, k, v);
      forall i | 0 <= i < |r| ensures r[i].0 in Keys(raw) && r[i].1 == LastValue(raw, r[i].0) {
        PutEntry(init, k, v, i);
        if r[i].0 != k {
          assert Keys(init)[i] == r[i].0;
        }
      }
      r
  }

  /** What `Put` leaves at position `i` of a table without repeated keys. */
  lemma PutEntry<V>(es: seq<(string, V)>, k: string, v: V, i: nat)
    requires NoDup(Keys(es)) && i < |Put(es, k, v)|
    ensures Put(es, k, v)[i].0 == k ==> Put(es, k, v)[i].1 == v
    ensures Put(es, k, v)[i].0 != k ==> i < |es| && Put(es, k, v)[i] == es[i]
  {
    if k in Keys(es) && i < |es| && i != KeyIndex(es, k) {
      assert Keys(es)[i] == es[i].0 && Keys(es)[KeyIndex(es, k)] == k;
    }
  }

  /** `obj[k]` for a key the table may lack: the first entry with that key. */
  function Lookup<V>(es: seq<(string, V)>, k: string): (r: Option<V>)
    ensures r.Some? <==> k in Keys(es)
    ensures r.Some? ==> es[KeyIndex(es, k)] == (k, r.value)
  {
    if k in Keys(es) then Some(es[KeyIndex(es, k)].1) else None
  }

  /** In a literal without repeated keys nothing moves. */
  lemma CollapseDistinct<V>(raw: seq<(string, V)>)
    requires NoDup(Keys(raw))
    ensures Keys(Collapse(raw)) == Keys(raw)
  {
    DistinctOfDistinct(Keys(raw));
  }
}
