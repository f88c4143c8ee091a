/** Python dictionaries as the sources use them: a list of key-value entries in insertion
    order, where storing under an existing key keeps that key's place. */
module OrderedDict {
  import opened Wrappers

  function KeysOf<V>(es: seq<(string, V)>): (r: seq<string>)
    ensures |r| == |es| && forall i | 0 <= i < |es| :: r[i] == es[i].0
  {
    if es == [] then [] else KeysOf(es[..|es| - 1]) + [es[|es| - 1].0]
  }

  /** A dictionary's entries: no key twice. */
  predicate UniqueKeys<V>(es: seq<(string, V)>) {
    forall i, j | 0 <= i < j < |es| :: es[i].0 != es[j].0
  }

  /** Where key `k` sits: its first position. */
  function Find<V>(es: seq<(string, V)>, k: string): (r: Option<nat>)
    ensures r.Some? ==> r.value < |es| && es[r.value].0 == k
  {
    if es == [] then None
    else if es[0].0 == k then Some(0)
    else
      var r := Find(es[1..], k);
      if r.None? then None else Some(r.value + 1)
  }

  /** `d.get(k)` */
  function Get<V>(es: seq<(string, V)>, k: string): Option<V> {
    match Find(es, k)
    case Some(i) => Some(es[i].1)
    case None => None
  }

  /** `d[k] = v`: an existing key keeps its place and takes the new value; a new key goes
      at the end. */
  function Put<V>(es: seq<(string, V)>, k: string, v: V): seq<(string, V)> {
    match Find(es, k)
    case Some(i) => es[i := (k, v)]
    case None => es + [(k, v)]
  }

  /** A key is found exactly when some entry has it, and then at its first entry. */
  lemma {:induction false} FindSpec<V>(es: seq<(string, V)>, k: string)
    ensures Find(es, k).None? <==> k !in KeysOf(es)
    ensures Find(es, k).Some? ==> forall j | 0 <= j < Find(es, k).value :: es[j].0 != k
  {
    if es != [] {
      FindSpec(es[1..], k);
      assert KeysOf(es) == [es[0].0] + KeysOf(es[1..]);
    }
  }

  /** `d[k] = v` keeps the keys in place and appends a new one. */
  lemma PutKeys<V>(es: seq<(string, V)>, k: string, v: V)
    ensures k in KeysOf(es) ==> KeysOf(Put(es, k, v)) == KeysOf(es)
    ensures k !in KeysOf(es) ==> KeysOf(Put(es, k, v)) == KeysOf(es) + [k]
  {
    FindSpec(es, k);
  }

  lemma {:induction false} FindByKeys<V>(es: seq<(string, V)>, fs: seq<(string, V)>, k: string)
    requires KeysOf(es) == KeysOf(fs)
    ensures Find(es, k) == Find(fs, k)
  {
    if es != [] {
      assert KeysOf(es[1..]) == KeysOf(es)[1..];
      assert KeysOf(fs[1..]) == KeysOf(fs)[1..];
      FindByKeys(es[1..], fs[1..], k);
    }
  }

  lemma {:induction false} FindAppend<V>(es: seq<(string, V)>, x: (string, V), k: string)
    ensures Find(es + [x], k) == if Find(es, k).Some? then Find(es, k) else if x.0 == k then Some(|es|) else None
  {
    if es != [] {
      assert (es + [x])[1..] == es[1..] + [x];
      FindAppend(es[1..], x, k);
    }
  }

  /** Reading back after `d[k] = v`: `v` at `k`, everything else as before. */
  lemma PutGet<V>(es: seq<(string, V)>, k: string, v: V, k': string)
    ensures Get(Put(es, k, v), k') == if k' == k then Some(v) else Get(es, k')
  {
    match Find(es, k)
    case Some(i) =>
      var r := es[i := (k, v)];
      assert KeysOf(r) == KeysOf(es);
      FindByKeys(r, es, k');
    case None =>
      FindAppend(es, (k, v), k');
  }

  /** With unique keys, the value found for an entry's key is that entry's value. */
  lemma {:induction false} GetEntry<V>(es: seq<(string, V)>, i: nat)
    requires UniqueKeys(es) && i < |es|
    ensures Get(es, es[i].0) == Some(es[i].1)
  {
    if i > 0 {
      assert es[0].0 != es[i].0;
      assert es[1..][i - 1] == es[i];
      GetEntry(es[1..], i - 1);
    }
  }

  /** Storing keeps keys unique. */
  lemma PutUnique<V>(es: seq<(string, V)>, k: string, v: V)
    requires UniqueKeys(es)
    ensures UniqueKeys(Put(es, k, v))
  {
    FindSpec(es, k);
    PutKeys(es, k, v);
    var r := Put(es, k, v);
    forall i, j | 0 <= i < j < |r| ensures r[i].0 != r[j].0 {
      assert KeysOf(r)[i] == r[i].0 && KeysOf(r)[j] == r[j].0;
      if j < |es| {
        assert KeysOf(es)[i] == es[i].0 && KeysOf(es)[j] == es[j].0;
      } else {
        assert KeysOf(es)[i] == es[i].0;
      }
    }
  }

  /** After `d[k] = v` every entry is the new one or the entry that was in its place. */
  lemma PutEntries<V>(es: seq<(string, V)>, k: string, v: V)
    ensures forall i | 0 <= i < |Put(es, k, v)| ::
              Put(es, k, v)[i] == (k, v) || (i < |es| && Put(es, k, v)[i] == es[i])
  {
  }

  /** The dictionary as a mapping from keys to values. */
  function ToMap<V>(es: seq<(string, V)>): map<string, V> {
    if es == [] then map[] else ToMap(es[..|es| - 1])[es[|es| - 1].0 := es[|es| - 1].1]
  }

  /** With unique keys, the mapping holds exactly the dictionary's keys, each with the
      value `get` returns. */
  lemma {:induction false} ToMapGet<V>(es: seq<(string, V)>, k: string)
    requires UniqueKeys(es)
    ensures k in ToMap(es) <==> Get(es, k).Some?
    ensures k in ToMap(es) ==> ToMap(es)[k] == Get(es, k).value
  {
    if es != [] {
      var init := es[..|es| - 1];
      var last := es[|es| - 1];
      assert es == init + [last];
      ToMapGet(init, k);
      FindAppend(init, last, k);
      if last.0 == k {
        FindSpec(init, k);
        assert forall i | 0 <= i < |init| :: init[i].0 != k by {
          forall i | 0 <= i < |init| ensures init[i].0 != k { assert es[i] == init[i]; }
        }
        assert k !in KeysOf(init);
      }
    }
  }

  /** `del d[k]`: the entries without key `k`, the rest in order. */
  function Remove<V>(es: seq<(string, V)>, k: string): seq<(string, V)> {
    if es == [] then [] else (if es[0].0 == k then [] else [es[0]]) + Remove(es[1..], k)
  }

  /** Looking up in a non-empty dictionary: its first entry, or the rest. */
  lemma GetCons<V>(es: seq<(string, V)>, k: string)
    requires es != []
    ensures Get(es, k) == if es[0].0 == k then Some(es[0].1) else Get(es[1..], k)
  {
  }

  /** After `del d[k]`, `k` is gone and every other key reads as before. */
  lemma {:induction false} RemoveGet<V>(es: seq<(string, V)>, k: string, k': string)
    ensures Get(Remove(es, k), k') == if k' == k then None else Get(es, k')
  {
    if es != [] {
      RemoveGet(es[1..], k, k');
      GetCons(es, k');
      var rest := Remove(es[1..], k);
      if es[0].0 != k {
        assert Remove(es, k) == [es[0]] + rest;
        GetCons([es[0]] + rest, k');
        assert ([es[0]] + rest)[1..] == rest;
      } else {
        assert Remove(es, k) == rest;
      }
    }
  }

  /** Deleting keeps keys unique. */
  lemma {:induction false} RemoveUnique<V>(es: seq<(string, V)>, k: string)
    requires UniqueKeys(es)
    ensures UniqueKeys(Remove(es, k))
    ensures forall i | 0 <= i < |Remove(es, k)| :: Remove(es, k)[i] in es
  {
    if es != [] {
      var rest := Remove(es[1..], k);
      RemoveUnique(es[1..], k);
      if es[0].0 != k {
        var r := [es[0]] + rest;
        assert Remove(es, k) == r;
        forall i, j | 0 <= i < j < |r| ensures r[i].0 != r[j].0 {
          if i == 0 {
            assert r[j] == rest[j - 1] && rest[j - 1] in es[1..];
          } else {
            assert r[i] == rest[i - 1] && r[j] == rest[j - 1];
          }
        }
      }
    }
  }
}
