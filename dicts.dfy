/** A Python `dict` with string keys, as a value: its key/value pairs and the
    order in which its keys were first inserted, which is the order that
    `list(d.keys())` and iteration over `d` produce. */
module Dicts {
  import opened Wrappers

  /** No element of `s` occurs twice. */
  ghost predicate NoDuplicates(s: seq<string>) {
    forall i, j :: 0 <= i < j < |s| ==> s[i] != s[j]
  }

  datatype Dict<V> = Dict(entries: map<string, V>, keys: seq<string>) {

    /** Every key appears exactly once in `keys`, and `keys` lists exactly the
        keys of `entries`. */
    ghost predicate Valid() {
      NoDuplicates(keys) && forall k :: k in keys <==> k in entries
    }

    /** `d[k] = v`: a new key goes to the end of the order; an existing key
        keeps its position and only its value is replaced. */
    function Set(k: string, v: V): Dict<V> {
      Dict(entries[k := v], if k in entries then keys else keys + [k])
    }
  }

  /** The empty dict `{}`. */
  function Empty<V>(): Dict<V> {
    Dict(map[], [])
  }

  /** The one-entry dict literal `{k: v}`. */
  function Singleton<V>(k: string, v: V): (d: Dict<V>)
    ensures d.Valid() && d.keys == [k] && k in d.entries && d.entries[k] == v
  {
    Empty<V>().Set(k, v)
  }

  /** Assignment keeps the invariant. */
  lemma SetValid<V>(d: Dict<V>, k: string, v: V)
    requires d.Valid()
    ensures d.Set(k, v).Valid()
  {
  }

  /** A dict that extends `acc` after `acc[k] = v` by the keys `rest` and
      the entries `extra` extends `acc` by the keys `[k] + rest` and the
      entries of `extra` together with `k`. */
  lemma SetThenAppend<V>(acc: Dict<V>, k: string, v: V, rest: seq<string>, extra: map<string, V>, d: Dict<V>)
    requires k !in acc.entries && k !in extra
    requires d.keys == acc.Set(k, v).keys + rest
    requires d.entries == acc.Set(k, v).entries + extra
    ensures d.keys == acc.keys + ([k] + rest)
    ensures d.entries == acc.entries + extra[k := v]
  {
  }

  /** Adding the entries of `m` to an empty map gives `m`. */
  lemma UnionWithEmpty<V>(m: map<string, V>)
    ensures map[] + m == m
  {
  }

  /** The tail of a sequence without duplicates has none, and does not hold
      the head. */
  lemma DropFirst(ks: seq<string>)
    requires ks != [] && NoDuplicates(ks)
    ensures NoDuplicates(ks[1..])
    ensures forall k :: k in ks[1..] ==> k in ks && k != ks[0]
  {
  }

  /** The dict that results from executing `d[k] = v` for every pair of
      `writes`, in order, starting from `{}`. */
  function Replay<V>(writes: seq<(string, V)>): Dict<V> {
    if writes == [] then Empty()
    else Replay(writes[..|writes| - 1]).Set(writes[|writes| - 1].0, writes[|writes| - 1].1)
  }

  /** The keys written by `writes`, in order, repeats included. */
  function KeysOf<V>(writes: seq<(string, V)>): seq<string> {
    if writes == [] then [] else KeysOf(writes[..|writes| - 1]) + [writes[|writes| - 1].0]
  }

  /** The `i`-th written key is the key of the `i`-th write. */
  lemma {:induction false} KeysOfAt<V>(writes: seq<(string, V)>)
    ensures |KeysOf(writes)| == |writes|
    ensures forall i :: 0 <= i < |writes| ==> KeysOf(writes)[i] == writes[i].0
  {
    if writes != [] {
      KeysOfAt(writes[..|writes| - 1]);
    }
  }

  /** `ks` without any occurrence of `k`. */
  function Without(ks: seq<string>, k: string): (r: seq<string>)
    ensures forall x :: x in r <==> x in ks && x != k
  {
    if ks == [] then []
    else if ks[0] == k then Without(ks[1..], k)
    else [ks[0]] + Without(ks[1..], k)
  }

  /** `ks` with every repeat dropped, keeping each element where it first
      occurs: the first element, then the first occurrences of the rest
      other than that element. */
  function FirstOccurrences(ks: seq<string>): seq<string> {
    if ks == [] then [] else [ks[0]] + Without(FirstOccurrences(ks[1..]), ks[0])
  }

  /** The value last written for `k` by `writes`, if any. */
  function LastWrite<V>(writes: seq<(string, V)>, k: string): Option<V> {
    if writes == [] then None
    else if writes[|writes| - 1].0 == k then Some(writes[|writes| - 1].1)
    else LastWrite(writes[..|writes| - 1], k)
  }

  /** Removing one element from a sequence and then appending another
      commutes with appending first. */
  lemma {:induction false} WithoutSnoc(ks: seq<string>, x: string, k: string)
    ensures Without(ks + [x], k) == if x == k then Without(ks, k) else Without(ks, k) + [x]
  {
    if ks != [] {
      assert (ks + [x])[1..] == ks[1..] + [x];
      WithoutSnoc(ks[1..], x, k);
    }
  }

  /** Dropping repeats keeps exactly the elements there were. */
  lemma {:induction false} FirstOccurrencesMembers(ks: seq<string>)
    ensures forall x :: x in FirstOccurrences(ks) <==> x in ks
  {
    if ks != [] {
      FirstOccurrencesMembers(ks[1..]);
      assert ks == [ks[0]] + ks[1..];
    }
  }

  /** Appending a key that already occurs changes nothing; appending a new
      one puts it last. */
  lemma {:induction false} FirstOccurrencesSnoc(ks: seq<string>, k: string)
    ensures FirstOccurrences(ks + [k]) == if k in ks then FirstOccurrences(ks) else FirstOccurrences(ks) + [k]
  {
    if ks == [] {
      assert FirstOccurrences([k]) == [k] + Without(FirstOccurrences([]), k);
    } else {
      var h, t := ks[0], ks[1..];
      assert ks == [h] + t;
      assert (ks + [k])[0] == h && (ks + [k])[1..] == t + [k];
      FirstOccurrencesSnoc(t, k);
      if k !in t {
        WithoutSnoc(FirstOccurrences(t), k, h);
      }
    }
  }

  /** Replaying a history of assignments from `{}` gives a valid dict whose
      keys are the written keys in the order of their FIRST write, each once. */
  lemma {:induction false} ReplayOrder<V>(writes: seq<(string, V)>)
    ensures Replay(writes).Valid()
    ensures Replay(writes).keys == FirstOccurrences(KeysOf(writes))
  {
    if writes != [] {
      var n := |writes|;
      var before, k, v := writes[..n - 1], writes[n - 1].0, writes[n - 1].1;
      var d := Replay(before);
      ReplayOrder(before);
      SetValid(d, k, v);
      FirstOccurrencesMembers(KeysOf(before));
      assert k in d.entries <==> k in KeysOf(before);
      assert KeysOf(writes) == KeysOf(before) + [k];
      FirstOccurrencesSnoc(KeysOf(before), k);
    }
  }

  /** Replaying a history of assignments from `{}` holds a key exactly when
      it was written, with the value written LAST: last write wins. */
  lemma {:induction false} ReplayValues<V>(writes: seq<(string, V)>, k: string)
    ensures k in Replay(writes).entries <==> LastWrite(writes, k).Some?
    ensures k in Replay(writes).entries ==> Replay(writes).entries[k] == LastWrite(writes, k).value
  {
    if writes != [] {
      ReplayValues(writes[..|writes| - 1], k);
    }
  }
}
