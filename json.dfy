/** Values as Python holds them after `json.loads` or `yaml.safe_load`, with the
    two dictionary operations the compose builders use: item assignment `d[k] = v`
    and `d.update(other)`. */
module Json {
  import opened Wrappers

  /** A JSON/YAML value. Floating-point numbers are not modelled. An Object keeps its
      entries in insertion order, as a Python dict does. */
  datatype Json =
    | Null
    | Bool(b: bool)
    | Int(i: int)
    | Str(s: string)
    | Array(items: seq<Json>)
    | Object(fields: seq<(string, Json)>)

  type Fields = seq<(string, Json)>

  /** No key occurs twice: what every dict `json.loads` builds satisfies. */
  predicate DistinctKeys(f: Fields) {
    forall i, j :: 0 <= i < j < |f| ==> f[i].0 != f[j].0
  }

  /** Every object, at any depth, has distinct keys. */
  predicate WellFormed(j: Json)
    decreases j
  {
    match j
    case Array(items) => forall i :: 0 <= i < |items| ==> WellFormed(items[i])
    case Object(f) => DistinctKeys(f) && forall i :: 0 <= i < |f| ==> WellFormed(f[i].1)
    case _ => true
  }

  /** The parser `json.loads`, taken as an oracle: Failure carries the message of the
      JSONDecodeError it raises on malformed text; a value it returns is well formed. */
  type Parser = p: string -> Result<Json, string> | forall s :: p(s).Success? ==> WellFormed(p(s).value)
    witness (s: string) => Failure("")

  /** The nested mapping `{"external": True}` used for externally managed networks. */
  const External: Json := Object([("external", Bool(true))])

  /** `list(d.keys())`. */
  function Keys(f: Fields): (ks: seq<string>)
    ensures |ks| == |f|
    ensures forall i :: 0 <= i < |f| ==> ks[i] == f[i].0
  {
    seq(|f|, i requires 0 <= i < |f| => f[i].0)
  }

  /** `k in d`. */
  predicate HasKey(f: Fields, k: string)
    decreases |f|
  {
    f != [] && (f[|f| - 1].0 == k || HasKey(f[..|f| - 1], k))
  }

  /** `d.get(k)`: the value of the last entry under `k`, so that a repeated key reads
      as Python's dict reads it (the later assignment wins). */
  function Get(f: Fields, k: string): (r: Option<Json>)
    ensures r.Some? <==> HasKey(f, k)
    decreases |f|
  {
    if f == [] then None
    else if f[|f| - 1].0 == k then Some(f[|f| - 1].1)
    else Get(f[..|f| - 1], k)
  }

  lemma HasKeyAt(f: Fields, i: nat)
    requires i < |f|
    ensures HasKey(f, f[i].0)
    decreases |f|
  {
    if i < |f| - 1 {
      HasKeyAt(f[..|f| - 1], i);
    }
  }

  lemma GetSnoc(f: Fields, e: (string, Json), k: string)
    ensures Get(f + [e], k) == if e.0 == k then Some(e.1) else Get(f, k)
    ensures HasKey(f + [e], k) <==> e.0 == k || HasKey(f, k)
  {
    assert (f + [e])[..|f|] == f;
  }

  lemma {:induction false} GetCons(e: (string, Json), f: Fields, k: string)
    ensures Get([e] + f, k) == if HasKey(f, k) then Get(f, k) else if e.0 == k then Some(e.1) else None
    ensures HasKey([e] + f, k) <==> e.0 == k || HasKey(f, k)
    decreases |f|
  {
    if f == [] {
      assert [e] + f == [] + [e];
      GetSnoc([], e, k);
    } else {
      var init, last := f[..|f| - 1], f[|f| - 1];
      assert f == init + [last];
      assert [e] + f == ([e] + init) + [last];
      GetSnoc([e] + init, last, k);
      GetSnoc(init, last, k);
      GetCons(e, init, k);
    }
  }

  /** Overwrites the value of the last entry under `k`, which must exist. */
  function Replace(f: Fields, k: string, v: Json): (r: Fields)
    requires HasKey(f, k)
    ensures |r| == |f| && forall i :: 0 <= i < |f| ==> r[i].0 == f[i].0
    ensures Get(r, k) == Some(v)
    ensures forall k' :: k' != k ==> Get(r, k') == Get(f, k')
    ensures forall k' :: HasKey(r, k') <==> HasKey(f, k')
    decreases |f|
  {
    var init, last := f[..|f| - 1], f[|f| - 1];
    assert f == init + [last];
    if last.0 == k then
      assert forall k' :: Get(init + [(k, v)], k') == if k' == k then Some(v) else Get(f, k') by {
        forall k' ensures Get(init + [(k, v)], k') == if k' == k then Some(v) else Get(f, k') {
          GetSnoc(init, (k, v), k');
          GetSnoc(init, last, k');
        }
      }
      assert forall k' :: HasKey(init + [(k, v)], k') <==> HasKey(f, k') by {
        forall k' ensures HasKey(init + [(k, v)], k') <==> HasKey(f, k') {
          GetSnoc(init, (k, v), k');
          GetSnoc(init, last, k');
        }
      }
      init + [(k, v)]
    else
      var r := Replace(init, k, v) + [last];
      assert forall k' :: Get(r, k') == if k' == k then Some(v) else Get(f, k') by {
        forall k' ensures Get(r, k') == if k' == k then Some(v) else Get(f, k') {
          GetSnoc(Replace(init, k, v), last, k');
          GetSnoc(init, last, k');
        }
      }
      assert forall k' :: HasKey(r, k') <==> HasKey(f, k') by {
        forall k' ensures HasKey(r, k') <==> HasKey(f, k') {
          GetSnoc(Replace(init, k, v), last, k');
          GetSnoc(init, last, k');
        }
      }
      r
  }

  /** `d[k] = v`: an existing key keeps its position and takes the new value; a new key
      is appended at the end. */
  function Put(f: Fields, k: string, v: Json): (r: Fields)
    ensures |r| == if HasKey(f, k) then |f| else |f| + 1
    ensures forall i :: 0 <= i < |f| ==> r[i].0 == f[i].0
    ensures Get(r, k) == Some(v)
    ensures forall k' :: k' != k ==> Get(r, k') == Get(f, k')
    ensures forall k' :: HasKey(r, k') <==> k' == k || HasKey(f, k')
  {
    if HasKey(f, k) then Replace(f, k, v)
    else
      assert forall k' :: Get(f + [(k, v)], k') == if k' == k then Some(v) else Get(f, k') by {
        forall k' ensures Get(f + [(k, v)], k') == if k' == k then Some(v) else Get(f, k') {
          GetSnoc(f, (k, v), k');
        }
      }
      assert forall k' :: HasKey(f + [(k, v)], k') <==> k' == k || HasKey(f, k') by {
        forall k' ensures HasKey(f + [(k, v)], k') <==> k' == k || HasKey(f, k') {
          GetSnoc(f, (k, v), k');
        }
      }
      f + [(k, v)]
  }

  /** `d.update(o)`: the entries of `o` are assigned into `d` one by one, in order,
      so every key of `o` ends with `o`'s value (shallow, last wins) and every other
      key keeps the value it had. Keys already in `d` keep their positions. */
  function Update(f: Fields, o: Fields): (r: Fields)
    ensures forall k :: Get(r, k) == if HasKey(o, k) then Get(o, k) else Get(f, k)
    ensures |f| <= |r| && forall i :: 0 <= i < |f| ==> r[i].0 == f[i].0
    decreases |o|
  {
    if o == [] then f
    else
      var r := Update(Put(f, o[0].0, o[0].1), o[1..]);
      assert forall k :: Get(r, k) == if HasKey(o, k) then Get(o, k) else Get(f, k) by {
        forall k ensures Get(r, k) == if HasKey(o, k) then Get(o, k) else Get(f, k) {
          assert o == [o[0]] + o[1..];
          GetCons(o[0], o[1..], k);
        }
      }
      r
  }

  /** Updating with one more entry is assigning that entry afterwards. */
  lemma {:induction false} UpdateSnoc(f: Fields, o: Fields, e: (string, Json))
    ensures Update(f, o + [e]) == Put(Update(f, o), e.0, e.1)
    decreases |o|
  {
    if o == [] {
      assert ([] + [e])[1..] == [];
    } else {
      assert (o + [e])[1..] == o[1..] + [e];
      UpdateSnoc(Put(f, o[0].0, o[0].1), o[1..], e);
    }
  }

  /** With distinct keys no entry is hidden: each one is what its key reads. */
  lemma {:induction false} GetDistinct(f: Fields, i: nat)
    requires DistinctKeys(f) && i < |f|
    ensures Get(f, f[i].0) == Some(f[i].1)
    decreases |f|
  {
    if i < |f| - 1 {
      GetDistinct(f[..|f| - 1], i);
    }
  }
}
