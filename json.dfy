/** The JSON-like values the ventilation box's REST API returns, and the few
    Python operations on dicts and lists the integration applies to them.
    A dict keeps its entries in insertion order, as a Python dict does. */
module Json {
  import opened Text

  datatype Json =
    | JNull
    | JBool(b: bool)
    | JInt(i: int)
    | JReal(r: real)
    | JStr(s: string)
    | JList(items: seq<Json>)
    | JDict(entries: seq<Entry>)

  datatype Entry = Entry(key: Json, value: Json)

  /** A Python expression either yields a value or raises an exception. */
  datatype Result<T> = Ok(value: T) | Raised

  /** The keys of a dict as a sequence of string keys. */
  function Path(keys: seq<string>): (p: seq<Json>)
    ensures |p| == |keys|
    ensures forall i :: 0 <= i < |keys| ==> p[i] == JStr(keys[i])
  {
    seq(|keys|, i requires 0 <= i < |keys| => JStr(keys[i]))
  }

  // ---------------------------------------------------------------------------
  // Dicts
  // ---------------------------------------------------------------------------

  function Keys(entries: seq<Entry>): set<Json>
    decreases |entries|
  {
    if entries == [] then {} else {entries[0].key} + Keys(entries[1..])
  }

  lemma {:induction false} KeysAppend(entries: seq<Entry>, e: Entry)
    ensures Keys(entries + [e]) == Keys(entries) + {e.key}
    decreases |entries|
  {
    if entries != [] {
      assert (entries + [e])[1..] == entries[1..] + [e];
      KeysAppend(entries[1..], e);
    }
  }

  lemma {:induction false} HasIndex(entries: seq<Entry>, k: Json)
    ensures Has(entries, k) <==> exists i :: 0 <= i < |entries| && entries[i].key == k
    decreases |entries|
  {
    if entries != [] {
      HasIndex(entries[1..], k);
      if Has(entries[1..], k) {
        var i :| 0 <= i < |entries| - 1 && entries[1..][i].key == k;
        assert entries[i + 1].key == k;
      }
      if exists i :: 0 <= i < |entries| && entries[i].key == k {
        var i :| 0 <= i < |entries| && entries[i].key == k;
        if i > 0 {
          assert entries[1..][i - 1].key == k;
        }
      }
    }
  }

  predicate Has(entries: seq<Entry>, k: Json)
  {
    k in Keys(entries)
  }

  /** The keys in insertion order: what iterating over a dict yields. */
  function KeyList(entries: seq<Entry>): (ks: seq<Json>)
    ensures |ks| == |entries|
    ensures forall i :: 0 <= i < |entries| ==> ks[i] == entries[i].key
  {
    seq(|entries|, i requires 0 <= i < |entries| => entries[i].key)
  }

  /** d.get(k): the value stored under k, or None when k is absent. */
  function Get(entries: seq<Entry>, k: Json): (v: Json)
    ensures !Has(entries, k) ==> v == JNull
    decreases |entries|
  {
    if entries == [] then JNull
    else if entries[0].key == k then entries[0].value
    else Get(entries[1..], k)
  }

  /** d[k] = v: overwrite the entry for k where it stands, or append one. */
  function Assign(entries: seq<Entry>, k: Json, v: Json): (r: seq<Entry>)
    ensures Keys(r) == Keys(entries) + {k}
    ensures Get(r, k) == v
    ensures forall k' :: k' != k ==> Get(r, k') == Get(entries, k')
    ensures Has(entries, k) ==> |r| == |entries|
    ensures !Has(entries, k) ==> r == entries + [Entry(k, v)]
    decreases |entries|
  {
    if entries == [] then [Entry(k, v)]
    else if entries[0].key == k then [Entry(k, v)] + entries[1..]
    else [entries[0]] + Assign(entries[1..], k, v)
  }

  /** Looking a key up in a dict with one more entry at the end. */
  lemma {:induction false} GetAppend(entries: seq<Entry>, e: Entry, k: Json)
    ensures Get(entries + [e], k)
      == if Has(entries, k) then Get(entries, k) else if e.key == k then e.value else JNull
    decreases |entries|
  {
    if entries != [] {
      assert (entries + [e])[1..] == entries[1..] + [e];
      if entries[0].key != k {
        GetAppend(entries[1..], e, k);
        assert Has(entries, k) <==> Has(entries[1..], k);
      }
    }
  }

  /** {**a, **b}: a copy of a with every entry of b assigned in turn. */
  function Overlay(a: seq<Entry>, b: seq<Entry>): (r: seq<Entry>)
    ensures Keys(r) == Keys(a) + Keys(b)
    decreases |b|
  {
    if b == [] then a
    else
      var last := b[|b| - 1];
      KeysAppend(b[..|b| - 1], last);
      assert b[..|b| - 1] + [last] == b;
      Assign(Overlay(a, b[..|b| - 1]), last.key, last.value)
  }

  predicate DistinctKeys(entries: seq<Entry>)
  {
    forall i, j :: 0 <= i < j < |entries| ==> entries[i].key != entries[j].key
  }

  lemma DistinctKeysInit(b: seq<Entry>)
    requires b != [] && DistinctKeys(b)
    ensures DistinctKeys(b[..|b| - 1])
    ensures !Has(b[..|b| - 1], b[|b| - 1].key)
  {
    var init := b[..|b| - 1];
    forall i, j | 0 <= i < j < |init| ensures init[i].key != init[j].key {
      assert init[i] == b[i] && init[j] == b[j];
    }
    HasIndex(init, b[|b| - 1].key);
  }

  /** In {**a, **b} the entries of b win over those of a. */
  lemma {:induction false} OverlayGet(a: seq<Entry>, b: seq<Entry>, k: Json)
    requires DistinctKeys(b)
    ensures Get(Overlay(a, b), k) == if Has(b, k) then Get(b, k) else Get(a, k)
    decreases |b|
  {
    if b != [] {
      var init, last := b[..|b| - 1], b[|b| - 1];
      assert b == init + [last];
      DistinctKeysInit(b);
      var prev := Overlay(a, init);
      assert Overlay(a, b) == Assign(prev, last.key, last.value);
      OverlayGet(a, init, k);
      GetAppend(init, last, k);
      KeysAppend(init, last);
    }
  }

  // ---------------------------------------------------------------------------
  // Python semantics of values
  // ---------------------------------------------------------------------------

  /** bool(j): None, False, zero, and empty strings, lists and dicts are false. */
  predicate Truthy(j: Json)
  {
    match j
    case JNull => false
    case JBool(b) => b
    case JInt(i) => i != 0
    case JReal(r) => r != 0.0
    case JStr(s) => s != ""
    case JList(items) => items != []
    case JDict(entries) => entries != []
  }

  /** The Python expression `a or b`. */
  function Or(a: Json, b: Json): Json
  {
    if Truthy(a) then a else b
  }

  /** Lists and dicts cannot be dict keys; using one raises TypeError. */
  predicate Hashable(j: Json)
  {
    !j.JList? && !j.JDict?
  }

  /** `for x in j`: a list yields its items, a dict its keys, a string its
      characters; iterating anything else raises TypeError. */
  function Iterate(j: Json): (r: Result<seq<Json>>)
    ensures r.Raised? <==> !(j.JList? || j.JDict? || j.JStr?)
    ensures j.JList? ==> r == Ok(j.items)
    ensures j.JDict? ==> r.Ok? && |r.value| == |j.entries| && forall i :: 0 <= i < |j.entries| ==> r.value[i] == j.entries[i].key
    ensures j.JStr? ==> r.Ok? && |r.value| == |j.s| && forall i :: 0 <= i < |j.s| ==> r.value[i] == JStr([j.s[i]])
  {
    match j
    case JList(items) => Ok(items)
    case JDict(entries) => Ok(KeyList(entries))
    case JStr(s) => Ok(seq(|s|, i requires 0 <= i < |s| => JStr([s[i]])))
    case _ => Raised
  }

  /** j[k] for a string key k: a dict holding k yields its value; a dict
      without k raises KeyError, and every other value raises TypeError. */
  function Subscript(j: Json, k: string): (r: Result<Json>)
    ensures r.Ok? <==> j.JDict? && Has(j.entries, JStr(k))
  {
    if j.JDict? && Has(j.entries, JStr(k)) then Ok(Get(j.entries, JStr(k))) else Raised
  }

  /** j.get(k, default): only dicts have the method. */
  function GetOr(j: Json, k: string, default: Json): (r: Result<Json>)
    ensures r.Ok? <==> j.JDict?
  {
    if j.JDict? then Ok(if Has(j.entries, JStr(k)) then Get(j.entries, JStr(k)) else default)
    else Raised
  }

  /** str(j) as an f-string renders it. Floats, lists and dicts render as a
      fixed placeholder: the model does not reproduce Python's repr of them. */
  function Show(j: Json): (r: string)
    ensures j.JInt? ==> ParseDecimal(r) == Some(j.i)
    ensures j.JStr? ==> r == j.s
    ensures j.JNull? || j.JBool? ==> r in {"None", "True", "False"}
  {
    match j
    case JNull => "None"
    case JBool(b) => if b then "True" else "False"
    case JInt(i) => DecimalRoundTrip(i); Decimal(i)
    case JStr(s) => s
    case JReal(_) => "<float>"
    case JList(_) => "<list>"
    case JDict(_) => "<dict>"
  }
}
