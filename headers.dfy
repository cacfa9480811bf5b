/**
 * The UPnP header collection (UpnpHeaders): a multi-valued mapping from header
 * name to the values added under it, in the order they were added, with names
 * compared case-insensitively. Iteration yields one entry per name, in the
 * order the names were first added.
 */
module Headers {
  import opened Wrappers

  /** One header line, as (name, value). */
  type Pair = (string, string)

  /** A header name with every value added under it. */
  datatype Entry = Entry(name: string, values: seq<string>)

  const USER_AGENT := "User-Agent"
  const CONTENT_TYPE := "Content-Type"
  const CONTENT_LENGTH := "Content-Length"

  function LowerChar(c: char): char {
    if 'A' <= c <= 'Z' then (c as int + 32) as char else c
  }

  /** The case-insensitive identity of a header name (ASCII case folding). */
  function Key(name: string): (k: string)
    ensures |k| == |name|
    ensures forall i :: 0 <= i < |name| ==> k[i] == LowerChar(name[i])
  {
    seq(|name|, i requires 0 <= i < |name| => LowerChar(name[i]))
  }

  /** The lower-case spellings the Jetty client writes name the same headers. */
  lemma LowerCaseSpellings()
    ensures Key("content-type") == Key(CONTENT_TYPE)
    ensures Key("content-length") == Key(CONTENT_LENGTH)
  {
  }

  /** Some entry is stored under key k. */
  predicate HasKey(es: seq<Entry>, k: string) {
    es != [] && (Key(es[0].name) == k || HasKey(es[1..], k))
  }

  /** The collection's own invariant: no name twice, and no name without a value. */
  ghost predicate WellFormed(es: seq<Entry>) {
    es == [] || (|es[0].values| > 0 && !HasKey(es[1..], Key(es[0].name)) && WellFormed(es[1..]))
  }

  /** Every value stored under key k, in order. */
  function ValuesOf(es: seq<Entry>, k: string): seq<string> {
    if es == [] then [] else (if Key(es[0].name) == k then es[0].values else []) + ValuesOf(es[1..], k)
  }

  /** The first value stored under a name (what a getFirstHeader lookup sees), or null. */
  function FirstValue(es: seq<Entry>, name: string): (r: Option<string>)
    ensures r.Some? <==> ValuesOf(es, Key(name)) != []
    ensures r.Some? ==> r.value == ValuesOf(es, Key(name))[0]
  {
    var vs := ValuesOf(es, Key(name));
    if vs == [] then None else Some(vs[0])
  }

  /** The collection after add(name, value): the value joins the entry of that name, or opens a new last entry. */
  function Added(es: seq<Entry>, name: string, value: string): seq<Entry> {
    if es == [] then [Entry(name, [value])]
    else if Key(es[0].name) == Key(name) then [es[0].(values := es[0].values + [value])] + es[1..]
    else [es[0]] + Added(es[1..], name, value)
  }

  /** The collection after one add per pair, in order. */
  function AddedAll(es: seq<Entry>, ps: seq<Pair>): seq<Entry>
    decreases |ps|
  {
    if ps == [] then es else AddedAll(Added(es, ps[0].0, ps[0].1), ps[1..])
  }

  /** The lines of one entry: its name with each of its values, in order. */
  function PairsOf(e: Entry): seq<Pair> {
    seq(|e.values|, i requires 0 <= i < |e.values| => (e.name, e.values[i]))
  }

  /** The lines of a collection in iteration order: every value of every entry, duplicates included. */
  function Flatten(es: seq<Entry>): seq<Pair> {
    if es == [] then [] else PairsOf(es[0]) + Flatten(es[1..])
  }

  /** The values of the lines whose name has key k, in order. */
  function Select(ps: seq<Pair>, k: string): seq<string> {
    if ps == [] then [] else (if Key(ps[0].0) == k then [ps[0].1] else []) + Select(ps[1..], k)
  }

  /** The last value of the lines named k (how an HTTP library's headers[name] lookup answers), or null. */
  function LastValue(ps: seq<Pair>, k: string): (r: Option<string>)
    ensures r.Some? <==> Select(ps, k) != []
    ensures r.Some? ==> r.value == Select(ps, k)[|Select(ps, k)| - 1]
  {
    var vs := Select(ps, k);
    if vs == [] then None else Some(vs[|vs| - 1])
  }

  lemma {:induction false} SelectAppend(a: seq<Pair>, b: seq<Pair>, k: string)
    ensures Select(a + b, k) == Select(a, k) + Select(b, k)
  {
    if a == [] {
      assert a + b == b;
    } else {
      assert (a + b)[1..] == a[1..] + b;
      SelectAppend(a[1..], b, k);
    }
  }

  lemma {:induction false} SelectPairsOf(e: Entry, k: string)
    ensures Select(PairsOf(e), k) == if Key(e.name) == k then e.values else []
    decreases |e.values|
  {
    if e.values != [] {
      var rest := Entry(e.name, e.values[1..]);
      assert PairsOf(e)[1..] == PairsOf(rest);
      SelectPairsOf(rest, k);
    }
  }

  /** Iterating a collection and emitting every value keeps, for each name, all its values in their order. */
  lemma {:induction false} SelectFlatten(es: seq<Entry>, k: string)
    ensures Select(Flatten(es), k) == ValuesOf(es, k)
  {
    if es != [] {
      SelectAppend(PairsOf(es[0]), Flatten(es[1..]), k);
      SelectPairsOf(es[0], k);
      SelectFlatten(es[1..], k);
    }
  }

  lemma {:induction false} FlattenAppend(a: seq<Entry>, b: seq<Entry>)
    ensures Flatten(a + b) == Flatten(a) + Flatten(b)
  {
    if a == [] {
      assert a + b == b;
    } else {
      assert (a + b)[1..] == a[1..] + b;
      FlattenAppend(a[1..], b);
    }
  }

  lemma {:induction false} ValuesOfAbsent(es: seq<Entry>, k: string)
    requires !HasKey(es, k)
    ensures ValuesOf(es, k) == []
  {
    if es != [] {
      ValuesOfAbsent(es[1..], k);
    }
  }

  lemma {:induction false} HasKeyAdded(es: seq<Entry>, name: string, value: string, k: string)
    ensures HasKey(Added(es, name, value), k) <==> HasKey(es, k) || k == Key(name)
  {
    if es != [] && Key(es[0].name) != Key(name) {
      HasKeyAdded(es[1..], name, value, k);
    }
  }

  /** add keeps the collection's invariant. */
  lemma {:induction false} AddedWellFormed(es: seq<Entry>, name: string, value: string)
    requires WellFormed(es)
    ensures WellFormed(Added(es, name, value))
  {
    if es != [] && Key(es[0].name) != Key(name) {
      AddedWellFormed(es[1..], name, value);
      HasKeyAdded(es[1..], name, value, Key(es[0].name));
    }
  }

  /** add appends the value to its own name's values and leaves every other name's values alone. */
  lemma {:induction false} ValuesOfAdded(es: seq<Entry>, name: string, value: string, k: string)
    requires WellFormed(es)
    ensures ValuesOf(Added(es, name, value), k) == ValuesOf(es, k) + (if Key(name) == k then [value] else [])
  {
    if es == [] {
    } else if Key(es[0].name) == Key(name) {
      if Key(name) == k {
        ValuesOfAbsent(es[1..], k);
      }
      var es' := Added(es, name, value);
      assert es'[1..] == es[1..];
    } else {
      ValuesOfAdded(es[1..], name, value, k);
      var es' := Added(es, name, value);
      assert es'[1..] == Added(es[1..], name, value);
    }
  }

  lemma {:induction false} AddedAllWellFormed(es: seq<Entry>, ps: seq<Pair>)
    requires WellFormed(es)
    ensures WellFormed(AddedAll(es, ps))
    decreases |ps|
  {
    if ps != [] {
      AddedWellFormed(es, ps[0].0, ps[0].1);
      AddedAllWellFormed(Added(es, ps[0].0, ps[0].1), ps[1..]);
    }
  }

  lemma {:induction false} AddedAllSnoc(es: seq<Entry>, ps: seq<Pair>, p: Pair)
    ensures AddedAll(es, ps + [p]) == Added(AddedAll(es, ps), p.0, p.1)
    decreases |ps|
  {
    if ps == [] {
      assert ps + [p] == [p];
    } else {
      assert (ps + [p])[1..] == ps[1..] + [p];
      AddedAllSnoc(Added(es, ps[0].0, ps[0].1), ps[1..], p);
    }
  }

  /** One add per line appends, under each name, exactly that name's values from the lines, in order. */
  lemma {:induction false} ValuesOfAddedAll(es: seq<Entry>, ps: seq<Pair>, k: string)
    requires WellFormed(es)
    ensures ValuesOf(AddedAll(es, ps), k) == ValuesOf(es, k) + Select(ps, k)
    decreases |ps|
  {
    if ps != [] {
      var es' := Added(es, ps[0].0, ps[0].1);
      ValuesOfAdded(es, ps[0].0, ps[0].1, k);
      AddedWellFormed(es, ps[0].0, ps[0].1);
      ValuesOfAddedAll(es', ps[1..], k);
    }
  }

  lemma FlattenSnoc(es: seq<Entry>, i: nat)
    requires i < |es|
    ensures Flatten(es[..i + 1]) == Flatten(es[..i]) + PairsOf(es[i])
  {
    assert es[..i + 1] == es[..i] + [es[i]];
    FlattenAppend(es[..i], [es[i]]);
    assert Flatten([es[i]]) == PairsOf(es[i]) + Flatten([]);
  }

  lemma {:induction false} PairsOfSnoc(name: string, vs: seq<string>, j: nat)
    requires j < |vs|
    ensures PairsOf(Entry(name, vs[..j + 1])) == PairsOf(Entry(name, vs[..j])) + [(name, vs[j])]
  {
  }

  /**
   * The nested loop both clients run over a message's headers: one line per
   * (name, value), appended after the lines already built. For every name the
   * new lines carry the message's values in their order, duplicates included.
   */
  method AppendHeaderLines(lines: seq<Pair>, es: seq<Entry>) returns (out: seq<Pair>)
    ensures out == lines + Flatten(es)
    ensures forall k :: Select(out, k) == Select(lines, k) + ValuesOf(es, k)
  {
    out := lines;
    var i := 0;
    while i < |es|
      invariant 0 <= i <= |es|
      invariant out == lines + Flatten(es[..i])
    {
      ghost var before := out;
      var name, values := es[i].name, es[i].values;
      var j := 0;
      while j < |values|
        invariant 0 <= j <= |values|
        invariant out == before + PairsOf(Entry(name, values[..j]))
      {
        PairsOfSnoc(name, values, j);
        out := out + [(name, values[j])];
        j := j + 1;
      }
      assert values[..j] == values;
      FlattenSnoc(es, i);
      i := i + 1;
    }
    assert es[..i] == es;
    forall k ensures Select(out, k) == Select(lines, k) + ValuesOf(es, k) {
      SelectAppend(lines, Flatten(es), k);
      SelectFlatten(es, k);
    }
  }

  /** The mutable header collection a UPnP message owns. */
  class UpnpHeaders {
    var entries: seq<Entry>

    ghost predicate Valid()
      reads this
    {
      WellFormed(entries)
    }

    constructor ()
      ensures Valid() && entries == []
    {
      entries := [];
    }

    /** containsKey: a value is stored under this name, compared case-insensitively. */
    function ContainsKey(name: string): bool
      reads this
    {
      HasKey(entries, Key(name))
    }

    method Add(name: string, value: string)
      requires Valid()
      modifies this
      ensures Valid()
      ensures entries == Added(old(entries), name, value)
      ensures forall k :: ValuesOf(entries, k) == ValuesOf(old(entries), k) + (if Key(name) == k then [value] else [])
    {
      AddedWellFormed(entries, name, value);
      forall k ensures ValuesOf(Added(entries, name, value), k) == ValuesOf(entries, k) + (if Key(name) == k then [value] else []) {
        ValuesOfAdded(entries, name, value, k);
      }
      entries := Added(entries, name, value);
    }
  }
}
