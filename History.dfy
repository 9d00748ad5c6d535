/** The generation history: newest entry first, kept uncapped in memory, and
    capped at 20 entries in the copy written to browser storage. */
module History {

  /** One generated password and its creation time. The time is the ISO
      timestamp string the component stores; the model treats it as an
      opaque value supplied by the caller. */
  datatype Entry = Entry(value: string, time: string)

  /** How many entries the persisted copy keeps (`history.slice(0, 20)`). */
  const PersistCap: nat := 20

  function Min(a: int, b: int): int { if a < b then a else b }

  /** The stored copy of the history: its first `min(20, |h|)` entries. */
  function Persisted(h: seq<Entry>): (r: seq<Entry>)
    ensures |r| <= PersistCap && |r| <= |h|
    ensures |h| <= PersistCap ==> r == h
    ensures |h| > PersistCap ==> |r| == PersistCap
    ensures forall i :: 0 <= i < |r| ==> r[i] == h[i]
  {
    h[..Min(PersistCap, |h|)]
  }

  /** A new generation puts its entry first in memory, after which the
      previous entries follow in their old order. */
  function Prepend(e: Entry, h: seq<Entry>): (r: seq<Entry>)
    ensures |r| == |h| + 1 && r[0] == e && r[1..] == h
  {
    [e] + h
  }

  /** Storing the stored copy again changes nothing. */
  lemma PersistedIdempotent(h: seq<Entry>)
    ensures Persisted(Persisted(h)) == Persisted(h)
  {
  }

  /** After a generation the stored copy holds the new entry first, followed
      by the first 19 entries of the previous stored copy. */
  lemma PersistedAfterPrepend(e: Entry, h: seq<Entry>)
    ensures Persisted(Prepend(e, h)) == [e] + Persisted(h)[..Min(PersistCap - 1, |h|)]
  {
    assert Persisted(h)[..Min(PersistCap - 1, |h|)] == h[..Min(PersistCap - 1, |h|)];
  }

  /** Whether the in-memory history was reloaded from storage (and so cut to
      20 entries) before a generation or not, the copy stored afterwards is
      the same. */
  lemma PersistAfterReload(e: Entry, h: seq<Entry>)
    ensures Persisted(Prepend(e, Persisted(h))) == Persisted(Prepend(e, h))
  {
    PersistedAfterPrepend(e, h);
    PersistedAfterPrepend(e, Persisted(h));
    assert Persisted(Persisted(h))[..Min(PersistCap - 1, |Persisted(h)|)]
        == Persisted(h)[..Min(PersistCap - 1, |h|)];
  }

  /** The in-memory history is not capped: every generation makes it one
      entry longer, so after 21 generations from empty it holds 21 entries
      while the stored copy holds 20. */
  lemma {:induction false} InMemoryGrows(es: seq<Entry>, h: seq<Entry>)
    ensures |PrependAll(es, h)| == |es| + |h|
    ensures |Persisted(PrependAll(es, h))| == Min(PersistCap, |es| + |h|)
    ensures |es| > 0 ==> PrependAll(es, h)[0] == es[|es| - 1]
    decreases |es|
  {
    if |es| > 0 {
      InMemoryGrows(es[..|es| - 1], h);
    }
  }

  /** The history after generating the entries `es` in order, starting from
      `h`: the most recent generation comes first. */
  function PrependAll(es: seq<Entry>, h: seq<Entry>): seq<Entry>
    decreases |es|
  {
    if es == [] then h else Prepend(es[|es| - 1], PrependAll(es[..|es| - 1], h))
  }
}
