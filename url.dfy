/** The part of the browser's `URLSearchParams` the dashboard uses. */
module Url {
  import opened Strings

  datatype Pair = Pair(key: string, value: string)

  /** `k=v` pairs joined by `&`. */
  function Serialize(entries: seq<Pair>): string {
    Join(PairTexts(entries), "&")
  }

  function PairTexts(entries: seq<Pair>): (ts: seq<string>)
    ensures |ts| == |entries|
  {
    if entries == [] then [] else [entries[0].key + "=" + entries[0].value] + PairTexts(entries[1..])
  }

  /** The keys of a list of pairs, in order. */
  function Keys(entries: seq<Pair>): (ks: seq<string>)
    ensures |ks| == |entries|
    ensures forall i :: 0 <= i < |entries| ==> ks[i] == entries[i].key
  {
    seq(|entries|, i requires 0 <= i < |entries| => entries[i].key)
  }

  lemma KeysAppend(a: seq<Pair>, b: seq<Pair>)
    ensures Keys(a + b) == Keys(a) + Keys(b)
  {
  }

  /** A list of key/value pairs that `append` grows at the end. */
  class SearchParams {
    var entries: seq<Pair>

    constructor ()
      ensures entries == []
    {
      entries := [];
    }

    method Append(key: string, value: string)
      modifies this
      ensures entries == old(entries) + [Pair(key, value)]
    {
      entries := entries + [Pair(key, value)];
    }

    function ToString(): string
      reads this
    {
      Serialize(entries)
    }
  }
}
