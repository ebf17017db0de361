/** net/http's `Header`: each key maps to its values in order. The
    `Set`/`Add` operations used by addHTTPHeaders, and the loop that Adds
    every value of one header to another. Key canonicalisation is not
    modelled: keys are compared as given. */
module HttpHeader {

  type Header = map<string, seq<string>>

  /** The values stored under `key`; a missing key reads as no values. */
  function Values(h: Header, key: string): seq<string>
  {
    if key in h then h[key] else []
  }

  /** `Header.Set`: the key's values become exactly `[value]`. */
  function Set(h: Header, key: string, value: string): (r: Header)
    ensures Values(r, key) == [value]
    ensures forall k :: k != key ==> Values(r, k) == Values(h, k)
    ensures r.Keys == h.Keys + {key}
  {
    h[key := [value]]
  }

  /** `Header.Add`: `value` goes after the values already under `key`. */
  function Add(h: Header, key: string, value: string): (r: Header)
    ensures Values(r, key) == Values(h, key) + [value]
    ensures forall k :: k != key ==> Values(r, k) == Values(h, k)
    ensures r.Keys == h.Keys + {key}
  {
    h[key := Values(h, key) + [value]]
  }

  /** Keys of `h` that carry at least one value. */
  function ValuedKeys(h: Header): set<string>
  {
    set k | k in h && h[k] != []
  }

  /** The header that results from Adding, key by key and in order, every
      value of `extra` to `base`. Independent of the order of the keys. */
  function Merge(base: Header, extra: Header): Header
  {
    map k | k in base.Keys + ValuedKeys(extra) :: Values(base, k) + Values(extra, k)
  }

  /** Under every key, the merged header holds the base values followed by
      the extra values; its keys are those of `base` and the keys of `extra`
      that carry a value. */
  lemma MergeValues(base: Header, extra: Header, k: string)
    ensures Values(Merge(base, extra), k) == Values(base, k) + Values(extra, k)
    ensures k in Merge(base, extra) <==> k in base || k in ValuedKeys(extra)
  {
  }

  /** A header with the keys and the per-key values of the merge is the merge. */
  lemma MergeCharacterized(base: Header, extra: Header, h: Header)
    requires forall k :: k in h <==> k in base || k in ValuedKeys(extra)
    requires forall k :: Values(h, k) == Values(base, k) + Values(extra, k)
    ensures h == Merge(base, extra)
  {
  }

  /** The inner loop of addHTTPHeaders: Adds the values of one key in order. */
  method AddValues(h: Header, key: string, values: seq<string>) returns (r: Header)
    ensures values == [] ==> r == h
    ensures values != [] ==> r == h[key := Values(h, key) + values]
  {
    r := h;
    var i := 0;
    while i < |values|
      invariant 0 <= i <= |values|
      invariant i == 0 ==> r == h
      invariant 0 < i ==> r == h[key := Values(h, key) + values[..i]]
    {
      assert values[..i + 1] == values[..i] + [values[i]];
      assert Values(r, key) == Values(h, key) + values[..i] by {
        if i == 0 {
          assert values[..i] == [];
        }
      }
      var next := Add(r, key, values[i]);
      assert next == h[key := Values(h, key) + values[..i + 1]] by {
        assert next == r[key := Values(h, key) + values[..i] + [values[i]]];
        assert Values(h, key) + values[..i] + [values[i]] == Values(h, key) + values[..i + 1];
      }
      r := next;
      i := i + 1;
    }
    assert values[..i] == values;
  }

  /** The loop of addHTTPHeaders: ranges over the keys of `extra` in an
      unspecified order and Adds each of the key's values in order. */
  method AddAll(base: Header, extra: Header) returns (h: Header)
    ensures h == Merge(base, extra)
  {
    h := base;
    var pending := extra.Keys;
    while pending != {}
      invariant pending <= extra.Keys
      invariant forall k :: k in h <==> k in base || (k in extra && k !in pending && extra[k] != [])
      invariant forall k :: Values(h, k) == Values(base, k) + (if k in pending then [] else Values(extra, k))
      decreases pending
    {
      var key :| key in pending;
      h := AddValues(h, key, extra[key]);
      pending := pending - {key};
    }
    MergeCharacterized(base, extra, h);
  }
}
