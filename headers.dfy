/** HTTP header collections. Header names compare case-insensitively: the
    dictionary used for outgoing request headers (requests'
    CaseInsensitiveDict) keeps, for each lower-cased name, the name as last
    set and its value. Inbound header lists are sequences of (name, value)
    pairs in the order they arrived. */
module Headers {
  import opened Common

  type Header = (string, string)

  /** ASCII lower-casing of one character. */
  function LowerChar(c: char): char {
    if 'A' <= c <= 'Z' then (c as int - 'A' as int + 'a' as int) as char else c
  }

  /** The case-folded form under which a header name is stored. */
  function Lower(s: string): (r: string)
    ensures |r| == |s|
    ensures forall i :: 0 <= i < |s| ==> r[i] == LowerChar(s[i])
  {
    seq(|s|, i requires 0 <= i < |s| => LowerChar(s[i]))
  }

  /** Folding twice is folding once, so a stored key looks itself up. */
  lemma LowerIdempotent(s: string)
    ensures Lower(Lower(s)) == Lower(s)
  {
    var once := Lower(s);
    assert forall i :: 0 <= i < |s| ==> Lower(once)[i] == once[i];
  }

  /** Whether two header names denote the same header. */
  predicate SameName(a: string, b: string) {
    Lower(a) == Lower(b)
  }

  /** Reference lookup over an ordered header list: the value of the last
      pair whose name matches `name` case-insensitively. */
  function LastMatch(headers: seq<Header>, name: string): (r: Option<string>)
    ensures r.None? <==> forall i :: 0 <= i < |headers| ==> !SameName(headers[i].0, name)
    ensures r.Some? ==> exists i :: 0 <= i < |headers| && SameName(headers[i].0, name) && headers[i].1 == r.value
    decreases |headers|
  {
    if headers == [] then None
    else
      var last := headers[|headers| - 1];
      if SameName(last.0, name) then Some(last.1) else LastMatch(headers[..|headers| - 1], name)
  }

  /** The store a dictionary built from `headers` holds: each pair in turn
      overwrites the entry for its folded name. */
  function StoreOf(headers: seq<Header>): map<string, Header>
    decreases |headers|
  {
    if headers == [] then map[]
    else
      var last := headers[|headers| - 1];
      StoreOf(headers[..|headers| - 1])[Lower(last.0) := last]
  }

  /** Looking a name up in the built store agrees with the reference lookup. */
  lemma {:induction false} StoreOfLookup(headers: seq<Header>, name: string)
    ensures Lower(name) in StoreOf(headers) <==> LastMatch(headers, name).Some?
    ensures Lower(name) in StoreOf(headers) ==> StoreOf(headers)[Lower(name)].1 == LastMatch(headers, name).value
    decreases |headers|
  {
    if headers != [] {
      StoreOfLookup(headers[..|headers| - 1], name);
    }
  }

  /** requests' CaseInsensitiveDict: `store` maps each folded name to the
      (name, value) pair last set under it. */
  class CaseInsensitiveDict {
    var store: map<string, Header>

    ghost predicate Valid()
      reads this
    {
      forall k :: k in store ==> Lower(store[k].0) == k
    }

    /** The dictionary built from an ordered header list, one pair at a
        time. */
    constructor (headers: seq<Header>)
      ensures Valid()
      ensures store == StoreOf(headers)
    {
      store := map[];
      new;
      var i := 0;
      while i < |headers|
        invariant 0 <= i <= |headers|
        invariant store == StoreOf(headers[..i])
        invariant Valid()
      {
        assert headers[..i + 1][..i] == headers[..i];
        LowerIdempotent(headers[i].0);
        store := store[Lower(headers[i].0) := headers[i]];
        i := i + 1;
      }
      assert headers[..i] == headers;
    }

    /** `get`: the value stored under `key`, whatever its case. */
    function Get(key: string): (r: Option<string>)
      requires Valid()
      reads this
      ensures r.Some? <==> exists k :: k in store && SameName(store[k].0, key)
      ensures r.Some? ==> exists k :: k in store && SameName(store[k].0, key) && store[k].1 == r.value
    {
      if Lower(key) in store then Some(store[Lower(key)].1) else None
    }

    /** `setdefault`: an existing entry is kept as it is; otherwise `value`
        is stored under `key`. Returns the value now stored. */
    method SetDefault(key: string, value: string) returns (r: string)
      requires Valid()
      modifies this
      ensures Valid()
      ensures old(Get(key)).Some? ==> store == old(store) && r == old(Get(key)).value
      ensures old(Get(key)).None? ==> store == old(store)[Lower(key) := (key, value)] && r == value
      ensures Get(key) == Some(r)
    {
      if Lower(key) in store {
        r := store[Lower(key)].1;
      } else {
        LowerIdempotent(key);
        store := store[Lower(key) := (key, value)];
        r := value;
      }
    }
  }
}
