/**
 * The two execution tallies (per script and per group). Each is a JSON object
 * `name -> count` that is read whole, bumped at one key and written back whole;
 * in the model the persisted object is the map itself.
 */
module Counters {

  /** `counts[name] || 0`: the stored count, zero for a name never executed. */
  function Get(counts: map<string, nat>, name: string): nat {
    if name in counts then counts[name] else 0
  }

  /**
   * `counts[name] = (counts[name] || 0) + 1`: the one key rises by exactly one, is created
   * on first use, and no other key is added, removed or changed.
   */
  function Bump(counts: map<string, nat>, name: string): (bumped: map<string, nat>)
    ensures name in bumped && bumped[name] == Get(counts, name) + 1
    ensures bumped.Keys == counts.Keys + {name}
    ensures forall k :: k in counts && k != name ==> bumped[k] == counts[k]
  {
    counts[name := Get(counts, name) + 1]
  }

  /** One `Bump` per name, in order, as a run of successive increments leaves the store. */
  function BumpEach(counts: map<string, nat>, names: seq<string>): map<string, nat>
    decreases |names|
  {
    if names == [] then counts
    else Bump(BumpEach(counts, names[..|names| - 1]), names[|names| - 1])
  }

  /** One increment seen through `Get`: the named key rises by one, every other key stays. */
  lemma GetBump(counts: map<string, nat>, name: string, k: string)
    ensures Get(Bump(counts, name), k) == Get(counts, k) + if k == name then 1 else 0
  {
  }

  /**
   * After a run of increments every name's count has risen by the number of times it was
   * named, and the keys are the old ones plus the names.
   */
  lemma BumpEachCounts(counts: map<string, nat>, names: seq<string>)
    ensures forall k :: Get(BumpEach(counts, names), k) == Get(counts, k) + multiset(names)[k]
    ensures BumpEach(counts, names).Keys == counts.Keys + set n | n in names
  {
    forall k ensures Get(BumpEach(counts, names), k) == Get(counts, k) + multiset(names)[k] {
      BumpEachGet(counts, names, k);
    }
    BumpEachKeys(counts, names);
  }

  /** The count of one key after a run of increments. */
  lemma {:induction false} BumpEachGet(counts: map<string, nat>, names: seq<string>, k: string)
    ensures Get(BumpEach(counts, names), k) == Get(counts, k) + multiset(names)[k]
    decreases |names|
  {
    if names != [] {
      var init := names[..|names| - 1];
      var last := names[|names| - 1];
      BumpEachGet(counts, init, k);
      GetBump(BumpEach(counts, init), last, k);
      assert names == init + [last];
      assert multiset(names)[k] == multiset(init)[k] + multiset{last}[k];
    }
  }

  /** The keys after a run of increments. */
  lemma {:induction false} BumpEachKeys(counts: map<string, nat>, names: seq<string>)
    ensures BumpEach(counts, names).Keys == counts.Keys + set n | n in names
    decreases |names|
  {
    if names != [] {
      var init := names[..|names| - 1];
      var last := names[|names| - 1];
      BumpEachKeys(counts, init);
      assert names == init + [last];
      assert (set n | n in names) == (set n | n in init) + {last};
    }
  }
}
