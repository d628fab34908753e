/** The NAT table of one association (internal/socks/udp.go): keys of flows to entries,
    with eviction of the least recently used entry.  Entries are handled by identity
    only, so the table is generic in their type `E`; `lastSeen` gives the stamps that one
    locked scan reads. */
module NatTable {
  import opened Basics

  // `k` carries a smallest stamp of the table.
  ghost predicate IsOldest<E>(entries: map<string, E>, lastSeen: map<E, int>, k: string)
    requires forall j :: j in entries ==> entries[j] in lastSeen
  {
    && k in entries
    && forall j :: j in entries ==> lastSeen[entries[k]] <= lastSeen[entries[j]]
  }

  /** What `Install` may do to a table: nothing when the key is taken; otherwise add the
      entry, first removing one least recently used entry when the table is full. */
  ghost predicate Installs<E>(before: map<string, E>, lastSeen: map<E, int>, key: string, entry: E, limit: int,
                                  after: map<string, E>, actual: E, evicted: Option<string>, installed: bool)
    requires forall j :: j in before ==> before[j] in lastSeen
  {
    if key in before then
      !installed && actual == before[key] && evicted.None? && after == before
    else
      && installed && actual == entry
      && (evicted.Some? <==> 0 < limit <= |before|)
      && (evicted.Some? ==> IsOldest(before, lastSeen, evicted.value))
      && after == (if evicted.Some? then before - {evicted.value} else before)[key := entry]
  }

  /** The table never outgrows its limit, loses at most the reported victim, and that only when a new key meets a
      full table; the victim's stamp is a smallest one. */
  lemma InstallBounded<E>(before: map<string, E>, lastSeen: map<E, int>, key: string, entry: E, limit: int,
                          after: map<string, E>, actual: E, evicted: Option<string>, installed: bool)
    requires forall j :: j in before ==> before[j] in lastSeen
    requires Installs(before, lastSeen, key, entry, limit, after, actual, evicted, installed)
    requires 0 < limit && |before| <= limit
    ensures |after| <= limit && (key in before ==> after == before)
    ensures evicted.Some? <==> key !in before && |before| == limit
    ensures evicted.Some? ==>
              forall k :: k in before ==> lastSeen[before[evicted.value]] <= lastSeen[before[k]]
    ensures key in after && after[key] == actual
    ensures forall k :: k in before && evicted != Some(k) ==> k in after && after[k] == before[k]
    ensures evicted.Some? ==> evicted.value in before && evicted.value !in after
  {
    if installed {
      var kept := if evicted.Some? then before - {evicted.value} else before;
      if evicted.Some? {
        assert kept.Keys == before.Keys - {evicted.value};
        assert |kept.Keys| == |before.Keys| - 1;
      }
      assert after.Keys == kept.Keys + {key};
    }
  }

  // DeleteIf: removes the key only while it still names the expected entry.
  function Deleted<E(==)>(entries: map<string, E>, key: string, expected: E): map<string, E> {
    if key in entries && entries[key] == expected then entries - {key} else entries
  }

  class Table<E(==)> {
    var entries: map<string, E>

    constructor ()
      ensures entries == map[]
    {
      entries := map[];
    }

    method Install(key: string, entry: E, limit: int, lastSeen: map<E, int>)
      returns (actual: E, evicted: Option<string>, installed: bool)
      requires forall j :: j in entries ==> entries[j] in lastSeen
      modifies this
      ensures Installs(old(entries), lastSeen, key, entry, limit, entries, actual, evicted, installed)
      ensures installed <==> key !in old(entries)
      ensures key in entries && entries[key] == actual == if installed then entry else old(entries)[key]
      ensures evicted.Some? <==> installed && limit > 0 && |old(entries)| >= limit
      ensures forall k :: k != key && evicted != Some(k) ==>
                        (k in entries <==> k in old(entries)) && (k in entries ==> entries[k] == old(entries)[k])
    {
      if key in entries {
        return entries[key], None, false;
      }
      evicted := None;
      if limit > 0 && |entries| >= limit {
        // Go visits the map in an arbitrary order.
        var rest := entries.Keys;
        while rest != {}
          invariant rest <= entries.Keys
          invariant evicted.None? <==> rest == entries.Keys
          invariant evicted.Some? ==> evicted.value in entries
          invariant evicted.Some? ==>
                      forall j :: j in entries && j !in rest ==>
                                    lastSeen[entries[evicted.value]] <= lastSeen[entries[j]]
          invariant entries == old(entries)
          decreases |rest|
        {
          var k :| k in rest;
          if evicted.None? || lastSeen[entries[k]] < lastSeen[entries[evicted.value]] {
            evicted := Some(k);
          }
          rest := rest - {k};
        }
        if evicted.Some? {
          entries := entries - {evicted.value};
        }
      }
      entries := entries[key := entry];
      return entry, evicted, true;
    }

    method DeleteIf(key: string, expected: E) returns (deleted: bool)
      modifies this
      ensures entries == Deleted(old(entries), key, expected)
      ensures entries == if deleted then old(entries) - {key} else old(entries)
      ensures deleted == (key in old(entries) && old(entries)[key] == expected)
    {
      if key !in entries || entries[key] != expected {
        return false;
      }
      entries := entries - {key};
      return true;
    }

    // Empties the table and hands every entry to the caller for closing.
    method Drain() returns (all: seq<E>)
      modifies this
      ensures entries == map[]
      ensures |all| == |old(entries)|
      ensures forall e :: e in all <==> e in old(entries).Values
    {
      all := [];
      var rest := entries.Keys;
      while rest != {}
        invariant rest <= entries.Keys && entries == old(entries)
        invariant |all| + |rest| == |entries|
        invariant forall e :: e in all <==> exists k :: k in entries && k !in rest && entries[k] == e
        decreases |rest|
      {
        var k :| k in rest;
        var seen := all;
        all := all + [entries[k]];
        var rest' := rest - {k};
        forall e ensures e in all <==> exists j :: j in entries && j !in rest' && entries[j] == e {
          if e in seen {
            var j :| j in entries && j !in rest && entries[j] == e;
            assert j !in rest';
          }
        }
        rest := rest';
      }
      entries := map[];
    }
  }
}
