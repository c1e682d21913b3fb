/** The per-host limiter store (core/port/host_limiter.go): one live limiter per host, also
    when idle entries are evicted while other waits come to an end. */
module HostLimiter {
  import opened Types

  /** One limiter; the object itself is its identity. */
  class Entry {
    var lastSeen: int
    var active: nat
    /** When the last wait ended and how long it had taken; the source keeps neither. */
    ghost var lastEnd: int
    ghost var lasted: int

    constructor (now: int)
      ensures lastSeen == lastEnd == now && active == 0 && lasted == 0
    {
      lastSeen, active, lastEnd, lasted := now, 0, now, 0;
    }

    method Acquire(now: int)
      modifies this
      ensures active == old(active) + 1 && lastSeen == now
    {
      lastSeen := now;
      active := active + 1;
    }

    method Release(at: int, ghost end: int)
      modifies this
      ensures active == if old(active) > 0 then old(active) - 1 else 0
      ensures lastSeen == at && lastEnd == end && lasted == end - at
    {
      if active > 0 {
        active := active - 1;
      }
      lastSeen := at;
      lastEnd, lasted := end, end - at;
    }
  }

  /** A goroutine between acquiring and releasing: the entry it holds and the time it will
      write back, which was read when its wait began. */
  datatype Wait = Wait(host: string, entry: Entry, at: int)

  function Tickets(waits: map<nat, Wait>, host: string): set<nat> {
    set t | t in waits && waits[t].host == host
  }

  function Waiting(waits: map<nat, Wait>, host: string): nat {
    |Tickets(waits, host)|
  }

  lemma WaitingAdd(waits: map<nat, Wait>, t: nat, w: Wait, host: string)
    requires t !in waits
    ensures Waiting(waits[t := w], host) == Waiting(waits, host) + if w.host == host then 1 else 0
  {
    assert Tickets(waits[t := w], host) == Tickets(waits, host) + if w.host == host then {t} else {};
  }

  lemma WaitingRemove(waits: map<nat, Wait>, t: nat, host: string)
    requires t in waits
    ensures Waiting(waits - {t}, host) + (if waits[t].host == host then 1 else 0) == Waiting(waits, host)
  {
    WaitingAdd(waits - {t}, t, waits[t], host);
    assert (waits - {t})[t := waits[t]] == waits;
  }

  lemma NobodyWaits(waits: map<nat, Wait>, host: string)
    requires Waiting(waits, host) == 0
    ensures forall t :: t in waits ==> waits[t].host != host
  {
    assert forall t :: t in waits && waits[t].host == host ==> t in Tickets(waits, host);
  }

  class Store {
    const ttl: int
    var lastSweep: int
    var entries: map<string, Entry>
    /** The waits in progress in all goroutines, by ticket. */
    var waits: map<nat, Wait>

    /** Every wait in progress holds the very entry stored for its host, `active` is the number
        of those waits, no two hosts share an entry, and an idle entry was last seen when its
        last wait began. */
    ghost predicate Valid()
      reads this, entries.Values
    {
      && (forall t :: t in waits ==> waits[t].host in entries && entries[waits[t].host] == waits[t].entry)
      && (forall h :: h in entries ==> entries[h].active == Waiting(waits, h))
      && (forall g, h :: g in entries && h in entries && g != h ==> entries[g] != entries[h])
      && (forall h :: h in entries && entries[h].active == 0 ==>
            entries[h].lastSeen == entries[h].lastEnd - entries[h].lasted)
    }

    predicate Expired(e: Entry, now: int)
      reads e
    {
      ttl > 0 && e.active == 0 && now - e.lastSeen > ttl
    }

    /** An entry is given up only if it is idle past the ttl, and then more than the ttl less the
        length of its last wait has passed since that wait ended. */
    ghost predicate GivenUp(e: Entry, now: int)
      reads e
    {
      && ttl > 0 && e.active == 0 && now - e.lastSeen > ttl
      && now - e.lastEnd > ttl - e.lasted
    }

    constructor (ttl: int, now: int)
      ensures Valid() && entries == map[] && waits == map[]
    {
      this.ttl, lastSweep, entries, waits := ttl, now, map[], map[];
    }

    /** One wait ends: `entry.release` of the deferred call. */
    method Release(t: nat, ghost end: int)
      requires Valid() && t in waits
      modifies this`waits, waits[t].entry
      ensures Valid() && waits == old(waits) - {t}
      ensures old(waits[t].entry).active == old(waits[t].entry.active) - 1
      ensures var e := old(waits[t].entry);
              e.lastSeen == old(waits[t].at) && e.lastEnd == end && e.lasted == end - e.lastSeen
    {
      var w := waits[t];
      forall h ensures Waiting(waits - {t}, h) + (if w.host == h then 1 else 0) == Waiting(waits, h) {
        WaitingRemove(waits, t, h);
      }
      assert w.entry.active >= 1;
      w.entry.Release(w.at, end);
      waits := waits - {t};
    }

    /** What may have happened while the store's lock was held: any number of other waits ended.
        None can begin, and an idle entry is not touched. */
    twostate predicate OnlyReleases()
      reads this, entries.Values
    {
      && entries == old(entries) && lastSweep == old(lastSweep)
      && (forall t :: t in waits ==> t in old(waits) && waits[t] == old(waits)[t])
      && (forall h :: h in entries && old(entries[h].active) == 0 ==>
            entries[h].active == 0 && entries[h].lastSeen == old(entries[h].lastSeen))
    }

    /** Other goroutines at work between two steps of the lock's holder. */
    method OthersRelease()
      requires Valid()
      modifies this`waits, entries.Values
      ensures Valid() && OnlyReleases()
    {
      var some: bool := *;
      while some && waits != map[]
        invariant Valid() && OnlyReleases()
        decreases waits.Keys
      {
        var t :| t in waits;
        ghost var end: int := *;
        Release(t, end);
        some := *;
      }
    }

    /** `loadFresh`: the stored entry, unless it has expired. */
    method LoadFresh(host: string, now: int) returns (e: Option<Entry>)
      requires Valid()
      modifies this`waits, entries.Values
      ensures Valid() && OnlyReleases()
      ensures e.Some? ==> host in entries && entries[host] == e.value && !Expired(e.value, now)
      ensures e.None? ==> host in entries ==> Expired(entries[host], now)
    {
      OthersRelease();
      if host !in entries {
        return None;
      }
      if Expired(entries[host], now) {
        return None;
      }
      e := Some(entries[host]);
    }

    /** Deletes an entry that is expired when it is looked at; nobody can be waiting on it. */
    method DropIfExpired(host: string, now: int)
      requires Valid()
      modifies this`waits, this`entries, entries.Values
      ensures Valid()
      ensures entries == old(entries) || entries == old(entries) - {host}
      ensures host in old(entries) && host !in entries ==>
                GivenUp(old(entries)[host], now) && old(entries)[host] !in entries.Values
      ensures host in entries ==> !old(host in entries && Expired(entries[host], now))
      ensures forall t :: t in waits ==> t in old(waits) && waits[t] == old(waits)[t]
      ensures forall h :: h in entries && old(entries[h].active) == 0 ==>
                entries[h].active == 0 && entries[h].lastSeen == old(entries[h].lastSeen)
      ensures lastSweep == old(lastSweep)
    {
      OthersRelease();
      if host in entries && Expired(entries[host], now) {
        OthersRelease();
        NobodyWaits(waits, host);
        entries := entries - {host};
      }
    }

    method SweepExpiredIfDue(now: int)
      requires Valid()
      modifies this, entries.Values
      ensures Valid()
      ensures entries.Keys <= old(entries).Keys
      ensures forall h :: h in entries ==> entries[h] == old(entries)[h]
      ensures forall h :: h in old(entries) && h !in entries ==> GivenUp(old(entries)[h], now)
      ensures !(ttl > 0 && now - old(lastSweep) >= ttl) ==> entries == old(entries) && lastSweep == old(lastSweep)
      ensures ttl > 0 && now - old(lastSweep) >= ttl ==>
                && lastSweep == now
                && forall h :: h in entries ==>
                     !old(h in entries && entries[h].active == 0 && now - entries[h].lastSeen > ttl)
      ensures forall t :: t in waits ==> t in old(waits) && waits[t] == old(waits)[t]
    {
      if ttl <= 0 || now - lastSweep < ttl {
        return;
      }
      SweepExpired(now);
      lastSweep := now;
    }

    /** Every entry that was expired when the sweep began is gone when it ends. */
    method SweepExpired(now: int)
      requires Valid()
      modifies this`waits, this`entries, entries.Values
      ensures Valid()
      ensures entries.Keys <= old(entries).Keys
      ensures forall h :: h in entries ==>
                entries[h] == old(entries)[h] && !old(h in entries && Expired(entries[h], now))
      ensures forall h :: h in old(entries) && h !in entries ==> GivenUp(old(entries)[h], now)
      ensures forall t :: t in waits ==> t in old(waits) && waits[t] == old(waits)[t]
    {
      var todo := entries.Keys;
      while todo != {}
        invariant Valid() && entries.Keys <= old(entries).Keys && entries.Values <= old(entries.Values)
        invariant todo <= old(entries).Keys
        invariant forall h :: h in entries ==> entries[h] == old(entries)[h]
        invariant forall h :: h in old(entries) && h !in entries ==> GivenUp(old(entries)[h], now)
        invariant forall h :: h in todo ==> h in entries
        invariant forall h :: h in entries && old(h in entries && Expired(entries[h], now)) ==>
                    h in todo && Expired(entries[h], now)
        invariant forall t :: t in waits ==> t in old(waits) && waits[t] == old(waits)[t]
        decreases |todo|
      {
        var h :| h in todo;
        todo := todo - {h};
        DropIfExpired(h, now);
      }
    }

    /** The wait of the caller is under way: its entry is stored and counts it. */
    method Register(host: string, e: Entry, at: int, ticket: nat)
      requires ticket !in waits && host in entries && entries[host] == e
      requires forall t :: t in waits ==> waits[t].host in entries && entries[waits[t].host] == waits[t].entry
      requires forall h :: h in entries ==> entries[h].active == Waiting(waits, h) + if h == host then 1 else 0
      requires forall g, h :: g in entries && h in entries && g != h ==> entries[g] != entries[h]
      requires forall h :: h in entries && entries[h].active == 0 ==>
                 entries[h].lastSeen == entries[h].lastEnd - entries[h].lasted
      modifies this`waits
      ensures Valid() && waits == old(waits)[ticket := Wait(host, e, at)]
    {
      ghost var waits' := waits[ticket := Wait(host, e, at)];
      forall h ensures Waiting(waits', h) == Waiting(waits, h) + if host == h then 1 else 0 {
        WaitingAdd(waits, ticket, Wait(host, e, at), h);
      }
      waits := waits[ticket := Wait(host, e, at)];
    }

    /** `acquireOrCreate`: afterwards the caller and everybody else waiting for `host` hold one
        and the same entry, and every other wait still holds the entry of its own host. An idle
        entry within the ttl is the one handed out; only idle entries past the ttl are given up. */
    method AcquireOrCreate(host: string, now: int, at: int, ticket: nat) returns (e: Entry)
      requires Valid() && ticket !in waits
      modifies this, entries.Values
      ensures Valid()
      ensures ticket in waits && waits[ticket] == Wait(host, e, at)
      ensures host in entries && entries[host] == e && e.lastSeen == now
      ensures old(host in entries && entries[host].active == 0 && (ttl <= 0 || now - entries[host].lastSeen <= ttl)) ==>
                e == old(entries)[host]
      ensures old(host in entries && entries[host].active == 0 && ttl > 0 && now - entries[host].lastSeen > ttl) ==>
                fresh(e)
      ensures forall h :: h in old(entries) && (h !in entries || entries[h] != old(entries)[h]) ==>
                GivenUp(old(entries)[h], now)
      ensures forall t :: t in waits && t != ticket ==> t in old(waits) && waits[t] == old(waits)[t]
      ensures forall t :: t in waits && waits[t].host == host ==> waits[t].entry == e
    {
      var stored := LoadFresh(host, now);
      if stored.Some? {
        e := stored.value;
        AcquireStored(host, e, now, at, ticket);
        return;
      }
      e := Create(host, now, at, ticket);
    }

    method AcquireStored(host: string, e: Entry, now: int, at: int, ticket: nat)
      requires Valid() && ticket !in waits && host in entries && entries[host] == e
      modifies this`waits, entries.Values
      ensures Valid() && entries == old(entries) && e.lastSeen == now
      ensures ticket in waits && waits[ticket] == Wait(host, e, at)
      ensures forall t :: t in waits && t != ticket ==> t in old(waits) && waits[t] == old(waits)[t]
    {
      OthersRelease();
      e.Acquire(now);
      Register(host, e, at, ticket);
    }

    /** The eviction part of `acquireOrCreate`: the host's place is free afterwards, and only
        idle entries past the ttl are gone. */
    method MakeRoom(host: string, now: int)
      requires Valid() && (host in entries ==> Expired(entries[host], now))
      modifies this, entries.Values
      ensures Valid() && host !in entries && entries.Keys <= old(entries).Keys
      ensures forall h :: h in entries ==> entries[h] == old(entries)[h]
      ensures forall h :: h in old(entries) && h !in entries ==> GivenUp(old(entries)[h], now)
      ensures forall t :: t in waits ==> t in old(waits) && waits[t] == old(waits)[t]
    {
      ghost var stored := entries;
      DropIfExpired(host, now);
      ghost var kept := entries;
      SweepExpiredIfDue(now);
      forall h | h in stored && h !in entries ensures GivenUp(stored[h], now) {
        if h != host { assert kept[h] == stored[h]; }
      }
    }

    /** The stored entry is missing or expired. No release can revive it, so once it is dropped
        the place is free and the new entry is the one that gets stored. */
    method Create(host: string, now: int, at: int, ticket: nat) returns (e: Entry)
      requires Valid() && ticket !in waits && (host in entries ==> Expired(entries[host], now))
      modifies this, entries.Values
      ensures Valid() && host in entries && entries[host] == e && fresh(e) && e.lastSeen == now
      ensures ticket in waits && waits[ticket] == Wait(host, e, at)
      ensures forall h :: h in entries && h != host ==> h in old(entries) && entries[h] == old(entries)[h]
      ensures forall h :: h in old(entries) && (h !in entries || h == host) ==> GivenUp(old(entries)[h], now)
      ensures forall t :: t in waits && t != ticket ==> t in old(waits) && waits[t] == old(waits)[t]
    {
      MakeRoom(host, now);
      e := StoreNew(host, now, at, ticket);
    }

    method StoreNew(host: string, now: int, at: int, ticket: nat) returns (e: Entry)
      requires Valid() && ticket !in waits && host !in entries
      modifies this`waits, this`entries, entries.Values
      ensures Valid() && fresh(e) && e.lastSeen == now && entries == old(entries)[host := e]
      ensures ticket in waits && waits[ticket] == Wait(host, e, at)
      ensures forall t :: t in waits && t != ticket ==> t in old(waits) && waits[t] == old(waits)[t]
    {
      OthersRelease();
      e := new Entry(now);
      e.Acquire(now);
      var actual := LoadOrStore(host, e);
      if actual != e {
        assert false;
      }
      assert Tickets(waits, host) == {};
      assert forall h :: h in entries && h != host ==> entries[h] != e && entries[h].active == Waiting(waits, h);
      Register(host, e, at, ticket);
    }

    /** Stores only into a free place. */
    method LoadOrStore(host: string, e: Entry) returns (actual: Entry)
      modifies this`entries
      ensures if host in old(entries) then entries == old(entries) && actual == entries[host]
              else actual == e && entries == old(entries)[host := e]
    {
      if host in entries {
        return entries[host];
      }
      entries := entries[host := e];
      actual := e;
    }
  }
}
