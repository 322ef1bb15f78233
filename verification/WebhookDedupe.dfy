/** The in-memory table of webhook keys: reservations that expire. */
module WebhookDedupe {
  datatype Mark = InFlight | Succeeded

  datatype Entry = Entry(mark: Mark, expires: nat)

  type Table = map<string, Entry>

  const DefaultTtl: nat := 24 * 60 * 60 * 1_000_000_000

  function Pruned(seen: Table, now: nat): Table {
    map key | key in seen && seen[key].expires > now :: seen[key]
  }

  /** The empty key stands for none and is never refused. */
  predicate Grants(seen: Table, key: string, now: nat) {
    key == "" || key !in Pruned(seen, now)
  }

  function Reserved(seen: Table, key: string, now: nat, ttl: nat): Table {
    if key == "" then seen
    else if key in Pruned(seen, now) then Pruned(seen, now)
    else Pruned(seen, now)[key := Entry(InFlight, now + ttl)]
  }

  function Confirmed(seen: Table, key: string, now: nat, ttl: nat): Table {
    if key == "" || key !in seen then seen else seen[key := Entry(Succeeded, now + ttl)]
  }

  function Dropped(seen: Table, key: string): Table {
    if key == "" then seen else seen - {key}
  }

  class Deduper {
    const ttl: nat
    var seen: Table

    constructor (ttl: int)
      ensures seen == map[] && this.ttl == (if ttl <= 0 then DefaultTtl else ttl) && this.ttl > 0
    {
      this.ttl := if ttl <= 0 then DefaultTtl else ttl;
      seen := map[];
    }

    /** Grants absent, expired and empty keys. A granted key is in flight, and refused until its
        lifetime is over; a refused key keeps its entry; unexpired entries of others stay. */
    method Reserve(key: string, now: nat) returns (ok: bool)
      modifies this
      ensures ok <==> Grants(old(seen), key, now)
      ensures seen == Reserved(old(seen), key, now, ttl)
      ensures ok && key != "" ==>
        key in seen && seen[key].mark.InFlight? && forall later: nat :: Grants(seen, key, later) <==> later >= now + ttl
      ensures !ok ==> key in old(seen) && key in seen && seen[key] == old(seen)[key]
      ensures forall other | other != key && other in old(seen) && old(seen)[other].expires > now ::
        other in seen && seen[other] == old(seen)[other]
    {
      if key == "" {
        return true;
      }
      Prune(now);
      if key in seen {
        return false;
      }
      seen := seen[key := Entry(InFlight, now + ttl)];
      return true;
    }

    /** No key is added and no other key changes; a key that is there is marked, and granted to nobody
        until a full lifetime later. */
    method Succeed(key: string, now: nat)
      modifies this
      ensures seen == Confirmed(old(seen), key, now, ttl)
      ensures seen.Keys == old(seen.Keys)
      ensures forall other | other in seen && other != key :: seen[other] == old(seen)[other]
      ensures key != "" && key in seen ==>
        seen[key].mark.Succeeded? && forall later: nat :: Grants(seen, key, later) <==> later >= now + ttl
    {
      if key != "" && key in seen {
        seen := seen[key := Entry(Succeeded, now + ttl)];
      }
    }

    /** Whenever it is asked for next, the key is granted; every other key is as it was. */
    method Release(key: string)
      modifies this
      ensures seen == Dropped(old(seen), key)
      ensures forall later: nat :: Grants(seen, key, later)
      ensures forall other | other != key ::
        (other in seen <==> other in old(seen)) && (other in seen ==> seen[other] == old(seen)[other])
    {
      if key != "" {
        seen := seen - {key};
      }
    }

    method Prune(now: nat)
      modifies this
      ensures seen == Pruned(old(seen), now)
    {
      var keys := seen.Keys;
      while keys != {}
        invariant keys <= old(seen).Keys
        invariant seen == map key | key in old(seen) && (key in keys || old(seen)[key].expires > now) :: old(seen)[key]
        decreases |keys|
      {
        var key :| key in keys;
        keys := keys - {key};
        if seen[key].expires <= now {
          seen := seen - {key};
        }
      }
    }
  }

  /** Of two reservations of a key before it expires, only the first is granted; once it has
      expired, or was dropped, the next one is. */
  lemma SecondReservation(seen: Table, key: string, first: nat, second: nat, ttl: nat)
    requires key != "" && Grants(seen, key, first) && first <= second && ttl > 0
    ensures Grants(Reserved(seen, key, first, ttl), key, second) <==> second >= first + ttl
    ensures Grants(Dropped(Reserved(seen, key, first, ttl), key), key, second)
  {
  }
}
