/** Trust on first use: the table of known host keys and the check made on every connect. */
module HostKeys {
  import opened Wrappers
  import opened HostPort

  datatype Key = Key(kind: string, fingerprint: string, data: string)

  datatype Address = Address(host: string, port: int)

  // ----- one operation after another -----

  type Table = map<Address, Key>

  datatype Op =
    | Check(addr: Address, key: Key)
    | Trust(addr: Address, key: Key)
    | Delete(addr: Address)

  predicate Accepts(t: Table, addr: Address, key: Key) {
    addr !in t || t[addr].fingerprint == key.fingerprint
  }

  function Apply(t: Table, op: Op): Table {
    match op
    case Check(addr, key) => if addr in t then t else t[addr := key]
    case Trust(addr, key) => t[addr := key]
    case Delete(addr) => t - {addr}
  }

  function After(t: Table, ops: seq<Op>): Table {
    if ops == [] then t else Apply(After(t, ops[..|ops| - 1]), ops[|ops| - 1])
  }

  /** Check number `i` of a history was let through. */
  ghost predicate AcceptedAt(t: Table, ops: seq<Op>, i: nat) {
    && i < |ops| && ops[i].Check?
    && Accepts(After(t, ops[..i]), ops[i].addr, ops[i].key)
  }

  predicate Overrides(op: Op, addr: Address) { !op.Check? && op.addr == addr }

  /** After an accepted check, its fingerprint stays on record until somebody overrides it. */
  lemma {:induction false} AcceptedStaysOnRecord(t: Table, ops: seq<Op>, i: nat, j: nat)
    requires AcceptedAt(t, ops, i) && i < j <= |ops|
    requires forall k :: i < k < j ==> !Overrides(ops[k], ops[i].addr)
    ensures var now := After(t, ops[..j]);
            ops[i].addr in now && now[ops[i].addr].fingerprint == ops[i].key.fingerprint
  {
    assert ops[..j][..j - 1] == ops[..j - 1];
    if j > i + 1 {
      AcceptedStaysOnRecord(t, ops, i, j - 1);
      assert !Overrides(ops[j - 1], ops[i].addr);
    }
  }

  /** Continuity: two accepted checks of one address show one fingerprint, unless the address was
      trusted anew or deleted in between. And without such an override the later check is accepted
      exactly when it shows the fingerprint of the earlier one. */
  lemma ContinuityOfKeys(t: Table, ops: seq<Op>, i: nat, j: nat)
    requires AcceptedAt(t, ops, i) && i < j < |ops| && ops[j].Check? && ops[j].addr == ops[i].addr
    ensures AcceptedAt(t, ops, j) && ops[j].key.fingerprint != ops[i].key.fingerprint ==>
              exists k :: i < k < j && Overrides(ops[k], ops[i].addr)
    ensures (forall k :: i < k < j ==> !Overrides(ops[k], ops[i].addr)) ==>
              (AcceptedAt(t, ops, j) <==> ops[j].key.fingerprint == ops[i].key.fingerprint)
  {
    if forall k :: i < k < j ==> !Overrides(ops[k], ops[i].addr) {
      AcceptedStaysOnRecord(t, ops, i, j);
    }
  }

  predicate Names(op: Op, addr: Address) { op.addr == addr }

  /** Checks leave a record alone, whether they are accepted or not. */
  lemma {:induction false} RecordStays(t: Table, ops: seq<Op>, i: nat, j: nat, addr: Address)
    requires i <= j <= |ops| && addr in After(t, ops[..i])
    requires forall k :: i <= k < j ==> !Overrides(ops[k], addr)
    ensures addr in After(t, ops[..j]) && After(t, ops[..j])[addr] == After(t, ops[..i])[addr]
  {
    if j > i {
      RecordStays(t, ops, i, j - 1, addr);
      assert ops[..j][..j - 1] == ops[..j - 1];
      assert !Overrides(ops[j - 1], addr);
    }
  }

  /** After a trust, and until it is overridden, a check of the address is accepted exactly if it
      shows the trusted fingerprint, whatever was on record before. */
  lemma TrustDecides(t: Table, ops: seq<Op>, i: nat, j: nat)
    requires i < j < |ops| && ops[i].Trust? && ops[j].Check? && ops[j].addr == ops[i].addr
    requires forall k :: i < k < j ==> !Overrides(ops[k], ops[i].addr)
    ensures AcceptedAt(t, ops, j) <==> ops[j].key.fingerprint == ops[i].key.fingerprint
  {
    assert ops[..i + 1][..i] == ops[..i];
    RecordStays(t, ops, i + 1, j, ops[i].addr);
  }

  /** Nothing on record for an address is changed by what names others. */
  lemma {:induction false} OthersDoNotTouch(t: Table, ops: seq<Op>, i: nat, j: nat, addr: Address)
    requires i <= j <= |ops|
    requires forall k :: i <= k < j ==> !Names(ops[k], addr)
    ensures var before, after := After(t, ops[..i]), After(t, ops[..j]);
            (addr in after <==> addr in before) && (addr in after ==> after[addr] == before[addr])
  {
    if j > i {
      OthersDoNotTouch(t, ops, i, j - 1, addr);
      assert ops[..j][..j - 1] == ops[..j - 1];
      assert !Names(ops[j - 1], addr);
    }
  }

  /** The first check of an address after its deletion, or ever, is accepted whatever it shows. */
  lemma FirstUseIsTrusted(t: Table, ops: seq<Op>, i: nat, j: nat, addr: Address)
    requires i <= j < |ops| && ops[j].Check? && ops[j].addr == addr
    requires (i == 0 && addr !in t) || (i > 0 && ops[i - 1] == Delete(addr))
    requires forall k :: i <= k < j ==> !Names(ops[k], addr)
    ensures AcceptedAt(t, ops, j)
  {
    if i == 0 {
      assert ops[..0] == [];
    } else {
      assert ops[..i][..i - 1] == ops[..i - 1];
    }
    OthersDoNotTouch(t, ops, i, j, addr);
  }

  // ----- the address the check is made for -----

  lemma BracketsAround(ip: string)
    requires '[' !in ip && ']' !in ip && ':' in ip
    ensures ReparsedHost("[" + ip + "]") == Some(ip)
  {
    var host := "[" + ip + "]";
    assert host[1..|host| - 1] == ip;
    assert host[1..] == ip + "]" && host[..|host| - 1] == "[" + ip;
    assert ':' in host by { assert ':' in host[1..|host| - 1]; }
  }

  /** The remote address of a connection, printed and split again, is the address itself, so
      different hosts never share a record. */
  lemma RemoteAddressSplits(ip: string, port: int)
    requires '[' !in ip && ']' !in ip
    ensures SplitHostPort(JoinHostPort(ip, Itoa(port))) == Some((ip, Itoa(port)))
    ensures Atoi(Itoa(port)) == Some(port)
  {
    var host := if ':' in ip then "[" + ip + "]" else ip;
    if ':' in ip {
      assert "[" + ip + "]:" + Itoa(port) == host + ":" + Itoa(port);
      BracketsAround(ip);
    }
    SplitBindAddr(host, port);
    AtoiItoa(port);
  }

  // ----- the store -----

  datatype KnownHost = KnownHost(addr: Address, key: Key)

  datatype CheckResult =
    | Accepted
    | InvalidAddress
    | InvalidPort
    | LookupFailed
    | StoreFailed
    | Mismatch(expected: string, received: string)

  /** The rows hold the table, with one row per address. */
  ghost predicate Holds(rows: map<string, KnownHost>, t: Table) {
    && OnePerAddress(rows)
    && (forall id :: id in rows ==> rows[id].addr in t && t[rows[id].addr] == rows[id].key)
    && (forall a :: a in t ==> HasRow(rows, a))
  }

  ghost predicate OnePerAddress(rows: map<string, KnownHost>) {
    forall a, b :: a in rows && b in rows && rows[a].addr == rows[b].addr ==> a == b
  }

  ghost predicate HasRow(rows: map<string, KnownHost>, a: Address) { exists id :: id in rows && rows[id].addr == a }

  lemma RowReplaced(rows: map<string, KnownHost>, t: Table, id: string, row: KnownHost)
    requires Holds(rows, t)
    requires forall other :: other in rows && rows[other].addr == row.addr ==> other == id
    requires id in rows ==> rows[id].addr == row.addr
    ensures Holds(rows[id := row], t[row.addr := row.key])
  {
    var more := rows[id := row];
    forall a | a in t[row.addr := row.key]
      ensures HasRow(more, a)
    {
      if a == row.addr {
        assert more[id].addr == a;
      } else {
        var other :| other in rows && rows[other].addr == a;
        assert more[other].addr == a;
      }
    }
  }

  lemma RowDeleted(rows: map<string, KnownHost>, t: Table, id: string)
    requires Holds(rows, t) && id in rows
    ensures Holds(rows - {id}, t - {rows[id].addr})
  {
    var less := rows - {id};
    forall a | a in t - {rows[id].addr}
      ensures HasRow(less, a)
    {
      var other :| other in rows && rows[other].addr == a;
      assert other in less && less[other].addr == a;
    }
  }

  /** A row with the record is there, every row of other addresses is as before, and no address but
      this one has got a row. */
  ghost predicate Recorded(before: map<string, KnownHost>, after: map<string, KnownHost>, addr: Address, key: Key) {
    && (exists id :: id in after && after[id] == KnownHost(addr, key))
    && (forall id :: id in before && before[id].addr != addr ==> id in after && after[id] == before[id])
    && (forall id :: id in after && after[id].addr != addr ==> id in before)
  }

  class DB {
    var rows: map<string, KnownHost>
    ghost var table: Table

    ghost predicate Valid()
      reads this
    {
      Holds(rows, table)
    }

    constructor ()
      ensures Valid() && table == map[]
    {
      rows, table := map[], map[];
    }

    method GetKnownHost(addr: Address) returns (found: Option<string>)
      ensures found.Some? ==> found.value in rows && rows[found.value].addr == addr
      ensures found.None? ==> forall id :: id in rows ==> rows[id].addr != addr
      ensures Valid() ==> (found.Some? <==> addr in table)
    {
      if exists id :: id in rows && rows[id].addr == addr {
        var id :| id in rows && rows[id].addr == addr;
        found := Some(id);
      } else {
        found := None;
      }
    }

    /** Any failure of the lookup counts as "not there" and adds a row, `newId` being its id. So
        the table keeps one row per address exactly unless the lookup fails on a known address and
        the row is then stored. If storing fails nothing changes. */
    method UpsertKnownHost(addr: Address, key: Key, newId: string, lookupFails: bool, storeFails: bool)
      returns (ok: bool)
      requires Valid() && newId !in rows
      modifies this
      ensures ok <==> !storeFails
      ensures Valid() <==> !(ok && lookupFails && addr in old(table))
      ensures Valid() && ok ==> table == Apply(old(table), Trust(addr, key))
      ensures ok ==> table == old(table)[addr := key] && Recorded(old(rows), rows, addr, key)
      ensures ok && (lookupFails || addr !in old(table)) ==> rows == old(rows)[newId := KnownHost(addr, key)]
      ensures ok && !lookupFails && addr in old(table) ==> rows.Keys == old(rows.Keys)
      ensures !ok ==> rows == old(rows) && table == old(table)
    {
      var existing := GetKnownHost(addr);
      if storeFails {
        return false;
      }
      ghost var id := if lookupFails || existing.None? then newId else existing.value;
      if lookupFails || existing.None? {
        if existing.None? {
          RowReplaced(rows, table, newId, KnownHost(addr, key));
        }
        rows := rows[newId := KnownHost(addr, key)];
        assert existing.Some? ==> rows[existing.value].addr == rows[newId].addr && existing.value != newId;
      } else {
        RowReplaced(rows, table, existing.value, KnownHost(addr, key));
        rows := rows[existing.value := KnownHost(addr, key)];
      }
      table := table[addr := key];
      assert rows[id] == KnownHost(addr, key);
      return true;
    }

    /** By id, as the list of known hosts shows it. */
    method DeleteKnownHost(id: string)
      requires Valid()
      modifies this
      ensures Valid()
      ensures table == if id in old(rows) then Apply(old(table), Delete(old(rows[id].addr)))
                       else old(table)
      ensures rows == old(rows) - {id}
      ensures id in old(rows) ==> !HasRow(rows, old(rows[id].addr))
    {
      if id in rows {
        RowDeleted(rows, table, id);
        table := table - {rows[id].addr};
      } else {
        assert rows - {id} == rows;
      }
      rows := rows - {id};
    }

    method TrustHostKey(addr: Address, key: Key, newId: string, lookupFails: bool, storeFails: bool)
      returns (ok: bool)
      requires Valid() && newId !in rows
      modifies this
      ensures ok <==> !storeFails
      ensures Valid() <==> !(ok && lookupFails && addr in old(table))
      ensures Valid() && ok ==> table == Apply(old(table), Trust(addr, key))
      ensures ok ==> table == old(table)[addr := key] && Recorded(old(rows), rows, addr, key)
      ensures ok && Valid() ==> forall id :: id in rows && rows[id].addr == addr ==> rows[id].key == key
      ensures !ok ==> rows == old(rows) && table == old(table)
    {
      ok := UpsertKnownHost(addr, key, newId, lookupFails, storeFails);
    }

    /** The check: accepted exactly when the address shows the recorded fingerprint, or is new and
        could be recorded. Whatever the lookups and the store do, a check that is not accepted
        changes nothing and one row per address is kept. */
    method CheckHostKey(remote: string, key: Key, newId: string, firstFails: bool, secondFails: bool, storeFails: bool)
      returns (r: CheckResult)
      requires Valid() && newId !in rows
      modifies this
      ensures Valid()
      ensures r != Accepted ==> rows == old(rows) && table == old(table)
      ensures r == InvalidAddress <==> SplitHostPort(remote).None?
      ensures r == InvalidPort <==> SplitHostPort(remote).Some? && Atoi(SplitHostPort(remote).value.1).None?
      ensures var split := SplitHostPort(remote);
              split.Some? && Atoi(split.value.1).Some? ==>
                var addr := Address(split.value.0, Atoi(split.value.1).value);
                && (r == LookupFailed <==> firstFails)
                && (r == StoreFailed <==> !firstFails && addr !in old(table) && storeFails)
                && (r == Accepted <==>
                    !firstFails && Accepts(old(table), addr, key) && (addr in old(table) || !storeFails))
                && (r == Accepted ==> table == Apply(old(table), Check(addr, key)))
                && (r == Accepted && addr in old(table) ==> rows == old(rows))
                && (r == Accepted && addr !in old(table) ==> Recorded(old(rows), rows, addr, key))
                && (r.Mismatch? ==> addr in old(table) && r.received == key.fingerprint
                                    && r.expected == old(table)[addr].fingerprint != r.received)
    {
      var split := SplitHostPort(remote);
      if split.None? {
        return InvalidAddress;
      }
      var port := Atoi(split.value.1);
      if port.None? {
        return InvalidPort;
      }
      var addr := Address(split.value.0, port.value);
      if firstFails {
        return LookupFailed;
      }
      var stored := GetKnownHost(addr);
      if stored.None? {
        var ok := UpsertKnownHost(addr, key, newId, secondFails, storeFails);
        return if ok then Accepted else StoreFailed;
      }
      if rows[stored.value].key.fingerprint != key.fingerprint {
        return Mismatch(rows[stored.value].key.fingerprint, key.fingerprint);
      }
      return Accepted;
    }
  }
}
