/**
 * The tunnel routes of the server (backend/routes/tunnels.ts) and of the older
 * API (src/api/routes/tunnels.ts) over one record store. The store is the
 * database table: a map from id to record, plus a counter that stands for the
 * `createdAt`/`updatedAt` clock. Each handler is one atomic step; the
 * authenticated caller's id is an explicit `owner` parameter and the status
 * code a `Reply` tag.
 */
module TunnelStore {
  import opened Wrappers
  import opened Strings
  import opened TunnelTypes
  import CommandGenerator

  /** `localPort` as it may arrive in a JSON body. */
  datatype PortField = Absent | Number(n: int) | Text(s: string)

  /** The six fields read from a request body; a missing string field is "". */
  datatype TunnelFields = TunnelFields(
    name: string,
    serviceType: string,
    hostname: string,
    localPort: PortField,
    localHost: string,
    protocol: string)

  /**
   * A handler's reply: 200/201 with a body, 400 for a missing field, 404 for an
   * id the caller does not own, 500 when the storage layer refuses the write.
   */
  datatype Reply<T> = Ok(value: T) | BadRequest | NotFound | StorageError

  /** JavaScript truthiness of the port field: missing, 0 and "" are falsy. */
  predicate PortTruthy(p: PortField) {
    match p
    case Absent => false
    case Number(n) => n != 0
    case Text(s) => s != ""
  }

  /** The guard of create and update: every one of the six fields is truthy. */
  predicate AllFieldsPresent(f: TunnelFields) {
    && f.name != ""
    && f.serviceType != ""
    && f.hostname != ""
    && PortTruthy(f.localPort)
    && f.localHost != ""
    && f.protocol != ""
  }

  /** `parseInt(localPort)`: a number is kept, text is read up to its first non-digit. */
  function ParsePort(p: PortField): (r: Option<int>)
    ensures p.Number? ==> r == Some(p.n)
    ensures p.Text? ==> (r.Some? <==> p.s != [] && IsDigit(p.s[0]))
    ensures p.Text? && r.Some? ==> r.value >= 0
  {
    match p
    case Absent => None
    case Number(n) => Some(n)
    case Text(s) => if ParseInt(s).Some? then Some(ParseInt(s).value) else None
  }

  /** The `findFirst({ id, userId })` test: the record exists and belongs to `owner`. */
  predicate Owns(records: map<string, Tunnel>, owner: string, id: string) {
    id in records && records[id].userId == owner
  }

  /** The record `create` stores: body fields, the parsed port, the caller as owner. */
  function NewTunnel(id: string, owner: string, f: TunnelFields, port: int, now: nat): Tunnel {
    Tunnel(id, f.name, f.serviceType, f.hostname, port, f.localHost, f.protocol, owner, now, now)
  }

  /** The record `update` stores: the six business fields replaced, `updatedAt` refreshed. */
  function Overwrite(t: Tunnel, f: TunnelFields, port: int, now: nat): Tunnel {
    t.(name := f.name, serviceType := f.serviceType, hostname := f.hostname,
       localPort := port, localHost := f.localHost, protocol := f.protocol, updatedAt := now)
  }

  /** Strictly decreasing `createdAt`: `orderBy: { createdAt: 'desc' }`. */
  predicate NewestFirst(r: seq<Tunnel>) {
    forall i, j :: 0 <= i < j < |r| ==> r[i].createdAt > r[j].createdAt
  }

  /**
   * `r` is what GET / returns to `owner`: stored records only, all of them
   * owner's, every one of owner's records, newest first.
   */
  predicate IsListing(records: map<string, Tunnel>, owner: string, r: seq<Tunnel>) {
    && (forall x :: x in r ==> x.id in records && records[x.id] == x && x.userId == owner)
    && (forall id :: id in records && records[id].userId == owner ==> records[id] in r)
    && NewestFirst(r)
  }

  /** Places `t` in a newest-first sequence. */
  function InsertNewestFirst(r: seq<Tunnel>, t: Tunnel): (s: seq<Tunnel>)
    requires NewestFirst(r)
    requires forall i :: 0 <= i < |r| ==> r[i].createdAt != t.createdAt
    ensures NewestFirst(s)
    ensures |s| == |r| + 1
    ensures forall x :: x in s <==> x in r || x == t
  {
    if r == [] || t.createdAt > r[0].createdAt then [t] + r
    else
      var rest := InsertNewestFirst(r[1..], t);
      assert forall k :: 0 <= k < |rest| ==> rest[k] in r[1..] || rest[k] == t;
      [r[0]] + rest
  }

  // ---------------------------------------------------------------------------
  // The store
  // ---------------------------------------------------------------------------

  class Store {
    var records: map<string, Tunnel>
    var clock: nat

    /** Records are filed under their own id, stamped before `clock`, with distinct `createdAt`. */
    ghost predicate Valid()
      reads this
    {
      && (forall id :: id in records ==>
            records[id].id == id && records[id].createdAt < clock && records[id].updatedAt < clock)
      && (forall a, b :: a in records && b in records && a != b ==>
            records[a].createdAt != records[b].createdAt)
    }

    constructor ()
      ensures Valid() && records == map[] && clock == 0
    {
      records, clock := map[], 0;
    }

    /** GET /: the caller's records, newest first. */
    method List(owner: string) returns (r: seq<Tunnel>)
      requires Valid()
      ensures IsListing(records, owner, r)
    {
      r := [];
      var pending := records.Keys;
      while pending != {}
        invariant pending <= records.Keys
        invariant NewestFirst(r)
        invariant forall x :: x in r ==>
          x.id in records && records[x.id] == x && x.userId == owner && x.id !in pending
        invariant forall id :: id in records && id !in pending && records[id].userId == owner ==> records[id] in r
        decreases pending
      {
        var id :| id in pending;
        pending := pending - {id};
        var t := records[id];
        if t.userId == owner {
          r := InsertNewestFirst(r, t);
        }
      }
    }

    /**
     * POST /: validation first; a port whose text holds no integer is refused by
     * the integer column (the 500 reply); otherwise a new record owned by the
     * caller is filed under the fresh id the storage layer generates.
     */
    method Create(owner: string, fields: TunnelFields, freshId: string) returns (reply: Reply<Tunnel>)
      requires Valid()
      requires freshId !in records
      modifies this
      ensures Valid()
      ensures !AllFieldsPresent(fields) ==>
        reply == BadRequest && records == old(records) && clock == old(clock)
      ensures AllFieldsPresent(fields) && ParsePort(fields.localPort).None? ==>
        reply == StorageError && records == old(records) && clock == old(clock)
      ensures AllFieldsPresent(fields) && ParsePort(fields.localPort).Some? ==>
        && reply == Ok(NewTunnel(freshId, owner, fields, ParsePort(fields.localPort).value, old(clock)))
        && records == old(records)[freshId := reply.value]
        && clock == old(clock) + 1
      ensures reply.Ok? ==> reply.value.userId == owner && reply.value.id == freshId
    {
      if !AllFieldsPresent(fields) {
        return BadRequest;
      }
      var port := ParsePort(fields.localPort);
      if port.None? {
        return StorageError;
      }
      var t := NewTunnel(freshId, owner, fields, port.value, clock);
      records := records[freshId := t];
      clock := clock + 1;
      reply := Ok(t);
    }

    /**
     * PUT /:id: validation, then the ownership check, then the overwrite of the
     * six business fields. `id`, `userId` and `createdAt` stay as they were.
     */
    method Update(owner: string, id: string, fields: TunnelFields) returns (reply: Reply<Tunnel>)
      requires Valid()
      modifies this
      ensures Valid()
      ensures !AllFieldsPresent(fields) ==>
        reply == BadRequest && records == old(records) && clock == old(clock)
      ensures AllFieldsPresent(fields) && !Owns(old(records), owner, id) ==>
        reply == NotFound && records == old(records) && clock == old(clock)
      ensures AllFieldsPresent(fields) && Owns(old(records), owner, id) && ParsePort(fields.localPort).None? ==>
        reply == StorageError && records == old(records) && clock == old(clock)
      ensures AllFieldsPresent(fields) && Owns(old(records), owner, id) && ParsePort(fields.localPort).Some? ==>
        && reply == Ok(Overwrite(old(records)[id], fields, ParsePort(fields.localPort).value, old(clock)))
        && records == old(records)[id := reply.value]
        && clock == old(clock) + 1
      ensures reply.Ok? ==>
        && reply.value.id == id && reply.value.userId == owner
        && reply.value.createdAt == old(records)[id].createdAt
        && reply.value.updatedAt >= old(records)[id].updatedAt
    {
      if !AllFieldsPresent(fields) {
        return BadRequest;
      }
      if !Owns(records, owner, id) {
        return NotFound;
      }
      var port := ParsePort(fields.localPort);
      if port.None? {
        return StorageError;
      }
      var t := Overwrite(records[id], fields, port.value, clock);
      records := records[id := t];
      clock := clock + 1;
      reply := Ok(t);
    }

    /** DELETE /:id: the ownership check, then removal of that one record. */
    method Delete(owner: string, id: string) returns (reply: Reply<()>)
      requires Valid()
      modifies this
      ensures Valid() && clock == old(clock)
      ensures !Owns(old(records), owner, id) ==> reply == NotFound && records == old(records)
      ensures Owns(old(records), owner, id) ==> reply == Ok(()) && records == old(records) - {id}
    {
      if !Owns(records, owner, id) {
        return NotFound;
      }
      records := records - {id};
      reply := Ok(());
    }

    /** GET /:id/commands on the server: the ownership check, then the branching generator. */
    method Commands(owner: string, id: string) returns (reply: Reply<TunnelCommands>)
      requires Valid()
      ensures !Owns(records, owner, id) ==> reply == NotFound
      ensures Owns(records, owner, id) ==> reply == Ok(CommandGenerator.Generate(records[id]))
    {
      if !Owns(records, owner, id) {
        return NotFound;
      }
      reply := Ok(CommandGenerator.Generate(records[id]));
    }

    /** GET /:id/commands in the older API: the ownership check, then the generic template. */
    method LegacyCommands(owner: string, id: string) returns (reply: Reply<TunnelCommands>)
      requires Valid()
      ensures !Owns(records, owner, id) ==> reply == NotFound
      ensures Owns(records, owner, id) ==> reply == Ok(CommandGenerator.GenerateLegacy(records[id]))
    {
      if !Owns(records, owner, id) {
        return NotFound;
      }
      reply := Ok(CommandGenerator.GenerateLegacy(records[id]));
    }
  }

  // ---------------------------------------------------------------------------
  // Properties of the listing and of the handlers' effects
  // ---------------------------------------------------------------------------

  lemma HeadIsNewest(r: seq<Tunnel>, x: Tunnel)
    requires NewestFirst(r)
    requires x in r
    ensures x == r[0] || x.createdAt < r[0].createdAt
  {
  }

  /** Two newest-first sequences with the same elements are the same sequence. */
  lemma {:induction false} NewestFirstDetermined(a: seq<Tunnel>, b: seq<Tunnel>)
    requires NewestFirst(a) && NewestFirst(b)
    requires forall x :: x in a <==> x in b
    ensures a == b
    decreases |a|
  {
    if b != [] {
      assert b[0] in b;
    }
    if a != [] {
      assert a[0] in b;
      HeadIsNewest(a, b[0]);
      HeadIsNewest(b, a[0]);
      assert a[0] == b[0];
      forall x
        ensures x in a[1..] <==> x in b[1..]
      {
        if x in a[1..] {
          assert x in a && x != a[0];
        }
        if x in b[1..] {
          assert x in b && x != b[0];
        }
      }
      NewestFirstDetermined(a[1..], b[1..]);
    }
  }

  /** The listing is determined by the store and the caller: GET / has one answer. */
  lemma ListingIsUnique(records: map<string, Tunnel>, owner: string, r1: seq<Tunnel>, r2: seq<Tunnel>)
    requires IsListing(records, owner, r1) && IsListing(records, owner, r2)
    ensures r1 == r2
  {
    forall x
      ensures x in r1 <==> x in r2
    {
      if x in r1 {
        assert records[x.id] in r2;
      }
      if x in r2 {
        assert records[x.id] in r1;
      }
    }
    NewestFirstDetermined(r1, r2);
  }

  /** A listing names each record once. */
  lemma ListedOnce(records: map<string, Tunnel>, owner: string, r: seq<Tunnel>, i: nat, j: nat)
    requires IsListing(records, owner, r)
    requires i < |r| && j < |r| && r[i] == r[j]
    ensures i == j
  {
  }

  /** A record owned by `other` never appears in `owner`'s listing. */
  lemma ListingExcludesOthers(records: map<string, Tunnel>, owner: string, r: seq<Tunnel>, id: string)
    requires IsListing(records, owner, r)
    requires id in records && records[id].userId != owner
    ensures records[id] !in r
  {
  }

  /**
   * After a create stamped with a `createdAt` later than every stored record,
   * the new record heads its owner's listing.
   */
  lemma CreatedRecordListedFirst(records: map<string, Tunnel>, id: string, t: Tunnel, r: seq<Tunnel>)
    requires t.id == id
    requires forall k :: k in records ==> records[k].createdAt < t.createdAt
    requires IsListing(records[id := t], t.userId, r)
    ensures |r| >= 1 && r[0] == t
  {
    var after := records[id := t];
    assert after[id] == t;
    assert t in r;
    HeadIsNewest(r, t);
  }

  /** A create by one owner leaves every other owner's listing as it was. */
  lemma CreateInvisibleToOthers(records: map<string, Tunnel>, id: string, t: Tunnel, other: string, r: seq<Tunnel>)
    requires id !in records
    requires t.userId != other
    requires IsListing(records, other, r)
    ensures IsListing(records[id := t], other, r)
  {
  }

  /** Only the owner can reach a record: the check fails for everybody else. */
  lemma OwnershipIsExclusive(records: map<string, Tunnel>, owner: string, other: string, id: string)
    requires Owns(records, owner, id) && other != owner
    ensures !Owns(records, other, id)
  {
  }

  /** The fields an update writes are exactly the six business fields. */
  lemma OverwriteTouchesOnlyBusinessFields(t: Tunnel, f: TunnelFields, port: int, now: nat)
    ensures var u := Overwrite(t, f, port, now);
      && u.id == t.id && u.userId == t.userId && u.createdAt == t.createdAt
      && u.name == f.name && u.serviceType == f.serviceType && u.hostname == f.hostname
      && u.localPort == port && u.localHost == f.localHost && u.protocol == f.protocol
  {
  }

  /** A text port is stored as the number its leading digits spell; `"3000"` and `"3000px"` both give 3000. */
  lemma TextPortParsesDecimal(n: nat, rest: string)
    requires rest == [] || !IsDigit(rest[0])
    ensures ParsePort(Text(NatToString(n) + rest)) == Some(n)
  {
    ParseIntOfNatToString(n, rest);
  }
}
