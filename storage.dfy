/** The storage façade's partner side (app/storage.js): a database handle
    that `connect` sets at most once and `disconnect` clears, and the
    `partners` collection, reached through that handle, on which
    `insertPartner` is a check-then-insert keyed by `partnerId` and
    `fetchPartner` a query by one field. The driver's answers (connection,
    lookup, insert, find, close) are parameters. */
module Storage {
  import opened Wrappers
  import opened Js
  import opened ErrorDefinitions
  import opened Failures
  import opened Partner

  /** The database handle `client.db()` obtained from a successful connection. */
  datatype Handle = Handle(name: string)

  /** What the driver acknowledges for a successful insert: the write result,
      which carries the inserted document. */
  datatype InsertAck = InsertAck(inserted: Partner)

  /** The value of a field of a stored partner document; a field the
      document does not have reads as `undefined`. */
  function FieldOf(p: Partner, field: string): Value {
    match field
    case "createdOn" => Num(p.createdOn)
    case "partnerId" => p.partnerId
    case "passwd" => p.passwd
    case "partnerName" => p.partnerName
    case "partnerCode" => p.partnerCode
    case "status" => p.status
    case _ => Undefined
  }

  /** The query `{field: v}`: equality, where a null or undefined `v` matches
      a document whose field is missing or null. */
  predicate Matches(p: Partner, field: string, v: Value) {
    if Nullish(v) then Nullish(FieldOf(p, field)) else FieldOf(p, field) == v
  }

  /** `findOne({field: v})`: some matching document, or none when no document matches. */
  function FindOne(ps: seq<Partner>, field: string, v: Value): (r: Option<Partner>)
    ensures r.Some? ==> r.value in ps && Matches(r.value, field, v)
    ensures r.None? ==> forall p :: p in ps ==> !Matches(p, field, v)
  {
    if ps == [] then None
    else if Matches(ps[0], field, v) then Some(ps[0])
    else FindOne(ps[1..], field, v)
  }

  /** `find({field: v}).toArray()`: the matching documents in collection order. */
  function FindAll(ps: seq<Partner>, field: string, v: Value): (r: seq<Partner>)
    ensures forall p :: p in r <==> p in ps && Matches(p, field, v)
    ensures |r| <= |ps|
  {
    if ps == [] then []
    else if Matches(ps[0], field, v) then [ps[0]] + FindAll(ps[1..], field, v)
    else FindAll(ps[1..], field, v)
  }

  /** Two partners share a key when their ids are loosely equal. */
  predicate SameId(a: Partner, b: Partner) {
    LooseEq(a.partnerId, b.partnerId)
  }

  /** The uniqueness the pre-insert check is there to keep. */
  predicate UniqueIds(ps: seq<Partner>) {
    forall i, j :: 0 <= i < j < |ps| ==> !SameId(ps[i], ps[j])
  }

  /** The lookup by `partnerId` finds something exactly when a stored
      partner has the same key as the new one. */
  lemma {:induction false} LookupMeansSameId(ps: seq<Partner>, p: Partner)
    ensures FindOne(ps, "partnerId", p.partnerId).Some? <==> exists q :: q in ps && SameId(q, p)
  {
    if ps != [] {
      LookupMeansSameId(ps[1..], p);
      assert forall q :: q in ps <==> q == ps[0] || q in ps[1..];
    }
  }

  /** Appending a partner whose key the lookup does not find keeps the keys unique. */
  lemma InsertKeepsIdsUnique(ps: seq<Partner>, p: Partner)
    requires UniqueIds(ps)
    requires FindOne(ps, "partnerId", p.partnerId).None?
    ensures UniqueIds(ps + [p])
  {
    LookupMeansSameId(ps, p);
    var qs := ps + [p];
    forall i, j | 0 <= i < j < |qs| ensures !SameId(qs[i], qs[j]) {
      if j == |ps| {
        assert qs[i] in ps;
      }
    }
  }

  class Storage {
    var db: Option<Handle>
    var partners: seq<Partner>

    /** `new Storage(opts)`: `this.db = opts.db`. The partner collection the
        handle reaches is given with it. */
    constructor (db: Option<Handle>, partners: seq<Partner>)
      ensures this.db == db && this.partners == partners
    {
      this.db := db;
      this.partners := partners;
    }

    /** `connect`: returns at once when a handle is already held; otherwise
        keeps the handle of a successful connection, or reports its error. */
    method Connect(dial: Result<Handle, DbError>) returns (r: Result<(), Failure>)
      modifies this
      ensures partners == old(partners)
      ensures old(db).Some? ==> r == Ok(()) && db == old(db)
      ensures old(db).None? && dial.Ok? ==> r == Ok(()) && db == Some(dial.value)
      ensures old(db).None? && dial.Err? ==> r == Err(Database(dial.error)) && db == None
    {
      if db.Some? {
        return Ok(());
      }
      if dial.Err? {
        return Err(Database(dial.error));
      }
      db := Some(dial.value);
      r := Ok(());
    }

    /** `disconnect`: closes the handle and drops it only when closing
        succeeds; without a handle the property read throws. */
    method Disconnect(closeError: Option<DbError>) returns (r: Result<(), Failure>)
      modifies this
      ensures partners == old(partners)
      ensures old(db).None? ==> r == Err(Thrown(TypeError)) && db == old(db)
      ensures old(db).Some? && closeError.Some? ==> r == Err(Database(closeError.value)) && db == old(db)
      ensures old(db).Some? && closeError.None? ==> r == Ok(()) && db == None
    {
      if db.None? {
        return Err(Thrown(TypeError));
      }
      if closeError.Some? {
        return Err(Database(closeError.value));
      }
      db := None;
      r := Ok(());
    }

    /** `insertPartner`: builds the record with `Partner.create`, looks its
        `partnerId` up, and only when the lookup succeeds and finds nothing
        inserts it. */
    method InsertPartner(opts: Option<Obj>, nowMillis: nat, lookupError: Option<DbError>, insertError: Option<DbError>)
      returns (r: Result<InsertAck, Failure>)
      modifies this
      ensures db == old(db)
      ensures var p := Create(opts, nowMillis);
        && (old(db).None? ==>
              r == Err(Thrown(TypeError)) && partners == old(partners))
        && (old(db).Some? && lookupError.Some? ==>
              r == Err(Database(lookupError.value)) && partners == old(partners))
        && (old(db).Some? && lookupError.None? && FindOne(old(partners), "partnerId", p.partnerId).Some? ==>
              r == Err(Client(ErrorObject("PARTNER_ALREADY_EXISTS").value)) && partners == old(partners))
        && (old(db).Some? && lookupError.None? && FindOne(old(partners), "partnerId", p.partnerId).None? ==>
              && (insertError.Some? ==> r == Err(Database(insertError.value)) && partners == old(partners))
              && (insertError.None? ==> r == Ok(InsertAck(p)) && partners == old(partners) + [p]))
      ensures UniqueIds(old(partners)) ==> UniqueIds(partners)
    {
      var partner := Create(opts, nowMillis);
      if db.None? {
        return Err(Thrown(TypeError));
      }
      // Step one: is the partnerId already registered?
      if lookupError.Some? {
        return Err(Database(lookupError.value));
      }
      var existing := FindOne(partners, "partnerId", partner.partnerId);
      if existing.Some? {
        var alreadyExists := ErrorObject("PARTNER_ALREADY_EXISTS");
        return Err(Client(alreadyExists.value));
      }
      // Step two: insert the record.
      if insertError.Some? {
        return Err(Database(insertError.value));
      }
      if UniqueIds(partners) {
        InsertKeepsIdsUnique(partners, partner);
      }
      partners := partners + [partner];
      r := Ok(InsertAck(partner));
    }

    /** `fetchPartner(patnerCd)`: the partners whose `patnerCd` field equals
        the argument, and an empty list rather than null when none does. */
    method FetchPartner(patnerCd: Value, findError: Option<DbError>) returns (r: Result<seq<Partner>, Failure>)
      ensures db.None? ==> r == Err(Thrown(TypeError))
      ensures db.Some? && findError.Some? ==> r == Err(Database(findError.value))
      ensures db.Some? && findError.None? ==> r == Ok(FindAll(partners, "patnerCd", patnerCd))
    {
      if db.None? {
        return Err(Thrown(TypeError));
      }
      if findError.Some? {
        return Err(Database(findError.value));
      }
      var result := FindAll(partners, "patnerCd", patnerCd);
      if result == [] {
        return Ok([]);
      }
      r := Ok(result);
    }
  }

  /** Partner documents have no `patnerCd` field, so a code that is a real
      value matches nothing. */
  lemma {:induction false} FetchByCodeFindsNothing(ps: seq<Partner>, code: Value)
    requires !Nullish(code)
    ensures FindAll(ps, "patnerCd", code) == []
  {
    if ps != [] {
      FetchByCodeFindsNothing(ps[1..], code);
    }
  }

  /** ...while a null or undefined code matches every document, missing field and all. */
  lemma {:induction false} FetchByNullishCodeFindsAll(ps: seq<Partner>, code: Value)
    requires Nullish(code)
    ensures FindAll(ps, "patnerCd", code) == ps
  {
    if ps != [] {
      FetchByNullishCodeFindsAll(ps[1..], code);
    }
  }

  /** The query by partner code the fetch evidently intends. */
  function PartnersWithCode(ps: seq<Partner>, code: Value): (r: seq<Partner>)
    ensures forall p :: p in r <==> p in ps && LooseEq(p.partnerCode, code)
  {
    FindAll(ps, "partnerCode", code)
  }

  /** A partner registered with code "P01" is not found by fetching "P01",
      and is found by the query by partner code. */
  lemma FetchPartnerMissesStoredCode()
    ensures var p := Create(Some(map["partnerId" := Str("acme"), "partnerCode" := Str("P01")]), 0);
      && FindAll([p], "patnerCd", Str("P01")) == []
      && PartnersWithCode([p], Str("P01")) == [p]
  {
    var p := Create(Some(map["partnerId" := Str("acme"), "partnerCode" := Str("P01")]), 0);
    FetchByCodeFindsNothing([p], Str("P01"));
    assert FieldOf(p, "partnerCode") == Str("P01");
  }
}
