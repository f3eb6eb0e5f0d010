/** The Partner record (app/model/partner.js): built from registration
    options by copying four fields, defaulting the status and stamping the
    creation time in Unix seconds. The clock is a parameter. */
module Partner {
  import opened Wrappers
  import opened Js

  datatype Partner = Partner(
    createdOn: int,
    partnerId: Value,
    passwd: Value,
    partnerName: Value,
    partnerCode: Value,
    status: Value)

  /** The option names `create` reads. */
  const ReadFields: set<string> := {"partnerId", "passwd", "partnerName", "partnerCode", "status"}

  /** `opts || {}`: absent options behave as an empty object. */
  function OptionsOrEmpty(opts: Option<Obj>): Obj {
    opts.GetOr(map[])
  }

  /** `Partner.create(opts)` at clock `nowMillis` (milliseconds since the epoch). */
  function Create(opts: Option<Obj>, nowMillis: nat): (p: Partner)
    ensures p.createdOn * 1000 <= nowMillis < p.createdOn * 1000 + 1000
    ensures Truthy(p.status)
  {
    var o := OptionsOrEmpty(opts);
    Partner(
      nowMillis / 1000,
      Get(o, "partnerId"),
      Get(o, "passwd"),
      Get(o, "partnerName"),
      Get(o, "partnerCode"),
      Or(Get(o, "status"), Str("normal")))
  }

  /** `Partner.fromObj(obj)` delegates to `create`. */
  function FromObj(obj: Option<Obj>, nowMillis: nat): (p: Partner)
    ensures p == Create(obj, nowMillis)
  {
    Create(obj, nowMillis)
  }

  /** The four identity fields are the option values verbatim; the status is
      the given one when truthy and "normal" otherwise. */
  lemma CreateCopiesFields(opts: Obj, nowMillis: nat)
    ensures var p := Create(Some(opts), nowMillis);
      && p.partnerId == Get(opts, "partnerId")
      && p.passwd == Get(opts, "passwd")
      && p.partnerName == Get(opts, "partnerName")
      && p.partnerCode == Get(opts, "partnerCode")
      && (Truthy(Get(opts, "status")) ==> p.status == Get(opts, "status"))
      && (!Truthy(Get(opts, "status")) ==> p.status == Str("normal"))
  {
  }

  /** No option other than the five read ones has any influence on the record. */
  lemma CreateIgnoresOtherFields(opts: Obj, key: string, v: Value, nowMillis: nat)
    requires key !in ReadFields
    ensures Create(Some(opts[key := v]), nowMillis) == Create(Some(opts), nowMillis)
  {
  }

  /** Absent options: every copied field is undefined and the status is "normal". */
  lemma CreateWithoutOptions(nowMillis: nat)
    ensures Create(None, nowMillis) == Create(Some(map[]), nowMillis)
    ensures Create(None, nowMillis) == Partner(nowMillis / 1000, Undefined, Undefined, Undefined, Undefined, Str("normal"))
  {
  }
}
