/**
 Idempotent replay: the durable record of a checkout, the result rebuilt from it, and the in-progress
 sentinel in Redis.
 */
module Idempotency {
  import opened Schema
  import opened RedisStore

  datatype CheckoutResult = CheckoutResult(
    orderId: OrderId,
    paymentId: PaymentId,
    paymentStatus: string,
    total: nat,
    httpStatus: nat,
    buyer: Buyer)

  /** The response payload stored with the record of a successful checkout. */
  function BodyOf(r: CheckoutResult): map<string, Field>
  {
    map["order_id" := Uuid(r.orderId),
        "payment_id" := Uuid(r.paymentId),
        "payment_status" := Text(r.paymentStatus),
        "total" := Amount(r.total),
        "company_name" := Text(r.buyer.company),
        "tax_number" := Text(r.buyer.taxNumber),
        "purchase_order_reference" := Text(r.buyer.reference)]
  }

  function TextAt(body: map<string, Field>, key: string, default: string): string
  {
    if key in body && body[key].Text? then body[key].text else default
  }

  /** The result rebuilt from a record; None when the body names no order or payment. */
  function ResultOf(record: Record): Option<CheckoutResult>
  {
    var body := if record.body.Some? then record.body.value else map[];
    if "order_id" !in body || !body["order_id"].Uuid? || "payment_id" !in body || !body["payment_id"].Uuid? then None
    else
      Some(CheckoutResult(
        body["order_id"].id,
        body["payment_id"].id,
        TextAt(body, "payment_status", "pending"),
        if "total" in body && body["total"].Amount? then body["total"].cents else 0,
        if record.responseStatus.Some? && record.responseStatus.value != 0 then record.responseStatus.value else 202,
        Buyer(TextAt(body, "company_name", ""), TextAt(body, "tax_number", ""),
              TextAt(body, "purchase_order_reference", ""))))
  }

  /** The record written with a successful checkout. */
  function RecordOf(hash: string, r: CheckoutResult): Record
  {
    Record(hash, RecordSucceeded, Some(r.httpStatus), Some(BodyOf(r)))
  }

  /** The stored payload and the rebuilt result are inverse to each other. */
  lemma ResultRoundTrip(hash: string, r: CheckoutResult)
    requires r.httpStatus != 0
    ensures ResultOf(RecordOf(hash, r)) == Some(r)
    ensures forall record: Record :: record.responseStatus == Some(r.httpStatus) && record.body == Some(BodyOf(r)) ==>
              ResultOf(record) == Some(r)
  {
  }

  /** The stored row of an answer, column by column and field by field. */
  lemma RecordHoldsTheAnswer(hash: string, r: CheckoutResult)
    ensures var record := RecordOf(hash, r);
            && record.hash == hash && record.status == RecordSucceeded && record.responseStatus == Some(r.httpStatus)
            && record.body.Some?
            && var body := record.body.value;
            && body.Keys == {"order_id", "payment_id", "payment_status", "total", "company_name", "tax_number",
                             "purchase_order_reference"}
            && body["order_id"] == Uuid(r.orderId) && body["payment_id"] == Uuid(r.paymentId)
            && body["payment_status"] == Text(r.paymentStatus) && body["total"] == Amount(r.total)
            && body["company_name"] == Text(r.buyer.company) && body["tax_number"] == Text(r.buyer.taxNumber)
            && body["purchase_order_reference"] == Text(r.buyer.reference)
  {
  }

  /** A text of a stored body: the default when the key is missing. */
  ghost predicate Reads(body: map<string, Field>, key: string, default: string, text: string)
  {
    if key in body && body[key].Text? then text == body[key].text else text == default
  }

  /** What is rebuilt from any stored row: nothing without the two identifiers, and defaults for the rest. */
  lemma RebuiltFromAnyBody(record: Record)
    ensures var r := ResultOf(record);
            && (r.Some? <==> record.body.Some? && "order_id" in record.body.value && record.body.value["order_id"].Uuid?
                             && "payment_id" in record.body.value && record.body.value["payment_id"].Uuid?)
            && (r.Some? ==>
                  var body := record.body.value;
                  && body["order_id"] == Uuid(r.value.orderId) && body["payment_id"] == Uuid(r.value.paymentId)
                  && Reads(body, "payment_status", "pending", r.value.paymentStatus)
                  && (if "total" in body && body["total"].Amount? then body["total"] == Amount(r.value.total) else r.value.total == 0)
                  && (record.responseStatus == Some(r.value.httpStatus)
                      || (r.value.httpStatus == 202 && (record.responseStatus.None? || record.responseStatus == Some(0))))
                  && (record.responseStatus == Some(0) ==> r.value.httpStatus == 202)
                  && Reads(body, "company_name", "", r.value.buyer.company)
                  && Reads(body, "tax_number", "", r.value.buyer.taxNumber)
                  && Reads(body, "purchase_order_reference", "", r.value.buyer.reference))
  {
  }

  // ---------------------------------------------------------------- manager

  datatype Check = Conflict | Replay(record: Record) | InProgress | Fresh

  /** What the durable record alone decides; None when it decides nothing. */
  function RecordDecides(records: map<(TenantId, Key), Record>, tenant: TenantId, key: Key, hash: string): Option<Check>
  {
    if (tenant, key) !in records then None
    else
      var record := records[(tenant, key)];
      if record.hash != hash then Some(Conflict)
      else if record.status.RecordSucceeded? then Some(Replay(record))
      else None
  }

  class IdempotencyManager {
    const redis: Redis
    const inProgressTtl: int

    constructor (redis: Redis, inProgressTtl: int)
      ensures this.redis == redis && this.inProgressTtl == inProgressTtl
    {
      this.redis := redis;
      this.inProgressTtl := inProgressTtl;
    }

    /** The durable record is asked first, the sentinel only when it decides nothing; nothing is written. */
    method CheckForReplay(d: Database, tenant: TenantId, key: Key, hash: string, now: int) returns (r: Check)
      ensures r == Conflict <==> (tenant, key) in d.records && d.records[(tenant, key)].hash != hash
      ensures r.Replay? <==> (tenant, key) in d.records && d.records[(tenant, key)].hash == hash
                             && d.records[(tenant, key)].status == RecordSucceeded
      ensures r.Replay? ==> r.record == d.records[(tenant, key)]
      ensures r == InProgress ==> SentinelKey(tenant, key) in redis.store && now < redis.store[SentinelKey(tenant, key)].expires
      ensures RecordDecides(d.records, tenant, key, hash).Some? ==> Some(r) == RecordDecides(d.records, tenant, key, hash)
      ensures RecordDecides(d.records, tenant, key, hash).None? ==>
                r == if Live(redis.store, SentinelKey(tenant, key), now).Some? then InProgress else Fresh
    {
      if (tenant, key) in d.records {
        var record := d.records[(tenant, key)];
        if record.hash != hash {
          return Conflict;
        }
        if record.status.RecordSucceeded? {
          return Replay(record);
        }
      }
      var mark := redis.Get(SentinelKey(tenant, key), now);
      r := if mark.Some? then InProgress else Fresh;
    }

    /** False when the sentinel was already there. */
    method MarkInProgress(tenant: TenantId, key: Key, now: int) returns (marked: bool)
      modifies redis
      ensures marked <==> old(Live(redis.store, SentinelKey(tenant, key), now)).None?
      ensures redis.store == if marked then old(redis.store)[SentinelKey(tenant, key) := Entry(Mark, now + inProgressTtl)]
                             else old(redis.store)
    {
      marked := redis.SetNx(SentinelKey(tenant, key), Mark, now, inProgressTtl);
    }

    /** Deletes the sentinel, whoever set it. */
    method ClearInProgress(tenant: TenantId, key: Key)
      modifies redis
      ensures redis.store == old(redis.store) - {SentinelKey(tenant, key)}
    {
      redis.Delete(SentinelKey(tenant, key));
    }
  }
}
