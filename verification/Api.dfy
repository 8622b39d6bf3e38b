/** The HTTP handler of one process: accept or refuse a payment, purge, summarise. */
module Api {
  import opened Types
  import opened Bytes
  import opened Records
  import opened Ledger
  import opened Repository
  import opened Queue

  const OK: int := 200
  const UNPROCESSABLE: int := 422

  class HttpApi {
    const env: Environment
    const service: PaymentService
    const queue: PendingPaymentsQueue

    constructor (env: Environment, service: PaymentService, queue: PendingPaymentsQueue)
      ensures this.env == env && this.service == service && this.queue == queue
    {
      this.env := env;
      this.service := service;
      this.queue := queue;
    }

    /** POST /payments; `id` and `amount` are absent when the body lacks a string or a number of that name. */
    method PostPayments(id: Option<seq<Byte>>, amount: Option<Word>) returns (status: int)
      modifies queue
      ensures status == 200 <==> id.Some? && amount.Some? && |id.value| == 36 && 0 < amount.value < 0x8000_0000_0000_0000
      ensures status == 200 ==> queue.queue == old(queue.queue) + [Payment(amount.value, id.value)]
      ensures status != 200 ==> status == 422 && queue.queue == old(queue.queue)
    {
      if id.Some? && amount.Some? {
        AcceptableIff(id.value, amount.value);
      }
      status := UNPROCESSABLE;
      if id.Some? && amount.Some? {
        if |id.value| == ID_SIZE && AmountOf(amount.value) > 0.0 {
          status := OK;
          queue.Enqueue(Payment(amount.value, id.value));
        }
      }
    }

    /** POST /purge-payments: both tables, then this process's queue. */
    method PurgePayments() returns (status: int)
      requires service.Valid() && !env.writing
      modifies env, queue
      ensures status == OK && !env.writing
      ensures env.tables == Tables([], []) && queue.queue == []
    {
      service.Purge(env);
      queue.Purge();
      status := OK;
    }

    /** GET /payments-summary: over clock-made records and a range not starting before 1970,
        the exact count and sum of the records in range. */
    method GetPaymentsSummary(from: Option<Int64>, to: Option<Int64>) returns (onDefault: Summary, onFallback: Summary)
      requires service.Valid() && env.tables.Valid(env.endian)
      modifies env
      ensures env.tables == old(env.tables) && env.writing == old(env.writing)
      ensures onDefault == ScanSummary(RecordsOf(env.endian, env.tables.defaultTable), from, to)
      ensures onFallback == ScanSummary(RecordsOf(env.endian, env.tables.fallbackTable), from, to)
      ensures var d, f := RecordsOf(env.endian, env.tables.defaultTable), RecordsOf(env.endian, env.tables.fallbackTable);
              Clocked(d) && Clocked(f) && (from.None? || from.value >= 0) ==>
                onDefault == NaiveSummary(d, from, to) && onFallback == NaiveSummary(f, from, to)
    {
      onDefault, onFallback := service.GetPaymentsSummary(env, from, to);
      if from.None? || from.value >= 0 {
        if Clocked(RecordsOf(env.endian, env.tables.defaultTable)) {
          ClockVisitedIsSelected(RecordsOf(env.endian, env.tables.defaultTable), from, to);
        }
        if Clocked(RecordsOf(env.endian, env.tables.fallbackTable)) {
          ClockVisitedIsSelected(RecordsOf(env.endian, env.tables.fallbackTable), from, to);
        }
      }
    }
  }
}
