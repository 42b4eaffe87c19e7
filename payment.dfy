/**
 * The payment service: request validation, a simulated failure drawn from a
 * fixed table, and an append-only log of completed payments that can be
 * looked up by order id.
 *
 * The service's random draws are inputs here: `Draw` says whether the
 * failure roll fired and, if so, which entry of `ErrorTypes` was chosen;
 * the uuid of a new order is passed in as `orderId`.
 */
module Payment {
  import opened Wrappers

  type UserId = string
  type OrderId = string

  /** One completed payment, as appended to the log. */
  datatype PaymentRecord = PaymentRecord(orderId: OrderId, userId: UserId, amount: int, status: string)

  const Completed: string := "completed"

  /** The simulated failures, each with its message and HTTP status. */
  const ErrorTypes: seq<(string, int)> := [
    ("Payment gateway timeout", 504),
    ("Insufficient funds", 402),
    ("Service temporarily unavailable", 503),
    ("Invalid payment method", 400)
  ]

  /** An index into `ErrorTypes`: the outcome of `random.choice`. */
  type ErrorChoice = i: int | 0 <= i < 4

  /** The outcome of the failure roll: no failure, or the failure chosen from the table. */
  datatype Draw = Approve | Fail(choice: ErrorChoice)

  /** The reply of `POST /process`. */
  datatype ProcessResponse =
    | MissingFields                             // 400, "Missing user_id or amount"
    | SimulatedFailure(choice: ErrorChoice)     // the chosen entry of ErrorTypes
    | Processed(orderId: OrderId, amount: int)  // 200, status "success"
  {
    function Status(): int
    {
      match this
      case MissingFields => 400
      case SimulatedFailure(choice) => ErrorTypes[choice].1
      case Processed(_, _) => 200
    }

    /** The `error` field of a failure reply. */
    function Error(): string
      requires !Processed?
    {
      match this
      case MissingFields => "Missing user_id or amount"
      case SimulatedFailure(choice) => ErrorTypes[choice].0
    }
  }

  /** The reply of `GET /payments/<order_id>`. */
  datatype LookupResponse = PaymentFound(record: PaymentRecord) | PaymentNotFound {
    function Status(): int
    {
      if PaymentFound? then 200 else 404
    }
  }

  /** Python truthiness of a JSON string field: absent and "" are falsy. */
  predicate TruthyText(s: Option<string>)
  {
    s.Some? && s.value != ""
  }

  /** Python truthiness of a JSON number field: absent and 0 are falsy. */
  predicate TruthyNumber(n: Option<int>)
  {
    n.Some? && n.value != 0
  }

  /** A simulated failure has one of the table's four codes, with that code's message, and never 200. */
  lemma FailureTable(choice: ErrorChoice)
    ensures var r := SimulatedFailure(choice);
      && r.Status() in {504, 402, 503, 400}
      && (r.Status() == 504 <==> r.Error() == "Payment gateway timeout")
      && (r.Status() == 402 <==> r.Error() == "Insufficient funds")
      && (r.Status() == 503 <==> r.Error() == "Service temporarily unavailable")
      && (r.Status() == 400 <==> r.Error() == "Invalid payment method")
  {
  }

  /** Status 200 is given exactly for a processed payment. */
  lemma SuccessStatus(r: ProcessResponse)
    ensures r.Status() == 200 <==> r.Processed?
  {
    if r.SimulatedFailure? {
      FailureTable(r.choice);
    }
  }

  /** The first record of `log` with order id `orderId`, if any. */
  function FindPayment(log: seq<PaymentRecord>, orderId: OrderId): (r: Option<PaymentRecord>)
    ensures r.None? <==> forall i :: 0 <= i < |log| ==> log[i].orderId != orderId
    ensures r.Some? ==> r.value in log && r.value.orderId == orderId
    ensures r.Some? ==> forall i :: 0 <= i < |log| && log[i].orderId == orderId ==>
                          exists k :: 0 <= k <= i && log[k] == r.value
  {
    if log == [] then None
    else if log[0].orderId == orderId then Some(log[0])
    else
      var rest := FindPayment(log[1..], orderId);
      assert forall i :: 0 < i < |log| ==> log[i] == log[1..][i - 1];
      assert rest.Some? ==> forall i :: 0 <= i < |log| && log[i].orderId == orderId ==>
                              exists k :: 0 <= k <= i && log[k] == rest.value by {
        if rest.Some? {
          forall i | 0 <= i < |log| && log[i].orderId == orderId
            ensures exists k :: 0 <= k <= i && log[k] == rest.value
          {
            var k :| 0 <= k <= i - 1 && log[1..][k] == rest.value;
            assert log[k + 1] == rest.value;
          }
        }
      }
      rest
  }

  /** Appending a record whose order id is new makes that id find that record. */
  lemma {:induction false} FindAppendedPayment(log: seq<PaymentRecord>, rec: PaymentRecord)
    requires forall i :: 0 <= i < |log| ==> log[i].orderId != rec.orderId
    ensures FindPayment(log + [rec], rec.orderId) == Some(rec)
  {
    if log != [] {
      assert (log + [rec])[1..] == log[1..] + [rec];
      FindAppendedPayment(log[1..], rec);
    }
  }

  /** Appending a record leaves every earlier answer of the lookup in place. */
  lemma {:induction false} FindAfterAppend(log: seq<PaymentRecord>, rec: PaymentRecord, orderId: OrderId)
    requires orderId != rec.orderId || FindPayment(log, orderId).Some?
    ensures FindPayment(log + [rec], orderId) == FindPayment(log, orderId)
  {
    if log != [] {
      assert (log + [rec])[1..] == log[1..] + [rec];
      if log[0].orderId != orderId {
        FindAfterAppend(log[1..], rec, orderId);
      }
    }
  }

  /** The payment service's state: the log of completed payments. */
  class PaymentProcessor {
    var processed: seq<PaymentRecord>

    /** The service starts with an empty log. */
    constructor ()
      ensures processed == []
    {
      processed := [];
    }

    /**
     * `POST /process`. A request without a truthy `user_id` and `amount` is
     * rejected. Otherwise, after the simulated processing delay, either the
     * drawn failure is returned, or a record is appended and returned.
     */
    method ProcessPayment(userId: Option<UserId>, amount: Option<int>, draw: Draw, orderId: OrderId)
      returns (resp: ProcessResponse)
      modifies this
      ensures !(TruthyText(userId) && TruthyNumber(amount)) ==>
                resp == MissingFields && resp.Status() == 400 && processed == old(processed)
      ensures TruthyText(userId) && TruthyNumber(amount) && draw.Fail? ==>
                resp == SimulatedFailure(draw.choice) && processed == old(processed)
      ensures TruthyText(userId) && TruthyNumber(amount) && draw.Approve? ==>
                resp == Processed(orderId, amount.value) && resp.Status() == 200
                && processed == old(processed) + [PaymentRecord(orderId, userId.value, amount.value, Completed)]
      ensures resp.Processed? <==> |processed| == |old(processed)| + 1
      ensures resp.Processed? ==> processed[|processed| - 1].orderId == resp.orderId
                                  && processed[|processed| - 1].amount == resp.amount
      ensures !resp.Processed? ==> processed == old(processed)
      ensures old(processed) <= processed
    {
      if !TruthyText(userId) || !TruthyNumber(amount) {
        return MissingFields;
      }
      if draw.Fail? {
        return SimulatedFailure(draw.choice);
      }
      var record := PaymentRecord(orderId, userId.value, amount.value, Completed);
      processed := processed + [record];
      resp := Processed(orderId, amount.value);
    }

    /** `GET /payments/<order_id>`: the first record with that order id, else 404. */
    function GetPayment(orderId: OrderId): (r: LookupResponse)
      reads this
      ensures r.PaymentNotFound? <==> forall i :: 0 <= i < |processed| ==> processed[i].orderId != orderId
      ensures r.PaymentFound? ==> r.record in processed && r.record.orderId == orderId && r.Status() == 200
      ensures r.PaymentFound? ==> forall i :: 0 <= i < |processed| && processed[i].orderId == orderId ==>
                                    exists k :: 0 <= k <= i && processed[k] == r.record
    {
      match FindPayment(processed, orderId)
      case Some(p) => PaymentFound(p)
      case None => PaymentNotFound
    }
  }

  /** A successful payment under a fresh order id can be read back by that id. */
  method PayThenLookUp(p: PaymentProcessor, userId: UserId, amount: int, orderId: OrderId)
    returns (resp: ProcessResponse, found: LookupResponse)
    requires userId != "" && amount != 0
    requires forall i :: 0 <= i < |p.processed| ==> p.processed[i].orderId != orderId
    modifies p
    ensures resp == Processed(orderId, amount)
    ensures found == PaymentFound(PaymentRecord(orderId, userId, amount, Completed))
    ensures found.record.orderId == resp.orderId && found.record.amount == resp.amount
  {
    ghost var before := p.processed;
    resp := p.ProcessPayment(Some(userId), Some(amount), Approve, orderId);
    FindAppendedPayment(before, PaymentRecord(orderId, userId, amount, Completed));
    found := p.GetPayment(orderId);
  }
}
