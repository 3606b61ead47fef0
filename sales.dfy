/** The platform's sales objects that the payment services read and update in
    place: orders, their payment, gateway transactions and invoices. Calls
    whose effect lies outside these objects (order comments, status changes,
    invoice steps, saves, log lines) are recorded, in call order, in a
    journal. */
module Sales {
  import opened Php

  /** The platform's transaction type codes. */
  const TYPE_AUTH: string := "authorization"
  const TYPE_CAPTURE: string := "capture"

  /** The platform's "capture online" invoice capture case. */
  const CAPTURE_ONLINE: string := "online"

  /** Key under which a transaction keeps the flattened gateway response. */
  const RAW_DETAILS: string := "raw_details_info"

  /** One observable call made while recording a transaction or an invoice. */
  datatype Event =
    | CommentAdded(transactionId: Value, phrase: string, amount: string)
    | StatusSet(status: Value)
    | InvoicePrepared
    | CaptureCaseRequested(captureCase: string)
    | InvoiceRegistered
    | InvoiceSaved(captureCase: string, registered: bool)
    | PaymentSaved(payment: PaymentState)
    | TransactionSaved(transactionId: Value)
    | OrderSaved(status: Value)
    | Logged(message: string)

  /** The fields of a payment as a save writes them. */
  datatype PaymentState = PaymentState(
    methodCode: string,
    lastTransId: Value,
    transactionId: Value,
    isTransactionClosed: bool,
    parentTransactionId: Value)

  /** The calls made so far, oldest first. */
  class Journal {
    var events: seq<Event>

    constructor ()
      ensures events == []
    {
      events := [];
    }

    method Record(e: Event)
      modifies this
      ensures events == old(events) + [e]
    {
      events := events + [e];
    }
  }

  /** An order's payment. `instanceCode` is the code of the payment method
      instance the platform resolves for it. */
  class Payment {
    const instanceCode: string
    var methodCode: string
    var lastTransId: Value
    var transactionId: Value
    var isTransactionClosed: bool
    var parentTransactionId: Value

    constructor (instanceCode: string, methodCode: string)
      ensures this.instanceCode == instanceCode && this.methodCode == methodCode
      ensures lastTransId == Null && transactionId == Null && parentTransactionId == Null
      ensures !isTransactionClosed
    {
      this.instanceCode := instanceCode;
      this.methodCode := methodCode;
      lastTransId, transactionId, parentTransactionId := Null, Null, Null;
      isTransactionClosed := false;
    }
  }

  /** The payment's fields as they stand now. */
  function Snapshot(p: Payment): PaymentState
    reads p
  {
    PaymentState(p.methodCode, p.lastTransId, p.transactionId, p.isTransactionClosed, p.parentTransactionId)
  }

  /** An order. `canInvoice` is the platform's own verdict on whether the
      order still has something to invoice; `invoiceCollection` is the
      order's invoices in the collection's iteration order. */
  class Order {
    const payment: Payment
    var status: Value
    var canInvoice: bool
    var invoiceCollection: seq<Invoice>

    constructor (payment: Payment, status: Value, canInvoice: bool)
      ensures this.payment == payment && this.status == status && this.canInvoice == canInvoice
      ensures invoiceCollection == []
    {
      this.payment := payment;
      this.status := status;
      this.canInvoice := canInvoice;
      invoiceCollection := [];
    }
  }

  /** A gateway transaction as the transaction builder produces it. */
  class Transaction {
    const txnId: Value
    const txnType: string
    const additionalInformation: seq<Entry>
    const failSafe: bool

    constructor Build(txnId: Value, txnType: string, additionalInformation: seq<Entry>, failSafe: bool)
      ensures this.txnId == txnId && this.txnType == txnType
      ensures this.additionalInformation == additionalInformation && this.failSafe == failSafe
    {
      this.txnId := txnId;
      this.txnType := txnType;
      this.additionalInformation := additionalInformation;
      this.failSafe := failSafe;
    }
  }

  /** An invoice of an order. */
  class Invoice {
    const order: Order
    var incrementId: Value
    var requestedCaptureCase: string
    var registered: bool

    /** The invoice service's skeleton for an order: no capture case yet, not registered. */
    constructor Prepare(order: Order)
      ensures this.order == order && incrementId == Null
      ensures requestedCaptureCase == "" && !registered
    {
      this.order := order;
      incrementId := Null;
      requestedCaptureCase := "";
      registered := false;
    }
  }
}
