/** Invoice creation for an order and lookup of an order's invoice
    (Model/Service/InvoiceHandlerService.php). */
module InvoiceHandler {
  import opened Php
  import opened Sales

  /** Which platform call, if any, throws while an invoice is created; its
      message is what gets logged. */
  datatype InvoiceFault =
    | NoFault
    | PrepareFails(message: string)
    | RegisterFails(message: string)
    | SaveFails(message: string)

  /** The calls `createInvoice` makes: prepare, request online capture,
      register, save; a throwing call cuts the run short and is logged. */
  function InvoiceTrace(fault: InvoiceFault): seq<Event>
  {
    match fault
    case NoFault =>
      [InvoicePrepared, CaptureCaseRequested(CAPTURE_ONLINE), InvoiceRegistered,
       InvoiceSaved(CAPTURE_ONLINE, true)]
    case PrepareFails(m) => [Logged(m)]
    case RegisterFails(m) => [InvoicePrepared, CaptureCaseRequested(CAPTURE_ONLINE), Logged(m)]
    case SaveFails(m) => [InvoicePrepared, CaptureCaseRequested(CAPTURE_ONLINE), InvoiceRegistered, Logged(m)]
  }

  /** An invoice reaches the repository only when no call threw, and whatever
      is saved was registered and asks for online capture. */
  lemma InvoiceSavedOnlyOnline(fault: InvoiceFault)
    ensures (exists i :: 0 <= i < |InvoiceTrace(fault)| && InvoiceTrace(fault)[i].InvoiceSaved?) <==> fault == NoFault
    ensures forall e :: e in InvoiceTrace(fault) && e.InvoiceSaved? ==> e == InvoiceSaved(CAPTURE_ONLINE, true)
  {
    if fault == NoFault {
      assert InvoiceTrace(fault)[3].InvoiceSaved?;
    }
  }

  /** Registration always comes before the save, and the capture case is
      requested before either. */
  lemma InvoiceStepsOrdered(fault: InvoiceFault, i: nat, j: nat)
    requires i < |InvoiceTrace(fault)| && j < |InvoiceTrace(fault)|
    requires InvoiceTrace(fault)[j].InvoiceSaved? || InvoiceTrace(fault)[j].InvoiceRegistered?
    requires InvoiceTrace(fault)[i].CaptureCaseRequested? || InvoiceTrace(fault)[i].InvoiceRegistered?
    requires InvoiceTrace(fault)[i] != InvoiceTrace(fault)[j]
    ensures i < j
  {
  }

  /** A failing run ends with exactly one log line, carrying the exception's
      message; a successful run logs nothing. */
  lemma InvoiceFailureLogged(fault: InvoiceFault)
    ensures fault != NoFault ==> InvoiceTrace(fault)[|InvoiceTrace(fault)| - 1] == Logged(fault.message)
    ensures forall i :: 0 <= i < |InvoiceTrace(fault)| - 1 ==> !InvoiceTrace(fault)[i].Logged?
    ensures fault == NoFault ==> forall e :: e in InvoiceTrace(fault) ==> !e.Logged?
  {
  }

  class InvoiceHandlerService {
    var order: Order?
    const journal: Journal

    constructor (journal: Journal)
      ensures this.journal == journal && order == null
    {
      this.journal := journal;
      order := null;
    }

    /** Stores the order, then creates an invoice when the order can be
        invoiced; returns null on every path. */
    method ProcessInvoice(order: Order, fault: InvoiceFault) returns (r: Value, ghost invoice: Invoice?)
      modifies this`order, journal
      ensures this.order == order
      ensures r == Null
      ensures journal.events == old(journal.events) + (if order.canInvoice then InvoiceTrace(fault) else [])
      ensures !order.canInvoice ==> invoice == null
      ensures order.canInvoice && !fault.PrepareFails? ==>
                invoice != null && fresh(invoice) && invoice.order == order &&
                invoice.requestedCaptureCase == CAPTURE_ONLINE && invoice.registered == !fault.RegisterFails?
    {
      this.order := order;
      r := Null;
      invoice := null;
      if this.order.canInvoice {
        r, invoice := CreateInvoice(fault);
      }
    }

    /** Prepares an invoice for the stored order, asks for online capture,
        registers it and saves it; a throwing call is logged and null
        returned. Null is returned on success too. */
    method CreateInvoice(fault: InvoiceFault) returns (r: Value, ghost invoice: Invoice?)
      requires order != null
      modifies journal
      ensures r == Null
      ensures journal.events == old(journal.events) + InvoiceTrace(fault)
      ensures fault.PrepareFails? ==> invoice == null
      ensures !fault.PrepareFails? ==>
                invoice != null && fresh(invoice) && invoice.order == order &&
                invoice.requestedCaptureCase == CAPTURE_ONLINE && invoice.registered == !fault.RegisterFails?
    {
      r := Null;
      invoice := null;
      if fault.PrepareFails? {
        journal.Record(Logged(fault.message));
        return;
      }
      var inv := new Invoice.Prepare(order);
      invoice := inv;
      journal.Record(InvoicePrepared);
      inv.requestedCaptureCase := CAPTURE_ONLINE;
      journal.Record(CaptureCaseRequested(CAPTURE_ONLINE));
      if fault.RegisterFails? {
        journal.Record(Logged(fault.message));
        return;
      }
      inv.registered := true;
      journal.Record(InvoiceRegistered);
      if fault.SaveFails? {
        journal.Record(Logged(fault.message));
        return;
      }
      journal.Record(InvoiceSaved(inv.requestedCaptureCase, inv.registered));
    }

    /** The increment id the invoice is loaded by: that of the last invoice in
        the order's collection, or null (an unset variable) when it is empty. */
    method GetInvoice(order: Order) returns (incrementId: Value)
      ensures |order.invoiceCollection| == 0 ==> incrementId == Null
      ensures |order.invoiceCollection| > 0 ==>
                incrementId == order.invoiceCollection[|order.invoiceCollection| - 1].incrementId
    {
      var invoices := order.invoiceCollection;
      incrementId := Null;
      var i := 0;
      while i < |invoices|
        invariant 0 <= i <= |invoices|
        invariant i == 0 ==> incrementId == Null
        invariant i > 0 ==> incrementId == invoices[i - 1].incrementId
      {
        incrementId := invoices[i].incrementId;
        i := i + 1;
      }
    }
  }
}
