/** Recording a gateway transaction against an order, flattening the gateway
    response stored with it, and listing an order's transactions by type
    (Model/Service/TransactionHandlerService.php). */
module TransactionHandler {
  import opened Base
  import opened Php
  import opened Sales
  import opened InvoiceHandler

  /** The gateway's navigation block, dropped before flattening. */
  const LINKS: string := "_links"

  const AUTHORIZED_PHRASE: string := "The authorized amount is %1."
  const CAPTURED_PHRASE: string := "The captured amount is %1."

  // ---------------------------------------------------------------------------
  // Flattening the gateway response

  /** The pairs `$key . '_' . $k => $v` for the entries of a nested array. */
  function Prefixed(key: string, es: seq<Entry>): (ps: seq<Entry>)
    ensures |ps| == |es|
    ensures forall j :: 0 <= j < |es| ==> ps[j] == (key + "_" + es[j].0, es[j].1)
  {
    seq(|es|, j requires 0 <= j < |es| => (key + "_" + es[j].0, es[j].1))
  }

  /** What one top-level entry writes to the flat record: a nested array its
      entries under prefixed keys, any other value itself. */
  function EntryPairs(e: Entry): seq<Entry>
  {
    if e.1.Arr? then Prefixed(e.0, e.1.entries) else [e]
  }

  /** Every pair written to the flat record, in the order the loops write them. */
  function FlatPairs(r: seq<Entry>): seq<Entry>
    decreases |r|
  {
    if |r| == 0 then [] else FlatPairs(r[..|r| - 1]) + EntryPairs(r[|r| - 1])
  }

  /** The response the loops run over: `_links` removed when it is set
      (`isset` is false for a null value, so a null `_links` stays). */
  function WithoutLinks(r: seq<Entry>): seq<Entry>
  {
    if IsSet(r, LINKS) then Remove(r, LINKS) else r
  }

  /** The flat record `buildDataArray` returns. */
  function Flattened(r: seq<Entry>): seq<Entry>
  {
    PutAll([], FlatPairs(WithoutLinks(r)))
  }

  /** The record after the first `j` nested entries of an array at `key`
      are written to `out`, one assignment at a time. */
  function PutNested(out: seq<Entry>, key: string, es: seq<Entry>, j: nat): seq<Entry>
    requires j <= |es|
  {
    if j == 0 then out else Put(PutNested(out, key, es, j - 1), key + "_" + es[j - 1].0, es[j - 1].1)
  }

  /** The record after one top-level entry is written to `out`. */
  function PutEntry(out: seq<Entry>, e: Entry): seq<Entry>
  {
    if e.1.Arr? then PutNested(out, e.0, e.1.entries, |e.1.entries|) else Put(out, e.0, e.1)
  }

  /** The record after the first `i` top-level entries are written. */
  function FlattenPrefix(r: seq<Entry>, i: nat): seq<Entry>
    requires i <= |r|
  {
    if i == 0 then [] else PutEntry(FlattenPrefix(r, i - 1), r[i - 1])
  }

  /** Writing nested entries one by one is assigning their prefixed pairs in turn. */
  lemma {:induction false} PutNestedIs(out: seq<Entry>, key: string, es: seq<Entry>, j: nat)
    requires j <= |es|
    ensures PutNested(out, key, es, j) == PutAll(out, Prefixed(key, es[..j]))
  {
    if j > 0 {
      PutNestedIs(out, key, es, j - 1);
      assert Prefixed(key, es[..j]) == Prefixed(key, es[..j - 1]) + [(key + "_" + es[j - 1].0, es[j - 1].1)];
      PutAllSnoc(out, Prefixed(key, es[..j - 1]), (key + "_" + es[j - 1].0, es[j - 1].1));
    }
  }

  /** Writing an entry is assigning its pairs in turn. */
  lemma PutEntryIs(out: seq<Entry>, e: Entry)
    ensures PutEntry(out, e) == PutAll(out, EntryPairs(e))
  {
    if e.1.Arr? {
      PutNestedIs(out, e.0, e.1.entries, |e.1.entries|);
      assert e.1.entries[..|e.1.entries|] == e.1.entries;
    } else {
      assert PutAll(out, [e]) == Put(PutAll(out, []), e.0, e.1);
    }
  }

  /** Writing entries one by one is assigning every written pair in turn. */
  lemma {:induction false} FlattenPrefixIs(r: seq<Entry>, i: nat)
    requires i <= |r|
    ensures FlattenPrefix(r, i) == PutAll([], FlatPairs(r[..i]))
  {
    if i > 0 {
      var prev, done, e := FlattenPrefix(r, i - 1), FlatPairs(r[..i - 1]), r[i - 1];
      FlattenPrefixIs(r, i - 1);
      FlattenStep(prev, done, e);
      FlatPairsStep(r, i);
    }
  }

  /** Writing one more entry to the record of some written pairs extends them by its own. */
  lemma FlattenStep(prev: seq<Entry>, done: seq<Entry>, e: Entry)
    requires prev == PutAll([], done)
    ensures PutEntry(prev, e) == PutAll([], done + EntryPairs(e))
  {
    PutEntryIs(prev, e);
    PutAllAppend([], done, EntryPairs(e));
  }

  lemma FlatPairsSnoc(r: seq<Entry>, e: Entry)
    ensures FlatPairs(r + [e]) == FlatPairs(r) + EntryPairs(e)
  {
    assert (r + [e])[..|r|] == r;
  }

  /** One more top-level entry extends the written pairs by its own. */
  lemma FlatPairsStep(r: seq<Entry>, i: nat)
    requires 0 < i <= |r|
    ensures FlatPairs(r[..i]) == FlatPairs(r[..i - 1]) + EntryPairs(r[i - 1])
  {
    assert r[..i][..i - 1] == r[..i - 1];
  }

  /** A pair is written exactly when some top-level entry contributes it. */
  lemma {:induction false} FlatPairsMember(r: seq<Entry>, p: Entry)
    ensures p in FlatPairs(r) <==> exists i :: 0 <= i < |r| && p in EntryPairs(r[i])
    decreases |r|
  {
    if |r| > 0 {
      var init := r[..|r| - 1];
      FlatPairsMember(init, p);
      assert forall i :: 0 <= i < |init| ==> init[i] == r[i];
      if p in EntryPairs(r[|r| - 1]) {
        assert p in FlatPairs(r);
      }
    }
  }

  /** What an entry contributes: a non-array value unchanged under its own
      key, or each nested entry `k => v` as `key_k => v`, with `v` kept as it
      is even when it is itself an array (one level only). */
  lemma EntryPairsMember(e: Entry, p: Entry)
    ensures !e.1.Arr? ==> (p in EntryPairs(e) <==> p == e)
    ensures e.1.Arr? ==> (p in EntryPairs(e) <==>
              exists j :: 0 <= j < |e.1.entries| && p == (e.0 + "_" + e.1.entries[j].0, e.1.entries[j].1))
  {
    if e.1.Arr? && p in EntryPairs(e) {
      var j :| 0 <= j < |EntryPairs(e)| && EntryPairs(e)[j] == p;
      assert p == (e.0 + "_" + e.1.entries[j].0, e.1.entries[j].1);
    }
  }

  /** Each key of the flat record holds the value written to it last, and the
      record's keys are distinct. */
  lemma FlattenedLookup(r: seq<Entry>, k: string)
    ensures Get(Flattened(r), k) == LastPair(FlatPairs(WithoutLinks(r)), k)
    ensures DistinctKeys(Flattened(r))
  {
    PutAllGet([], FlatPairs(WithoutLinks(r)), k);
    PutAllDistinct([], FlatPairs(WithoutLinks(r)));
  }

  /** When no two written pairs share a key, the flat record is exactly the
      written pairs, in order. */
  lemma FlattenedExact(r: seq<Entry>)
    requires DistinctKeys(FlatPairs(WithoutLinks(r)))
    ensures Flattened(r) == FlatPairs(WithoutLinks(r))
  {
    PutAllFresh(FlatPairs(WithoutLinks(r)));
  }

  /** Without key clashes, every top-level non-array entry other than `_links`
      appears unchanged, and every entry `k => v` of an array at `key`
      appears as `key_k => v`. */
  lemma FlattenedKeeps(r: seq<Entry>, i: nat, p: Entry)
    requires i < |r| && r[i].0 != LINKS && p in EntryPairs(r[i])
    requires DistinctKeys(FlatPairs(WithoutLinks(r)))
    ensures p in Flattened(r)
  {
    var w := WithoutLinks(r);
    assert r[i] in w by {
      if IsSet(r, LINKS) {
        RemoveKeeps(r, LINKS, i);
      }
    }
    var i' :| 0 <= i' < |w| && w[i'] == r[i];
    FlatPairsMember(w, p);
    FlattenedExact(r);
  }

  /** The `_links` entry, whatever non-null value it holds, contributes nothing. */
  lemma LinksIgnored(r: seq<Entry>, x: Value)
    requires x != Null
    ensures Flattened(Put(r, LINKS, x)) == Flattened(Remove(r, LINKS))
  {
    RemovePut(r, LINKS, x);
    PutGet(r, LINKS, x);
    RemoveGet(r, LINKS, LINKS);
    assert IsSet(Put(r, LINKS, x), LINKS);
    assert !IsSet(Remove(r, LINKS), LINKS);
  }

  /** A null `_links` is not set, so nothing is removed: every entry is
      flattened, and `_links => null` itself is kept when no keys clash. */
  lemma NullLinksKept(r: seq<Entry>)
    requires Get(r, LINKS) == Some(Null)
    ensures Flattened(r) == PutAll([], FlatPairs(r))
    ensures DistinctKeys(FlatPairs(r)) ==> (LINKS, Null) in Flattened(r)
  {
    assert !IsSet(r, LINKS);
    FindFound(r, LINKS);
    var i := Find(r, LINKS);
    assert r[i] == (LINKS, Null);
    assert (LINKS, Null) in EntryPairs(r[i]);
    FlatPairsMember(r, (LINKS, Null));
    if DistinctKeys(FlatPairs(r)) {
      PutAllFresh(FlatPairs(r));
    }
  }

  /** The response `{"id":"tx1","_links":{..},"source":{"type":"card","id":"src1","meta":{"x":1}}}`
      flattens to `{"id":"tx1","source_type":"card","source_id":"src1","source_meta":{"x":1}}`. */
  lemma WorkedExample()
    ensures Flattened([("id", Str("tx1")),
                       (LINKS, Arr([("self", Str("x"))])),
                       ("source", Arr([("type", Str("card")), ("id", Str("src1")), ("meta", Arr([("x", Int(1))]))]))])
         == [("id", Str("tx1")), ("source_type", Str("card")), ("source_id", Str("src1")),
             ("source_meta", Arr([("x", Int(1))]))]
  {
    var source := ("source", Arr([("type", Str("card")), ("id", Str("src1")), ("meta", Arr([("x", Int(1))]))]));
    var r := [("id", Str("tx1")), (LINKS, Arr([("self", Str("x"))])), source];
    FindIs(r, LINKS, 1);
    assert IsSet(r, LINKS);
    var w := [("id", Str("tx1")), source];
    assert Remove(r, LINKS) == w by {
      assert Remove(r[2..], LINKS) == [source] + Remove([], LINKS);
      assert Remove(r[1..], LINKS) == [] + Remove(r[2..], LINKS);
    }
    var out := [("id", Str("tx1")), ("source_type", Str("card")), ("source_id", Str("src1")),
                ("source_meta", Arr([("x", Int(1))]))];
    assert FlatPairs(w[..1]) == [] + [("id", Str("tx1"))];
    var nested := source.1.entries;
    assert EntryPairs(source) == Prefixed("source", nested);
    assert "source" + "_" + "type" == "source_type";
    assert "source" + "_" + "id" == "source_id";
    assert "source" + "_" + "meta" == "source_meta";
    assert Prefixed("source", nested)[0] == ("source_type", Str("card"));
    assert Prefixed("source", nested)[1] == ("source_id", Str("src1"));
    assert Prefixed("source", nested)[2] == ("source_meta", Arr([("x", Int(1))]));
    assert EntryPairs(source) == out[1..];
    assert FlatPairs(w) == FlatPairs(w[..1]) + EntryPairs(source);
    assert FlatPairs(w) == out;
    PutAllFresh(out);
  }

  // ---------------------------------------------------------------------------
  // Recording a transaction

  /** `$data ? $data : getPaymentData($order)`: the given data when it is a
      non-empty array, otherwise the data derived from the order. */
  function PaymentData(data: Option<seq<Entry>>, derived: seq<Entry>): seq<Entry>
  {
    if data.Some? && Truthy(Arr(data.value)) then data.value else derived
  }

  /** `$paymentData['id']`; a missing id reads as null. */
  function PaymentId(paymentData: seq<Entry>): Value
  {
    Index(Arr(paymentData), "id")
  }

  /** The calls the type-specific branches of `createTransaction` make: for
      an authorization a comment and the authorized status; for a capture a
      comment, the invoice run when auto-invoicing is on and the order can be
      invoiced, and the captured status; nothing for any other type. */
  function TypeTrace(txnType: string, tid: Value, amount: string, authorized: Value, captured: Value,
                     autoInvoice: bool, canInvoice: bool, fault: InvoiceFault): seq<Event>
  {
    if txnType == TYPE_AUTH then [CommentAdded(tid, AUTHORIZED_PHRASE, amount), StatusSet(authorized)]
    else if txnType == TYPE_CAPTURE then
      [CommentAdded(tid, CAPTURED_PHRASE, amount)]
      + (if autoInvoice && canInvoice then InvoiceTrace(fault) else [])
      + [StatusSet(captured)]
    else []
  }

  /** The payment, the transaction and the order saved, in that order, with
      the payment's fields and the order's status they write. */
  function Saves(tid: Value, saved: PaymentState, status: Value): seq<Event>
  {
    [PaymentSaved(saved), TransactionSaved(tid), OrderSaved(status)]
  }

  /** Every call `createTransaction` makes, in order: the type-specific
      branch, then the payment, transaction and order saves. */
  function RecordTrace(txnType: string, tid: Value, amount: string, authorized: Value, captured: Value,
                       autoInvoice: bool, canInvoice: bool, fault: InvoiceFault,
                       saved: PaymentState, status: Value): seq<Event>
  {
    TypeTrace(txnType, tid, amount, authorized, captured, autoInvoice, canInvoice, fault)
    + Saves(tid, saved, status)
  }

  predicate IsRecordSave(e: Event)
  {
    e.PaymentSaved? || e.TransactionSaved? || e.OrderSaved?
  }

  predicate IsInvoiceStep(e: Event)
  {
    e.InvoicePrepared? || e.CaptureCaseRequested? || e.InvoiceRegistered? || e.InvoiceSaved? || e.Logged?
  }

  /** The payment, the transaction and the order are saved last, in that
      order, and nothing is saved before. */
  lemma SavesLast(txnType: string, tid: Value, amount: string, authorized: Value, captured: Value,
                  autoInvoice: bool, canInvoice: bool, fault: InvoiceFault,
                  saved: PaymentState, status: Value)
    ensures var t := RecordTrace(txnType, tid, amount, authorized, captured, autoInvoice, canInvoice, fault, saved, status);
      |t| >= 3 && t[|t| - 3..] == Saves(tid, saved, status) &&
      forall i :: 0 <= i < |t| - 3 ==> !IsRecordSave(t[i])
  {
    var t := RecordTrace(txnType, tid, amount, authorized, captured, autoInvoice, canInvoice, fault, saved, status);
    var body := t[..|t| - 3];
    assert t == body + Saves(tid, saved, status);
    forall i | 0 <= i < |t| - 3 ensures !IsRecordSave(t[i]) {
      assert t[i] == body[i];
      assert t[i] in InvoiceTrace(fault) || t[i].CommentAdded? || t[i].StatusSet?;
    }
  }

  /** Invoicing is attempted exactly for a capture with auto-invoicing on and
      an order that can be invoiced. */
  lemma InvoiceOnlyOnAutoCapture(txnType: string, tid: Value, amount: string, authorized: Value, captured: Value,
                                 autoInvoice: bool, canInvoice: bool, fault: InvoiceFault,
                  saved: PaymentState, status: Value)
    ensures var t := RecordTrace(txnType, tid, amount, authorized, captured, autoInvoice, canInvoice, fault, saved, status);
      (exists i :: 0 <= i < |t| && IsInvoiceStep(t[i])) <==> txnType == TYPE_CAPTURE && autoInvoice && canInvoice
  {
    var t := RecordTrace(txnType, tid, amount, authorized, captured, autoInvoice, canInvoice, fault, saved, status);
    if txnType == TYPE_CAPTURE && autoInvoice && canInvoice {
      assert IsInvoiceStep(t[1]);
    } else {
      forall i | 0 <= i < |t| ensures !IsInvoiceStep(t[i]) {
      }
    }
  }

  /** Every invoice step comes before the status change. */
  lemma InvoiceBeforeStatus(txnType: string, tid: Value, amount: string, authorized: Value, captured: Value,
                            autoInvoice: bool, canInvoice: bool, fault: InvoiceFault,
                  saved: PaymentState, status: Value)
    ensures var t := RecordTrace(txnType, tid, amount, authorized, captured, autoInvoice, canInvoice, fault, saved, status);
      forall i, j :: 0 <= i < j < |t| && t[i].StatusSet? ==> !IsInvoiceStep(t[j])
  {
    var t := RecordTrace(txnType, tid, amount, authorized, captured, autoInvoice, canInvoice, fault, saved, status);
    var tail := Saves(tid, saved, status);
    forall i, j | 0 <= i < j < |t| && t[i].StatusSet? ensures !IsInvoiceStep(t[j]) {
      assert i == |t| - 4;
      assert t[j] in tail;
    }
  }

  /** The status is set exactly once for an authorization or a capture, to
      the configured status for that type, and never for any other type. */
  lemma StatusByType(txnType: string, tid: Value, amount: string, authorized: Value, captured: Value,
                     autoInvoice: bool, canInvoice: bool, fault: InvoiceFault,
                  saved: PaymentState, status: Value)
    ensures var t := RecordTrace(txnType, tid, amount, authorized, captured, autoInvoice, canInvoice, fault, saved, status);
      (txnType == TYPE_AUTH ==> t[|t| - 4] == StatusSet(authorized)) &&
      (txnType == TYPE_CAPTURE ==> t[|t| - 4] == StatusSet(captured)) &&
      (forall i :: 0 <= i < |t| && t[i].StatusSet? ==> i == |t| - 4 && (txnType == TYPE_AUTH || txnType == TYPE_CAPTURE))
  {
    var t := RecordTrace(txnType, tid, amount, authorized, captured, autoInvoice, canInvoice, fault, saved, status);
    forall i | 0 <= i < |t| && t[i].StatusSet?
      ensures i == |t| - 4 && (txnType == TYPE_AUTH || txnType == TYPE_CAPTURE)
    {
    }
  }

  class TransactionHandlerService {
    const invoiceHandler: InvoiceHandlerService
    const config: string -> Value
    const journal: Journal

    /** The invoice handler reports to the same journal. */
    predicate Valid()
    {
      invoiceHandler.journal == journal
    }

    constructor (invoiceHandler: InvoiceHandlerService, config: string -> Value)
      ensures this.invoiceHandler == invoiceHandler && this.config == config
      ensures journal == invoiceHandler.journal && Valid()
    {
      this.invoiceHandler := invoiceHandler;
      this.config := config;
      this.journal := invoiceHandler.journal;
    }

    /** Flattens a gateway response one level deep, without `_links`. */
    method BuildDataArray(gatewayResponse: seq<Entry>) returns (output: seq<Entry>)
      ensures output == Flattened(gatewayResponse)
    {
      output := [];
      var response := gatewayResponse;
      if IsSet(response, LINKS) {
        response := Remove(response, LINKS);
      }
      var i := 0;
      while i < |response|
        invariant 0 <= i <= |response|
        invariant output == FlattenPrefix(response, i)
      {
        var key := response[i].0;
        var val := response[i].1;
        if val.Arr? {
          var j := 0;
          while j < |val.entries|
            invariant 0 <= j <= |val.entries|
            invariant output == PutNested(FlattenPrefix(response, i), key, val.entries, j)
          {
            output := Put(output, key + "_" + val.entries[j].0, val.entries[j].1);
            j := j + 1;
          }
        } else {
          output := Put(output, key, val);
        }
        i := i + 1;
      }
      FlattenPrefixIs(response, i);
      assert response[..i] == response;
    }

    /** Records a transaction of the given type for the order and returns
        its id. */
    method CreateTransaction(order: Order, transactionType: string, data: Option<seq<Entry>>,
                             derived: seq<Entry>, formattedPrice: string, invoiceFault: InvoiceFault)
      returns (r: Value, ghost transaction: Transaction)
      requires Valid()
      modifies order`status, order.payment, journal, invoiceHandler`order
      ensures r == PaymentId(PaymentData(data, derived))
      ensures fresh(transaction) && transaction.txnId == r && transaction.txnType == transactionType
      ensures transaction.additionalInformation == [(RAW_DETAILS, Arr(Flattened(PaymentData(data, derived))))]
      ensures transaction.failSafe
      ensures order.payment.methodCode == order.payment.instanceCode
      ensures order.payment.lastTransId == r && order.payment.transactionId == r
      ensures !order.payment.isTransactionClosed
      ensures order.payment.parentTransactionId ==
                if transactionType == TYPE_AUTH || transactionType == TYPE_CAPTURE then Null
                else old(order.payment.parentTransactionId)
      ensures order.status ==
                if transactionType == TYPE_AUTH then config("order_status_authorized")
                else if transactionType == TYPE_CAPTURE then config("order_status_captured")
                else old(order.status)
      ensures invoiceHandler.order ==
                if transactionType == TYPE_CAPTURE && Truthy(config("auto_invoice")) then order
                else old(invoiceHandler.order)
      ensures journal.events == old(journal.events) +
                RecordTrace(transactionType, r, formattedPrice, config("order_status_authorized"),
                            config("order_status_captured"), Truthy(config("auto_invoice")),
                            order.canInvoice, invoiceFault, Snapshot(order.payment), order.status)
    {
      var paymentData := PaymentData(data, derived);
      var tid := PaymentId(paymentData);

      PreparePayment(order.payment, tid);

      var details := BuildDataArray(paymentData);
      var txn := new Transaction.Build(tid, transactionType, [(RAW_DETAILS, Arr(details))], true);
      transaction := txn;

      ghost var events0 := journal.events;
      RecordByType(order, transactionType, txn.txnId, formattedPrice, invoiceFault);
      ghost var events1 := journal.events;
      ghost var saved, status := Snapshot(order.payment), order.status;
      SaveAll(order, txn.txnId);
      r := txn.txnId;
      assert Snapshot(order.payment) == saved && order.status == status;
      assert journal.events == events0 + (events1[|events0|..] + Saves(r, saved, status));
    }

    /** The type-dispatched part: the authorization branch, then the capture
        branch; for any other type neither runs. */
    method RecordByType(order: Order, transactionType: string, tid: Value, formattedPrice: string,
                        invoiceFault: InvoiceFault)
      requires Valid()
      modifies order`status, order.payment`parentTransactionId, journal, invoiceHandler`order
      ensures order.payment.parentTransactionId ==
                if transactionType == TYPE_AUTH || transactionType == TYPE_CAPTURE then Null
                else old(order.payment.parentTransactionId)
      ensures order.status ==
                if transactionType == TYPE_AUTH then config("order_status_authorized")
                else if transactionType == TYPE_CAPTURE then config("order_status_captured")
                else old(order.status)
      ensures invoiceHandler.order ==
                if transactionType == TYPE_CAPTURE && Truthy(config("auto_invoice")) then order
                else old(invoiceHandler.order)
      ensures journal.events == old(journal.events) +
                TypeTrace(transactionType, tid, formattedPrice, config("order_status_authorized"),
                          config("order_status_captured"), Truthy(config("auto_invoice")),
                          order.canInvoice, invoiceFault)
    {
      if transactionType == TYPE_AUTH {
        AddAuthorization(order, tid, formattedPrice);
      }
      if transactionType == TYPE_CAPTURE {
        AddCapture(order, tid, formattedPrice, invoiceFault);
      }
    }

    /** Points the payment at the gateway transaction and leaves it open. */
    method PreparePayment(payment: Payment, tid: Value)
      modifies payment
      ensures payment.methodCode == payment.instanceCode
      ensures payment.lastTransId == tid && payment.transactionId == tid
      ensures !payment.isTransactionClosed
      ensures payment.parentTransactionId == old(payment.parentTransactionId)
    {
      var methodId := payment.instanceCode;
      payment.methodCode := methodId;
      payment.lastTransId := tid;
      payment.transactionId := tid;
      payment.isTransactionClosed := false;
    }

    /** The authorization branch: a comment, no parent transaction, the
        configured authorized status. */
    method AddAuthorization(order: Order, tid: Value, formattedPrice: string)
      modifies order`status, order.payment`parentTransactionId, journal
      ensures order.payment.parentTransactionId == Null
      ensures order.status == config("order_status_authorized")
      ensures journal.events == old(journal.events) +
                [CommentAdded(tid, AUTHORIZED_PHRASE, formattedPrice), StatusSet(config("order_status_authorized"))]
    {
      journal.Record(CommentAdded(tid, AUTHORIZED_PHRASE, formattedPrice));
      order.payment.parentTransactionId := Null;
      var status := config("order_status_authorized");
      order.status := status;
      journal.Record(StatusSet(status));
    }

    /** The capture branch: a comment, no parent transaction, the invoice run
        when auto-invoicing is on, then the configured captured status. */
    method AddCapture(order: Order, tid: Value, formattedPrice: string, invoiceFault: InvoiceFault)
      requires Valid()
      modifies order`status, order.payment`parentTransactionId, journal, invoiceHandler`order
      ensures order.payment.parentTransactionId == Null
      ensures order.status == config("order_status_captured")
      ensures invoiceHandler.order == if Truthy(config("auto_invoice")) then order else old(invoiceHandler.order)
      ensures journal.events == old(journal.events) +
                [CommentAdded(tid, CAPTURED_PHRASE, formattedPrice)]
                + (if Truthy(config("auto_invoice")) && order.canInvoice then InvoiceTrace(invoiceFault) else [])
                + [StatusSet(config("order_status_captured"))]
    {
      journal.Record(CommentAdded(tid, CAPTURED_PHRASE, formattedPrice));
      ghost var events1 := journal.events;
      order.payment.parentTransactionId := Null;
      if Truthy(config("auto_invoice")) {
        var _, _ := invoiceHandler.ProcessInvoice(order, invoiceFault);
      }
      ghost var events2 := journal.events;
      var status := config("order_status_captured");
      order.status := status;
      journal.Record(StatusSet(status));
    }

    /** Saves the payment, the transaction and the order, in that order,
        each with the fields it holds at that point. */
    method SaveAll(order: Order, tid: Value)
      modifies journal
      ensures journal.events == old(journal.events) + Saves(tid, Snapshot(order.payment), order.status)
    {
      journal.Record(PaymentSaved(Snapshot(order.payment)));
      journal.Record(TransactionSaved(tid));
      journal.Record(OrderSaved(order.status));
    }

    /** Lists the fetched transactions of an order, restricted to one type
        when a (truthy) type is given and the list is not empty. */
    method GetTransactions(order: Order, transactionType: Option<string>, fetched: seq<Transaction>)
      returns (r: seq<Transaction>)
      ensures TruthyType(transactionType) && |fetched| > 0 ==> r == OfType(fetched, transactionType.value)
      ensures !(TruthyType(transactionType) && |fetched| > 0) ==> r == fetched
    {
      if TruthyType(transactionType) && |fetched| > 0 {
        var filteredResult: seq<Transaction> := [];
        var i := 0;
        while i < |fetched|
          invariant 0 <= i <= |fetched|
          invariant filteredResult == OfType(fetched[..i], transactionType.value)
        {
          assert fetched[..i + 1][..i] == fetched[..i];
          if fetched[i].txnType == transactionType.value {
            filteredResult := filteredResult + [fetched[i]];
          }
          i := i + 1;
        }
        assert fetched[..i] == fetched;
        return filteredResult;
      }
      return fetched;
    }
  }

  // ---------------------------------------------------------------------------
  // Listing transactions

  /** PHP truthiness of an optional type string (null, "" and "0" are false). */
  predicate TruthyType(t: Option<string>)
  {
    t.Some? && t.value != "" && t.value != "0"
  }

  /** The transactions of the given type, in their original order. */
  function OfType(ts: seq<Transaction>, txnType: string): seq<Transaction>
    decreases |ts|
  {
    if |ts| == 0 then []
    else OfType(ts[..|ts| - 1], txnType) + (if ts[|ts| - 1].txnType == txnType then [ts[|ts| - 1]] else [])
  }

  /** `a` is `b` with some elements left out, the rest in the same order. */
  predicate IsSubsequence(a: seq<Transaction>, b: seq<Transaction>)
    decreases |b|
  {
    if |a| == 0 then true
    else if |b| == 0 then false
    else if a[|a| - 1] == b[|b| - 1] then IsSubsequence(a[..|a| - 1], b[..|b| - 1])
    else IsSubsequence(a, b[..|b| - 1])
  }

  /** A transaction is listed exactly when it was fetched and has the type. */
  lemma {:induction false} OfTypeMember(ts: seq<Transaction>, txnType: string, t: Transaction)
    ensures t in OfType(ts, txnType) <==> t in ts && t.txnType == txnType
    decreases |ts|
  {
    if |ts| > 0 {
      OfTypeMember(ts[..|ts| - 1], txnType, t);
      assert ts == ts[..|ts| - 1] + [ts[|ts| - 1]];
    }
  }

  /** The listed transactions keep their fetch order. */
  lemma {:induction false} OfTypeOrdered(ts: seq<Transaction>, txnType: string)
    ensures IsSubsequence(OfType(ts, txnType), ts)
    decreases |ts|
  {
    if |ts| > 0 {
      var init := ts[..|ts| - 1];
      OfTypeOrdered(init, txnType);
      if ts[|ts| - 1].txnType == txnType {
        assert OfType(ts, txnType)[..|OfType(ts, txnType)| - 1] == OfType(init, txnType);
      } else {
        assert OfType(ts, txnType) == OfType(init, txnType);
        SubsequenceExtend(OfType(init, txnType), init, ts[|ts| - 1]);
        assert init + [ts[|ts| - 1]] == ts;
      }
    }
  }

  /** Appending to the longer sequence keeps a subsequence a subsequence. */
  lemma {:induction false} SubsequenceExtend(a: seq<Transaction>, b: seq<Transaction>, x: Transaction)
    requires IsSubsequence(a, b)
    ensures IsSubsequence(a, b + [x])
    decreases |b|, 1
  {
    assert (b + [x])[..|b|] == b;
    if |a| > 0 && a[|a| - 1] == x {
      SubsequenceDropLast(a, b);
    }
  }

  /** Dropping the last element keeps a subsequence a subsequence. */
  lemma {:induction false} SubsequenceDropLast(a: seq<Transaction>, b: seq<Transaction>)
    requires |a| > 0 && IsSubsequence(a, b)
    ensures IsSubsequence(a[..|a| - 1], b)
    decreases |b|, 0
  {
    var init := b[..|b| - 1];
    assert init + [b[|b| - 1]] == b;
    if a[|a| - 1] != b[|b| - 1] {
      SubsequenceDropLast(a, init);
    }
    SubsequenceExtend(a[..|a| - 1], init, b[|b| - 1]);
  }
}
