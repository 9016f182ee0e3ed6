/** The payment settings screen: the list of payment gateways, switched on and
    off or deleted by id, the status badges shared by gateways and
    transactions, and the transaction counts of the overview cards. */
module PaymentIntegration {
  import opened Lists

  /** A configured gateway. Its `logo` (an emoji shown beside the name),
      `config`, `fees` and `lastSync` are left out. */
  datatype Gateway = Gateway(
    id: string,
    name: string,
    kind: string,
    status: string,
    description: string,
    features: seq<string>)

  /** A payment. Its amount, fees, date and the `error` text shown under a
      failed payment are left out. */
  datatype Transaction = Transaction(
    id: string,
    bookingId: string,
    gateway: string,
    currency: string,
    status: string,
    paymentMethod: string,
    customer: string,
    reference: string)

  /** The gateway's switch is on exactly when its status is "active". */
  predicate SwitchOn(g: Gateway)
  {
    g.status == "active"
  }

  /** The status after the switch is flipped: "active" becomes "inactive",
      and every other status becomes "active". */
  function ToggledStatus(status: string): (r: string)
    ensures r == "active" <==> status != "active"
    ensures r != "active" ==> r == "inactive"
  {
    if status == "active" then "inactive" else "active"
  }

  /** `handleToggleGateway` on the list: the gateways with that id get the
      flipped status and keep every other field; all other gateways, the
      length and the order stay as they were. */
  function ToggleGateways(gateways: seq<Gateway>, id: string): (r: seq<Gateway>)
    ensures |r| == |gateways|
    ensures forall i :: 0 <= i < |r| && gateways[i].id != id ==> r[i] == gateways[i]
    ensures forall i :: 0 <= i < |r| && gateways[i].id == id ==>
      r[i] == gateways[i].(status := ToggledStatus(gateways[i].status))
    ensures forall i :: 0 <= i < |r| && gateways[i].id == id ==> (SwitchOn(r[i]) <==> !SwitchOn(gateways[i]))
  {
    if gateways == [] then []
    else
      var g := gateways[0];
      var head := if g.id == id then g.(status := ToggledStatus(g.status)) else g;
      [head] + ToggleGateways(gateways[1..], id)
  }

  /** Toggling the same id twice restores the list when each gateway with
      that id was "active" or "inactive". */
  lemma {:induction false} ToggleTwice(gateways: seq<Gateway>, id: string)
    requires forall g :: g in gateways && g.id == id ==> g.status == "active" || g.status == "inactive"
    ensures ToggleGateways(ToggleGateways(gateways, id), id) == gateways
  {
    var once := ToggleGateways(gateways, id);
    var twice := ToggleGateways(once, id);
    forall i | 0 <= i < |gateways|
      ensures twice[i] == gateways[i]
    {
      assert gateways[i] in gateways;
    }
  }

  /** Any other status does not come back: after two toggles it reads "inactive". */
  lemma {:induction false} ToggleTwiceFromOtherStatus(gateways: seq<Gateway>, id: string, i: nat)
    requires i < |gateways| && gateways[i].id == id
    requires gateways[i].status != "active" && gateways[i].status != "inactive"
    ensures ToggleGateways(ToggleGateways(gateways, id), id)[i].status == "inactive"
  {
    var once := ToggleGateways(gateways, id);
    assert once[i].status == "active";
  }

  /** The filter callback of `handleDeleteGateway`. */
  function IdIsNot(id: string): Gateway -> bool
  {
    (g: Gateway) => g.id != id
  }

  /** `handleDeleteGateway` on the list: every gateway with that id is gone,
      and the others stay, in their order. */
  function DeleteGateway(gateways: seq<Gateway>, id: string): (r: seq<Gateway>)
    ensures forall g :: g in r <==> g in gateways && g.id != id
    ensures IsSubsequence(r, gateways)
    ensures forall g :: multiset(r)[g] == if g.id != id then multiset(gateways)[g] else 0
    ensures (forall g :: g in gateways ==> g.id != id) <==> r == gateways
  {
    FilterIsSubsequence(gateways, IdIsNot(id));
    FilterMultiset(gateways, IdIsNot(id));
    FilterKeepsAllIff(gateways, IdIsNot(id));
    Filter(gateways, IdIsNot(id))
  }

  /** Deleting the same id twice is the same as deleting it once. */
  lemma {:induction false} DeleteTwice(gateways: seq<Gateway>, id: string)
    ensures DeleteGateway(DeleteGateway(gateways, id), id) == DeleteGateway(gateways, id)
  {
    FilterIdempotent(gateways, IdIsNot(id));
  }

  const GreenClass := "bg-green-500/20 text-green-400 border-green-500/30"
  const YellowClass := "bg-yellow-500/20 text-yellow-400 border-yellow-500/30"
  const RedClass := "bg-red-500/20 text-red-400 border-red-500/30"
  const GrayClass := "bg-gray-500/20 text-gray-400 border-gray-500/30"

  /** `getStatusColor` of gateways and transactions. */
  function StatusColor(status: string): (r: string)
    ensures r == GreenClass <==> status == "active" || status == "completed"
    ensures r == YellowClass <==> status == "pending"
    ensures r == RedClass <==> status == "inactive" || status == "failed"
    ensures r == GrayClass <==> status !in {"active", "completed", "pending", "inactive", "failed"}
  {
    match status
    case "active" => GreenClass
    case "completed" => GreenClass
    case "pending" => YellowClass
    case "inactive" => RedClass
    case "failed" => RedClass
    case _ => GrayClass
  }

  datatype Icon = CheckCircle | Clock | XCircle | AlertTriangle

  /** `getStatusIcon` of gateways and transactions. */
  function StatusIcon(status: string): (r: Icon)
    ensures r == CheckCircle <==> status == "active" || status == "completed"
    ensures r == Clock <==> status == "pending"
    ensures r == XCircle <==> status == "inactive" || status == "failed"
    ensures r == AlertTriangle <==> status !in {"active", "completed", "pending", "inactive", "failed"}
  {
    match status
    case "active" => CheckCircle
    case "completed" => CheckCircle
    case "pending" => Clock
    case "inactive" => XCircle
    case "failed" => XCircle
    case _ => AlertTriangle
  }

  /** Badge colour and badge icon sort statuses into the same four groups:
      two statuses share a colour exactly when they share an icon. */
  lemma ColorAndIconAgree(s: string, t: string)
    ensures StatusColor(s) == StatusColor(t) <==> StatusIcon(s) == StatusIcon(t)
  {
  }

  /** The filter callback of `completedTransactions`. */
  function IsCompleted(): Transaction -> bool
  {
    (t: Transaction) => t.status == "completed"
  }

  /** `completedTransactions`: how many transactions are "completed", counted
      one by one; never more than `totalTransactions`, none exactly when no
      transaction is completed, all exactly when every transaction is. */
  function CompletedTransactions(transactions: seq<Transaction>): (r: nat)
    ensures r == Count(transactions, IsCompleted())
    ensures r <= |transactions|
    ensures r == 0 <==> forall t :: t in transactions ==> t.status != "completed"
    ensures r == |transactions| <==> forall t :: t in transactions ==> t.status == "completed"
  {
    FilterNoneIff(transactions, IsCompleted());
    FilterKeepsAllIff(transactions, IsCompleted());
    FilterLength(transactions, IsCompleted());
    |Filter(transactions, IsCompleted())|
  }

  /** The three gateways the screen starts with. */
  function MockGateways(): (r: seq<Gateway>)
    ensures |r| == 3
  {
    [ Gateway("aba-payway", "ABA PayWay", "aba", "active",
              "Cambodia's leading digital payment platform",
              ["QR Code", "Mobile Banking", "Card Payment", "Wallet"]),
      Gateway("bakong-nbc", "Bakong NBC", "bakong", "active",
              "National Bank of Cambodia's digital payment system",
              ["QR Code", "Bank Transfer", "Mobile Payment"]),
      Gateway("stripe", "Stripe", "stripe", "inactive",
              "International payment processing platform",
              ["Credit Cards", "Digital Wallets", "Bank Transfers"]) ]
  }

  /** The three transactions the screen starts with. */
  function MockTransactions(): (r: seq<Transaction>)
    ensures |r| == 3
  {
    [ Transaction("TXN_001", "BK001", "ABA PayWay", "USD", "completed", "QR Code", "Alex Chen", "ABA_REF_123456"),
      Transaction("TXN_002", "BK002", "Bakong NBC", "KHR", "pending", "Bank Transfer", "Sarah Johnson", "BAKONG_REF_789012"),
      Transaction("TXN_003", "BK003", "ABA PayWay", "USD", "failed", "Mobile Banking", "Marcus Rodriguez", "ABA_REF_345678") ]
  }

  /** On the mock data: switching Stripe on leaves all three gateways
      active, and one of the three transactions is completed. */
  lemma {:induction false} MockScreen()
    ensures forall g :: g in ToggleGateways(MockGateways(), "stripe") ==> SwitchOn(g)
    ensures 0 < CompletedTransactions(MockTransactions()) < |MockTransactions()|
  {
    var gs := ToggleGateways(MockGateways(), "stripe");
    assert gs[0] == MockGateways()[0] && gs[1] == MockGateways()[1];
    assert gs == [gs[0], gs[1], gs[2]];
    var ts := MockTransactions();
    assert ts[0] in ts && ts[1] in ts;
  }

  /** The state of the payment settings screen that its handlers replace. */
  class PaymentIntegrationView {
    var paymentGateways: seq<Gateway>
    var transactions: seq<Transaction>

    /** The screen starts with the mock gateways and transactions. */
    constructor ()
      ensures paymentGateways == MockGateways() && transactions == MockTransactions()
    {
      paymentGateways := MockGateways();
      transactions := MockTransactions();
    }

    /** `handleToggleGateway`: replaces the gateway list by its toggled copy. */
    method HandleToggleGateway(gatewayId: string)
      modifies this
      ensures paymentGateways == ToggleGateways(old(paymentGateways), gatewayId)
      ensures transactions == old(transactions)
    {
      paymentGateways := ToggleGateways(paymentGateways, gatewayId);
    }

    /** `handleDeleteGateway`: replaces the gateway list by its filtered copy. */
    method HandleDeleteGateway(gatewayId: string)
      modifies this
      ensures paymentGateways == DeleteGateway(old(paymentGateways), gatewayId)
      ensures transactions == old(transactions)
    {
      paymentGateways := DeleteGateway(paymentGateways, gatewayId);
    }

    /** The overview counts: the completed transactions never outnumber all of them. */
    method TransactionCounts() returns (total: nat, completed: nat)
      ensures total == |transactions| && completed == CompletedTransactions(transactions)
      ensures completed <= total
    {
      total := |transactions|;
      completed := CompletedTransactions(transactions);
    }
  }
}
