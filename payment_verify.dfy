/** The payment confirmation page of src/pages/PaymentVerify.jsx. On mount, and again
    whenever the route's transaction id changes, it takes the `reference` query parameter
    or else the transaction id, asks the payment API to verify it, and shows one of four
    states. The API call is split into its start (`Start`) and its settling (`Settle`),
    which receives what the call returned. */
module PaymentVerify {
  import opened Js

  datatype Status = Verifying | Succeeded | Failed | Errored

  datatype PaidItem = PaidItem(name: string, quantity: int, price: int)

  /** The `data` of a successful verification. `amount` is in kobo. */
  datatype Details = Details(amount: int, items: seq<PaidItem>, reference: string,
                             transactionId: string, customerName: string, customerEmail: string)

  /** What `Endpoint.verifyPayment` ends with: a response body, or a thrown error. */
  datatype Outcome =
    | Reply(status: string, data: Option<Details>, message: Option<string>)
    | Thrown(message: Option<string>)

  const NoReference := "No payment reference found"
  const VerificationFailed := "Payment verification failed"
  const VerificationError := "Error verifying payment"

  /** `refFromUrl || transactionId` */
  function PaymentReference(fromUrl: Option<string>, transactionId: Option<string>): (r: Option<string>)
    ensures Truthy(fromUrl) ==> r == fromUrl
    ensures !Truthy(fromUrl) ==> r == transactionId
    ensures Truthy(r) <==> Truthy(fromUrl) || Truthy(transactionId)
  {
    if Truthy(fromUrl) then fromUrl else transactionId
  }

  /** The status a settled call leaves. */
  function StatusAfter(o: Outcome): (r: Status)
    ensures r != Verifying
    ensures r == Succeeded <==> o.Reply? && o.status == "success"
    ensures r == Errored <==> o.Thrown?
  {
    match o
    case Reply(status, _, _) => if status == "success" then Succeeded else Failed
    case Thrown(_) => Errored
  }

  /** The error text a settled call leaves, when it writes one. */
  function ErrorAfter(o: Outcome): (r: Option<string>)
    ensures r.None? <==> StatusAfter(o) == Succeeded
    ensures r.Some? ==> r.value != ""
    ensures r.Some? && Truthy(o.message) ==> r.value == o.message.value
    ensures r.Some? && !Truthy(o.message) ==> r.value == (if o.Reply? then VerificationFailed else VerificationError)
  {
    match o
    case Reply(status, _, message) =>
      if status == "success" then None else Some(OrElse(message, VerificationFailed))
    case Thrown(message) => Some(OrElse(message, VerificationError))
  }

  /** What the body shows. A success whose `data` is missing shows no body at all. */
  datatype Body = Spinner | Receipt(details: Details) | NoBody | FailurePanel(message: string)

  function HeaderText(s: Status): string {
    match s
    case Verifying => "Verifying your payment..."
    case Succeeded => "Your payment was successful!"
    case Failed => "Payment verification failed"
    case Errored => "Error verifying payment"
  }

  function RenderBody(s: Status, details: Option<Details>, error: string): (b: Body)
    ensures b.Spinner? <==> s == Verifying
    ensures b.Receipt? <==> s == Succeeded && details.Some?
    ensures b.Receipt? ==> b.details == details.value
    ensures b.FailurePanel? <==> s == Failed || s == Errored
    ensures b.FailurePanel? ==> b.message == error
  {
    match s
    case Verifying => Spinner
    case Succeeded => if details.Some? then Receipt(details.value) else NoBody
    case Failed => FailurePanel(error)
    case Errored => FailurePanel(error)
  }

  /** A receipt line's amount: `item.price * item.quantity`. */
  function LineAmount(item: PaidItem): int {
    item.price * item.quantity
  }

  /** The page state. `calls` lists the references sent to the payment API, in order. */
  class PaymentVerifier {
    var status: Status
    var details: Option<Details>
    var reference: string
    var error: string
    var calls: seq<string>

    constructor ()
      ensures status == Verifying && details.None? && reference == "" && error == ""
      ensures calls == []
    {
      status := Verifying;
      details := None;
      reference := "";
      error := "";
      calls := [];
    }

    /** The effect body: pick the reference and start verifying it, or report that there
        is none. Neither branch resets what an earlier run left in the other fields. */
    method Start(fromUrl: Option<string>, transactionId: Option<string>)
      modifies this
      ensures var r := PaymentReference(fromUrl, transactionId);
        if Truthy(r) then
          reference == r.value && calls == old(calls) + [r.value]
          && status == old(status) && details == old(details) && error == old(error)
        else
          status == Errored && error == NoReference && calls == old(calls)
          && reference == old(reference) && details == old(details)
    {
      var r := PaymentReference(fromUrl, transactionId);
      if Truthy(r) {
        reference := r.value;
        calls := calls + [r.value];
      } else {
        status := Errored;
        error := NoReference;
      }
    }

    /** The end of `verifyPayment`: a success stores the details, anything else the error. */
    method Settle(o: Outcome)
      modifies this
      ensures status == StatusAfter(o)
      ensures StatusAfter(o) == Succeeded ==> details == o.data && error == old(error)
      ensures StatusAfter(o) != Succeeded ==> details == old(details) && error == ErrorAfter(o).value
      ensures reference == old(reference) && calls == old(calls)
    {
      match o
      case Reply(s, data, message) =>
        if s == "success" {
          status := Succeeded;
          details := data;
        } else {
          status := Failed;
          error := OrElse(message, VerificationFailed);
        }
      case Thrown(message) =>
        status := Errored;
        error := OrElse(message, VerificationError);
    }

    function Shown(): Body
      reads this
    {
      RenderBody(status, details, error)
    }
  }

  /** A failed or errored verification always shows a non-empty explanation. */
  lemma FailureAlwaysExplained(o: Outcome, details: Option<Details>)
    requires StatusAfter(o) != Succeeded
    ensures RenderBody(StatusAfter(o), details, ErrorAfter(o).value).FailurePanel?
    ensures RenderBody(StatusAfter(o), details, ErrorAfter(o).value).message != ""
  {
  }
}
