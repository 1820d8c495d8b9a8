// What a Django view hands back, reduced to what the billing views decide:
// a redirect (with the flash message queued through `django.contrib.messages`,
// if any), a plain response with a status, an exception escaping the view, or
// handing over to the next `dispatch` in the method resolution order.
module Responses {
  import opened Wrappers

  const MANAGE_BILLING: string := "billing:manage_billing"
  const SETUP_CHECKOUT: string := "payments:setup_checkout_for_price"

  datatype Flash = FlashError(text: string) | FlashInfo(text: string)

  /** An exception leaving a view; Django turns each into the status `Status` gives. */
  datatype Raised =
    | PermissionDenied(reason: string)
    | ValueError(message: string)
    | KeyError(key: string)
    | AttributeError(name: string)
    | IndexError
    | TypeError
    | DoesNotExist(relation: string)   // a missing one-to-one row, `RelatedObjectDoesNotExist`
    | NotImplemented(message: string)   // `NotImplementedError`
    | ZeroDivision                      // `ZeroDivisionError`
    | EmptyPage(message: string)        // Django's `EmptyPage`, when it escapes the view
    | Failure(message: string)          // a bare `Exception(message)`
    | FileNotFound(message: string)     // `FileNotFoundError`

  /** One entry of `line_items` in `stripe.checkout.Session.create`. */
  datatype CheckoutLine = CheckoutLine(price: Option<string>, quantity: int)

  /** The arguments of `stripe.checkout.Session.create`, the API key left out. */
  datatype CheckoutSession = CheckoutSession(
    lineItems: seq<CheckoutLine>,
    mode: string,
    successUrl: string,
    cancelUrl: string,
    customer: string)

  datatype Response =
    | Redirect(target: string, flash: Option<Flash>)
    | RedirectToLogin                           // `LoginRequiredMixin` / `redirect('authentication:login')`
    | RedirectToCheckout(priceId: Option<string>) // `redirect(reverse(SETUP_CHECKOUT, kwargs={'price_id': …}))`
    | RedirectToStripe(session: CheckoutSession) // `redirect(checkout_session.url)` for the session created
    | Reply(status: int, body: string)          // `HttpResponse(body, status=…)`
    | Failed(exception: Raised)
    | Proceed                                   // `super().dispatch(…)` runs the view's handler
  {
    /** The HTTP status the client sees. */
    function Status(): (s: int)
      requires !Proceed?
      ensures Redirect? || RedirectToLogin? || RedirectToCheckout? || RedirectToStripe? ==> s == 302
      ensures Failed? ==> (s == 403 <==> exception.PermissionDenied?)
      ensures Failed? && !exception.PermissionDenied? ==> s == 500
    {
      match this
      case Redirect(_, _) => 302
      case RedirectToLogin => 302
      case RedirectToCheckout(_) => 302
      case RedirectToStripe(_) => 302
      case Reply(status, _) => status
      case Failed(e) => if e.PermissionDenied? then 403 else 500
    }
  }

  /** `messages.error(…)` followed by `redirect('billing:manage_billing')`. */
  function BackToBilling(flash: Flash): (r: Response)
    ensures r.Redirect? && r.target == MANAGE_BILLING && r.flash == Some(flash)
  {
    Redirect(MANAGE_BILLING, Some(flash))
  }
}
