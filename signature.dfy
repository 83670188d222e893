/**
 * Razorpay's checkout signature: a hex HMAC-SHA256, keyed by the account's
 * key secret, over the gateway order id and the payment id joined by '|'.
 */
module Signature {

  /** HMAC-SHA256 as a hex digest, keyed by its first argument; its internals are not modelled. */
  type Hmac = (string, string) -> string

  /** The signed message `orderId + "|" + paymentId`. */
  function Message(orderId: string, paymentId: string): (m: string)
    ensures |m| == |orderId| + 1 + |paymentId|
    ensures m[..|orderId|] == orderId && m[|orderId|] == '|' && m[|orderId| + 1..] == paymentId
  {
    orderId + "|" + paymentId
  }

  /** The signature the server expects for a payment of a gateway order. */
  function ExpectedSignature(hmac: Hmac, secret: string, orderId: string, paymentId: string): string
  {
    hmac(secret, Message(orderId, paymentId))
  }

  /**
   * As long as gateway order ids contain no '|', the message names exactly
   * one (order, payment) pair, so a signature binds the payment to its order.
   */
  lemma MessageDeterminesPair(o1: string, p1: string, o2: string, p2: string)
    requires '|' !in o1 && '|' !in o2
    requires Message(o1, p1) == Message(o2, p2)
    ensures o1 == o2 && p1 == p2
  {
    assert o1 == Message(o1, p1)[..|o1|];
  }

  /** With a '|' inside an order id, two different pairs share one message and so one signature. */
  lemma SeparatorInOrderIdIsAmbiguous(hmac: Hmac, secret: string)
    ensures Message("a|b", "c") == Message("a", "b|c")
    ensures ExpectedSignature(hmac, secret, "a|b", "c") == ExpectedSignature(hmac, secret, "a", "b|c")
  {
  }
}
