/**
  The inline-button payload that carries the chosen payment method and the
  requested service from the order message to the payment callback:
  `payment_<method>_<service>`, built by `process_order` and taken apart by
  `handle_payment` with `split('_', 2)` and a three-way unpacking.
 */
module Payload {
  import opened Wrappers
  import PyStr

  /** The first segment of every payload. */
  const Tag := "payment"
  const Delimiter := '_'
  /** The callback filter: a callback is a payment selection when its data starts with this. */
  const Prefix := "payment_"

  const Upi := "upi"
  const Paytm := "paytm"

  /** What the handler recovers from a payload: the method and the service text. */
  datatype Selection = Selection(paymentMethod: string, service: string)

  /** An inline keyboard button: its label and its callback data. */
  datatype Button = Button(text: string, callbackData: string)

  /** `f'payment_{method}_{service}'`. */
  function Encode(paymentMethod: string, service: string): (data: string)
    ensures PyStr.StartsWith(data, Prefix)
  {
    Prefix + paymentMethod + [Delimiter] + service
  }

  /** The button row offered for a service: UPI first, then Paytm. */
  function PaymentButtons(service: string): seq<Button>
  {
    [ Button("Pay via UPI", Encode(Upi, service)),
      Button("Pay via Paytm", Encode(Paytm, service)) ]
  }

  /** `call.data.startswith('payment_')`. */
  predicate IsPaymentCallback(data: string) {
    PyStr.StartsWith(data, Prefix)
  }

  /**
    `_, method, service = data.split('_', 2)`: None where the unpacking
    raises, which is when the split yields fewer than three pieces.
   */
  function Decode(data: string): Option<Selection>
  {
    var parts := PyStr.Split(data, Delimiter, 2);
    if |parts| == 3 then Some(Selection(parts[1], parts[2])) else None
  }

  /**
    Round trip: a method without an underscore and ANY service, underscores
    included, come back unchanged. The service is the last piece of a split
    with maxsplit 2, so its own underscores are never split.
   */
  lemma {:induction false} DecodeEncode(paymentMethod: string, service: string)
    requires Delimiter !in paymentMethod
    ensures Decode(Encode(paymentMethod, service)) == Some(Selection(paymentMethod, service))
  {
    var parts := [Tag, paymentMethod, service];
    assert Delimiter !in Tag;
    PyStr.JoinThree(Tag, paymentMethod, service, Delimiter);
    assert Encode(paymentMethod, service) == PyStr.Join(parts, Delimiter);
    PyStr.SplitJoin(parts, Delimiter);
  }

  /** Both payloads the bot builds decode to the method and service they were built from. */
  lemma {:induction false} DecodeEncodeBothMethods(service: string)
    ensures Decode(Encode(Upi, service)) == Some(Selection(Upi, service))
    ensures Decode(Encode(Paytm, service)) == Some(Selection(Paytm, service))
  {
    DecodeEncode(Upi, service);
    DecodeEncode(Paytm, service);
  }

  /**
    The other direction: a payload that passes the filter and decodes is
    exactly the encoding of what it decodes to, and its method has no
    underscore. So the discarded first piece is always "payment".
   */
  lemma {:induction false} EncodeDecode(data: string)
    requires IsPaymentCallback(data) && Decode(data).Some?
    ensures Delimiter !in Decode(data).value.paymentMethod
    ensures Encode(Decode(data).value.paymentMethod, Decode(data).value.service) == data
  {
    var parts := PyStr.Split(data, Delimiter, 2);
    var rest := data[|Prefix|..];
    assert data == Tag + [Delimiter] + rest;
    PyStr.FindAfter(Tag, Delimiter, rest);
    assert parts == [data[..|Tag|]] + PyStr.Split(rest, Delimiter, 1);
    assert data[..|Tag|] == Tag;
    PyStr.JoinSplit(data, Delimiter, 2);
    PyStr.SplitPieces(data, Delimiter, 2);
    PyStr.JoinThree(parts[0], parts[1], parts[2], Delimiter);
    assert parts == [parts[0], parts[1], parts[2]];
  }

  /** The unpacking fails exactly when the data holds fewer than two underscores. */
  lemma {:induction false} DecodeFailsIff(data: string)
    ensures Decode(data).None? <==> PyStr.Count(data, Delimiter) < 2
  {
    PyStr.SplitLength(data, Delimiter, 2);
  }

  /**
    For data that passed the filter, the unpacking fails exactly when no
    underscore follows the `payment_` prefix, as in "payment_upi".
   */
  lemma {:induction false} FilteredDecodeFailsIff(data: string)
    requires IsPaymentCallback(data)
    ensures Decode(data).None? <==> Delimiter !in data[|Prefix|..]
  {
    DecodeFailsIff(data);
    assert data == Prefix + data[|Prefix|..];
    PyStr.CountConcat(Prefix, data[|Prefix|..], Delimiter);
    PyStr.CountZeroIff(data[|Prefix|..], Delimiter);
    assert PyStr.Count(Prefix, Delimiter) == 1;
  }

  /** The concrete malformed payload: it passes the filter but cannot be unpacked. */
  lemma {:induction false} MethodWithoutServiceFails()
    ensures IsPaymentCallback("payment_upi") && Decode("payment_upi") == None
  {
    var data := "payment_upi";
    assert data == Prefix + Upi;
    assert IsPaymentCallback(data) by { assert data[..|Prefix|] == Prefix; }
    assert data[|Prefix|..] == Upi;
    assert Delimiter !in Upi;
    FilteredDecodeFailsIff(data);
  }

  /**
    The two buttons for a service carry exactly `payment_upi_<service>` and
    `payment_paytm_<service>`, in that order; both pass the filter and decode
    back to their method and the service.
   */
  lemma {:induction false} PaymentButtonsRoundTrip(service: string)
    ensures |PaymentButtons(service)| == 2
    ensures PaymentButtons(service)[0].callbackData == "payment_upi_" + service
    ensures PaymentButtons(service)[1].callbackData == "payment_paytm_" + service
    ensures forall b :: b in PaymentButtons(service) ==> IsPaymentCallback(b.callbackData)
    ensures Decode(PaymentButtons(service)[0].callbackData) == Some(Selection(Upi, service))
    ensures Decode(PaymentButtons(service)[1].callbackData) == Some(Selection(Paytm, service))
  {
    var upi, paytm := Encode(Upi, service), Encode(Paytm, service);
    assert PaymentButtons(service) == [Button("Pay via UPI", upi), Button("Pay via Paytm", paytm)];
    assert upi == "payment_upi_" + service;
    assert paytm == "payment_paytm_" + service;
    DecodeEncodeBothMethods(service);
  }

}
