/**
 * The validators of the shipping records: a rate request, a quoted rate, a shipment and
 * the tracking records. Each lists the messages of its failing rules in rule order.
 */
module ShippingValidators {
  import opened Wrappers
  import opened Fluent
  import opened Domain
  import opened Dtos

  const OriginPostalCodeRequired := "Origin postal code is required."
  const DestinationPostalCodeRequired := "Destination postal code is required."
  const WeightPositive := "Weight must be greater than 0."
  const LengthPositive := "Length must be greater than 0."
  const WidthPositive := "Width must be greater than 0."
  const HeightPositive := "Height must be greater than 0."
  const CarrierRequired := "Carrier is required."
  const ServiceNameRequired := "Service name is required."
  const TotalRateNonNegative := "Total rate must be non-negative."
  const CurrencyRequired := "Currency is required."
  const DeliveryDateRequired := "Estimated delivery date is required."
  const TrackingNumberRequired := "Tracking number is required."
  const LabelUrlsRequired := "Shipping label URLs are required."
  const CurrentStatusRequired := "Current status is required."
  const TimestampRequired := "Timestamp is required."
  const LocationRequired := "Location is required."
  const DescriptionRequired := "Description is required."

  /** NotEmpty() on a DateTime: the value is not default(DateTime). */
  predicate NotDefaultDate(d: DateTime) {
    d != DefaultDateTime
  }

  /** NotEmpty() on a collection: not null and holding at least one element. */
  predicate NotEmptyCollection<T>(xs: Option<seq<T>>) {
    xs.Some? && |xs.value| > 0
  }

  // ---- ShippingRateRequestValidator ----

  function ShippingRateRequestErrors(x: ShippingRateRequest): (errors: seq<string>)
    ensures errors == [] <==>
      && NotEmptyText(x.originPostalCode) && NotEmptyText(x.destinationPostalCode)
      && x.weight > 0.0 && x.length > 0.0 && x.width > 0.0 && x.height > 0.0
    ensures OriginPostalCodeRequired in errors <==> !NotEmptyText(x.originPostalCode)
    ensures DestinationPostalCodeRequired in errors <==> !NotEmptyText(x.destinationPostalCode)
    ensures WeightPositive in errors <==> x.weight <= 0.0
    ensures LengthPositive in errors <==> x.length <= 0.0
    ensures WidthPositive in errors <==> x.width <= 0.0
    ensures HeightPositive in errors <==> x.height <= 0.0
  {
    Rule(NotEmptyText(x.originPostalCode), OriginPostalCodeRequired)
    + Rule(NotEmptyText(x.destinationPostalCode), DestinationPostalCodeRequired)
    + Rule(x.weight > 0.0, WeightPositive)
    + Rule(x.length > 0.0, LengthPositive)
    + Rule(x.width > 0.0, WidthPositive)
    + Rule(x.height > 0.0, HeightPositive)
  }

  /** A zero dimension is rejected with exactly its own message. */
  lemma ZeroWeightRejected(x: ShippingRateRequest)
    requires NotEmptyText(x.originPostalCode) && NotEmptyText(x.destinationPostalCode)
    requires x.length > 0.0 && x.width > 0.0 && x.height > 0.0
    ensures ShippingRateRequestErrors(x.(weight := 0.0)) == [WeightPositive]
  {
  }

  // ---- ShippingRateValidator ----

  function ShippingRateErrors(x: ShippingRate): (errors: seq<string>)
    ensures errors == [] <==>
      && NotEmptyText(x.carrier) && NotEmptyText(x.serviceName)
      && x.totalRate >= 0.0 && NotEmptyText(x.currency)
      && NotDefaultDate(x.estimatedDeliveryDate)
    ensures CarrierRequired in errors <==> !NotEmptyText(x.carrier)
    ensures ServiceNameRequired in errors <==> !NotEmptyText(x.serviceName)
    ensures TotalRateNonNegative in errors <==> x.totalRate < 0.0
    ensures CurrencyRequired in errors <==> !NotEmptyText(x.currency)
    ensures DeliveryDateRequired in errors <==> x.estimatedDeliveryDate.ticks == 0
  {
    Rule(NotEmptyText(x.carrier), CarrierRequired)
    + Rule(NotEmptyText(x.serviceName), ServiceNameRequired)
    + Rule(x.totalRate >= 0.0, TotalRateNonNegative)
    + Rule(NotEmptyText(x.currency), CurrencyRequired)
    + Rule(NotDefaultDate(x.estimatedDeliveryDate), DeliveryDateRequired)
  }

  /** A free rate is accepted and a negative one rejected, other fields being valid. */
  lemma FreeRateAccepted(x: ShippingRate)
    requires NotEmptyText(x.carrier) && NotEmptyText(x.serviceName) && NotEmptyText(x.currency)
    requires x.estimatedDeliveryDate.ticks > 0
    ensures ShippingRateErrors(x.(totalRate := 0.0)) == []
    ensures ShippingRateErrors(x.(totalRate := -1.0)) == [TotalRateNonNegative]
  {
  }

  // ---- ShipmentValidator ----

  function ShipmentErrors(x: Shipment): (errors: seq<string>)
    ensures errors == [] <==> NotEmptyText(x.trackingNumber) && NotEmptyCollection(x.shippingLabelUrls)
    ensures TrackingNumberRequired in errors <==> !NotEmptyText(x.trackingNumber)
    ensures LabelUrlsRequired in errors <==>
      (x.shippingLabelUrls.None? || x.shippingLabelUrls.value == [])
  {
    Rule(NotEmptyText(x.trackingNumber), TrackingNumberRequired)
    + Rule(NotEmptyCollection(x.shippingLabelUrls), LabelUrlsRequired)
  }

  /** The label URLs themselves are not checked: a single null URL satisfies the rule. */
  lemma LabelUrlsNotInspected(tracking: string)
    requires NotEmptyText(Some(tracking))
    ensures ShipmentErrors(Shipment(Some(tracking), Some([None]))) == []
    ensures ShipmentErrors(Shipment(Some(tracking), Some([]))) == [LabelUrlsRequired]
  {
  }

  // ---- TrackingInformationValidator ----

  function TrackingInformationErrors(x: TrackingInformation): (errors: seq<string>)
    ensures errors == [] <==>
      NotEmptyText(x.trackingNumber) && NotEmptyText(x.carrier) && NotEmptyText(x.currentStatus)
    ensures TrackingNumberRequired in errors <==> !NotEmptyText(x.trackingNumber)
    ensures CarrierRequired in errors <==> !NotEmptyText(x.carrier)
    ensures CurrentStatusRequired in errors <==> !NotEmptyText(x.currentStatus)
  {
    Rule(NotEmptyText(x.trackingNumber), TrackingNumberRequired)
    + Rule(NotEmptyText(x.carrier), CarrierRequired)
    + Rule(NotEmptyText(x.currentStatus), CurrentStatusRequired)
  }

  // ---- TrackingEventValidator ----

  function TrackingEventErrors(x: TrackingEvent): (errors: seq<string>)
    ensures errors == [] <==>
      NotDefaultDate(x.timestamp) && NotEmptyText(x.location) && NotEmptyText(x.description)
    ensures TimestampRequired in errors <==> x.timestamp.ticks == 0
    ensures LocationRequired in errors <==> !NotEmptyText(x.location)
    ensures DescriptionRequired in errors <==> !NotEmptyText(x.description)
  {
    Rule(NotDefaultDate(x.timestamp), TimestampRequired)
    + Rule(NotEmptyText(x.location), LocationRequired)
    + Rule(NotEmptyText(x.description), DescriptionRequired)
  }
}
