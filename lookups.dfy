/** The two fixed lookup tables: delivery estimates by country and order statuses by id. */
module Lookups {

  /** The country used when `estimated_delivery_time` is called without one. */
  const DefaultCountry := "Canada"

  /** The estimate given for any country outside the table. */
  const DefaultDeliveryTime := "7-10 business days"

  const DeliveryTimes: map<string, string> := map[
    "UK" := "2-3 business days",
    "US" := "5-7 business days",
    "Canada" := "5-7 business days",
    "Australia" := "7-10 business days"
  ]

  /** `delivery_times.get(country, '7-10 business days')`. */
  function DeliveryTime(country: string): (r: string)
    ensures country == "UK" ==> r == "2-3 business days"
    ensures country == "US" || country == "Canada" ==> r == "5-7 business days"
    ensures country == "Australia" ==> r == "7-10 business days"
    ensures country !in {"UK", "US", "Canada", "Australia"} ==> r == DefaultDeliveryTime
  {
    if country in DeliveryTimes then DeliveryTimes[country] else DefaultDeliveryTime
  }

  const EstimatePrefix := "Estimated delivery time to "

  /** The message `estimated_delivery_time` returns: it names the country, then `": "`, then its estimate. */
  function EstimatedDeliveryTime(country: string): (r: string)
    ensures |r| >= |EstimatePrefix| + |country| + |DeliveryTime(country)|
    ensures r[..|EstimatePrefix| + |country|] == EstimatePrefix + country
    ensures r[|r| - |DeliveryTime(country)|..] == DeliveryTime(country)
    ensures r[|EstimatePrefix| + |country|..|r| - |DeliveryTime(country)|] == ": "
  {
    EstimatePrefix + country + ": " + DeliveryTime(country)
  }

  /** Every estimate is one of the three durations in the table; unknown countries never fail. */
  lemma DeliveryTimeIsTabled(country: string)
    ensures DeliveryTime(country) in {"2-3 business days", "5-7 business days", "7-10 business days"}
    ensures DeliveryTime(DefaultCountry) == "5-7 business days"
  {
  }

  const OrderNotFound := "Order ID not found."

  const OrderStatuses: map<string, string> := map[
    "1" := "Order placed, awaiting processing.",
    "2" := "Order packed.",
    "3" := "Order in Progress.",
    "4" := "Order arrived to nearest hub.",
    "5" := "Out for delivery.",
    "6" := "Order delivered."
  ]

  /** `order_statuses.get(order_id, "Order ID not found.")`. */
  function OrderStatus(orderId: string): (r: string)
    ensures r == OrderNotFound <==> orderId !in {"1", "2", "3", "4", "5", "6"}
    ensures orderId == "1" ==> r == "Order placed, awaiting processing."
    ensures orderId == "2" ==> r == "Order packed."
    ensures orderId == "3" ==> r == "Order in Progress."
    ensures orderId == "4" ==> r == "Order arrived to nearest hub."
    ensures orderId == "5" ==> r == "Out for delivery."
    ensures orderId == "6" ==> r == "Order delivered."
  {
    if orderId in OrderStatuses then OrderStatuses[orderId] else OrderNotFound
  }
}
