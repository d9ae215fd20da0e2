/**
 * The shipping service: the label built from an order, its file name, and
 * the synthetic tracking number. The clock (`Date.now()`, read once for the
 * tracking number and once more for the file name), the ISO timestamp of
 * `new Date()` and the output of `Math.random().toString(36)` are parameters.
 */
module Shipping {
  import opened Common
  import opened Models

  // ---------------------------------------------------------------------------
  // Total item count
  // ---------------------------------------------------------------------------

  /** `items.reduce((sum, item) => sum + item.quantity, sum)`: a left fold from an accumulator. */
  function ReduceQuantities(sum: int, items: seq<OrderItem>): (total: int)
    decreases |items|
  {
    if items == [] then sum else ReduceQuantities(sum + items[0].quantity, items[1..])
  }

  /** Reference definition: the sum of the quantities, item by item from the back. */
  ghost function QuantitySum(items: seq<OrderItem>): (total: int)
    decreases |items|
  {
    if items == [] then 0 else QuantitySum(items[..|items| - 1]) + items[|items| - 1].quantity
  }

  lemma {:induction false} QuantitySumPrepend(item: OrderItem, items: seq<OrderItem>)
    ensures QuantitySum([item] + items) == item.quantity + QuantitySum(items)
    decreases |items|
  {
    if items != [] {
      var last := |items| - 1;
      assert ([item] + items)[..|items|] == [item] + items[..last];
      QuantitySumPrepend(item, items[..last]);
    }
  }

  /** The fold adds exactly the quantity sum to its starting value. */
  lemma {:induction false} ReduceAddsQuantitySum(sum: int, items: seq<OrderItem>)
    ensures ReduceQuantities(sum, items) == sum + QuantitySum(items)
    decreases |items|
  {
    if items != [] {
      ReduceAddsQuantitySum(sum + items[0].quantity, items[1..]);
      assert items == [items[0]] + items[1..];
      QuantitySumPrepend(items[0], items[1..]);
    }
  }

  /** `totalItems` of the label: the sum of the line items' quantities, 0 for no items. */
  function TotalItems(items: seq<OrderItem>): (total: int)
    ensures total == QuantitySum(items)
    ensures items == [] ==> total == 0
  {
    ReduceAddsQuantitySum(0, items);
    ReduceQuantities(0, items)
  }

  /** The count of one order placed as two parts is the sum of the parts' counts. */
  lemma {:induction false} TotalItemsAppend(a: seq<OrderItem>, b: seq<OrderItem>)
    ensures TotalItems(a + b) == TotalItems(a) + TotalItems(b)
    decreases |b|
  {
    if b != [] {
      var last := |b| - 1;
      assert (a + b)[..|a + b| - 1] == a + b[..last];
      TotalItemsAppend(a, b[..last]);
    } else {
      assert a + b == a;
    }
  }

  /** With every quantity at least 1, as the schema demands, there are at least as many items as lines. */
  lemma {:induction false} TotalItemsCoversLines(items: seq<OrderItem>)
    requires ValidOrderItems(items)
    ensures TotalItems(items) >= |items|
    decreases |items|
  {
    if items != [] {
      var last := |items| - 1;
      TotalItemsCoversLines(items[..last]);
      assert ValidOrderItem(items[last]);
    }
  }

  // ---------------------------------------------------------------------------
  // Tracking number
  // ---------------------------------------------------------------------------

  const TrackingPrefix: string := "KYOSO"

  /** `Date.now().toString().slice(-8)`. */
  function TimestampPart(clockMillis: nat): (t: string)
  {
    SliceFrom(DecimalString(clockMillis), -8)
  }

  /** `Math.random().toString(36).substring(2, 6).toUpperCase()`. */
  function RandomPart(random: string): (q: string)
  {
    ToUpperCase(Substring(random, 2, 6))
  }

  /**
   * Reference definition of a tracking number drawn from the decimal clock
   * reading `d` and the random string, character by character: `KYOSO-`, the
   * last m = min(8, |d|) digits of `d`, `-`, then characters 2 to 5 of
   * `random` (those that exist), upper-cased.
   */
  predicate TrackingNumberShape(d: string, random: string, tn: string)
  {
    var m := Min(8, |d|);
    && |tn| == 7 + m + (Min(6, |random|) - Min(2, |random|))
    && tn[..6] == "KYOSO-"
    && tn[6..6 + m] == d[|d| - m..]
    && tn[6 + m] == '-'
    && forall j :: 7 + m <= j < |tn| ==> tn[j] == UpperChar(random[j - 5 - m])
  }

  /** The reference definition leaves no freedom: it fixes every character. */
  lemma TrackingNumberShapeUnique(d: string, random: string, a: string, b: string)
    requires TrackingNumberShape(d, random, a) && TrackingNumberShape(d, random, b)
    ensures a == b
  {
    var m := Min(8, |d|);
    forall i | 0 <= i < |a| ensures a[i] == b[i] {
      if i < 6 {
        assert a[i] == a[..6][i] == b[..6][i] == b[i];
      } else if i < 6 + m {
        assert a[i] == a[6..6 + m][i - 6] == b[6..6 + m][i - 6] == b[i];
      }
    }
  }

  /**
   * `generateTrackingNumber`: `KYOSO-`, then the last (at most eight) digits of
   * the clock reading, then `-`, then characters 2 to 5 of the random string,
   * those that exist, upper-cased.
   */
  function GenerateTrackingNumber(clockMillis: nat, random: string): (tn: string)
    ensures HasPrefix(tn, TrackingPrefix + "-")
    ensures 8 <= |tn| <= 19
    ensures TrackingNumberShape(DecimalString(clockMillis), random, tn)
  {
    var t, q := TimestampPart(clockMillis), RandomPart(random);
    var tn := (TrackingPrefix + "-") + (t + "-" + q);
    TimestampPartIsTail(clockMillis);
    RandomPartShape(random);
    FormatOfParts(DecimalString(clockMillis), random, t, q, tn);
    tn
  }

  /** The layout of `KYOSO-<timestamp part>-<random part>`, for parts of the shape the two lemmas below give. */
  lemma FormatOfParts(d: string, random: string, t: string, q: string, tn: string)
    requires 1 <= |d| && |t| == Min(8, |d|) && t == d[|d| - |t|..]
    requires |q| == Min(6, |random|) - Min(2, |random|)
    requires forall i :: 0 <= i < |q| ==> q[i] == UpperChar(random[2 + i])
    requires tn == (TrackingPrefix + "-") + (t + "-" + q)
    ensures HasPrefix(tn, TrackingPrefix + "-")
    ensures 8 <= |tn| <= 19
    ensures TrackingNumberShape(d, random, tn)
  {
    var m := |t|;
    assert TrackingPrefix + "-" == "KYOSO-";
    PartsLayout("KYOSO-", t, q, tn);
    forall j | 7 + m <= j < |tn| ensures tn[j] == UpperChar(random[j - 5 - m]) {
      assert tn[j] == q[j - 7 - m];
    }
  }

  /** Where the three parts of `head + (t + "-" + q)` stand. */
  lemma PartsLayout(head: string, t: string, q: string, tn: string)
    requires tn == head + (t + "-" + q)
    ensures |tn| == |head| + |t| + 1 + |q|
    ensures tn[..|head|] == head
    ensures tn[|head|..|head| + |t|] == t
    ensures tn[|head| + |t|] == '-'
    ensures forall j :: |head| + |t| + 1 <= j < |tn| ==> tn[j] == q[j - |head| - |t| - 1]
  {
    assert tn[|head|..|head| + |t|] == (t + "-" + q)[..|t|];
  }

  /** The timestamp part is the last min(8, n) digits of the n-digit clock reading. */
  lemma TimestampPartIsTail(clockMillis: nat)
    ensures var d := DecimalString(clockMillis);
            var t := TimestampPart(clockMillis);
            |t| == Min(8, |d|) && t == d[|d| - |t|..] && AllDigits(t) && 1 <= |t|
  {
    var d := DecimalString(clockMillis);
    var t := SliceFrom(d, -8);
    DigitsSuffix(d, t);
  }

  /** A suffix of a run of digits is a run of digits, and is the tail it names. */
  lemma DigitsSuffix(d: string, t: string)
    requires AllDigits(d) && HasSuffix(d, t)
    ensures t == d[|d| - |t|..] && AllDigits(t)
  {
    forall i | 0 <= i < |t| ensures IsDigit(t[i]) {
      assert t[i] == d[|d| - |t| + i];
    }
  }

  /**
   * The random part is the upper-cased characters 2 to 5 of the random
   * string: at most four characters, none of them a lower-case letter.
   */
  lemma RandomPartShape(random: string)
    ensures var r := RandomPart(random);
            && |r| <= 4
            && |r| == Min(6, |random|) - Min(2, |random|)
            && (forall i :: 0 <= i < |r| ==> r[i] == UpperChar(random[2 + i]))
            && (forall i :: 0 <= i < |r| ==> !IsAsciiLower(r[i]))
  {
  }

  /**
   * A tracking number determines both its parts: equal tracking numbers come
   * from equal timestamp parts and equal random parts.
   */
  lemma TrackingNumberDeterminesParts(c1: nat, r1: string, c2: nat, r2: string)
    ensures GenerateTrackingNumber(c1, r1) == GenerateTrackingNumber(c2, r2)
        ==> TimestampPart(c1) == TimestampPart(c2) && RandomPart(r1) == RandomPart(r2)
  {
    if GenerateTrackingNumber(c1, r1) == GenerateTrackingNumber(c2, r2) {
      var t1, t2 := TimestampPart(c1), TimestampPart(c2);
      var q1, q2 := RandomPart(r1), RandomPart(r2);
      TrackingNumberLayout(c1, r1);
      TrackingNumberLayout(c2, r2);
      CommonPrefix(TrackingPrefix + "-", t1 + ['-'] + q1, t2 + ['-'] + q2);
      TimestampPartIsTail(c1);
      TimestampPartIsTail(c2);
      DigitRunSplit(t1, t2, '-', q1, q2);
    }
  }

  /** `KYOSO-`, the timestamp part, `-`, the random part, in that order. */
  lemma TrackingNumberLayout(c: nat, r: string)
    ensures GenerateTrackingNumber(c, r)
         == (TrackingPrefix + "-") + (TimestampPart(c) + ['-'] + RandomPart(r))
  {
  }

  // ---------------------------------------------------------------------------
  // Shipping label
  // ---------------------------------------------------------------------------

  datatype PackageDetails = PackageDetails(weight: string, dimensions: string)

  datatype ShippingLabel = ShippingLabel(
    orderId: ObjectId,
    shippingAddress: ShippingAddress,
    totalItems: int,
    trackingNumber: string,
    generatedAt: string,
    shippingMethod: string,
    packageDetails: PackageDetails)

  /** What `generateShippingLabel` resolves to. */
  datatype LabelResult = LabelResult(filepath: string, trackingNumber: string, shippingLabel: ShippingLabel)

  /** Directory of label files, relative to the service's output directory. */
  const LabelsDir: string := "shipping-labels/"

  function LabelFileName(orderId: ObjectId, clockMillis: nat): (name: string)
  {
    "shipping_label_" + orderId + "_" + DecimalString(clockMillis) + ".json"
  }

  /** Two labels for one order written at different instants get different files. */
  lemma LabelFileNamesDifferInTime(orderId: ObjectId, t1: nat, t2: nat)
    requires LabelFileName(orderId, t1) == LabelFileName(orderId, t2)
    ensures t1 == t2
  {
    var p := "shipping_label_" + orderId + "_";
    var d1, d2 := DecimalString(t1), DecimalString(t2);
    assert LabelFileName(orderId, t1) == p + (d1 + ".json");
    assert LabelFileName(orderId, t2) == p + (d2 + ".json");
    CommonPrefix(p, d1 + ".json", d2 + ".json");
    CommonSuffix(d1, d2, ".json");
    DecimalStringInjective(t1, t2);
  }

  /**
   * `generateShippingLabel`: copies the order's id and address, counts its
   * items, stamps a fresh tracking number, and names the file after the order
   * and a second clock reading. Writing the file is not modelled.
   */
  function GenerateShippingLabel(
    order: Order, trackingClock: nat, random: string, generatedAt: string, fileClock: nat): (r: LabelResult)
    ensures r.shippingLabel.orderId == order.id
    ensures r.shippingLabel.shippingAddress == order.shippingAddress
    ensures r.shippingLabel.totalItems == QuantitySum(order.items)
    ensures r.shippingLabel.shippingMethod == "Standard"
    ensures r.shippingLabel.packageDetails == PackageDetails("TBD", "TBD")
    ensures r.shippingLabel.generatedAt == generatedAt
    ensures r.trackingNumber == r.shippingLabel.trackingNumber
    ensures r.trackingNumber == GenerateTrackingNumber(trackingClock, random)
    ensures r.filepath == LabelsDir + LabelFileName(order.id, fileClock)
  {
    var shippingLabel := ShippingLabel(
      order.id,
      order.shippingAddress,
      TotalItems(order.items),
      GenerateTrackingNumber(trackingClock, random),
      generatedAt,
      "Standard",
      PackageDetails("TBD", "TBD"));
    LabelResult(LabelsDir + LabelFileName(order.id, fileClock), shippingLabel.trackingNumber, shippingLabel)
  }
}
