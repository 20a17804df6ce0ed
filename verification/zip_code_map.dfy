/**
 * The zip-code response map: one circle per zip code whose radius and fill
 * colour grow with the zip's share of the largest response count, and a
 * permanent text label for the zip codes with more than thirty responses.
 * The map library's calls are replaced by the list of markers they would draw.
 */
module ZipCodeMap {
  import opened Wrappers
  import opened JsNumber
  import opened AcmeData

  const MIN_RADIUS: real := 5.0
  const RADIUS_SPAN: real := 20.0
  const LABEL_THRESHOLD: int := 30

  const PRIMARY_PURPLE: string := "#6B46C1"
  const LIGHT_PURPLE: string := "#8B5CF6"
  const BLUE: string := "#3B82F6"
  const LIGHT_BLUE: string := "#60A5FA"
  const VERY_LIGHT_BLUE: string := "#93C5FD"

  /** The fill colours from lightest (lowest intensity) to darkest. */
  const Palette: seq<string> := [VERY_LIGHT_BLUE, LIGHT_BLUE, BLUE, LIGHT_PURPLE, PRIMARY_PURPLE]

  /** The fixed stroke and opacity settings every circle is drawn with; opacities in tenths. */
  datatype CircleStyle = CircleStyle(strokeColor: string, weight: int, opacity: int, fillOpacity: int)

  const CIRCLE_STYLE: CircleStyle := CircleStyle("#fff", 2, 10, 7)

  /** What the map gets for one zip code: a circle, and whether a text label sits on it. */
  datatype Marker = Marker(
    zip: string,
    lat: int,
    lng: int,
    radius: Number,
    fillColor: string,
    style: CircleStyle,
    labelled: bool)

  /** `Math.max` over the response counts of a non-empty map. */
  function MaxResponses(zips: seq<ZipEntry>): (m: int)
    requires |zips| > 0
    ensures forall i :: 0 <= i < |zips| ==> zips[i].responses <= m
    ensures exists i :: 0 <= i < |zips| && zips[i].responses == m
  {
    if |zips| == 1 then zips[0].responses
    else
      var rest := MaxResponses(zips[1..]);
      assert forall i :: 1 <= i < |zips| ==> zips[1..][i - 1] == zips[i];
      if zips[0].responses > rest then zips[0].responses else rest
  }

  /** A zip's share of the maximum, `responses / maxResponses`. */
  function Intensity(responses: int, maxResponses: int): (q: Number)
    ensures 0 <= responses <= maxResponses && maxResponses > 0 ==> q.Finite? && 0.0 <= q.value <= 1.0
  {
    Divide(responses, maxResponses)
  }

  /** The colour scale: five buckets with strict lower thresholds, checked from the top, first match wins. */
  function GetColor(intensity: Number): (c: string)
    ensures c in Palette
  {
    if GreaterThan(intensity, 0.8) then PRIMARY_PURPLE
    else if GreaterThan(intensity, 0.6) then LIGHT_PURPLE
    else if GreaterThan(intensity, 0.4) then BLUE
    else if GreaterThan(intensity, 0.2) then LIGHT_BLUE
    else VERY_LIGHT_BLUE
  }

  /** `5 + intensity * 20`. */
  function Radius(intensity: Number): (r: Number)
    ensures r.Finite? <==> intensity.Finite?
    ensures intensity.Finite? && 0.0 <= intensity.value <= 1.0 ==> MIN_RADIUS <= r.value <= MIN_RADIUS + RADIUS_SPAN
  {
    ScaleShift(intensity, MIN_RADIUS, RADIUS_SPAN)
  }

  predicate HasLabel(responses: int)
  {
    responses > LABEL_THRESHOLD
  }

  /** The marker drawn for one entry against the map's maximum. */
  function MarkerFor(z: ZipEntry, maxResponses: int): (m: Marker)
    ensures m.zip == z.zip && m.lat == z.lat && m.lng == z.lng
    ensures m.fillColor in Palette
    ensures m.labelled <==> z.responses > 30
  {
    var intensity := Intensity(z.responses, maxResponses);
    Marker(z.zip, z.lat, z.lng, Radius(intensity), GetColor(intensity), CIRCLE_STYLE, HasLabel(z.responses))
  }

  /**
   * Renders the map. `hostReady` says whether the map container and the map
   * library are present; without them nothing is drawn (None). Otherwise the
   * result lists, in iteration order, the marker drawn for each entry.
   */
  method RenderZipCodeMap(hostReady: bool, zips: seq<ZipEntry>) returns (drawn: Option<seq<Marker>>)
    ensures drawn.None? <==> !hostReady
    ensures drawn.Some? ==> |drawn.value| == |zips|
    ensures drawn.Some? ==> forall k :: 0 <= k < |zips| ==> drawn.value[k] == MarkerFor(zips[k], MaxResponses(zips))
  {
    if !hostReady {
      return None;
    }
    if |zips| == 0 {
      // `Math.max()` of nothing is -Infinity, but no entry is ever scaled by it.
      return Some([]);
    }
    var maxResponses := MaxResponses(zips);
    var markers: seq<Marker> := [];
    var i := 0;
    while i < |zips|
      invariant 0 <= i <= |zips|
      invariant |markers| == i
      invariant forall k :: 0 <= k < i ==> markers[k] == MarkerFor(zips[k], maxResponses)
    {
      var data := zips[i];
      var intensity := Divide(data.responses, maxResponses);
      var radius := ScaleShift(intensity, MIN_RADIUS, RADIUS_SPAN);
      var circle := Marker(data.zip, data.lat, data.lng, radius, GetColor(intensity), CIRCLE_STYLE, false);
      if data.responses > LABEL_THRESHOLD {
        circle := circle.(labelled := true);
      }
      markers := markers + [circle];
      i := i + 1;
    }
    return Some(markers);
  }

  // ----- scaling properties -----

  /** The position of a colour in the palette: 0 is the lightest bucket, 4 the darkest. */
  function Shade(c: string): (k: nat)
    requires c in Palette
    ensures k < |Palette| && Palette[k] == c
  {
    if c == VERY_LIGHT_BLUE then 0
    else if c == LIGHT_BLUE then 1
    else if c == BLUE then 2
    else if c == LIGHT_PURPLE then 3
    else 4
  }

  /** `responses / maxResponses > t` with `t = num / 5`, as an integer comparison. */
  lemma {:induction false} IntensityAbove(responses: int, maxResponses: int, num: int)
    requires maxResponses > 0
    ensures GreaterThan(Intensity(responses, maxResponses), num as real / 5.0) <==> 5 * responses > num * maxResponses
  {
    var r, m := responses as real, maxResponses as real;
    var q := r / m;
    assert q * m == r;
    if 5 * responses > num * maxResponses {
      assert 5.0 * (q * m) > (num as real) * m;
      assert (5.0 * q - num as real) * m > 0.0;
    } else {
      assert 5.0 * (q * m) <= (num as real) * m;
      assert (5.0 * q - num as real) * m <= 0.0;
    }
  }

  /**
   * The colour buckets in exact integer terms: the darkest colour when the
   * count exceeds 4/5 of the maximum, and so on down to the lightest at or below 1/5.
   */
  lemma ColorBuckets(responses: int, maxResponses: int)
    requires maxResponses > 0
    ensures var c := GetColor(Intensity(responses, maxResponses));
      && (c == PRIMARY_PURPLE <==> 5 * responses > 4 * maxResponses)
      && (c == LIGHT_PURPLE <==> 3 * maxResponses < 5 * responses <= 4 * maxResponses)
      && (c == BLUE <==> 2 * maxResponses < 5 * responses <= 3 * maxResponses)
      && (c == LIGHT_BLUE <==> maxResponses < 5 * responses <= 2 * maxResponses)
      && (c == VERY_LIGHT_BLUE <==> 5 * responses <= maxResponses)
  {
    IntensityAbove(responses, maxResponses, 4);
    IntensityAbove(responses, maxResponses, 3);
    IntensityAbove(responses, maxResponses, 2);
    IntensityAbove(responses, maxResponses, 1);
    assert 4.0 / 5.0 == 0.8 && 3.0 / 5.0 == 0.6 && 2.0 / 5.0 == 0.4 && 1.0 / 5.0 == 0.2;
  }

  /** An intensity of exactly 0.8 is not above 0.8, so it falls through to the second bucket. */
  lemma FourFifthsFallsThrough(responses: int, maxResponses: int)
    requires maxResponses > 0 && 5 * responses == 4 * maxResponses
    ensures GetColor(Intensity(responses, maxResponses)) == LIGHT_PURPLE
  {
    ColorBuckets(responses, maxResponses);
  }

  /** More responses never give a lighter colour. */
  lemma ColorMonotone(r1: int, r2: int, maxResponses: int)
    requires maxResponses > 0 && r1 <= r2
    ensures Shade(GetColor(Intensity(r1, maxResponses))) <= Shade(GetColor(Intensity(r2, maxResponses)))
  {
    ColorBuckets(r1, maxResponses);
    ColorBuckets(r2, maxResponses);
  }

  /** For a count between zero and the maximum the radius is finite and within [5, 25]; 25 at the maximum, 5 at zero. */
  lemma RadiusBounds(responses: int, maxResponses: int)
    requires 0 < maxResponses && 0 <= responses <= maxResponses
    ensures Radius(Intensity(responses, maxResponses)).Finite?
    ensures MIN_RADIUS <= Radius(Intensity(responses, maxResponses)).value <= MIN_RADIUS + RADIUS_SPAN
    ensures responses == maxResponses ==> Radius(Intensity(responses, maxResponses)) == Finite(25.0)
    ensures responses == 0 ==> Radius(Intensity(responses, maxResponses)) == Finite(5.0)
  {
    var q := responses as real / maxResponses as real;
    assert q * (maxResponses as real) == responses as real;
    assert 0.0 <= q <= 1.0;
    if responses == maxResponses {
      assert (q - 1.0) * (maxResponses as real) == 0.0;
      assert q == 1.0;
      assert Intensity(responses, maxResponses) == Finite(1.0);
    }
  }

  /** More responses never give a smaller radius. */
  lemma RadiusMonotone(r1: int, r2: int, maxResponses: int)
    requires maxResponses > 0 && r1 <= r2
    ensures Radius(Intensity(r1, maxResponses)).Finite? && Radius(Intensity(r2, maxResponses)).Finite?
    ensures Radius(Intensity(r1, maxResponses)).value <= Radius(Intensity(r2, maxResponses)).value
  {
    var m := maxResponses as real;
    var q1, q2 := r1 as real / m, r2 as real / m;
    assert q1 * m == r1 as real && q2 * m == r2 as real;
    assert (q2 - q1) * m >= 0.0;
    assert Radius(Intensity(r1, maxResponses)) == Finite(MIN_RADIUS + q1 * RADIUS_SPAN);
    assert Radius(Intensity(r2, maxResponses)) == Finite(MIN_RADIUS + q2 * RADIUS_SPAN);
  }

  /**
   * On a non-empty map whose counts are non-negative and not all zero, every
   * marker has a finite radius within [5, 25].
   */
  lemma MarkersWithinRange(zips: seq<ZipEntry>, maxResponses: int)
    requires |zips| > 0 && ValidZipData(zips)
    requires maxResponses == MaxResponses(zips) > 0
    ensures forall k :: 0 <= k < |zips| ==>
      MarkerFor(zips[k], maxResponses).radius.Finite? &&
      5.0 <= MarkerFor(zips[k], maxResponses).radius.value <= 25.0
  {
    forall k | 0 <= k < |zips|
      ensures MarkerFor(zips[k], maxResponses).radius.Finite?
      ensures 5.0 <= MarkerFor(zips[k], maxResponses).radius.value <= 25.0
    {
      RadiusBounds(zips[k].responses, maxResponses);
    }
  }

  /** On a map with a positive maximum, the zips at the maximum are drawn at radius 25 in the darkest colour. */
  lemma MaximumDrawnDarkest(zips: seq<ZipEntry>, maxResponses: int)
    requires |zips| > 0
    requires maxResponses == MaxResponses(zips) > 0
    ensures forall k :: 0 <= k < |zips| && zips[k].responses == maxResponses ==>
      MarkerFor(zips[k], maxResponses).radius == Finite(25.0) &&
      MarkerFor(zips[k], maxResponses).fillColor == PRIMARY_PURPLE
  {
    RadiusBounds(maxResponses, maxResponses);
    ColorBuckets(maxResponses, maxResponses);
  }

  /**
   * A non-empty map whose counts are all zero: `0 / 0` is NaN, so every radius
   * is NaN and every comparison in the colour scale fails, giving the lightest colour.
   */
  lemma AllZeroMap(zips: seq<ZipEntry>)
    requires |zips| > 0
    requires forall i :: 0 <= i < |zips| ==> zips[i].responses == 0
    ensures MaxResponses(zips) == 0
    ensures forall k :: 0 <= k < |zips| ==>
      MarkerFor(zips[k], 0).radius == NaN &&
      MarkerFor(zips[k], 0).fillColor == VERY_LIGHT_BLUE &&
      !MarkerFor(zips[k], 0).labelled
  {
  }

  // ----- the shipped data -----

  /** The largest count in the dataset is 95, and only 78745 has it. */
  lemma ShippedMaximum()
    ensures MaxResponses(ZipcodeData) == 95
    ensures forall i :: 0 <= i < |ZipcodeData| && ZipcodeData[i].responses == 95 ==> ZipcodeData[i].zip == "78745"
  {
    assert forall i :: 0 <= i < |ZipcodeData| ==>
      ZipcodeData[i].responses <= 95 && (ZipcodeData[i].responses == 95 ==> i == 25);
    assert ZipcodeData[25].responses == 95;
  }

  /**
   * Against the shipped maximum of 95, 78745 is drawn at radius 25 in the darkest
   * colour and labelled; 78734 (4 of 95, at most 0.2) at radius 5 + 80/95 in the lightest, unlabelled.
   */
  lemma ShippedMarkers()
    ensures ZipcodeData[25] == ZipEntry("78745", 95, 302063, -977954, "South Austin")
    ensures ZipcodeData[16] == ZipEntry("78734", 4, 303828, -979495, "Lakeway")
    ensures MarkerFor(ZipcodeData[25], 95)
         == Marker("78745", 302063, -977954, Finite(25.0), PRIMARY_PURPLE, CIRCLE_STYLE, true)
    ensures MarkerFor(ZipcodeData[16], 95)
         == Marker("78734", 303828, -979495, Finite(5.0 + 80.0 / 95.0), VERY_LIGHT_BLUE, CIRCLE_STYLE, false)
  {
    ColorBuckets(95, 95);
    ColorBuckets(4, 95);
  }

  /** The label threshold is strict: 31 responses are labelled, 30 are not. */
  lemma LabelThreshold()
    ensures HasLabel(31) && !HasLabel(30)
  {
  }
}
