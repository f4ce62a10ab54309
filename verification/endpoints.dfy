/**
 * The endpoint path catalogue of the Carbon Intensity client.
 *
 * Each public `get_*` operation of the client builds a request path by
 * concatenating fixed literals with its parameters, each parameter passed
 * through the library's data-string encoder. `Call` holds one constructor per
 * operation, its fields being the operation's parameters in declaration
 * order; `Path` is the path the operation requests.
 *
 * The encoder's body is library code outside this model, so every member
 * takes it as a parameter `enc`. Properties that need something of the
 * encoder (it never emits '/') take that as an explicit hypothesis.
 */
module Endpoints {
  /** The library's data-string encoder, left uninterpreted. */
  type Encoder = string -> string

  /** One constructor per public `get_*` operation, with its parameters. */
  datatype Call =
    | CurrentIntensity
    | TodaysIntensity
    | IntensityForDate(date: string)
    | IntensityForDatePeriod(date: string, period: string)
    | IntensityFactors
    | IntensityForTimepoint(from: string)
    | Intensity24hForward(from: string)
    | Intensity48hForward(from: string)
    | Intensity24hPast(from: string)
    | IntensityBetween(from: string, to: string)
    | IntensityStats(from: string, to: string)
    | IntensityStatsBlock(from: string, to: string, block: string)
    | CurrentGeneration
    | Generation24hPast(from: string)
    | GenerationBetween(from: string, to: string)
    | RegionalCurrent
    | RegionalEngland
    | RegionalScotland
    | RegionalWales
    | RegionalByPostcode(postcode: string)
    | RegionalByRegionid(regionid: string)
    | Regional24hForward(from: string)
    | Regional24hForwardPostcode(from: string, postcode: string)
    | Regional24hForwardRegionid(from: string, regionid: string)
    | Regional48hForward(from: string)
    | Regional48hForwardPostcode(from: string, postcode: string)
    | Regional48hForwardRegionid(from: string, regionid: string)
    | Regional24hPast(from: string)
    | Regional24hPastPostcode(from: string, postcode: string)
    | Regional24hPastRegionid(from: string, regionid: string)
    | RegionalBetween(from: string, to: string)
    | RegionalBetweenPostcode(from: string, to: string, postcode: string)
    | RegionalBetweenRegionid(from: string, to: string, regionid: string)

  /** The request path each operation passes to the call pipeline. */
  function Path(enc: Encoder, call: Call): (path: string)
    ensures |path| > 0 && path[0] == '/'
  {
    match call
    case CurrentIntensity => "/intensity"
    case TodaysIntensity => "/intensity/date"
    case IntensityForDate(date) => "/intensity/date/" + enc(date)
    case IntensityForDatePeriod(date, period) => "/intensity/date/" + enc(date) + "/" + enc(period)
    case IntensityFactors => "/intensity/factors"
    case IntensityForTimepoint(from) => "/intensity/" + enc(from)
    case Intensity24hForward(from) => "/intensity/" + enc(from) + "/fw24h"
    case Intensity48hForward(from) => "/intensity/" + enc(from) + "/fw48h"
    case Intensity24hPast(from) => "/intensity/" + enc(from) + "/pt24h"
    case IntensityBetween(from, to) => "/intensity/" + enc(from) + "/" + enc(to)
    case IntensityStats(from, to) => "/intensity/stats/" + enc(from) + "/" + enc(to)
    case IntensityStatsBlock(from, to, block) =>
      "/intensity/stats/" + enc(from) + "/" + enc(to) + "/" + enc(block)
    case CurrentGeneration => "/generation"
    case Generation24hPast(from) => "/generation/" + enc(from) + "/pt24h"
    case GenerationBetween(from, to) => "/generation/" + enc(from) + "/" + enc(to)
    case RegionalCurrent => "/regional"
    case RegionalEngland => "/regional/england"
    case RegionalScotland => "/regional/scotland"
    case RegionalWales => "/regional/wales"
    case RegionalByPostcode(postcode) => "/regional/postcode/" + enc(postcode)
    case RegionalByRegionid(regionid) => "/regional/regionid/" + enc(regionid)
    case Regional24hForward(from) => "/regional/intensity/" + enc(from) + "/fw24h"
    case Regional24hForwardPostcode(from, postcode) =>
      "/regional/intensity/" + enc(from) + "/fw24h/postcode/" + enc(postcode)
    case Regional24hForwardRegionid(from, regionid) =>
      "/regional/intensity/" + enc(from) + "/fw24h/regionid/" + enc(regionid)
    case Regional48hForward(from) => "/regional/intensity/" + enc(from) + "/fw48h"
    case Regional48hForwardPostcode(from, postcode) =>
      "/regional/intensity/" + enc(from) + "/fw48h/postcode/" + enc(postcode)
    case Regional48hForwardRegionid(from, regionid) =>
      "/regional/intensity/" + enc(from) + "/fw48h/regionid/" + enc(regionid)
    case Regional24hPast(from) => "/regional/intensity/" + enc(from) + "/pt24h"
    case Regional24hPastPostcode(from, postcode) =>
      "/regional/intensity/" + enc(from) + "/pt24h/postcode/" + enc(postcode)
    case Regional24hPastRegionid(from, regionid) =>
      "/regional/intensity/" + enc(from) + "/pt24h/regionid/" + enc(regionid)
    case RegionalBetween(from, to) => "/regional/intensity/" + enc(from) + "/" + enc(to)
    case RegionalBetweenPostcode(from, to, postcode) =>
      "/regional/intensity/" + enc(from) + "/" + enc(to) + "/postcode/" + enc(postcode)
    case RegionalBetweenRegionid(from, to, regionid) =>
      "/regional/intensity/" + enc(from) + "/" + enc(to) + "/regionid/" + enc(regionid)
  }

  /** The parameters of an operation, in the order the operation declares them. */
  function Args(call: Call): (args: seq<string>)
    ensures |args| <= 3
  {
    match call
    case IntensityForDate(date) => [date]
    case IntensityForDatePeriod(date, period) => [date, period]
    case IntensityForTimepoint(from) => [from]
    case Intensity24hForward(from) => [from]
    case Intensity48hForward(from) => [from]
    case Intensity24hPast(from) => [from]
    case IntensityBetween(from, to) => [from, to]
    case IntensityStats(from, to) => [from, to]
    case IntensityStatsBlock(from, to, block) => [from, to, block]
    case Generation24hPast(from) => [from]
    case GenerationBetween(from, to) => [from, to]
    case RegionalByPostcode(postcode) => [postcode]
    case RegionalByRegionid(regionid) => [regionid]
    case Regional24hForward(from) => [from]
    case Regional24hForwardPostcode(from, postcode) => [from, postcode]
    case Regional24hForwardRegionid(from, regionid) => [from, regionid]
    case Regional48hForward(from) => [from]
    case Regional48hForwardPostcode(from, postcode) => [from, postcode]
    case Regional48hForwardRegionid(from, regionid) => [from, regionid]
    case Regional24hPast(from) => [from]
    case Regional24hPastPostcode(from, postcode) => [from, postcode]
    case Regional24hPastRegionid(from, regionid) => [from, regionid]
    case RegionalBetween(from, to) => [from, to]
    case RegionalBetweenPostcode(from, to, postcode) => [from, to, postcode]
    case RegionalBetweenRegionid(from, to, regionid) => [from, to, regionid]
    case _ => []
  }

  /** The operations that take no parameters. */
  predicate Fixed(call: Call) {
    Args(call) == []
  }

  /** A parameterless operation requests the same path whatever the encoder. */
  lemma FixedPathsAreConstant(enc1: Encoder, enc2: Encoder, call: Call)
    requires Fixed(call)
    ensures Path(enc1, call) == Path(enc2, call)
  {
  }

  // Each regional operation with postcode and regionid variants requests, in
  // its variants, its own path followed by "/postcode/" or "/regionid/" and
  // the encoded identifier.

  lemma RegionalCurrentVariants(enc: Encoder, id: string)
    ensures Args(RegionalByPostcode(id)) == Args(RegionalCurrent) + [id]
    ensures Args(RegionalByRegionid(id)) == Args(RegionalCurrent) + [id]
    ensures Path(enc, RegionalByPostcode(id)) == Path(enc, RegionalCurrent) + "/postcode/" + enc(id)
    ensures Path(enc, RegionalByRegionid(id)) == Path(enc, RegionalCurrent) + "/regionid/" + enc(id)
  {
    RegionalVariantRuns();
  }

  lemma Regional24hForwardVariants(enc: Encoder, from: string, id: string)
    ensures Args(Regional24hForwardPostcode(from, id)) == Args(Regional24hForward(from)) + [id]
    ensures Args(Regional24hForwardRegionid(from, id)) == Args(Regional24hForward(from)) + [id]
    ensures Path(enc, Regional24hForwardPostcode(from, id)) == Path(enc, Regional24hForward(from)) + "/postcode/" + enc(id)
    ensures Path(enc, Regional24hForwardRegionid(from, id)) == Path(enc, Regional24hForward(from)) + "/regionid/" + enc(id)
  {
    var x := "/regional/intensity/" + enc(from);
    Fw24hVariantRuns();
    Regroup(x, "/fw24h", "/postcode/", enc(id));
    Regroup(x, "/fw24h", "/regionid/", enc(id));
  }

  lemma Regional48hForwardVariants(enc: Encoder, from: string, id: string)
    ensures Args(Regional48hForwardPostcode(from, id)) == Args(Regional48hForward(from)) + [id]
    ensures Args(Regional48hForwardRegionid(from, id)) == Args(Regional48hForward(from)) + [id]
    ensures Path(enc, Regional48hForwardPostcode(from, id)) == Path(enc, Regional48hForward(from)) + "/postcode/" + enc(id)
    ensures Path(enc, Regional48hForwardRegionid(from, id)) == Path(enc, Regional48hForward(from)) + "/regionid/" + enc(id)
  {
    var x := "/regional/intensity/" + enc(from);
    Fw48hVariantRuns();
    Regroup(x, "/fw48h", "/postcode/", enc(id));
    Regroup(x, "/fw48h", "/regionid/", enc(id));
  }

  lemma Regional24hPastVariants(enc: Encoder, from: string, id: string)
    ensures Args(Regional24hPastPostcode(from, id)) == Args(Regional24hPast(from)) + [id]
    ensures Args(Regional24hPastRegionid(from, id)) == Args(Regional24hPast(from)) + [id]
    ensures Path(enc, Regional24hPastPostcode(from, id)) == Path(enc, Regional24hPast(from)) + "/postcode/" + enc(id)
    ensures Path(enc, Regional24hPastRegionid(from, id)) == Path(enc, Regional24hPast(from)) + "/regionid/" + enc(id)
  {
    var x := "/regional/intensity/" + enc(from);
    Pt24hVariantRuns();
    Regroup(x, "/pt24h", "/postcode/", enc(id));
    Regroup(x, "/pt24h", "/regionid/", enc(id));
  }

  lemma RegionalBetweenVariants(enc: Encoder, from: string, to: string, id: string)
    ensures Args(RegionalBetweenPostcode(from, to, id)) == Args(RegionalBetween(from, to)) + [id]
    ensures Args(RegionalBetweenRegionid(from, to, id)) == Args(RegionalBetween(from, to)) + [id]
    ensures Path(enc, RegionalBetweenPostcode(from, to, id)) == Path(enc, RegionalBetween(from, to)) + "/postcode/" + enc(id)
    ensures Path(enc, RegionalBetweenRegionid(from, to, id)) == Path(enc, RegionalBetween(from, to)) + "/regionid/" + enc(id)
  {
  }

  // The literal runs of the variant paths, cut where the national path ends,
  // and the regrouping of a concatenation around such a cut. Equalities
  // between string literals are costly for the verifier, so each is proved
  // once here and the variant lemmas above call the one they need.

  lemma RegionalVariantRuns()
    ensures "/regional/postcode/" == "/regional" + "/postcode/"
    ensures "/regional/regionid/" == "/regional" + "/regionid/"
  {
  }

  lemma Fw24hVariantRuns()
    ensures "/fw24h/postcode/" == "/fw24h" + "/postcode/"
    ensures "/fw24h/regionid/" == "/fw24h" + "/regionid/"
  {
  }

  lemma Fw48hVariantRuns()
    ensures "/fw48h/postcode/" == "/fw48h" + "/postcode/"
    ensures "/fw48h/regionid/" == "/fw48h" + "/regionid/"
  {
  }

  lemma Pt24hVariantRuns()
    ensures "/pt24h/postcode/" == "/pt24h" + "/postcode/"
    ensures "/pt24h/regionid/" == "/pt24h" + "/regionid/"
  {
  }

  lemma Regroup(x: string, a: string, b: string, e: string)
    ensures x + (a + b) + e == x + a + b + e
  {
  }

  /**
   * The date, date-period and stats-block operations each add one encoded
   * parameter, after a '/', to the path of the operation before them.
   */
  lemma DateAndStatsExtend(enc: Encoder, date: string, period: string, from: string, to: string, block: string)
    ensures Path(enc, IntensityForDate(date)) == Path(enc, TodaysIntensity) + "/" + enc(date)
    ensures Path(enc, IntensityForDatePeriod(date, period)) == Path(enc, IntensityForDate(date)) + "/" + enc(period)
    ensures Path(enc, IntensityStatsBlock(from, to, block)) == Path(enc, IntensityStats(from, to)) + "/" + enc(block)
  {
    assert "/intensity/date/" == "/intensity/date" + "/";
  }
}
