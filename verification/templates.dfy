/**
 * The endpoint catalogue as a table of path templates.
 *
 * A template is the list of '/'-separated segments an operation's path is
 * made of: fixed words, and slots that hold the operation's parameters, each
 * slot naming the parameter (by its position in the declaration) it holds.
 * The table is a second, independent statement of the catalogue: every
 * operation's `Path` is its template rendered with its arguments, the slots
 * take the parameters in declaration order, and, for an encoder that never
 * emits '/', a server splitting the path on '/' finds exactly the template's
 * segments, each encoded argument alone in its own segment.
 */
module Templates {
  import opened Segments
  import opened Endpoints

  /** The hypothesis that an encoder never emits a '/'. */
  ghost predicate NoSlash(enc: Encoder) {
    forall s :: '/' !in enc(s)
  }

  /** The fixed words that occur in the catalogue's paths. */
  datatype Word =
    | Intensity | Date | Factors | Stats | Generation
    | Regional | England | Scotland | Wales | Postcode | Regionid
    | Fw24h | Fw48h | Pt24h

  /** The spelling of a fixed word: never empty and never holding a '/'. */
  function Text(w: Word): (text: string)
    ensures text != "" && '/' !in text
  {
    match w
    case Intensity => "intensity"
    case Date => "date"
    case Factors => "factors"
    case Stats => "stats"
    case Generation => "generation"
    case Regional => "regional"
    case England => "england"
    case Scotland => "scotland"
    case Wales => "wales"
    case Postcode => "postcode"
    case Regionid => "regionid"
    case Fw24h => "fw24h"
    case Fw48h => "fw48h"
    case Pt24h => "pt24h"
  }

  /** One segment of a path: a fixed word, or the slot of the parameter at `index`. */
  datatype Segment = Fixed(word: Word) | Slot(index: nat)

  type Template = seq<Segment>

  /** Every slot of `t` names one of `n` parameters. */
  predicate SlotsWithin(t: Template, n: nat) {
    forall i :: 0 <= i < |t| && t[i].Slot? ==> t[i].index < n
  }

  /**
   * The slots of `t` hold the `n` parameters in declaration order: each
   * parameter has a slot, and, read left to right, the slots name strictly
   * increasing parameters (so none is used twice or out of order).
   */
  predicate InDeclarationOrder(t: Template, n: nat) {
    && SlotsWithin(t, n)
    && (forall i, j :: 0 <= i < j < |t| && t[i].Slot? && t[j].Slot? ==> t[i].index < t[j].index)
    && (forall k :: 0 <= k < n ==> Slot(k) in t)
  }

  /** The path template of each operation: the catalogue as a table. */
  function TemplateOf(call: Call): Template {
    match call
    case CurrentIntensity => [Fixed(Intensity)]
    case TodaysIntensity => [Fixed(Intensity), Fixed(Date)]
    case IntensityForDate(_) => [Fixed(Intensity), Fixed(Date), Slot(0)]
    case IntensityForDatePeriod(_, _) => [Fixed(Intensity), Fixed(Date), Slot(0), Slot(1)]
    case IntensityFactors => [Fixed(Intensity), Fixed(Factors)]
    case IntensityForTimepoint(_) => [Fixed(Intensity), Slot(0)]
    case Intensity24hForward(_) => [Fixed(Intensity), Slot(0), Fixed(Fw24h)]
    case Intensity48hForward(_) => [Fixed(Intensity), Slot(0), Fixed(Fw48h)]
    case Intensity24hPast(_) => [Fixed(Intensity), Slot(0), Fixed(Pt24h)]
    case IntensityBetween(_, _) => [Fixed(Intensity), Slot(0), Slot(1)]
    case IntensityStats(_, _) => [Fixed(Intensity), Fixed(Stats), Slot(0), Slot(1)]
    case IntensityStatsBlock(_, _, _) => [Fixed(Intensity), Fixed(Stats), Slot(0), Slot(1), Slot(2)]
    case CurrentGeneration => [Fixed(Generation)]
    case Generation24hPast(_) => [Fixed(Generation), Slot(0), Fixed(Pt24h)]
    case GenerationBetween(_, _) => [Fixed(Generation), Slot(0), Slot(1)]
    case RegionalCurrent => [Fixed(Regional)]
    case RegionalEngland => [Fixed(Regional), Fixed(England)]
    case RegionalScotland => [Fixed(Regional), Fixed(Scotland)]
    case RegionalWales => [Fixed(Regional), Fixed(Wales)]
    case RegionalByPostcode(_) => [Fixed(Regional), Fixed(Postcode), Slot(0)]
    case RegionalByRegionid(_) => [Fixed(Regional), Fixed(Regionid), Slot(0)]
    case Regional24hForward(_) => [Fixed(Regional), Fixed(Intensity), Slot(0), Fixed(Fw24h)]
    case Regional24hForwardPostcode(_, _) =>
      [Fixed(Regional), Fixed(Intensity), Slot(0), Fixed(Fw24h), Fixed(Postcode), Slot(1)]
    case Regional24hForwardRegionid(_, _) =>
      [Fixed(Regional), Fixed(Intensity), Slot(0), Fixed(Fw24h), Fixed(Regionid), Slot(1)]
    case Regional48hForward(_) => [Fixed(Regional), Fixed(Intensity), Slot(0), Fixed(Fw48h)]
    case Regional48hForwardPostcode(_, _) =>
      [Fixed(Regional), Fixed(Intensity), Slot(0), Fixed(Fw48h), Fixed(Postcode), Slot(1)]
    case Regional48hForwardRegionid(_, _) =>
      [Fixed(Regional), Fixed(Intensity), Slot(0), Fixed(Fw48h), Fixed(Regionid), Slot(1)]
    case Regional24hPast(_) => [Fixed(Regional), Fixed(Intensity), Slot(0), Fixed(Pt24h)]
    case Regional24hPastPostcode(_, _) =>
      [Fixed(Regional), Fixed(Intensity), Slot(0), Fixed(Pt24h), Fixed(Postcode), Slot(1)]
    case Regional24hPastRegionid(_, _) =>
      [Fixed(Regional), Fixed(Intensity), Slot(0), Fixed(Pt24h), Fixed(Regionid), Slot(1)]
    case RegionalBetween(_, _) => [Fixed(Regional), Fixed(Intensity), Slot(0), Slot(1)]
    case RegionalBetweenPostcode(_, _, _) =>
      [Fixed(Regional), Fixed(Intensity), Slot(0), Slot(1), Fixed(Postcode), Slot(2)]
    case RegionalBetweenRegionid(_, _, _) =>
      [Fixed(Regional), Fixed(Intensity), Slot(0), Slot(1), Fixed(Regionid), Slot(2)]
  }

  /** The national intensity operations (paths under /intensity). */
  predicate NationalIntensity(call: Call) {
    match call
    case CurrentIntensity | TodaysIntensity | IntensityForDate(_) | IntensityForDatePeriod(_, _)
      | IntensityFactors | IntensityForTimepoint(_) | Intensity24hForward(_) | Intensity48hForward(_)
      | Intensity24hPast(_) | IntensityBetween(_, _) | IntensityStats(_, _)
      | IntensityStatsBlock(_, _, _) => true
    case _ => false
  }

  /** The regional intensity operations over a time window, with their postcode and regionid variants. */
  predicate RegionalWindow(call: Call) {
    match call
    case Regional24hForward(_) | Regional24hForwardPostcode(_, _) | Regional24hForwardRegionid(_, _)
      | Regional48hForward(_) | Regional48hForwardPostcode(_, _) | Regional48hForwardRegionid(_, _)
      | Regional24hPast(_) | Regional24hPastPostcode(_, _) | Regional24hPastRegionid(_, _)
      | RegionalBetween(_, _) | RegionalBetweenPostcode(_, _, _) | RegionalBetweenRegionid(_, _, _) => true
    case _ => false
  }

  /** Every template is non-empty and takes its operation's parameters in declaration order. */
  lemma TemplateInOrder(call: Call)
    ensures |TemplateOf(call)| >= 1
    ensures InDeclarationOrder(TemplateOf(call), |Args(call)|)
  {
    if NationalIntensity(call) {
      NationalIntensityInOrder(call);
    } else if RegionalWindow(call) {
      RegionalWindowInOrder(call);
    } else {
      OthersInOrder(call);
    }
  }

  lemma NationalIntensityInOrder(call: Call)
    requires NationalIntensity(call)
    ensures |TemplateOf(call)| >= 1
    ensures InDeclarationOrder(TemplateOf(call), |Args(call)|)
  {
    match call
    case CurrentIntensity => ShapeF(Intensity);
    case TodaysIntensity => ShapeFF(Intensity, Date);
    case IntensityForDate(_) => ShapeFFS(Intensity, Date);
    case IntensityForDatePeriod(_, _) => ShapeFFSS(Intensity, Date);
    case IntensityFactors => ShapeFF(Intensity, Factors);
    case IntensityForTimepoint(_) => ShapeFS(Intensity);
    case Intensity24hForward(_) => ShapeFSF(Intensity, Fw24h);
    case Intensity48hForward(_) => ShapeFSF(Intensity, Fw48h);
    case Intensity24hPast(_) => ShapeFSF(Intensity, Pt24h);
    case IntensityBetween(_, _) => ShapeFSS(Intensity);
    case IntensityStats(_, _) => ShapeFFSS(Intensity, Stats);
    case IntensityStatsBlock(_, _, _) => ShapeFFSSS(Intensity, Stats);
  }

  lemma RegionalWindowInOrder(call: Call)
    requires RegionalWindow(call)
    ensures |TemplateOf(call)| >= 1
    ensures InDeclarationOrder(TemplateOf(call), |Args(call)|)
  {
    match call
    case Regional24hForward(_) => ShapeFFSF(Regional, Intensity, Fw24h);
    case Regional24hForwardPostcode(_, _) => ShapeFFSFFS(Regional, Intensity, Fw24h, Postcode);
    case Regional24hForwardRegionid(_, _) => ShapeFFSFFS(Regional, Intensity, Fw24h, Regionid);
    case Regional48hForward(_) => ShapeFFSF(Regional, Intensity, Fw48h);
    case Regional48hForwardPostcode(_, _) => ShapeFFSFFS(Regional, Intensity, Fw48h, Postcode);
    case Regional48hForwardRegionid(_, _) => ShapeFFSFFS(Regional, Intensity, Fw48h, Regionid);
    case Regional24hPast(_) => ShapeFFSF(Regional, Intensity, Pt24h);
    case Regional24hPastPostcode(_, _) => ShapeFFSFFS(Regional, Intensity, Pt24h, Postcode);
    case Regional24hPastRegionid(_, _) => ShapeFFSFFS(Regional, Intensity, Pt24h, Regionid);
    case RegionalBetween(_, _) => ShapeFFSS(Regional, Intensity);
    case RegionalBetweenPostcode(_, _, _) => ShapeFFSSFS(Regional, Intensity, Postcode);
    case RegionalBetweenRegionid(_, _, _) => ShapeFFSSFS(Regional, Intensity, Regionid);
  }

  lemma OthersInOrder(call: Call)
    requires !NationalIntensity(call) && !RegionalWindow(call)
    ensures |TemplateOf(call)| >= 1
    ensures InDeclarationOrder(TemplateOf(call), |Args(call)|)
  {
    match call
    case CurrentGeneration => ShapeF(Generation);
    case Generation24hPast(_) => ShapeFSF(Generation, Pt24h);
    case GenerationBetween(_, _) => ShapeFSS(Generation);
    case RegionalCurrent => ShapeF(Regional);
    case RegionalEngland => ShapeFF(Regional, England);
    case RegionalScotland => ShapeFF(Regional, Scotland);
    case RegionalWales => ShapeFF(Regional, Wales);
    case RegionalByPostcode(_) => ShapeFFS(Regional, Postcode);
    case RegionalByRegionid(_) => ShapeFFS(Regional, Regionid);
  }

  // The shapes of the templates, each in declaration order.

  lemma ShapeF(a: Word)
    ensures InDeclarationOrder([Fixed(a)], 0)
  {
  }

  lemma ShapeFF(a: Word, b: Word)
    ensures InDeclarationOrder([Fixed(a), Fixed(b)], 0)
  {
  }

  lemma ShapeFS(a: Word)
    ensures InDeclarationOrder([Fixed(a), Slot(0)], 1)
  {
  }

  lemma ShapeFFS(a: Word, b: Word)
    ensures InDeclarationOrder([Fixed(a), Fixed(b), Slot(0)], 1)
  {
  }

  lemma ShapeFSF(a: Word, b: Word)
    ensures InDeclarationOrder([Fixed(a), Slot(0), Fixed(b)], 1)
  {
  }

  lemma ShapeFSS(a: Word)
    ensures InDeclarationOrder([Fixed(a), Slot(0), Slot(1)], 2)
  {
  }

  lemma ShapeFFSS(a: Word, b: Word)
    ensures InDeclarationOrder([Fixed(a), Fixed(b), Slot(0), Slot(1)], 2)
  {
  }

  lemma ShapeFFSF(a: Word, b: Word, c: Word)
    ensures InDeclarationOrder([Fixed(a), Fixed(b), Slot(0), Fixed(c)], 1)
  {
  }

  lemma ShapeFFSSS(a: Word, b: Word)
    ensures InDeclarationOrder([Fixed(a), Fixed(b), Slot(0), Slot(1), Slot(2)], 3)
  {
  }

  lemma ShapeFFSFFS(a: Word, b: Word, c: Word, d: Word)
    ensures InDeclarationOrder([Fixed(a), Fixed(b), Slot(0), Fixed(c), Fixed(d), Slot(1)], 2)
  {
  }

  lemma ShapeFFSSFS(a: Word, b: Word, c: Word)
    ensures InDeclarationOrder([Fixed(a), Fixed(b), Slot(0), Slot(1), Fixed(c), Slot(2)], 3)
  {
  }

  // ---------------------------------------------------------------------
  // Rendering a template
  // ---------------------------------------------------------------------

  /** The text of one segment, a slot holding its encoded argument. */
  function SegmentText(seg: Segment, args: seq<string>, enc: Encoder): string
    requires seg.Slot? ==> seg.index < |args|
  {
    match seg
    case Fixed(w) => Text(w)
    case Slot(k) => enc(args[k])
  }

  /** The segments of a template, its slots filled with the encoded arguments. */
  function Fill(t: Template, args: seq<string>, enc: Encoder): (segs: seq<string>)
    requires SlotsWithin(t, |args|)
    ensures |segs| == |t|
  {
    seq(|t|, i requires 0 <= i < |t| => SegmentText(t[i], args, enc))
  }

  /** The path a template renders to: each filled segment preceded by a '/'. */
  function Render(t: Template, args: seq<string>, enc: Encoder): string
    requires SlotsWithin(t, |args|)
  {
    Join([""] + Fill(t, args, enc))
  }

  /** Every operation's path is its template rendered with its arguments. */
  lemma PathIsRendered(enc: Encoder, call: Call)
    ensures SlotsWithin(TemplateOf(call), |Args(call)|)
    ensures Path(enc, call) == Render(TemplateOf(call), Args(call), enc)
  {
    TemplateInOrder(call);
    match call
    case CurrentIntensity | TodaysIntensity | IntensityFactors => IntensityFixedRendered(enc, call);
    case IntensityForDate(_) | IntensityForDatePeriod(_, _) | IntensityForTimepoint(_) => IntensityDateRendered(enc, call);
    case Intensity24hForward(_) | Intensity48hForward(_) | Intensity24hPast(_) => IntensityWindowRendered(enc, call);
    case IntensityBetween(_, _) | IntensityStats(_, _) | IntensityStatsBlock(_, _, _) => IntensityRangeRendered(enc, call);
    case CurrentGeneration | Generation24hPast(_) | GenerationBetween(_, _) => GenerationRendered(enc, call);
    case RegionalCurrent | RegionalEngland | RegionalScotland | RegionalWales => RegionalFixedRendered(enc, call);
    case RegionalByPostcode(_) | RegionalByRegionid(_) => RegionalByIdRendered(enc, call);
    case Regional24hForward(_) | Regional48hForward(_) => RegionalForwardRendered(enc, call);
    case Regional24hPast(_) | RegionalBetween(_, _) => RegionalPastBetweenRendered(enc, call);
    case Regional24hForwardPostcode(_, _) | Regional24hForwardRegionid(_, _) => Regional24hForwardVariantRendered(enc, call);
    case Regional48hForwardPostcode(_, _) | Regional48hForwardRegionid(_, _) => Regional48hForwardVariantRendered(enc, call);
    case Regional24hPastPostcode(_, _) | Regional24hPastRegionid(_, _) => Regional24hPastVariantRendered(enc, call);
    case RegionalBetweenPostcode(_, _, _) | RegionalBetweenRegionid(_, _, _) => RegionalBetweenVariantRendered(enc, call);
  }

  lemma IntensityFixedRendered(enc: Encoder, call: Call)
    requires call.CurrentIntensity? || call.TodaysIntensity? || call.IntensityFactors?
    requires SlotsWithin(TemplateOf(call), |Args(call)|)
    ensures Path(enc, call) == Render(TemplateOf(call), Args(call), enc)
  {
    var segs := [""] + Fill(TemplateOf(call), Args(call), enc);
    match call
    case CurrentIntensity =>
      assert segs == ["", "intensity"];
      Join2("", "intensity");
      SpelledIntensity();
    case TodaysIntensity =>
      assert segs == ["", "intensity", "date"];
      Join3("", "intensity", "date");
      SpelledIntensityDate();
    case IntensityFactors =>
      assert segs == ["", "intensity", "factors"];
      Join3("", "intensity", "factors");
      SpelledIntensityFactors();
  }

  lemma IntensityDateRendered(enc: Encoder, call: Call)
    requires call.IntensityForDate? || call.IntensityForDatePeriod? || call.IntensityForTimepoint?
    requires SlotsWithin(TemplateOf(call), |Args(call)|)
    ensures Path(enc, call) == Render(TemplateOf(call), Args(call), enc)
  {
    var segs := [""] + Fill(TemplateOf(call), Args(call), enc);
    match call
    case IntensityForDate(date) =>
      assert segs == ["", "intensity", "date", enc(date)];
      Join4("", "intensity", "date", enc(date));
      SpelledIntensityDateSlash();
    case IntensityForDatePeriod(date, period) =>
      assert segs == ["", "intensity", "date", enc(date), enc(period)];
      Join5("", "intensity", "date", enc(date), enc(period));
      SpelledIntensityDateSlash();
    case IntensityForTimepoint(from) =>
      assert segs == ["", "intensity", enc(from)];
      Join3("", "intensity", enc(from));
      SpelledIntensitySlash();
  }

  lemma IntensityWindowRendered(enc: Encoder, call: Call)
    requires call.Intensity24hForward? || call.Intensity48hForward? || call.Intensity24hPast?
    requires SlotsWithin(TemplateOf(call), |Args(call)|)
    ensures Path(enc, call) == Render(TemplateOf(call), Args(call), enc)
  {
    var segs := [""] + Fill(TemplateOf(call), Args(call), enc);
    match call
    case Intensity24hForward(from) =>
      assert segs == ["", "intensity", enc(from), "fw24h"];
      Join4("", "intensity", enc(from), "fw24h");
      SpelledIntensitySlash();
      SpelledAfterFw24h("/intensity/" + enc(from));
    case Intensity48hForward(from) =>
      assert segs == ["", "intensity", enc(from), "fw48h"];
      Join4("", "intensity", enc(from), "fw48h");
      SpelledIntensitySlash();
      SpelledAfterFw48h("/intensity/" + enc(from));
    case Intensity24hPast(from) =>
      assert segs == ["", "intensity", enc(from), "pt24h"];
      Join4("", "intensity", enc(from), "pt24h");
      SpelledIntensitySlash();
      SpelledAfterPt24h("/intensity/" + enc(from));
  }

  lemma IntensityRangeRendered(enc: Encoder, call: Call)
    requires call.IntensityBetween? || call.IntensityStats? || call.IntensityStatsBlock?
    requires SlotsWithin(TemplateOf(call), |Args(call)|)
    ensures Path(enc, call) == Render(TemplateOf(call), Args(call), enc)
  {
    var segs := [""] + Fill(TemplateOf(call), Args(call), enc);
    match call
    case IntensityBetween(from, to) =>
      assert segs == ["", "intensity", enc(from), enc(to)];
      Join4("", "intensity", enc(from), enc(to));
      SpelledIntensitySlash();
    case IntensityStats(from, to) =>
      assert segs == ["", "intensity", "stats", enc(from), enc(to)];
      Join5("", "intensity", "stats", enc(from), enc(to));
      SpelledIntensityStatsSlash();
    case IntensityStatsBlock(from, to, block) =>
      assert segs == ["", "intensity", "stats", enc(from), enc(to), enc(block)];
      Join6("", "intensity", "stats", enc(from), enc(to), enc(block));
      SpelledIntensityStatsSlash();
  }

  lemma GenerationRendered(enc: Encoder, call: Call)
    requires call.CurrentGeneration? || call.Generation24hPast? || call.GenerationBetween?
    requires SlotsWithin(TemplateOf(call), |Args(call)|)
    ensures Path(enc, call) == Render(TemplateOf(call), Args(call), enc)
  {
    var segs := [""] + Fill(TemplateOf(call), Args(call), enc);
    match call
    case CurrentGeneration =>
      assert segs == ["", "generation"];
      Join2("", "generation");
      SpelledGeneration();
    case Generation24hPast(from) =>
      assert segs == ["", "generation", enc(from), "pt24h"];
      Join4("", "generation", enc(from), "pt24h");
      SpelledGenerationSlash();
      SpelledAfterPt24h("/generation/" + enc(from));
    case GenerationBetween(from, to) =>
      assert segs == ["", "generation", enc(from), enc(to)];
      Join4("", "generation", enc(from), enc(to));
      SpelledGenerationSlash();
  }

  lemma RegionalFixedRendered(enc: Encoder, call: Call)
    requires call.RegionalCurrent? || call.RegionalEngland? || call.RegionalScotland? || call.RegionalWales?
    requires SlotsWithin(TemplateOf(call), |Args(call)|)
    ensures Path(enc, call) == Render(TemplateOf(call), Args(call), enc)
  {
    var segs := [""] + Fill(TemplateOf(call), Args(call), enc);
    match call
    case RegionalCurrent =>
      assert segs == ["", "regional"];
      Join2("", "regional");
      SpelledRegional();
    case RegionalEngland =>
      assert segs == ["", "regional", "england"];
      Join3("", "regional", "england");
      SpelledRegionalEngland();
    case RegionalScotland =>
      assert segs == ["", "regional", "scotland"];
      Join3("", "regional", "scotland");
      SpelledRegionalScotland();
    case RegionalWales =>
      assert segs == ["", "regional", "wales"];
      Join3("", "regional", "wales");
      SpelledRegionalWales();
  }

  lemma RegionalByIdRendered(enc: Encoder, call: Call)
    requires call.RegionalByPostcode? || call.RegionalByRegionid?
    requires SlotsWithin(TemplateOf(call), |Args(call)|)
    ensures Path(enc, call) == Render(TemplateOf(call), Args(call), enc)
  {
    var segs := [""] + Fill(TemplateOf(call), Args(call), enc);
    match call
    case RegionalByPostcode(postcode) =>
      assert segs == ["", "regional", "postcode", enc(postcode)];
      Join4("", "regional", "postcode", enc(postcode));
      SpelledRegionalPostcodeSlash();
    case RegionalByRegionid(regionid) =>
      assert segs == ["", "regional", "regionid", enc(regionid)];
      Join4("", "regional", "regionid", enc(regionid));
      SpelledRegionalRegionidSlash();
  }

  lemma RegionalForwardRendered(enc: Encoder, call: Call)
    requires call.Regional24hForward? || call.Regional48hForward?
    requires SlotsWithin(TemplateOf(call), |Args(call)|)
    ensures Path(enc, call) == Render(TemplateOf(call), Args(call), enc)
  {
    var segs := [""] + Fill(TemplateOf(call), Args(call), enc);
    match call
    case Regional24hForward(from) =>
      assert segs == ["", "regional", "intensity", enc(from), "fw24h"];
      Join5("", "regional", "intensity", enc(from), "fw24h");
      SpelledRegionalIntensitySlash();
      SpelledAfterFw24h("/regional/intensity/" + enc(from));
    case Regional48hForward(from) =>
      assert segs == ["", "regional", "intensity", enc(from), "fw48h"];
      Join5("", "regional", "intensity", enc(from), "fw48h");
      SpelledRegionalIntensitySlash();
      SpelledAfterFw48h("/regional/intensity/" + enc(from));
  }

  lemma RegionalPastBetweenRendered(enc: Encoder, call: Call)
    requires call.Regional24hPast? || call.RegionalBetween?
    requires SlotsWithin(TemplateOf(call), |Args(call)|)
    ensures Path(enc, call) == Render(TemplateOf(call), Args(call), enc)
  {
    var segs := [""] + Fill(TemplateOf(call), Args(call), enc);
    match call
    case Regional24hPast(from) =>
      assert segs == ["", "regional", "intensity", enc(from), "pt24h"];
      Join5("", "regional", "intensity", enc(from), "pt24h");
      SpelledRegionalIntensitySlash();
      SpelledAfterPt24h("/regional/intensity/" + enc(from));
    case RegionalBetween(from, to) =>
      assert segs == ["", "regional", "intensity", enc(from), enc(to)];
      Join5("", "regional", "intensity", enc(from), enc(to));
      SpelledRegionalIntensitySlash();
  }

  lemma Regional24hForwardVariantRendered(enc: Encoder, call: Call)
    requires call.Regional24hForwardPostcode? || call.Regional24hForwardRegionid?
    requires SlotsWithin(TemplateOf(call), |Args(call)|)
    ensures Path(enc, call) == Render(TemplateOf(call), Args(call), enc)
  {
    var segs := [""] + Fill(TemplateOf(call), Args(call), enc);
    match call
    case Regional24hForwardPostcode(from, postcode) =>
      assert segs == ["", "regional", "intensity", enc(from), "fw24h", "postcode", enc(postcode)];
      Join7("", "regional", "intensity", enc(from), "fw24h", "postcode", enc(postcode));
      SpelledRegionalIntensitySlash();
      SpelledAfterFw24hPostcodeSlash("/regional/intensity/" + enc(from));
    case Regional24hForwardRegionid(from, regionid) =>
      assert segs == ["", "regional", "intensity", enc(from), "fw24h", "regionid", enc(regionid)];
      Join7("", "regional", "intensity", enc(from), "fw24h", "regionid", enc(regionid));
      SpelledRegionalIntensitySlash();
      SpelledAfterFw24hRegionidSlash("/regional/intensity/" + enc(from));
  }

  lemma Regional48hForwardVariantRendered(enc: Encoder, call: Call)
    requires call.Regional48hForwardPostcode? || call.Regional48hForwardRegionid?
    requires SlotsWithin(TemplateOf(call), |Args(call)|)
    ensures Path(enc, call) == Render(TemplateOf(call), Args(call), enc)
  {
    var segs := [""] + Fill(TemplateOf(call), Args(call), enc);
    match call
    case Regional48hForwardPostcode(from, postcode) =>
      assert segs == ["", "regional", "intensity", enc(from), "fw48h", "postcode", enc(postcode)];
      Join7("", "regional", "intensity", enc(from), "fw48h", "postcode", enc(postcode));
      SpelledRegionalIntensitySlash();
      SpelledAfterFw48hPostcodeSlash("/regional/intensity/" + enc(from));
    case Regional48hForwardRegionid(from, regionid) =>
      assert segs == ["", "regional", "intensity", enc(from), "fw48h", "regionid", enc(regionid)];
      Join7("", "regional", "intensity", enc(from), "fw48h", "regionid", enc(regionid));
      SpelledRegionalIntensitySlash();
      SpelledAfterFw48hRegionidSlash("/regional/intensity/" + enc(from));
  }

  lemma Regional24hPastVariantRendered(enc: Encoder, call: Call)
    requires call.Regional24hPastPostcode? || call.Regional24hPastRegionid?
    requires SlotsWithin(TemplateOf(call), |Args(call)|)
    ensures Path(enc, call) == Render(TemplateOf(call), Args(call), enc)
  {
    var segs := [""] + Fill(TemplateOf(call), Args(call), enc);
    match call
    case Regional24hPastPostcode(from, postcode) =>
      assert segs == ["", "regional", "intensity", enc(from), "pt24h", "postcode", enc(postcode)];
      Join7("", "regional", "intensity", enc(from), "pt24h", "postcode", enc(postcode));
      SpelledRegionalIntensitySlash();
      SpelledAfterPt24hPostcodeSlash("/regional/intensity/" + enc(from));
    case Regional24hPastRegionid(from, regionid) =>
      assert segs == ["", "regional", "intensity", enc(from), "pt24h", "regionid", enc(regionid)];
      Join7("", "regional", "intensity", enc(from), "pt24h", "regionid", enc(regionid));
      SpelledRegionalIntensitySlash();
      SpelledAfterPt24hRegionidSlash("/regional/intensity/" + enc(from));
  }

  lemma RegionalBetweenVariantRendered(enc: Encoder, call: Call)
    requires call.RegionalBetweenPostcode? || call.RegionalBetweenRegionid?
    requires SlotsWithin(TemplateOf(call), |Args(call)|)
    ensures Path(enc, call) == Render(TemplateOf(call), Args(call), enc)
  {
    var segs := [""] + Fill(TemplateOf(call), Args(call), enc);
    match call
    case RegionalBetweenPostcode(from, to, postcode) =>
      assert segs == ["", "regional", "intensity", enc(from), enc(to), "postcode", enc(postcode)];
      Join7("", "regional", "intensity", enc(from), enc(to), "postcode", enc(postcode));
      SpelledRegionalIntensitySlash();
      SpelledAfterPostcodeSlash("/regional/intensity/" + enc(from) + "/" + enc(to));
    case RegionalBetweenRegionid(from, to, regionid) =>
      assert segs == ["", "regional", "intensity", enc(from), enc(to), "regionid", enc(regionid)];
      Join7("", "regional", "intensity", enc(from), enc(to), "regionid", enc(regionid));
      SpelledRegionalIntensitySlash();
      SpelledAfterRegionidSlash("/regional/intensity/" + enc(from) + "/" + enc(to));
  }

  // ---------------------------------------------------------------------
  // No injection
  // ---------------------------------------------------------------------

  /** With an encoder that never emits '/', no filled segment holds a '/'. */
  lemma FillHasNoSlash(t: Template, args: seq<string>, enc: Encoder)
    requires NoSlash(enc) && SlotsWithin(t, |args|)
    ensures NoSlashIn([""] + Fill(t, args, enc))
  {
    var segs := [""] + Fill(t, args, enc);
    forall i | 0 <= i < |segs|
      ensures '/' !in segs[i]
    {
      if i > 0 {
        assert segs[i] == SegmentText(t[i - 1], args, enc);
      }
    }
  }

  /**
   * The no-injection property. With an encoder that never emits '/', a
   * server splitting an operation's path on '/' finds exactly the segments
   * of its template, one more than the template's length (the empty piece
   * before the leading '/'), and in each slot the encoded parameter the slot
   * names and nothing else.
   */
  lemma NoInjection(enc: Encoder, call: Call)
    requires NoSlash(enc)
    ensures SlotsWithin(TemplateOf(call), |Args(call)|)
    ensures Split(Path(enc, call)) == [""] + Fill(TemplateOf(call), Args(call), enc)
    ensures |Split(Path(enc, call))| == |TemplateOf(call)| + 1
    ensures forall i :: 0 <= i < |TemplateOf(call)| && TemplateOf(call)[i].Slot? ==>
      Split(Path(enc, call))[i + 1] == enc(Args(call)[TemplateOf(call)[i].index])
  {
    PathIsRendered(enc, call);
    var t, args := TemplateOf(call), Args(call);
    FillHasNoSlash(t, args, enc);
    SplitJoin([""] + Fill(t, args, enc));
  }

  /**
   * Under the no-'/' hypothesis, two operations whose templates differ in
   * length never request the same path.
   */
  lemma ShapesKeepPathsApart(enc: Encoder, c1: Call, c2: Call)
    requires NoSlash(enc)
    requires |TemplateOf(c1)| != |TemplateOf(c2)|
    ensures Path(enc, c1) != Path(enc, c2)
  {
    NoInjection(enc, c1);
    NoInjection(enc, c2);
  }

  /**
   * Without the encoder the hypothesis fails, and a parameter can reshape the
   * path: with the identity in place of the encoder, a timepoint ending in
   * "/pt24h" requests the 24-hour-past path.
   */
  lemma IdentityLetsParametersInject(from: string)
    ensures var id := (s: string) => s;
      Path(id, IntensityForTimepoint(from + "/pt24h")) == Path(id, Intensity24hPast(from))
  {
  }

  /**
   * Keeping '/' out of the parameters is not enough to keep distinct calls
   * apart. An encoder that escapes only reserved characters, as
   * percent-encoding does, leaves a word such as "date" or "fw24h" as it is,
   * and a parameter spelled like a fixed word then makes the path of another
   * operation: the timepoint "date" requests today's intensity, a window
   * starting at "date" requests the intensity for a date, and a regional
   * window ending at "fw24h" requests the 24-hour forecast.
   */
  lemma WordLikeParametersCollide(enc: Encoder, date: string, from: string)
    requires enc("date") == "date" && enc("fw24h") == "fw24h"
    ensures IntensityForTimepoint("date") != TodaysIntensity
    ensures IntensityBetween("date", date) != IntensityForDate(date)
    ensures RegionalBetween(from, "fw24h") != Regional24hForward(from)
    ensures Path(enc, IntensityForTimepoint("date")) == Path(enc, TodaysIntensity)
    ensures Path(enc, IntensityBetween("date", date)) == Path(enc, IntensityForDate(date))
    ensures Path(enc, RegionalBetween(from, "fw24h")) == Path(enc, Regional24hForward(from))
  {
    TimepointDateCollides(enc);
    BetweenDateCollides(enc, date);
    BetweenFw24hCollides(enc, from);
  }

  lemma TimepointDateCollides(enc: Encoder)
    requires enc("date") == "date"
    ensures Path(enc, IntensityForTimepoint("date")) == Path(enc, TodaysIntensity)
  {
    SpelledIntensitySlash();
    SpelledIntensityDate();
  }

  lemma BetweenDateCollides(enc: Encoder, date: string)
    requires enc("date") == "date"
    ensures Path(enc, IntensityBetween("date", date)) == Path(enc, IntensityForDate(date))
  {
    SpelledIntensitySlash();
    SpelledIntensityDateSlash();
  }

  lemma BetweenFw24hCollides(enc: Encoder, from: string)
    requires enc("fw24h") == "fw24h"
    ensures Path(enc, RegionalBetween(from, "fw24h")) == Path(enc, Regional24hForward(from))
  {
    SpelledAfterFw24h("/regional/intensity/" + enc(from));
  }

  // ---------------------------------------------------------------------
  // Literal runs of the paths, spelled as '/'-joined words
  // ---------------------------------------------------------------------
  //
  // Each lemma below states that a run of fixed words joined by '/' spells
  // one literal of `Path`. These are equalities between string literals; the
  // verifier pays for each one, so each is proved once, on its own, and the
  // rendering lemmas above call the few they need instead of proving all of
  // them in every case.

  // Runs that begin a path, by family: /generation, /intensity, /regional.

  lemma SpelledGeneration()
    ensures "" + "/" + "generation" == "/generation"
  {
  }

  lemma SpelledGenerationSlash()
    ensures "" + "/" + "generation" + "/" == "/generation/"
  {
  }

  lemma SpelledIntensity()
    ensures "" + "/" + "intensity" == "/intensity"
  {
  }

  lemma SpelledIntensityDate()
    ensures "" + "/" + "intensity" + "/" + "date" == "/intensity/date"
  {
  }

  lemma SpelledIntensityDateSlash()
    ensures "" + "/" + "intensity" + "/" + "date" + "/" == "/intensity/date/"
  {
  }

  lemma SpelledIntensityFactors()
    ensures "" + "/" + "intensity" + "/" + "factors" == "/intensity/factors"
  {
  }

  lemma SpelledIntensitySlash()
    ensures "" + "/" + "intensity" + "/" == "/intensity/"
  {
  }

  lemma SpelledIntensityStatsSlash()
    ensures "" + "/" + "intensity" + "/" + "stats" + "/" == "/intensity/stats/"
  {
  }

  lemma SpelledRegional()
    ensures "" + "/" + "regional" == "/regional"
  {
  }

  lemma SpelledRegionalEngland()
    ensures "" + "/" + "regional" + "/" + "england" == "/regional/england"
  {
  }

  lemma SpelledRegionalIntensitySlash()
    ensures "" + "/" + "regional" + "/" + "intensity" + "/" == "/regional/intensity/"
  {
  }

  lemma SpelledRegionalPostcodeSlash()
    ensures "" + "/" + "regional" + "/" + "postcode" + "/" == "/regional/postcode/"
  {
  }

  lemma SpelledRegionalRegionidSlash()
    ensures "" + "/" + "regional" + "/" + "regionid" + "/" == "/regional/regionid/"
  {
  }

  lemma SpelledRegionalScotland()
    ensures "" + "/" + "regional" + "/" + "scotland" == "/regional/scotland"
  {
  }

  lemma SpelledRegionalWales()
    ensures "" + "/" + "regional" + "/" + "wales" == "/regional/wales"
  {
  }

  // Runs that follow the encoded time parameter of a window path.

  lemma SpelledAfterFw24h(x: string)
    ensures x + "/" + "fw24h" == x + "/fw24h"
  {
  }

  lemma SpelledAfterFw24hPostcodeSlash(x: string)
    ensures x + "/" + "fw24h" + "/" + "postcode" + "/" == x + "/fw24h/postcode/"
  {
  }

  lemma SpelledAfterFw24hRegionidSlash(x: string)
    ensures x + "/" + "fw24h" + "/" + "regionid" + "/" == x + "/fw24h/regionid/"
  {
  }

  lemma SpelledAfterFw48h(x: string)
    ensures x + "/" + "fw48h" == x + "/fw48h"
  {
  }

  lemma SpelledAfterFw48hPostcodeSlash(x: string)
    ensures x + "/" + "fw48h" + "/" + "postcode" + "/" == x + "/fw48h/postcode/"
  {
  }

  lemma SpelledAfterFw48hRegionidSlash(x: string)
    ensures x + "/" + "fw48h" + "/" + "regionid" + "/" == x + "/fw48h/regionid/"
  {
  }

  lemma SpelledAfterPostcodeSlash(x: string)
    ensures x + "/" + "postcode" + "/" == x + "/postcode/"
  {
  }

  lemma SpelledAfterPt24h(x: string)
    ensures x + "/" + "pt24h" == x + "/pt24h"
  {
  }

  lemma SpelledAfterPt24hPostcodeSlash(x: string)
    ensures x + "/" + "pt24h" + "/" + "postcode" + "/" == x + "/pt24h/postcode/"
  {
  }

  lemma SpelledAfterPt24hRegionidSlash(x: string)
    ensures x + "/" + "pt24h" + "/" + "regionid" + "/" == x + "/pt24h/regionid/"
  {
  }

  lemma SpelledAfterRegionidSlash(x: string)
    ensures x + "/" + "regionid" + "/" == x + "/regionid/"
  {
  }
}
