/**
 * `format_sparam` of muncon/utils.py: converts one S-parameter sample between
 * the Real/Imaginary ("RI"), Magnitude/Angle ("MA") and dB/Angle ("DB")
 * encodings, chosen by the column headers of the source and target data.
 * Angles are in degrees in MA and DB.
 */
module SampleFormat {
  import opened Wrappers

  /** A column header; `NoHeader` is Python's `None`. */
  datatype Tag = Header(name: string) | NoHeader

  const RI: Tag := Header("RI")
  const MA: Tag := Header("MA")
  const DB: Tag := Header("DB")

  /** The source tags the conversion has a branch for. */
  predicate Recognised(t: Tag)
  {
    t == RI || t == MA || t == DB
  }

  /** One complex sample as the pair of numbers its tag gives meaning to. */
  datatype Sample = Sample(first: real, second: real)

  /**
   * numpy's `cos`, `sin` and `radians`, and Python's `10 ** x`. They are
   * floating-point routines whose values the model does not fix.
   */
  datatype Numerics = Numerics(cos: real -> real, sin: real -> real, radians: real -> real, pow10: real -> real)

  /** Magnitude and angle in degrees to real and imaginary part. */
  function MaToRi(num: Numerics, s: Sample): (r: Sample)
  {
    var phi := num.radians(s.second);
    Sample(s.first * num.cos(phi), s.first * num.sin(phi))
  }

  /** A magnitude in decibels to a linear magnitude: `10 ** (d / 20)`. */
  function DbToLinear(num: Numerics, d: real): (m: real)
  {
    num.pow10(d / 20.0)
  }

  /** The DB to RI formula as `format_sparam` writes it out. */
  function DbToRi(num: Numerics, s: Sample): (r: Sample)
  {
    var m := DbToLinear(num, s.first);
    var phi := num.radians(s.second);
    Sample(m * num.cos(phi), m * num.sin(phi))
  }

  /**
   * DB to RI is MA to RI after linearising the magnitude: the angle is
   * used unchanged and still converted from degrees to radians.
   */
  lemma DbToRiIsMaToRi(num: Numerics, s: Sample)
    ensures DbToRi(num, s) == MaToRi(num, Sample(DbToLinear(num, s.first), s.second))
    ensures DbToRi(num, s).first == num.pow10(s.first / 20.0) * num.cos(num.radians(s.second))
    ensures DbToRi(num, s).second == num.pow10(s.first / 20.0) * num.sin(num.radians(s.second))
  {
  }

  /** The conversion, branch for branch as the if/elif chain of `format_sparam`. */
  function FormatSparam(num: Numerics, sparam: Sample, oldFormat: Tag, newFormat: Tag): (r: Option<Sample>)
  {
    if oldFormat == newFormat then Some(sparam)
    else if oldFormat == RI then
      if newFormat == MA then None
      else if newFormat == DB then None
      else None                         // falls off the end of the function
    else if oldFormat == MA then
      if newFormat == RI then Some(MaToRi(num, sparam))
      else if newFormat == DB then None
      else None                         // falls off the end of the function
    else if oldFormat == DB then
      if newFormat == RI then Some(DbToRi(num, sparam))
      else if newFormat == MA then None
      else None                         // falls off the end of the function
    else Some(sparam)                   // no column header
  }

  /** What the conversion does for one pair of tags. */
  datatype Route =
    | Identity        // same tag on both sides
    | PassThrough     // source tag not recognised
    | ConvertMaToRi
    | ConvertDbToRi
    | Unimplemented   // an explicit bare `return`
    | FallThrough     // recognised source, no branch for the target

  /** The explicitly handled pairs of distinct tags. */
  const Table: map<(Tag, Tag), Route> := map[
    (MA, RI) := ConvertMaToRi,
    (DB, RI) := ConvertDbToRi,
    (RI, MA) := Unimplemented,
    (RI, DB) := Unimplemented,
    (MA, DB) := Unimplemented,
    (DB, MA) := Unimplemented
  ]

  /** The dispatch table: the route for a pair of tags. */
  function RouteOf(oldFormat: Tag, newFormat: Tag): (route: Route)
  {
    if oldFormat == newFormat then Identity
    else if (oldFormat, newFormat) in Table then Table[(oldFormat, newFormat)]
    else if Recognised(oldFormat) then FallThrough
    else PassThrough
  }

  /** The result of following a route. */
  function Follow(route: Route, num: Numerics, sparam: Sample): (r: Option<Sample>)
  {
    match route
    case Identity => Some(sparam)
    case PassThrough => Some(sparam)
    case ConvertMaToRi => Some(MaToRi(num, sparam))
    case ConvertDbToRi => Some(DbToRi(num, sparam))
    case Unimplemented => None
    case FallThrough => None
  }

  /** The if/elif chain and the dispatch table agree on every input. */
  lemma FormatSparamFollowsTable(num: Numerics, sparam: Sample, oldFormat: Tag, newFormat: Tag)
    ensures FormatSparam(num, sparam, oldFormat, newFormat) == Follow(RouteOf(oldFormat, newFormat), num, sparam)
  {
  }

  /** Equal tags return the sample itself. */
  lemma FormatIdentity(num: Numerics, sparam: Sample, format: Tag)
    ensures FormatSparam(num, sparam, format, format) == Some(sparam)
  {
  }

  /** An unrecognised source tag returns the sample itself, whatever the target. */
  lemma FormatPassThrough(num: Numerics, sparam: Sample, oldFormat: Tag, newFormat: Tag)
    requires !Recognised(oldFormat)
    ensures FormatSparam(num, sparam, oldFormat, newFormat) == Some(sparam)
  {
  }

  /**
   * The result is `None` exactly when the tags differ, the source tag is
   * recognised and the pair is not MA to RI or DB to RI.
   */
  lemma FormatNoneExactly(num: Numerics, sparam: Sample, oldFormat: Tag, newFormat: Tag)
    ensures FormatSparam(num, sparam, oldFormat, newFormat).None? <==>
            oldFormat != newFormat && Recognised(oldFormat) &&
            (oldFormat, newFormat) != (MA, RI) && (oldFormat, newFormat) != (DB, RI)
  {
  }

  /**
   * Between two recognised tags, the result is `None` exactly for the four
   * directions RI to MA, RI to DB, MA to DB and DB to MA.
   */
  lemma FormatUnimplementedDirections(num: Numerics, sparam: Sample, oldFormat: Tag, newFormat: Tag)
    requires Recognised(oldFormat) && Recognised(newFormat)
    ensures FormatSparam(num, sparam, oldFormat, newFormat).None? <==>
            (oldFormat, newFormat) in {(RI, MA), (RI, DB), (MA, DB), (DB, MA)}
  {
  }

  /** MA to RI: magnitude times cosine and sine of the angle in radians. */
  lemma FormatMaToRi(num: Numerics, sparam: Sample)
    ensures FormatSparam(num, sparam, MA, RI) ==
            Some(Sample(sparam.first * num.cos(num.radians(sparam.second)),
                        sparam.first * num.sin(num.radians(sparam.second))))
  {
    assert FormatSparam(num, sparam, MA, RI) == Some(MaToRi(num, sparam));
    assert MaToRi(num, sparam) == Sample(sparam.first * num.cos(num.radians(sparam.second)),
                        sparam.first * num.sin(num.radians(sparam.second)));
  }

  /** DB to RI: MA to RI applied to the linearised magnitude and the same angle. */
  lemma FormatDbToRi(num: Numerics, sparam: Sample)
    ensures FormatSparam(num, sparam, DB, RI) ==
            Some(MaToRi(num, Sample(DbToLinear(num, sparam.first), sparam.second)))
  {
    DbToRiIsMaToRi(num, sparam);
  }

  /**
   * Only the two conversions to RI use the numeric routines: every other
   * result, the identity short-circuit included, is the same whatever
   * `cos`, `sin`, `radians` and `10 **` compute.
   */
  lemma FormatNoArithmeticOtherwise(num1: Numerics, num2: Numerics, sparam: Sample, oldFormat: Tag, newFormat: Tag)
    requires RouteOf(oldFormat, newFormat) != ConvertMaToRi && RouteOf(oldFormat, newFormat) != ConvertDbToRi
    ensures FormatSparam(num1, sparam, oldFormat, newFormat) == FormatSparam(num2, sparam, oldFormat, newFormat)
    ensures FormatSparam(num1, sparam, oldFormat, newFormat).Some? ==>
            FormatSparam(num1, sparam, oldFormat, newFormat) == Some(sparam)
  {
    FormatSparamFollowsTable(num1, sparam, oldFormat, newFormat);
    FormatSparamFollowsTable(num2, sparam, oldFormat, newFormat);
  }
}
