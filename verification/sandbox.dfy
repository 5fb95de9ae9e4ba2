// The orbital simulation lab: the altitude slider and the three-way
// feedback line under it.

module Sandbox {
  import opened Common

  /** The altitude slider's range and step, in km. */
  const SliderMin: int := 200
  const SliderMax: int := 40000
  const SliderStep: int := 50
  const InitialAltitude: int := 400

  const DragThreshold: int := 300
  const CommunicationsThreshold: int := 35000

  const WarningSign: string := "⚠️"
  const DragWarning: string := WarningSign + " This altitude is too low - atmospheric drag would cause rapid orbital decay!"
  const RevolutionsLead: string := "At "
  const CommunicationsNote: string := RevolutionsLead + "this altitude, the satellite moves very slowly relative to Earth's surface. Perfect for communications!"

  /** A value the slider can take. */
  predicate OnSlider(altitude: int) {
    SliderMin <= altitude <= SliderMax && (altitude - SliderMin) % SliderStep == 0
  }

  /** Which of the three feedback lines `getAiFeedback` picks. */
  datatype Feedback = TooLow | Geostationary | Revolutions

  function Classify(altitude: int): (f: Feedback)
    ensures f == TooLow <==> altitude < DragThreshold
    ensures f == Geostationary <==> altitude > CommunicationsThreshold
    ensures f == Revolutions <==> DragThreshold <= altitude <= CommunicationsThreshold
  {
    if altitude < DragThreshold then TooLow
    else if altitude > CommunicationsThreshold then Geostationary
    else Revolutions
  }

  const AltitudeUnit: string := "km altitude with "
  const VelocityUnit: string := " km/s velocity, this orbit completes approximately "
  const RevolutionsUnit: string := " revolutions per day."

  /** The middle line, from the altitude, the shown velocity and the shown estimate. */
  function RevolutionsLine(altitude: int, shownVelocity: string, shownRevs: string): string {
    RevolutionsLead + IntToString(altitude) + AltitudeUnit + shownVelocity + VelocityUnit + shownRevs + RevolutionsUnit
  }

  /** The middle line opens with "At " and shows both numbers it was given. */
  lemma {:induction false} RevolutionsLineShowsNumbers(altitude: int, shownVelocity: string, shownRevs: string)
    ensures StartsWith(RevolutionsLine(altitude, shownVelocity, shownRevs), RevolutionsLead)
    ensures Contains(RevolutionsLine(altitude, shownVelocity, shownRevs), shownVelocity)
    ensures Contains(RevolutionsLine(altitude, shownVelocity, shownRevs), shownRevs)
  {
    var head := RevolutionsLead + IntToString(altitude) + AltitudeUnit;
    var line := RevolutionsLine(altitude, shownVelocity, shownRevs);
    ContainsInfix(head, shownVelocity, VelocityUnit + shownRevs + RevolutionsUnit);
    assert head + shownVelocity + (VelocityUnit + shownRevs + RevolutionsUnit) == line;
    ContainsInfix(head + shownVelocity + VelocityUnit, shownRevs, RevolutionsUnit);
    assert line[..|RevolutionsLead|] == RevolutionsLead;
  }

  /** The middle line closes with the revolutions unit. */
  lemma RevolutionsLineEnding(altitude: int, shownVelocity: string, shownRevs: string)
    ensures EndsWith(RevolutionsLine(altitude, shownVelocity, shownRevs), RevolutionsUnit)
  {
    var head := RevolutionsLead + IntToString(altitude) + AltitudeUnit + shownVelocity + VelocityUnit + shownRevs;
    assert (head + RevolutionsUnit)[|head|..] == RevolutionsUnit;
  }

  /**
   * `getAiFeedback`. `fixed(x, d)` is `x.toFixed(d)` and `revsPerDay` the
   * revolutions-per-day estimate for an altitude.
   */
  function FeedbackText(altitude: int, velocity: real, fixed: (real, nat) -> string, revsPerDay: int -> real): (r: string)
    ensures altitude < DragThreshold ==> r == DragWarning
    ensures altitude > CommunicationsThreshold ==> r == CommunicationsNote
    ensures DragThreshold <= altitude <= CommunicationsThreshold ==>
      r == RevolutionsLine(altitude, fixed(velocity, 2), fixed(revsPerDay(altitude), 1))
  {
    match Classify(altitude)
    case TooLow => DragWarning
    case Geostationary => CommunicationsNote
    case Revolutions => RevolutionsLine(altitude, fixed(velocity, 2), fixed(revsPerDay(altitude), 1))
  }

  /** The drag warning is shown for too-low altitudes only. */
  lemma {:induction false} WarningOnlyWhenTooLow(altitude: int, velocity: real, fixed: (real, nat) -> string, revsPerDay: int -> real)
    ensures FeedbackText(altitude, velocity, fixed, revsPerDay) == DragWarning <==> altitude < DragThreshold
  {
    assert DragWarning[0] == WarningSign[0] == '⚠';
    if altitude > CommunicationsThreshold {
      assert CommunicationsNote[0] == RevolutionsLead[0] == 'A';
    } else if DragThreshold <= altitude {
      var line := RevolutionsLine(altitude, fixed(velocity, 2), fixed(revsPerDay(altitude), 1));
      assert line[0] == RevolutionsLead[0] == 'A';
    }
  }

  /** Each of the three lines is shown for some slider position. */
  lemma EveryFeedbackReachable()
    ensures OnSlider(InitialAltitude) && Classify(InitialAltitude) == Revolutions
    ensures exists a :: OnSlider(a) && Classify(a) == TooLow
    ensures exists a :: OnSlider(a) && Classify(a) == Geostationary
    ensures exists a :: OnSlider(a) && Classify(a) == Revolutions
  {
    assert OnSlider(200) && Classify(200) == TooLow;
    assert OnSlider(35050) && Classify(35050) == Geostationary;
    assert OnSlider(400);
  }

  /** The slider's thresholds: 250 still warns, 300 and 35000 do not, 35050 is geostationary. */
  lemma SliderThresholds()
    ensures OnSlider(250) && Classify(250) == TooLow
    ensures OnSlider(300) && Classify(300) == Revolutions
    ensures OnSlider(35000) && Classify(35000) == Revolutions
    ensures OnSlider(35050) && Classify(35050) == Geostationary
  {
  }
}
