/** The values of FastSession.swift: the preset table and the fasting session record
    with its computed properties. */
module Fasting {
  import opened Base

  /** The presets, in declaration (`CaseIterable`) order. */
  datatype FastPreset = TwelveTwelve | FourteenTen | SixteenEight | EighteenSix | TwentyFour | Omad | Custom

  /** Position of a preset in declaration order. */
  function PresetIndex(p: FastPreset): nat {
    match p
    case TwelveTwelve => 0
    case FourteenTen => 1
    case SixteenEight => 2
    case EighteenSix => 3
    case TwentyFour => 4
    case Omad => 5
    case Custom => 6
  }

  /** The string a preset is stored and decoded as. */
  function RawValue(p: FastPreset): string {
    match p
    case TwelveTwelve => "12:12"
    case FourteenTen => "14:10"
    case SixteenEight => "16:8"
    case EighteenSix => "18:6"
    case TwentyFour => "20:4"
    case Omad => "OMAD"
    case Custom => "Custom"
  }

  /** Length of the fasting window, in hours; a custom fast keeps its own goal instead. */
  function DefaultDurationHours(p: FastPreset): (hours: int)
    ensures p == Custom <==> hours == 0
    ensures p != Custom ==> 12 <= hours <= 24
  {
    match p
    case TwelveTwelve => 12
    case FourteenTen => 14
    case SixteenEight => 16
    case EighteenSix => 18
    case TwentyFour => 20
    case Omad => 24
    case Custom => 0
  }

  function DisplayName(p: FastPreset): string {
    RawValue(p)
  }

  function SuggestedDurationHours(p: FastPreset): int {
    DefaultDurationHours(p)
  }

  /** The fixed presets grow strictly longer in declaration order. */
  lemma PresetDurationsIncrease(p: FastPreset, q: FastPreset)
    requires p != Custom && q != Custom
    ensures PresetIndex(p) < PresetIndex(q) <==> DefaultDurationHours(p) < DefaultDurationHours(q)
  {
  }

  /** The display name is the raw value, the suggestion is the default, and distinct
      presets have distinct raw values, so decoding a raw value is unambiguous. */
  lemma PresetNames(p: FastPreset, q: FastPreset)
    ensures DisplayName(p) == RawValue(p)
    ensures SuggestedDurationHours(p) == DefaultDurationHours(p)
    ensures p != q ==> RawValue(p) != RawValue(q)
  {
    if p != q {
      var a, b := RawValue(p), RawValue(q);
      assert |a| != |b| || a[0] != b[0] || a[1] != b[1] || a[|a| - 1] != b[|b| - 1];
    }
  }

  datatype Status = Active | Completed | Cancelled

  /** A fasting session; `goalDurationHours` is a whole number of hours. */
  datatype FastSession = FastSession(
    id: Id,
    preset: FastPreset,
    startDate: Timestamp,
    goalDurationHours: int,
    endDate: Option<Timestamp>,
    status: Status,
    note: Option<string>,
    completionDate: Option<Timestamp>)

  /** The initializer with every defaulted argument left out; the fresh id and the
      start time (`UUID()`, `Date()`) are supplied by the caller. */
  function NewSession(id: Id, preset: FastPreset, startDate: Timestamp, goalDurationHours: int): (s: FastSession)
    ensures s.status == Active
    ensures s.endDate == None && s.note == None && s.completionDate == None
    ensures s.id == id && s.preset == preset && s.startDate == startDate && s.goalDurationHours == goalDurationHours
  {
    FastSession(id, preset, startDate, goalDurationHours, None, Active, None, None)
  }

  /** The recorded end, or the start plus the goal duration. */
  function ExpectedEndDate(s: FastSession): (t: Timestamp)
    ensures s.endDate.Some? ==> t == s.endDate.value
    ensures s.endDate.None? ==> t - s.startDate == s.goalDurationHours * 3600
  {
    match s.endDate
    case Some(e) => e
    case None => s.startDate + s.goalDurationHours * 3600
  }

  /** Seconds from the start to the completion, or to `now` while none is recorded. */
  function ElapsedSeconds(s: FastSession, now: Timestamp): int {
    s.completionDate.GetOr(now) - s.startDate
  }

  function ElapsedHours(s: FastSession, now: Timestamp): real {
    ElapsedSeconds(s, now) as real / 3600.0
  }

  /** Once a completion is recorded the elapsed time no longer moves with the clock. */
  lemma ElapsedFrozenOnceCompleted(s: FastSession, now1: Timestamp, now2: Timestamp)
    requires s.completionDate.Some?
    ensures ElapsedSeconds(s, now1) == ElapsedSeconds(s, now2) == s.completionDate.value - s.startDate
  {
  }

  /** Elapsed time over the goal, clamped at 1; 0 when there is no positive goal. */
  function Progress(s: FastSession, now: Timestamp): (r: real)
    ensures s.goalDurationHours <= 0 ==> r == 0.0
    ensures r <= 1.0
    ensures s.goalDurationHours > 0 ==> (r == 1.0 <==> ElapsedSeconds(s, now) >= s.goalDurationHours * 3600)
    ensures s.goalDurationHours > 0 && ElapsedSeconds(s, now) < s.goalDurationHours * 3600 ==>
              r == ElapsedSeconds(s, now) as real / (s.goalDurationHours * 3600) as real
  {
    ClampedRatio(ElapsedSeconds(s, now), s.goalDurationHours * 3600)
  }

  /** While a fast runs, its progress never goes down as time passes. */
  lemma ProgressMonotone(s: FastSession, now1: Timestamp, now2: Timestamp)
    requires now1 <= now2
    ensures Progress(s, now1) <= Progress(s, now2)
  {
    ClampedRatioMonotone(ElapsedSeconds(s, now1), ElapsedSeconds(s, now2), s.goalDurationHours * 3600);
  }

  /** A running fast with no recorded end reaches full progress exactly at its expected
      end date. */
  lemma ProgressFullAtExpectedEnd(s: FastSession, now: Timestamp)
    requires s.endDate.None? && s.completionDate.None? && s.goalDurationHours > 0
    ensures Progress(s, now) == 1.0 <==> now >= ExpectedEndDate(s)
  {
  }
}
