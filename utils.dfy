/**
 * Volume helpers: the linear map from the receiver's raw volume level to
 * decibels, and the display text of a decibel value.
 */
module Utils {

  const MinLevel: real := 1.0
  const MaxLevel: real := 185.0
  const MinDb: real := -80.0
  const MaxDb: real := 12.0

  /**
   * The decibel value of a raw level: level 1 is -80 dB, level 185 is +12 dB,
   * and every level between adds half a decibel.
   */
  function VolumeToDB(level: real): (db: real)
    ensures level == MinLevel ==> db == MinDb
    ensures level == MaxLevel ==> db == MaxDb
    ensures db == -80.0 + (level - 1.0) / 2.0
  {
    var volumePerLevel := (MaxDb - MinDb) / (MaxLevel - MinLevel);
    MinDb + (level - MinLevel) * volumePerLevel
  }

  /** Each raw level is exactly half a decibel above the one below it. */
  lemma HalfDecibelPerLevel(level: real)
    ensures VolumeToDB(level + 1.0) == VolumeToDB(level) + 0.5
  {
  }

  /** The map is strictly increasing. */
  lemma VolumeToDBIncreasing(a: real, b: real)
    requires a < b
    ensures VolumeToDB(a) < VolumeToDB(b)
  {
  }

  /** Levels below 1 are not clamped: level 0 extrapolates to -80.5 dB. */
  lemma VolumeToDBBelowRange()
    ensures VolumeToDB(0.0) == -80.5 && VolumeToDB(0.0) < MinDb
  {
  }

  /** The middle level 93 lies at exactly -34 dB. */
  lemma VolumeToDBMidpoint()
    ensures VolumeToDB(93.0) == -34.0
  {
  }

  /**
   * The display text of a decibel value. JavaScript's one-decimal toFixed is
   * the parameter toFixed1: its rounding is not part of this model.
   */
  function FormatVolume(db: real, toFixed1: real -> string): (r: string)
    ensures |r| >= 3 && r[|r| - 3..] == " dB"
    ensures db == 0.0 ==> r == "0.0 dB"
    ensures db > 0.0 ==> r == "+" + toFixed1(db) + " dB"
    ensures db < 0.0 ==> r == toFixed1(db) + " dB"
  {
    if db == 0.0 then "0.0 dB"
    else if db > 0.0 then "+" + toFixed1(db) + " dB"
    else toFixed1(db) + " dB"
  }

  /**
   * As long as toFixed1 never writes a '+' of its own (JavaScript's toFixed
   * starts with a digit or '-'), the text starts with '+' exactly for
   * positive values.
   */
  lemma PlusSignExactlyWhenPositive(db: real, toFixed1: real -> string)
    requires forall x :: toFixed1(x) == [] || toFixed1(x)[0] != '+'
    ensures FormatVolume(db, toFixed1)[0] == '+' <==> db > 0.0
  {
    var r := FormatVolume(db, toFixed1);
    if db < 0.0 && toFixed1(db) != [] {
      assert r[0] == toFixed1(db)[0];
    }
  }
}
