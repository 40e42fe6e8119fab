/**
  The sensor link's configuration tables (src/config/settings.py): the serial settings, the
  single-character command set and the device's fault codes. Python dictionaries keep their
  insertion order, and the reply parser consults the fault table in that order, so the table is
  an ordered sequence of (token, message) pairs.
*/
module Settings {

  /** The ASCII link's serial parameters; timeouts in seconds. */
  datatype SerialSettings = SerialSettings(
    baudrate: nat, bytesize: nat, parity: char, stopbits: nat,
    timeout: real, writeTimeout: real, interByteTimeout: real)

  const Serial: SerialSettings := SerialSettings(19200, 8, 'N', 1, 2.0, 1.0, 0.1)

  /** The command table: name to the single character sent before CRLF. */
  const Commands: map<string, string> := map[
    "LASER_ON" := "O",
    "LASER_OFF" := "C",
    "READ_STATUS" := "S",
    "AUTO_MEASURE" := "D",
    "SLOW_MEASURE" := "M",
    "FAST_MEASURE" := "F",
    "VERSION" := "V",
    "POWER_OFF" := "X"
  ]

  const LaserOn: string := "O"
  const LaserOff: string := "C"
  const ReadStatus: string := "S"
  const AutoMeasure: string := "D"
  const SlowMeasure: string := "M"
  const FastMeasure: string := "F"

  /** The statistics settings: the moving-average window and the outlier threshold in standard
      deviations. */
  const MovingAverageWindow: nat := 5
  const OutlierThreshold: real := 2.0

  /** The fault table, in its declared order. */
  const ErrorCodes: seq<(string, string)> := [
    ("Er01", "Battery voltage too low (must be >= 2.0V)"),
    ("Er02", "Internal error"),
    ("Er03", "Module temperature too low (< -20\U{00B0}C)"),
    ("Er04", "Module temperature too high (> +40\U{00B0}C)"),
    ("Er05", "Target out of measurement range"),
    ("Er06", "Invalid measurement result"),
    ("Er07", "Background light too strong"),
    ("Er08", "Laser signal too weak"),
    ("Er09", "Laser signal too strong"),
    ("Er10", "Hardware malfunction 1"),
    ("Er11", "Hardware malfunction 2"),
    ("Er12", "Hardware malfunction 3"),
    ("Er13", "Hardware malfunction 4"),
    ("Er14", "Hardware malfunction 5"),
    ("Er15", "Laser signal unstable")
  ]

  /** The two-digit decimal rendering of 1..99. */
  function TwoDigits(n: nat): string
    requires n < 100
  {
    ['0' + (n / 10) as char, '0' + (n % 10) as char]
  }

  /** The command table holds exactly the eight commands (there is no STOP_MEASURE), the named
      constants used elsewhere agree with it, and its eight characters are pairwise distinct. */
  lemma CommandTable()
    ensures Commands.Keys == {"LASER_ON", "LASER_OFF", "READ_STATUS", "AUTO_MEASURE",
                              "SLOW_MEASURE", "FAST_MEASURE", "VERSION", "POWER_OFF"}
    ensures "STOP_MEASURE" !in Commands
    ensures Commands["LASER_ON"] == LaserOn && Commands["LASER_OFF"] == LaserOff
    ensures Commands["READ_STATUS"] == ReadStatus && Commands["AUTO_MEASURE"] == AutoMeasure
    ensures Commands["SLOW_MEASURE"] == SlowMeasure && Commands["FAST_MEASURE"] == FastMeasure
    ensures forall k :: k in Commands ==> |Commands[k]| == 1
    ensures forall k, k' :: k in Commands && k' in Commands && k != k' ==> Commands[k] != Commands[k']
  {
  }

  /** The number of fault codes. */
  const ErrorCodeCount: nat := 15

  /** The token of fault code `n`: "Er" and the code in two digits. */
  function ErrorToken(n: nat): (t: string)
    requires 1 <= n <= ErrorCodeCount
    ensures |t| == 4 && t[0] == 'E' && t[1] == 'r'
  {
    "Er" + TwoDigits(n)
  }

  /** The message the table gives for fault code `n`. */
  function ErrorMessage(n: nat): string
    requires 1 <= n <= ErrorCodeCount
  {
    ErrorCodes[n - 1].1
  }

  /** The fault table holds the fifteen codes in order: entry `n - 1` is the token of code `n`,
      and code 5 means an out-of-range target. */
  lemma ErrorCodeTable()
    ensures |ErrorCodes| == ErrorCodeCount
    ensures forall n :: 1 <= n <= ErrorCodeCount ==> ErrorCodes[n - 1].0 == ErrorToken(n)
    ensures ErrorMessage(5) == "Target out of measurement range"
  {
    forall n | 1 <= n <= ErrorCodeCount ensures ErrorCodes[n - 1].0 == ErrorToken(n) {
      if n == 1 { assert TwoDigits(1) == "01"; }
      else if n == 2 { assert TwoDigits(2) == "02"; }
      else if n == 3 { assert TwoDigits(3) == "03"; }
      else if n == 4 { assert TwoDigits(4) == "04"; }
      else if n == 5 { assert TwoDigits(5) == "05"; }
      else if n == 6 { assert TwoDigits(6) == "06"; }
      else if n == 7 { assert TwoDigits(7) == "07"; }
      else if n == 8 { assert TwoDigits(8) == "08"; }
      else if n == 9 { assert TwoDigits(9) == "09"; }
      else if n == 10 { assert TwoDigits(10) == "10"; }
      else if n == 11 { assert TwoDigits(11) == "11"; }
      else if n == 12 { assert TwoDigits(12) == "12"; }
      else if n == 13 { assert TwoDigits(13) == "13"; }
      else if n == 14 { assert TwoDigits(14) == "14"; }
      else { assert TwoDigits(15) == "15"; }
    }
  }

  /** The tokens are pairwise distinct; being all of one length, none occurs inside another. */
  lemma ErrorTokensDistinct()
    ensures forall i, j :: 1 <= i < j <= ErrorCodeCount ==> ErrorToken(i) != ErrorToken(j)
  {
    forall i, j | 1 <= i < j <= ErrorCodeCount ensures ErrorToken(i) != ErrorToken(j) {
      assert ErrorToken(i)[2..] == TwoDigits(i);
      assert ErrorToken(j)[2..] == TwoDigits(j);
    }
  }
}
