/**
  Classification of the sensor's ASCII replies (src/utils/serial_handler.py,
  `parse_distance_response` and `parse_status_response`).

  Each regular expression of the source is a leftmost-match scanner over the reply: `MatchAt`
  says whether, and with which groups, the expression matches starting at one position, and
  `Find` returns the leftmost such position, as `re.search` does. In these expressions a greedy
  `\d+` or `\d*` is always followed by a character that is not a digit, so backtracking never
  yields a second match at the same position: the greedy run is the only candidate.
  Decimal numbers stay as their digit strings; `DecimalValue` gives their exact value.
*/
module ReplyParser {
  import opened Wrappers
  import Settings

  // ---------------------------------------------------------------------------------------
  // Text helpers

  predicate IsDigit(c: char) {
    '0' <= c <= '9'
  }

  predicate AllDigits(t: string) {
    forall k :: 0 <= k < |t| ==> IsDigit(t[k])
  }

  /** Every character of `s` from `i` up to `j` is a digit. */
  predicate DigitsBetween(s: string, i: nat, j: nat) {
    j <= |s| && forall k :: i <= k < j ==> IsDigit(s[k])
  }

  lemma DigitsBetweenSlice(s: string, i: nat, j: nat)
    requires i <= j && DigitsBetween(s, i, j)
    ensures AllDigits(s[i..j])
  {
    forall k | 0 <= k < j - i ensures IsDigit(s[i..j][k]) {
      assert s[i..j][k] == s[i + k];
    }
  }

  /** `t` occurs in `s` at position `i`. */
  predicate OccursAt(s: string, t: string, i: nat) {
    i + |t| <= |s| && s[i..i + |t|] == t
  }

  /** Python's `t in s`. */
  predicate Contains(s: string, t: string) {
    exists i :: 0 <= i <= |s| && OccursAt(s, t, i)
  }

  /** A one-character string occurs exactly when the character does. */
  lemma ContainsChar(s: string, c: char)
    ensures Contains(s, [c]) <==> c in s
  {
    if c in s {
      var i :| 0 <= i < |s| && s[i] == c;
      assert OccursAt(s, [c], i);
    }
    if Contains(s, [c]) {
      var i :| 0 <= i <= |s| && OccursAt(s, [c], i);
      assert s[i] == s[i..i + 1][0];
    }
  }

  /** Length of the run of digits starting at `i`: what a greedy `\d*` consumes there. */
  function DigitRun(s: string, i: nat): (n: nat)
    requires i <= |s|
    ensures DigitsBetween(s, i, i + n)
    ensures i + n == |s| || !IsDigit(s[i + n])
    decreases |s| - i
  {
    if i < |s| && IsDigit(s[i]) then 1 + DigitRun(s, i + 1) else 0
  }

  /** A run of digits from `i` to `j`, ended by a non-digit or the end of the text, is the run
      `DigitRun` finds. */
  lemma DigitRunIs(s: string, i: nat, j: nat)
    requires i <= j && DigitsBetween(s, i, j)
    requires j == |s| || !IsDigit(s[j])
    ensures DigitRun(s, i) == j - i
  {
  }

  /** A greedy run of digits covers every run of digits that starts where it does. */
  lemma DigitRunCovers(s: string, i: nat, j: nat)
    requires i <= j && DigitsBetween(s, i, j)
    ensures DigitRun(s, i) >= j - i
  {
  }

  /** The value of a string of decimal digits, as `int()` reads it. */
  function DigitsValue(t: string): nat
    requires AllDigits(t)
  {
    if t == [] then 0 else DigitsValue(t[..|t| - 1]) * 10 + (t[|t| - 1] - '0') as nat
  }

  function Pow10(n: nat): (r: nat)
    ensures r >= 1
  {
    if n == 0 then 1 else 10 * Pow10(n - 1)
  }

  /** The text of a decimal `whole.frac`; `frac` may be empty (as in "23."). */
  datatype Decimal = Decimal(whole: string, frac: string) {
    ghost predicate Valid() {
      whole != [] && AllDigits(whole) && AllDigits(frac)
    }
  }

  /** The exact value that the decimal text denotes. */
  function DecimalValue(d: Decimal): real
    requires AllDigits(d.whole) && AllDigits(d.frac)
  {
    DigitsValue(d.whole) as real + DigitsValue(d.frac) as real / Pow10(|d.frac|) as real
  }

  // ---------------------------------------------------------------------------------------
  // The source's regular expressions

  datatype Pattern =
    | BareDistance       // (\d+\.\d+)m,(\d+)
    | ColonDistance      // : (\d+\.\d+)m,(\d+)
    | BareTemperature    // (\d+\.\d*)['°]?C
    | StatusTemperature  // S: (\d+\.\d*)['°]?C
    | Voltage            // (\d+\.\d*)V

  /** The groups of a match: the decimal, and for the distance patterns the quality digits. */
  datatype Groups = Groups(number: Decimal, quality: string)

  /** The length of the literal text before the number: ": " or "S: ". */
  function PrefixLength(pat: Pattern): nat {
    match pat
    case ColonDistance => 2
    case StatusTemperature => 3
    case _ => 0
  }

  /** The literal text of `pat` before the number occurs at `p`. */
  predicate PrefixAt(pat: Pattern, s: string, p: nat) {
    p + PrefixLength(pat) <= |s| &&
    match pat
    case ColonDistance => s[p] == ':' && s[p + 1] == ' '
    case StatusTemperature => s[p] == 'S' && s[p + 1] == ':' && s[p + 2] == ' '
    case _ => true
  }

  predicate IsDistancePattern(pat: Pattern) {
    pat == BareDistance || pat == ColonDistance
  }

  predicate IsTemperaturePattern(pat: Pattern) {
    pat == BareTemperature || pat == StatusTemperature
  }

  const Degree: char := '\U{00B0}'

  /** The `\d+\.\d*` number starting at `start`: the position of its dot and of its end. */
  function NumberAt(s: string, start: nat): (r: Option<(nat, nat)>)
    requires start <= |s|
    ensures r.Some? ==> start < r.value.0 < r.value.1 <= |s| && s[r.value.0] == '.'
  {
    var dot := start + DigitRun(s, start);
    if dot == start || dot == |s| || s[dot] != '.' then None
    else Some((dot, dot + 1 + DigitRun(s, dot + 1)))
  }

  /** What follows the number in `pat`, read from `end`: the quality digits of the distance
      patterns, "" for the others, and None when the text there does not continue the pattern. */
  function TailAt(pat: Pattern, s: string, end: nat): Option<string>
    requires end <= |s|
  {
    if IsDistancePattern(pat) then
      if end + 2 > |s| || s[end] != 'm' || s[end + 1] != ',' then None
      else
        var q := DigitRun(s, end + 2);
        if q == 0 then None else Some(s[end + 2..end + 2 + q])
    else if IsTemperaturePattern(pat) then
      if end < |s| && s[end] == 'C' then Some("")
      else if end + 1 < |s| && (s[end] == '\'' || s[end] == Degree) && s[end + 1] == 'C' then Some("")
      else None
    else if end < |s| && s[end] == 'V' then Some("")
    else None
  }

  /** The groups of `pat` matched at position `p`, or None when it does not match there. The
      distance patterns need at least one digit after the dot. */
  function MatchAt(pat: Pattern, s: string, p: nat): Option<Groups>
    requires p <= |s|
  {
    if !PrefixAt(pat, s, p) then None
    else match NumberAt(s, p + PrefixLength(pat))
      case None => None
      case Some((dot, end)) =>
        if IsDistancePattern(pat) && end == dot + 1 then None
        else match TailAt(pat, s, end)
          case None => None
          case Some(tail) => Some(Groups(Decimal(s[p + PrefixLength(pat)..dot], s[dot + 1..end]), tail))
  }

  /** A match is the prefix, the number, and the pattern's tail, read in sequence. */
  lemma MatchAtParts(pat: Pattern, s: string, p: nat, dot: nat, end: nat, tail: string)
    requires PrefixAt(pat, s, p)
    requires NumberAt(s, p + PrefixLength(pat)) == Some((dot, end))
    requires !(IsDistancePattern(pat) && end == dot + 1) && TailAt(pat, s, end) == Some(tail)
    ensures MatchAt(pat, s, p) == Some(Groups(Decimal(s[p + PrefixLength(pat)..dot], s[dot + 1..end]), tail))
  {
  }

  /** The number scanner reads `whole.frac` exactly when the digits run from `start` to `dot`,
      then a dot, then digits up to `end`, followed by a non-digit or the end. */
  lemma NumberScan(s: string, start: nat, dot: nat, end: nat)
    requires start < dot < end <= |s| && s[dot] == '.'
    requires DigitsBetween(s, start, dot) && DigitsBetween(s, dot + 1, end)
    requires end == |s| || !IsDigit(s[end])
    ensures NumberAt(s, start) == Some((dot, end))
  {
    DigitRunIs(s, start, dot);
    DigitRunIs(s, dot + 1, end);
  }

  /** The groups of every match are digit strings, and a distance match has digits after the
      dot and a non-empty quality. */
  lemma MatchGroups(pat: Pattern, s: string, p: nat)
    requires p <= |s| && MatchAt(pat, s, p).Some?
    ensures MatchAt(pat, s, p).value.number.Valid()
    ensures IsDistancePattern(pat) ==> && MatchAt(pat, s, p).value.number.frac != []
                                       && MatchAt(pat, s, p).value.quality != []
                                       && AllDigits(MatchAt(pat, s, p).value.quality)
  {
    var start := p + PrefixLength(pat);
    var (dot, end) := NumberAt(s, start).value;
    NumberDigits(s, start);
    if IsDistancePattern(pat) {
      QualityDigits(pat, s, end);
    }
  }

  /** The scanner's number is two runs of digits around its dot. */
  lemma NumberRuns(s: string, start: nat)
    requires start <= |s| && NumberAt(s, start).Some?
    ensures DigitsBetween(s, start, NumberAt(s, start).value.0)
    ensures DigitsBetween(s, NumberAt(s, start).value.0 + 1, NumberAt(s, start).value.1)
  {
  }

  /** The two digit runs of a scanned number are digit strings. */
  lemma NumberDigits(s: string, start: nat)
    requires start <= |s| && NumberAt(s, start).Some?
    ensures DigitsBetween(s, start, NumberAt(s, start).value.0)
    ensures DigitsBetween(s, NumberAt(s, start).value.0 + 1, NumberAt(s, start).value.1)
    ensures AllDigits(s[start..NumberAt(s, start).value.0]) && s[start..NumberAt(s, start).value.0] != []
    ensures AllDigits(s[NumberAt(s, start).value.0 + 1..NumberAt(s, start).value.1])
  {
    var (dot, end) := NumberAt(s, start).value;
    NumberRuns(s, start);
    DigitsBetweenSlice(s, start, dot);
    DigitsBetweenSlice(s, dot + 1, end);
  }

  /** The quality group of a distance tail is a non-empty digit string. */
  lemma QualityDigits(pat: Pattern, s: string, end: nat)
    requires end <= |s| && IsDistancePattern(pat) && TailAt(pat, s, end).Some?
    ensures TailAt(pat, s, end).value != [] && AllDigits(TailAt(pat, s, end).value)
  {
    DigitsBetweenSlice(s, end + 2, end + 2 + DigitRun(s, end + 2));
  }

  /** The leftmost position at or after `from` where `pat` matches: `re.search`. */
  function Find(pat: Pattern, s: string, from: nat): (r: Option<nat>)
    requires from <= |s|
    ensures r.Some? ==> from <= r.value <= |s| && MatchAt(pat, s, r.value).Some?
    ensures r.Some? ==> forall q :: from <= q < r.value ==> MatchAt(pat, s, q).None?
    ensures r.None? ==> forall q :: from <= q <= |s| ==> MatchAt(pat, s, q).None?
    decreases |s| - from
  {
    if MatchAt(pat, s, from).Some? then Some(from)
    else if from == |s| then None
    else Find(pat, s, from + 1)
  }

  /** The groups of the leftmost match of `pat` in `s`. */
  function Search(pat: Pattern, s: string): (r: Option<Groups>)
    ensures r.Some? ==> Find(pat, s, 0).Some? && r == MatchAt(pat, s, Find(pat, s, 0).value)
    ensures r.None? <==> forall q :: 0 <= q <= |s| ==> MatchAt(pat, s, q).None?
  {
    match Find(pat, s, 0)
    case Some(p) => MatchAt(pat, s, p)
    case None => None
  }

  /** Both prefixes hold a ':', so a reply without one matches neither prefixed pattern. */
  lemma NoPrefixNoMatch(pat: Pattern, s: string)
    requires PrefixLength(pat) > 0 && ':' !in s
    ensures Search(pat, s).None?
  {
    forall q | 0 <= q <= |s| ensures MatchAt(pat, s, q).None? {
    }
  }

  /** Every pattern needs a decimal point, so a reply without one matches none of them. */
  lemma NoDotNoMatch(pat: Pattern, s: string)
    requires '.' !in s
    ensures Search(pat, s).None?
  {
    forall q | 0 <= q <= |s| ensures MatchAt(pat, s, q).None? {
    }
  }

  /** What `(\d+\.\d+)m,(\d+)` means at `p`: one or more digits from `p` to `d`, a dot, one or
      more digits up to `e`, "m,", then one or more digits up to `q`. */
  predicate DistanceShape(s: string, p: nat, d: nat, e: nat, q: nat) {
    && p < d && d + 1 < e && e + 2 < q <= |s|
    && DigitsBetween(s, p, d) && s[d] == '.' && DigitsBetween(s, d + 1, e)
    && s[e] == 'm' && s[e + 1] == ',' && DigitsBetween(s, e + 2, q)
  }

  /** The scanner's view of a distance shape: the number ends where the shape says, and the
      greedy quality run reaches at least to the shape's end. */
  lemma ShapeScan(s: string, p: nat, d: nat, e: nat, q: nat)
    requires DistanceShape(s, p, d, e, q)
    ensures NumberAt(s, p) == Some((d, e))
    ensures e + 2 + DigitRun(s, e + 2) >= q
    ensures q == |s| || !IsDigit(s[q]) ==> DigitRun(s, e + 2) == q - (e + 2)
  {
    NumberScan(s, p, d, e);
    DigitRunCovers(s, e + 2, q);
    if q == |s| || !IsDigit(s[q]) {
      DigitRunIs(s, e + 2, q);
    }
  }

  /** Every occurrence of the distance shape is a match, whose groups are its digit strings; the
      greedy quality group extends the shape's last digits, and equals them when they are
      followed by a non-digit or the end. */
  lemma ShapeIsMatch(s: string, p: nat, d: nat, e: nat, q: nat)
    requires DistanceShape(s, p, d, e, q)
    ensures MatchAt(BareDistance, s, p).Some?
    ensures MatchAt(BareDistance, s, p).value.number == Decimal(s[p..d], s[d + 1..e])
    ensures s[e + 2..q] <= MatchAt(BareDistance, s, p).value.quality
    ensures q == |s| || !IsDigit(s[q]) ==> MatchAt(BareDistance, s, p).value.quality == s[e + 2..q]
  {
    ShapeScan(s, p, d, e, q);
    var n := DigitRun(s, e + 2);
    ShapeMatch(s, p, d, e, n);
    SlicePrefix(s, e + 2, q, e + 2 + n);
  }

  /** The match at a distance shape, with the greedy quality run of length `n`. */
  lemma ShapeMatch(s: string, p: nat, d: nat, e: nat, n: nat)
    requires p <= |s| && NumberAt(s, p) == Some((d, e)) && d + 1 < e && e + 2 <= |s| && s[e] == 'm' && s[e + 1] == ','
    requires n == DigitRun(s, e + 2) && n > 0
    ensures MatchAt(BareDistance, s, p) == Some(Groups(Decimal(s[p..d], s[d + 1..e]), s[e + 2..e + 2 + n]))
  {
    assert TailAt(BareDistance, s, e) == Some(s[e + 2..e + 2 + n]);
    MatchAtParts(BareDistance, s, p, d, e, s[e + 2..e + 2 + n]);
  }

  /** A shorter slice from the same start is a prefix of a longer one. */
  lemma SlicePrefix(s: string, i: nat, j: nat, k: nat)
    requires i <= j <= k <= |s|
    ensures s[i..j] <= s[i..k]
  {
    assert s[i..k][..j - i] == s[i..j];
  }

  /** Conversely, every match is an occurrence of the distance shape. */
  lemma MatchIsShape(s: string, p: nat)
    requires p <= |s| && MatchAt(BareDistance, s, p).Some?
    ensures exists d: nat, e: nat, q: nat :: DistanceShape(s, p, d, e, q)
  {
    var (d, e) := NumberAt(s, p).value;
    BareMatchParts(s, p, d, e);
    NumberRunsAt(s, p, d, e);
    var n := DigitRun(s, e + 2);
    assert DistanceShape(s, p, d, e, e + 2 + n);
  }

  /** What a bare distance match at `p` consists of, as the scanner read it. */
  lemma BareMatchParts(s: string, p: nat, d: nat, e: nat)
    requires p <= |s| && MatchAt(BareDistance, s, p).Some? && NumberAt(s, p) == Some((d, e))
    ensures d + 1 < e && e + 2 <= |s| && s[e] == 'm' && s[e + 1] == ',' && DigitRun(s, e + 2) > 0
  {
  }

  /** The scanner's number read as `Some((d, e))` is two runs of digits around its dot. */
  lemma NumberRunsAt(s: string, start: nat, d: nat, e: nat)
    requires start <= |s| && NumberAt(s, start) == Some((d, e))
    ensures DigitsBetween(s, start, d) && DigitsBetween(s, d + 1, e)
  {
  }

  /** A ": " match is the bare match two characters later, so the prefix changes only which
      match is read, never whether one is found. */
  lemma ColonMatchIsBareMatch(s: string, p: nat)
    requires p <= |s| && MatchAt(ColonDistance, s, p).Some?
    ensures p + 2 <= |s| && MatchAt(BareDistance, s, p + 2) == MatchAt(ColonDistance, s, p)
  {
    var (dot, end) := NumberAt(s, p + 2).value;
    var tail := TailAt(ColonDistance, s, end).value;
    assert TailAt(BareDistance, s, end) == Some(tail);
    MatchAtParts(ColonDistance, s, p, dot, end, tail);
    MatchAtParts(BareDistance, s, p + 2, dot, end, tail);
  }

  // ---------------------------------------------------------------------------------------
  // The fault-token scan

  /** The lowest fault code, from `n` upward, whose token occurs in `s`. */
  function FirstFault(s: string, n: nat): (r: Option<nat>)
    requires 1 <= n
    decreases Settings.ErrorCodeCount + 1 - n
    ensures r.None? <==> forall j :: n <= j <= Settings.ErrorCodeCount ==> !Contains(s, Settings.ErrorToken(j))
    ensures r.Some? ==> n <= r.value <= Settings.ErrorCodeCount && Contains(s, Settings.ErrorToken(r.value))
                        && forall j :: n <= j < r.value ==> !Contains(s, Settings.ErrorToken(j))
  {
    if n > Settings.ErrorCodeCount then None
    else if Contains(s, Settings.ErrorToken(n)) then Some(n)
    else FirstFault(s, n + 1)
  }

  /** Every fault token begins with 'E', so a reply without one carries none. */
  lemma NoTokenWithoutE(s: string)
    requires 'E' !in s
    ensures FirstFault(s, 1).None?
  {
    forall j | 1 <= j <= Settings.ErrorCodeCount ensures !Contains(s, Settings.ErrorToken(j)) {
      NotContainedWithoutFirst(s, Settings.ErrorToken(j));
    }
  }

  /** A string whose first character is absent from `s` does not occur in it. */
  lemma NotContainedWithoutFirst(s: string, t: string)
    requires t != [] && t[0] !in s
    ensures !Contains(s, t)
  {
    forall i | 0 <= i <= |s| ensures !OccursAt(s, t, i) {
      if i + |t| <= |s| {
        assert s[i..i + |t|][0] == s[i];
      }
    }
  }

  // ---------------------------------------------------------------------------------------
  // Distance replies

  /** Why a distance reply carries no values. */
  datatype ReplyError = NoResponse | Fault(code: nat) | StatusInsteadOfDistance | NoDistance

  /** The message `parse_distance_response` returns for each error. */
  function Message(e: ReplyError): string
    requires e.Fault? ==> 1 <= e.code <= Settings.ErrorCodeCount
  {
    match e
    case NoResponse => "No response from sensor"
    case Fault(code) => Settings.ErrorMessage(code)
    case StatusInsteadOfDistance => "Received status response instead of distance"
    case NoDistance => "Could not extract distance from response"
  }

  /** Either a (distance, quality) pair, or an error with no values. */
  datatype DistanceReply = Measured(distance: Decimal, quality: nat) | DistanceError(error: ReplyError)

  /** A reply carrying both a temperature marker and a voltage marker. */
  predicate StatusShaped(s: string) {
    Contains(s, "'C") && Contains(s, "V")
  }

  /** The reading of one distance match. */
  function Reading(g: Groups): DistanceReply {
    if AllDigits(g.quality) then Measured(g.number, DigitsValue(g.quality)) else DistanceError(NoDistance)
  }

  /** The distance read from a reply: the leftmost ": "-prefixed match, else the leftmost bare
      one. */
  function ReadDistance(s: string): DistanceReply {
    match Search(ColonDistance, s)
    case Some(g) => Reading(g)
    case None =>
      match Search(BareDistance, s)
      case Some(g) => Reading(g)
      case None => DistanceError(NoDistance)
  }

  /** `parse_distance_response`. A missing or empty reply, then a fault token, then a status-shaped
      reply, then the distance patterns, in that order of precedence. */
  function ParseDistance(response: Option<string>): DistanceReply {
    if response.None? || response.value == "" then DistanceError(NoResponse)
    else
      var s := response.value;
      match FirstFault(s, 1)
      case Some(code) => DistanceError(Fault(code))
      case None => if StatusShaped(s) then DistanceError(StatusInsteadOfDistance) else ReadDistance(s)
  }

  lemma EmptyReplyIsNoResponse()
    ensures ParseDistance(None) == DistanceError(NoResponse)
    ensures ParseDistance(Some("")) == DistanceError(NoResponse)
  {
  }

  /** A fault token wins over everything else in the reply; among several tokens, the lowest
      code. */
  lemma ErrorTokenWins(s: string, k: nat)
    requires 1 <= k <= Settings.ErrorCodeCount && Contains(s, Settings.ErrorToken(k))
    requires forall j :: 1 <= j < k ==> !Contains(s, Settings.ErrorToken(j))
    ensures ParseDistance(Some(s)) == DistanceError(Fault(k))
  {
    var i :| 0 <= i <= |s| && OccursAt(s, Settings.ErrorToken(k), i);
    assert s != [];
    FirstFaultIs(s, k);
  }

  /** The scan from code 1 stops at the lowest code whose token occurs. */
  lemma FirstFaultIs(s: string, k: nat)
    requires 1 <= k <= Settings.ErrorCodeCount && Contains(s, Settings.ErrorToken(k))
    requires forall j :: 1 <= j < k ==> !Contains(s, Settings.ErrorToken(j))
    ensures FirstFault(s, 1) == Some(k)
  {
    assert FirstFault(s, 1).Some?;
  }

  /** Without a fault token, a status-shaped reply is refused even when it also holds a distance. */
  lemma StatusShapedIsRefused(s: string)
    requires FirstFault(s, 1).None? && StatusShaped(s)
    ensures ParseDistance(Some(s)) == DistanceError(StatusInsteadOfDistance)
  {
  }

  /** Without a fault token or status markers, the reply is read by the distance patterns. */
  lemma PatternsDecide(s: string)
    requires s != [] && FirstFault(s, 1).None? && !StatusShaped(s)
    ensures ParseDistance(Some(s)) == ReadDistance(s)
  {
  }

  /** The leftmost ": "-prefixed match is read when there is one, even if a bare match starts
      earlier. */
  lemma ColonMatchRead(s: string, p: nat)
    requires Find(ColonDistance, s, 0) == Some(p)
    ensures ReadDistance(s) == Measured(MatchAt(ColonDistance, s, p).value.number,
                                        DigitsValue(MatchAt(ColonDistance, s, p).value.quality))
  {
    MatchGroups(ColonDistance, s, p);
  }

  /** Without a ": "-prefixed match, the leftmost bare match is read. */
  lemma BareMatchRead(s: string, p: nat)
    requires Search(ColonDistance, s).None? && Find(BareDistance, s, 0) == Some(p)
    ensures ReadDistance(s) == Measured(MatchAt(BareDistance, s, p).value.number,
                                        DigitsValue(MatchAt(BareDistance, s, p).value.quality))
  {
    MatchGroups(BareDistance, s, p);
  }

  /** A reply with no distance shape anywhere is unparseable. */
  lemma NoShapeUnparseable(s: string)
    requires forall p: nat, d: nat, e: nat, q: nat :: !DistanceShape(s, p, d, e, q)
    ensures ReadDistance(s) == DistanceError(NoDistance)
  {
    forall p | 0 <= p <= |s| ensures MatchAt(BareDistance, s, p).None? {
      if MatchAt(BareDistance, s, p).Some? {
        MatchIsShape(s, p);
      }
    }
    if Find(ColonDistance, s, 0).Some? {
      ColonMatchIsBareMatch(s, Find(ColonDistance, s, 0).value);
    }
  }

  /** A distance read from a reply is a well-formed decimal; otherwise nothing was found. */
  lemma ReadDistanceShapes(s: string)
    ensures ReadDistance(s).Measured? ==> ReadDistance(s).distance.Valid()
    ensures ReadDistance(s).DistanceError? ==> ReadDistance(s).error == NoDistance
  {
    if Find(ColonDistance, s, 0).Some? {
      ColonMatchRead(s, Find(ColonDistance, s, 0).value);
      MatchGroups(ColonDistance, s, Find(ColonDistance, s, 0).value);
    } else if Find(BareDistance, s, 0).Some? {
      BareMatchRead(s, Find(BareDistance, s, 0).value);
      MatchGroups(BareDistance, s, Find(BareDistance, s, 0).value);
    }
  }

  /** Every outcome is a measurement with a well-formed decimal, or an error; a fault is one whose
      token the reply holds. */
  lemma DistanceReplyShapes(response: Option<string>)
    ensures ParseDistance(response).Measured? ==> ParseDistance(response).distance.Valid()
    ensures ParseDistance(response).DistanceError? && ParseDistance(response).error.Fault? ==>
      var code := ParseDistance(response).error.code;
      response.Some? && 1 <= code <= Settings.ErrorCodeCount && Contains(response.value, Settings.ErrorToken(code))
  {
    if response.Some? {
      ReadDistanceShapes(response.value);
    }
  }

  /** A reply without 'E', 'V' or ':' that is one distance shape from end to end is read as
      that distance. */
  lemma WholeReplyDistance(s: string, d: nat, e: nat)
    requires 'E' !in s && 'V' !in s && ':' !in s && DistanceShape(s, 0, d, e, |s|)
    ensures ParseDistance(Some(s)) == Measured(Decimal(s[0..d], s[d + 1..e]), DigitsValue(s[e + 2..|s|]))
  {
    NoTokenWithoutE(s);
    ContainsChar(s, 'V');
    PatternsDecide(s);
    NoPrefixNoMatch(ColonDistance, s);
    ShapeIsMatch(s, 0, d, e, |s|);
    assert Find(BareDistance, s, 0) == Some(0);
    BareMatchRead(s, 0);
  }

  /** A reply without 'E' or 'V' whose first ':' begins ": " and a distance shape running to the
      end is read as that distance, whatever bare distances come before it. */
  lemma TrailingColonDistance(s: string, c: nat, d: nat, e: nat)
    requires 'E' !in s && 'V' !in s && PrefixAt(ColonDistance, s, c) && forall i :: 0 <= i < c ==> s[i] != ':'
    requires DistanceShape(s, c + 2, d, e, |s|)
    ensures ParseDistance(Some(s)) == Measured(Decimal(s[c + 2..d], s[d + 1..e]), DigitsValue(s[e + 2..|s|]))
  {
    NoTokenWithoutE(s);
    ContainsChar(s, 'V');
    PatternsDecide(s);
    ColonFound(s, c, d, e);
    ColonMatchRead(s, c);
  }

  /** The scanner finds the ": " match of `TrailingColonDistance` first. */
  lemma ColonFound(s: string, c: nat, d: nat, e: nat)
    requires PrefixAt(ColonDistance, s, c) && forall i :: 0 <= i < c ==> s[i] != ':'
    requires DistanceShape(s, c + 2, d, e, |s|)
    ensures Find(ColonDistance, s, 0) == Some(c)
    ensures MatchAt(ColonDistance, s, c) == Some(Groups(Decimal(s[c + 2..d], s[d + 1..e]), s[e + 2..|s|]))
  {
    ColonShapeMatch(s, c, d, e);
    forall q | 0 <= q < c ensures MatchAt(ColonDistance, s, q).None? {
      NoColonHere(s, q);
    }
  }

  /** A ": " followed by a distance shape running to the end is a colon match. */
  lemma ColonShapeMatch(s: string, c: nat, d: nat, e: nat)
    requires PrefixAt(ColonDistance, s, c) && DistanceShape(s, c + 2, d, e, |s|)
    ensures MatchAt(ColonDistance, s, c) == Some(Groups(Decimal(s[c + 2..d], s[d + 1..e]), s[e + 2..|s|]))
  {
    ShapeScan(s, c + 2, d, e, |s|);
    assert TailAt(ColonDistance, s, e) == Some(s[e + 2..|s|]);
    MatchAtParts(ColonDistance, s, c, d, e, s[e + 2..|s|]);
  }

  /** A position not holding ':' starts no ": " match. */
  lemma NoColonHere(s: string, q: nat)
    requires q < |s| && s[q] != ':'
    ensures MatchAt(ColonDistance, s, q).None?
  {
  }

  /** `parse_distance_response("35.2m,180")` is 35.2 metres at quality 180. */
  lemma ParseDistanceExample(s: string)
    requires s == "35.2m,180"
    ensures ParseDistance(Some(s)) == Measured(Decimal("35", "2"), 180)
  {
    DistanceExampleIsLaidOut(s);
    DistanceExampleLayout(s);
    ExampleValues();
    WholeReplyDistance(s, 2, 4);
  }

  /** The reply "35.2m,180", character by character. */
  predicate DistanceExampleChars(s: string) {
    |s| == 9 && s[0] == '3' && s[1] == '5' && s[2] == '.' && s[3] == '2' && s[4] == 'm' && s[5] == ',' && s[6] == '1' && s[7] == '8' && s[8] == '0'
  }

  lemma DistanceExampleIsLaidOut(s: string)
    requires s == "35.2m,180"
    ensures DistanceExampleChars(s)
  {
  }

  /** The layout of the reply in `ParseDistanceExample`. */
  lemma DistanceExampleLayout(s: string)
    requires DistanceExampleChars(s)
    ensures 'E' !in s && 'V' !in s && ':' !in s && DistanceShape(s, 0, 2, 4, |s|)
    ensures s[0..2] == "35" && s[3..4] == "2" && s[6..|s|] == "180"
  {
  }

  /** `parse_distance_response("Er05")` reports an out-of-range target. */
  lemma ParseDistanceFaultExample(s: string)
    requires s == "Er05"
    ensures ParseDistance(Some(s)) == DistanceError(Fault(5))
    ensures Message(Fault(5)) == "Target out of measurement range"
  {
    Settings.ErrorCodeTable();
    forall j | 1 <= j < 5 ensures !Contains(s, Settings.ErrorToken(j)) {
      assert Settings.ErrorToken(j)[3] != s[3];
      SameLengthContains(s, Settings.ErrorToken(j));
    }
    assert Settings.ErrorToken(5) == s;
    SameLengthContains(s, Settings.ErrorToken(5));
    ErrorTokenWins(s, 5);
  }

  /** Between strings of one length, containment is equality. */
  lemma SameLengthContains(s: string, t: string)
    requires |s| == |t|
    ensures Contains(s, t) <==> s == t
  {
    if s == t {
      assert OccursAt(s, t, 0);
    }
  }

  /** A reply with no decimal point, no 'E' and no 'V' yields no distance. */
  lemma NoDotNoDistance(s: string)
    requires s != [] && 'E' !in s && 'V' !in s && '.' !in s
    ensures ParseDistance(Some(s)) == DistanceError(NoDistance)
  {
    NoTokenWithoutE(s);
    ContainsChar(s, 'V');
    NoDotNoMatch(ColonDistance, s);
    NoDotNoMatch(BareDistance, s);
  }

  /** `parse_distance_response("garbage")` is unparseable. */
  lemma ParseDistanceGarbageExample()
    ensures ParseDistance(Some("garbage")) == DistanceError(NoDistance)
  {
    NoDotNoDistance("garbage");
  }

  // ---------------------------------------------------------------------------------------
  // Status replies

  const NoStatus: string := "No status response"
  const NoTemperature: string := "Could not extract temperature from response"

  /** The voltage substituted when the reply has none. */
  const DefaultVoltage: Decimal := Decimal("3", "0")

  /** Either a (temperature, voltage) pair, or an error message with no values. */
  datatype StatusReply = Status(temperature: Decimal, voltage: Decimal) | StatusError(message: string)

  /** The temperature of a reply: the leftmost "S: "-prefixed match, else the leftmost bare one. */
  function ReadTemperature(s: string): Option<Groups> {
    match Search(StatusTemperature, s)
    case Some(g) => Some(g)
    case None => Search(BareTemperature, s)
  }

  /** `parse_status_response`: a missing temperature is an error, a missing voltage is silently
      the default. */
  function ParseStatus(response: Option<string>): StatusReply {
    if response.None? || response.value == "" then StatusError(NoStatus)
    else
      var s := response.value;
      var temperature := ReadTemperature(s);
      var voltage := Search(Voltage, s);
      if temperature.None? then StatusError(NoTemperature)
      else Status(temperature.value.number, if voltage.Some? then voltage.value.number else DefaultVoltage)
  }

  /** The status outcomes: no text; no temperature anywhere; or a temperature, preferring the
      prefixed one, and the leftmost voltage, which is the default exactly when there is none. */
  lemma StatusReplyCases(s: string)
    requires s != []
    ensures ParseStatus(Some(s)).StatusError? <==>
      forall q :: 0 <= q <= |s| ==> MatchAt(StatusTemperature, s, q).None? && MatchAt(BareTemperature, s, q).None?
    ensures ParseStatus(Some(s)).StatusError? ==> ParseStatus(Some(s)).message == NoTemperature
    ensures Search(StatusTemperature, s).Some? ==>
      ParseStatus(Some(s)).Status? && ParseStatus(Some(s)).temperature == Search(StatusTemperature, s).value.number
    ensures ParseStatus(Some(s)).Status? ==>
      if Search(Voltage, s).None? then ParseStatus(Some(s)).voltage == DefaultVoltage
      else ParseStatus(Some(s)).voltage == Search(Voltage, s).value.number
  {
  }

  lemma EmptyStatusReply()
    ensures ParseStatus(None) == StatusError(NoStatus) && ParseStatus(Some("")) == StatusError(NoStatus)
  {
  }

  /** With a status-prefixed temperature at `t` and the leftmost voltage at `v`, the reply reads as
      those two numbers. */
  lemma StatusFromMatches(s: string, t: nat, v: nat)
    requires s != [] && Find(StatusTemperature, s, 0) == Some(t) && Find(Voltage, s, 0) == Some(v)
    ensures ParseStatus(Some(s)) == Status(MatchAt(StatusTemperature, s, t).value.number,
                                           MatchAt(Voltage, s, v).value.number)
  {
  }

  /** A position where no digit stands starts no match of a pattern without prefix. */
  lemma NoDigitNoMatch(pat: Pattern, s: string, q: nat)
    requires q < |s| && PrefixLength(pat) == 0 && !IsDigit(s[q])
    ensures MatchAt(pat, s, q).None?
  {
    assert DigitRun(s, q) == 0;
  }

  /** The reply "S: 23.4'C  3.10V", character by character. */
  predicate StatusExampleLayout(s: string) {
    |s| == 16 && s[0] == 'S' && s[1] == ':' && s[2] == ' ' && s[3] == '2' && s[4] == '3' && s[5] == '.' && s[6] == '4' && s[7] == '\''
    && s[8] == 'C' && s[9] == ' ' && s[10] == ' ' && s[11] == '3' && s[12] == '.' && s[13] == '1' && s[14] == '0' && s[15] == 'V'
  }

  lemma StatusExampleIsLaidOut(s: string)
    requires s == "S: 23.4'C  3.10V"
    ensures StatusExampleLayout(s)
  {
  }

  /** The example status reply below: its prefixed temperature is "23.4". */
  lemma StatusExampleTemperature(s: string)
    requires StatusExampleLayout(s)
    ensures Find(StatusTemperature, s, 0) == Some(0)
    ensures MatchAt(StatusTemperature, s, 0) == Some(Groups(Decimal("23", "4"), ""))
  {
    assert s[0..3] == "S: ";
    assert s[3..5] == "23" && s[6..7] == "4";
    NumberScan(s, 3, 5, 7);
    MatchAtParts(StatusTemperature, s, 0, 5, 7, "");
  }

  /** The example status reply below: its leftmost voltage is "3.10", at position 11. */
  lemma StatusExampleVoltage(s: string)
    requires StatusExampleLayout(s)
    ensures Find(Voltage, s, 0) == Some(11)
    ensures MatchAt(Voltage, s, 11) == Some(Groups(Decimal("3", "10"), ""))
  {
    assert s[11..12] == "3" && s[13..15] == "10";
    NumberScan(s, 11, 12, 15);
    MatchAtParts(Voltage, s, 11, 12, 15, "");
    StatusExampleNoEarlierVoltage(s);
  }

  /** The example status reply below has no voltage before position 11. */
  lemma StatusExampleNoEarlierVoltage(s: string)
    requires StatusExampleLayout(s)
    ensures forall q :: 0 <= q < 11 ==> MatchAt(Voltage, s, q).None?
  {
    forall q | 0 <= q < 11 ensures MatchAt(Voltage, s, q).None? {
      if 3 <= q <= 6 {
        StatusExampleTemperatureIsNoVoltage(s, q);
      } else {
        NoDigitNoMatch(Voltage, s, q);
      }
    }
  }

  /** In the example status reply below, a match starting inside "23.4" would need a 'V' after
      the number, where there is a quote. */
  lemma StatusExampleTemperatureIsNoVoltage(s: string, q: nat)
    requires StatusExampleLayout(s) && 3 <= q <= 6
    ensures MatchAt(Voltage, s, q).None?
  {
    if q == 5 {
      NoDigitNoMatch(Voltage, s, q);
    } else if q == 6 {
      DigitRunIs(s, 6, 7);
    } else {
      NumberScan(s, q, 5, 7);
    }
  }

  /** `parse_status_response("S: 23.4'C  3.10V")` is 23.4 degrees and 3.10 volts. */
  lemma ParseStatusExample(s: string)
    requires s == "S: 23.4'C  3.10V"
    ensures ParseStatus(Some(s)) == Status(Decimal("23", "4"), Decimal("3", "10"))
  {
    StatusExampleIsLaidOut(s);
    StatusExampleTemperature(s);
    StatusExampleVoltage(s);
    StatusFromMatches(s, 0, 11);
  }

  /** The values of the digit strings and decimals in the examples above. */
  lemma ExampleValues()
    ensures DigitsValue("180") == 180 && DigitsValue("9") == 9
    ensures DecimalValue(Decimal("35", "2")) == 35.2
    ensures DecimalValue(Decimal("23", "4")) == 23.4 && DecimalValue(Decimal("3", "10")) == 3.1
  {
    assert "180"[..2] == "18" && "18"[..1] == "1" && "1"[..0] == "";
    assert "35"[..1] == "3" && "3"[..0] == "";
    assert "23"[..1] == "2" && "2"[..0] == "";
    assert "10"[..1] == "1";
    assert "9"[..0] == "" && "4"[..0] == "";
    assert Pow10(1) == 10 && Pow10(2) == 100;
  }
}
