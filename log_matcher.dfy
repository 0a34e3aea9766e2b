/**
 * Classification of one chunk of the agent's standard output.
 *
 * The ready pattern `starting web service.*addr=(\d+\.\d+\.\d+\.\d+:\d+)` is
 * specified declaratively (ReadyMatch, PreferredMatch) with JavaScript's
 * regular-expression semantics: the leftmost start wins, the greedy `.*`
 * takes the last `addr=` it can reach, `.` never crosses a line terminator,
 * and the greedy `\d+` groups take the longest capture. The scanner
 * (FindReady, ReadyAddr) is proved to return exactly that capture.
 */
module LogMatcher {
  import opened Wrappers

  const Marker: string := "starting web service"
  const AddrKey: string := "addr="
  /** The captured `host:port` has this many digit groups after the first. */
  const AddrGroups: nat := 4
  const InUseText: string := "address already in use"
  /** Error messages carry at most this many characters of the chunk. */
  const MaxMessage: nat := 10000

  predicate IsDigit(c: char) { '0' <= c <= '9' }

  /** The characters JavaScript's `.` does not match. */
  predicate IsLineTerminator(c: char) {
    c == '\n' || c == '\r' || c == '\U{2028}' || c == '\U{2029}'
  }

  // ---------------------------------------------------------------------
  // Specification of the ready pattern
  // ---------------------------------------------------------------------

  /** `s[lo..hi]` matches `\d+`. */
  ghost predicate DigitsIn(s: string, lo: nat, hi: nat)
    requires lo <= hi <= |s|
  {
    lo < hi && forall m :: lo <= m < hi ==> IsDigit(s[m])
  }

  /** The separator before a digit group that `g - 1` more groups follow: `:` before the port, `.` in the host. */
  function Separator(g: nat): char { if g == 1 then ':' else '.' }

  /** `s[lo..hi]` matches `\d+` followed by `g` groups, each a `Separator` and `\d+`. */
  ghost predicate GroupsIn(s: string, lo: nat, hi: nat, g: nat)
    requires lo <= hi <= |s|
    decreases g
  {
    if g == 0 then DigitsIn(s, lo, hi)
    else exists k :: lo < k < hi && s[k] == Separator(g) && DigitsIn(s, lo, k) && GroupsIn(s, k + 1, hi, g - 1)
  }

  /** `t` matches `\d+\.\d+\.\d+\.\d+:\d+`. */
  ghost predicate AddrShape(t: string) { GroupsIn(t, 0, |t|, AddrGroups) }

  ghost predicate NoLineTerminator(s: string, lo: nat, hi: nat)
    requires hi <= |s|
  {
    forall k :: lo <= k < hi ==> !IsLineTerminator(s[k])
  }

  /** `p` stands in `s` at index `k`. */
  predicate TextAt(s: string, k: nat, p: string) {
    k + |p| <= |s| && s[k..k + |p|] == p
  }

  /**
   * The ready pattern matches `s` with the marker at `i`, `addr=` at `j` and
   * the captured address spanning `s[j + |AddrKey|..e]`.
   */
  ghost predicate ReadyMatch(s: string, i: nat, j: nat, e: nat) {
    && i + |Marker| <= j && j + |AddrKey| <= e <= |s|
    && TextAt(s, i, Marker)
    && NoLineTerminator(s, i + |Marker|, j)
    && TextAt(s, j, AddrKey)
    && GroupsIn(s, j + |AddrKey|, e, AddrGroups)
  }

  /** The match a JavaScript `String.prototype.match` reports: leftmost, then greedy. */
  ghost predicate PreferredMatch(s: string, i: nat, j: nat, e: nat) {
    && ReadyMatch(s, i, j, e)
    && (forall i': nat, j': nat, e': nat :: ReadyMatch(s, i', j', e') ==> i <= i')
    && (forall j': nat, e': nat :: ReadyMatch(s, i, j', e') ==> j' <= j)
    && (forall e': nat :: ReadyMatch(s, i, j, e') ==> e' <= e)
  }

  /** `p` occurs in `s`: the regex `/address already in use/` for `p == InUseText`. */
  ghost predicate Occurs(p: string, s: string) {
    exists k: nat :: TextAt(s, k, p)
  }

  // ---------------------------------------------------------------------
  // Scanner
  // ---------------------------------------------------------------------

  /** Length of the longest run of digits starting at `k`. */
  function DigitRun(s: string, k: nat): (n: nat)
    requires k <= |s|
    ensures k + n <= |s|
    ensures forall m :: k <= m < k + n ==> IsDigit(s[m])
    ensures k + n == |s| || !IsDigit(s[k + n])
    decreases |s| - k
  {
    if k < |s| && IsDigit(s[k]) then 1 + DigitRun(s, k + 1) else 0
  }

  /** End of the greedy match, at `k`, of `\d+` followed by `g` separated groups. */
  function GroupsEnd(s: string, k: nat, g: nat): (r: Option<nat>)
    requires k <= |s|
    ensures r.Some? ==> k < r.value <= |s|
    decreases g
  {
    var n := DigitRun(s, k);
    if n == 0 then None
    else if g == 0 then Some(k + n)
    else if k + n < |s| && s[k + n] == Separator(g) then GroupsEnd(s, k + n + 1, g - 1)
    else None
  }

  /** End of the captured address when `addr=` and the address shape follow at `j`. */
  function AddrEndAt(s: string, j: nat): Option<nat> {
    if TextAt(s, j, AddrKey) then GroupsEnd(s, j + |AddrKey|, AddrGroups) else None
  }

  /** Index of the first line terminator at or after `k`, or `|s|`. */
  function LineEnd(s: string, k: nat): (r: nat)
    requires k <= |s|
    ensures k <= r <= |s|
    ensures NoLineTerminator(s, k, r)
    ensures r == |s| || IsLineTerminator(s[r])
    decreases |s| - k
  {
    if k == |s| || IsLineTerminator(s[k]) then k else LineEnd(s, k + 1)
  }

  /** The first `k` in `[lo, hi]` that satisfies `p`. */
  function FirstWhere(p: nat -> bool, lo: nat, hi: nat): (r: Option<nat>)
    ensures r.Some? ==> lo <= r.value <= hi && p(r.value)
    ensures r.Some? ==> forall k :: lo <= k < r.value ==> !p(k)
    ensures r.None? ==> forall k :: lo <= k <= hi ==> !p(k)
    decreases hi + 1 - lo
  {
    if lo > hi then None
    else if p(lo) then Some(lo)
    else FirstWhere(p, lo + 1, hi)
  }

  /** The last `k` in `[lo, hi]` that satisfies `p`. */
  function LastWhere(p: nat -> bool, lo: nat, hi: nat): (r: Option<nat>)
    ensures r.Some? ==> lo <= r.value <= hi && p(r.value)
    ensures r.Some? ==> forall k :: r.value < k <= hi ==> !p(k)
    ensures r.None? ==> forall k :: lo <= k <= hi ==> !p(k)
    decreases hi
  {
    if lo > hi then None
    else if p(hi) then Some(hi)
    else if hi == lo then None
    else LastWhere(p, lo, hi - 1)
  }

  /** The positions at which an address follows. */
  function AddrFound(s: string): nat -> bool {
    (j: nat) => AddrEndAt(s, j).Some?
  }

  /** Where `addr=` is taken when the marker stands at `i`: the last address on the marker's line. */
  function ReadyAt(s: string, i: nat): Option<nat> {
    if TextAt(s, i, Marker) then LastWhere(AddrFound(s), i + |Marker|, LineEnd(s, i + |Marker|)) else None
  }

  /** The marker positions from which the pattern matches. */
  function ReadyFound(s: string): nat -> bool {
    (i: nat) => ReadyAt(s, i).Some?
  }

  /** The capture of the ready pattern when its marker stands at `i`. */
  function CaptureAt(s: string, i: nat): (r: Option<string>)
    ensures r.Some? ==> AddrShape(r.value)
  {
    match ReadyAt(s, i)
    case None => None
    case Some(j) =>
      match AddrEndAt(s, j)
      case None => None
      case Some(e) =>
        if j + |AddrKey| <= e <= |s| then
          AddrEndShape(s, j, e);
          Some(s[j + |AddrKey|..e])
        else None
  }

  /** The capture of the ready pattern in `s`, if it matches. */
  function ReadyAddr(s: string): (r: Option<string>)
    ensures r.Some? ==> AddrShape(r.value)
  {
    match FirstWhere(ReadyFound(s), 0, |s|)
    case None => None
    case Some(i) => CaptureAt(s, i)
  }

  /** The positions at which `p` stands in `s`. */
  function TextFound(s: string, p: string): nat -> bool {
    (k: nat) => TextAt(s, k, p)
  }

  /** The first occurrence of `p` in `s`. */
  function Find(s: string, p: string): (r: Option<nat>)
    ensures r.Some? ==> TextAt(s, r.value, p) && forall k: nat :: k < r.value ==> !TextAt(s, k, p)
    ensures r.None? ==> forall k: nat :: k <= |s| ==> !TextAt(s, k, p)
  {
    assert forall k: nat :: TextFound(s, p)(k) == TextAt(s, k, p);
    FirstWhere(TextFound(s, p), 0, |s|)
  }

  // ---------------------------------------------------------------------
  // Scanner correctness
  // ---------------------------------------------------------------------

  lemma {:induction false} GroupsEndSound(s: string, k: nat, g: nat)
    requires k <= |s| && GroupsEnd(s, k, g).Some?
    ensures GroupsIn(s, k, GroupsEnd(s, k, g).value, g)
    decreases g
  {
    var n := DigitRun(s, k);
    var e := GroupsEnd(s, k, g).value;
    if g == 0 {
      assert e == k + n;
    } else {
      assert GroupsEnd(s, k, g) == GroupsEnd(s, k + n + 1, g - 1);
      GroupsEndSound(s, k + n + 1, g - 1);
      GroupsWitness(s, k, k + n, e, g);
    }
  }

  /** A run of digits from `k` to `m` is covered by DigitRun, which stops exactly at a non-digit `s[m]`. */
  lemma {:induction false} DigitRunCovers(s: string, k: nat, m: nat)
    requires k <= m <= |s|
    requires forall q :: k <= q < m ==> IsDigit(s[q])
    ensures m <= k + DigitRun(s, k)
    ensures m < |s| && !IsDigit(s[m]) ==> DigitRun(s, k) == m - k
  {
  }

  /** The greedy digit run reaches at least as far as any run of digits from `k`. */
  lemma {:induction false} DigitsEndComplete(s: string, k: nat, e: nat)
    requires k <= e <= |s| && DigitsIn(s, k, e)
    ensures GroupsEnd(s, k, 0).Some? && e <= GroupsEnd(s, k, 0).value
  {
    DigitRunCovers(s, k, e);
  }

  /** Digits up to a separator at `m`: the greedy run stops there and the next groups start after it. */
  lemma {:induction false} GroupsEndStep(s: string, k: nat, m: nat, g: nat)
    requires k < m < |s| && g > 0
    requires DigitsIn(s, k, m) && s[m] == Separator(g)
    ensures GroupsEnd(s, k, g) == GroupsEnd(s, m + 1, g - 1)
  {
    DigitRunCovers(s, k, m);
  }

  lemma {:induction false} GroupsEndComplete(s: string, k: nat, e: nat, g: nat)
    requires k <= e <= |s|
    requires GroupsIn(s, k, e, g)
    ensures GroupsEnd(s, k, g).Some? && e <= GroupsEnd(s, k, g).value
    decreases g, 1
  {
    if g == 0 {
      DigitsEndComplete(s, k, e);
    } else {
      var m :| k < m < e && s[m] == Separator(g) && DigitsIn(s, k, m) && GroupsIn(s, m + 1, e, g - 1);
      GroupsEndCompleteAt(s, k, m, e, g);
    }
  }

  /** GroupsEndComplete once the first separator of the match, at `m`, is known. */
  lemma {:induction false} GroupsEndCompleteAt(s: string, k: nat, m: nat, e: nat, g: nat)
    requires k < m < e <= |s| && g > 0
    requires s[m] == Separator(g) && DigitsIn(s, k, m) && GroupsIn(s, m + 1, e, g - 1)
    ensures GroupsEnd(s, k, g).Some? && e <= GroupsEnd(s, k, g).value
    decreases g, 0
  {
    GroupsEndComplete(s, m + 1, e, g - 1);
    GroupsEndStep(s, k, m, g);
  }

  /** Digit runs survive cutting the string down to `s[a..b]`. */
  lemma {:induction false} DigitsShift(s: string, a: nat, b: nat, lo: nat, hi: nat)
    requires a <= lo <= hi <= b <= |s|
    requires DigitsIn(s, lo, hi)
    ensures DigitsIn(s[a..b], lo - a, hi - a)
  {
    forall m | lo - a <= m < hi - a
      ensures IsDigit(s[a..b][m])
    {
      assert s[a..b][m] == s[m + a];
    }
  }

  /** A separator at `k` between digits and `g - 1` further groups gives `g` groups. */
  lemma {:induction false} GroupsWitness(t: string, lo: nat, k: nat, hi: nat, g: nat)
    requires lo < k < hi <= |t| && g > 0
    requires t[k] == Separator(g) && DigitsIn(t, lo, k) && GroupsIn(t, k + 1, hi, g - 1)
    ensures GroupsIn(t, lo, hi, g)
  {
  }

  /** Address groups survive cutting the string down to `s[a..b]`. */
  lemma {:induction false} GroupsShift(s: string, a: nat, b: nat, lo: nat, hi: nat, g: nat)
    requires a <= lo <= hi <= b <= |s|
    requires GroupsIn(s, lo, hi, g)
    ensures GroupsIn(s[a..b], lo - a, hi - a, g)
    decreases g, 1
  {
    if g == 0 {
      DigitsShift(s, a, b, lo, hi);
    } else {
      var k :| lo < k < hi && s[k] == Separator(g) && DigitsIn(s, lo, k) && GroupsIn(s, k + 1, hi, g - 1);
      GroupsShiftAt(s, a, b, lo, k, hi, g);
    }
  }

  /** GroupsShift once the first separator, at `k`, is known. */
  lemma {:induction false} GroupsShiftAt(s: string, a: nat, b: nat, lo: nat, k: nat, hi: nat, g: nat)
    requires a <= lo < k < hi <= b <= |s| && g > 0
    requires s[k] == Separator(g) && DigitsIn(s, lo, k) && GroupsIn(s, k + 1, hi, g - 1)
    ensures GroupsIn(s[a..b], lo - a, hi - a, g)
    decreases g, 0
  {
    DigitsShift(s, a, b, lo, k);
    GroupsShift(s, a, b, k + 1, hi, g - 1);
    GroupsWitness(s[a..b], lo - a, k - a, hi - a, g);
  }

  /** Address groups spanning `s[a..b]` make `s[a..b]` an address. */
  lemma {:induction false} CaptureShape(s: string, a: nat, b: nat)
    requires a <= b <= |s| && GroupsIn(s, a, b, AddrGroups)
    ensures AddrShape(s[a..b])
  {
    GroupsShift(s, a, b, a, b, AddrGroups);
    assert |s[a..b]| == b - a;
  }

  /** The text an address found by AddrEndAt spans is an address. */
  lemma {:induction false} AddrEndShape(s: string, j: nat, e: nat)
    requires AddrEndAt(s, j) == Some(e) && j + |AddrKey| <= e <= |s|
    ensures AddrShape(s[j + |AddrKey|..e])
  {
    GroupsEndSound(s, j + |AddrKey|, AddrGroups);
    CaptureShape(s, j + |AddrKey|, e);
  }

  /** A match at `i`, `j` forces an address at `j`, on the marker's line, no shorter than its capture. */
  lemma {:induction false} MatchBounds(s: string, i: nat, j: nat, e: nat)
    requires ReadyMatch(s, i, j, e)
    ensures TextAt(s, i, Marker)
    ensures j <= LineEnd(s, i + |Marker|)
    ensures AddrEndAt(s, j).Some? && e <= AddrEndAt(s, j).value
  {
    AddrEndComplete(s, j, e);
    LineEndCovers(s, i + |Marker|, j);
  }

  /** An address ending at `e` after `addr=` at `j` is found by AddrEndAt, at least as long. */
  lemma {:induction false} AddrEndComplete(s: string, j: nat, e: nat)
    requires TextAt(s, j, AddrKey) && j + |AddrKey| <= e <= |s|
    requires GroupsIn(s, j + |AddrKey|, e, AddrGroups)
    ensures AddrEndAt(s, j).Some? && e <= AddrEndAt(s, j).value
  {
    GroupsEndComplete(s, j + |AddrKey|, e, AddrGroups);
  }

  /** A stretch free of line terminators lies within the line. */
  lemma {:induction false} LineEndCovers(s: string, k: nat, j: nat)
    requires k <= j <= |s| && NoLineTerminator(s, k, j)
    ensures j <= LineEnd(s, k)
  {
  }

  /** An address reachable on the marker's line gives a match. */
  lemma {:induction false} AddrGivesMatch(s: string, i: nat, j: nat)
    requires TextAt(s, i, Marker)
    requires i + |Marker| <= j <= LineEnd(s, i + |Marker|)
    requires AddrEndAt(s, j).Some?
    ensures ReadyMatch(s, i, j, AddrEndAt(s, j).value)
  {
    GroupsEndSound(s, j + |AddrKey|, AddrGroups);
  }

  /** ReadyAt decides the matches that start at `i` and picks the greedy one. */
  lemma {:induction false} ReadyAtCorrect(s: string, i: nat)
    ensures ReadyAt(s, i).None? ==> forall j: nat, e: nat :: !ReadyMatch(s, i, j, e)
    ensures ReadyAt(s, i).Some? ==>
      var j := ReadyAt(s, i).value;
      && AddrEndAt(s, j).Some?
      && ReadyMatch(s, i, j, AddrEndAt(s, j).value)
      && (forall j': nat, e': nat :: ReadyMatch(s, i, j', e') ==> j' <= j)
      && (forall e': nat :: ReadyMatch(s, i, j, e') ==> e' <= AddrEndAt(s, j).value)
  {
    forall j: nat, e: nat | ReadyMatch(s, i, j, e)
      ensures ReadyAt(s, i).Some? && j <= ReadyAt(s, i).value
      ensures AddrEndAt(s, j).Some? && e <= AddrEndAt(s, j).value
    {
      MatchBounds(s, i, j, e);
      assert AddrFound(s)(j);
    }
    if ReadyAt(s, i).Some? {
      var j := ReadyAt(s, i).value;
      assert AddrFound(s)(j);
      AddrGivesMatch(s, i, j);
    }
  }

  /** The first marker position the scanner accepts lies at or before every match. */
  lemma {:induction false} FirstReadyLeftmost(s: string)
    ensures forall i: nat, j: nat, e: nat :: ReadyMatch(s, i, j, e) ==>
      FirstWhere(ReadyFound(s), 0, |s|).Some? && FirstWhere(ReadyFound(s), 0, |s|).value <= i
  {
    forall i: nat, j: nat, e: nat | ReadyMatch(s, i, j, e)
      ensures FirstWhere(ReadyFound(s), 0, |s|).Some? && FirstWhere(ReadyFound(s), 0, |s|).value <= i
    {
      ReadyAtCorrect(s, i);
      assert ReadyFound(s)(i);
    }
  }

  /** From the first accepted marker position the scanner takes the preferred match. */
  lemma {:induction false} FirstReadyPreferred(s: string, i: nat)
    requires FirstWhere(ReadyFound(s), 0, |s|) == Some(i)
    ensures ReadyAt(s, i).Some? && AddrEndAt(s, ReadyAt(s, i).value).Some?
    ensures PreferredMatch(s, i, ReadyAt(s, i).value, AddrEndAt(s, ReadyAt(s, i).value).value)
  {
    assert ReadyFound(s)(i);
    ReadyAtCorrect(s, i);
    FirstReadyLeftmost(s);
  }

  lemma {:induction false} CaptureAtSpan(s: string, i: nat)
    requires ReadyAt(s, i).Some? && AddrEndAt(s, ReadyAt(s, i).value).Some?
    ensures CaptureAt(s, i) == Some(s[ReadyAt(s, i).value + |AddrKey|..AddrEndAt(s, ReadyAt(s, i).value).value])
  {
  }

  lemma {:induction false} ReadyAddrFrom(s: string, i: nat)
    requires FirstWhere(ReadyFound(s), 0, |s|) == Some(i)
    requires ReadyAt(s, i).Some? && AddrEndAt(s, ReadyAt(s, i).value).Some?
    ensures ReadyAddr(s) == Some(s[ReadyAt(s, i).value + |AddrKey|..AddrEndAt(s, ReadyAt(s, i).value).value])
  {
    CaptureAtSpan(s, i);
  }

  /** The scanner reports a capture exactly when the pattern matches, and then the preferred one. */
  lemma {:induction false} ReadyAddrCorrect(s: string)
    ensures ReadyAddr(s).None? <==> forall i: nat, j: nat, e: nat :: !ReadyMatch(s, i, j, e)
    ensures ReadyAddr(s).Some? ==>
      exists i: nat, j: nat, e: nat :: PreferredMatch(s, i, j, e) && ReadyAddr(s).value == s[j + |AddrKey|..e]
    ensures ReadyAddr(s).Some? ==> AddrShape(ReadyAddr(s).value)
  {
    FirstReadyLeftmost(s);
    match FirstWhere(ReadyFound(s), 0, |s|)
    case None =>
    case Some(i) =>
      FirstReadyPreferred(s, i);
      var j := ReadyAt(s, i).value;
      var e := AddrEndAt(s, j).value;
      ReadyAddrFrom(s, i);
      assert PreferredMatch(s, i, j, e) && ReadyAddr(s).value == s[j + |AddrKey|..e];
      CaptureShape(s, j + |AddrKey|, e);
  }

  lemma {:induction false} FindCorrect(s: string, p: string)
    ensures Find(s, p).Some? <==> Occurs(p, s)
  {
    if Occurs(p, s) {
      var k: nat :| TextAt(s, k, p);
      assert TextFound(s, p)(k);
    }
    if Find(s, p).Some? {
      assert TextFound(s, p)(Find(s, p).value);
    }
  }

  // ---------------------------------------------------------------------
  // Classification
  // ---------------------------------------------------------------------

  /** `s[..min(|s|, 10000)]`: JavaScript's `substring(0, 10000)`. */
  function Truncate(s: string): (r: string)
    ensures |r| <= MaxMessage
    ensures r <= s
    ensures |s| <= MaxMessage ==> r == s
    ensures |s| > MaxMessage ==> |r| == MaxMessage
  {
    if |s| <= MaxMessage then s else s[..MaxMessage]
  }

  datatype ChunkEvent = Ready(addr: string) | InUse(message: string) | NoEvent

  /**
   * What one chunk of standard output signals to the pending start attempt:
   * the ready pattern is tested first, the in-use text only when it fails.
   */
  function ClassifyStdout(chunk: string): (r: ChunkEvent)
    ensures r.Ready? ==> AddrShape(r.addr)
    ensures r.InUse? ==> Occurs(InUseText, chunk) && r.message == Truncate(chunk)
    ensures r.NoEvent? ==> !Occurs(InUseText, chunk)
  {
    match ReadyAddr(chunk)
    case Some(addr) => Ready(addr)
    case None => if Find(chunk, InUseText).Some? then InUse(Truncate(chunk)) else NoEvent
  }

  /** ClassifyStdout reports the ready pattern's capture and, failing a match, the in-use text. */
  lemma {:induction false} ClassifyStdoutCorrect(chunk: string)
    ensures ClassifyStdout(chunk).Ready? <==> exists i: nat, j: nat, e: nat :: ReadyMatch(chunk, i, j, e)
    ensures ClassifyStdout(chunk).Ready? ==>
      exists i: nat, j: nat, e: nat :: PreferredMatch(chunk, i, j, e) && ClassifyStdout(chunk).addr == chunk[j + |AddrKey|..e]
    ensures ClassifyStdout(chunk).Ready? ==> AddrShape(ClassifyStdout(chunk).addr)
    ensures ClassifyStdout(chunk).InUse? <==>
      (forall i: nat, j: nat, e: nat :: !ReadyMatch(chunk, i, j, e)) && Occurs(InUseText, chunk)
    ensures ClassifyStdout(chunk).InUse? ==>
      ClassifyStdout(chunk).message == Truncate(chunk) && |ClassifyStdout(chunk).message| <= MaxMessage
  {
    ReadyAddrCorrect(chunk);
    FindCorrect(chunk, InUseText);
  }
}
