/**
 * `dirNameToReadableTime` (src/components/TimeMachine.js:8-10): the string
 * method `replace` with the regular expression
 * `(\d{4})(\d{2})(\d{2})(\d{2})(\d{2})\d+` (no `g` flag) and the replacement
 * `$1-$2-$3 $4:$5`. The pattern matches 12 digits followed by at least one
 * more, so it matches exactly where 13 digits start; JavaScript takes the
 * leftmost such position, the final `\d+` is greedy, and only that first match
 * is replaced.
 */
module ReadableTime {
  import opened Wrappers
  import opened Digits

  /** Digits the pattern needs at its start: five groups (4+2+2+2+2) and one for `\d+`. */
  const MatchLength: nat := 13

  /** `k` digits start at position `p` of `s`. */
  predicate DigitsAt(s: string, p: nat, k: nat) {
    p + k <= |s| && forall j :: p <= j < p + k ==> IsDigit(s[j])
  }

  /** The pattern can match at `p`. */
  predicate MatchesAt(s: string, p: nat) {
    DigitsAt(s, p, MatchLength)
  }

  /** The leftmost position at or after `from` where the pattern matches. */
  function FirstMatch(s: string, from: nat): (r: Option<nat>)
    requires from <= |s|
    ensures r.Some? ==> from <= r.value && MatchesAt(s, r.value)
    ensures r.Some? ==> forall q: nat :: from <= q < r.value ==> !MatchesAt(s, q)
    ensures r.None? ==> forall q: nat :: from <= q ==> !MatchesAt(s, q)
    decreases |s| - from
  {
    if from + MatchLength > |s| then None
    else if MatchesAt(s, from) then Some(from)
    else FirstMatch(s, from + 1)
  }

  /** Where the greedy `\d+` starting at `p` stops: the end of the digit run. */
  function RunEnd(s: string, p: nat): (e: nat)
    requires p <= |s|
    ensures p <= e <= |s|
    ensures forall j :: p <= j < e ==> IsDigit(s[j])
    ensures e == |s| || !IsDigit(s[e])
    decreases |s| - p
  {
    if p < |s| && IsDigit(s[p]) then RunEnd(s, p + 1) else p
  }

  /** The replacement `$1-$2-$3 $4:$5` for the captured twelve digits `d`. */
  function Replacement(d: string): string
    requires |d| >= 12
  {
    d[0..4] + "-" + d[4..6] + "-" + d[6..8] + " " + d[8..10] + ":" + d[10..12]
  }

  /**
   * `dirNameToReadableTime`: the first, leftmost run of at least 13 digits has
   * its first twelve reformatted and the rest of the run dropped.
   */
  function DirNameToReadableTime(n: string): string {
    match FirstMatch(n, 0)
    case None => n
    case Some(p) => n[..p] + Replacement(n[p..p + 12]) + n[RunEnd(n, p + 12)..]
  }

  /** Without 13 consecutive digits the string comes back unchanged. */
  lemma NoMatchUnchanged(n: string)
    requires forall p: nat :: !MatchesAt(n, p)
    ensures DirNameToReadableTime(n) == n
  {
  }

  /**
   * The rewrite, characterised independently of the search: the match starts
   * at the leftmost `p` where 13 digits start and ends at the end `e` of that
   * digit run; the first twelve digits are reformatted and the rest of the run
   * is dropped.
   */
  lemma MatchRewritten(n: string, p: nat, e: nat)
    requires MatchesAt(n, p) && forall q: nat :: q < p ==> !MatchesAt(n, q)
    requires p + MatchLength <= e <= |n|
    requires forall j :: p <= j < e ==> IsDigit(n[j])
    requires e == |n| || !IsDigit(n[e])
    ensures DirNameToReadableTime(n) == n[..p] + Replacement(n[p..p + 12]) + n[e..]
  {
  }

  /** A catalog id (all digits, at least 13 of them) becomes `YYYY-MM-DD HH:MM`; digits past the minutes are dropped. */
  lemma {:induction false} IdRewritten(id: string)
    requires AllDigits(id) && |id| >= MatchLength
    ensures DirNameToReadableTime(id)
         == id[0..4] + "-" + id[4..6] + "-" + id[6..8] + " " + id[8..10] + ":" + id[10..12]
  {
    MatchRewritten(id, 0, |id|);
    assert id[..0] == [] && id[|id|..] == [];
    assert id[0..12][0..4] == id[0..4] && id[0..12][4..6] == id[4..6] && id[0..12][6..8] == id[6..8];
    assert id[0..12][8..10] == id[8..10] && id[0..12][10..12] == id[10..12];
  }

  /** The five digit fields of a `YYYY-MM-DD HH:MM` string, separators removed. */
  function Fields(t: string): string
    requires |t| >= 16
  {
    t[0..4] + t[5..7] + t[8..10] + t[11..13] + t[14..16]
  }

  /**
   * The readable form of an id has the exact shape `DDDD-DD-DD DD:DD` and
   * keeps the id's first twelve digits in order.
   */
  lemma IdReadableShape(id: string)
    requires AllDigits(id) && |id| >= MatchLength
    ensures var t := DirNameToReadableTime(id);
      && |t| == 16
      && t[4] == '-' && t[7] == '-' && t[10] == ' ' && t[13] == ':'
      && Fields(t) == id[..12]
      && forall k :: 0 <= k < 16 && k !in {4, 7, 10, 13} ==> IsDigit(t[k])
  {
    IdRewritten(id);
    var t := DirNameToReadableTime(id);
    assert Fields(t) == id[0..4] + id[4..6] + id[6..8] + id[8..10] + id[10..12];
    assert id[..12] == id[0..4] + id[4..6] + id[6..8] + id[8..10] + id[10..12];
  }

  /** Reformatting an already readable id changes nothing more. */
  lemma IdReadableIdempotent(id: string)
    requires AllDigits(id) && |id| >= MatchLength
    ensures DirNameToReadableTime(DirNameToReadableTime(id)) == DirNameToReadableTime(id)
  {
    IdReadableShape(id);
    var t := DirNameToReadableTime(id);
    forall p: nat ensures !MatchesAt(t, p) {
      if p <= 4 {
        assert !IsDigit(t[4]);
      }
    }
    NoMatchUnchanged(t);
  }

  /** The first catalog id, as the widget shows it. */
  lemma FirstIdExample()
    ensures DirNameToReadableTime("20190324181931") == "2019-03-24 18:19"
  {
    IdRewritten("20190324181931");
  }
}
