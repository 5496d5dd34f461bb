/**
 * The byte-pattern patcher: parsing of "find" and "replace" hex strings
 * (with `??` wildcards) and the two in-memory searches over one chunk of a
 * file, the exact-byte search and the wildcard search.
 */
module HexPatch {
  import opened Wrappers
  import opened Ints

  /** A search or replacement pattern: `None` is the `??` wildcard. */
  type Pattern = seq<Option<u8>>

  /** A search stops collecting once it holds this many matches. */
  const MaxMatchesPerChunk: nat := 1000

  datatype InvalidReason = OddLength | InvalidWildcard | InvalidByte(pair: string)

  datatype HexPatchError =
    | EmptyHexStrings
    | HexStringLengthMismatch
    | InvalidHexString(reason: InvalidReason)
    | HexNotFound
    | InvalidInput

  // ---------------------------------------------------------------------
  // Parsing
  // ---------------------------------------------------------------------

  function Upper(c: char): (u: char)
    ensures !('a' <= u <= 'z')
    ensures 'a' <= c <= 'z' ==> u as int == c as int - 32
    ensures !('a' <= c <= 'z') ==> u == c
  {
    if 'a' <= c <= 'z' then (c as int - 32) as char else c
  }

  /** The string with every space removed and every ASCII letter in upper case. */
  function Clean(hex: string): (c: string)
    ensures |c| <= |hex|
    ensures forall i | 0 <= i < |c| :: c[i] != ' ' && !('a' <= c[i] <= 'z')
  {
    if |hex| == 0 then []
    else (if hex[0] == ' ' then [] else [Upper(hex[0])]) + Clean(hex[1..])
  }

  function HexDigit(c: char): (d: Option<nat>)
    ensures d.Some? ==> d.value < 16
  {
    if '0' <= c <= '9' then Some(c as int - '0' as int)
    else if 'A' <= c <= 'F' then Some(c as int - 'A' as int + 10)
    else if 'a' <= c <= 'f' then Some(c as int - 'a' as int + 10)
    else None
  }

  /**
   * The byte a two-character string denotes in base 16, as the standard
   * library's `UInt8(_:radix:)` reads it: two digits, or one digit after a
   * `+` sign, or `-0`; anything else is not a byte.
   */
  function PairByte(a: char, b: char): (r: Option<u8>)
    ensures HexDigit(a).Some? && HexDigit(b).Some? ==> r == Some(16 * HexDigit(a).value + HexDigit(b).value)
    ensures HexDigit(b).None? ==> r.None?
    ensures a !in "+-" && HexDigit(a).None? ==> r.None?
  {
    if HexDigit(a).Some? && HexDigit(b).Some? then Some(16 * HexDigit(a).value + HexDigit(b).value)
    else if a == '+' && HexDigit(b).Some? then Some(HexDigit(b).value)
    else if a == '-' && b == '0' then Some(0)
    else None
  }

  /** Pair `k` of a cleaned string: `Some(None)` for `??`, `Some(Some(b))` for a byte, `None` if invalid. */
  function PairValue(c: string, k: nat): Option<Option<u8>>
    requires k < |c| / 2
  {
    if c[2 * k] == '?' && c[2 * k + 1] == '?' then Some(None)
    else match PairByte(c[2 * k], c[2 * k + 1])
      case Some(b) => Some(Some(b))
      case None => None
  }

  /**
   * Pair `k` is accepted: it is a byte, or it is `??` and, in a replacement,
   * the find pattern has a wildcard at the same index.
   */
  predicate PairAccepted(c: string, k: nat, isReplacement: bool, original: Option<Pattern>)
    requires k < |c| / 2
  {
    match PairValue(c, k)
    case None => false
    case Some(None) => !isReplacement || (original.Some? && k < |original.value| && original.value[k].None?)
    case Some(Some(_)) => true
  }

  /** Pair `k` is the first pair that is not accepted. */
  predicate FirstRejected(c: string, k: nat, isReplacement: bool, original: Option<Pattern>)
    requires k < |c| / 2
  {
    && !PairAccepted(c, k, isReplacement, original)
    && forall j | 0 <= j < k :: PairAccepted(c, j, isReplacement, original)
  }

  /** The error the parser reports for a pair that is not accepted. */
  function PairError(c: string, k: nat): InvalidReason
    requires k < |c| / 2
  {
    if c[2 * k] == '?' && c[2 * k + 1] == '?' then InvalidWildcard else InvalidByte(c[2 * k..2 * k + 2])
  }

  predicate AllPairsAccepted(c: string, isReplacement: bool, original: Option<Pattern>)
  {
    forall k | 0 <= k < |c| / 2 :: PairAccepted(c, k, isReplacement, original)
  }

  /** A cleaned string the parser accepts: non-empty, of even length, every pair accepted. */
  predicate Parses(c: string, isReplacement: bool, original: Option<Pattern>)
  {
    |c| > 0 && |c| % 2 == 0 && AllPairsAccepted(c, isReplacement, original)
  }

  /**
   * The error the parser reports for a cleaned string it refuses: empty,
   * then odd length, then the first pair not accepted.
   */
  predicate RejectedWith(c: string, isReplacement: bool, original: Option<Pattern>, e: HexPatchError)
  {
    if |c| == 0 then e == EmptyHexStrings
    else if |c| % 2 == 1 then e == InvalidHexString(OddLength)
    else exists k | 0 <= k < |c| / 2 :: FirstRejected(c, k, isReplacement, original) && e == InvalidHexString(PairError(c, k))
  }

  /** A refused string has one error: there is only one first pair that is not accepted. */
  lemma RejectedWithUnique(c: string, isReplacement: bool, original: Option<Pattern>, e1: HexPatchError, e2: HexPatchError)
    requires RejectedWith(c, isReplacement, original, e1) && RejectedWith(c, isReplacement, original, e2)
    ensures e1 == e2
  {
  }

  /** The pattern a cleaned string of accepted pairs denotes. */
  function Decoded(c: string): (p: Pattern)
    ensures |p| == |c| / 2
  {
    seq(|c| / 2, k requires 0 <= k < |c| / 2 => if PairValue(c, k).Some? then PairValue(c, k).value else None)
  }

  /**
   * Parses a find or replacement hex string. Spaces are dropped and letters
   * (ASCII) folded to upper case; an empty or odd-length string is refused; then
   * each pair is a byte or a `??` wildcard, and the first pair that is
   * neither, or a replacement wildcard with no wildcard under it in the
   * find pattern, is reported.
   */
  method ParseHexPattern(hex: string, isReplacement: bool, original: Option<Pattern>)
    returns (r: Result<Pattern, HexPatchError>)
    ensures r == Failure(EmptyHexStrings) <==> |Clean(hex)| == 0
    ensures |Clean(hex)| > 0 && |Clean(hex)| % 2 == 1 ==> r == Failure(InvalidHexString(OddLength))
    ensures r.Success? <==>
      |Clean(hex)| > 0 && |Clean(hex)| % 2 == 0 && AllPairsAccepted(Clean(hex), isReplacement, original)
    ensures r.Success? ==> r.value == Decoded(Clean(hex))
    ensures r.Failure? && |Clean(hex)| > 0 && |Clean(hex)| % 2 == 0 ==>
      exists k | 0 <= k < |Clean(hex)| / 2 :: FirstRejected(Clean(hex), k, isReplacement, original)
        && r == Failure(InvalidHexString(PairError(Clean(hex), k)))
  {
    var cleanHex := Clean(hex);
    if |cleanHex| == 0 {
      return Failure(EmptyHexStrings);
    }
    if |cleanHex| % 2 != 0 {
      return Failure(InvalidHexString(OddLength));
    }
    r := ParsePairs(cleanHex, isReplacement, original);
  }

  /** The pair-by-pair loop of `ParseHexPattern`, over a cleaned string of even length. */
  method ParsePairs(c: string, isReplacement: bool, original: Option<Pattern>)
    returns (r: Result<Pattern, HexPatchError>)
    requires |c| % 2 == 0
    ensures r.Success? <==> AllPairsAccepted(c, isReplacement, original)
    ensures r.Success? ==> r.value == Decoded(c)
    ensures r.Failure? ==>
      exists k | 0 <= k < |c| / 2 :: FirstRejected(c, k, isReplacement, original)
        && r == Failure(InvalidHexString(PairError(c, k)))
  {
    var result: Pattern := [];
    var index := 0;
    while index < |c|
      invariant index == 2 * |result| <= |c|
      invariant forall j | 0 <= j < |result| :: PairAccepted(c, j, isReplacement, original)
      invariant forall j | 0 <= j < |result| :: PairValue(c, j) == Some(result[j])
    {
      ghost var k := |result|;
      assert k < |c| / 2;
      if c[index] == '?' && c[index + 1] == '?' {
        if isReplacement {
          if !(original.Some? && |result| < |original.value| && original.value[|result|].None?) {
            assert FirstRejected(c, k, isReplacement, original);
            return Failure(InvalidHexString(InvalidWildcard));
          }
        }
        result := result + [None];
      } else {
        var b := PairByte(c[index], c[index + 1]);
        if b.None? {
          assert FirstRejected(c, k, isReplacement, original);
          return Failure(InvalidHexString(InvalidByte(c[index..index + 2])));
        }
        result := result + [Some(b.value)];
      }
      index := index + 2;
    }
    assert forall k | 0 <= k < |c| / 2 :: Decoded(c)[k] == result[k];
    return Success(result);
  }

  /**
   * Checks one find/replace pair of a patch list before counting its
   * matches: both strings parse, and they denote patterns of the same length.
   */
  method ValidatePatch(findHex: string, replaceHex: string) returns (r: Result<(Pattern, Pattern), HexPatchError>)
    ensures r.Success? ==> |r.value.0| == |r.value.1| > 0
    ensures r.Success? ==> forall i | 0 <= i < |r.value.1| :: r.value.1[i].None? ==> r.value.0[i].None?
    ensures r.Success? ==> r.value.0 == Decoded(Clean(findHex)) && r.value.1 == Decoded(Clean(replaceHex))
    ensures r == Failure(HexStringLengthMismatch) ==> |Clean(findHex)| != |Clean(replaceHex)|
    ensures var f, c := Clean(findHex), Clean(replaceHex);
            r.Success? <==> Parses(f, false, None) && Parses(c, true, Some(Decoded(f))) && |f| == |c|
    ensures var f, c := Clean(findHex), Clean(replaceHex);
            Parses(f, false, None) && Parses(c, true, Some(Decoded(f))) && |f| != |c| ==> r == Failure(HexStringLengthMismatch)
    ensures var f := Clean(findHex);
            !Parses(f, false, None) ==> r.Failure? && RejectedWith(f, false, None, r.error)
    ensures var f, c := Clean(findHex), Clean(replaceHex);
            Parses(f, false, None) && !Parses(c, true, Some(Decoded(f))) ==>
              r.Failure? && RejectedWith(c, true, Some(Decoded(f)), r.error)
  {
    var pattern := ParseHexPattern(findHex, false, None);
    if pattern.Failure? {
      return Failure(pattern.error);
    }
    var replacement := ParseHexPattern(replaceHex, true, Some(pattern.value));
    if replacement.Failure? {
      return Failure(replacement.error);
    }
    if |pattern.value| != |replacement.value| {
      return Failure(HexStringLengthMismatch);
    }
    var rc := Clean(replaceHex);
    forall i | 0 <= i < |replacement.value| && replacement.value[i].None?
      ensures pattern.value[i].None?
    {
      assert PairAccepted(rc, i, true, Some(pattern.value));
      assert PairValue(rc, i) == Some(None);
    }
    return Success((pattern.value, replacement.value));
  }

  // ---------------------------------------------------------------------
  // Writing a pattern back as hex, for the parsing round trip
  // ---------------------------------------------------------------------

  function HexChar(d: nat): (ch: char)
    requires d < 16
    ensures HexDigit(ch) == Some(d)
    ensures ch != ' ' && ch != '?' && !('a' <= ch <= 'z')
  {
    if d < 10 then ('0' as int + d) as char else ('A' as int + d - 10) as char
  }

  function RenderOne(b: Option<u8>): (s: string)
    ensures |s| == 2
  {
    match b
    case None => "??"
    case Some(v) => [HexChar(v / 16), HexChar(v % 16)]
  }

  /** A pattern written out as upper-case hex pairs, `??` for a wildcard. */
  function Render(p: Pattern): (s: string)
    ensures |s| == 2 * |p|
  {
    if |p| == 0 then [] else RenderOne(p[0]) + Render(p[1..])
  }

  lemma {:induction false} RenderAt(p: Pattern, k: nat)
    requires k < |p|
    ensures Render(p)[2 * k] == RenderOne(p[k])[0] && Render(p)[2 * k + 1] == RenderOne(p[k])[1]
    decreases |p|
  {
    if k > 0 {
      RenderAt(p[1..], k - 1);
    }
  }

  lemma {:induction false} CleanIdentity(s: string)
    requires forall i | 0 <= i < |s| :: s[i] != ' ' && !('a' <= s[i] <= 'z')
    ensures Clean(s) == s
  {
    if |s| > 0 {
      CleanIdentity(s[1..]);
    }
  }

  lemma RenderClean(p: Pattern)
    ensures Clean(Render(p)) == Render(p)
  {
    var s := Render(p);
    forall i | 0 <= i < |s|
      ensures s[i] != ' ' && !('a' <= s[i] <= 'z')
    {
      RenderAt(p, i / 2);
    }
    CleanIdentity(s);
  }

  lemma RenderPair(p: Pattern, k: nat)
    requires k < |p|
    ensures PairValue(Render(p), k) == Some(p[k])
  {
    var s := Render(p);
    RenderAt(p, k);
    match p[k]
    case None =>
    case Some(v) =>
      HexPairOf(v);
  }

  /** The two hex digits written for a byte denote that byte. */
  lemma HexPairOf(v: u8)
    ensures PairByte(HexChar(v as nat / 16), HexChar(v as nat % 16)) == Some(v)
  {
    assert 16 * (v as nat / 16) + v as nat % 16 == v as nat;
  }

  /**
   * Parsing round trip: the hex rendering of any non-empty pattern is
   * accepted as a find pattern and denotes that same pattern.
   */
  lemma ParseRender(p: Pattern)
    requires |p| > 0
    ensures |Clean(Render(p))| > 0 && |Clean(Render(p))| % 2 == 0
    ensures AllPairsAccepted(Clean(Render(p)), false, None)
    ensures Decoded(Clean(Render(p))) == p
  {
    RenderClean(p);
    var s := Render(p);
    forall k | 0 <= k < |p|
      ensures PairValue(s, k) == Some(p[k])
    {
      RenderPair(p, k);
    }
    assert forall k | 0 <= k < |s| / 2 :: PairAccepted(s, k, false, None);
    assert forall k | 0 <= k < |p| :: Decoded(s)[k] == p[k];
  }

  // ---------------------------------------------------------------------
  // Searching
  // ---------------------------------------------------------------------

  /** The pattern matches `data` at offset `s`: every non-wildcard byte agrees. */
  predicate MatchesAt(data: seq<u8>, pat: Pattern, s: int)
  {
    0 <= s && s + |pat| <= |data| && forall i | 0 <= i < |pat| :: pat[i].Some? ==> data[s + i] == pat[i].value
  }

  predicate Increasing(xs: seq<nat>)
  {
    forall i, j | 0 <= i < j < |xs| :: xs[i] < xs[j]
  }

  /** The offsets in `[lo, hi)` where the pattern matches, in increasing order. */
  function MatchesIn(data: seq<u8>, pat: Pattern, lo: nat, hi: nat): seq<nat>
    decreases hi
  {
    if hi <= lo then []
    else MatchesIn(data, pat, lo, hi - 1) + (if MatchesAt(data, pat, hi - 1) then [hi - 1] else [])
  }

  predicate HasAnchor(pat: Pattern)
  {
    exists i | 0 <= i < |pat| :: pat[i].Some?
  }

  /**
   * Every offset where the pattern matches; a pattern made only of
   * wildcards (or empty) is reported as matching nowhere.
   */
  function AllMatches(data: seq<u8>, pat: Pattern): seq<nat>
  {
    if !HasAnchor(pat) || |data| < |pat| then [] else MatchesIn(data, pat, 0, |data| - |pat| + 1)
  }

  function Take(xs: seq<nat>, n: nat): (r: seq<nat>)
    ensures |r| <= n && r <= xs
    ensures |xs| <= n ==> r == xs
  {
    if |xs| <= n then xs else xs[..n]
  }

  function Shift(xs: seq<nat>, offset: nat): (r: seq<nat>)
    ensures |r| == |xs|
    ensures forall i | 0 <= i < |xs| :: r[i] == xs[i] + offset
  {
    seq(|xs|, i requires 0 <= i < |xs| => xs[i] + offset)
  }

  /** What a search of one chunk starting at file offset `offset` reports. */
  function Reported(data: seq<u8>, pat: Pattern, offset: nat): seq<nat>
  {
    Shift(Take(AllMatches(data, pat), MaxMatchesPerChunk), offset)
  }

  /** Every offset reported in `[lo, hi)` is in range and matches. */
  lemma {:induction false} MatchesInSound(data: seq<u8>, pat: Pattern, lo: nat, hi: nat)
    ensures forall k | 0 <= k < |MatchesIn(data, pat, lo, hi)| ::
      lo <= MatchesIn(data, pat, lo, hi)[k] < hi && MatchesAt(data, pat, MatchesIn(data, pat, lo, hi)[k])
    decreases hi
  {
    if hi > lo {
      MatchesInSound(data, pat, lo, hi - 1);
    }
  }

  /** The offsets are reported in strictly increasing order. */
  lemma {:induction false} MatchesInSorted(data: seq<u8>, pat: Pattern, lo: nat, hi: nat)
    ensures Increasing(MatchesIn(data, pat, lo, hi))
    decreases hi
  {
    if hi > lo {
      MatchesInSorted(data, pat, lo, hi - 1);
      MatchesInSound(data, pat, lo, hi - 1);
      var prev := MatchesIn(data, pat, lo, hi - 1);
      var m := MatchesIn(data, pat, lo, hi);
      if MatchesAt(data, pat, hi - 1) {
        assert m == prev + [hi - 1];
      } else {
        assert m == prev;
      }
      forall i, j | 0 <= i < j < |m|
        ensures m[i] < m[j]
      {
        if j < |prev| {
          assert m[i] == prev[i] && m[j] == prev[j];
          assert prev[i] < prev[j];
        } else {
          assert m[j] == hi - 1 && m[i] == prev[i];
          assert lo <= prev[i] < hi - 1;
        }
      }
    }
  }

  /** No matching offset in `[lo, hi)` is missed. */
  lemma {:induction false} MatchesInComplete(data: seq<u8>, pat: Pattern, lo: nat, hi: nat, s: nat)
    requires lo <= s < hi && MatchesAt(data, pat, s)
    ensures s in MatchesIn(data, pat, lo, hi)
    decreases hi
  {
    if s < hi - 1 {
      MatchesInComplete(data, pat, lo, hi - 1, s);
    }
  }

  lemma {:induction false} MatchesInSplit(data: seq<u8>, pat: Pattern, lo: nat, mid: nat, hi: nat)
    requires lo <= mid <= hi
    ensures MatchesIn(data, pat, lo, hi) == MatchesIn(data, pat, lo, mid) + MatchesIn(data, pat, mid, hi)
    decreases hi
  {
    if hi > mid {
      MatchesInSplit(data, pat, lo, mid, hi - 1);
    }
  }

  lemma {:induction false} MatchesInSkip(data: seq<u8>, pat: Pattern, lo: nat, a: nat, b: nat)
    requires lo <= a <= b
    requires forall s | a <= s < b :: !MatchesAt(data, pat, s)
    ensures MatchesIn(data, pat, lo, b) == MatchesIn(data, pat, lo, a)
    decreases b
  {
    if b > a {
      MatchesInSkip(data, pat, lo, a, b - 1);
    }
  }

  /** A chunk reports at most the cap, in strictly increasing order. */
  lemma ReportedSorted(data: seq<u8>, pat: Pattern, offset: nat)
    ensures |Reported(data, pat, offset)| <= MaxMatchesPerChunk
    ensures Increasing(Reported(data, pat, offset))
  {
    var all := AllMatches(data, pat);
    var t := Take(all, MaxMatchesPerChunk);
    var r := Reported(data, pat, offset);
    assert forall i | 0 <= i < |t| :: t[i] == all[i];
    if HasAnchor(pat) && |data| >= |pat| {
      MatchesInSorted(data, pat, 0, |data| - |pat| + 1);
      forall i, j | 0 <= i < j < |r|
        ensures r[i] < r[j]
      {
        assert r[i] == all[i] + offset && r[j] == all[j] + offset;
        assert all[i] < all[j];
      }
    }
  }

  /** Every reported offset, less the chunk's file offset, is a match. */
  lemma ReportedSound(data: seq<u8>, pat: Pattern, offset: nat)
    ensures var r := Reported(data, pat, offset);
      forall k | 0 <= k < |r| :: r[k] >= offset && MatchesAt(data, pat, r[k] - offset)
  {
    var all := AllMatches(data, pat);
    var r := Reported(data, pat, offset);
    if HasAnchor(pat) && |data| >= |pat| {
      MatchesInSound(data, pat, 0, |data| - |pat| + 1);
      forall k | 0 <= k < |r|
        ensures r[k] >= offset && MatchesAt(data, pat, r[k] - offset)
      {
        assert r[k] == all[k] + offset;
        assert MatchesAt(data, pat, all[k]);
      }
    } else {
      assert all == [];
    }
  }

  /** Below the cap, every match of a pattern with a fixed byte is reported. */
  lemma ReportedComplete(data: seq<u8>, pat: Pattern, offset: nat, s: nat)
    requires |AllMatches(data, pat)| < MaxMatchesPerChunk
    requires HasAnchor(pat) && MatchesAt(data, pat, s)
    ensures s + offset in Reported(data, pat, offset)
  {
    var all := AllMatches(data, pat);
    MatchesInComplete(data, pat, 0, |data| - |pat| + 1, s);
    var k :| 0 <= k < |all| && all[k] == s;
    assert Reported(data, pat, offset)[k] == s + offset;
  }

  /**
   * `memchr`: the first index in `[from, to)` holding byte `b`, if any.
   */
  function MemChr(data: seq<u8>, from: nat, to: nat, b: u8): (r: Option<nat>)
    requires from <= to <= |data|
    ensures r.Some? ==> from <= r.value < to && data[r.value] == b
    ensures r.Some? ==> (forall k | from <= k < r.value :: data[k] != b)
    ensures r.None? ==> (forall k | from <= k < to :: data[k] != b)
    decreases (to as int) - (from as int)
  {
    if from == to then None
    else if data[from] == b then Some(from)
    else MemChr(data, from + 1, to, b)
  }

  /** A byte pattern seen as a pattern without wildcards. */
  function Lift(p: seq<u8>): (pat: Pattern)
    ensures |pat| == |p| && forall i | 0 <= i < |p| :: pat[i] == Some(p[i])
  {
    seq(|p|, i requires 0 <= i < |p| => Some(p[i]))
  }

  /** Without wildcards, a match is a window of `data` equal to the pattern. */
  lemma LiftMatches(data: seq<u8>, p: seq<u8>, s: nat)
    ensures MatchesAt(data, Lift(p), s) <==> s + |p| <= |data| && data[s..s + |p|] == p
  {
    if s + |p| <= |data| && MatchesAt(data, Lift(p), s) {
      assert forall i | 0 <= i < |p| :: data[s..s + |p|][i] == p[i];
    }
  }

  /**
   * One step of the scan loop shared by both searches: `memchr` found the
   * anchor byte at `f`, so no offset between the scan position and `f`'s
   * window start can match.
   */
  lemma ScanStep(data: seq<u8>, pat: Pattern, li: nat, scan: nat, f: nat)
    requires li < |pat| && pat[li].Some? && li <= scan <= f <= |data|
    requires forall k | scan <= k < f :: data[k] != pat[li].value
    ensures MatchesIn(data, pat, 0, f - li) == MatchesIn(data, pat, 0, scan - li)
  {
    forall s | scan - li <= s < f - li
      ensures !MatchesAt(data, pat, s)
    {
      assert s + li < |data| ==> data[s + li] != pat[li].value;
    }
    MatchesInSkip(data, pat, 0, scan - li, f - li);
  }

  /** The candidate window at `start` is appended exactly when it matches. */
  lemma ScanCollect(data: seq<u8>, pat: Pattern, offset: nat, start: nat, collected: seq<nat>, isMatch: bool)
    requires collected == Shift(MatchesIn(data, pat, 0, start), offset)
    requires isMatch <==> MatchesAt(data, pat, start)
    ensures (if isMatch then collected + [offset + start] else collected)
      == Shift(MatchesIn(data, pat, 0, start + 1), offset)
  {
    var next := MatchesIn(data, pat, 0, start + 1);
    assert next == MatchesIn(data, pat, 0, start) + (if isMatch then [start] else []);
  }

  /**
   * One round of the scan loop: `memchr` found the anchor byte at `f`, and
   * the candidate at `f - li` was judged; what is collected afterwards is
   * every match up to and including that candidate.
   */
  lemma ScanAdvance(data: seq<u8>, pat: Pattern, offset: nat, li: nat, scan: nat, f: nat, start: nat,
                    collected: seq<nat>, isMatch: bool)
    requires li < |pat| && pat[li].Some? && li <= scan <= f < |data| && start == f - li
    requires forall k | scan <= k < f :: data[k] != pat[li].value
    requires collected == Shift(MatchesIn(data, pat, 0, scan - li), offset)
    requires isMatch <==> MatchesAt(data, pat, start)
    ensures isMatch ==> collected + [offset + start] == Shift(MatchesIn(data, pat, 0, start + 1), offset)
    ensures !isMatch ==> collected == Shift(MatchesIn(data, pat, 0, start + 1), offset)
  {
    ScanStep(data, pat, li, scan, f);
    ScanCollect(data, pat, offset, start, collected, isMatch);
  }

  /** After the scan loop stops, what it collected is what the chunk reports. */
  lemma ScanEnd(data: seq<u8>, pat: Pattern, offset: nat, s: nat, collected: seq<nat>)
    requires HasAnchor(pat) && |data| >= |pat| && s <= |data| - |pat| + 1
    requires collected == Shift(MatchesIn(data, pat, 0, s), offset)
    requires |collected| == MaxMatchesPerChunk ||
             MatchesIn(data, pat, 0, |data| - |pat| + 1) == MatchesIn(data, pat, 0, s)
    requires |collected| <= MaxMatchesPerChunk
    ensures collected == Reported(data, pat, offset)
  {
    MatchesInSplit(data, pat, 0, s, |data| - |pat| + 1);
  }

  /**
   * The check of one candidate window whose last byte is already known to
   * agree: a pattern of one byte matches outright, a longer one needs its
   * second-to-last byte and then the whole window (`memcmp`) to agree.
   */
  method StandardCandidate(data: seq<u8>, pattern: seq<u8>, start: nat, secondLastByte: u8) returns (isMatch: bool)
    requires |pattern| > 0 && start + |pattern| <= |data|
    requires data[start + |pattern| - 1] == pattern[|pattern| - 1]
    requires |pattern| > 1 ==> secondLastByte == pattern[|pattern| - 2]
    ensures isMatch <==> MatchesAt(data, Lift(pattern), start)
  {
    var m := |pattern|;
    LiftMatches(data, pattern, start);
    isMatch := false;
    if m == 1 {
      isMatch := true;
      assert data[start..start + m] == pattern;
    } else if data[start + m - 2] == secondLastByte && data[start..start + m] == pattern {
      isMatch := true;
    }
  }

  /**
   * The exact-byte search of one chunk: `memchr` for the pattern's last byte,
   * then a cheap check of the second-to-last byte and a full comparison. It
   * reports exactly what `Reported` says.
   */
  method StandardSearch(data: seq<u8>, pattern: seq<u8>, offset: nat) returns (out: seq<nat>)
    ensures out == Reported(data, Lift(pattern), offset)
  {
    var m := |pattern|;
    var n := |data|;
    ghost var pat := Lift(pattern);
    if m == 0 || n < m {
      return [];
    }
    assert pat[0].Some?;
    var searchBound := n - m;
    var lastIndex := m - 1;
    var lastByte := pattern[lastIndex];
    var secondLastByte: u8 := if m > 1 then pattern[lastIndex - 1] else 0;
    var scan := lastIndex;
    var end := searchBound + lastIndex + 1;
    var collected: seq<nat> := [];
    ghost var pos: nat := 0;
    while scan < end
      invariant lastIndex <= scan <= end
      invariant scan == pos + lastIndex
      invariant collected == Shift(MatchesIn(data, pat, 0, pos), offset)
      invariant |collected| <= MaxMatchesPerChunk
      decreases end - scan
    {
      if |collected| >= MaxMatchesPerChunk {
        break;
      }
      var found := MemChr(data, scan, end, lastByte);
      if found.None? {
        ScanStep(data, pat, lastIndex, scan, end);
        scan := end;
        break;
      }
      var f := found.value;
      var start := f - lastIndex;
      var isMatch := StandardCandidate(data, pattern, start, secondLastByte);
      ScanAdvance(data, pat, offset, lastIndex, scan, f, start, collected, isMatch);
      if isMatch {
        collected := collected + [offset + start];
      }
      scan := f + 1;
      pos := start + 1;
    }
    ScanEnd(data, pat, offset, pos, collected);
    return collected;
  }

  /** The first and the last non-wildcard position of a pattern, in one pass. */
  method FindAnchors(pat: Pattern) returns (first: Option<nat>, last: Option<nat>)
    ensures first.Some? <==> HasAnchor(pat)
    ensures last.Some? <==> HasAnchor(pat)
    ensures first.Some? ==> first.value < |pat| && pat[first.value].Some?
    ensures first.Some? ==> forall j | 0 <= j < first.value :: pat[j].None?
    ensures last.Some? ==> last.value < |pat| && pat[last.value].Some?
    ensures last.Some? ==> forall j | last.value < j < |pat| :: pat[j].None?
  {
    first, last := None, None;
    var index := 0;
    while index < |pat|
      invariant 0 <= index <= |pat|
      invariant first.Some? <==> exists j | 0 <= j < index :: pat[j].Some?
      invariant last.Some? <==> first.Some?
      invariant first.Some? ==> first.value < index && pat[first.value].Some?
      invariant first.Some? ==> forall j | 0 <= j < first.value :: pat[j].None?
      invariant last.Some? ==> last.value < index && pat[last.value].Some?
      invariant last.Some? ==> forall j | last.value < j < index :: pat[j].None?
    {
      if pat[index].Some? {
        if first.None? {
          first := Some(index);
        }
        last := Some(index);
      }
      index := index + 1;
    }
  }

  /** The non-wildcard positions other than the two anchors, with their bytes, in order. */
  function FixedChecks(pat: Pattern, from: nat, firstIndex: nat, lastIndex: nat): seq<(nat, u8)>
    requires from <= |pat|
    decreases |pat| - from
  {
    if from == |pat| then []
    else if pat[from].Some? && from != firstIndex && from != lastIndex then
      [(from, pat[from].value)] + FixedChecks(pat, from + 1, firstIndex, lastIndex)
    else FixedChecks(pat, from + 1, firstIndex, lastIndex)
  }

  /** The fixed checks list exactly the non-wildcard positions other than the anchors. */
  lemma {:induction false} FixedChecksSpec(pat: Pattern, from: nat, firstIndex: nat, lastIndex: nat)
    requires from <= |pat|
    ensures forall t | 0 <= t < |FixedChecks(pat, from, firstIndex, lastIndex)| ::
      FixedCheckValid(pat, from, firstIndex, lastIndex, FixedChecks(pat, from, firstIndex, lastIndex)[t])
    ensures forall i | from <= i < |pat| && pat[i].Some? && i != firstIndex && i != lastIndex ::
      (i, pat[i].value) in FixedChecks(pat, from, firstIndex, lastIndex)
    decreases |pat| - from
  {
    if from < |pat| {
      FixedChecksSpec(pat, from + 1, firstIndex, lastIndex);
      var fc := FixedChecks(pat, from, firstIndex, lastIndex);
      var rest := FixedChecks(pat, from + 1, firstIndex, lastIndex);
      if pat[from].Some? && from != firstIndex && from != lastIndex {
        assert fc == [(from, pat[from].value)] + rest;
        forall t | 0 <= t < |fc|
          ensures FixedCheckValid(pat, from, firstIndex, lastIndex, fc[t])
        {
          if t > 0 {
            assert fc[t] == rest[t - 1];
            assert FixedCheckValid(pat, from + 1, firstIndex, lastIndex, rest[t - 1]);
          }
        }
      } else {
        assert fc == rest;
        forall t | 0 <= t < |fc|
          ensures FixedCheckValid(pat, from, firstIndex, lastIndex, fc[t])
        {
          assert FixedCheckValid(pat, from + 1, firstIndex, lastIndex, rest[t]);
        }
      }
    }
  }

  predicate FixedCheckValid(pat: Pattern, from: nat, firstIndex: nat, lastIndex: nat, check: (nat, u8))
  {
    from <= check.0 < |pat| && pat[check.0] == Some(check.1) && check.0 != firstIndex && check.0 != lastIndex
  }

  /**
   * The check of one candidate window whose last anchor byte is already
   * known to agree: the first anchor, then every other fixed byte in order,
   * stopping at the first disagreement.
   */
  method WildcardCandidate(data: seq<u8>, pattern: Pattern, shift: nat, firstIndex: nat, lastIndex: nat,
                           fixedChecks: seq<(nat, u8)>) returns (isMatch: bool)
    requires shift + |pattern| <= |data|
    requires firstIndex < |pattern| && pattern[firstIndex].Some?
    requires lastIndex < |pattern| && pattern[lastIndex].Some?
    requires data[shift + lastIndex] == pattern[lastIndex].value
    requires fixedChecks == FixedChecks(pattern, 0, firstIndex, lastIndex)
    ensures isMatch <==> MatchesAt(data, pattern, shift)
  {
    FixedChecksSpec(pattern, 0, firstIndex, lastIndex);
    isMatch := false;
    if data[shift + firstIndex] == pattern[firstIndex].value {
      var matched := true;
      var t := 0;
      while t < |fixedChecks|
        invariant 0 <= t <= |fixedChecks|
        invariant forall u | 0 <= u < t :: data[shift + fixedChecks[u].0] == fixedChecks[u].1
      {
        if data[shift + fixedChecks[t].0] != fixedChecks[t].1 {
          matched := false;
          break;
        }
        t := t + 1;
      }
      isMatch := matched;
      if matched {
        forall i | 0 <= i < |pattern| && pattern[i].Some?
          ensures data[shift + i] == pattern[i].value
        {
          if i != firstIndex && i != lastIndex {
            var u :| 0 <= u < |fixedChecks| && fixedChecks[u] == (i, pattern[i].value);
          }
        }
      }
    }
  }

  /**
   * The wildcard search of one chunk: a pattern without any fixed byte reports
   * nothing; otherwise `memchr` for the last fixed byte, then the first fixed
   * byte and the other fixed bytes. It reports exactly what `Reported` says.
   */
  method WildcardSearch(data: seq<u8>, pattern: Pattern, offset: nat) returns (out: seq<nat>)
    ensures out == Reported(data, pattern, offset)
  {
    var m := |pattern|;
    var n := |data|;
    if m == 0 || n < m {
      return [];
    }
    var firstAnchor, lastAnchor := FindAnchors(pattern);
    if firstAnchor.None? || lastAnchor.None? {
      return [];
    }
    var firstIndex := firstAnchor.value;
    var lastIndex := lastAnchor.value;
    var fixedChecks := FixedChecks(pattern, 0, firstIndex, lastIndex);
    out := WildcardScan(data, pattern, offset, firstIndex, lastIndex, fixedChecks);
  }

  /** The `memchr` scan loop of `WildcardSearch`, once the anchors and fixed checks are known. */
  method WildcardScan(data: seq<u8>, pattern: Pattern, offset: nat, firstIndex: nat, lastIndex: nat,
                      fixedChecks: seq<(nat, u8)>) returns (out: seq<nat>)
    requires |pattern| <= |data|
    requires firstIndex < |pattern| && pattern[firstIndex].Some?
    requires lastIndex < |pattern| && pattern[lastIndex].Some?
    requires fixedChecks == FixedChecks(pattern, 0, firstIndex, lastIndex)
    ensures out == Reported(data, pattern, offset)
  {
    var m := |pattern|;
    var n := |data|;
    var lastByte := pattern[lastIndex].value;
    assert HasAnchor(pattern);
    var searchBound := n - m;
    var scan := lastIndex;
    var end := searchBound + lastIndex + 1;
    var matches: seq<nat> := [];
    ghost var pos: nat := 0;
    while scan < end
      invariant lastIndex <= scan <= end
      invariant scan == pos + lastIndex
      invariant matches == Shift(MatchesIn(data, pattern, 0, pos), offset)
      invariant |matches| <= MaxMatchesPerChunk
      decreases end - scan
    {
      if |matches| >= MaxMatchesPerChunk {
        break;
      }
      var found := MemChr(data, scan, end, lastByte);
      if found.None? {
        ScanStep(data, pattern, lastIndex, scan, end);
        scan := end;
        break;
      }
      var f := found.value;
      var shift := f - lastIndex;
      var isMatch := WildcardCandidate(data, pattern, shift, firstIndex, lastIndex, fixedChecks);
      ScanAdvance(data, pattern, offset, lastIndex, scan, f, shift, matches, isMatch);
      if isMatch {
        matches := matches + [offset + shift];
      }
      scan := f + 1;
      pos := shift + 1;
    }
    ScanEnd(data, pattern, offset, pos, matches);
    return matches;
  }
}
