/** Finding the lines of a hunk (`seek` and `punctuation` in patch.rs): four tiers of looseness,
    tried from the strictest, each over the whole range from left to right. */
module Seek {
  import opened Errors
  import opened Text
  import opened Wrappers

  const MAX_MATCH_WORK: nat := 30_000_000

  function PlainChar(c: char): char {
    if '\U{2010}' <= c <= '\U{2015}' || c == '\U{2212}' then '-'
    else if '\U{2018}' <= c <= '\U{201B}' then '\''
    else if '\U{201C}' <= c <= '\U{201F}' then '"'
    else if c == '\U{A0}' || '\U{2002}' <= c <= '\U{200A}' || c == '\U{202F}' || c == '\U{205F}'
            || c == '\U{3000}' then ' '
    else c
  }

  function Punctuation(s: string): string {
    seq(|s|, i requires 0 <= i < |s| => PlainChar(s[i]))
  }

  // What a tier ignores of a line before comparing it.
  function Canonical(tier: nat, line: string): string {
    if tier == 0 then line
    else if tier == 1 then TrimEnd(line)
    else if tier == 2 then Trim(line)
    else Punctuation(Trim(line))
  }

  predicate LineMatches(tier: nat, a: string, b: string) {
    Canonical(tier, a) == Canonical(tier, b)
  }

  predicate WindowMatches(lines: seq<string>, pattern: seq<string>, i: nat, tier: nat) {
    && i + |pattern| <= |lines|
    && forall k :: 0 <= k < |pattern| ==> LineMatches(tier, lines[i + k], pattern[k])
  }

  datatype Found = Found(at: Option<nat>, work: nat)

  // Which windows match at a tier.
  function Hits(lines: seq<string>, pattern: seq<string>, tier: nat): (hits: seq<bool>)
    ensures |hits| == if |pattern| <= |lines| then |lines| - |pattern| + 1 else 0
    ensures forall i :: 0 <= i < |hits| ==> hits[i] == WindowMatches(lines, pattern, i, tier)
  {
    seq(if |pattern| <= |lines| then |lines| - |pattern| + 1 else 0,
        i => i >= 0 && WindowMatches(lines, pattern, i, tier))
  }

  function AllHits(lines: seq<string>, pattern: seq<string>): (hits: seq<seq<bool>>)
    ensures |hits| == 4 && forall t :: 0 <= t < 4 ==> hits[t] == Hits(lines, pattern, t)
  {
    [Hits(lines, pattern, 0), Hits(lines, pattern, 1), Hits(lines, pattern, 2), Hits(lines, pattern, 3)]
  }

  /** The first hit from `i` on, charging `cost` for every window looked at. */
  function SeekTier(hits: seq<bool>, i: nat, cost: nat, work: nat): Result<Found, ErrorCode>
    decreases |hits| - i
  {
    if i >= |hits| then Ok(Found(None, work))
    else if work + cost > MAX_MATCH_WORK then Err(ResourceLimit)
    else if hits[i] then Ok(Found(Some(i), work + cost))
    else SeekTier(hits, i + 1, cost, work + cost)
  }

  // The tiers in turn.
  function SeekFrom(tiers: seq<seq<bool>>, begin: nat, cost: nat, work: nat): Result<Found, ErrorCode>
  {
    if tiers == [] then Ok(Found(None, work))
    else
      var f :- SeekTier(tiers[0], begin, cost, work);
      if f.at.Some? then Ok(f) else SeekFrom(tiers[1..], begin, cost, f.work)
  }

  function Begin(lines: seq<string>, pattern: seq<string>, start: nat, eof: bool): nat {
    if eof && |pattern| <= |lines| then |lines| - |pattern| else start
  }

  function SeekLines(lines: seq<string>, pattern: seq<string>, start: nat, eof: bool,
                     work: nat): Result<Found, ErrorCode>
  {
    if |pattern| > |lines| then Ok(Found(None, work))
    else SeekFrom(AllHits(lines, pattern), Begin(lines, pattern, start, eof), |pattern|, work)
  }

  /** The loops of `seek`. */
  method Run(lines: seq<string>, pattern: seq<string>, start: nat, eof: bool, work: nat)
    returns (r: Result<Found, ErrorCode>)
    ensures r == SeekLines(lines, pattern, start, eof, work)
  {
    if |pattern| > |lines| {
      return Ok(Found(None, work));
    }
    var begin := if eof then |lines| - |pattern| else start;
    var spent: nat := work;
    ghost var tiers := AllHits(lines, pattern);
    for pass := 0 to 4
      invariant SeekFrom(tiers, begin, |pattern|, work) == SeekFrom(tiers[pass..], begin, |pattern|, spent)
    {
      var found, exhausted;
      ghost var before := spent;
      found, exhausted, spent := RunTier(lines, pattern, begin, pass, spent);
      assert tiers[pass..][0] == Hits(lines, pattern, pass);
      assert tiers[pass..][1..] == tiers[pass + 1..];
      if exhausted {
        return Err(ResourceLimit);
      }
      if found.Some? {
        return Ok(Found(found, spent));
      }
    }
    return Ok(Found(None, spent));
  }

  method RunTier(lines: seq<string>, pattern: seq<string>, begin: nat, tier: nat, work: nat)
    returns (at: Option<nat>, exhausted: bool, spent: nat)
    requires |pattern| <= |lines|
    ensures SeekTier(Hits(lines, pattern, tier), begin, |pattern|, work) ==
            if exhausted then Err(ResourceLimit) else Ok(Found(at, spent))
  {
    ghost var hits := Hits(lines, pattern, tier);
    at, exhausted, spent := None, false, work;
    var i := begin;
    while i <= |lines| - |pattern|
      invariant SeekTier(hits, begin, |pattern|, work) == SeekTier(hits, i, |pattern|, spent)
      decreases |lines| + 1 - i
    {
      spent := spent + |pattern|;
      if spent > MAX_MATCH_WORK {
        exhausted := true;
        return;
      }
      if WindowMatches(lines, pattern, i, tier) {
        at := Some(i);
        return;
      }
      i := i + 1;
    }
  }

  // The tiers are nested: what matches at one matches at every looser one.
  lemma LineTiersNest(tier: nat, a: string, b: string)
    requires tier < 3 && LineMatches(tier, a, b)
    ensures LineMatches(tier + 1, a, b)
  {
    if tier == 1 {
      TrimEndIgnoresTail(a);
      TrimEndIgnoresTail(b);
    }
  }

  lemma {:induction false} TiersNest(lines: seq<string>, pattern: seq<string>, i: nat, tier: nat, looser: nat)
    requires tier <= looser <= 3 && WindowMatches(lines, pattern, i, tier)
    ensures WindowMatches(lines, pattern, i, looser)
    decreases looser - tier
  {
    if tier < looser {
      forall k | 0 <= k < |pattern|
        ensures LineMatches(tier + 1, lines[i + k], pattern[k])
      {
        LineTiersNest(tier, lines[i + k], pattern[k]);
      }
      TiersNest(lines, pattern, i, tier + 1, looser);
    }
  }

  lemma {:induction false} TierLeftmost(hits: seq<bool>, i: nat, cost: nat, work: nat)
    requires SeekTier(hits, i, cost, work).Ok? && work <= MAX_MATCH_WORK
    ensures var f := SeekTier(hits, i, cost, work).value;
            && work <= f.work <= MAX_MATCH_WORK
            && (f.at.None? ==> forall k :: i <= k < |hits| ==> !hits[k])
            && (f.at.Some? ==> i <= f.at.value < |hits| && hits[f.at.value]
                               && forall k :: i <= k < f.at.value ==> !hits[k])
    decreases |hits| - i
  {
    if i < |hits| && !hits[i] {
      TierLeftmost(hits, i + 1, cost, work + cost);
    }
  }

  // The leftmost hit of the first tier that has one.
  ghost predicate BestHit(tiers: seq<seq<bool>>, begin: nat, at: nat, tier: nat) {
    && tier < |tiers| && begin <= at < |tiers[tier]| && tiers[tier][at]
    && (forall k :: begin <= k < at ==> !tiers[tier][k])
    && forall t, k :: 0 <= t < tier && begin <= k < |tiers[t]| ==> !tiers[t][k]
  }

  lemma {:induction false} StrictestTier(tiers: seq<seq<bool>>, begin: nat, cost: nat, work: nat)
    requires SeekFrom(tiers, begin, cost, work).Ok? && work <= MAX_MATCH_WORK
    ensures var f := SeekFrom(tiers, begin, cost, work).value;
            && work <= f.work <= MAX_MATCH_WORK
            && (f.at.None? ==> forall t, k :: 0 <= t < |tiers| && begin <= k < |tiers[t]| ==> !tiers[t][k])
            && (f.at.Some? ==> exists tier :: BestHit(tiers, begin, f.at.value, tier))
  {
    if tiers != [] {
      TierLeftmost(tiers[0], begin, cost, work);
      var f := SeekTier(tiers[0], begin, cost, work).value;
      if f.at.None? {
        StrictestTier(tiers[1..], begin, cost, f.work);
        var at := SeekFrom(tiers[1..], begin, cost, f.work).value.at;
        if at.Some? {
          var tier: nat :| BestHit(tiers[1..], begin, at.value, tier);
          assert BestHit(tiers, begin, at.value, tier + 1) by {
            assert forall t :: 0 < t < |tiers| ==> tiers[t] == tiers[1..][t - 1];
          }
        }
      } else {
        assert BestHit(tiers, begin, f.at.value, 0);
      }
    }
  }

  // No window from `from` up to `to` matches at the tier.
  ghost predicate NoMatch(lines: seq<string>, pattern: seq<string>, from: nat, to: nat, tier: nat) {
    forall i :: from <= i < to ==> !WindowMatches(lines, pattern, i, tier)
  }

  ghost predicate NoneAt(lines: seq<string>, pattern: seq<string>, begin: nat, tier: nat) {
    NoMatch(lines, pattern, begin, |lines| + 1, tier)
  }

  // The window `seek` is after: the leftmost one of the strictest tier that has any.
  ghost predicate Best(lines: seq<string>, pattern: seq<string>, begin: nat, at: nat, tier: nat) {
    && begin <= at && tier < 4
    && WindowMatches(lines, pattern, at, tier)
    && NoMatch(lines, pattern, begin, at, tier)
    && forall t :: 0 <= t < tier ==> NoneAt(lines, pattern, begin, t)
  }

  /** What a successful search means: the leftmost window at the strictest tier with any match
      in range, or nothing exactly when no window in range matches even at the loosest tier;
      and the work counter never passes its limit. */
  lemma SeekMeaning(lines: seq<string>, pattern: seq<string>, start: nat, eof: bool, work: nat)
    requires SeekLines(lines, pattern, start, eof, work).Ok? && work <= MAX_MATCH_WORK
    ensures var f := SeekLines(lines, pattern, start, eof, work).value;
            var begin := Begin(lines, pattern, start, eof);
            && work <= f.work <= MAX_MATCH_WORK
            && (f.at.None? <==> NoneAt(lines, pattern, begin, 3))
            && (f.at.Some? ==> begin <= f.at.value && f.at.value + |pattern| <= |lines|
                               && exists tier :: Best(lines, pattern, begin, f.at.value, tier))
  {
    if |pattern| <= |lines| {
      var begin := Begin(lines, pattern, start, eof);
      var tiers := AllHits(lines, pattern);
      StrictestTier(tiers, begin, |pattern|, work);
      var at := SeekLines(lines, pattern, start, eof, work).value.at;
      if at.Some? {
        var tier: nat :| BestHit(tiers, begin, at.value, tier);
        BestHitIsBest(lines, pattern, begin, at.value, tier);
      } else {
        assert tiers[3] == Hits(lines, pattern, 3);
        forall i | begin <= i < |lines| + 1
          ensures !WindowMatches(lines, pattern, i, 3)
        {
          assert i < |tiers[3]| ==> !tiers[3][i];
        }
      }
    }
  }

  lemma BestHitIsBest(lines: seq<string>, pattern: seq<string>, begin: nat, at: nat, tier: nat)
    requires |pattern| <= |lines| && BestHit(AllHits(lines, pattern), begin, at, tier)
    ensures Best(lines, pattern, begin, at, tier) && !NoneAt(lines, pattern, begin, 3)
  {
    var tiers := AllHits(lines, pattern);
    assert tiers[tier] == Hits(lines, pattern, tier);
    forall t | 0 <= t < tier
      ensures NoneAt(lines, pattern, begin, t)
    {
      assert tiers[t] == Hits(lines, pattern, t);
      forall i | begin <= i < |lines| + 1
        ensures !WindowMatches(lines, pattern, i, t)
      {
        assert i < |tiers[t]| ==> !tiers[t][i];
      }
    }
    assert NoMatch(lines, pattern, begin, at, tier);
    TiersNest(lines, pattern, at, tier, 3);
  }

  /** The description determines the answer: there is one best window. */
  lemma BestIsUnique(lines: seq<string>, pattern: seq<string>, begin: nat, a: nat, s: nat, b: nat, t: nat)
    requires Best(lines, pattern, begin, a, s) && Best(lines, pattern, begin, b, t)
    ensures a == b && s == t
  {
    assert s < t ==> NoneAt(lines, pattern, begin, s);
    assert t < s ==> NoneAt(lines, pattern, begin, t);
  }

  // The windows from `begin` on.
  function Span(hits: seq<bool>, begin: nat): nat {
    if begin < |hits| then |hits| - begin else 0
  }

  // The charge for looking at `n` windows.
  function Charge(cost: nat, n: nat): nat {
    if n == 0 then 0 else cost + Charge(cost, n - 1)
  }

  // The charge for all windows of the first `tiers` tiers, and `last` of the next one.
  function Charges(cost: nat, tiers: nat, span: nat, last: nat): nat {
    if tiers == 0 then Charge(cost, last) else Charge(cost, span) + Charges(cost, tiers - 1, span, last)
  }

  lemma {:induction false} TierWork(hits: seq<bool>, i: nat, cost: nat, work: nat)
    requires SeekTier(hits, i, cost, work).Ok?
    ensures var f := SeekTier(hits, i, cost, work).value;
            && (f.at.Some? ==> i <= f.at.value)
            && f.work == work + Charge(cost, if f.at.Some? then f.at.value - i + 1 else Span(hits, i))
    decreases |hits| - i
  {
    if i < |hits| {
      if hits[i] {
        assert Charge(cost, 1) == cost + Charge(cost, 0);
      } else {
        TierWork(hits, i + 1, cost, work + cost);
      }
    }
  }

  // Tiers over the same windows.
  ghost predicate SameSpan(tiers: seq<seq<bool>>, begin: nat, span: nat) {
    forall t :: 0 <= t < |tiers| ==> Span(tiers[t], begin) == span
  }

  // What a search found, and that it was charged for the windows it looked at: those of the
  // stricter tiers and those up to the match, or those of all tiers.
  ghost predicate Charged(tiers: seq<seq<bool>>, begin: nat, cost: nat, span: nat, work: nat, f: Found, tier: nat) {
    if f.at.None? then f.work == work + Charges(cost, |tiers|, span, 0)
    else BestHit(tiers, begin, f.at.value, tier) && f.work == work + Charges(cost, tier, span, f.at.value - begin + 1)
  }

  lemma {:induction false} TiersWork(tiers: seq<seq<bool>>, begin: nat, cost: nat, work: nat, span: nat)
    returns (tier: nat)
    requires SeekFrom(tiers, begin, cost, work).Ok? && work <= MAX_MATCH_WORK && SameSpan(tiers, begin, span)
    ensures Charged(tiers, begin, cost, span, work, SeekFrom(tiers, begin, cost, work).value, tier)
  {
    tier := 0;
    if tiers != [] {
      TierWork(tiers[0], begin, cost, work);
      TierLeftmost(tiers[0], begin, cost, work);
      var f := SeekTier(tiers[0], begin, cost, work).value;
      if f.at.None? {
        assert forall t :: 0 <= t < |tiers| - 1 ==> tiers[1..][t] == tiers[t + 1];
        assert Span(tiers[0], begin) == span;
        tier := TiersWork(tiers[1..], begin, cost, f.work, span);
        var g := SeekFrom(tiers[1..], begin, cost, f.work).value;
        if g.at.Some? {
          LaterTier(tiers, begin, g.at.value, tier);
          tier := tier + 1;
        }
      }
    }
  }

  lemma LaterTier(tiers: seq<seq<bool>>, begin: nat, at: nat, tier: nat)
    requires tiers != [] && BestHit(tiers[1..], begin, at, tier)
    requires forall k :: begin <= k < |tiers[0]| ==> !tiers[0][k]
    ensures BestHit(tiers, begin, at, tier + 1)
  {
    assert forall t :: 0 < t < |tiers| ==> tiers[t] == tiers[1..][t - 1];
  }

  // The windows of a pattern from `begin` on.
  function Windows(lines: seq<string>, pattern: seq<string>, begin: nat): nat {
    if begin + |pattern| <= |lines| then |lines| - |pattern| + 1 - begin else 0
  }

  // The four tiers of a search are over the same windows.
  lemma HitsSpan(lines: seq<string>, pattern: seq<string>, begin: nat)
    ensures SameSpan(AllHits(lines, pattern), begin, Windows(lines, pattern, begin))
  {
  }

  // The charge of a search over lines.
  ghost predicate WorkIs(lines: seq<string>, pattern: seq<string>, begin: nat, work: nat, f: Found, tier: nat) {
    var span := Windows(lines, pattern, begin);
    if f.at.None? then f.work == work + Charges(|pattern|, 4, span, 0)
    else
      && Best(lines, pattern, begin, f.at.value, tier)
      && f.work == work + Charges(|pattern|, tier, span, f.at.value - begin + 1)
  }

  lemma ChargedWork(lines: seq<string>, pattern: seq<string>, tiers: seq<seq<bool>>, begin: nat, work: nat, f: Found,
                    tier: nat)
    requires tiers == AllHits(lines, pattern) && |pattern| <= |lines|
    requires Charged(tiers, begin, |pattern|, Windows(lines, pattern, begin), work, f, tier)
    ensures WorkIs(lines, pattern, begin, work, f, tier)
  {
    if f.at.Some? {
      BestHitIsBest(lines, pattern, begin, f.at.value, tier);
    }
  }

  /** The work of a search is exact: the length of the pattern for every window looked at, which
      are all windows of the tiers stricter than that of the match and those up to it, or all
      windows of the four tiers when nothing matches; a pattern longer than the file costs nothing. */
  lemma SeekWork(lines: seq<string>, pattern: seq<string>, start: nat, eof: bool, work: nat) returns (tier: nat)
    requires SeekLines(lines, pattern, start, eof, work).Ok? && work <= MAX_MATCH_WORK
    ensures var f := SeekLines(lines, pattern, start, eof, work).value;
            if |pattern| > |lines| then f == Found(None, work)
            else WorkIs(lines, pattern, Begin(lines, pattern, start, eof), work, f, tier)
  {
    tier := 0;
    if |pattern| <= |lines| {
      var tiers, begin := AllHits(lines, pattern), Begin(lines, pattern, start, eof);
      var f := SeekLines(lines, pattern, start, eof, work).value;
      HitsSpan(lines, pattern, begin);
      tier := TiersWork(tiers, begin, |pattern|, work, Windows(lines, pattern, begin));
      ChargedWork(lines, pattern, tiers, begin, work, f, tier);
    }
  }
}
