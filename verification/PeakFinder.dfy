/** find_peaks of psdaq/drp/OpalTTFex.cc, over the reals. */
module PeakFinder {

  /** The fraction of a height; afrac is not negative. */
  ghost function Times(afrac: real): real -> real {
    x => afrac * x
  }

  ghost predicate Rising(frac: real -> real) {
    && (forall x, y :: x <= y ==> frac(x) <= frac(y))
    && (forall x, y :: x < y && frac(y) > 0.0 ==> frac(x) < frac(y))
  }

  /** And not above one. */
  ghost predicate Shrinking(frac: real -> real) {
    && (forall x :: x >= 0.0 ==> 0.0 <= frac(x) <= x)
    && (forall x :: x <= 0.0 ==> x <= frac(x) <= 0.0)
  }

  lemma ProductMono(f: real, x: real, y: real)
    requires f >= 0.0 && x < y
    ensures f * x <= f * y
    ensures f > 0.0 ==> f * x < f * y
  {
    var d := y - x;
    assert f * y == f * x + f * d;
    if f > 0.0 {
      assert f * d > 0.0;
    }
  }

  lemma TimesMono(f: real, x: real, y: real)
    requires f >= 0.0 && x < y
    ensures Times(f)(x) <= Times(f)(y)
    ensures Times(f)(y) > 0.0 ==> Times(f)(x) < Times(f)(y)
  {
    ProductMono(f, x, y);
    if f == 0.0 {
      assert f * y == 0.0;
    }
  }

  lemma TimesShrinks(f: real, x: real)
    requires 0.0 <= f <= 1.0
    ensures x >= 0.0 ==> 0.0 <= Times(f)(x) <= x
    ensures x <= 0.0 ==> x <= Times(f)(x) <= 0.0
  {
    assert (1.0 - f) * x == x - f * x;
  }

  lemma TimesIsRising(f: real)
    requires f >= 0.0
    ensures Rising(Times(f))
  {
    forall x, y | x < y
      ensures Times(f)(x) <= Times(f)(y) && (Times(f)(y) > 0.0 ==> Times(f)(x) < Times(f)(y))
    {
      TimesMono(f, x, y);
    }
  }

  lemma TimesIsShrinking(f: real)
    requires 0.0 <= f <= 1.0
    ensures Shrinking(Times(f))
  {
    forall x
      ensures (x >= 0.0 ==> 0.0 <= Times(f)(x) <= x) && (x <= 0.0 ==> x <= Times(f)(x) <= 0.0)
    {
      TimesShrinks(f, x);
    }
  }

  /** A detected peak with the valley samples on its two sides. */
  datatype Peak = Peak(left: nat, at: nat, right: nat)

  function Clip(x: real): real {
    if x > 0.0 then x else 0.0
  }

  /** A valley sample is below a level: so is 0, which stands for any negative sample. */
  predicate Below(x: real, level: real) {
    x < level && 0.0 < level
  }

  /** p rises above its valleys by the fraction, and nothing between them is higher. */
  ghost predicate IsPeak(a: seq<real>, frac: real -> real, p: Peak) {
    && p.left < p.at < p.right < |a|
    && (Below(a[p.left], frac(a[p.at])) || (p.left == 0 && a[0] < frac(a[p.at])))
    && a[p.right] < frac(a[p.at])
    && forall k :: p.left <= k <= p.right ==> a[k] <= a[p.at]
  }

  /** The detected peaks, from left to right, share no samples but valleys. */
  ghost predicate Sound(a: seq<real>, frac: real -> real, found: seq<Peak>) {
    && (forall i :: 0 <= i < |found| ==> IsPeak(a, frac, found[i]))
    && (forall i, j :: 0 <= i < j < |found| ==> found[i].right <= found[j].left)
    && (forall j :: 0 < j < |found| ==> Below(a[found[j].left], frac(a[found[j].at])))
  }

  /** l is below the fraction of p, which comes later. */
  ghost predicate Rises(a: seq<real>, frac: real -> real, l: nat, p: nat) {
    l < p < |a| && Below(a[l], frac(a[p]))
  }

  /** A peak as high as p was found after l. */
  ghost predicate FoundAfter(a: seq<real>, found: seq<Peak>, l: nat, height: real, before: nat) {
    exists i :: 0 <= i < |found| && l < found[i].at < before <= |a| && a[found[i].at] >= height
  }

  /** No rise followed by a fall goes without a peak as high between the two. */
  ghost predicate Complete(a: seq<real>, frac: real -> real, found: seq<Peak>) {
    forall l: nat, p: nat, r: nat :: Rises(a, frac, l, p) && p < r < |a| && a[r] < frac(a[p]) ==>
      FoundAfter(a, found, l, a[p], r)
  }

  function Places(found: seq<Peak>): (r: seq<nat>)
    ensures |r| == |found|
    ensures forall i :: 0 <= i < |r| ==> r[i] == found[i].at
  {
    seq(|found|, i requires 0 <= i < |found| => found[i].at)
  }

  ghost predicate Descending(a: seq<real>, s: seq<nat>) {
    && (forall i :: 0 <= i < |s| ==> s[i] < |a|)
    && forall i, j :: 0 <= i < j < |s| ==> s[i] != s[j] && a[s[i]] >= a[s[j]]
  }

  /** peaks are the highest of places, the highest first. */
  ghost predicate TopOf(a: seq<real>, peaks: seq<nat>, places: seq<nat>, maxPeaks: nat) {
    && |peaks| == (if |places| < maxPeaks then |places| else maxPeaks)
    && Descending(a, peaks) && (forall p :: p in peaks ==> p in places)
    && (forall p, q :: p in places && p !in peaks && q in peaks ==> p < |a| && a[q] >= a[p])
    && (|places| < maxPeaks ==> forall p :: p in places ==> p in peaks)
  }

  lemma Dropped(a: seq<real>, peaks: seq<nat>, places: seq<nat>, imax: nat, maxPeaks: nat)
    requires maxPeaks > 0 && imax < |a| && TopOf(a, peaks, places, maxPeaks)
    requires |peaks| == maxPeaks && a[peaks[|peaks| - 1]] > a[imax]
    ensures TopOf(a, peaks, places + [imax], maxPeaks)
  {
    assert |places + [imax]| >= maxPeaks;
  }

  function Put(s: seq<nat>, it: nat, x: nat): (r: seq<nat>)
    requires it <= |s|
  {
    s[..it] + [x] + s[it..]
  }

  lemma PutMembers(s: seq<nat>, it: nat, x: nat)
    requires it <= |s|
    ensures |Put(s, it, x)| == |s| + 1
    ensures forall y :: y in Put(s, it, x) <==> y == x || y in s
  {
    var r := Put(s, it, x);
    assert r[it] == x;
    forall y | y in s ensures y in r {
      assert s == s[..it] + s[it..];
    }
  }

  lemma PutDescending(a: seq<real>, s: seq<nat>, it: nat, x: nat)
    requires Descending(a, s) && x < |a| && x !in s && it <= |s|
    requires forall k :: 0 <= k < it ==> a[s[k]] >= a[x]
    requires forall k :: it <= k < |s| ==> a[s[k]] <= a[x]
    ensures Descending(a, Put(s, it, x))
  {
  }

  lemma PutBeforeLower(a: seq<real>, s: seq<nat>, it: nat, x: nat)
    requires Descending(a, s) && x < |a| && x !in s && it <= |s|
    requires (forall k :: 0 <= k < it ==> a[s[k]] >= a[x]) && (it < |s| ==> a[s[it]] < a[x])
    ensures Descending(a, Put(s, it, x))
  {
    forall k | it <= k < |s| ensures a[s[k]] <= a[x] {
      assert k > it ==> a[s[it]] >= a[s[k]];
    }
    PutDescending(a, s, it, x);
  }

  /** The list with imax put at place it, when there is room. */
  lemma InsertedRoom(a: seq<real>, peaks: seq<nat>, it: nat, places: seq<nat>, imax: nat, maxPeaks: nat)
    requires imax < |a| && imax !in places && TopOf(a, peaks, places, maxPeaks) && |peaks| < maxPeaks
    requires it <= |peaks| && Descending(a, Put(peaks, it, imax))
    ensures TopOf(a, Put(peaks, it, imax), places + [imax], maxPeaks)
  {
    PutMembers(peaks, it, imax);
    forall p | p in places + [imax] ensures p in Put(peaks, it, imax) {
      assert p in places ==> p in peaks;
    }
  }

  /** And when the last one made room. */
  lemma InsertedFull(a: seq<real>, peaks: seq<nat>, kept: seq<nat>, it: nat, places: seq<nat>, imax: nat, maxPeaks: nat)
    requires imax < |a| && imax !in places && TopOf(a, peaks, places, maxPeaks) && |peaks| == maxPeaks > 0
    requires kept == peaks[..|peaks| - 1] && a[peaks[|peaks| - 1]] <= a[imax]
    requires it <= |kept| && Descending(a, Put(kept, it, imax))
    ensures TopOf(a, Put(kept, it, imax), places + [imax], maxPeaks)
  {
    PutMembers(kept, it, imax);
    var last := peaks[|peaks| - 1];
    assert last in peaks;
    forall y ensures y in peaks <==> y in kept || y == last {
      assert peaks == kept + [last];
    }
    forall p, q | p in places + [imax] && p !in Put(kept, it, imax) && q in Put(kept, it, imax)
      ensures p < |a| && a[q] >= a[p]
    {
      NoneHigher(a, peaks, places, maxPeaks, p);
    }
  }

  /** A place that the full list leaves out, or lists last, is no higher than those in it. */
  lemma NoneHigher(a: seq<real>, peaks: seq<nat>, places: seq<nat>, maxPeaks: nat, p: nat)
    requires TopOf(a, peaks, places, maxPeaks) && |peaks| > 0 && p in places
    requires p in peaks ==> p == peaks[|peaks| - 1]
    ensures p < |a| && forall q :: q in peaks ==> a[q] >= a[p]
  {
    assert peaks[0] in peaks;
    if p in peaks {
      forall q | q in peaks ensures a[q] >= a[p] {
        var i :| 0 <= i < |peaks| && peaks[i] == q;
        assert i < |peaks| - 1 ==> a[peaks[i]] >= a[peaks[|peaks| - 1]];
      }
    }
  }

  /** Put imax before the first lower peak, dropping the last when the list is full. */
  method Insert(a: seq<real>, peaks: seq<nat>, imax: nat, maxPeaks: nat, ghost places: seq<nat>)
                returns (peaks': seq<nat>)
    requires maxPeaks > 0 && imax < |a| && imax !in places && TopOf(a, peaks, places, maxPeaks)
    ensures TopOf(a, peaks', places + [imax], maxPeaks)
  {
    peaks' := peaks;
    if |peaks| == maxPeaks && a[peaks[|peaks| - 1]] > a[imax] {
      Dropped(a, peaks, places, imax, maxPeaks);
    } else {
      if |peaks| == maxPeaks {
        peaks' := peaks[..|peaks| - 1];
      }
      var it := 0;
      while it < |peaks'| && a[peaks'[it]] >= a[imax]
        invariant it <= |peaks'|
        invariant forall k :: 0 <= k < it ==> a[peaks'[k]] >= a[imax]
      {
        it := it + 1;
      }
      PutBeforeLower(a, peaks', it, imax);
      if |peaks| == maxPeaks {
        InsertedFull(a, peaks, peaks', it, places, imax, maxPeaks);
      } else {
        InsertedRoom(a, peaks, it, places, imax, maxPeaks);
      }
      peaks' := Put(peaks', it, imax);
    }
  }

  /** The scan's variables after sample i. */
  datatype Scan = Scan(amax: real, aleft: real, aright: real, imax: nat, lpeak: bool)

  /** l is where the left level was taken; the level of sample 0 is not clipped at first. */
  ghost predicate Tracks(a: seq<real>, frac: real -> real, s: Scan, l: nat, i: nat) {
    && l <= i < |a| && (s.aleft == Clip(a[l]) || (l == 0 && s.aleft == a[0]))
    && s.aleft <= s.amax && (forall k :: l <= k <= i ==> a[k] <= s.amax)
    && (s.lpeak ==> l < s.imax <= i && a[s.imax] == s.amax && s.aright == frac(s.amax) && s.aleft < s.aright)
    && (s.lpeak ==> forall k :: s.imax < k <= i ==> a[k] >= s.aright)
    && (!s.lpeak ==> s.amax == s.aleft || frac(s.amax) <= s.aleft)
  }

  /** What is known of found peaks while the scan stands with left valley l. */
  ghost predicate SoundUpTo(a: seq<real>, frac: real -> real, found: seq<Peak>, s: Scan, l: nat) {
    && Sound(a, frac, found)
    && (found != [] ==> found[|found| - 1].right <= l && l < |a| && s.aleft == Clip(a[l]))
  }

  predicate Detects(s: Scan, x: real) {
    x <= s.amax && s.lpeak && x < s.aright
  }

  /** The loop body for sample i. */
  function Advance(s: Scan, x: real, i: nat, frac: real -> real): Scan {
    if x > s.amax then
      if frac(x) > s.aleft then Scan(x, s.aleft, frac(x), i, true) else s.(amax := x)
    else if s.lpeak && x < s.aright then s.(lpeak := false, amax := Clip(x), aleft := Clip(x))
    else if !s.lpeak && x < s.aleft then s.(amax := Clip(x), aleft := Clip(x))
    else s
  }

  function Valley(s: Scan, x: real, i: nat, l: nat): nat {
    if x <= s.amax && (if s.lpeak then x < s.aright else x < s.aleft) then i else l
  }

  lemma TracksAdvance(a: seq<real>, frac: real -> real, s: Scan, l: nat, i: nat)
    requires Rising(frac) && i + 1 < |a| && Tracks(a, frac, s, l, i)
    ensures Tracks(a, frac, Advance(s, a[i + 1], i + 1, frac), Valley(s, a[i + 1], i + 1, l), i + 1)
  {
    if a[i + 1] > s.amax {
    }
  }

  ghost function FoundAt(a: seq<real>, found: seq<Peak>, s: Scan, left: nat, i: nat): seq<Peak>
    requires i < |a|
  {
    if Detects(s, a[i]) then found + [Peak(left, s.imax, i)] else found
  }

  /** The peak the scan reports at sample i. */
  lemma DetectedIsPeak(a: seq<real>, frac: real -> real, s: Scan, l: nat, i: nat)
    requires Rising(frac) && i + 1 < |a| && Tracks(a, frac, s, l, i) && Detects(s, a[i + 1])
    ensures IsPeak(a, frac, Peak(l, s.imax, i + 1))
    ensures s.aleft < frac(a[s.imax])
  {
  }

  lemma SoundAppend(a: seq<real>, frac: real -> real, found: seq<Peak>, p: Peak)
    requires Sound(a, frac, found) && IsPeak(a, frac, p)
    requires found != [] ==> found[|found| - 1].right <= p.left && Clip(a[p.left]) < frac(a[p.at])
    ensures Sound(a, frac, found + [p])
  {
    var n, f := |found|, found + [p];
    forall i | 0 <= i < n ensures found[i].right <= p.left {
      if i < n - 1 {
        assert found[i].right <= found[n - 1].left;
        assert IsPeak(a, frac, found[n - 1]);
      }
    }
    forall i | 0 <= i < |f| ensures IsPeak(a, frac, f[i]) {
    }
  }

  lemma LevelKept(a: seq<real>, frac: real -> real, s: Scan, l: nat, i: nat)
    requires i + 1 < |a| && Tracks(a, frac, s, l, i) && !Detects(s, a[i + 1])
    ensures var l' := Valley(s, a[i + 1], i + 1, l);
            var aleft' := Advance(s, a[i + 1], i + 1, frac).aleft;
            l <= l' < |a| && (s.aleft == Clip(a[l]) ==> aleft' == Clip(a[l']))
  {
  }

  lemma SoundDetect(a: seq<real>, frac: real -> real, found: seq<Peak>, s: Scan, l: nat, i: nat)
    requires Rising(frac) && i + 1 < |a| && Tracks(a, frac, s, l, i) && SoundUpTo(a, frac, found, s, l)
    requires Detects(s, a[i + 1])
    ensures Sound(a, frac, found + [Peak(l, s.imax, i + 1)])
  {
    DetectedIsPeak(a, frac, s, l, i);
    SoundAppend(a, frac, found, Peak(l, s.imax, i + 1));
  }

  lemma SoundAdvance(a: seq<real>, frac: real -> real, found: seq<Peak>, s: Scan, l: nat, i: nat)
    requires Rising(frac) && i + 1 < |a| && Tracks(a, frac, s, l, i) && SoundUpTo(a, frac, found, s, l)
    ensures SoundUpTo(a, frac, FoundAt(a, found, s, l, i + 1), Advance(s, a[i + 1], i + 1, frac),
            Valley(s, a[i + 1], i + 1, l))
  {
    if Detects(s, a[i + 1]) {
      SoundDetect(a, frac, found, s, l, i);
    } else {
      LevelKept(a, frac, s, l, i);
    }
  }

  /** A peak found after l is high enough for a later rise from the current level. */
  ghost predicate Answered(a: seq<real>, frac: real -> real, found: seq<Peak>, aleft: real, l: nat) {
    exists k :: 0 <= k < |found| && l < found[k].at < |a| && aleft <= Clip(frac(a[found[k].at]))
  }

  /** Every sample so far is no lower than the current level, or answered. */
  ghost predicate Covered(a: seq<real>, frac: real -> real, found: seq<Peak>, aleft: real, i: nat) {
    forall l: nat :: l <= i < |a| ==> aleft <= Clip(a[l]) || Answered(a, frac, found, aleft, l)
  }

  /** Every rise so far led to a peak found, or to the one being followed. */
  ghost predicate Followed(a: seq<real>, frac: real -> real, found: seq<Peak>, s: Scan, i: nat) {
    forall l: nat, p: nat :: Rises(a, frac, l, p) && p <= i ==>
      FoundAfter(a, found, l, a[p], i) || (s.lpeak && s.imax > l && s.amax >= a[p])
  }

  ghost predicate CompleteUpTo(a: seq<real>, frac: real -> real, found: seq<Peak>, i: nat) {
    forall l: nat, p: nat, r: nat :: Rises(a, frac, l, p) && p < r <= i < |a| && a[r] < frac(a[p]) ==>
      FoundAfter(a, found, l, a[p], r)
  }

  lemma FoundGrows(a: seq<real>, found: seq<Peak>, found': seq<Peak>, l: nat, height: real, before: nat, before': nat)
    requires found <= found' && before <= before' <= |a| && FoundAfter(a, found, l, height, before)
    ensures FoundAfter(a, found', l, height, before')
  {
    var k :| 0 <= k < |found| && l < found[k].at < before <= |a| && a[found[k].at] >= height;
    assert found'[k] == found[k];
  }

  lemma AnsweredGrows(a: seq<real>, frac: real -> real, found: seq<Peak>, found': seq<Peak>, aleft: real, aleft': real,
                      l: nat)
    requires found <= found' && Answered(a, frac, found, aleft, l)
    requires aleft' <= aleft || aleft' <= 0.0
    ensures Answered(a, frac, found', aleft', l)
  {
    var k :| 0 <= k < |found| && l < found[k].at < |a| && aleft <= Clip(frac(a[found[k].at]));
    assert found'[k] == found[k];
  }

  lemma CoveredAdvance(a: seq<real>, frac: real -> real, found: seq<Peak>, s: Scan, left: nat, i: nat)
    requires Rising(frac) && Shrinking(frac) && i + 1 < |a| && Tracks(a, frac, s, left, i) &&
             Covered(a, frac, found, s.aleft, i)
    ensures var found' := FoundAt(a, found, s, left, i + 1);
            Covered(a, frac, found', Advance(s, a[i + 1], i + 1, frac).aleft, i + 1)
  {
    var found' := FoundAt(a, found, s, left, i + 1);
    var aleft' := Advance(s, a[i + 1], i + 1, frac).aleft;
    forall l: nat | l <= i + 1
      ensures aleft' <= Clip(a[l]) || Answered(a, frac, found', aleft', l)
    {
      if l == i + 1 {
        NewLevel(a, frac, s, left, i);
      } else if Detects(s, a[i + 1]) {
        DetectionAnswers(a, frac, found', s, left, i, l);
      } else if Answered(a, frac, found, s.aleft, l) {
        AnsweredGrows(a, frac, found, found', s.aleft, aleft', l);
      }
    }
  }

  /** The level after a sample is no higher than the sample, clipped. */
  lemma NewLevel(a: seq<real>, frac: real -> real, s: Scan, left: nat, i: nat)
    requires Rising(frac) && Shrinking(frac) && i + 1 < |a| && Tracks(a, frac, s, left, i)
    ensures Advance(s, a[i + 1], i + 1, frac).aleft <= Clip(a[i + 1])
  {
  }

  lemma DetectionAnswers(a: seq<real>, frac: real -> real, found': seq<Peak>, s: Scan, left: nat, i: nat, l: nat)
    requires Rising(frac) && Shrinking(frac) && i + 1 < |a| && Tracks(a, frac, s, left, i) && Detects(s, a[i + 1]) &&
             l <= i
    requires found' != [] && found'[|found'| - 1].at == s.imax
    ensures Clip(a[i + 1]) <= Clip(a[l]) || Answered(a, frac, found', Clip(a[i + 1]), l)
  {
    if l < s.imax {
      var k := |found'| - 1;
      assert l < found'[k].at < |a| && Clip(a[i + 1]) <= Clip(frac(a[found'[k].at]));
    }
  }

  /** While a peak is followed, a later sample as high joins it, after l. */
  lemma RiseWhileFollowing(a: seq<real>, frac: real -> real, s: Scan, left: nat, i: nat, l: nat)
    requires Rising(frac) && Shrinking(frac) && i + 1 < |a| && Tracks(a, frac, s, left, i) && s.lpeak
    requires Rises(a, frac, l, i + 1)
    ensures (a[i + 1] > s.amax && frac(a[i + 1]) > s.aleft) || (s.imax > l && s.amax >= a[i + 1])
  {
    assert l <= s.imax || a[l] >= s.aright;
  }

  /** Otherwise it starts one, unless the level is above its fraction. */
  lemma RiseStarts(x: real, amax: real, aleft: real, frac: real -> real)
    requires Rising(frac) && Shrinking(frac) && (amax == aleft || frac(amax) <= aleft)
    requires aleft < frac(x) && 0.0 < frac(x)
    ensures x > amax
  {
  }

  lemma AnswerIsHigher(a: seq<real>, frac: real -> real, found: seq<Peak>, aleft: real, l: nat, x: real, before: nat)
    requires Rising(frac) && Answered(a, frac, found, aleft, l) && 0.0 < frac(x) <= aleft
    requires forall k :: 0 <= k < |found| ==> found[k].at < before
    requires before <= |a|
    ensures FoundAfter(a, found, l, x, before)
  {
    var k :| 0 <= k < |found| && l < found[k].at < |a| && aleft <= Clip(frac(a[found[k].at]));
  }

  /** A sample that rises from l is followed, or a peak as high was found after l. */
  lemma RiseIsFollowed(a: seq<real>, frac: real -> real, found: seq<Peak>, s: Scan, left: nat, i: nat, l: nat)
    requires Rising(frac) && Shrinking(frac) && i + 1 < |a| && Tracks(a, frac, s, left, i) &&
             Covered(a, frac, found, s.aleft, i)
    requires forall k :: 0 <= k < |found| ==> found[k].at < i + 1
    requires Rises(a, frac, l, i + 1)
    ensures FoundAfter(a, found, l, a[i + 1], i + 1)
            || (a[i + 1] > s.amax && frac(a[i + 1]) > s.aleft)
            || (s.lpeak && s.imax > l && s.amax >= a[i + 1])
  {
    if s.lpeak {
      RiseWhileFollowing(a, frac, s, left, i, l);
    } else if s.aleft < frac(a[i + 1]) {
      RiseStarts(a[i + 1], s.amax, s.aleft, frac);
    } else {
      AnswerIsHigher(a, frac, found, s.aleft, l, a[i + 1], i + 1);
    }
  }

  ghost predicate Before(found: seq<Peak>, i: nat) {
    forall k :: 0 <= k < |found| ==> found[k].at < i
  }

  lemma FollowedAdvance(a: seq<real>, frac: real -> real, found: seq<Peak>, s: Scan, left: nat, i: nat, l: nat, p: nat)
    requires Rising(frac) && Shrinking(frac) && i + 1 < |a| && Tracks(a, frac, s, left, i)
    requires Covered(a, frac, found, s.aleft, i) && Followed(a, frac, found, s, i) && Before(found, i + 1)
    requires Rises(a, frac, l, p) && p <= i + 1
    ensures var found' := FoundAt(a, found, s, left, i + 1);
            var s' := Advance(s, a[i + 1], i + 1, frac);
            FoundAfter(a, found', l, a[p], i + 1) || (s'.lpeak && s'.imax > l && s'.amax >= a[p])
  {
    var found' := FoundAt(a, found, s, left, i + 1);
    if p == i + 1 {
      RiseIsFollowed(a, frac, found, s, left, i, l);
    }
    if FoundAfter(a, found, l, a[p], i) {
      FoundGrows(a, found, found', l, a[p], i, i + 1);
    } else if FoundAfter(a, found, l, a[p], i + 1) {
      FoundGrows(a, found, found', l, a[p], i + 1, i + 1);
    } else if Detects(s, a[i + 1]) {
      var k := |found|;
      assert l < found'[k].at < i + 1 <= |a| && a[found'[k].at] >= a[p];
    }
  }

  lemma CompleteAdvance(a: seq<real>, frac: real -> real, found: seq<Peak>, s: Scan, left: nat, i: nat)
    requires Rising(frac) && Shrinking(frac) && i + 1 < |a| && Tracks(a, frac, s, left, i)
    requires Followed(a, frac, found, s, i) && CompleteUpTo(a, frac, found, i)
    ensures var found' := FoundAt(a, found, s, left, i + 1);
            CompleteUpTo(a, frac, found', i + 1)
  {
    var found' := FoundAt(a, found, s, left, i + 1);
    forall l: nat, p: nat, r: nat | Rises(a, frac, l, p) && p < r <= i + 1 && a[r] < frac(a[p])
      ensures FoundAfter(a, found', l, a[p], r)
    {
      if r <= i {
        FoundGrows(a, found, found', l, a[p], r, r);
      } else if FoundAfter(a, found, l, a[p], i) {
        FoundGrows(a, found, found', l, a[p], i, r);
      } else {
        assert a[p] <= s.amax && frac(a[p]) <= frac(s.amax);
        assert 0.0 < frac(a[p]) <= a[p];
        var k := |found|;
        assert Detects(s, a[r]);
        assert l < found'[k].at < r <= |a| && a[found'[k].at] >= a[p];
      }
    }
  }

  /** The loop invariant: what was found among samples 0 to i is sound and complete. */
  ghost predicate Scanned(a: seq<real>, frac: real -> real, found: seq<Peak>, s: Scan, left: nat, i: nat) {
    && i < |a| && Tracks(a, frac, s, left, i) && SoundUpTo(a, frac, found, s, left)
    && (Shrinking(frac) ==>
          Covered(a, frac, found, s.aleft, i) && Followed(a, frac, found, s, i) && CompleteUpTo(a, frac, found, i))
  }

  lemma ScanStarts(a: seq<real>, frac: real -> real)
    requires a != []
    ensures Scanned(a, frac, [], Scan(a[0], a[0], 0.0, 0, false), 0, 0)
  {
  }

  lemma FoundBeforeLeft(a: seq<real>, frac: real -> real, found: seq<Peak>, s: Scan, left: nat)
    requires SoundUpTo(a, frac, found, s, left)
    ensures Before(found, left)
  {
    forall k | 0 <= k < |found| ensures found[k].at < left {
      assert IsPeak(a, frac, found[k]);
      assert k < |found| - 1 ==> found[k].right <= found[|found| - 1].left;
      assert IsPeak(a, frac, found[|found| - 1]);
    }
  }

  lemma ScanAdvance(a: seq<real>, frac: real -> real, found: seq<Peak>, s: Scan, left: nat, i: nat)
    requires Rising(frac) && Scanned(a, frac, found, s, left, i) && i + 1 < |a|
    ensures var found' := FoundAt(a, found, s, left, i + 1);
            Scanned(a, frac, found', Advance(s, a[i + 1], i + 1, frac), Valley(s, a[i + 1], i + 1, left), i + 1)
  {
    TracksAdvance(a, frac, s, left, i);
    SoundAdvance(a, frac, found, s, left, i);
    if Shrinking(frac) {
      CoveredAdvance(a, frac, found, s, left, i);
      FollowedAll(a, frac, found, s, left, i);
      CompleteAdvance(a, frac, found, s, left, i);
    }
  }

  lemma FollowedAll(a: seq<real>, frac: real -> real, found: seq<Peak>, s: Scan, left: nat, i: nat)
    requires Rising(frac) && Shrinking(frac) && Scanned(a, frac, found, s, left, i) && i + 1 < |a|
    ensures var found' := FoundAt(a, found, s, left, i + 1);
            Followed(a, frac, found', Advance(s, a[i + 1], i + 1, frac), i + 1)
  {
    FoundBeforeLeft(a, frac, found, s, left);
    forall l: nat, p: nat | Rises(a, frac, l, p) && p <= i + 1
      ensures var found' := FoundAt(a, found, s, left, i + 1);
              var s' := Advance(s, a[i + 1], i + 1, frac);
              FoundAfter(a, found', l, a[p], i + 1) || (s'.lpeak && s'.imax > l && s'.amax >= a[p])
    {
      FollowedAdvance(a, frac, found, s, left, i, l, p);
    }
  }

  lemma ScanEnds(a: seq<real>, frac: real -> real, found: seq<Peak>, s: Scan, left: nat, i: nat)
    requires Scanned(a, frac, found, s, left, i) && i + 1 == |a|
    ensures Sound(a, frac, found)
    ensures Shrinking(frac) ==> Complete(a, frac, found)
  {
  }

  function Scaled(f: real, x: real): real {
    f * x
  }

  ghost predicate IsTimes(frac: real -> real, afrac: real) {
    forall x {:trigger Scaled(afrac, x)} :: frac(x) == Scaled(afrac, x)
  }

  /** The loop body: the variables after sample i, and whether a peak ended there. */
  method Sample(s: Scan, x: real, i: nat, afrac: real, ghost frac: real -> real) returns (s': Scan, ended: bool)
    requires IsTimes(frac, afrac)
    ensures s' == Advance(s, x, i, frac)
    ensures ended == Detects(s, x)
  {
    var amax, aleft, aright, imax, lpeak := s.amax, s.aleft, s.aright, s.imax, s.lpeak;
    ended := false;
    if x > amax {
      amax := x;
      var af := Scaled(afrac, amax);
      if af > aleft {
        imax := i;
        lpeak := true;
        aright := af;
      }
    } else if lpeak && x < aright {
      ended := true;
      lpeak := false;
      aleft := if x > 0.0 then x else 0.0;
      amax := aleft;
    } else if !lpeak && x < aleft {
      aleft := if x > 0.0 then x else 0.0;
      amax := aleft;
    }
    s' := Scan(amax, aleft, aright, imax, lpeak);
  }

  /** List the peak that ended at sample i, if one did. */
  method List(a: seq<real>, peaks: seq<nat>, maxPeaks: nat, s: Scan, i: nat, ended: bool,
              ghost found: seq<Peak>, ghost left: nat) returns (peaks': seq<nat>)
    requires maxPeaks > 0 && i < |a| && TopOf(a, peaks, Places(found), maxPeaks) && ended == Detects(s, a[i])
    requires ended ==> s.imax < |a| && s.imax !in Places(found)
    ensures TopOf(a, peaks', Places(FoundAt(a, found, s, left, i)), maxPeaks)
  {
    peaks' := peaks;
    if ended {
      peaks' := Insert(a, peaks, s.imax, maxPeaks, Places(found));
      PlacesAppend(found, Peak(left, s.imax, i));
    }
  }

  /** The scan of samples 0 to i: the peaks found, the variables, and the left valley. */
  datatype Progress = Progress(found: seq<Peak>, scan: Scan, left: nat)

  ghost function ScanTo(a: seq<real>, frac: real -> real, i: nat): Progress
    requires i < |a|
  {
    if i == 0 then Progress([], Scan(a[0], a[0], 0.0, 0, false), 0)
    else
      var p := ScanTo(a, frac, i - 1);
      Progress(FoundAt(a, p.found, p.scan, p.left, i), Advance(p.scan, a[i], i, frac), Valley(p.scan, a[i], i, p.left))
  }

  /** The peaks found in all the samples. */
  ghost function Found(a: seq<real>, frac: real -> real): seq<Peak>
    requires a != []
  {
    ScanTo(a, frac, |a| - 1).found
  }

  ghost predicate RightTo(a: seq<real>, frac: real -> real, i: nat)
    requires i < |a|
  {
    var p := ScanTo(a, frac, i);
    Scanned(a, frac, p.found, p.scan, p.left, i)
  }

  lemma RightNext(a: seq<real>, frac: real -> real, k: nat)
    requires k + 1 < |a| && Rising(frac) && RightTo(a, frac, k)
    ensures RightTo(a, frac, k + 1)
  {
    var p := ScanTo(a, frac, k);
    ScanAdvance(a, frac, p.found, p.scan, p.left, k);
    assert ScanTo(a, frac, k + 1) ==
           Progress(FoundAt(a, p.found, p.scan, p.left, k + 1), Advance(p.scan, a[k + 1], k + 1, frac),
                    Valley(p.scan, a[k + 1], k + 1, p.left));
  }

  lemma ScanIsRight(a: seq<real>, frac: real -> real, i: nat)
    requires i < |a| && Rising(frac)
    ensures RightTo(a, frac, i)
  {
    ScanStarts(a, frac);
    var k := 0;
    while k < i
      invariant k <= i && RightTo(a, frac, k)
    {
      RightNext(a, frac, k);
      k := k + 1;
    }
  }

  ghost predicate IsNew(a: seq<real>, p: Progress) {
    p.scan.lpeak ==> p.scan.imax < |a| && p.scan.imax !in Places(p.found)
  }

  lemma PeakIsNew(a: seq<real>, frac: real -> real, i: nat)
    requires i < |a| && Rising(frac)
    ensures IsNew(a, ScanTo(a, frac, i))
  {
    var p := ScanTo(a, frac, i);
    ScanIsRight(a, frac, i);
    NewPlace(a, frac, p.found, p.scan, p.left, i);
  }

  /** What the scan finds is sound, and complete when the fraction is at most one. */
  lemma FoundIsRight(a: seq<real>, afrac: real)
    requires a != [] && afrac >= 0.0
    ensures Sound(a, Times(afrac), Found(a, Times(afrac)))
    ensures afrac <= 1.0 ==> Complete(a, Times(afrac), Found(a, Times(afrac)))
  {
    var p := ScanTo(a, Times(afrac), |a| - 1);
    TimesIsRising(afrac);
    ScanIsRight(a, Times(afrac), |a| - 1);
    if afrac <= 1.0 {
      TimesIsShrinking(afrac);
    }
    ScanEnds(a, Times(afrac), p.found, p.scan, p.left, |a| - 1);
  }

  /** The peaks are the highest of those found. */
  method FindPeaks(a: seq<real>, afrac: real, maxPeaks: nat) returns (peaks: seq<nat>)
    requires a != [] && maxPeaks > 0 && afrac >= 0.0
    ensures TopOf(a, peaks, Places(Found(a, Times(afrac))), maxPeaks)
  {
    TimesIsRising(afrac);
    forall i | 0 <= i < |a| ensures IsNew(a, ScanTo(a, Times(afrac), i)) {
      PeakIsNew(a, Times(afrac), i);
    }
    peaks := ScanAll(a, afrac, maxPeaks, Times(afrac));
  }

  method ScanAll(a: seq<real>, afrac: real, maxPeaks: nat, ghost frac: real -> real) returns (peaks: seq<nat>)
    requires a != [] && maxPeaks > 0 && IsTimes(frac, afrac)
    requires forall i :: 0 <= i < |a| ==> IsNew(a, ScanTo(a, frac, i))
    ensures TopOf(a, peaks, Places(Found(a, frac)), maxPeaks)
  {
    peaks := [];
    var s := Scan(a[0], a[0], 0.0, 0, false);
    for i := 1 to |a|
      invariant s == ScanTo(a, frac, i - 1).scan
      invariant TopOf(a, peaks, Places(ScanTo(a, frac, i - 1).found), maxPeaks)
    {
      s, peaks := NextSample(a, afrac, maxPeaks, s, i, peaks, frac);
    }
  }

  method NextSample(a: seq<real>, afrac: real, maxPeaks: nat, s: Scan, i: nat, peaks: seq<nat>,
                    ghost frac: real -> real)
    returns (s': Scan, peaks': seq<nat>)
    requires maxPeaks > 0 && 0 < i < |a| && IsTimes(frac, afrac)
    requires s == ScanTo(a, frac, i - 1).scan && IsNew(a, ScanTo(a, frac, i - 1))
    requires TopOf(a, peaks, Places(ScanTo(a, frac, i - 1).found), maxPeaks)
    ensures s' == ScanTo(a, frac, i).scan
    ensures TopOf(a, peaks', Places(ScanTo(a, frac, i).found), maxPeaks)
  {
    ghost var p := ScanTo(a, frac, i - 1);
    var ended: bool;
    s', ended := Sample(s, a[i], i, afrac, frac);
    peaks' := List(a, peaks, maxPeaks, s, i, ended, p.found, p.left);
    assert ScanTo(a, frac, i).found == FoundAt(a, p.found, p.scan, p.left, i);
  }

  lemma PlacesAppend(found: seq<Peak>, p: Peak)
    ensures Places(found + [p]) == Places(found) + [p.at]
  {
  }

  lemma NewPlace(a: seq<real>, frac: real -> real, found: seq<Peak>, s: Scan, left: nat, i: nat)
    requires Scanned(a, frac, found, s, left, i)
    ensures s.lpeak ==> s.imax < |a| && s.imax !in Places(found)
  {
    FoundBeforeLeft(a, frac, found, s, left);
  }

  /** Two reported peaks are apart: after the first comes a sample below its fraction,
      and then, still before the second, one below the fraction of that. */
  lemma PeaksAreApart(a: seq<real>, frac: real -> real, found: seq<Peak>, i: nat, j: nat)
    requires Sound(a, frac, found) && i < j < |found|
    ensures exists k, m :: found[i].at < k <= m < found[j].at && k < |a| && m < |a|
              && a[k] < frac(a[found[i].at]) && Below(a[m], frac(a[found[j].at]))
  {
    var k, m := found[i].right, found[j].left;
    assert IsPeak(a, frac, found[i]) && IsPeak(a, frac, found[j]);
    assert found[i].at < k <= m < found[j].at && a[k] < frac(a[found[i].at]) && Below(a[m], frac(a[found[j].at]));
  }
}
