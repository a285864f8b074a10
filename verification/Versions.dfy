/** Published versions: which tags count, which is the latest, and when an update is available. */
module Versions {
  import opened Text
  import opened LeafToken
  import opened Ordering

  // ---- Version strings ----

  /** `str::split('.')`. */
  function SplitDots(s: string): (r: seq<string>)
    ensures r != []
  {
    var k := FirstIndex(s, '.');
    if k == |s| then [s] else [s[..k]] + SplitDots(s[k + 1..])
  }

  /** digits (`.` digits)* */
  predicate IsVersion(s: string) { AllDigits(SplitDots(s)) }

  /** The segments of the rest of a text, the first one preceded by `head`. */
  predicate RestIsVersion(head: string, s: string) {
    var segments := SplitDots(s);
    IsDigits(head + segments[0]) && forall i :: 1 <= i < |segments| ==> IsDigits(segments[i])
  }

  lemma RestStep(head: string, s: string)
    requires s != [] && AllIn(Digit, head)
    ensures s[0] == '.' ==> (RestIsVersion(head, s) <==> head != [] && RestIsVersion("", s[1..]))
    ensures IsDigit(s[0]) ==> (RestIsVersion(head, s) <==> RestIsVersion(head + [s[0]], s[1..]))
    ensures s[0] != '.' && !IsDigit(s[0]) ==> !RestIsVersion(head, s)
  {
    var segments := SplitDots(s);
    var k := FirstIndex(s, '.');
    if s[0] == '.' {
      assert k == 0 && s[..0] == [] && head + [] == head;
      var more := SplitDots(s[1..]);
      assert segments == [[]] + more;
      assert "" + more[0] == more[0];
      assert forall i :: 1 <= i < |more| ==> more[i] == segments[i + 1];
      assert forall i :: 1 <= i < |segments| ==> segments[i] == more[i - 1];
    } else {
      var more := SplitDots(s[1..]);
      assert k == FirstIndex(s[1..], '.') + 1;
      assert segments[0] == [s[0]] + more[0] by { if k < |s| { assert s[..k] == [s[0]] + s[1..][..k - 1]; } }
      assert segments[1..] == more[1..] by { if k < |s| { assert s[k + 1..] == s[1..][k..]; } }
      assert forall i :: 1 <= i < |segments| ==> segments[i] == segments[1..][i - 1] == more[1..][i - 1] == more[i];
      assert head + ([s[0]] + more[0]) == head + [s[0]] + more[0];
      assert (head + ([s[0]] + more[0]))[|head|] == s[0];
    }
  }

  /** `is_numeric_version`: one pass with a flag for a dot just read. */
  method IsNumericVersion(name: string) returns (ok: bool)
    ensures ok <==> IsVersion(name)
  {
    hide SplitDots, IsDigit, RestIsVersion;
    VersionIsRest(name);
    if name == "" {
      EmptyRest("");
      return false;
    }
    var lastWasDot := true;
    ghost var head := "";
    assert name[0..] == name;
    for i := 0 to |name|
      invariant AllIn(Digit, head) && (lastWasDot <==> head == "")
      invariant IsVersion(name) <==> RestIsVersion(head, name[i..])
    {
      RestStep(head, name[i..]);
      assert name[i..][1..] == name[i + 1..];
      DotIsNoDigit(name[i]);
      if IsDigit(name[i]) {
        lastWasDot := false;
        head := head + [name[i]];
      } else if name[i] == '.' {
        if lastWasDot {
          return false;
        }
        lastWasDot := true;
        head := "";
      } else {
        return false;
      }
    }
    assert name[|name|..] == "";
    EmptyRest(head);
    return !lastWasDot;
  }

  lemma DotIsNoDigit(c: char)
    ensures c == '.' ==> !IsDigit(c)
    ensures IsDigit(c) <==> InClass(Digit, c)
  {}

  lemma VersionIsRest(s: string)
    ensures IsVersion(s) <==> RestIsVersion("", s)
  {
    assert "" + SplitDots(s)[0] == SplitDots(s)[0];
  }

  lemma EmptyRest(head: string)
    requires AllIn(Digit, head)
    ensures RestIsVersion(head, "") <==> head != ""
  {
    assert SplitDots("") == [""] && head + "" == head;
  }

  // ---- Keys ----

  const U64: nat := 0x1_0000_0000_0000_0000

  /** `str::parse::<u64>`: digits after an optional plus sign, if the value fits. */
  function ParseU64(s: string): Option<nat> {
    var digits := if s != [] && s[0] == '+' then s[1..] else s;
    if !IsDigits(digits) then None
    else if ReadNat(digits) < U64 then Some(ReadNat(digits)) else None
  }

  function KeyOf(segments: seq<string>): seq<nat> {
    if segments == [] then []
    else (match ParseU64(segments[0]) case Some(n) => [n] case None => []) + KeyOf(segments[1..])
  }

  /** `version_key`: segments that do not parse are dropped. */
  function VersionKey(v: string): seq<nat> { KeyOf(SplitDots(v)) }

  predicate AllDigits(segments: seq<string>) { forall i :: 0 <= i < |segments| ==> IsDigits(segments[i]) }

  function ReadDigits(s: string): nat
    requires IsDigits(s)
  {
    ReadNat(s)
  }

  function Numbers(segments: seq<string>): seq<nat>
    requires AllDigits(segments)
  {
    if segments == [] then [] else [ReadDigits(segments[0])] + Numbers(segments[1..])
  }

  predicate AllFit(segments: seq<string>)
    requires AllDigits(segments)
  {
    segments != [] ==> ReadDigits(segments[0]) < U64 && AllFit(segments[1..])
  }

  /** The key of a version is its list of numbers exactly when every number fits 64 bits. */
  lemma KeyIsNumbers(v: string)
    requires IsVersion(v)
    ensures VersionKey(v) == Numbers(SplitDots(v)) <==> AllFit(SplitDots(v))
  {
    KeyOfNumbers(SplitDots(v));
  }

  lemma {:induction false} KeyOfNumbers(segments: seq<string>)
    requires AllDigits(segments)
    ensures |KeyOf(segments)| <= |segments| == |Numbers(segments)|
    ensures |KeyOf(segments)| == |segments| <==> AllFit(segments)
    ensures AllFit(segments) ==> KeyOf(segments) == Numbers(segments)
  {
    hide ReadNat;
    if segments != [] {
      KeyOfNumbers(segments[1..]);
      DigitsParse(segments[0]);
    }
  }

  lemma DigitsParse(s: string)
    requires IsDigits(s)
    ensures ParseU64(s) == if ReadNat(s) < U64 then Some(ReadNat(s)) else None
  {
    assert InClass(Digit, s[0]);
  }

  /** A segment is read as a number of at most 64 bits, a plus sign before it aside; any other is dropped. */
  lemma SegmentsRead(s: string)
    ensures IsDigits(s) ==> ParseU64(s) == if ReadNat(s) < U64 then Some(ReadNat(s)) else None
    ensures IsDigits(s) ==> ParseU64("+" + s) == ParseU64(s)
    ensures ParseU64(s).Some? ==> IsDigits(s) || (s != "" && s[0] == '+' && IsDigits(s[1..]))
  {
    hide ReadNat;
    if IsDigits(s) { DigitsParse(s); }
    assert ("+" + s)[1..] == s;
  }

  /** The greatest number that is read, and the least that is dropped. */
  lemma LargestFits()
    ensures ParseU64(ShowNat(18446744073709551615)) == Some(18446744073709551615)
    ensures ParseU64(ShowNat(18446744073709551616)) == None
  {
    hide ShowNat, ReadNat, ParseU64;
    ReadShowNat(18446744073709551615);
    ReadShowNat(18446744073709551616);
    DigitsParse(ShowNat(18446744073709551615));
    DigitsParse(ShowNat(18446744073709551616));
  }

  /** A version whose every number fits. */
  predicate IsSmallVersion(v: string) { IsVersion(v) && AllFit(SplitDots(v)) }

  /** `a` comes before `b` as a tuple of numbers. */
  predicate NumbersLess(a: string, b: string)
    requires IsVersion(a) && IsVersion(b)
  {
    Less(Numbers(SplitDots(a)), Numbers(SplitDots(b)))
  }

  /** On such versions the order of keys is the numeric order: newer means a greater tuple. */
  lemma NewerIsNumeric(candidate: string, current: string)
    requires IsSmallVersion(candidate) && IsSmallVersion(current)
    ensures IsNewer(candidate, current) <==> NumbersLess(current, candidate)
  {
    hide Less;
    KeyIsNumbers(candidate);
    KeyIsNumbers(current);
  }

  /** Among such versions the latest is one that no version exceeds as a tuple of numbers. */
  lemma LatestIsNumericMaximum(v: string, versions: seq<string>)
    requires v in versions && forall u :: u in versions ==> IsSmallVersion(u)
    ensures IsSmallVersion(v)
    ensures IsLatest(v, versions) <==> forall u :: u in versions ==> IsSmallVersion(u) && !NumbersLess(v, u)
  {
    hide Less, Numbers, VersionKey;
    forall u | u in versions ensures AtMost(VersionKey(u), VersionKey(v)) <==> !NumbersLess(v, u) {
      NewerIsNumeric(u, v);
      Trichotomy(VersionKey(u), VersionKey(v));
    }
  }

  /** With a number of 2^64 the order is lost: `1` counts as newer. */
  lemma HugeVersionIsOld()
    ensures var huge := ShowNat(U64); IsVersion(huge) && IsVersion("1") && NumbersLess("1", huge) && IsNewer("1", huge)
  {
    hide ShowNat, ReadNat, SplitDots, ParseU64;
    var huge := ShowNat(U64);
    ReadShowNat(U64);
    OneSegment(huge);
    OneSegment("1");
    ReadOne();
    DigitsParse(huge);
    DigitsParse("1");
    assert [huge][1..] == [] && ["1"][1..] == [];
    assert KeyOf([]) == [] && Numbers([]) == [];
  }

  lemma ReadOne()
    ensures ReadNat("1") == 1
  {
    assert "1"[..0] == [];
  }

  lemma OneSegment(s: string)
    requires IsDigits(s)
    ensures SplitDots(s) == [s]
  {
    forall i | 0 <= i < |s| ensures s[i] != '.' {
      assert InClass(Digit, s[i]);
    }
  }

  // ---- A version that does not fit is ordered wrongly ----

  function JoinDots(segments: seq<string>): string
    requires segments != []
  {
    if |segments| == 1 then segments[0] else segments[0] + ['.'] + JoinDots(segments[1..])
  }

  lemma {:induction false} SplitJoined(segments: seq<string>)
    requires segments != [] && AllDigits(segments)
    ensures SplitDots(JoinDots(segments)) == segments
  {
    hide SplitDots, IsDigits;
    var first, rest := segments[0], segments[1..];
    OneSegment(first);
    if rest == [] {
      assert segments == [first];
    } else {
      SplitJoined(rest);
      SplitAtDot(first, JoinDots(rest));
      assert segments == [first] + rest;
    }
  }

  lemma SplitAtDot(head: string, tail: string)
    requires IsDigits(head)
    ensures SplitDots(head + ['.'] + tail) == [head] + SplitDots(tail)
  {
    forall i | 0 <= i < |head| ensures head[i] != '.' {
      assert InClass(Digit, head[i]);
    }
    FirstIndexAt(head, '.', tail);
    var s := head + ['.'] + tail;
    assert s[..|head|] == head && s[|head| + 1..] == tail;
  }

  /** The greatest number that fits, `n` times. */
  function Maxima(n: nat): (r: seq<string>)
    ensures |r| == n && AllDigits(r)
  {
    if n == 0 then [] else [ShowNat(U64 - 1)] + Maxima(n - 1)
  }

  /** The segments with the first number that does not fit, and all after it, made the greatest that fit. */
  function Capped(segments: seq<string>): (r: seq<string>)
    requires AllDigits(segments)
    ensures |r| == |segments| && AllDigits(r)
  {
    if segments == [] then []
    else if ReadDigits(segments[0]) < U64 then [segments[0]] + Capped(segments[1..])
    else Maxima(|segments|)
  }

  lemma {:induction false} MaximaFit(n: nat)
    ensures AllFit(Maxima(n))
    ensures n > 0 ==> Numbers(Maxima(n))[0] == U64 - 1
  {
    hide ShowNat, ReadNat;
    if n > 0 {
      ReadShowNat(U64 - 1);
      MaximaFit(n - 1);
      assert Maxima(n)[1..] == Maxima(n - 1);
    }
  }

  /** A shorter key with numbers that fit comes before. */
  lemma {:induction false} KeyBelowMaxima(segments: seq<string>, n: nat)
    requires AllDigits(segments) && |segments| < n
    ensures Less(KeyOf(segments), Numbers(Maxima(n)))
  {
    hide ShowNat, ReadNat, ParseU64;
    ReadShowNat(U64 - 1);
    assert Maxima(n)[1..] == Maxima(n - 1);
    if segments != [] {
      var rest := segments[1..];
      DigitsParse(segments[0]);
      KeyBelowMaxima(rest, n - 1);
      if ParseU64(segments[0]).Some? {
        assert KeyOf(segments)[1..] == KeyOf(rest);
      } else {
        assert KeyOf(segments) == KeyOf(rest);
        KeyBelowMaxima(rest, n);
      }
    }
  }

  /** The capped segments lie strictly between the key and the numbers. */
  lemma {:induction false} CappedIsBetween(segments: seq<string>)
    requires AllDigits(segments) && !AllFit(segments)
    ensures AllFit(Capped(segments)) && Less(Numbers(Capped(segments)), Numbers(segments))
    ensures Less(KeyOf(segments), Numbers(Capped(segments)))
  {
    hide ReadNat, ParseU64;
    var first, rest := segments[0], segments[1..];
    DigitsParse(first);
    if ReadDigits(first) < U64 {
      CappedIsBetween(rest);
      assert Capped(segments)[1..] == Capped(rest);
    } else {
      MaximaFit(|segments|);
      assert KeyOf(segments) == KeyOf(rest);
      KeyBelowMaxima(rest, |segments|);
    }
  }

  /** A version with a number that does not fit is older, by its key, than some smaller version. */
  lemma SmallerIsNewer(v: string) returns (u: string)
    requires IsVersion(v) && !IsSmallVersion(v)
    ensures IsSmallVersion(u) && NumbersLess(u, v) && IsNewer(u, v)
  {
    hide Less, KeyOf, Numbers, Capped;
    var segments := Capped(SplitDots(v));
    u := JoinDots(segments);
    SplitJoined(segments);
    CappedIsBetween(SplitDots(v));
    KeyIsNumbers(u);
  }

  /** So keys order a version rightly, among the versions that fit, exactly when it fits itself. */
  lemma FitsExactly(v: string)
    requires IsVersion(v)
    ensures IsSmallVersion(v) <==> forall u :: IsSmallVersion(u) ==> (IsNewer(u, v) <==> NumbersLess(v, u))
    ensures IsSmallVersion(v) <==> forall u :: IsSmallVersion(u) ==> (IsNewer(v, u) <==> NumbersLess(u, v))
    ensures IsSmallVersion(v) <==> forall u :: IsSmallVersion(u) ==> (IsLatest(v, [u, v]) <==> !NumbersLess(v, u))
  {
    hide Less, VersionKey, Numbers, AllFit;
    if IsSmallVersion(v) {
      forall u | IsSmallVersion(u)
        ensures (IsNewer(u, v) <==> NumbersLess(v, u)) && (IsNewer(v, u) <==> NumbersLess(u, v))
        ensures IsLatest(v, [u, v]) <==> !NumbersLess(v, u)
      {
        NewerIsNumeric(u, v);
        NewerIsNumeric(v, u);
        LatestOfTwo(u, v);
      }
    } else {
      var u := SmallerIsNewer(v);
      Trichotomy(VersionKey(u), VersionKey(v));
      Trichotomy(Numbers(SplitDots(u)), Numbers(SplitDots(v)));
      LatestOfTwo(u, v);
    }
  }

  lemma LatestOfTwo(u: string, v: string)
    ensures IsLatest(v, [u, v]) <==> !IsNewer(u, v)
  {
    hide VersionKey, Less;
    Trichotomy(VersionKey(u), VersionKey(v));
    assert [u, v][0] == u && [u, v][1] == v;
  }

  /** `is_newer_version`. */
  predicate IsNewer(candidate: string, current: string) { Less(VersionKey(current), VersionKey(candidate)) }

  // ---- The latest ----

  predicate Descending(versions: seq<string>) {
    forall i, j :: 0 <= i < j < |versions| ==> AtMost(VersionKey(versions[j]), VersionKey(versions[i]))
  }

  /** A stable insertion into a list sorted by falling keys: behind everything with an equal or greater key. */
  function InsertByKey(sorted: seq<string>, v: string): seq<string> {
    if sorted == [] then [v]
    else if Less(VersionKey(sorted[0]), VersionKey(v)) then [v] + sorted
    else [sorted[0]] + InsertByKey(sorted[1..], v)
  }

  function SortByKey(versions: seq<string>): seq<string> {
    if versions == [] then [] else InsertByKey(SortByKey(versions[..|versions| - 1]), versions[|versions| - 1])
  }

  lemma NotLess(a: seq<nat>, b: seq<nat>)
    ensures Less(a, b) ==> AtMost(a, b)
    ensures !Less(a, b) ==> AtMost(b, a)
  {
    Trichotomy(a, b);
  }

  lemma ConsDescending(v: string, rest: seq<string>)
    requires Descending(rest) && forall u :: u in rest ==> AtMost(VersionKey(u), VersionKey(v))
    ensures Descending([v] + rest)
  {
    hide VersionKey, AtMost;
    var all := [v] + rest;
    forall i, j | 0 <= i < j < |all| ensures AtMost(VersionKey(all[j]), VersionKey(all[i])) {
      assert all[j] == rest[j - 1];
      assert i > 0 ==> all[i] == rest[i - 1];
    }
  }

  lemma {:induction false} InsertMembers(sorted: seq<string>, v: string)
    ensures multiset(InsertByKey(sorted, v)) == multiset(sorted) + multiset{v}
    ensures forall u :: u in InsertByKey(sorted, v) <==> u in sorted || u == v
  {
    hide VersionKey, Less;
    if sorted != [] {
      assert sorted == [sorted[0]] + sorted[1..];
      InsertMembers(sorted[1..], v);
    }
  }

  lemma {:induction false} InsertKeepsOrder(sorted: seq<string>, v: string)
    requires Descending(sorted)
    ensures Descending(InsertByKey(sorted, v)) && multiset(InsertByKey(sorted, v)) == multiset(sorted) + multiset{v}
  {
    hide VersionKey, Less, AtMost;
    InsertMembers(sorted, v);
    if sorted == [] {
      ConsDescending(v, []);
      assert [v] + [] == [v];
    } else {
      var key, top := VersionKey(v), VersionKey(sorted[0]);
      NotLess(top, key);
      if Less(top, key) {
        forall u | u in sorted ensures AtMost(VersionKey(u), key) {
          var i :| 0 <= i < |sorted| && sorted[i] == u;
          if i > 0 { AtMostTransitive(VersionKey(u), top, key); }
        }
        ConsDescending(v, sorted);
      } else {
        InsertKeepsOrder(sorted[1..], v);
        InsertMembers(sorted[1..], v);
        ConsDescending(sorted[0], InsertByKey(sorted[1..], v));
      }
    }
  }

  lemma {:induction false} SortIsSorted(versions: seq<string>)
    ensures Descending(SortByKey(versions)) && multiset(SortByKey(versions)) == multiset(versions)
  {
    if versions != [] {
      var init, last := versions[..|versions| - 1], versions[|versions| - 1];
      SortIsSorted(init);
      InsertKeepsOrder(SortByKey(init), last);
      assert versions == init + [last];
    }
  }

  /** `v` is among `versions` and no key is greater. */
  predicate IsLatest(v: string, versions: seq<string>) {
    v in versions && forall u :: u in versions ==> AtMost(VersionKey(u), VersionKey(v))
  }

  /** Of several greatest versions the sort, being stable, keeps the first one first. */
  predicate FirstGreatest(i: nat, v: string, versions: seq<string>) {
    i < |versions| && versions[i] == v && forall j :: 0 <= j < i ==> Less(VersionKey(versions[j]), VersionKey(v))
  }

  lemma SortedHead(versions: seq<string>)
    requires versions != []
    ensures var before, last := SortByKey(versions[..|versions| - 1]), versions[|versions| - 1];
      && (before == [] <==> |versions| == 1)
      && SortByKey(versions) != []
      && SortByKey(versions)[0] ==
           if before == [] || Less(VersionKey(before[0]), VersionKey(last)) then last else before[0]
  {
    hide VersionKey, Less;
    SortIsSorted(versions[..|versions| - 1]);
  }

  lemma {:induction false} HeadIsFirst(versions: seq<string>) returns (i: nat)
    requires versions != []
    ensures SortByKey(versions) != [] && FirstGreatest(i, SortByKey(versions)[0], versions)
  {
    hide VersionKey, Less, SortByKey;
    var init, last := versions[..|versions| - 1], versions[|versions| - 1];
    SortedHead(versions);
    if init == [] {
      i := 0;
    } else {
      i := HeadIsFirst(init);
      var top := SortByKey(init)[0];
      if Less(VersionKey(top), VersionKey(last)) {
        i := |init|;
        SortIsSorted(init);
        forall j | 0 <= j < |init| ensures Less(VersionKey(versions[j]), VersionKey(last)) {
          HeadIsTop(SortByKey(init), init, versions[j]);
          Below(VersionKey(versions[j]), VersionKey(top), VersionKey(last));
        }
      }
    }
  }

  lemma HeadIsTop(sorted: seq<string>, versions: seq<string>, u: string)
    requires Descending(sorted) && multiset(sorted) == multiset(versions) && u in versions && sorted != []
    ensures AtMost(VersionKey(u), VersionKey(sorted[0]))
  {
    hide VersionKey;
    assert u in multiset(sorted);
    var i :| 0 <= i < |sorted| && sorted[i] == u;
  }

  lemma Below(a: seq<nat>, b: seq<nat>, c: seq<nat>)
    requires AtMost(a, b) && Less(b, c)
    ensures Less(a, c)
  {
    if a != b { LessTransitive(a, b, c); }
  }

  method HeadOfSorted(versions: seq<string>) returns (r: Option<string>)
    ensures r.None? <==> versions == []
    ensures r.Some? ==> IsLatest(r.value, versions) && exists i :: FirstGreatest(i, r.value, versions)
  {
    hide VersionKey, SortByKey, FirstGreatest;
    var ordered := SortByKey(versions);
    SortIsSorted(versions);
    assert |ordered| == |multiset(ordered)| == |versions|;
    if ordered == [] {
      return None;
    }
    forall u | u in versions ensures AtMost(VersionKey(u), VersionKey(ordered[0])) {
      HeadIsTop(ordered, versions, u);
    }
    assert ordered[0] in multiset(versions);
    ghost var i := HeadIsFirst(versions);
    return Some(ordered[0]);
  }

  function TrimAll(versions: seq<string>): seq<string> {
    if versions == [] then []
    else
      var v := Trim(versions[|versions| - 1]);
      TrimAll(versions[..|versions| - 1]) + if v == "" then [] else [v]
  }

  lemma {:induction false} TrimAllMembers(versions: seq<string>, v: string)
    ensures v in TrimAll(versions) <==> v != "" && exists u :: u in versions && Trim(u) == v
  {
    hide Trim;
    if versions != [] {
      var init, last := versions[..|versions| - 1], versions[|versions| - 1];
      TrimAllMembers(init, v);
      assert versions == init + [last];
    }
  }

  /** `latest_version`. */
  method LatestVersion(versions: seq<string>) returns (r: Option<string>)
    ensures r.None? <==> TrimAll(versions) == []
    ensures r.Some? ==> IsLatest(r.value, TrimAll(versions)) && exists i :: FirstGreatest(i, r.value, TrimAll(versions))
  {
    hide Trim, IsLatest, FirstGreatest;
    var ordered := [];
    for i := 0 to |versions|
      invariant ordered == TrimAll(versions[..i])
    {
      assert versions[..i + 1][..i] == versions[..i];
      var v := Trim(versions[i]);
      if v != "" {
        ordered := ordered + [v];
      }
    }
    assert versions[..|versions|] == versions;
    r := HeadOfSorted(ordered);
  }

  /** The leading segments of `v` are those of `target`. */
  predicate MatchesTarget(target: string, v: string) {
    var t, p := SplitDots(target), SplitDots(v);
    |p| >= |t| && p[..|t|] == t
  }

  /** In plain text: the version is the target, or goes on behind it with a dot. */
  lemma {:induction false} MatchesExactly(target: string, v: string)
    ensures MatchesTarget(target, v) <==> v == target || target + ['.'] <= v
    decreases |target|
  {
    var k, m := FirstIndex(target, '.'), FirstIndex(v, '.');
    var head, first := target[..k], v[..m];
    if k < |target| {
      var rest := target[k + 1..];
      assert target == head + ['.'] + rest;
      if m < |v| {
        var tail := v[m + 1..];
        assert v == first + ['.'] + tail;
        MatchesExactly(rest, tail);
        TargetStep(head, rest, first, tail);
      } else {
        assert '.' !in v by { assert v[..m] == v; }
        assert target[k] == '.' && '.' in target;
        DotlessGoesOnNowhere(target, v);
      }
    } else {
      assert target[..k] == target;
      TargetEnds(target, v);
    }
  }

  lemma DotlessGoesOnNowhere(target: string, v: string)
    requires '.' in target && '.' !in v
    ensures v != target && !(target + ['.'] <= v)
  {
    var i :| 0 <= i < |target| && target[i] == '.';
    assert i < |v| ==> v[i] in v;
  }

  lemma TargetStep(head: string, rest: string, first: string, tail: string)
    requires '.' !in head && '.' !in first
    ensures var target, v := head + ['.'] + rest, first + ['.'] + tail;
      && (MatchesTarget(target, v) <==> head == first && MatchesTarget(rest, tail))
      && (v == target || target + ['.'] <= v <==> head == first && (tail == rest || rest + ['.'] <= tail))
  {
    hide SplitDots;
    var target, v := head + ['.'] + rest, first + ['.'] + tail;
    DotSplit(head, rest);
    DotSplit(first, tail);
    var t, p := SplitDots(rest), SplitDots(tail);
    assert |p| >= |t| ==> ([first] + p)[..|t| + 1] == [first] + p[..|t|];
    if |p| >= |t| && [first] + p[..|t|] == [head] + t {
      assert ([first] + p[..|t|])[0] == ([head] + t)[0] && ([first] + p[..|t|])[1..] == ([head] + t)[1..];
    }
    SameHead(head, rest, first, tail);
  }

  lemma DotSplit(head: string, tail: string)
    requires '.' !in head
    ensures SplitDots(head + ['.'] + tail) == [head] + SplitDots(tail)
  {
    FirstIndexAt(head, '.', tail);
    var s := head + ['.'] + tail;
    assert s[..|head|] == head && s[|head| + 1..] == tail;
  }

  /** The texts up to the first dots can be compared by themselves. */
  lemma SameHead(head: string, rest: string, first: string, tail: string)
    requires '.' !in head && '.' !in first
    ensures var target, v := head + ['.'] + rest, first + ['.'] + tail;
      v == target || target + ['.'] <= v <==> head == first && (tail == rest || rest + ['.'] <= tail)
  {
    var target, v := head + ['.'] + rest, first + ['.'] + tail;
    if v == target || target + ['.'] <= v {
      assert target <= v;
      SameFirstDot(head, rest, first, tail);
      assert head == v[..|head|] == first;
    }
    if head == first { SameTail(head, rest, tail); }
  }

  lemma SameTail(head: string, rest: string, tail: string)
    ensures var target, v := head + ['.'] + rest, head + ['.'] + tail;
      v == target || target + ['.'] <= v <==> tail == rest || rest + ['.'] <= tail
  {
    var target, v, k := head + ['.'] + rest, head + ['.'] + tail, |head| + 1;
    assert target[k..] == rest && v[k..] == tail && target[..k] == v[..k];
    assert (target + ['.'])[k..] == rest + ['.'];
    if target + ['.'] <= v { assert tail[..|rest| + 1] == v[k..][..|rest| + 1] == (target + ['.'])[k..]; }
    if rest + ['.'] <= tail {
      assert v[..k] + tail[..|rest| + 1] == v[..k + |rest| + 1];
      assert target + ['.'] == target[..k] + (rest + ['.']);
    }
  }

  lemma SameFirstDot(head: string, rest: string, first: string, tail: string)
    requires '.' !in head && '.' !in first && head + ['.'] + rest <= first + ['.'] + tail
    ensures |head| == |first|
  {
    var target, v := head + ['.'] + rest, first + ['.'] + tail;
    assert target[|head|] == '.' && v[|first|] == '.';
    assert forall i :: 0 <= i < |head| ==> target[i] == head[i] && head[i] in head;
    assert forall i :: 0 <= i < |first| ==> v[i] == first[i] && first[i] in first;
  }

  lemma TargetEnds(target: string, v: string)
    requires '.' !in target
    ensures MatchesTarget(target, v) <==> v == target || target + ['.'] <= v
  {
    hide SplitDots;
    NoDots(target);
    FirstSegment(v);
    var m := FirstIndex(v, '.');
    assert SplitDots(v)[..1] == [SplitDots(v)[0]];
    if target + ['.'] <= v { DotBehind(target, v); }
    if m < |v| && v[..m] == target { assert v[..m + 1] == target + ['.']; }
    if m == |v| { assert v[..m] == v; }
  }

  lemma NoDots(target: string)
    requires '.' !in target
    ensures FirstIndex(target, '.') == |target| && SplitDots(target) == [target]
  {
    assert target[..|target|] == target;
  }

  lemma FirstSegment(v: string)
    ensures SplitDots(v) != [] && SplitDots(v)[0] == v[..FirstIndex(v, '.')]
  {
    assert v[..|v|] == v;
  }

  lemma DotBehind(target: string, v: string)
    requires '.' !in target && target + ['.'] <= v
    ensures FirstIndex(v, '.') == |target| < |v| && v[..|target|] == target
  {
    var rest := v[|target| + 1..];
    assert v == target + ['.'] + rest;
    FirstIndexAt(target, '.', rest);
  }

  function Matching(target: string, versions: seq<string>): seq<string> {
    if versions == [] then []
    else
      var v := versions[|versions| - 1];
      Matching(target, versions[..|versions| - 1]) + if MatchesTarget(target, v) then [v] else []
  }

  lemma {:induction false} MatchingMembers(target: string, versions: seq<string>, v: string)
    ensures v in Matching(target, versions) <==> v in versions && MatchesTarget(target, v)
  {
    hide MatchesTarget;
    if versions != [] {
      var init, last := versions[..|versions| - 1], versions[|versions| - 1];
      MatchingMembers(target, init, v);
      assert versions == init + [last];
    }
  }

  /** `find_matching_version`: a greatest version among those that match, if there is one. */
  method FindMatchingVersion(target: string, versions: seq<string>) returns (r: Option<string>)
    ensures r.None? <==> forall v :: v in versions ==> !MatchesTarget(target, v)
    ensures r.Some? ==>
      && r.value in versions && MatchesTarget(target, r.value)
      && forall v :: v in versions && MatchesTarget(target, v) ==> AtMost(VersionKey(v), VersionKey(r.value))
    ensures r.Some? ==> exists i :: FirstGreatestMatch(i, r.value, target, versions)
    ensures r.Some? && (forall v :: v in versions && MatchesTarget(target, v) ==> IsSmallVersion(v)) ==>
      forall v :: v in versions && MatchesTarget(target, v) ==>
        IsSmallVersion(v) && IsSmallVersion(r.value) && !NumbersLess(r.value, v)
  {
    hide MatchesTarget, VersionKey, FirstGreatest, FirstGreatestMatch, IsVersion, AllFit, Numbers, Less;
    var matching := [];
    for i := 0 to |versions|
      invariant matching == Matching(target, versions[..i])
    {
      assert versions[..i + 1][..i] == versions[..i];
      if MatchesTarget(target, versions[i]) {
        matching := matching + [versions[i]];
      }
    }
    assert versions[..|versions|] == versions;
    forall v ensures v in matching <==> v in versions && MatchesTarget(target, v) {
      MatchingMembers(target, versions, v);
    }
    r := HeadOfSorted(matching);
    assert matching != [] ==> matching[0] in matching;
    if r.Some? {
      ghost var k :| FirstGreatest(k, r.value, matching);
      ghost var i := MatchPosition(target, versions, k, r.value);
      forall v | v in versions && MatchesTarget(target, v) && IsSmallVersion(v) && IsSmallVersion(r.value)
        ensures !NumbersLess(r.value, v)
      {
        NewerIsNumeric(v, r.value);
        Trichotomy(VersionKey(v), VersionKey(r.value));
      }
    }
  }

  /** Of several greatest matching versions the first one. */
  predicate FirstGreatestMatch(i: nat, v: string, target: string, versions: seq<string>) {
    && i < |versions| && versions[i] == v && MatchesTarget(target, v)
    && forall j :: 0 <= j < i && MatchesTarget(target, versions[j]) ==> Less(VersionKey(versions[j]), VersionKey(v))
  }

  /** The first greatest of the matching versions, as a place in the whole list. */
  lemma {:induction false} MatchPosition(target: string, versions: seq<string>, k: nat, v: string) returns (i: nat)
    requires FirstGreatest(k, v, Matching(target, versions))
    ensures FirstGreatestMatch(i, v, target, versions)
    decreases |versions|
  {
    hide MatchesTarget, VersionKey, Less;
    var init, last := versions[..|versions| - 1], versions[|versions| - 1];
    var before := Matching(target, init);
    if k < |before| {
      assert forall j :: 0 <= j <= k ==> Matching(target, versions)[j] == before[j];
      i := MatchPosition(target, init, k, v);
    } else {
      i := |init|;
      forall j | 0 <= j < i && MatchesTarget(target, versions[j])
        ensures Less(VersionKey(versions[j]), VersionKey(v))
      {
        assert versions[j] == init[j] && init[j] in init;
        MatchingMembers(target, init, init[j]);
        var m :| 0 <= m < |before| && before[m] == init[j];
        assert Matching(target, versions)[m] == before[m];
      }
    }
    MatchingMembers(target, versions, v);
    assert Matching(target, versions)[k] == v;
  }

  /** Comparing only the latest version decides whether any published version is newer than the current one. */
  method UpdateAvailable(versions: seq<string>, current: string) returns (r: Option<string>)
    ensures r.Some? <==> exists v :: v in versions && Trim(v) != "" && IsNewer(Trim(v), current)
    ensures r.Some? ==> IsNewer(r.value, current) && IsLatest(r.value, TrimAll(versions))
    ensures IsSmallVersion(current) && (forall v :: v in TrimAll(versions) ==> IsSmallVersion(v)) ==>
      (r.Some? <==> exists v :: v in TrimAll(versions) && NumbersLess(current, v))
  {
    hide Trim, VersionKey, IsVersion, AllFit, Numbers, Less;
    forall v | v in TrimAll(versions) && IsSmallVersion(v) && IsSmallVersion(current)
      ensures IsNewer(v, current) <==> NumbersLess(current, v)
    {
      NewerIsNumeric(v, current);
    }
    forall v ensures v in TrimAll(versions) <==> v != "" && exists u :: u in versions && Trim(u) == v {
      TrimAllMembers(versions, v);
    }
    var latest := LatestVersion(versions);
    if latest.None? {
      assert forall v :: v in versions && Trim(v) != "" ==> Trim(v) in TrimAll(versions);
      return None;
    }
    if IsNewer(latest.value, current) {
      return latest;
    }
    forall v | v in versions && Trim(v) != "" ensures !IsNewer(Trim(v), current) {
      assert Trim(v) in TrimAll(versions);
      OlderThanLatest(VersionKey(Trim(v)), VersionKey(latest.value), VersionKey(current));
    }
    return None;
  }

  lemma OlderThanLatest(k: seq<nat>, latest: seq<nat>, current: seq<nat>)
    requires AtMost(k, latest) && !Less(current, latest)
    ensures !Less(current, k)
  {
    if Less(current, k) && k != latest { LessTransitive(current, k, latest); }
  }
}
