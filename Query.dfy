/**
 * OfficialQuerySet (meetings/query.py): filters and an ordering over the
 * officials, each returning a new collection. A query set is modelled as the
 * sequence of officials it yields.
 */
module Query {
  import opened Wrappers
  import opened Seqs
  import opened Models

  // ---------------------------------------------------------------------------
  // The division-ID pattern `ocd-division/country:us/state:[a-z]{2}/cd:\d+`

  const StatePrefix := "ocd-division/country:us/state:"
  const DistrictMarker := "/cd:"

  /** Length of the shortest text the pattern matches: prefix, two letters, marker, one digit. */
  const MinMatchLength := |StatePrefix| + 2 + |DistrictMarker| + 1

  predicate IsLower(c: char) { 'a' <= c <= 'z' }

  predicate IsDigit(c: char) { '0' <= c <= '9' }

  /** The pattern matches `s` starting at position `i`; `\d+` needs just one digit to match. */
  predicate MatchesAt(s: string, i: nat)
  {
    var p := |StatePrefix|;
    && i + MinMatchLength <= |s|
    && s[i..i + p] == StatePrefix
    && IsLower(s[i + p]) && IsLower(s[i + p + 1])
    && s[i + p + 2..i + p + 6] == DistrictMarker
    && IsDigit(s[i + p + 6])
  }

  /** The first position at or after `from` where the pattern matches, scanning left to right. */
  function FindPattern(s: string, from: nat): (r: Option<nat>)
    decreases |s| - from
    ensures r.Some? ==> from <= r.value && MatchesAt(s, r.value)
    ensures r.Some? ==> forall j :: from <= j < r.value ==> !MatchesAt(s, j)
    ensures r.None? ==> forall j: nat :: from <= j ==> !MatchesAt(s, j)
  {
    if from + MinMatchLength > |s| then None
    else if MatchesAt(s, from) then Some(from)
    else FindPattern(s, from + 1)
  }

  /**
   * The `__regex` lookup on a division ID: an unanchored search, true when the
   * pattern matches anywhere in the ID.
   */
  function IsUsRepDivision(ocdId: string): (b: bool)
    ensures b <==> exists i: nat :: MatchesAt(ocdId, i)
  {
    FindPattern(ocdId, 0).Some?
  }

  predicate IsUsRep(o: Official)
  {
    IsUsRepDivision(o.office.division.ocdId)
  }

  /** `us_reps`: the officials whose division ID contains a congressional-district ID. */
  function UsReps(officials: seq<Official>): (r: seq<Official>)
    ensures |r| <= |officials| && multiset(r) <= multiset(officials)
    ensures forall o :: o in r <==> o in officials && exists i: nat :: MatchesAt(o.office.division.ocdId, i)
  {
    Filter(officials, IsUsRep)
  }

  /** The division of the test suite's Kentucky representative is a House district. */
  lemma KentuckyFifthIsUsRep()
    ensures IsUsRepDivision("ocd-division/country:us/state:ky/cd:5")
  {
    var s := "ocd-division/country:us/state:ky/cd:5";
    assert s[0..30] == StatePrefix;
    assert s[32..36] == DistrictMarker;
    assert MatchesAt(s, 0);
  }

  /** "/cd:" followed by a digit at position `i`. */
  predicate HasDistrictAt(s: string, i: nat)
  {
    i + |DistrictMarker| + 1 <= |s| && s[i..i + |DistrictMarker|] == DistrictMarker && IsDigit(s[i + |DistrictMarker|])
  }

  /** A division ID without "/cd:" followed by a digit is never a House district. */
  lemma NoDistrictNoMatch(ocdId: string)
    requires forall i: nat :: !HasDistrictAt(ocdId, i)
    ensures !IsUsRepDivision(ocdId)
  {
    forall i: nat ensures !MatchesAt(ocdId, i) {
      if MatchesAt(ocdId, i) {
        var k := i + |StatePrefix| + 2;
        assert HasDistrictAt(ocdId, k);
      }
    }
  }

  /** A state-level division ID is dropped. */
  lemma StateDivisionIsNotUsRep()
    ensures !IsUsRepDivision("ocd-division/country:us/state:ky")
  {
  }

  /** A slice of a slice is a slice of the whole. */
  lemma SliceOfSlice(s: string, a: nat, b: nat, c: nat, d: nat)
    requires a <= b <= |s| && c <= d <= b - a
    ensures s[a..b][c..d] == s[a + c..a + d]
  {
    var l := s[a..b][c..d];
    var r := s[a + c..a + d];
    assert |l| == |r|;
    forall k | 0 <= k < |l| ensures l[k] == r[k] {
      assert l[k] == s[a..b][c + k] == s[a + c + k];
    }
  }

  /** Whether the pattern matches depends only on the text it spans. */
  lemma MatchInSameWindow(s: string, j: nat, t: string, i: nat)
    requires MatchesAt(t, i)
    requires j + MinMatchLength <= |s|
    requires s[j..j + MinMatchLength] == t[i..i + MinMatchLength]
    ensures MatchesAt(s, j)
  {
    var p := |StatePrefix|;
    var m := MinMatchLength;
    SliceOfSlice(s, j, j + m, 0, p);
    SliceOfSlice(t, i, i + m, 0, p);
    SliceOfSlice(s, j, j + m, p + 2, p + 6);
    SliceOfSlice(t, i, i + m, p + 2, p + 6);
    assert s[j + p] == s[j..j + m][p];
    assert t[i + p] == t[i..i + m][p];
    assert s[j + p + 1] == s[j..j + m][p + 1];
    assert t[i + p + 1] == t[i..i + m][p + 1];
    assert s[j + p + 6] == s[j..j + m][p + 6];
    assert t[i + p + 6] == t[i..i + m][p + 6];
  }

  /** The search is unanchored at both ends: text before or after a matching ID does not stop the match. */
  lemma {:induction false} MatchSurvivesContext(pre: string, ocdId: string, post: string)
    requires IsUsRepDivision(ocdId)
    ensures IsUsRepDivision(pre + ocdId + post)
  {
    var i: nat :| MatchesAt(ocdId, i);
    var s := pre + ocdId + post;
    var j := |pre| + i;
    assert s[|pre|..|pre| + |ocdId|] == ocdId;
    assert s[j..j + MinMatchLength] == ocdId[i..i + MinMatchLength];
    MatchInSameWindow(s, j, ocdId, i);
  }

  // ---------------------------------------------------------------------------
  // Filters on related rows

  predicate HasNoMeetings(o: Official) { |o.meetings| == 0 }

  predicate HasNoContactAttempts(o: Official) { |o.contactAttempts| == 0 }

  /** `without_meetings`: the officials whose meeting count is zero, in their order. */
  function WithoutMeetings(officials: seq<Official>): (r: seq<Official>)
    ensures |r| <= |officials| && multiset(r) <= multiset(officials)
    ensures forall o :: o in r <==> o in officials && o.meetings == []
  {
    Filter(officials, HasNoMeetings)
  }

  /** `without_contact_attempts`: the officials whose contact-attempt count is zero, in their order. */
  function WithoutContactAttempts(officials: seq<Official>): (r: seq<Official>)
    ensures |r| <= |officials| && multiset(r) <= multiset(officials)
    ensures forall o :: o in r <==> o in officials && o.contactAttempts == []
  {
    Filter(officials, HasNoContactAttempts)
  }

  /** Filtering a concatenation keeps the parts in order: all three filters preserve relative order. */
  lemma FiltersPreserveOrder(a: seq<Official>, b: seq<Official>)
    ensures WithoutMeetings(a + b) == WithoutMeetings(a) + WithoutMeetings(b)
    ensures WithoutContactAttempts(a + b) == WithoutContactAttempts(a) + WithoutContactAttempts(b)
    ensures UsReps(a + b) == UsReps(a) + UsReps(b)
  {
    FilterConcat(a, b, HasNoMeetings);
    FilterConcat(a, b, HasNoContactAttempts);
    FilterConcat(a, b, IsUsRep);
  }

  lemma FiltersIdempotent(officials: seq<Official>)
    ensures WithoutMeetings(WithoutMeetings(officials)) == WithoutMeetings(officials)
    ensures WithoutContactAttempts(WithoutContactAttempts(officials)) == WithoutContactAttempts(officials)
    ensures UsReps(UsReps(officials)) == UsReps(officials)
  {
    FilterIdempotent(officials, HasNoMeetings);
    FilterIdempotent(officials, HasNoContactAttempts);
    FilterIdempotent(officials, IsUsRep);
  }

  lemma FiltersCommute(officials: seq<Official>)
    ensures WithoutMeetings(WithoutContactAttempts(officials)) == WithoutContactAttempts(WithoutMeetings(officials))
    ensures WithoutMeetings(UsReps(officials)) == UsReps(WithoutMeetings(officials))
    ensures WithoutContactAttempts(UsReps(officials)) == UsReps(WithoutContactAttempts(officials))
  {
    FilterCommute(officials, HasNoContactAttempts, HasNoMeetings);
    FilterCommute(officials, IsUsRep, HasNoMeetings);
    FilterCommute(officials, IsUsRep, HasNoContactAttempts);
  }

  // ---------------------------------------------------------------------------
  // Ordering

  function AttemptCount(o: Official): nat { |o.contactAttempts| }

  /** The comparison `order_by('num_contact_attempts')` or, with `desc`, `order_by('-num_contact_attempts')` induces. */
  function AttemptOrder(desc: bool): (le: (Official, Official) -> bool)
    ensures TotalPreorder(le)
  {
    if desc then (a: Official, b: Official) => AttemptCount(a) >= AttemptCount(b)
    else (a: Official, b: Official) => AttemptCount(a) <= AttemptCount(b)
  }

  /**
   * `order_by_contact_attempts`: the same officials, by contact-attempt count,
   * ascending, or descending when `desc` is set.
   */
  function OrderByContactAttempts(officials: seq<Official>, desc: bool): (r: seq<Official>)
    ensures multiset(r) == multiset(officials)
    ensures !desc ==> forall i, j :: 0 <= i < j < |r| ==> |r[i].contactAttempts| <= |r[j].contactAttempts|
    ensures desc ==> forall i, j :: 0 <= i < j < |r| ==> |r[i].contactAttempts| >= |r[j].contactAttempts|
  {
    SortBy(officials, AttemptOrder(desc))
  }

  // ---------------------------------------------------------------------------
  // Query sets built by the list views

  /**
   * A step of a lazily built query set. The two filters named here are used by
   * the list views but defined in no file of this model, so they stay
   * uninterpreted: `Evaluate` takes their meaning as parameters.
   */
  datatype Step =
    | WithoutMeetingsSince(since: Date)
    | PromotesMeetingsThroughTwitter
    | OrderByDivisionName

  /** Code-point lexicographic order on strings, the order an ORDER BY on a text column is modelled by. */
  predicate StrLe(a: string, b: string)
  {
    if a == [] then true
    else if b == [] then false
    else if a[0] != b[0] then a[0] < b[0]
    else StrLe(a[1..], b[1..])
  }

  lemma {:induction false} StrLeTotal(a: string, b: string)
    ensures StrLe(a, b) || StrLe(b, a)
  {
    if a != [] && b != [] && a[0] == b[0] {
      StrLeTotal(a[1..], b[1..]);
    }
  }

  lemma {:induction false} StrLeTransitive(a: string, b: string, c: string)
    requires StrLe(a, b) && StrLe(b, c)
    ensures StrLe(a, c)
  {
    if a != [] && b != [] && c != [] && a[0] == b[0] && b[0] == c[0] {
      StrLeTransitive(a[1..], b[1..], c[1..]);
    }
  }

  function DivisionName(o: Official): string { o.office.division.name }

  function DivisionNameOrder(): (le: (Official, Official) -> bool)
    ensures TotalPreorder(le)
    ensures forall a, b :: le(a, b) == StrLe(DivisionName(a), DivisionName(b))
  {
    var le := (a: Official, b: Official) => StrLe(DivisionName(a), DivisionName(b));
    forall a: Official, b: Official ensures le(a, b) || le(b, a) {
      StrLeTotal(DivisionName(a), DivisionName(b));
    }
    forall a: Official, b: Official, c: Official | le(a, b) && le(b, c) ensures le(a, c) {
      StrLeTransitive(DivisionName(a), DivisionName(b), DivisionName(c));
    }
    le
  }

  /** One step applied to the rows produced so far. */
  function ApplyStep(
    officials: seq<Official>,
    step: Step,
    sinceFilter: (seq<Official>, Date) -> seq<Official>,
    twitterFilter: seq<Official> -> seq<Official>): seq<Official>
  {
    match step
    case WithoutMeetingsSince(d) => sinceFilter(officials, d)
    case PromotesMeetingsThroughTwitter => twitterFilter(officials)
    case OrderByDivisionName => SortBy(officials, DivisionNameOrder())
  }

  /** Runs the steps in order; `sinceFilter` and `twitterFilter` give the two undefined filters a meaning. */
  function Evaluate(
    officials: seq<Official>,
    steps: seq<Step>,
    sinceFilter: (seq<Official>, Date) -> seq<Official>,
    twitterFilter: seq<Official> -> seq<Official>): seq<Official>
    decreases |steps|
  {
    if steps == [] then officials
    else Evaluate(ApplyStep(officials, steps[0], sinceFilter, twitterFilter), steps[1..], sinceFilter, twitterFilter)
  }

  /**
   * A query set whose last step orders by division name yields the rows of
   * the steps before it, reordered by division name.
   */
  lemma {:induction false} EvaluateOrdered(
    officials: seq<Official>,
    steps: seq<Step>,
    sinceFilter: (seq<Official>, Date) -> seq<Official>,
    twitterFilter: seq<Official> -> seq<Official>)
    requires steps != [] && steps[|steps| - 1] == OrderByDivisionName
    ensures var r := Evaluate(officials, steps, sinceFilter, twitterFilter);
      forall i, j :: 0 <= i < j < |r| ==> StrLe(DivisionName(r[i]), DivisionName(r[j]))
    ensures multiset(Evaluate(officials, steps, sinceFilter, twitterFilter))
      == multiset(Evaluate(officials, steps[..|steps| - 1], sinceFilter, twitterFilter))
    decreases |steps|
  {
    var r := Evaluate(officials, steps, sinceFilter, twitterFilter);
    if |steps| == 1 {
      var le := DivisionNameOrder();
      var sorted := SortBy(officials, le);
      assert steps[0] == OrderByDivisionName && steps[1..] == [];
      assert r == Evaluate(sorted, [], sinceFilter, twitterFilter) == sorted;
      assert Evaluate(officials, steps[..0], sinceFilter, twitterFilter) == officials;
      forall i, j | 0 <= i < j < |sorted| ensures StrLe(DivisionName(sorted[i]), DivisionName(sorted[j])) {
        assert le(sorted[i], sorted[j]);
      }
    } else {
      var next := ApplyStep(officials, steps[0], sinceFilter, twitterFilter);
      var rest := steps[1..];
      assert r == Evaluate(next, rest, sinceFilter, twitterFilter);
      assert rest[|rest| - 1] == OrderByDivisionName;
      EvaluateOrdered(next, rest, sinceFilter, twitterFilter);
      var init := steps[..|steps| - 1];
      assert init[0] == steps[0] && init[1..] == rest[..|rest| - 1];
      assert Evaluate(officials, init, sinceFilter, twitterFilter) == Evaluate(next, rest[..|rest| - 1], sinceFilter, twitterFilter);
      assert forall i, j :: 0 <= i < j < |r| ==> StrLe(DivisionName(r[i]), DivisionName(r[j]));
    }
  }
}
