/**
 * The classification half of `calculateScores`: one breakdown entry per declared type with its
 * percentage, the stable sort by descending percentage, and the primary / secondary /
 * chameleon rules. Percentages are kept as integer tenths of a percent.
 */
module ScoreBreakdown {
  import opened Wrappers
  import opened Personality
  import opened ScoringTally

  /** Policy constants, in tenths of a percent: a second type is disclosed above 70%; a
      chameleon has three types above 30%, a top type below 40% and a second above 25%. */
  const SecondaryThreshold: int := 700
  const ChameleonHighThreshold: int := 300
  const ChameleonPrimaryBelow: int := 400
  const ChameleonSecondaryAbove: int := 250

  /** `{ type, score, percentage }`, with the percentage as tenths (33.3% is 333). */
  datatype BreakdownEntry = BreakdownEntry(typeId: string, score: int, tenths: int)

  /** `Math.round(score / answered * 100 * 10)`, i.e. the percentage in tenths rounded half up,
      and 0 when nothing was answered. */
  function Tenths(score: int, answered: nat): (r: int)
    ensures answered == 0 ==> r == 0
    ensures answered > 0 ==> 2 * answered * r <= 2000 * score + answered < 2 * answered * (r + 1)
  {
    if answered > 0 then (2000 * score + answered) / (2 * answered) else 0
  }

  lemma MulLe(a: nat, x: int, y: int)
    requires x <= y
    ensures a * x <= a * y
  {
    assert a * y - a * x == a * (y - x);
  }

  /** A score between 0 and the number of answered questions gives a percentage from 0 to 100. */
  lemma TenthsRange(score: int, answered: nat)
    requires 0 <= score <= answered
    ensures 0 <= Tenths(score, answered) <= 1000
  {
    if answered > 0 {
      var r := Tenths(score, answered);
      if r < 0 {
        MulLe(2 * answered, r + 1, 0);
      }
      if r > 1000 {
        MulLe(2 * answered, 1001, r);
      }
    }
  }

  /** A higher score never gets a lower percentage. */
  lemma TenthsMonotone(s1: int, s2: int, answered: nat)
    requires s1 <= s2
    ensures Tenths(s1, answered) <= Tenths(s2, answered)
  {
    if answered > 0 {
      var r1, r2 := Tenths(s1, answered), Tenths(s2, answered);
      if r1 > r2 {
        MulLe(2 * answered, r2 + 1, r1);
      }
    }
  }

  /** `PERSONALITY_TYPES.map(...)` before sorting: one entry per id, in the order given. */
  function EntriesFor(ids: seq<string>, scores: map<string, int>, answered: nat): (r: seq<BreakdownEntry>)
    ensures |r| == |ids|
    ensures forall i :: 0 <= i < |r| ==>
              r[i] == BreakdownEntry(ids[i], ScoreOf(scores, ids[i]), Tenths(ScoreOf(scores, ids[i]), answered))
  {
    if ids == [] then []
    else [BreakdownEntry(ids[0], ScoreOf(scores, ids[0]), Tenths(ScoreOf(scores, ids[0]), answered))]
         + EntriesFor(ids[1..], scores, answered)
  }

  // ---------------------------------------------------------------------------------------------
  // The stable sort

  /** The order the stable descending sort produces: higher percentage first, and on equal
      percentages the type declared earlier first. */
  predicate Precedes(a: BreakdownEntry, b: BreakdownEntry) {
    a.tenths > b.tenths || (a.tenths == b.tenths && DeclIndex(a.typeId) < DeclIndex(b.typeId))
  }

  predicate StablySorted(s: seq<BreakdownEntry>) {
    forall i, j :: 0 <= i < j < |s| ==> Precedes(s[i], s[j])
  }

  predicate InDeclOrder(s: seq<BreakdownEntry>) {
    forall i, j :: 0 <= i < j < |s| ==> DeclIndex(s[i].typeId) < DeclIndex(s[j].typeId)
  }

  /** Inserts `x` ahead of the first entry whose percentage is not higher than its own. */
  function InsertByPercentage(x: BreakdownEntry, s: seq<BreakdownEntry>): (r: seq<BreakdownEntry>)
    ensures multiset(r) == multiset(s) + multiset{x}
    ensures forall e :: e in r <==> e == x || e in s
  {
    if s == [] then [x]
    else if s[0].tenths <= x.tenths then [x] + s
    else
      var r := [s[0]] + InsertByPercentage(x, s[1..]);
      assert s == [s[0]] + s[1..];
      r
  }

  /** `.sort((a, b) => b.percentage - a.percentage)`, a stable sort (insertion from the back). */
  function SortByPercentage(s: seq<BreakdownEntry>): (r: seq<BreakdownEntry>)
    ensures multiset(r) == multiset(s)
    ensures forall e :: e in r <==> e in s
  {
    if s == [] then []
    else
      var r := InsertByPercentage(s[0], SortByPercentage(s[1..]));
      assert s == [s[0]] + s[1..];
      r
  }

  /** Putting an entry that precedes every other in front keeps a sequence in the stable order. */
  lemma PrependKeepsSorted(h: BreakdownEntry, t: seq<BreakdownEntry>)
    requires StablySorted(t)
    requires forall e :: e in t ==> Precedes(h, e)
    ensures StablySorted([h] + t)
  {
    var r := [h] + t;
    forall i, j | 0 <= i < j < |r| ensures Precedes(r[i], r[j]) {
      if i == 0 { assert r[j] == t[j - 1] && t[j - 1] in t; } else { assert r[i] == t[i - 1] && r[j] == t[j - 1]; }
    }
  }

  /** The head of a stably sorted sequence precedes everything after it, and the rest is sorted. */
  lemma SortedHead(s: seq<BreakdownEntry>)
    requires s != [] && StablySorted(s)
    ensures forall e :: e in s[1..] ==> Precedes(s[0], e)
    ensures StablySorted(s[1..])
  {
    forall e | e in s[1..] ensures Precedes(s[0], e) {
      var k :| 0 <= k < |s[1..]| && s[1..][k] == e;
      assert s[k + 1] == e;
    }
    forall i, j | 0 <= i < j < |s[1..]| ensures Precedes(s[1..][i], s[1..][j]) {
      assert s[1..][i] == s[i + 1] && s[1..][j] == s[j + 1];
    }
  }

  lemma {:induction false} InsertKeepsSorted(x: BreakdownEntry, s: seq<BreakdownEntry>)
    requires StablySorted(s)
    requires forall e :: e in s ==> DeclIndex(x.typeId) < DeclIndex(e.typeId)
    ensures StablySorted(InsertByPercentage(x, s))
  {
    if s == [] {
    } else if s[0].tenths <= x.tenths {
      SortedHead(s);
      PrependKeepsSorted(x, s);
    } else {
      SortedHead(s);
      InsertKeepsSorted(x, s[1..]);
      PrependKeepsSorted(s[0], InsertByPercentage(x, s[1..]));
    }
  }

  /** Sorting entries listed in declaration order yields the stable order. */
  lemma {:induction false} SortIsStable(s: seq<BreakdownEntry>)
    requires InDeclOrder(s)
    ensures StablySorted(SortByPercentage(s))
  {
    if s != [] {
      assert InDeclOrder(s[1..]) by {
        forall i, j | 0 <= i < j < |s[1..]| ensures DeclIndex(s[1..][i].typeId) < DeclIndex(s[1..][j].typeId) {
          assert s[1..][i] == s[i + 1] && s[1..][j] == s[j + 1];
        }
      }
      SortIsStable(s[1..]);
      forall e | e in s[1..] ensures DeclIndex(s[0].typeId) < DeclIndex(e.typeId) {
        var k :| 0 <= k < |s[1..]| && s[1..][k] == e;
        assert s[k + 1] == e;
      }
      InsertKeepsSorted(s[0], SortByPercentage(s[1..]));
    }
  }

  /** Two stably sorted arrangements of the same entries start with the same entry. */
  lemma SortedHeadsAgree(r1: seq<BreakdownEntry>, r2: seq<BreakdownEntry>)
    requires StablySorted(r1) && StablySorted(r2)
    requires multiset(r1) == multiset(r2)
    requires r1 != [] && r2 != []
    ensures r1[0] == r2[0]
  {
    SortedHead(r1);
    SortedHead(r2);
    assert r1[0] in multiset(r2) && r2[0] in multiset(r1);
  }

  /** Two stably sorted arrangements of the same entries agree on their first entry, and what
      follows it is again two stably sorted arrangements of the same entries. */
  lemma SortedTails(r1: seq<BreakdownEntry>, r2: seq<BreakdownEntry>)
    requires StablySorted(r1) && StablySorted(r2)
    requires multiset(r1) == multiset(r2)
    requires r1 != [] && r2 != []
    ensures r1[0] == r2[0]
    ensures StablySorted(r1[1..]) && StablySorted(r2[1..])
    ensures multiset(r1[1..]) == multiset(r2[1..])
  {
    SortedHeadsAgree(r1, r2);
    SortedHead(r1);
    SortedHead(r2);
    assert r1 == [r1[0]] + r1[1..] && r2 == [r2[0]] + r2[1..];
    assert multiset(r1[1..]) == multiset(r1) - multiset{r1[0]};
    assert multiset(r2[1..]) == multiset(r2) - multiset{r2[0]};
  }

  /** At most one arrangement of a collection of entries is in the stable order, so the result
      does not depend on the sorting algorithm, only on the sort being stable. */
  lemma {:induction false} StablySortedUnique(r1: seq<BreakdownEntry>, r2: seq<BreakdownEntry>)
    requires StablySorted(r1) && StablySorted(r2)
    requires multiset(r1) == multiset(r2)
    ensures r1 == r2
  {
    assert |r1| == |r2| by {
      assert |multiset(r1)| == |multiset(r2)|;
    }
    if r1 != [] {
      SortedTails(r1, r2);
      StablySortedUnique(r1[1..], r2[1..]);
      assert r1 == [r1[0]] + r1[1..];
      assert r2 == [r2[0]] + r2[1..];
    }
  }

  // ---------------------------------------------------------------------------------------------
  // The breakdown

  /** The sorted breakdown of a score dictionary. */
  function Breakdown(scores: map<string, int>, answered: nat): (r: seq<BreakdownEntry>)
    ensures multiset(r) == multiset(EntriesFor(TypeIds, scores, answered))
    ensures |r| == |TypeIds|
  {
    var r := SortByPercentage(EntriesFor(TypeIds, scores, answered));
    assert |r| == |multiset(r)|;
    r
  }

  /** The declaration-ordered entries are in declaration order. */
  lemma EntriesInDeclOrder(scores: map<string, int>, answered: nat)
    ensures InDeclOrder(EntriesFor(TypeIds, scores, answered))
  {
    TypeIdsDistinct();
  }

  /** The breakdown is the entries rearranged into the stable descending order. */
  lemma BreakdownSorted(scores: map<string, int>, answered: nat)
    ensures StablySorted(Breakdown(scores, answered))
    ensures multiset(Breakdown(scores, answered)) == multiset(EntriesFor(TypeIds, scores, answered))
    ensures |Breakdown(scores, answered)| == |TypeIds|
  {
    var entries := EntriesFor(TypeIds, scores, answered);
    EntriesInDeclOrder(scores, answered);
    SortIsStable(entries);
    assert |Breakdown(scores, answered)| == |multiset(Breakdown(scores, answered))| == |multiset(entries)|;
  }

  /** Every breakdown entry is a declared type with its own score and percentage; keys of
      `scores` that are not declared type ids never appear. */
  lemma BreakdownEntriesFaithful(scores: map<string, int>, answered: nat)
    ensures forall e :: e in Breakdown(scores, answered) ==>
              e.typeId in TypeIds && e.score == ScoreOf(scores, e.typeId) && e.tenths == Tenths(e.score, answered)
  {
    var entries := EntriesFor(TypeIds, scores, answered);
    forall e | e in Breakdown(scores, answered)
      ensures e.typeId in TypeIds && e.score == ScoreOf(scores, e.typeId) && e.tenths == Tenths(e.score, answered)
    {
      assert e in entries;
      var k :| 0 <= k < |entries| && entries[k] == e;
    }
  }

  /** Every declared type appears in the breakdown, and exactly once. */
  lemma BreakdownCoversTypes(scores: map<string, int>, answered: nat)
    ensures forall id :: id in TypeIds ==>
              exists i :: 0 <= i < |Breakdown(scores, answered)| && Breakdown(scores, answered)[i].typeId == id
    ensures forall i, j :: 0 <= i < j < |Breakdown(scores, answered)| ==>
              Breakdown(scores, answered)[i].typeId != Breakdown(scores, answered)[j].typeId
  {
    var entries := EntriesFor(TypeIds, scores, answered);
    var b := Breakdown(scores, answered);
    forall id | id in TypeIds ensures exists i :: 0 <= i < |b| && b[i].typeId == id {
      var k :| 0 <= k < |TypeIds| && TypeIds[k] == id;
      assert entries[k] in b;
      var i :| 0 <= i < |b| && b[i] == entries[k];
    }
    BreakdownSorted(scores, answered);
    BreakdownEntriesFaithful(scores, answered);
    forall i, j | 0 <= i < j < |b| ensures b[i].typeId != b[j].typeId {
      assert Precedes(b[i], b[j]);
      assert b[i] in b && b[j] in b;
    }
  }

  // ---------------------------------------------------------------------------------------------
  // Classification

  /** `PERSONALITY_TYPES.find(type => type.id === breakdown[0]?.type)`. */
  function Primary(b: seq<BreakdownEntry>): (r: Option<PersonalityType>)
    ensures r.Some? <==> b != [] && b[0].typeId in TypeIds
    ensures r.Some? ==> r.value in PersonalityTypes && r.value.id == b[0].typeId
  {
    if |b| == 0 then None else GetPersonalityType(b[0].typeId)
  }

  /** The second type, disclosed only when its percentage is above 70. */
  function Secondary(b: seq<BreakdownEntry>): (r: Option<PersonalityType>)
    ensures r.Some? <==> |b| >= 2 && b[1].tenths > SecondaryThreshold && b[1].typeId in TypeIds
    ensures r.Some? ==> r.value in PersonalityTypes && r.value.id == b[1].typeId
  {
    if |b| >= 2 && b[1].tenths > SecondaryThreshold then GetPersonalityType(b[1].typeId) else None
  }

  /** `breakdown.filter(item => item.percentage > threshold).length`. */
  function CountAbove(b: seq<BreakdownEntry>, threshold: int): (n: nat)
    ensures n <= |b|
    ensures n == 0 <==> forall k :: 0 <= k < |b| ==> b[k].tenths <= threshold
    ensures n == |b| <==> forall k :: 0 <= k < |b| ==> b[k].tenths > threshold
  {
    if b == [] then 0 else (if b[0].tenths > threshold then 1 else 0) + CountAbove(b[1..], threshold)
  }

  /** The chameleon rule: a blended profile with no single dominant type. */
  predicate IsChameleon(b: seq<BreakdownEntry>)
    ensures IsChameleon(b) ==> |b| >= 3
  {
    && CountAbove(b, ChameleonHighThreshold) >= 3
    && |b| >= 2
    && b[0].tenths < ChameleonPrimaryBelow
    && b[1].tenths > ChameleonSecondaryAbove
  }

  predicate NonIncreasing(b: seq<BreakdownEntry>) {
    forall i, j :: 0 <= i < j < |b| ==> b[i].tenths >= b[j].tenths
  }

  /** In a non-increasing breakdown the entries above a threshold are exactly a prefix. */
  lemma {:induction false} CountAboveIsPrefix(b: seq<BreakdownEntry>, threshold: int)
    requires NonIncreasing(b)
    ensures CountAbove(b, threshold) <= |b|
    ensures forall i :: 0 <= i < CountAbove(b, threshold) ==> b[i].tenths > threshold
    ensures forall i :: CountAbove(b, threshold) <= i < |b| ==> b[i].tenths <= threshold
  {
    if b != [] {
      CountAboveIsPrefix(b[1..], threshold);
    }
  }

  /** A chameleon's top three types all lie above 30% and below 40%, so no secondary type is
      ever disclosed for a chameleon. */
  lemma ChameleonProfile(b: seq<BreakdownEntry>)
    requires NonIncreasing(b)
    requires IsChameleon(b)
    ensures |b| >= 3
    ensures forall i :: 0 <= i < 3 ==> ChameleonHighThreshold < b[i].tenths < ChameleonPrimaryBelow
    ensures Secondary(b).None?
  {
    CountAboveIsPrefix(b, ChameleonHighThreshold);
  }

  /** A disclosed secondary type means both top types are above 70%. */
  lemma SecondaryMeansTwoStrongTypes(b: seq<BreakdownEntry>)
    requires NonIncreasing(b)
    requires Secondary(b).Some?
    ensures b[0].tenths >= b[1].tenths > SecondaryThreshold
    ensures Secondary(b).value.id == b[1].typeId
  {
  }

  /** The primary type always exists, so the `throw` is unreachable: it is the type of the first
      breakdown entry, which has the highest percentage and is declared first among any tied with it. */
  lemma PrimaryIsTop(scores: map<string, int>, answered: nat)
    ensures Primary(Breakdown(scores, answered)).Some?
    ensures Primary(Breakdown(scores, answered)).value.id == Breakdown(scores, answered)[0].typeId
    ensures forall e :: e in Breakdown(scores, answered) && e != Breakdown(scores, answered)[0] ==>
              Precedes(Breakdown(scores, answered)[0], e)
  {
    var b := Breakdown(scores, answered);
    BreakdownSorted(scores, answered);
    BreakdownEntriesFaithful(scores, answered);
    assert b[0] in b;
    SortedHead(b);
    forall e | e in b && e != b[0] ensures e in b[1..] {
      var j :| 0 <= j < |b| && b[j] == e;
      assert b[1..][j - 1] == e;
    }
  }

  /** The secondary type is present exactly when the second percentage is above 70, and it is
      then the second entry's type. */
  lemma SecondaryIff(scores: map<string, int>, answered: nat)
    ensures |Breakdown(scores, answered)| >= 2
    ensures Secondary(Breakdown(scores, answered)).Some? <==> Breakdown(scores, answered)[1].tenths > SecondaryThreshold
    ensures Secondary(Breakdown(scores, answered)).Some? ==>
              Secondary(Breakdown(scores, answered)).value.id == Breakdown(scores, answered)[1].typeId
  {
    var b := Breakdown(scores, answered);
    BreakdownSorted(scores, answered);
    BreakdownEntriesFaithful(scores, answered);
    assert b[1] in b;
  }

  /** With nothing answered every percentage is 0 and the breakdown keeps the declaration order. */
  lemma NothingAnsweredOrder(scores: map<string, int>)
    ensures Breakdown(scores, 0) == EntriesFor(TypeIds, scores, 0)
    ensures forall e :: e in Breakdown(scores, 0) ==> e.tenths == 0
  {
    var entries := EntriesFor(TypeIds, scores, 0);
    EntriesInDeclOrder(scores, 0);
    BreakdownSorted(scores, 0);
    assert StablySorted(entries);
    StablySortedUnique(Breakdown(scores, 0), entries);
  }

  /** With nothing answered the first declared type is primary, and there is neither a secondary
      type nor a chameleon. */
  lemma NothingAnsweredClassification(scores: map<string, int>)
    ensures Primary(Breakdown(scores, 0)) == Some(PersonalityTypes[0])
    ensures Secondary(Breakdown(scores, 0)).None?
    ensures !IsChameleon(Breakdown(scores, 0))
  {
    var b := Breakdown(scores, 0);
    NothingAnsweredOrder(scores);
    assert b[0].typeId == "adventurer";
    assert b[0] in b && b[1] in b;
  }
}
