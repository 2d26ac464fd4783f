/** The tracker of received sequence numbers: a set that forgets its complete beginning, and a query
    that trusts the size of the set. */
module SequenceTracker {
  import opened Protocol
  import opened Sequences

  const COMPACT_ABOVE: nat := 1000

  datatype Tracker = Tracker(seen: set<nat>, highest: nat, lowestRemoved: nat)

  const EMPTY := Tracker({}, 0, 0)

  /** What every state keeps, whatever is added: enough for the arithmetic never to underflow. */
  ghost predicate WellFormed(t: Tracker) {
    && (forall x :: x in t.seen ==> 1 <= x <= t.highest)
    && t.lowestRemoved <= t.highest
  }

  /** The loop of `query`, from its `i`-th round: the first number not seen, if the loop finds one. */
  function Scan(t: Tracker, i: nat): Option<nat>
    decreases t.highest + 1 - i
  {
    if i > t.highest then None
    else if i + t.lowestRemoved !in t.seen then Some(i + t.lowestRemoved)
    else Scan(t, i + 1)
  }

  /** `None` stands for reaching `unreachable!()`. */
  function Query(t: Tracker): Option<nat> {
    if |t.seen| == t.highest - t.lowestRemoved then Some(t.highest + 1) else Scan(t, 1)
  }

  /** The insertion, without the compaction that may follow. */
  function Insert(t: Tracker, num: nat): Tracker {
    t.(highest := if num > t.highest then num else t.highest, seen := t.seen + {num})
  }

  ghost function Compact(t: Tracker, lowest: nat): Tracker
    requires lowest > 0
  {
    t.(seen := (set x | x in t.seen && x > lowest), lowestRemoved := lowest - 1)
  }

  /** `None` stands for a panic. */
  ghost function Add(t: Tracker, num: nat): Option<Tracker> {
    if num == 0 || num in t.seen then None
    else
      var u := Insert(t, num);
      if |u.seen| <= COMPACT_ABOVE then Some(u)
      else
        match Query(u)
        case None => None
        case Some(lowest) => if lowest == 0 then None else Some(Compact(u, lowest))
  }

  // ----- Sizes

  /** The numbers above `low`, up to `high`. */
  function Interval(low: nat, high: nat): (s: set<nat>)
    ensures forall x: nat :: x in s <==> low < x <= high
    ensures |s| == if low < high then high - low else 0
  {
    if high <= low then {} else Interval(low, high - 1) + {high}
  }

  lemma {:induction false} ScanFinds(t: Tracker, i: nat)
    ensures Scan(t, i).None? ==> forall x :: i + t.lowestRemoved <= x <= t.highest + t.lowestRemoved ==> x in t.seen
    ensures Scan(t, i).Some? ==> var n := Scan(t, i).value;
      n !in t.seen && i + t.lowestRemoved <= n <= t.highest + t.lowestRemoved &&
      forall x :: i + t.lowestRemoved <= x < n ==> x in t.seen
    decreases t.highest + 1 - i
  {
    if i <= t.highest && i + t.lowestRemoved in t.seen {
      ScanFinds(t, i + 1);
    }
  }

  /** The search fails only on a set the size test recognizes. */
  lemma ScanFailsOnlyWhenFull(t: Tracker)
    requires WellFormed(t) && Scan(t, 1).None?
    ensures |t.seen| == t.highest - t.lowestRemoved
  {
    ScanFinds(t, 1);
    assert t.lowestRemoved == 0 by {
      assert t.highest > 0 ==> t.highest + t.lowestRemoved in t.seen;
    }
    assert t.seen == Interval(0, t.highest);
  }

  /** `unreachable!()` is unreachable, for every stream of numbers, repeated ones included. */
  lemma QueryAnswers(t: Tracker)
    requires WellFormed(t)
    ensures Query(t).Some? && 0 < Query(t).value <= t.highest + 1
    ensures Query(t).value !in t.seen
  {
    if |t.seen| != t.highest - t.lowestRemoved {
      if Scan(t, 1).None? {
        ScanFailsOnlyWhenFull(t);
      }
      ScanFinds(t, 1);
      var n := Scan(t, 1).value;
      assert 1 + t.lowestRemoved <= t.highest + 1 < n ==> t.highest + 1 in t.seen;
    }
  }

  lemma AddStaysWellFormed(t: Tracker, num: nat)
    requires WellFormed(t)
    ensures Add(t, num).None? <==> num == 0 || num in t.seen
    ensures Add(t, num).Some? ==> WellFormed(Add(t, num).value)
  {
    var u := Insert(t, num);
    if num != 0 {
      QueryAnswers(u);
    }
  }

  // ----- The tracker against the numbers really added

  ghost predicate LowestMissing(added: set<nat>, n: nat) {
    n > 0 && n !in added && forall k :: 1 <= k < n ==> k in added
  }

  /** The tracker is a faithful summary of `added`. */
  ghost predicate Exact(t: Tracker, added: set<nat>) {
    && (forall x :: x in added ==> 1 <= x <= t.highest)
    && t.lowestRemoved <= t.highest
    && (forall x :: x in t.seen <==> x in added && x > t.lowestRemoved)
    && (forall k :: 1 <= k <= t.lowestRemoved ==> k in added)
  }

  lemma QueryIsExact(t: Tracker, added: set<nat>)
    requires Exact(t, added)
    ensures Query(t).Some? && LowestMissing(added, Query(t).value)
  {
    QueryAnswers(t);
    var n := Query(t).value;
    if |t.seen| == t.highest - t.lowestRemoved {
      SubsetSize(t.seen, Interval(t.lowestRemoved, t.highest));
      assert forall k :: t.lowestRemoved < k <= t.highest ==> k in Interval(t.lowestRemoved, t.highest);
    } else {
      ScanFinds(t, 1);
      forall k | 1 <= k < n ensures k in added {
        assert k > t.lowestRemoved ==> k in t.seen;
      }
    }
  }

  /** Compaction keeps the summary faithful, so it cannot be observed. */
  lemma CompactIsExact(t: Tracker, added: set<nat>)
    requires Exact(t, added)
    ensures Query(t).Some? && Query(t).value > 0
    ensures Exact(Compact(t, Query(t).value), added)
    ensures Query(Compact(t, Query(t).value)) == Query(t)
  {
    QueryIsExact(t, added);
    QueryAnswers(t);
    var u := Compact(t, Query(t).value);
    assert Exact(u, added);
    QueryIsExact(u, added);
    LowestIsUnique(added, Query(t).value, Query(u).value);
  }

  lemma LowestIsUnique(added: set<nat>, m: nat, n: nat)
    requires LowestMissing(added, m) && LowestMissing(added, n)
    ensures m == n
  {
    assert m < n ==> m in added;
    assert n < m ==> n in added;
  }

  /** A new number is accepted, the summary stays faithful, and the set stays small. */
  lemma AddIsExact(t: Tracker, added: set<nat>, num: nat)
    requires Exact(t, added) && num > 0 && num !in added
    ensures Add(t, num).Some?
    ensures Exact(Add(t, num).value, added + {num})
    ensures Query(Add(t, num).value) == Query(Insert(t, num))
    ensures var u := Add(t, num).value;
      |u.seen| <= COMPACT_ABOVE || forall n :: LowestMissing(added + {num}, n) ==> |u.seen| <= u.highest - n
  {
    var u := Insert(t, num);
    assert Exact(u, added + {num});
    CompactIsExact(u, added + {num});
    if |u.seen| > COMPACT_ABOVE {
      var lowest := Query(u).value;
      var v := Compact(u, lowest);
      SmallAfterCompaction(v, lowest);
      forall n | LowestMissing(added + {num}, n) ensures |v.seen| <= v.highest - n || |v.seen| == 0 {
        QueryIsExact(u, added + {num});
        LowestIsUnique(added + {num}, n, lowest);
      }
    }
  }

  lemma SmallAfterCompaction(t: Tracker, lowest: nat)
    requires forall x :: x in t.seen ==> lowest < x <= t.highest
    ensures lowest <= t.highest ==> |t.seen| <= t.highest - lowest
    ensures lowest > t.highest ==> t.seen == {}
  {
    if lowest <= t.highest {
      SubsetSize(t.seen, Interval(lowest, t.highest));
    } else {
      assert forall x :: x !in t.seen;
    }
  }

  // ----- Runs

  ghost function After(nums: seq<nat>): Option<Tracker> {
    if nums == [] then Some(EMPTY)
    else
      match After(nums[..|nums| - 1])
      case None => None
      case Some(t) => Add(t, nums[|nums| - 1])
  }

  ghost predicate Stream(nums: seq<nat>) {
    && (forall i :: 0 <= i < |nums| ==> nums[i] > 0)
    && (forall i, j :: 0 <= i < j < |nums| ==> nums[i] != nums[j])
  }

  function Added(nums: seq<nat>): set<nat> { set x | x in nums }

  lemma StreamFront(nums: seq<nat>)
    requires Stream(nums) && nums != []
    ensures var init, last := nums[..|nums| - 1], nums[|nums| - 1];
      Stream(init) && last > 0 && last !in Added(init) && Added(nums) == Added(init) + {last}
  {
    assert nums == nums[..|nums| - 1] + [nums[|nums| - 1]];
  }

  lemma {:induction false} RunIsExact(nums: seq<nat>)
    requires Stream(nums)
    ensures After(nums).Some? && Exact(After(nums).value, Added(nums))
  {
    if nums != [] {
      hide Stream, Added, Add;
      var init, last := nums[..|nums| - 1], nums[|nums| - 1];
      StreamFront(nums);
      RunIsExact(init);
      AddIsExact(After(init).value, Added(init), last);
    }
  }

  /** For every stream of positive numbers without repetition, in whatever order and however often
      the set was compacted, `query` is the lowest positive number not yet added. */
  lemma {:induction false} QueryIsLowestMissing(nums: seq<nat>)
    requires Stream(nums)
    ensures After(nums).Some? && Query(After(nums).value).Some?
    ensures LowestMissing(Added(nums), Query(After(nums).value).value)
    ensures Query(After(nums).value).value <= |nums| + 1
  {
    RunIsExact(nums);
    QueryIsExact(After(nums).value, Added(nums));
    var n := Query(After(nums).value).value;
    SubsetSize(Interval(0, n - 1), Added(nums));
    AddedSize(nums);
  }

  /** Memory: the set stays within the threshold, or within the span that starts at the answer. */
  lemma RunStaysSmall(nums: seq<nat>)
    requires Stream(nums)
    ensures After(nums).Some? && Query(After(nums).value).Some?
    ensures var t := After(nums).value;
      |t.seen| <= 1000 || |t.seen| + Query(t).value <= t.highest
  {
    QueryIsLowestMissing(nums);
    if nums != [] {
      hide Stream, Added, Add, Exact, Query, LowestMissing;
      var init, last := nums[..|nums| - 1], nums[|nums| - 1];
      StreamFront(nums);
      RunIsExact(init);
      AddIsExact(After(init).value, Added(init), last);
    }
  }

  lemma {:induction false} AddedSize(nums: seq<nat>)
    ensures |Added(nums)| <= |nums|
  {
    if nums != [] {
      var init, last := nums[..|nums| - 1], nums[|nums| - 1];
      AddedSize(init);
      assert nums == init + [last];
      assert Added(nums) == Added(init) + {last};
    }
  }

  // ----- Repeated numbers

  /** Numbers still in the set although they were compacted away: accepted repetitions, or numbers that
      arrived after a compaction had skipped them. */
  function Stale(t: Tracker): set<nat> { set x | x in t.seen && x <= t.lowestRemoved }

  /** Numbers compacted away although they were never added. */
  function Forgotten(t: Tracker, added: set<nat>): set<nat> {
    set k | k in Interval(0, t.lowestRemoved) && k !in added
  }

  /** What holds of every tracker, whatever it was given and accepted. */
  ghost predicate Summary(t: Tracker, added: set<nat>) {
    && (forall x :: x in added ==> 1 <= x <= t.highest)
    && t.lowestRemoved <= t.highest
    && t.seen <= added
    && (forall x :: x in added && x > t.lowestRemoved ==> x in t.seen)
  }

  lemma NothingStale(t: Tracker)
    ensures Stale(t) == {} <==> forall x :: x in t.seen ==> x > t.lowestRemoved
  {
    assert forall x :: x in Stale(t) <==> x in t.seen && x <= t.lowestRemoved;
    if Stale(t) == {} {
      forall x | x in t.seen ensures x > t.lowestRemoved {
        assert x !in Stale(t);
      }
    }
  }

  lemma NothingForgotten(t: Tracker, added: set<nat>)
    ensures Forgotten(t, added) == {} <==> forall k :: 1 <= k <= t.lowestRemoved ==> k in added
  {
    if Forgotten(t, added) == {} {
      forall k | 1 <= k <= t.lowestRemoved ensures k in added {
        assert k in Interval(0, t.lowestRemoved) && k !in Forgotten(t, added);
      }
    }
  }

  lemma ExactIffNothingStaleOrForgotten(t: Tracker, added: set<nat>)
    ensures Exact(t, added) <==> Summary(t, added) && Stale(t) == {} && Forgotten(t, added) == {}
  {
    hide Stale, Forgotten;
    NothingStale(t);
    NothingForgotten(t, added);
  }

  /** The size test that answers without searching. */
  predicate LooksFull(t: Tracker) { |t.seen| == t.highest - t.lowestRemoved }

  /** A set that looks full, with a stale number in it, hides a gap. */
  lemma StaleHidesGap(t: Tracker, added: set<nat>) returns (gap: nat)
    requires Summary(t, added) && LooksFull(t) && Stale(t) != {}
    ensures t.lowestRemoved < gap <= t.highest && gap !in added
  {
    var live, full := t.seen - Stale(t), Interval(t.lowestRemoved, t.highest);
    assert live <= full;
    assert |live| < |full|;
    var gaps := full - live;
    assert gaps == {} ==> full == live;
    gap :| gap in gaps;
  }

  /** In every state: the answer is right exactly if nothing is forgotten, and nothing stale makes up the
      size of a set that looks full. */
  lemma AnswerIsRightIff(t: Tracker, added: set<nat>)
    requires Summary(t, added)
    ensures Query(t).Some?
    ensures LowestMissing(added, Query(t).value) <==>
            Forgotten(t, added) == {} && (Stale(t) == {} || !LooksFull(t))
  {
    QueryAnswers(t);
    var n := Query(t).value;
    if !LooksFull(t) {
      ScanFinds(t, 1);
    }
    assert n > t.lowestRemoved;
    NothingForgotten(t, added);
    hide Forgotten;
    if Forgotten(t, added) == {} {
      if Stale(t) == {} {
        ExactIffNothingStaleOrForgotten(t, added);
        QueryIsExact(t, added);
      } else if LooksFull(t) {
        var gap := StaleHidesGap(t, added);
        assert 1 <= gap < n;
      } else {
        forall k | 1 <= k < n ensures k in added {
          assert k > t.lowestRemoved ==> k in t.seen;
        }
      }
    }
  }

  /** Whether a compaction can be observed: it keeps a right answer right and a wrong one wrong. */
  lemma CompactionKeepsRightAndWrong(t: Tracker, added: set<nat>)
    requires Summary(t, added)
    ensures Query(t).Some? && Query(t).value > 0
    ensures var u := Compact(t, Query(t).value);
      && Summary(u, added) && Query(u).Some? && Stale(u) == {}
      && (LowestMissing(added, Query(u).value) <==> LowestMissing(added, Query(t).value))
  {
    QueryAnswers(t);
    var n := Query(t).value;
    if !LooksFull(t) {
      ScanFinds(t, 1);
    }
    var u := Compact(t, n);
    assert forall x :: x !in Stale(u);
    AnswerIsRightIff(u, added);
    if LowestMissing(added, n) {
      assert forall k :: k !in Forgotten(u, added);
    } else {
      var k :| 1 <= k < n && k !in added;
      assert k in Forgotten(u, added);
    }
  }

  lemma InsertKeepsSummary(t: Tracker, added: set<nat>, num: nat)
    requires Summary(t, added) && num > 0
    ensures Summary(Insert(t, num), added + {num})
  {
  }

  /** The next number, fresh or repeated: the answer is right afterwards exactly if nothing stays
      forgotten and no stale number makes the set look full before it is compacted. */
  lemma NextAnswerIsRightIff(t: Tracker, added: set<nat>, num: nat)
    requires Summary(t, added) && Add(t, num).Some?
    ensures var u, v := Insert(t, num), Add(t, num).value;
      && Summary(v, added + {num}) && Query(v).Some?
      && (LowestMissing(added + {num}, Query(v).value) <==>
            Forgotten(t, added) <= {num} && (Stale(u) == {} || !LooksFull(u)))
  {
    hide Scan;
    var u := Insert(t, num);
    InsertKeepsSummary(t, added, num);
    hide Summary, LowestMissing;
    AnswerIsRightIff(u, added + {num});
    CompactionKeepsRightAndWrong(u, added + {num});
    assert Forgotten(u, added + {num}) == Forgotten(t, added) - {num};
  }

  lemma {:induction false} RunIsSummary(nums: seq<nat>)
    requires After(nums).Some?
    ensures Summary(After(nums).value, Added(nums))
  {
    if nums != [] {
      hide Summary, Add, Added, Query, Insert, Stale, Forgotten, LooksFull, LowestMissing;
      var init, last := nums[..|nums| - 1], nums[|nums| - 1];
      RunIsSummary(init);
      NextAnswerIsRightIff(After(init).value, Added(init), last);
      AddedFront(nums);
    } else {
      NothingAdded();
    }
  }

  lemma AddedFront(nums: seq<nat>)
    requires nums != []
    ensures Added(nums) == Added(nums[..|nums| - 1]) + {nums[|nums| - 1]}
  {
    assert nums == nums[..|nums| - 1] + [nums[|nums| - 1]];
  }

  lemma NothingAdded()
    ensures Summary(EMPTY, Added([]))
  {
  }

  /** Over every run of accepted numbers, repeated ones included: the query is the lowest number never
      added exactly if nothing was forgotten, and nothing stale makes the set look full. */
  lemma {:induction false} QueryIsRightIff(nums: seq<nat>)
    requires After(nums).Some?
    ensures var t := After(nums).value;
      && Query(t).Some?
      && (LowestMissing(Added(nums), Query(t).value) <==>
            Forgotten(t, Added(nums)) == {} && (Stale(t) == {} || !LooksFull(t)))
  {
    RunIsSummary(nums);
    AnswerIsRightIff(After(nums).value, Added(nums));
  }

  /** A gap is forgotten by a compaction that relies on a wrong answer, and by nothing else. */
  lemma {:induction false} GapIsForgottenIffMisled(nums: seq<nat>, num: nat)
    requires After(nums + [num]).Some? && After(nums).Some?
    requires Forgotten(After(nums).value, Added(nums)) == {}
    ensures var u := Insert(After(nums).value, num);
      Forgotten(After(nums + [num]).value, Added(nums + [num])) != {} <==>
      |u.seen| > COMPACT_ABOVE && Stale(u) != {} && LooksFull(u)
  {
    var t, all := After(nums).value, Added(nums + [num]);
    RunIsSummary(nums);
    AfterNext(nums, num);
    assert all == Added(nums) + {num} by {
      assert forall x :: x in nums + [num] <==> x in nums || x == num;
    }
    var u := Insert(t, num);
    InsertKeepsSummary(t, Added(nums), num);
    assert Forgotten(u, all) == {};
    AnswerIsRightIff(u, all);
    if |u.seen| > COMPACT_ABOVE {
      CompactionKeepsRightAndWrong(u, all);
      AnswerIsRightIff(Compact(u, Query(u).value), all);
    }
  }

  /** The documented panic: the tracker rejects exactly zero and what is still in its set. So it rejects a
      number exactly when the documentation says so, unless the number was compacted away, or added below
      the compacted mark, and is not in the set again. */
  lemma NumberIsRejectedAsDocumentedIff(nums: seq<nat>, num: nat)
    requires After(nums).Some?
    ensures var t := After(nums).value;
      && (After(nums + [num]).None? <==> num == 0 || num in t.seen)
      && ((After(nums + [num]).None? <==> num == 0 || num in Added(nums)) <==>
            !(num in Added(nums) && num <= t.lowestRemoved && num !in Stale(t)))
  {
    RunIsSummary(nums);
    AfterNext(nums, num);
    SummaryIsWellFormed(After(nums).value, Added(nums));
    AddStaysWellFormed(After(nums).value, num);
  }

  lemma SummaryIsWellFormed(t: Tracker, added: set<nat>)
    requires Summary(t, added)
    ensures WellFormed(t)
  {
  }

  /** The first repetition, in a stream that had none: it is accepted exactly if the number was compacted
      away. */
  lemma {:induction false} FirstRepeatIsAcceptedIffCompacted(nums: seq<nat>, num: nat)
    requires Stream(nums) && num in nums
    ensures After(nums).Some? && (After(nums + [num]).Some? <==> num <= After(nums).value.lowestRemoved)
  {
    RunIsExact(nums);
    NumberIsRejectedAsDocumentedIff(nums, num);
    ExactIffNothingStaleOrForgotten(After(nums).value, Added(nums));
  }

  /** It is counted as if it filled a gap: the answer is then wrong exactly when one number above the
      compacted mark was missing, and a compaction it triggers makes the tracker forget that number. */
  lemma FirstRepeatMisleadsIffOneGap(nums: seq<nat>, num: nat)
    requires Stream(nums) && num in nums && After(nums + [num]).Some?
    ensures var t, v := After(nums).value, After(nums + [num]).value;
      && After(nums).Some? && Query(v).Some?
      && (LowestMissing(Added(nums), Query(v).value) <==> |t.seen| + 1 != t.highest - t.lowestRemoved)
  {
    RunIsExact(nums);
    FirstRepeatIsAcceptedIffCompacted(nums, num);
    var t := After(nums).value;
    ExactIffNothingStaleOrForgotten(t, Added(nums));
    AfterNext(nums, num);
    assert num !in t.seen;
    hide Add, After, Query, Summary, Exact, Stream, LowestMissing, Forgotten;
    NextAnswerIsRightIff(t, Added(nums), num);
    assert Added(nums) + {num} == Added(nums);
    assert num in Stale(Insert(t, num));
    assert |t.seen + {num}| == |t.seen| + 1;
  }

  function Counting(n: nat): seq<nat> { seq(n, i => i + 1) }

  lemma {:induction false} CountingRun(n: nat)
    requires n <= COMPACT_ABOVE
    ensures After(Counting(n)) == Some(Tracker(Interval(0, n), n, 0))
  {
    if n > 0 {
      CountingRun(n - 1);
      assert Counting(n)[..n - 1] == Counting(n - 1);
      assert Interval(0, n) == Interval(0, n - 1) + {n};
    } else {
      assert Interval(0, 0) == {};
    }
  }

  lemma FullAddCompacts(n: nat)
    requires n > COMPACT_ABOVE
    ensures Add(Tracker(Interval(0, n - 1), n - 1, 0), n) == Some(Tracker({}, n, n))
  {
    hide Scan;
    var u := Insert(Tracker(Interval(0, n - 1), n - 1, 0), n);
    assert u.seen == Interval(0, n);
    assert Query(u) == Some(n + 1);
    assert Compact(u, n + 1).seen == {};
  }

  lemma CountingCompacts()
    ensures After(Counting(COMPACT_ABOVE + 1)) == Some(Tracker({}, COMPACT_ABOVE + 1, COMPACT_ABOVE + 1))
  {
    hide Add;
    var n := COMPACT_ABOVE + 1;
    CountingRun(n - 1);
    assert Counting(n)[..n - 1] == Counting(n - 1);
    FullAddCompacts(n);
  }

  lemma AfterNext(nums: seq<nat>, num: nat)
    requires After(nums).Some?
    ensures After(nums + [num]) == Add(After(nums).value, num)
  {
    assert (nums + [num])[..|nums|] == nums;
  }

  /** The documented panic is missed: after 1, 2, ..., 1001 a second 5 is accepted. */
  lemma CompactedRepeatIsAccepted()
    ensures 5 in Counting(COMPACT_ABOVE + 1)
    ensures After(Counting(COMPACT_ABOVE + 1) + [5]).Some?
  {
    var nums := Counting(COMPACT_ABOVE + 1);
    assert nums[4] == 5;
    CountingCompacts();
    AddStaysWellFormed(After(nums).value, 5);
    AfterNext(nums, 5);
  }

  /** Two gaps, one repetition, and then a number of the gaps itself or another repetition: the set looks
      full. */
  lemma TwoBelowFillTwoGaps(n: nat, num: nat, next: nat)
    requires 1 <= num <= n && 1 <= next <= n + 1 && next != num
    ensures var t := Tracker({}, n, n);
      && Add(t, n + 3) == Some(Tracker({n + 3}, n + 3, n))
      && Add(Tracker({n + 3}, n + 3, n), num) == Some(Tracker({num, n + 3}, n + 3, n))
      && Add(Tracker({num, n + 3}, n + 3, n), next) == Some(Tracker({next, num, n + 3}, n + 3, n))
      && Query(Tracker({next, num, n + 3}, n + 3, n)) == Some(n + 4)
  {
    hide Scan;
    assert {n + 3} + {num} == {num, n + 3};
    assert {num, n + 3} + {next} == {next, num, n + 3};
    assert |{num, n + 3}| == 2 && |{next, num, n + 3}| == 3;
  }

  lemma TwoBelowMislead(nums: seq<nat>, n: nat, num: nat, next: nat)
    requires After(nums) == Some(Tracker({}, n, n)) && 1 <= num <= n && 1 <= next <= n + 1 && next != num
    ensures var all := nums + [n + 3] + [num] + [next];
      After(all).Some? && Query(After(all).value) == Some(n + 4)
  {
    TwoBelowFillTwoGaps(n, num, next);
    hide Add, Query;
    AfterNext(nums, n + 3);
    AfterNext(nums + [n + 3], num);
    AfterNext(nums + [n + 3] + [num], next);
  }

  /** A fresh number can mislead too: after 1, 2, ..., 1001, 1004, a second 5 and the first 1002 the query
      answers 1005 although 1003 is missing; with a second 6 instead, two numbers are missing. */
  lemma StaleNumbersMislead()
    ensures var nums := Counting(COMPACT_ABOVE + 1) + [COMPACT_ABOVE + 4] + [5];
      && After(nums + [COMPACT_ABOVE + 2]).Some? && After(nums + [6]).Some?
      && Query(After(nums + [COMPACT_ABOVE + 2]).value) == Some(COMPACT_ABOVE + 5)
      && Query(After(nums + [6]).value) == Some(COMPACT_ABOVE + 5)
      && COMPACT_ABOVE + 2 !in nums && COMPACT_ABOVE + 3 !in nums
  {
    hide After, Query;
    CountingCompacts();
    TwoBelowMislead(Counting(COMPACT_ABOVE + 1), COMPACT_ABOVE + 1, 5, COMPACT_ABOVE + 2);
    TwoBelowMislead(Counting(COMPACT_ABOVE + 1), COMPACT_ABOVE + 1, 5, 6);
  }

  /** One gap above what was compacted away, and a repetition from below. */
  lemma RepeatFillsGap(n: nat, num: nat)
    requires 1 <= num <= n
    ensures var t := Tracker({}, n, n);
      && Add(t, n + 2) == Some(Tracker({n + 2}, n + 2, n))
      && Add(Tracker({n + 2}, n + 2, n), num) == Some(Tracker({num, n + 2}, n + 2, n))
      && Query(Tracker({num, n + 2}, n + 2, n)) == Some(n + 3)
  {
    hide Scan;
    assert {n + 2} + {num} == {num, n + 2};
    assert |{num, n + 2}| == 2;
  }

  /** After a stream that was compacted away up to `n`, the number `n + 2` and a repetition, the query
      answers `n + 3` although `n + 1` is missing. */
  lemma RepetitionMisleads(nums: seq<nat>, n: nat, num: nat)
    requires After(nums) == Some(Tracker({}, n, n)) && 1 <= num <= n
    ensures var all := nums + [n + 2] + [num];
      After(all).Some? && Query(After(all).value) == Some(n + 3)
  {
    RepeatFillsGap(n, num);
    hide Add, Query;
    AfterNext(nums, n + 2);
    AfterNext(nums + [n + 2], num);
  }

  /** Such a stream: 1, 2, ..., 1001, 1003 and a second 5. The query answers 1004; 1002 is missing. */
  lemma RepeatedNumberMisleads()
    ensures var nums := Counting(COMPACT_ABOVE + 1) + [COMPACT_ABOVE + 3] + [5];
      && After(nums).Some? && Query(After(nums).value) == Some(COMPACT_ABOVE + 4)
      && COMPACT_ABOVE + 2 !in nums && 5 in Counting(COMPACT_ABOVE + 1)
  {
    hide After, Query;
    assert Counting(COMPACT_ABOVE + 1)[4] == 5;
    CountingCompacts();
    RepetitionMisleads(Counting(COMPACT_ABOVE + 1), COMPACT_ABOVE + 1, 5);
  }

  // ----- The tracker itself

  class MissingSequenceTracker {
    var seen: set<nat>
    var highestSeen: nat
    var lowestRemoved: nat

    constructor ()
      ensures State() == EMPTY && Valid()
    {
      seen, highestSeen, lowestRemoved := {}, 0, 0;
    }

    ghost function State(): Tracker
      reads this
    {
      Tracker(seen, highestSeen, lowestRemoved)
    }

    ghost predicate Valid()
      reads this
    {
      WellFormed(State())
    }

    /** The answer, computed by the size test and otherwise by the search loop. */
    method Ask() returns (lowest: nat)
      requires Valid()
      ensures Query(State()) == Some(lowest) && lowest > 0
    {
      QueryAnswers(State());
      if |seen| == highestSeen - lowestRemoved {
        return highestSeen + 1;
      }
      var i := 1;
      while i <= highestSeen
        invariant 1 <= i <= highestSeen + 1
        invariant Scan(State(), i) == Scan(State(), 1)
      {
        if i + lowestRemoved !in seen {
          return i + lowestRemoved;
        }
        i := i + 1;
      }
      assert false;
    }

    /** `accepted` is false where the source panics. */
    method Record(num: nat) returns (accepted: bool)
      requires Valid()
      modifies this
      ensures Valid()
      ensures accepted <==> num > 0 && num !in old(seen)
      ensures if accepted then Add(old(State()), num) == Some(State()) else State() == old(State())
    {
      AddStaysWellFormed(State(), num);
      if num == 0 || num in seen {
        return false;
      }
      if num > highestSeen {
        highestSeen := num;
      }
      seen := seen + {num};
      ghost var inserted := State();
      assert inserted == Insert(old(State()), num);
      if |seen| > COMPACT_ABOVE {
        var lowest := Ask();
        seen := set x | x in seen && x > lowest;
        lowestRemoved := lowest - 1;
        assert State() == Compact(inserted, lowest);
      }
      accepted := true;
    }
  }
}
