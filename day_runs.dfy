// Day buckets: a sequence of observations split into its maximal runs of
// consecutive records that share one local date. The daily folds close a day
// when the next record's date differs (one-step lookahead) or the records run
// out; these runs are exactly the days they close.

module DayRuns {
  import opened Telemetry

  /** Every record of `run` carries the date of its first record. */
  predicate Uniform(run: seq<Observation>)
    requires run != []
  {
    forall j :: 0 <= j < |run| ==> run[j].date == run[0].date
  }

  /**
   * The maximal same-date runs of `s`, built left to right: a record joins
   * the last run when it has that run's date, and starts a new run otherwise.
   */
  function Runs(s: seq<Observation>): (rs: seq<seq<Observation>>)
    ensures |rs| == 0 <==> |s| == 0
    ensures forall k :: 0 <= k < |rs| ==> rs[k] != []
    ensures rs != [] ==> Last(Last(rs)) == Last(s)
    ensures |rs| <= |s|
  {
    if s == [] then []
    else
      var rs := Runs(s[..|s| - 1]);
      var o := Last(s);
      if rs != [] && Last(Last(rs)).date == o.date then rs[..|rs| - 1] + [Last(rs) + [o]]
      else rs + [[o]]
  }

  /** Every run holds records of one date only. */
  lemma {:induction false} RunsUniform(s: seq<Observation>)
    ensures forall k :: 0 <= k < |Runs(s)| ==> Uniform(Runs(s)[k])
    decreases |s|
  {
    if s != [] {
      var init, o := s[..|s| - 1], Last(s);
      RunsUniform(init);
      var rs: seq<seq<Observation>> := Runs(init);
      var rs': seq<seq<Observation>> := Runs(s);
      if rs != [] && Last(Last(rs)).date == o.date {
        var prev := Last(rs);
        assert Uniform(prev);
        assert rs' == rs[..|rs| - 1] + [prev + [o]];
        forall k | 0 <= k < |rs'|
          ensures Uniform(rs'[k])
        {
          if k < |rs| - 1 {
            assert rs'[k] == rs[k];
          } else {
            assert rs'[k] == prev + [o];
            assert prev[|prev| - 1].date == prev[0].date;
          }
        }
      } else {
        assert rs' == rs + [[o]];
        forall k | 0 <= k < |rs'|
          ensures Uniform(rs'[k])
        {
          if k < |rs| {
            assert rs'[k] == rs[k];
          }
        }
      }
    }
  }

  /**
   * The lookahead of the daily folds: record `i` is its day's last when no
   * record follows or the next one has another date.
   */
  predicate ClosesAt(s: seq<Observation>, i: nat)
    requires i < |s|
  {
    i + 1 == |s| || s[i + 1].date != s[i].date
  }

  /** Record `j - 1` closes its group exactly when record `j` starts a new date. */
  lemma StepPremises(s: seq<Observation>, j: nat)
    requires j < |s|
    ensures (j == 0 || ClosesAt(s, j - 1)) ==> s[..j] == [] || Last(s[..j]).date != s[j].date
    ensures (0 < j && !ClosesAt(s, j - 1)) ==> s[..j] != [] && Last(s[..j]).date == s[j].date
  {
    if 0 < j {
      assert Last(s[..j]) == s[j - 1];
    }
  }

  /** The date of a run. */
  function RunDate(run: seq<Observation>): Date
    requires run != []
  {
    run[0].date
  }

  function Flatten(rs: seq<seq<Observation>>): seq<Observation> {
    if rs == [] then [] else Flatten(rs[..|rs| - 1]) + Last(rs)
  }

  lemma FlattenAppend(rs: seq<seq<Observation>>, r: seq<Observation>)
    ensures Flatten(rs + [r]) == Flatten(rs) + r
  {
    assert (rs + [r])[..|rs|] == rs;
  }

  /** Concatenated, the runs give back `s`. */
  lemma {:induction false} RunsFlatten(s: seq<Observation>)
    ensures Flatten(Runs(s)) == s
    decreases |s|
  {
    if s != [] {
      var init, o := s[..|s| - 1], Last(s);
      RunsFlatten(init);
      assert init + [o] == s;
      var rs: seq<seq<Observation>> := Runs(init);
      if rs != [] && Last(Last(rs)).date == o.date {
        var front := rs[..|rs| - 1];
        assert rs == front + [Last(rs)];
        FlattenAppend(front, Last(rs));
        FlattenAppend(front, Last(rs) + [o]);
        assert Runs(s) == front + [Last(rs) + [o]];
      } else {
        FlattenAppend(rs, [o]);
        assert Runs(s) == rs + [[o]];
      }
    }
  }

  /** Neighbouring runs have different dates, so no run could be longer. */
  lemma {:induction false} RunsNeighbours(s: seq<Observation>)
    ensures forall k :: 0 <= k < |Runs(s)| - 1 ==> RunDate(Runs(s)[k]) != RunDate(Runs(s)[k + 1])
    decreases |s|
  {
    if s != [] {
      var init, o := s[..|s| - 1], Last(s);
      RunsNeighbours(init);
      RunsUniform(init);
      var rs: seq<seq<Observation>> := Runs(init);
      var rs': seq<seq<Observation>> := Runs(s);
      if rs != [] && Last(Last(rs)).date == o.date {
        assert rs' == rs[..|rs| - 1] + [Last(rs) + [o]];
        assert RunDate(Last(rs) + [o]) == RunDate(Last(rs));
        forall k | 0 <= k < |rs'| - 1
          ensures RunDate(rs'[k]) != RunDate(rs'[k + 1])
        {
          assert rs'[k] == rs[k];
          assert RunDate(rs'[k + 1]) == RunDate(rs[k + 1]);
        }
      } else {
        assert rs' == rs + [[o]];
        if rs != [] {
          var prev := Last(rs);
          assert RunDate(prev) == prev[|prev| - 1].date;
        }
        forall k | 0 <= k < |rs'| - 1
          ensures RunDate(rs'[k]) != RunDate(rs'[k + 1])
        {
          assert rs'[k] == rs[k];
          if k + 1 < |rs| {
            assert rs'[k + 1] == rs[k + 1];
          }
        }
      }
    }
  }

  /** Every record of every run is one of the records of `s`. */
  lemma {:induction false} RunsElements(s: seq<Observation>)
    ensures forall k, j :: 0 <= k < |Runs(s)| && 0 <= j < |Runs(s)[k]| ==> Runs(s)[k][j] in s
    decreases |s|
  {
    if s != [] {
      var init := s[..|s| - 1];
      RunsElements(init);
      forall k, j | 0 <= k < |Runs(s)| && 0 <= j < |Runs(s)[k]|
        ensures Runs(s)[k][j] in s
      {
        var rs := Runs(init);
        if k < |rs| && j < |rs[k]| {
          assert rs[k][j] in init;
        }
      }
    }
  }

  /** A record with the date of the last run joins that run. */
  lemma RunsExtend(init: seq<Observation>, o: Observation)
    requires init != [] && Last(init).date == o.date
    ensures Runs(init + [o]) == Front(Runs(init)) + [Last(Runs(init)) + [o]]
  {
    assert (init + [o])[..|init|] == init;
  }

  /** A record with a new date starts a run of its own. */
  lemma RunsNew(init: seq<Observation>, o: Observation)
    requires init == [] || Last(init).date != o.date
    ensures Runs(init + [o]) == Runs(init) + [[o]]
  {
    assert (init + [o])[..|init|] == init;
  }

  /** On time-sorted input every run is sorted. */
  lemma {:induction false} RunsSorted(s: seq<Observation>)
    requires Sorted(s)
    ensures forall k :: 0 <= k < |Runs(s)| ==> Sorted(Runs(s)[k])
    decreases |s|
  {
    if s != [] {
      var init := s[..|s| - 1];
      var o := Last(s);
      assert s == init + [o];
      assert Sorted(init);
      RunsSorted(init);
      var rs := Runs(init);
      if init != [] && Last(init).date == o.date {
        RunsExtend(init, o);
        var prev := Last(rs);
        RunsElements(init);
        forall j | 0 <= j < |prev|
          ensures NotBefore(prev[j], o)
        {
          assert prev[j] in init;
        }
        SortedSnoc(prev, o);
        forall k | 0 <= k < |Runs(s)|
          ensures Sorted(Runs(s)[k])
        {
          if k < |rs| - 1 {
            assert Runs(s)[k] == rs[k];
          }
        }
      } else {
        RunsNew(init, o);
        forall k | 0 <= k < |Runs(s)|
          ensures Sorted(Runs(s)[k])
        {
          if k < |rs| {
            assert Runs(s)[k] == rs[k];
          }
        }
      }
    }
  }

  /** On time-sorted input the run dates strictly increase, so each date has one run. */
  lemma {:induction false} RunDatesIncreasing(s: seq<Observation>)
    requires Sorted(s)
    ensures forall k, l :: 0 <= k < l < |Runs(s)| ==> DateBefore(RunDate(Runs(s)[k]), RunDate(Runs(s)[l]))
    decreases |s|
  {
    if s != [] {
      var init := s[..|s| - 1];
      var o := Last(s);
      assert s == init + [o];
      assert Sorted(init);
      RunDatesIncreasing(init);
      RunsUniform(init);
      var rs := Runs(init);
      if init != [] && Last(init).date == o.date {
        RunsExtend(init, o);
        var prev := Last(rs);
        assert RunDate(prev + [o]) == RunDate(prev);
        forall k, l | 0 <= k < l < |Runs(s)|
          ensures DateBefore(RunDate(Runs(s)[k]), RunDate(Runs(s)[l]))
        {
          assert Runs(s)[k] == rs[k];
          if l < |rs| - 1 {
            assert Runs(s)[l] == rs[l];
          } else {
            assert RunDate(Runs(s)[l]) == RunDate(rs[l]);
          }
        }
      } else {
        RunsNew(init, o);
        if rs != [] {
          var prev := Last(rs);
          assert NotBefore(Last(init), o);
          assert Last(prev).date == RunDate(prev);
          assert DateBefore(RunDate(prev), o.date);
          forall k, l | 0 <= k < l < |Runs(s)|
            ensures DateBefore(RunDate(Runs(s)[k]), RunDate(Runs(s)[l]))
          {
            assert Runs(s)[k] == rs[k];
            if l < |rs| {
              assert Runs(s)[l] == rs[l];
            } else if k < |rs| - 1 {
              assert DateBefore(RunDate(rs[k]), RunDate(prev));
            }
          }
        }
      }
    }
  }

  /** A non-empty sequence of records of one date is a single run. */
  lemma {:induction false} RunsOneDate(day: seq<Observation>)
    requires day != [] && Uniform(day)
    ensures Runs(day) == [day]
    decreases |day|
  {
    var init := day[..|day| - 1];
    assert day == init + [Last(day)];
    if init == [] {
      RunsNew(init, Last(day));
    } else {
      assert Uniform(init);
      RunsOneDate(init);
      RunsExtend(init, Last(day));
    }
  }
}
