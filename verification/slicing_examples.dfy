/**
 * Label bounds worked through on small string indexes: a repeated label,
 * a label absent from a sorted index, and the cases that raise.
 */
module SlicingExamples {
  import opened Errors
  import opened Tables
  import opened Slicing
  import opened Util

  /** A repeated stop label reaches its last occurrence: "b":"b" on [a, b, b, c] is rows 1 and 2. */
  lemma RepeatedStopExtends()
    ensures LabelRange([StrLabel("a"), StrLabel("b"), StrLabel("b"), StrLabel("c")], "b", "b") == Ok((1, 3))
  {
    var keys := [StrLabel("a"), StrLabel("b"), StrLabel("b"), StrLabel("c")];
    assert FirstKey(keys, "b") == Some(1) by {
      assert FirstKey(keys[1..], "b") == Some(0);
    }
    assert LastKey(keys, "b") == Some(2) by {
      assert keys[3] != StrLabel("b");
      assert LastKey(keys[..3], "b") == Some(2);
    }
  }

  /** A label whose occurrences are broken up cannot bound a slice: "x" on [x, y, x] is a KeyError. */
  lemma BrokenOccurrencesRaise()
    ensures SliceBound([StrLabel("x"), StrLabel("y"), StrLabel("x")], "x", false) == Err(KeyError)
  {
    var keys := [StrLabel("x"), StrLabel("y"), StrLabel("x")];
    assert FirstKey(keys, "x") == Some(0);
    assert LastKey(keys, "x") == Some(2);
    assert !Contiguous(keys, "x", 0, 2) by {
      assert keys[1] != StrLabel("x");
    }
  }

  /** On the sorted index [a, c, e], the absent labels "b" and "d" fall between their neighbours. */
  lemma AbsentLabelsOnSortedIndex()
    ensures LabelRange([StrLabel("a"), StrLabel("c"), StrLabel("e")], "b", "d") == Ok((1, 2))
  {
    var keys := [StrLabel("a"), StrLabel("c"), StrLabel("e")];
    assert Increasing(keys) by {
      assert StrLess("a", "c") && StrLess("c", "e") && StrLess("a", "e");
      forall i, j | 0 <= i < j < |keys| ensures !StrLess(keys[j].s, keys[i].s) {
        StrLessAsym(keys[i].s, keys[j].s);
      }
    }
    assert StrLabel("b") !in keys;
    assert StrLabel("d") !in keys;
    assert CountLess(keys, "b") == 1 by {
      assert keys[1..][1..] == [StrLabel("e")];
      assert CountLess(keys[1..], "b") == 0;
    }
    assert CountLess(keys, "d") == 2 by {
      assert keys[1..][1..] == [StrLabel("e")];
      assert CountLess(keys[1..][1..], "d") == 0;
    }
  }

  /** On the unsorted index [b, a, c], an absent label is a KeyError. */
  lemma AbsentLabelOnUnsortedIndex()
    ensures SliceBound([StrLabel("b"), StrLabel("a"), StrLabel("c")], "z", true) == Err(KeyError)
  {
    var keys := [StrLabel("b"), StrLabel("a"), StrLabel("c")];
    assert StrLabel("z") !in keys;
    assert !Increasing(keys) by {
      assert StrLess(keys[1].s, keys[0].s);
    }
    assert !Decreasing(keys) by {
      assert StrLess(keys[1].s, keys[2].s);
    }
  }

  /** `df_slice` of rows "b":"b" on the index [a, b, b, c] keeps both "b" rows. */
  lemma DfSliceRepeatedLabel()
    ensures var t := Table([StrLabel("a"), StrLabel("b"), StrLabel("b"), StrLabel("c")],
                           [Column("v", Cells([1.0, 2.0, 3.0, 4.0]))]);
            DfSlice(t, StrBound("b"), StrBound("b")) == Ok(Rows(t, 1, 3))
  {
    RepeatedStopExtends();
  }
}
