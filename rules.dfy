/**
 * The template catalog: a constant dictionary from a dbt-expectations test
 * identifier to the ordered list of parameter names that test takes.
 *
 * Every identifier in the source begins with `dbt_expectations.`; the entries
 * below are written with that prefix factored out (`Qualify` puts it back), so
 * `DBT_RULES` is the dictionary of rules.py and `LEGACY_RULES` the older copy
 * kept at the head of expectations.py.  The literals are split into blocks of
 * nine entries, in source order, so that each block can be checked on its own.
 */
module Rules {
  import opened Text

  /** Identifier (or identifier suffix) to ordered parameter names. */
  type Catalog = map<string, seq<string>>

  const PREFIX: string := "dbt_expectations."
  /** Identifiers of table-level tests start with this, after the common prefix. */
  const TABLE_NAME_PREFIX: string := "expect_table_"
  const TABLE_PREFIX: string := PREFIX + TABLE_NAME_PREFIX

  /** The one template that takes no parameter (rules.py:52). */
  const NONZERO_NAME: string := "expect_table_row_count_to_be_nonzero"
  const NONZERO: string := PREFIX + NONZERO_NAME

  /** The two templates whose identifiers differ only in letter case (rules.py:18, 81). */
  const LOWER_TWIN_NAME: string := "expect_column_pair_values_a_to_be_greater_than_b"
  const UPPER_TWIN_NAME: string := "expect_column_pair_values_A_to_be_greater_than_B"

  predicate Distinct(ps: seq<string>)
  {
    forall i, j :: 0 <= i < j < |ps| ==> ps[i] != ps[j]
  }

  // ---------------------------------------------------------------------
  // rules.py, DBT_RULES (suffixes after `dbt_expectations.`)
  // ---------------------------------------------------------------------

  // rules.py:2-10
  const R0: Catalog := map[
    "expect_column_to_exist" := ["column"],
    "expect_column_values_to_be_unique" := ["column"],
    "expect_column_values_to_not_be_null" := ["column"],
    "expect_column_values_to_be_in_type_list" := ["column", "type_list"],
    "expect_column_values_to_match_regex" := ["column", "regex"],
    "expect_column_values_to_not_match_regex" := ["column", "regex"],
    "expect_column_values_to_be_in_set" := ["column", "value_set"],
    "expect_column_values_to_not_be_in_set" := ["column", "value_set"],
    "expect_column_values_to_be_between" := ["column", "min_value", "max_value", "strict_min", "strict_max"]
  ]
  // rules.py:11-19
  const R1: Catalog := map[
    "expect_column_value_lengths_to_be_between" := ["column", "min_value", "max_value"],
    "expect_column_value_lengths_to_equal" := ["column", "value"],
    "expect_column_median_to_be_between" := ["column", "min_value", "max_value"],
    "expect_column_mean_to_be_between" := ["column", "min_value", "max_value"],
    "expect_column_min_to_be_between" := ["column", "min_value", "max_value"],
    "expect_column_max_to_be_between" := ["column", "min_value", "max_value"],
    "expect_column_sum_to_be_between" := ["column", "min_value", "max_value"],
    "expect_column_pair_values_a_to_be_greater_than_b" := ["column_A", "column_B", "or_equal"],
    "expect_column_pair_values_to_be_in_set" := ["column_A", "column_B", "value_set"]
  ]
  // rules.py:20-37
  const R2: Catalog := map[
    "expect_compound_columns_to_be_unique" := ["column_list"],
    "expect_multicolumn_sum_to_be_between" := ["column_list", "min_value", "max_value"],
    "expect_row_values_to_have_data_for_every_n_datepart" := ["date_column", "n", "datepart", "interval", "test_start_date", "test_end_date", "row_condition", "exclusion_condition"],
    "expect_table_row_count_to_be_between" := ["min_value", "max_value"],
    "expect_table_column_count_to_be_between" := ["min_value", "max_value"],
    "expect_table_columns_to_match_ordered_list" := ["column_list"],
    "expect_table_row_count_to_equal_other_table" := ["other_table"],
    "expect_column_values_to_match_like_pattern" := ["column", "like_pattern"],
    "expect_column_values_to_not_match_like_pattern" := ["column", "unlike_pattern"]
  ]
  // rules.py:38-46
  const R3: Catalog := map[
    "expect_column_values_to_match_like_pattern_list" := ["column", "like_pattern_list"],
    "expect_column_values_to_not_match_like_pattern_list" := ["column", "unlike_pattern_list"],
    "expect_column_stdev_to_be_between" := ["column", "min_value", "max_value"],
    "expect_column_proportion_of_unique_values_to_be_between" := ["column", "min_value", "max_value"],
    "expect_column_most_common_value_to_be_in_set" := ["column", "value_set"],
    "expect_column_least_common_value_to_be_in_set" := ["column", "value_set"],
    "expect_column_most_common_value_to_match_regex" := ["column", "regex"],
    "expect_column_chisquare_test_p_value_to_be_greater_than" := ["column", "value_set", "p"],
    "expect_column_pair_cramers_phi_value_to_be_less_than" := ["column_A", "column_B", "threshold"]
  ]
  // rules.py:47-55
  const R4: Catalog := map[
    "expect_column_kl_divergence_to_be_less_than" := ["column", "partition_object", "threshold"],
    "expect_table_to_contain_column_list" := ["column_list"],
    "expect_table_row_count_to_be_greater_than" := ["min_value"],
    "expect_table_row_count_to_be_less_than" := ["max_value"],
    "expect_table_row_count_to_be_equal_to" := ["value"],
    "expect_table_row_count_to_be_nonzero" := [],
    "expect_table_to_have_no_duplicate_rows" := ["column_list"],
    "expect_table_columns_to_match_set" := ["column_set"],
    "expect_table_columns_to_be_subset_of" := ["column_set"]
  ]
  // rules.py:56-64
  const R5: Catalog := map[
    "expect_table_columns_to_contain_set" := ["column_list"],
    "expect_row_values_to_have_recent_data" := ["column", "interval", "date_format"],
    "expect_grouped_row_values_to_have_recent_data" := ["column", "interval", "date_format", "group_by_column"],
    "expect_table_aggregation_to_equal_other_table" := ["aggregation_column", "other_table", "other_column"],
    "expect_table_column_count_to_equal_other_table" := ["other_table"],
    "expect_table_columns_to_not_contain_set" := ["column_set"],
    "expect_table_column_count_to_equal" := ["value"],
    "expect_table_row_count_to_equal_other_table_times_factor" := ["other_table", "factor"],
    "expect_table_row_count_to_equal" := ["value"]
  ]
  // rules.py:65-73
  const R6: Catalog := map[
    "expect_column_values_to_be_null" := ["column"],
    "expect_column_values_to_be_of_type" := ["column", "type"],
    "expect_column_values_to_have_consistent_casing" := ["column"],
    "expect_column_values_to_be_increasing" := ["column"],
    "expect_column_values_to_be_decreasing" := ["column"],
    "expect_column_values_to_match_regex_list" := ["column", "regex_list"],
    "expect_column_values_to_not_match_regex_list" := ["column", "regex_list"],
    "expect_column_distinct_count_to_equal" := ["column", "value"],
    "expect_column_distinct_count_to_be_greater_than" := ["column", "value"]
  ]
  // rules.py:74-82
  const R7: Catalog := map[
    "expect_column_distinct_count_to_be_less_than" := ["column", "value"],
    "expect_column_distinct_values_to_be_in_set" := ["column", "value_set"],
    "expect_column_distinct_values_to_contain_set" := ["column", "value_set"],
    "expect_column_distinct_values_to_equal_set" := ["column", "value_set"],
    "expect_column_distinct_count_to_equal_other_table" := ["column", "other_table", "other_column"],
    "expect_column_quantile_values_to_be_between" := ["column", "quantile", "min_value", "max_value", "group_by"],
    "expect_column_unique_value_count_to_be_between" := ["column", "min_value", "max_value"],
    "expect_column_pair_values_A_to_be_greater_than_B" := ["column_A", "column_B", "or_equal"],
    "expect_column_pair_values_to_be_equal" := ["column_A", "column_B"]
  ]
  // rules.py:83-86
  const R8: Catalog := map[
    "expect_select_column_values_to_be_unique_within_record" := ["column_list"],
    "expect_multicolumn_sum_to_equal" := ["column_list", "value"],
    "expect_column_values_to_be_within_n_moving_stdevs" := ["column", "n", "date_column_name", "period", "lookback_periods", "trend_periods"],
    "expect_column_values_to_be_within_n_stdevs" := ["column", "n"]
  ]

  const NAMES: Catalog := R0 + R1 + R2 + R3 + R4 + R5 + R6 + R7 + R8

  // ---------------------------------------------------------------------
  // expectations.py, the older DBT_RULES (suffixes after `dbt_expectations.`)
  // ---------------------------------------------------------------------

  // expectations.py:14-22
  const L0: Catalog := map[
    "expect_column_to_exist" := ["column"],
    "expect_column_values_to_be_unique" := ["column"],
    "expect_column_values_to_not_be_null" := ["column"],
    "expect_column_values_to_be_in_type_list" := ["column", "type_list"],
    "expect_column_values_to_match_regex" := ["column", "regex"],
    "expect_column_values_to_not_match_regex" := ["column", "regex"],
    "expect_column_values_to_be_in_set" := ["column", "value_set"],
    "expect_column_values_to_not_be_in_set" := ["column", "value_set"],
    "expect_column_values_to_be_between" := ["column", "min_value", "max_value", "strict_min", "strict_max"]
  ]
  // expectations.py:23-31
  const L1: Catalog := map[
    "expect_column_value_lengths_to_be_between" := ["column", "min_value", "max_value"],
    "expect_column_value_lengths_to_equal" := ["column", "value"],
    "expect_column_median_to_be_between" := ["column", "min_value", "max_value"],
    "expect_column_mean_to_be_between" := ["column", "min_value", "max_value"],
    "expect_column_min_to_be_between" := ["column", "min_value", "max_value"],
    "expect_column_max_to_be_between" := ["column", "min_value", "max_value"],
    "expect_column_sum_to_be_between" := ["column", "min_value", "max_value"],
    "expect_column_pair_values_a_to_be_greater_than_b" := ["column_A", "column_B", "or_equal"],
    "expect_column_pair_values_to_be_in_set" := ["column_A", "column_B", "value_set"]
  ]
  // expectations.py:32-49
  const L2: Catalog := map[
    "expect_compound_columns_to_be_unique" := ["column_list"],
    "expect_multicolumn_sum_to_be_between" := ["column_list", "min_value", "max_value"],
    "expect_row_values_to_have_data_for_every_n_datepart" := ["date_column", "n", "datepart", "interval", "test_start_date", "test_end_date", "row_condition", "exclusion_condition"],
    "expect_table_row_count_to_be_between" := ["min_value", "max_value"],
    "expect_table_column_count_to_be_between" := ["min_value", "max_value"],
    "expect_table_columns_to_match_ordered_list" := ["column_list"],
    "expect_table_row_count_to_equal_other_table" := ["other_table"],
    "expect_column_values_to_match_like_pattern" := ["column", "like_pattern"],
    "expect_column_values_to_not_match_like_pattern" := ["column", "unlike_pattern"]
  ]
  // expectations.py:50-58
  const L3: Catalog := map[
    "expect_column_values_to_match_like_pattern_list" := ["column", "like_pattern_list"],
    "expect_column_values_to_not_match_like_pattern_list" := ["column", "unlike_pattern_list"],
    "expect_column_stdev_to_be_between" := ["column", "min_value", "max_value"],
    "expect_column_proportion_of_unique_values_to_be_between" := ["column", "min_value", "max_value"],
    "expect_column_most_common_value_to_be_in_set" := ["column", "value_set"],
    "expect_column_least_common_value_to_be_in_set" := ["column", "value_set"],
    "expect_column_most_common_value_to_match_regex" := ["column", "regex"],
    "expect_column_chisquare_test_p_value_to_be_greater_than" := ["column", "value_set", "p"],
    "expect_column_pair_cramers_phi_value_to_be_less_than" := ["column_A", "column_B", "threshold"]
  ]
  // expectations.py:59-67
  const L4: Catalog := map[
    "expect_column_kl_divergence_to_be_less_than" := ["column", "partition_object", "threshold"],
    "expect_table_to_contain_column_list" := ["column_list"],
    "expect_table_row_count_to_be_greater_than" := ["min_value"],
    "expect_table_row_count_to_be_less_than" := ["max_value"],
    "expect_table_row_count_to_be_equal_to" := ["value"],
    "expect_table_row_count_to_be_nonzero" := [],
    "expect_table_to_have_no_duplicate_rows" := ["column_list"],
    "expect_table_columns_to_match_set" := ["column_set"],
    "expect_table_columns_to_be_subset_of" := ["column_set"]
  ]

  const LEGACY_NAMES: Catalog := L0 + L1 + L2 + L3 + L4

  /** Adds the common prefix back to every identifier suffix. */
  function Qualify(names: Catalog): (c: Catalog)
    ensures forall n {:trigger names[n]} :: n in names ==> PREFIX + n in c && c[PREFIX + n] == names[n]
    ensures forall k :: k in c ==> PREFIX <= k && k[|PREFIX|..] in names && c[k] == names[k[|PREFIX|..]]
  {
    PrefixCancels();
    map n | n in names :: PREFIX + n := names[n]
  }

  lemma PrefixCancels()
    ensures forall a, b :: PREFIX + a == PREFIX + b ==> a == b
  {
    forall a, b | PREFIX + a == PREFIX + b ensures a == b {
      assert a == (PREFIX + a)[|PREFIX|..];
      assert b == (PREFIX + b)[|PREFIX|..];
    }
  }

  /** rules.py's DBT_RULES. */
  const DBT_RULES: Catalog := Qualify(NAMES)

  /** The older DBT_RULES at the head of expectations.py. */
  const LEGACY_RULES: Catalog := Qualify(LEGACY_NAMES)

  // ---------------------------------------------------------------------
  // Structural facts, block by block
  // ---------------------------------------------------------------------

  lemma NotPrefixAt(p: string, s: string, k: nat)
    requires k < |p| && k < |s| && p[k] != s[k]
    ensures !(p <= s)
  {}

  /** No parameter list in the block repeats a name. */
  ghost predicate NoRepeats(b: Catalog)
  {
    forall n :: n in b ==> Distinct(b[n])
  }

  /** Only the row-count-nonzero template has an empty parameter list. */
  ghost predicate OnlyNonzeroEmpty(b: Catalog)
  {
    forall n :: n in b ==> (b[n] == [] <==> n == NONZERO_NAME)
  }

  /** A template that takes `column` is not a table-level template. */
  ghost predicate ColumnNotTable(b: Catalog)
  {
    forall n :: n in b && "column" in b[n] ==> !(TABLE_NAME_PREFIX <= n)
  }

  ghost predicate WellFormedBlock(b: Catalog)
  {
    NoRepeats(b) && OnlyNonzeroEmpty(b) && ColumnNotTable(b)
  }

  lemma NoRepeats0() ensures NoRepeats(R0) {}
  lemma OnlyNonzeroEmpty0() ensures OnlyNonzeroEmpty(R0) {}
  lemma ColumnNotTable0()
    ensures ColumnNotTable(R0)
  {
    forall n | n in R0 && "column" in R0[n] ensures !(TABLE_NAME_PREFIX <= n) {
      NotPrefixAt(TABLE_NAME_PREFIX, n, 7);
    }
  }
  lemma Block0() ensures WellFormedBlock(R0) { NoRepeats0(); OnlyNonzeroEmpty0(); ColumnNotTable0(); }

  lemma NoRepeats1() ensures NoRepeats(R1) {}
  lemma OnlyNonzeroEmpty1() ensures OnlyNonzeroEmpty(R1) {}
  lemma ColumnNotTable1()
    ensures ColumnNotTable(R1)
  {
    forall n | n in R1 && "column" in R1[n] ensures !(TABLE_NAME_PREFIX <= n) {
      NotPrefixAt(TABLE_NAME_PREFIX, n, 7);
    }
  }
  lemma Block1() ensures WellFormedBlock(R1) { NoRepeats1(); OnlyNonzeroEmpty1(); ColumnNotTable1(); }

  lemma NoRepeats2() ensures NoRepeats(R2) {}
  lemma OnlyNonzeroEmpty2() ensures OnlyNonzeroEmpty(R2) {}
  lemma ColumnNotTable2()
    ensures ColumnNotTable(R2)
  {
    forall n | n in R2 && "column" in R2[n] ensures !(TABLE_NAME_PREFIX <= n) {
      NotPrefixAt(TABLE_NAME_PREFIX, n, 7);
    }
  }
  lemma Block2() ensures WellFormedBlock(R2) { NoRepeats2(); OnlyNonzeroEmpty2(); ColumnNotTable2(); }

  lemma NoRepeats3() ensures NoRepeats(R3) {}
  lemma OnlyNonzeroEmpty3() ensures OnlyNonzeroEmpty(R3) {}
  lemma ColumnNotTable3()
    ensures ColumnNotTable(R3)
  {
    forall n | n in R3 && "column" in R3[n] ensures !(TABLE_NAME_PREFIX <= n) {
      NotPrefixAt(TABLE_NAME_PREFIX, n, 7);
    }
  }
  lemma Block3() ensures WellFormedBlock(R3) { NoRepeats3(); OnlyNonzeroEmpty3(); ColumnNotTable3(); }

  lemma NoRepeats4() ensures NoRepeats(R4) {}
  lemma OnlyNonzeroEmpty4() ensures OnlyNonzeroEmpty(R4) {}
  lemma ColumnNotTable4()
    ensures ColumnNotTable(R4)
  {
    forall n | n in R4 && "column" in R4[n] ensures !(TABLE_NAME_PREFIX <= n) {
      NotPrefixAt(TABLE_NAME_PREFIX, n, 7);
    }
  }
  lemma Block4() ensures WellFormedBlock(R4) { NoRepeats4(); OnlyNonzeroEmpty4(); ColumnNotTable4(); }

  lemma NoRepeats5() ensures NoRepeats(R5) {}
  lemma OnlyNonzeroEmpty5() ensures OnlyNonzeroEmpty(R5) {}
  lemma ColumnNotTable5()
    ensures ColumnNotTable(R5)
  {
    forall n | n in R5 && "column" in R5[n] ensures !(TABLE_NAME_PREFIX <= n) {
      NotPrefixAt(TABLE_NAME_PREFIX, n, 7);
    }
  }
  lemma Block5() ensures WellFormedBlock(R5) { NoRepeats5(); OnlyNonzeroEmpty5(); ColumnNotTable5(); }

  lemma NoRepeats6() ensures NoRepeats(R6) {}
  lemma OnlyNonzeroEmpty6() ensures OnlyNonzeroEmpty(R6) {}
  lemma ColumnNotTable6()
    ensures ColumnNotTable(R6)
  {
    forall n | n in R6 && "column" in R6[n] ensures !(TABLE_NAME_PREFIX <= n) {
      NotPrefixAt(TABLE_NAME_PREFIX, n, 7);
    }
  }
  lemma Block6() ensures WellFormedBlock(R6) { NoRepeats6(); OnlyNonzeroEmpty6(); ColumnNotTable6(); }

  lemma NoRepeats7() ensures NoRepeats(R7) {}
  lemma OnlyNonzeroEmpty7() ensures OnlyNonzeroEmpty(R7) {}
  lemma ColumnNotTable7()
    ensures ColumnNotTable(R7)
  {
    forall n | n in R7 && "column" in R7[n] ensures !(TABLE_NAME_PREFIX <= n) {
      NotPrefixAt(TABLE_NAME_PREFIX, n, 7);
    }
  }
  lemma Block7() ensures WellFormedBlock(R7) { NoRepeats7(); OnlyNonzeroEmpty7(); ColumnNotTable7(); }

  lemma NoRepeats8() ensures NoRepeats(R8) {}
  lemma OnlyNonzeroEmpty8() ensures OnlyNonzeroEmpty(R8) {}
  lemma ColumnNotTable8()
    ensures ColumnNotTable(R8)
  {
    forall n | n in R8 && "column" in R8[n] ensures !(TABLE_NAME_PREFIX <= n) {
      NotPrefixAt(TABLE_NAME_PREFIX, n, 7);
    }
  }
  lemma Block8() ensures WellFormedBlock(R8) { NoRepeats8(); OnlyNonzeroEmpty8(); ColumnNotTable8(); }

  lemma UnionWellFormed(a: Catalog, b: Catalog)
    requires WellFormedBlock(a) && WellFormedBlock(b)
    ensures WellFormedBlock(a + b)
  {}

  lemma NamesWellFormed()
    ensures WellFormedBlock(NAMES)
  {
    Block0(); Block1(); Block2(); Block3(); Block4(); Block5(); Block6(); Block7(); Block8();
    UnionWellFormed(R0, R1);
    UnionWellFormed(R0 + R1, R2);
    UnionWellFormed(R0 + R1 + R2, R3);
    UnionWellFormed(R0 + R1 + R2 + R3, R4);
    UnionWellFormed(R0 + R1 + R2 + R3 + R4, R5);
    UnionWellFormed(R0 + R1 + R2 + R3 + R4 + R5, R6);
    UnionWellFormed(R0 + R1 + R2 + R3 + R4 + R5 + R6, R7);
    UnionWellFormed(R0 + R1 + R2 + R3 + R4 + R5 + R6 + R7, R8);
  }

  lemma LegacyBlocks()
    ensures L0 == R0 && L1 == R1 && L2 == R2 && L3 == R3 && L4 == R4
  {}

  /** The blocks shared with expectations.py, and the ones rules.py adds. */
  const EARLY: Catalog := R0 + R1 + R2 + R3 + R4
  const LATE: Catalog := R5 + R6 + R7 + R8

  /** No key of `b` is a key of `a`. */
  ghost predicate KeysApart(a: Catalog, b: Catalog)
  {
    forall n :: n in b ==> n !in a
  }

  lemma ApartJoinLeft(a1: Catalog, a2: Catalog, b: Catalog)
    requires KeysApart(a1, b) && KeysApart(a2, b)
    ensures KeysApart(a1 + a2, b)
  {}

  lemma ApartFromFour(a: Catalog, b1: Catalog, b2: Catalog, b3: Catalog, b4: Catalog)
    requires KeysApart(a, b1) && KeysApart(a, b2) && KeysApart(a, b3) && KeysApart(a, b4)
    ensures KeysApart(a, b1 + b2 + b3 + b4)
  {}

  lemma Apart05() ensures forall n :: n in R5 ==> n !in R0 {}
  lemma Apart06() ensures forall n :: n in R6 ==> n !in R0 {}
  lemma Apart07() ensures forall n :: n in R7 ==> n !in R0 {}
  lemma Apart08() ensures forall n :: n in R8 ==> n !in R0 {}

  lemma Apart15() ensures forall n :: n in R5 ==> n !in R1 {}
  lemma Apart16() ensures forall n :: n in R6 ==> n !in R1 {}
  lemma Apart17() ensures forall n :: n in R7 ==> n !in R1 {}
  lemma Apart18() ensures forall n :: n in R8 ==> n !in R1 {}

  lemma Apart25() ensures forall n :: n in R5 ==> n !in R2 {}
  lemma Apart26() ensures forall n :: n in R6 ==> n !in R2 {}
  lemma Apart27() ensures forall n :: n in R7 ==> n !in R2 {}
  lemma Apart28() ensures forall n :: n in R8 ==> n !in R2 {}

  lemma Apart35() ensures forall n :: n in R5 ==> n !in R3 {}
  lemma Apart36() ensures forall n :: n in R6 ==> n !in R3 {}
  lemma Apart37() ensures forall n :: n in R7 ==> n !in R3 {}
  lemma Apart38() ensures forall n :: n in R8 ==> n !in R3 {}

  lemma Apart45() ensures forall n :: n in R5 ==> n !in R4 {}
  lemma Apart46() ensures forall n :: n in R6 ==> n !in R4 {}
  lemma Apart47() ensures forall n :: n in R7 ==> n !in R4 {}
  lemma Apart48() ensures forall n :: n in R8 ==> n !in R4 {}

  lemma ApartFromLate0()
    ensures KeysApart(R0, LATE)
  {
    Apart05(); Apart06(); Apart07(); Apart08();
    ApartFromFour(R0, R5, R6, R7, R8);
  }

  lemma ApartFromLate1()
    ensures KeysApart(R1, LATE)
  {
    Apart15(); Apart16(); Apart17(); Apart18();
    ApartFromFour(R1, R5, R6, R7, R8);
  }

  lemma ApartFromLate2()
    ensures KeysApart(R2, LATE)
  {
    Apart25(); Apart26(); Apart27(); Apart28();
    ApartFromFour(R2, R5, R6, R7, R8);
  }

  lemma ApartFromLate3()
    ensures KeysApart(R3, LATE)
  {
    Apart35(); Apart36(); Apart37(); Apart38();
    ApartFromFour(R3, R5, R6, R7, R8);
  }

  lemma ApartFromLate4()
    ensures KeysApart(R4, LATE)
  {
    Apart45(); Apart46(); Apart47(); Apart48();
    ApartFromFour(R4, R5, R6, R7, R8);
  }

  lemma EarlyApartFromLate()
    ensures KeysApart(EARLY, LATE)
  {
    ApartFromLate0(); ApartFromLate1(); ApartFromLate2(); ApartFromLate3(); ApartFromLate4();
    ApartJoinLeft(R0, R1, LATE);
    ApartJoinLeft(R0 + R1, R2, LATE);
    ApartJoinLeft(R0 + R1 + R2, R3, LATE);
    ApartJoinLeft(R0 + R1 + R2 + R3, R4, LATE);
  }

  lemma TablePrefixOfQualified(n: string)
    requires TABLE_PREFIX <= PREFIX + n
    ensures TABLE_NAME_PREFIX <= n
  {
    assert TABLE_NAME_PREFIX == TABLE_PREFIX[|PREFIX|..];
    assert n[..|TABLE_NAME_PREFIX|] == (PREFIX + n)[|PREFIX|..|TABLE_PREFIX|];
  }

  // ---------------------------------------------------------------------
  // The catalog's invariants
  // ---------------------------------------------------------------------

  /** Every identifier in rules.py starts with `dbt_expectations.`. */
  lemma AllPrefixed()
    ensures forall k :: k in DBT_RULES ==> PREFIX <= k
  {}

  lemma QualifiedNoRepeats(names: Catalog)
    requires NoRepeats(names)
    ensures forall k :: k in Qualify(names) ==> Distinct(Qualify(names)[k])
  {}

  /** No template's parameter list names the same parameter twice. */
  lemma NoRepeatedParameter()
    ensures forall k :: k in DBT_RULES ==> Distinct(DBT_RULES[k])
  {
    NamesWellFormed();
    QualifiedNoRepeats(NAMES);
  }

  lemma QualifiedOnlyNonzeroEmpty(names: Catalog)
    requires OnlyNonzeroEmpty(names) && NONZERO_NAME in names
    ensures NONZERO in Qualify(names) && Qualify(names)[NONZERO] == []
    ensures forall k :: k in Qualify(names) && Qualify(names)[k] == [] ==> k == NONZERO
  {
    forall k | k in Qualify(names) && Qualify(names)[k] == [] ensures k == NONZERO {
      assert k == PREFIX + k[|PREFIX|..];
    }
  }

  lemma NonzeroEarly()
    ensures NONZERO_NAME in R4 && R4[NONZERO_NAME] == []
  {}

  lemma NonzeroNot5() ensures NONZERO_NAME !in R5 {}
  lemma NonzeroNot6() ensures NONZERO_NAME !in R6 {}
  lemma NonzeroNot7() ensures NONZERO_NAME !in R7 {}
  lemma NonzeroNot8() ensures NONZERO_NAME !in R8 {}

  lemma NonzeroNotLate()
    ensures NONZERO_NAME !in LATE
  {
    NonzeroNot5(); NonzeroNot6(); NonzeroNot7(); NonzeroNot8();
  }

  /** Exactly one template, the row-count-nonzero test, takes no parameter. */
  lemma ExactlyOneParameterless()
    ensures NONZERO in DBT_RULES && DBT_RULES[NONZERO] == []
    ensures forall k :: k in DBT_RULES && DBT_RULES[k] == [] ==> k == NONZERO
  {
    NamesWellFormed();
    NonzeroEarly();
    NonzeroNotLate();
    NamesSplit();
    MergeLookup(R0 + R1 + R2 + R3, R4, NONZERO_NAME);
    MergeLookup(EARLY, LATE, NONZERO_NAME);
    QualifiedOnlyNonzeroEmpty(NAMES);
  }

  lemma QualifiedColumnNotTable(names: Catalog)
    requires ColumnNotTable(names)
    ensures forall k :: k in Qualify(names) && TABLE_PREFIX <= k ==> "column" !in Qualify(names)[k]
  {
    forall k | k in Qualify(names) && TABLE_PREFIX <= k ensures "column" !in Qualify(names)[k] {
      var n := k[|PREFIX|..];
      assert k == PREFIX + n;
      TablePrefixOfQualified(n);
    }
  }

  /** A template whose identifier starts with `dbt_expectations.expect_table_` never takes `column`. */
  lemma TableTemplatesTakeNoColumn()
    ensures forall k :: k in DBT_RULES && TABLE_PREFIX <= k ==> "column" !in DBT_RULES[k]
  {
    NamesWellFormed();
    QualifiedColumnNotTable(NAMES);
  }

  lemma MergeAssoc(a: Catalog, b: Catalog, c: Catalog)
    ensures a + b + c == a + (b + c)
  {}

  lemma MergeLookup(a: Catalog, b: Catalog, n: string)
    requires n in a || n in b
    ensures n in a + b
    ensures (a + b)[n] == if n in b then b[n] else a[n]
  {}

  /** A union keeps the entries of its left side whose keys the right side lacks. */
  lemma MergeKeepsLeft(whole: Catalog, a: Catalog, b: Catalog)
    requires whole == a + b && KeysApart(a, b)
    ensures forall n :: n in a ==> n in whole && whole[n] == a[n]
  {}

  lemma QualifiedIncluded(small: Catalog, large: Catalog)
    requires forall n :: n in small ==> n in large && large[n] == small[n]
    ensures forall k :: k in Qualify(small) ==> k in Qualify(large) && Qualify(large)[k] == Qualify(small)[k]
  {
    forall k | k in Qualify(small) ensures k in Qualify(large) && Qualify(large)[k] == Qualify(small)[k] {
      assert k == PREFIX + k[|PREFIX|..];
    }
  }

  lemma NamesSplit()
    ensures NAMES == EARLY + LATE
  {
    MergeAssoc(EARLY, R5, R6);
    MergeAssoc(EARLY, R5 + R6, R7);
    MergeAssoc(EARLY, R5 + R6 + R7, R8);
  }

  lemma LegacyIsEarly()
    ensures LEGACY_NAMES == EARLY
  {
    LegacyBlocks();
  }

  /** rules.py's later blocks override none of the entries it shares with expectations.py. */
  lemma EarlyKept()
    ensures forall n :: n in EARLY ==> n in NAMES && NAMES[n] == EARLY[n]
  {
    NamesSplit();
    EarlyApartFromLate();
    MergeKeepsLeft(NAMES, EARLY, LATE);
  }

  /** Every template of the older catalog is in rules.py with the identical parameter list. */
  lemma LegacyIncluded()
    ensures forall k :: k in LEGACY_RULES ==> k in DBT_RULES && DBT_RULES[k] == LEGACY_RULES[k]
  {
    LegacyIsEarly();
    EarlyKept();
    QualifiedIncluded(LEGACY_NAMES, NAMES);
  }

  lemma LowerTwinEarly()
    ensures LOWER_TWIN_NAME in R1 && R1[LOWER_TWIN_NAME] == ["column_A", "column_B", "or_equal"]
    ensures LOWER_TWIN_NAME !in R2 && LOWER_TWIN_NAME !in R3 && LOWER_TWIN_NAME !in R4
  {}

  lemma LowerTwinListed()
    ensures LOWER_TWIN_NAME in NAMES && NAMES[LOWER_TWIN_NAME] == ["column_A", "column_B", "or_equal"]
  {
    var n := LOWER_TWIN_NAME;
    LowerTwinEarly();
    MergeLookup(R0, R1, n);
    MergeLookup(R0 + R1, R2, n);
    MergeLookup(R0 + R1 + R2, R3, n);
    MergeLookup(R0 + R1 + R2 + R3, R4, n);
    EarlyKept();
  }

  lemma UpperTwinLate()
    ensures UPPER_TWIN_NAME in R7 && R7[UPPER_TWIN_NAME] == ["column_A", "column_B", "or_equal"]
    ensures UPPER_TWIN_NAME !in R8
  {}

  lemma UpperTwinListed()
    ensures UPPER_TWIN_NAME in NAMES && NAMES[UPPER_TWIN_NAME] == ["column_A", "column_B", "or_equal"]
  {
    var n := UPPER_TWIN_NAME;
    UpperTwinLate();
    MergeLookup(R5 + R6, R7, n);
    MergeLookup(R5 + R6 + R7, R8, n);
    NamesSplit();
    MergeLookup(EARLY, LATE, n);
  }

  lemma SameCaseSplit(h: string, m: string)
    ensures LowerAll(h + "a" + m + "b") == LowerAll(h + "A" + m + "B")
  {
    LowerAllAppend(h, "a");
    LowerAllAppend(h + "a", m);
    LowerAllAppend(h + "a" + m, "b");
    LowerAllAppend(h, "A");
    LowerAllAppend(h + "A", m);
    LowerAllAppend(h + "A" + m, "B");
  }

  const TWIN_HEAD: string := "expect_column_pair_values_"
  const TWIN_MIDDLE: string := "_to_be_greater_than_"

  lemma LowerTwinSpelling()
    ensures LOWER_TWIN_NAME == TWIN_HEAD + "a" + TWIN_MIDDLE + "b"
  {}

  lemma UpperTwinSpelling()
    ensures UPPER_TWIN_NAME == TWIN_HEAD + "A" + TWIN_MIDDLE + "B"
  {}

  lemma TwinPiecesDotFree()
    ensures '.' !in TWIN_HEAD && '.' !in TWIN_MIDDLE
  {}

  lemma DotFreeSplice(h: string, m: string, x: char, y: char)
    requires '.' !in h && '.' !in m && x != '.' && y != '.'
    ensures '.' !in h + [x] + m + [y]
  {}

  lemma TwinNames()
    ensures '.' !in LOWER_TWIN_NAME && '.' !in UPPER_TWIN_NAME
    ensures LowerAll(LOWER_TWIN_NAME) == LowerAll(UPPER_TWIN_NAME)
  {
    LowerTwinSpelling();
    UpperTwinSpelling();
    TwinPiecesDotFree();
    DotFreeSplice(TWIN_HEAD, TWIN_MIDDLE, 'a', 'b');
    DotFreeSplice(TWIN_HEAD, TWIN_MIDDLE, 'A', 'B');
    SameCaseSplit(TWIN_HEAD, TWIN_MIDDLE);
  }

  lemma TwinsSameCase()
    ensures LowerAll(PREFIX + LOWER_TWIN_NAME) == LowerAll(PREFIX + UPPER_TWIN_NAME)
  {
    TwinNames();
    LowerAllAppend(PREFIX, LOWER_TWIN_NAME);
    LowerAllAppend(PREFIX, UPPER_TWIN_NAME);
  }

  /** Two distinct identifiers that differ only in letter case, with the same parameters. */
  lemma CaseTwins()
    ensures PREFIX + LOWER_TWIN_NAME in DBT_RULES && PREFIX + UPPER_TWIN_NAME in DBT_RULES
    ensures PREFIX + LOWER_TWIN_NAME != PREFIX + UPPER_TWIN_NAME
    ensures LowerAll(PREFIX + LOWER_TWIN_NAME) == LowerAll(PREFIX + UPPER_TWIN_NAME)
    ensures DBT_RULES[PREFIX + LOWER_TWIN_NAME] == DBT_RULES[PREFIX + UPPER_TWIN_NAME]
              == ["column_A", "column_B", "or_equal"]
  {
    LowerTwinListed();
    UpperTwinListed();
    TwinsSameCase();
    PrefixCancels();
    assert LOWER_TWIN_NAME != UPPER_TWIN_NAME;
  }

  // ---------------------------------------------------------------------
  // Parameter names
  // ---------------------------------------------------------------------

  /** Every parameter name the catalog of rules.py uses (43 names). */
  const PARAMETER_NAMES: set<string> :=
    {"column", "type_list", "regex", "value_set", "min_value", "max_value", "strict_min",
     "strict_max", "value", "column_A", "column_B", "or_equal", "column_list", "date_column", "n",
     "datepart", "interval", "test_start_date", "test_end_date", "row_condition",
     "exclusion_condition", "other_table", "like_pattern", "unlike_pattern", "like_pattern_list",
     "unlike_pattern_list", "p", "threshold", "partition_object", "column_set", "date_format",
     "group_by_column", "aggregation_column", "other_column", "factor", "type", "regex_list",
     "quantile", "group_by", "date_column_name", "period", "lookback_periods", "trend_periods"}

  /** Every parameter of every entry is one of `names`. */
  ghost predicate ParametersAmong(c: Catalog, names: set<string>)
  {
    forall n, p :: n in c && p in c[n] ==> p in names
  }
  lemma ParametersNamed0() ensures ParametersAmong(R0, PARAMETER_NAMES) {}
  lemma ParametersNamed1() ensures ParametersAmong(R1, PARAMETER_NAMES) {}
  lemma ParametersNamed2() ensures ParametersAmong(R2, PARAMETER_NAMES) {}
  lemma ParametersNamed3() ensures ParametersAmong(R3, PARAMETER_NAMES) {}
  lemma ParametersNamed4() ensures ParametersAmong(R4, PARAMETER_NAMES) {}
  lemma ParametersNamed5() ensures ParametersAmong(R5, PARAMETER_NAMES) {}
  lemma ParametersNamed6() ensures ParametersAmong(R6, PARAMETER_NAMES) {}
  lemma ParametersNamed7() ensures ParametersAmong(R7, PARAMETER_NAMES) {}
  lemma ParametersNamed8() ensures ParametersAmong(R8, PARAMETER_NAMES) {}

  lemma UnionParametersAmong(a: Catalog, b: Catalog, names: set<string>)
    requires ParametersAmong(a, names) && ParametersAmong(b, names)
    ensures ParametersAmong(a + b, names)
  {}

  lemma QualifiedParametersAmong(c: Catalog, names: set<string>)
    requires ParametersAmong(c, names)
    ensures ParametersAmong(Qualify(c), names)
  {
    forall k, p | k in Qualify(c) && p in Qualify(c)[k] ensures p in names {
      assert k == PREFIX + k[|PREFIX|..];
    }
  }

  /** The parameter lists of rules.py draw on `PARAMETER_NAMES` only. */
  lemma AllParametersNamed()
    ensures ParametersAmong(DBT_RULES, PARAMETER_NAMES)
  {
    ParametersNamed0();
    ParametersNamed1();
    ParametersNamed2();
    ParametersNamed3();
    ParametersNamed4();
    ParametersNamed5();
    ParametersNamed6();
    ParametersNamed7();
    ParametersNamed8();
    UnionParametersAmong(R0, R1, PARAMETER_NAMES);
    UnionParametersAmong(R0 + R1, R2, PARAMETER_NAMES);
    UnionParametersAmong(R0 + R1 + R2, R3, PARAMETER_NAMES);
    UnionParametersAmong(R0 + R1 + R2 + R3, R4, PARAMETER_NAMES);
    UnionParametersAmong(R0 + R1 + R2 + R3 + R4, R5, PARAMETER_NAMES);
    UnionParametersAmong(R0 + R1 + R2 + R3 + R4 + R5, R6, PARAMETER_NAMES);
    UnionParametersAmong(R0 + R1 + R2 + R3 + R4 + R5 + R6, R7, PARAMETER_NAMES);
    UnionParametersAmong(R0 + R1 + R2 + R3 + R4 + R5 + R6 + R7, R8, PARAMETER_NAMES);
    QualifiedParametersAmong(NAMES, PARAMETER_NAMES);
  }

  // ---------------------------------------------------------------------
  // The older catalog, the one the page itself reads
  // ---------------------------------------------------------------------

  /** No template of expectations.py's own catalog names a parameter twice. */
  lemma LegacyNoRepeatedParameter()
    ensures forall k :: k in LEGACY_RULES ==> Distinct(LEGACY_RULES[k])
  {
    LegacyIncluded();
    NoRepeatedParameter();
  }

  /** The row-count test is listed, parameterless, and no other template is. */
  lemma LegacyParameterless()
    ensures NONZERO in LEGACY_RULES && LEGACY_RULES[NONZERO] == []
    ensures forall k :: k in LEGACY_RULES && LEGACY_RULES[k] == [] ==> k == NONZERO
  {
    LegacyIncluded();
    ExactlyOneParameterless();
    LegacyIsEarly();
    NonzeroEarly();
    MergeLookup(R0 + R1 + R2 + R3, R4, NONZERO_NAME);
    assert LEGACY_NAMES[NONZERO_NAME] == [];
  }

  /** Table-level templates of the older catalog take no `column` either. */
  lemma LegacyTableTemplatesTakeNoColumn()
    ensures forall k :: k in LEGACY_RULES && TABLE_PREFIX <= k ==> "column" !in LEGACY_RULES[k]
  {
    LegacyIncluded();
    TableTemplatesTakeNoColumn();
  }

  /** Every parameter of the older catalog is one of the known names. */
  lemma LegacyParametersNamed()
    ensures ParametersAmong(LEGACY_RULES, PARAMETER_NAMES)
  {
    LegacyIncluded();
    AllParametersNamed();
  }
}
