/**
 * The "Define Rules" form of expectations.py: how each parameter of the
 * selected template is classified into an input kind, how the answers are
 * gathered into a parameter record, how a comma-separated list is
 * normalised, and how a template identifier is shown to the user.
 */
module Forms {
  import opened Text
  import opened Values
  import Rules

  // ---------------------------------------------------------------------
  // Parameter classification (expectations.py:129-152)
  // ---------------------------------------------------------------------

  /** The `step` of a number input: 0.01 for `*_value`, 1 for counts. */
  datatype Step = Hundredth | Whole

  /** The input the form offers for one parameter name. */
  datatype Kind =
    | SingleColumn          // a selectbox over the uploaded file's headers
    | MultiColumn           // a multiselect over the headers
    | Numeric(step: Step)   // a number input
    | FreeText              // a one-line text input
    | DelimitedList         // a text area holding comma-separated values
    | DatePart              // a selectbox over day / month / year
    | Skip                  // no branch matches: the parameter gets no input

  const LIST_PARAMETERS: set<string> := {"value_set", "type_list", "like_pattern_list", "unlike_pattern_list"}
  const DATE_PARTS: seq<string> := ["day", "month", "year"]

  /**
   * The if/elif chain of the form, first match wins. The branch conditions
   * never overlap, so each kind is chosen for exactly the names listed in
   * the lemmas below, whatever the order of the branches.
   */
  function Classify(name: string): Kind
  {
    if name == "column" then SingleColumn
    else if name in ["column_A", "column_B"] then SingleColumn
    else if EndsWith(name, "_value") then Numeric(Hundredth)
    else if name == "regex" then FreeText
    else if name in LIST_PARAMETERS then DelimitedList
    else if name == "column_list" then MultiColumn
    else if name == "date_column" then SingleColumn
    else if name == "n" then Numeric(Whole)
    else if name == "datepart" then DatePart
    else if name == "interval" then Numeric(Whole)
    else Skip
  }

  /** The fifteen parameter names some branch of the chain handles. */
  const HANDLED: set<string> :=
    {"column", "column_A", "column_B", "date_column", "column_list", "regex", "n", "interval", "datepart",
     "min_value", "max_value", "value_set", "type_list", "like_pattern_list", "unlike_pattern_list"}

  lemma ClassifySingleColumn(name: string)
    ensures Classify(name) == SingleColumn <==> name in {"column", "column_A", "column_B", "date_column"}
  {}

  lemma ClassifyHundredth(name: string)
    ensures Classify(name) == Numeric(Hundredth) <==> EndsWith(name, "_value")
  {}

  lemma ClassifyWhole(name: string)
    ensures Classify(name) == Numeric(Whole) <==> name in {"n", "interval"}
  {}

  lemma ClassifyFreeText(name: string)
    ensures Classify(name) == FreeText <==> name == "regex"
  {}

  lemma ClassifyDelimitedList(name: string)
    ensures Classify(name) == DelimitedList <==> name in LIST_PARAMETERS
  {}

  lemma ClassifyMultiColumn(name: string)
    ensures Classify(name) == MultiColumn <==> name == "column_list"
  {}

  lemma ClassifyDatePart(name: string)
    ensures Classify(name) == DatePart <==> name == "datepart"
  {}

  /** A name is skipped exactly when no branch condition holds for it. */
  lemma SkippedIffUnmatched(name: string)
    ensures Classify(name) == Skip <==>
              name !in HANDLED && !EndsWith(name, "_value")
  {}

  // ---------------------------------------------------------------------
  // Comma-separated lists (expectations.py:139-141)
  // ---------------------------------------------------------------------

  /** `[v.strip() for v in pieces if v.strip()]` */
  function Clean(pieces: seq<string>): (r: seq<string>)
    ensures |r| <= |pieces|
    ensures forall j :: 0 <= j < |r| ==> r[j] != "" && IsStripped(r[j])
  {
    if pieces == [] then []
    else
      var v := Strip(pieces[0]);
      if v != "" then [v] + Clean(pieces[1..]) else Clean(pieces[1..])
  }

  /** Stripping and dropping pieces never introduces a character. */
  lemma {:induction false} CleanKeepsOut(pieces: seq<string>, c: char)
    requires forall i :: 0 <= i < |pieces| ==> c !in pieces[i]
    ensures forall j :: 0 <= j < |Clean(pieces)| ==> c !in Clean(pieces)[j]
  {
    if pieces != [] {
      StripKeepsOnly(pieces[0], c);
      CleanKeepsOut(pieces[1..], c);
    }
  }

  /** One piece is kept, stripped, exactly when something is left after stripping. */
  lemma CleanSingle(x: string)
    ensures Clean([x]) == if Strip(x) != "" then [Strip(x)] else []
  {
    assert [x][1..] == [];
  }

  /**
   * Cleaning a concatenation cleans each part in turn: every non-blank piece
   * is kept, in the order of the input, and nothing else is added.
   */
  lemma {:induction false} CleanAppend(a: seq<string>, b: seq<string>)
    ensures Clean(a + b) == Clean(a) + Clean(b)
    decreases |a|
  {
    if a == [] {
      assert a + b == b;
    } else {
      assert (a + b)[0] == a[0];
      assert (a + b)[1..] == a[1..] + b;
      CleanAppend(a[1..], b);
    }
  }

  /** An element of a normalised list: non-empty, stripped and free of commas. */
  predicate ListItem(x: string)
  {
    x != "" && IsStripped(x) && ',' !in x
  }

  /** The values typed into a comma-separated text area, as the form keeps them. */
  function NormaliseList(text: string): (r: seq<string>)
    ensures forall j :: 0 <= j < |r| ==> ListItem(r[j])
  {
    CleanKeepsOut(Split(text, ','), ',');
    Clean(Split(text, ','))
  }

  /**
   * Any text is its comma-free pieces joined with commas; the normalised
   * list is those pieces cleaned, so with `CleanSingle` and `CleanAppend` it
   * holds every non-blank piece, stripped, in the order of the text.
   */
  lemma NormaliseListOfPieces(pieces: seq<string>)
    requires |pieces| >= 1
    requires forall i :: 0 <= i < |pieces| ==> ',' !in pieces[i]
    ensures NormaliseList(Join(pieces, ",")) == Clean(pieces)
  {
    SplitJoin(pieces, ',');
  }

  /** `pad + x` for every element. */
  function PadAll(xs: seq<string>, pad: string): (r: seq<string>)
    ensures |r| == |xs|
  {
    if xs == [] then [] else [pad + xs[0]] + PadAll(xs[1..], pad)
  }

  lemma {:induction false} JoinPadAll(ys: seq<string>, pad: string)
    requires |ys| >= 1
    ensures Join(PadAll(ys, pad), ",") == pad + Join(ys, "," + pad)
    decreases |ys|
  {
    if |ys| > 1 {
      JoinPadAll(ys[1..], pad);
      assert PadAll(ys, pad)[1..] == PadAll(ys[1..], pad);
    }
  }

  lemma {:induction false} CleanPadAll(xs: seq<string>, pad: string)
    requires AllSpace(pad)
    requires forall i :: 0 <= i < |xs| ==> ListItem(xs[i])
    ensures Clean(PadAll(xs, pad)) == xs
    decreases |xs|
  {
    if xs != [] {
      StripPadded(pad, xs[0]);
      assert PadAll(xs, pad)[1..] == PadAll(xs[1..], pad);
      CleanPadAll(xs[1..], pad);
    }
  }

  lemma PadAllNoComma(xs: seq<string>, pad: string)
    requires ',' !in pad
    requires forall i :: 0 <= i < |xs| ==> ListItem(xs[i])
    ensures forall i :: 0 <= i < |PadAll(xs, pad)| ==> ',' !in PadAll(xs, pad)[i]
  {
    if xs != [] {
      PadAllNoComma(xs[1..], pad);
      assert forall i :: 1 <= i < |xs| ==> PadAll(xs, pad)[i] == PadAll(xs[1..], pad)[i - 1];
    }
  }

  lemma JoinFirstUnpadded(items: seq<string>, pad: string)
    requires |items| >= 1
    ensures Join([items[0]] + PadAll(items[1..], pad), ",") == Join(items, "," + pad)
  {
    var x, rest := items[0], items[1..];
    var tail := PadAll(rest, pad);
    if |items| > 1 {
      JoinCons(x, tail, ",");
      JoinPadAll(rest, pad);
      JoinHead(items, "," + pad);
      ConcatRegroup(x, ",", pad, Join(rest, "," + pad));
    }
  }

  lemma CleanKeepsStripped(x: string, rest: seq<string>)
    requires x != "" && Strip(x) == x
    ensures Clean([x] + rest) == [x] + Clean(rest)
  {
    assert ([x] + rest)[1..] == rest;
  }

  lemma CleanFirstUnpadded(items: seq<string>, pad: string)
    requires |items| >= 1 && AllSpace(pad)
    requires forall i :: 0 <= i < |items| ==> ListItem(items[i])
    ensures Clean([items[0]] + PadAll(items[1..], pad)) == items
  {
    var x, rest := items[0], items[1..];
    StripStripped(x);
    CleanKeepsStripped(x, PadAll(rest, pad));
    CleanPadAll(rest, pad);
    assert items == [x] + rest;
  }

  /**
   * Normalisation gives back, in order, any list of items written with
   * commas and optional blanks after them (`"a, b, c"`, `"a,b,c"`).
   */
  lemma {:induction false} NormaliseJoined(items: seq<string>, pad: string)
    requires AllSpace(pad) && ',' !in pad
    requires forall i :: 0 <= i < |items| ==> ListItem(items[i])
    ensures NormaliseList(Join(items, "," + pad)) == items
  {
    if items == [] {
      assert Split("", ',') == [""];
      assert Strip("") == "";
    } else {
      var tail := PadAll(items[1..], pad);
      var pieces := [items[0]] + tail;
      JoinFirstUnpadded(items, pad);
      PadAllNoComma(items[1..], pad);
      assert forall i :: 1 <= i < |pieces| ==> pieces[i] == tail[i - 1];
      SplitJoin(pieces, ',');
      CleanFirstUnpadded(items, pad);
    }
  }

  // ---------------------------------------------------------------------
  // Building the parameter record (expectations.py:128-155)
  // ---------------------------------------------------------------------

  /** The form widget shown for a parameter. */
  datatype Widget =
    | SelectBox(options: seq<string>)
    | MultiSelect(options: seq<string>)
    | NumberInput(step: Step)
    | TextInput
    | TextArea

  /**
   * What the person filling in the form entered. `widget(p, w)` is the value
   * widget `w` returns for parameter `p`; `text(p)` is what they typed into
   * the comma-separated text area for `p`.
   */
  datatype Answers = Answers(
    widget: (string, Widget) -> Value,
    text: string -> string,
    rowCondition: string,
    strictly: bool)

  const ROW_CONDITION: string := "row_condition"
  const STRICTLY: string := "strictly"

  /** The widget the form shows for a parameter of the given kind. */
  function WidgetFor(k: Kind, headers: seq<string>): (w: Widget)
    requires k != Skip
    ensures w.SelectBox? <==> k == SingleColumn || k == DatePart
    ensures w.MultiSelect? <==> k == MultiColumn
    ensures w.SelectBox? || w.MultiSelect? ==> w.options == (if k == DatePart then DATE_PARTS else headers)
    ensures w.NumberInput? <==> k.Numeric?
    ensures k.Numeric? ==> w == NumberInput(k.step)
    ensures w == TextInput <==> k == FreeText
    ensures w == TextArea <==> k == DelimitedList
  {
    match k
    case SingleColumn => SelectBox(headers)
    case MultiColumn => MultiSelect(headers)
    case Numeric(step) => NumberInput(step)
    case FreeText => TextInput
    case DelimitedList => TextArea
    case DatePart => SelectBox(DATE_PARTS)
  }

  /** The value recorded for a parameter that some branch handles. */
  function Entry(p: string, headers: seq<string>, ans: Answers): Value
    requires Classify(p) != Skip
  {
    if Classify(p) == DelimitedList then Strings(NormaliseList(ans.text(p)))
    else ans.widget(p, WidgetFor(Classify(p), headers))
  }

  /**
   * The body of the loop over the selected template's parameters: the
   * if/elif chain that shows a widget for the parameter and reads its
   * answer, or does nothing for a name no branch matches.
   */
  method FieldFor(param: string, headers: seq<string>, ans: Answers) returns (field: Option<Value>)
    ensures field.None? <==> Classify(param) == Skip
    ensures field.Some? ==> field.value == Entry(param, headers, ans)
  {
    if param == "column" {
      field := Some(ans.widget(param, SelectBox(headers)));
    } else if param in ["column_A", "column_B"] {
      field := Some(ans.widget(param, SelectBox(headers)));
    } else if EndsWith(param, "_value") {
      field := Some(ans.widget(param, NumberInput(Hundredth)));
    } else if param == "regex" {
      field := Some(ans.widget(param, TextInput));
    } else if param in LIST_PARAMETERS {
      var valueSet := ans.text(param);
      field := Some(Strings(NormaliseList(valueSet)));
    } else if param == "column_list" {
      var columnList := ans.widget(param, MultiSelect(headers));
      field := Some(columnList);
    } else if param == "date_column" {
      field := Some(ans.widget(param, SelectBox(headers)));
    } else if param == "n" {
      field := Some(ans.widget(param, NumberInput(Whole)));
    } else if param == "datepart" {
      field := Some(ans.widget(param, SelectBox(DATE_PARTS)));
    } else if param == "interval" {
      field := Some(ans.widget(param, NumberInput(Whole)));
    } else {
      field := None;
    }
  }

  /** The names among `ps` that some branch handles. */
  ghost function HandledAmong(ps: seq<string>): set<string>
  {
    set p | p in ps && Classify(p) != Skip
  }

  lemma HandledAmongSnoc(ps: seq<string>, x: string)
    ensures HandledAmong(ps + [x]) == HandledAmong(ps) + (if Classify(x) != Skip then {x} else {})
  {}

  /**
   * The loop over the selected template's parameters, followed by the two
   * fields every rule carries. Unhandled names add nothing; `row_condition`
   * and `strictly` are written last and so win over same-named parameters.
   */
  method BuildRecord(params: seq<string>, headers: seq<string>, ans: Answers)
    returns (record: map<string, Value>)
    ensures record.Keys == (set p | p in params && Classify(p) != Skip) + {ROW_CONDITION, STRICTLY}
    ensures forall p :: p in params && Classify(p) != Skip && p != ROW_CONDITION && p != STRICTLY ==>
              record[p] == Entry(p, headers, ans)
    ensures record[ROW_CONDITION] == Str(ans.rowCondition)
    ensures record[STRICTLY] == Bool(ans.strictly)
  {
    record := map[];
    for i := 0 to |params|
      invariant record.Keys == HandledAmong(params[..i])
      invariant forall p :: p in record ==> Classify(p) != Skip && record[p] == Entry(p, headers, ans)
    {
      var param := params[i];
      assert params[..i + 1] == params[..i] + [param];
      HandledAmongSnoc(params[..i], param);
      var field := FieldFor(param, headers, ans);
      if field.Some? {
        record := record[param := field.value];
      }
    }
    assert params[..|params|] == params;
    record := record[ROW_CONDITION := Str(ans.rowCondition)];
    record := record[STRICTLY := Bool(ans.strictly)];
  }

  // ---------------------------------------------------------------------
  // Which catalog parameters get no input (test_completeness.py:4-9)
  // ---------------------------------------------------------------------

  /** The 28 catalog parameter names that no branch of the chain handles. */
  const UNHANDLED: set<string> :=
    {"strict_min", "strict_max", "value", "or_equal", "test_start_date", "test_end_date",
     "row_condition", "exclusion_condition", "other_table", "like_pattern", "unlike_pattern", "p",
     "threshold", "partition_object", "column_set", "date_format", "group_by_column",
     "aggregation_column", "other_column", "factor", "type", "regex_list", "quantile", "group_by",
     "date_column_name", "period", "lookback_periods", "trend_periods"}

  lemma HandledNamesClassified()
    ensures forall p :: p in HANDLED ==> Classify(p) != Skip
  {
    forall p | p in HANDLED ensures Classify(p) != Skip {
      SkippedIffUnmatched(p);
    }
  }

  lemma UnhandledNotHandled()
    ensures forall p :: p in UNHANDLED ==> p !in HANDLED
  {}

  lemma UnhandledNotNumeric()
    ensures forall p :: p in UNHANDLED ==> !EndsWith(p, "_value")
  {}

  lemma UnhandledNamesSkipped()
    ensures forall p :: p in UNHANDLED ==> Classify(p) == Skip
  {
    UnhandledNotHandled();
    UnhandledNotNumeric();
    forall p | p in UNHANDLED ensures Classify(p) == Skip {
      SkippedIffUnmatched(p);
    }
  }

  lemma CatalogNamesSplit()
    ensures Rules.PARAMETER_NAMES == HANDLED + UNHANDLED
  {}

  lemma CoverageOf(c: Rules.Catalog)
    requires Rules.ParametersAmong(c, HANDLED + UNHANDLED)
    ensures forall k, p :: k in c && p in c[k] ==> (Classify(p) == Skip <==> p in UNHANDLED)
  {
    HandledNamesClassified();
    UnhandledNamesSkipped();
    UnhandledNotHandled();
  }

  /**
   * Over the whole catalog of rules.py, a parameter gets no input exactly
   * when it is one of the 28 names of `UNHANDLED`.
   */
  lemma CatalogCoverage()
    ensures forall k, p :: k in Rules.DBT_RULES && p in Rules.DBT_RULES[k] ==>
              (Classify(p) == Skip <==> p in UNHANDLED)
  {
    Rules.AllParametersNamed();
    CatalogNamesSplit();
    CoverageOf(Rules.DBT_RULES);
  }

  /** The same split for the older catalog the page offers. */
  lemma LegacyCoverage()
    ensures forall k, p :: k in Rules.LEGACY_RULES && p in Rules.LEGACY_RULES[k] ==>
              (Classify(p) == Skip <==> p in UNHANDLED)
  {
    Rules.LegacyParametersNamed();
    CatalogNamesSplit();
    CoverageOf(Rules.LEGACY_RULES);
  }

  // ---------------------------------------------------------------------
  // Display names (expectations.py:88-93)
  // ---------------------------------------------------------------------

  /**
   * The pattern of the third `replace`: in a Python string literal `\.` is
   * not an escape, so the pattern keeps its backslash.
   */
  const ESCAPED_PREFIX: string := "dbt_expectations\\."

  /** `c` after `replace('_', ' ')`. */
  function Spaced(c: char): char
  {
    if c == '_' then ' ' else c
  }

  /** `format_rule_nicely`: drop the prefix, underscores to blanks, capitalise. */
  function FormatRuleNicely(option: string): (r: string)
    ensures '_' !in r
  {
    var x := Replace(option, Rules.PREFIX, "");
    var y := Replace(x, "_", " ");
    var z := Replace(y, ESCAPED_PREFIX, "");
    ThirdReplaceInert(option);
    ReplaceChar(x, '_', ' ');
    assert forall i :: 0 <= i < |z| ==> z[i] != '_';
    assert forall i :: 0 <= i < |z| ==> ToLower(z[i]) != '_' && ToUpper(z[i]) != '_';
    Capitalize(z)
  }

  /** The third `replace` never finds its pattern: no underscore is left to match. */
  lemma ThirdReplaceInert(option: string)
    ensures var y := Replace(Replace(option, Rules.PREFIX, ""), "_", " ");
            Replace(y, ESCAPED_PREFIX, "") == y
  {
    var x := Replace(option, Rules.PREFIX, "");
    var y := Replace(x, "_", " ");
    ReplaceChar(x, '_', ' ');
    assert '_' !in y by {
      forall i | 0 <= i < |y| ensures y[i] != '_' {}
    }
    assert ESCAPED_PREFIX[3] == '_';
    MissingCharNoOccurrence(y, ESCAPED_PREFIX, '_');
    ReplaceAbsent(y, ESCAPED_PREFIX, "");
  }

  /**
   * The display name, character by character: whatever is left after every
   * `dbt_expectations.` is removed, with blanks for underscores, the first
   * character upper-cased and the others lower-cased.
   */
  lemma DisplayShape(option: string)
    ensures var x := Replace(option, Rules.PREFIX, "");
            var r := FormatRuleNicely(option);
            && |r| == |x|
            && (|x| > 0 ==> r[0] == ToUpper(Spaced(x[0])))
            && (forall i :: 0 < i < |x| ==> r[i] == ToLower(Spaced(x[i])))
  {
    var x := Replace(option, Rules.PREFIX, "");
    ThirdReplaceInert(option);
    ReplaceChar(x, '_', ' ');
  }

  /** For a catalog identifier the prefix goes and the rest is shown as it is spelt. */
  lemma DisplayOfIdentifier(name: string)
    requires '.' !in name
    ensures var r := FormatRuleNicely(Rules.PREFIX + name);
            && |r| == |name|
            && (|name| > 0 ==> r[0] == ToUpper(Spaced(name[0])))
            && (forall i :: 0 < i < |name| ==> r[i] == ToLower(Spaced(name[i])))
  {
    assert Rules.PREFIX[16] == '.';
    MissingCharNoOccurrence(name, Rules.PREFIX, '.');
    ReplaceLeading(Rules.PREFIX, name, "");
    ReplaceAbsent(name, Rules.PREFIX, "");
    assert "" + name == name;
    DisplayShape(Rules.PREFIX + name);
  }

  lemma ToUpperIgnoresCase(c: char)
    ensures ToUpper(Spaced(c)) == ToUpper(Spaced(ToLower(c)))
    ensures ToLower(Spaced(c)) == ToLower(Spaced(ToLower(c)))
  {}

  /** Identifiers that differ only in letter case are shown alike. */
  lemma {:induction false} DisplayIgnoresCase(a: string, b: string)
    requires '.' !in a && '.' !in b
    requires LowerAll(a) == LowerAll(b)
    ensures FormatRuleNicely(Rules.PREFIX + a) == FormatRuleNicely(Rules.PREFIX + b)
  {
    DisplayOfIdentifier(a);
    DisplayOfIdentifier(b);
    var ra, rb := FormatRuleNicely(Rules.PREFIX + a), FormatRuleNicely(Rules.PREFIX + b);
    forall i | 0 <= i < |a| ensures ra[i] == rb[i] {
      assert LowerAll(a)[i] == LowerAll(b)[i];
      ToUpperIgnoresCase(a[i]);
      ToUpperIgnoresCase(b[i]);
    }
  }

  /**
   * The two case-twin templates of rules.py would get the same display name if
   * both were offered; the page's own catalog lists only the lower-case one.
   */
  lemma CaseTwinsDisplayAlike()
    ensures FormatRuleNicely(Rules.PREFIX + Rules.LOWER_TWIN_NAME) ==
            FormatRuleNicely(Rules.PREFIX + Rules.UPPER_TWIN_NAME)
  {
    Rules.TwinNames();
    DisplayIgnoresCase(Rules.LOWER_TWIN_NAME, Rules.UPPER_TWIN_NAME);
  }
}
