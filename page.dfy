/**
 * One run of the "Define Rules" tab (expectations.py:118-159): seed the
 * registry, look up the selected template's parameters, build the record
 * from the form and, when "Add Rule" is clicked, append it.
 */
module Page {
  import opened Values
  import Rules
  import Forms
  import Registry

  /**
   * No field of a built record is called `rule`: a parameter of that name
   * would get no input, and neither trailing field has it.
   */
  lemma RuleIsNotAField()
    ensures Forms.Classify("rule") == Forms.Skip
    ensures "rule" != Forms.ROW_CONDITION && "rule" != Forms.STRICTLY
  {}

  /**
   * The appended record names the selected template under `rule`, holds an
   * entry for every parameter the form handles plus `row_condition` and
   * `strictly`, and nothing else.
   */
  ghost predicate RecordOf(record: Value, selected: string, parameters: seq<string>,
                           headers: seq<string>, ans: Forms.Answers)
  {
    && record.Dict?
    && record.fields.Keys ==
         (set p | p in parameters && Forms.Classify(p) != Forms.Skip)
         + {Forms.ROW_CONDITION, Forms.STRICTLY, "rule"}
    && record.fields["rule"] == Str(selected)
    && record.fields[Forms.ROW_CONDITION] == Str(ans.rowCondition)
    && record.fields[Forms.STRICTLY] == Bool(ans.strictly)
    && forall p :: (p in parameters && Forms.Classify(p) != Forms.Skip &&
                   p != Forms.ROW_CONDITION && p != Forms.STRICTLY) ==>
           record.fields[p] == Forms.Entry(p, headers, ans)
  }

  /**
   * The rule list after a run, given the list it started from: unchanged
   * without a click on "Add Rule", one record longer with it.
   */
  ghost predicate RunOutcome(before: seq<Value>, after: seq<Value>, selected: string, parameters: seq<string>,
                             headers: seq<string>, ans: Forms.Answers, addClicked: bool)
  {
    && (!addClicked ==> after == before)
    && (addClicked ==>
          && |after| == |before| + 1
          && after[..|before|] == before
          && RecordOf(after[|before|], selected, parameters, headers, ans))
  }

  /**
   * The run for the template selected from `catalog` (expectations.py:125-127);
   * the page passes its own catalog, `Rules.LEGACY_RULES`.
   */
  method DefineRun(session: Registry.Session, initial: seq<Value>, catalog: Rules.Catalog, selected: string,
                   headers: seq<string>, ans: Forms.Answers, addClicked: bool)
    requires selected in catalog
    modifies session
    ensures session.present
    ensures RunOutcome(if old(session.present) then old(session.rules) else initial, session.rules,
                       selected, catalog[selected], headers, ans, addClicked)
  {
    var parameters := catalog[selected];
    Submit(session, initial, selected, parameters, headers, ans, addClicked);
  }

  /** Seed the registry, build the record from the form and append it when "Add Rule" is clicked. */
  method Submit(session: Registry.Session, initial: seq<Value>, selected: string, parameters: seq<string>,
                headers: seq<string>, ans: Forms.Answers, addClicked: bool)
    modifies session
    ensures session.present
    ensures RunOutcome(if old(session.present) then old(session.rules) else initial, session.rules,
                       selected, parameters, headers, ans, addClicked)
  {
    session.Seed(initial);
    var record := Forms.BuildRecord(parameters, headers, ans);
    if addClicked {
      RuleIsNotAField();
      assert "rule" !in record;
      ghost var before := session.rules;
      session.Add(selected, record);
      assert session.rules[..|before|] == before;
    }
  }
}
