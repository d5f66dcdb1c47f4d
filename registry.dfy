/**
 * The rule registry: the list kept under `st.session_state["rules"]` across
 * reruns of the page. It is seeded once, grows by one record per "Add Rule"
 * click and shrinks by one per "Remove Rule" click.
 */
module Registry {
  import opened Values

  /** `{"rule": selected, **params}`: the parameters come second and win. */
  function RuleRecord(selected: string, params: map<string, Value>): (r: map<string, Value>)
    ensures r.Keys == params.Keys + {"rule"}
    ensures forall k :: k in params ==> r[k] == params[k]
    ensures "rule" !in params ==> r["rule"] == Str(selected)
  {
    map["rule" := Str(selected)] + params
  }

  /** Python's reading of a list index: negative indices count from the end. */
  function PythonIndex(idx: int, n: nat): (j: Option<nat>)
    ensures j.Some? <==> 0 <= idx + n && idx < n
    ensures j.Some? ==> j.value < n && (j.value == idx || j.value == idx + n)
  {
    if 0 <= idx < n then Some(idx)
    else if 0 <= idx + n && idx < 0 then Some(idx + n)
    else None
  }

  /** The list without its `j`-th element. */
  function RemoveAt(rs: seq<Value>, j: nat): (r: seq<Value>)
    requires j < |rs|
    ensures |r| == |rs| - 1
  {
    rs[..j] + rs[j + 1..]
  }

  /** Removing one element keeps the others, in order. */
  lemma RemoveAtKeepsOthers(rs: seq<Value>, j: nat)
    requires j < |rs|
    ensures forall i :: 0 <= i < j ==> RemoveAt(rs, j)[i] == rs[i]
    ensures forall i :: j <= i < |rs| - 1 ==> RemoveAt(rs, j)[i] == rs[i + 1]
    ensures multiset(RemoveAt(rs, j)) + multiset{rs[j]} == multiset(rs)
  {
    assert rs == rs[..j] + [rs[j]] + rs[j + 1..];
  }

  /** Popping the last element undoes an append. */
  lemma PopUndoesAdd(rs: seq<Value>, x: Value)
    ensures PythonIndex(-1, |rs + [x]|) == Some(|rs|)
    ensures RemoveAt(rs + [x], |rs|) == rs
  {
    assert (rs + [x])[..|rs|] == rs;
  }

  class Session {
    /** Whether `"rules"` is in `st.session_state` yet. */
    var present: bool
    /** `st.session_state["rules"]`, meaningful once `present`. */
    var rules: seq<Value>

    /** A fresh session: nothing stored. */
    constructor ()
      ensures !present && rules == []
    {
      present := false;
      rules := [];
    }

    /** expectations.py:121-122: store the initial list only if none is stored yet. */
    method Seed(initial: seq<Value>)
      modifies this
      ensures present
      ensures rules == if old(present) then old(rules) else initial
    {
      if !present {
        rules := initial;
        present := true;
      }
    }

    /** expectations.py:158-159: append one record at the end. */
    method Add(selected: string, params: map<string, Value>)
      requires present
      modifies this
      ensures present
      ensures rules == old(rules) + [Dict(RuleRecord(selected, params))]
    {
      rules := rules + [Dict(RuleRecord(selected, params))];
    }

    /** `rules.pop(idx)`: the removed record, or an IndexError. */
    method Pop(idx: int) returns (result: Result<Value>)
      requires present
      modifies this
      ensures present
      ensures PythonIndex(idx, |old(rules)|).None? ==> result.Err? && rules == old(rules)
      ensures PythonIndex(idx, |old(rules)|).Some? ==>
                var j := PythonIndex(idx, |old(rules)|).value;
                result == Ok(old(rules)[j]) && rules == RemoveAt(old(rules), j)
    {
      var j := PythonIndex(idx, |rules|);
      if j.None? {
        result := Err("IndexError");
      } else {
        result := Ok(rules[j.value]);
        rules := RemoveAt(rules, j.value);
      }
    }

    /**
     * expectations.py:163-166: walk the list with `enumerate`, popping the
     * entry whose "Remove" button was clicked. Streamlit reports at most one
     * click per run; the walk continues over the shortened list.
     */
    method RemoveClicked(clicked: int -> bool)
      requires present
      requires forall i, j :: clicked(i) && clicked(j) ==> i == j
      modifies this
      ensures present
      ensures forall c :: 0 <= c < |old(rules)| && clicked(c) ==> rules == RemoveAt(old(rules), c)
      ensures (forall c :: 0 <= c < |old(rules)| ==> !clicked(c)) ==> rules == old(rules)
    {
      var idx := 0;
      ghost var removed: Option<nat> := None;
      while idx < |rules|
        invariant present
        invariant removed.None? ==> rules == old(rules) && idx <= |rules|
        invariant removed.None? ==> forall c :: 0 <= c < idx ==> !clicked(c)
        invariant removed.Some? ==> removed.value < |old(rules)| && clicked(removed.value)
        invariant removed.Some? ==> rules == RemoveAt(old(rules), removed.value) && removed.value < idx
        decreases |rules| - idx
      {
        if clicked(idx) {
          var _ := Pop(idx);
          removed := Some(idx);
        }
        idx := idx + 1;
      }
    }
  }
}
