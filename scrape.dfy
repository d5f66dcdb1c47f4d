/**
 * The consistency check of scrape_and_check.py: of the `dbt_…` names found
 * in the dbt-expectations documentation, report those the catalog lacks.
 * Fetching and parsing the page is not modelled; the names come in as a list.
 */
module CatalogCheck {
  import Rules

  /** `[e for e in scraped if e.startswith("dbt_") and e not in catalog]`, in order. */
  function Unlisted(scraped: seq<string>, catalog: Rules.Catalog): (r: seq<string>)
    ensures forall x :: x in r ==> x in scraped && "dbt_" <= x && x !in catalog
    ensures forall x :: x in scraped && "dbt_" <= x && x !in catalog ==> x in r
    ensures |r| <= |scraped|
  {
    if scraped == [] then []
    else
      var e := scraped[0];
      var rest := Unlisted(scraped[1..], catalog);
      assert forall x :: x in scraped ==> x == e || x in scraped[1..];
      if "dbt_" <= e && e !in catalog then [e] + rest else rest
  }

  /** One scraped name is reported exactly when it is a `dbt_` name the catalog lacks. */
  lemma UnlistedSingle(e: string, catalog: Rules.Catalog)
    ensures Unlisted([e], catalog) == if "dbt_" <= e && e !in catalog then [e] else []
  {
    assert [e][1..] == [];
  }

  /**
   * Reporting a concatenation reports each part in turn: the names come out
   * in scrape order, each occurrence reported separately.
   */
  lemma {:induction false} UnlistedAppend(a: seq<string>, b: seq<string>, catalog: Rules.Catalog)
    ensures Unlisted(a + b, catalog) == Unlisted(a, catalog) + Unlisted(b, catalog)
    decreases |a|
  {
    if a == [] {
      assert a + b == b;
    } else {
      assert (a + b)[0] == a[0];
      assert (a + b)[1..] == a[1..] + b;
      UnlistedAppend(a[1..], b, catalog);
    }
  }

  /** The names reported by scrape_and_check.py:16-18. */
  function Report(scraped: seq<string>): seq<string>
  {
    Unlisted(scraped, Rules.DBT_RULES)
  }
}
