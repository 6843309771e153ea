/** The dashboard's figures and its search box (app/dashboard/page.tsx). */
module DashboardPage {
  import opened Wrappers
  import opened Types
  import JsText

  /** The distinct patient names among the fetched prescriptions. */
  function PatientNames(docs: seq<Prescription>): set<string> {
    set k | 0 <= k < |docs| :: docs[k].patient.name
  }

  /** The `forEach` that adds every fetched prescription's patient name to a `Set`, then its size. */
  method CountUniquePatients(docs: seq<Prescription>) returns (count: nat)
    ensures count == |PatientNames(docs)|
  {
    var uniquePatients: set<string> := {};
    for i := 0 to |docs|
      invariant uniquePatients == PatientNames(docs[..i])
    {
      assert PatientNames(docs[..i + 1]) == PatientNames(docs[..i]) + {docs[i].patient.name} by {
        assert docs[..i + 1] == docs[..i] + [docs[i]];
      }
      uniquePatients := uniquePatients + {docs[i].patient.name};
    }
    assert docs[..|docs|] == docs;
    count := |uniquePatients|;
  }

  /** There are never more patients than prescriptions, and some patient whenever there is a prescription. */
  lemma {:induction false} PatientCountBounds(docs: seq<Prescription>)
    ensures |PatientNames(docs)| <= |docs|
    ensures docs != [] ==> |PatientNames(docs)| >= 1
  {
    if docs != [] {
      var last := |docs| - 1;
      PatientCountBounds(docs[..last]);
      assert PatientNames(docs) == PatientNames(docs[..last]) + {docs[last].patient.name} by {
        assert docs == docs[..last] + [docs[last]];
      }
      assert docs[last].patient.name in PatientNames(docs);
    }
  }

  /** Two prescriptions for the same name count once: the count is then below the number of prescriptions. */
  lemma SharedNameCountsOnce(docs: seq<Prescription>, i: nat, j: nat)
    requires i < j < |docs| && docs[i].patient.name == docs[j].patient.name
    ensures |PatientNames(docs)| < |docs|
  {
    var rest := docs[..j] + docs[j + 1..];
    assert PatientNames(docs) == PatientNames(rest) by {
      forall n | n in PatientNames(docs) ensures n in PatientNames(rest) {
        var k :| 0 <= k < |docs| && docs[k].patient.name == n;
        if k < j { assert rest[k] == docs[k]; }
        else if k == j { assert rest[i] == docs[i]; }
        else { assert rest[k - 1] == docs[k]; }
      }
      forall n | n in PatientNames(rest) ensures n in PatientNames(docs) {
        var k :| 0 <= k < |rest| && rest[k].patient.name == n;
        if k < j { assert rest[k] == docs[k]; } else { assert rest[k] == docs[k + 1]; }
      }
    }
    PatientCountBounds(rest);
  }

  /** What the "Last Activity" card shows: the first fetched prescription's date, or "No activity". */
  datatype LastActivity = LastCreated(date: string) | NoActivity

  /** The card's text for no activity. */
  const NO_ACTIVITY: string := "No activity"

  /** The card's text: the date to be formatted for display, or `NO_ACTIVITY`. */
  function LastActivityText(recent: seq<Prescription>): (text: string)
    ensures recent == [] ==> text == NO_ACTIVITY
    ensures recent != [] ==> text == recent[0].date
  {
    match LastActivityOf(recent)
    case LastCreated(date) => date
    case NoActivity => NO_ACTIVITY
  }

  function LastActivityOf(recent: seq<Prescription>): (r: LastActivity)
    ensures r.NoActivity? <==> recent == []
    ensures r.LastCreated? ==> r.date == recent[0].date
  {
    if |recent| > 0 then LastCreated(recent[0].date) else NoActivity
  }

  /**
   * `handleSearch`: the search page is opened for the query as typed (the text that is
   * URL-encoded into `/search?q=`), and only when the trimmed query is non-empty.
   */
  function SearchRequest(searchQuery: string): (r: Option<string>)
    ensures r.Some? <==> !JsText.IsBlank(searchQuery)
    ensures r.Some? ==> r.value == searchQuery
  {
    JsText.TrimEmptyIffBlank(searchQuery);
    if JsText.Trim(searchQuery) != [] then Some(searchQuery) else None
  }

  class Dashboard {
    var recentPrescriptions: seq<Prescription>
    var patientCount: nat
    var isLoading: bool
    var searchQuery: string

    /** The page opens loading, with no prescriptions, no patients and an empty search. */
    constructor ()
      ensures recentPrescriptions == [] && patientCount == 0 && isLoading && searchQuery == ""
    {
      recentPrescriptions := [];
      patientCount := 0;
      isLoading := true;
      searchQuery := "";
    }

    /**
     * `fetchDashboardData`, where `result` is what the query for the doctor's latest
     * five prescriptions returns: the list and the distinct-patient count are shown;
     * a failed query leaves both as they were. Loading always ends.
     */
    method FetchDashboardData(result: QueryResult)
      modifies this`recentPrescriptions, this`patientCount, this`isLoading
      ensures !isLoading
      ensures result.Docs? ==> recentPrescriptions == result.docs && patientCount == |PatientNames(result.docs)|
      ensures result.Docs? ==> TotalPrescriptions() == |result.docs| && patientCount <= TotalPrescriptions()
      ensures result.QueryFailed? ==>
        recentPrescriptions == old(recentPrescriptions) && patientCount == old(patientCount)
    {
      isLoading := true;
      if result.Docs? {
        recentPrescriptions := result.docs;
        var count := CountUniquePatients(result.docs);
        patientCount := count;
        PatientCountBounds(result.docs);
      }
      isLoading := false;
    }

    /** The search input. */
    method SetSearchQuery(value: string)
      modifies this`searchQuery
      ensures searchQuery == value
    {
      searchQuery := value;
    }

    /** The "Total Prescriptions" card: how many recent prescriptions were fetched. */
    function TotalPrescriptions(): (n: nat)
      reads this
      ensures n == |recentPrescriptions|
    {
      |recentPrescriptions|
    }
  }
}
