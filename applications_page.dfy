/**
 * The applications page: `filterByStatus` and the counts on its five tabs.
 */
module ApplicationsPage {
  import Seqs
  import Schema

  /** Whether an application's status is named `status`. */
  predicate HasStatus(app: Schema.Application, status: string) {
    Schema.StatusName(app.info.status) == status
  }

  /** `filterByStatus(status)`: the whole list for "all", else the applications with that status. */
  function FilterByStatus(applications: seq<Schema.Application>, status: string): (r: seq<Schema.Application>)
    ensures status == "all" ==> r == applications
    ensures status != "all" ==> forall i :: 0 <= i < |r| ==> r[i] in applications && HasStatus(r[i], status)
    ensures status != "all" ==> forall i :: 0 <= i < |applications| && HasStatus(applications[i], status) ==> applications[i] in r
    ensures |r| <= |applications|
  {
    if status == "all" then applications
    else Seqs.Filter(applications, app => HasStatus(app, status))
  }

  /** Filtering keeps the list's order. */
  lemma FilterKeepsOrder(applications: seq<Schema.Application>, status: string)
    ensures Seqs.IsSubsequence(FilterByStatus(applications, status), applications)
  {
    if status == "all" {
      Seqs.FilterKeepsAll(applications, (app: Schema.Application) => true);
      Seqs.FilterIsSubsequence(applications, (app: Schema.Application) => true);
    } else {
      Seqs.FilterIsSubsequence(applications, app => HasStatus(app, status));
    }
  }

  /** No application can be "shortlisted": the status enum has no such value. */
  lemma ShortlistedIsAlwaysEmpty(applications: seq<Schema.Application>)
    ensures FilterByStatus(applications, "shortlisted") == []
  {
    forall i | 0 <= i < |applications| ensures !HasStatus(applications[i], "shortlisted") {
      Schema.StatusNamesAreEnum(applications[i].info.status, applications[i].info.status);
    }
    Seqs.FilterKeepsNone(applications, app => HasStatus(app, "shortlisted"));
  }

  /** The numbers shown on the tabs All, Pending, Shortlisted, Selected and Rejected. */
  datatype TabCounts = TabCounts(all: nat, pending: nat, shortlisted: nat, selected: nat, rejected: nat)

  function Tabs(applications: seq<Schema.Application>): (t: TabCounts)
    ensures t.all == |applications|
    ensures t.pending <= t.all && t.shortlisted <= t.all && t.selected <= t.all && t.rejected <= t.all
    ensures t.shortlisted == 0
  {
    ShortlistedIsAlwaysEmpty(applications);
    TabCounts(|applications|,
      |FilterByStatus(applications, "pending")|, |FilterByStatus(applications, "shortlisted")|,
      |FilterByStatus(applications, "selected")|, |FilterByStatus(applications, "rejected")|)
  }
}
