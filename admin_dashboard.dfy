/** The web admin dashboard: the counters over the station's incidents, the three
    task lists derived from the incidents' statuses (new, accepted with a severity
    filter, completed), removal after a report is marked false, the flagged list,
    and the progress step shown on an incident card. Requests to the server are
    left out; their outcomes are parameters. */
module AdminDashboard {
  import opened Wrappers
  import opened JsStrings
  import Sequences

  /** An incident as the dashboard reads it. A missing (`null`/`undefined`) status
      or severity is `None`. */
  datatype Incident = Incident(id: int, status: Option<string>, severity: Option<string>, flagged: bool)

  predicate IsResolved(x: Incident) {
    x.status == Some("Resolved")
  }

  /** `incident.status === "submitted"`. */
  predicate IsNew(x: Incident) {
    x.status == Some("submitted")
  }

  /** The accepted-list test for a filter value: under "All" every incident that
      is neither new nor resolved; otherwise also the severity must equal the
      lowercased filter. */
  predicate IsAccepted(filter: string, x: Incident) {
    if filter == "All" then !IsNew(x) && !IsResolved(x)
    else x.severity == Some(Lower(filter)) && !IsNew(x) && !IsResolved(x)
  }

  function AcceptedTest(filter: string): Incident -> bool {
    x => IsAccepted(filter, x)
  }

  /** `newTasks`. */
  function NewTasks(xs: seq<Incident>): seq<Incident> {
    Sequences.Filter(IsNew, xs)
  }

  /** `filternew`. */
  function Accepted(filter: string, xs: seq<Incident>): seq<Incident> {
    Sequences.Filter(AcceptedTest(filter), xs)
  }

  /** `completedId`. */
  function Completed(xs: seq<Incident>): seq<Incident> {
    Sequences.Filter(IsResolved, xs)
  }

  /** The `forEach` in the counting effect: every incident counts towards the
      total and towards exactly one of resolved and unresolved. */
  method CountIncidents(xs: seq<Incident>) returns (total: nat, resolved: nat, unresolved: nat)
    ensures total == |xs|
    ensures resolved == |Completed(xs)|
    ensures unresolved == total - resolved
  {
    total, resolved, unresolved := 0, 0, 0;
    var i := 0;
    while i < |xs|
      invariant 0 <= i <= |xs|
      invariant total == i
      invariant resolved == Sequences.Count(IsResolved, xs[..i])
      invariant resolved + unresolved == i
    {
      assert xs[..i + 1] == xs[..i] + [xs[i]];
      Sequences.CountSnoc(IsResolved, xs[..i], xs[i]);
      total := total + 1;
      if xs[i].status == Some("Resolved") {
        resolved := resolved + 1;
      } else {
        unresolved := unresolved + 1;
      }
      i := i + 1;
    }
    assert xs[..i] == xs;
  }

  /** New, accepted under "All" and completed split the incidents: each incident
      is in exactly one of the three lists, so their sizes add up to the total. */
  lemma BucketsPartition(xs: seq<Incident>)
    ensures multiset(NewTasks(xs)) + multiset(Accepted("All", xs)) + multiset(Completed(xs)) == multiset(xs)
    ensures |NewTasks(xs)| + |Accepted("All", xs)| + |Completed(xs)| == |xs|
  {
    Sequences.FilterPartition(IsNew, AcceptedTest("All"), IsResolved, xs);
  }

  /** The unresolved counter is the number of new and accepted incidents. */
  lemma UnresolvedIsNewPlusAccepted(xs: seq<Incident>)
    ensures |xs| - |Completed(xs)| == |NewTasks(xs)| + |Accepted("All", xs)|
  {
    BucketsPartition(xs);
  }

  /** A severity filter keeps a subsequence of what "All" keeps. */
  lemma SeverityFilterNarrows(filter: string, xs: seq<Incident>)
    ensures Sequences.IsSubsequence(Accepted(filter, xs), Accepted("All", xs))
  {
    Sequences.FilterWeakerTest(AcceptedTest(filter), AcceptedTest("All"), xs);
  }

  /** With the "High" filter exactly the accepted incidents of severity "high" are
      listed. */
  lemma HighFilter(x: Incident)
    ensures IsAccepted("High", x) <==> x.severity == Some("high") && IsAccepted("All", x)
  {
    assert Lower("High") == "high";
  }

  /** The list after a successful false report: every incident with that id goes,
      the others stay in order, each as often as before. */
  function RemoveId(xs: seq<Incident>, id: int): (r: seq<Incident>)
    ensures forall x | x in r :: x in xs && x.id != id
    ensures forall x | x in xs && x.id != id :: x in r
    ensures forall x :: multiset(r)[x] == if x.id != id then multiset(xs)[x] else 0
    ensures Sequences.IsSubsequence(r, xs)
  {
    Sequences.FilterIsSubsequence((x: Incident) => x.id != id, xs);
    Sequences.FilterMultiset((x: Incident) => x.id != id, xs);
    Sequences.Filter((x: Incident) => x.id != id, xs)
  }

  /** The progress step of an incident card: 2 for a status that lowercases to
      "resolved", 1 for "under investigation", 0 otherwise (also without a status). */
  function CardStep(status: Option<string>): (step: nat)
    ensures step <= 2
    ensures step == 2 <==> status.Some? && Lower(status.value) == "resolved"
    ensures step == 1 <==> status.Some? && Lower(status.value) == "under investigation"
  {
    if status.Some? && Lower(status.value) == "resolved" then 2
    else if status.Some? && Lower(status.value) == "under investigation" then 1
    else 0
  }

  /** The status the "accept" button sends, and the one "mark as completed" sends. */
  const AcceptStatus := "under investigation"
  const CompleteStatus := "Resolved"

  /** The lifecycle the two buttons drive: a new incident is at step 0 and in the
      new list; once accepted it is at step 1 and in the accepted list; once
      completed it is at step 2 and in the completed list. */
  lemma Lifecycle(x: Incident)
    ensures x.status == Some("submitted") ==> CardStep(x.status) == 0 && IsNew(x)
    ensures x.status == Some(AcceptStatus) ==> CardStep(x.status) == 1 && IsAccepted("All", x)
    ensures x.status == Some(CompleteStatus) ==> CardStep(x.status) == 2 && IsResolved(x)
  {
    LowerUnchanged("submitted");
    LowerUnchanged(AcceptStatus);
    var r := Lower(CompleteStatus);
    assert r[0] == 'r';
    assert r[1..] == CompleteStatus[1..] by { LowerUnchanged(CompleteStatus[1..]); assert r[1..] == Lower(CompleteStatus[1..]); }
    assert r == "resolved";
  }

  class Dashboard {
    var incidents: seq<Incident>
    var total: nat
    var resolved: nat
    var unresolved: nat
    var newTasks: seq<Incident>
    var filter: string
    var filterNew: seq<Incident>
    var completedId: seq<Incident>
    var flaggedIncidents: seq<Incident>

    /** The derived state agrees with `incidents` and `filter`, as the effects keep
        it after every change. */
    ghost predicate Valid()
      reads this
    {
      && total == |incidents|
      && resolved == |Completed(incidents)|
      && unresolved == total - resolved
      && newTasks == NewTasks(incidents)
      && filterNew == Accepted(filter, incidents)
      && completedId == Completed(incidents)
    }

    constructor()
      ensures Valid() && incidents == [] && filter == "All" && flaggedIncidents == []
    {
      incidents, filter, flaggedIncidents := [], "All", [];
      total, resolved, unresolved := 0, 0, 0;
      newTasks, filterNew, completedId := [], [], [];
    }

    /** The effects that run after `incidents` or `filter` change. */
    method Recompute()
      modifies this
      ensures Valid()
      ensures incidents == old(incidents) && filter == old(filter) && flaggedIncidents == old(flaggedIncidents)
    {
      total, resolved, unresolved := CountIncidents(incidents);
      newTasks := NewTasks(incidents);
      filterNew := Accepted(filter, incidents);
      completedId := Completed(incidents);
    }

    /** `getincidents`: `response` is the fetched list, `None` when the request
        fails or is not ok, which changes nothing. */
    method LoadIncidents(response: Option<seq<Incident>>)
      requires Valid()
      modifies this
      ensures Valid()
      ensures incidents == (if response.Some? then response.value else old(incidents))
      ensures filter == old(filter) && flaggedIncidents == old(flaggedIncidents)
    {
      if response.Some? {
        incidents := response.value;
        Recompute();
      }
    }

    /** `handlefilter`. */
    method SetFilter(f: string)
      requires Valid()
      modifies this
      ensures Valid()
      ensures filter == f && incidents == old(incidents) && flaggedIncidents == old(flaggedIncidents)
    {
      filter := f;
      Recompute();
    }

    /** `fetchFlaggedIncidents`: the incidents whose `true_or_false` is set. */
    method LoadFlagged(response: Option<seq<Incident>>)
      requires Valid()
      modifies this
      ensures Valid()
      ensures flaggedIncidents == (if response.Some? then Sequences.Filter((x: Incident) => x.flagged, response.value) else old(flaggedIncidents))
      ensures incidents == old(incidents) && filter == old(filter)
    {
      if response.Some? {
        flaggedIncidents := Sequences.Filter((x: Incident) => x.flagged, response.value);
      }
    }

    /** `handleFalseReport`: with an ok response every incident with the id is
        removed; the flagged list is not touched. */
    method HandleFalseReport(id: int, ok: bool)
      requires Valid()
      modifies this
      ensures Valid()
      ensures incidents == (if ok then RemoveId(old(incidents), id) else old(incidents))
      ensures filter == old(filter) && flaggedIncidents == old(flaggedIncidents)
    {
      if ok {
        incidents := RemoveId(incidents, id);
        Recompute();
      }
    }
  }
}
