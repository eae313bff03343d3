/** The certificates section: each certificate is "in progress" when its
    name says so, which decides its badge, and the statistics panel shows
    the total, the completed and the in-progress counts. */
module Certificates {
  import opened JsValues

  datatype Certificate = Certificate(
    name: string,
    issuer: string,
    date: string,
    credentialId: string,
    description: string)

  const InProgressMarker := "In Progress"

  /** `cert.name.includes('In Progress')`. */
  predicate IsInProgress(c: Certificate): (b: bool)
    ensures b ==> |InProgressMarker| <= |c.name|
    ensures c.name == InProgressMarker ==> b
  {
    assert c.name == InProgressMarker ==> OccursAt(c.name, InProgressMarker, 0);
    Contains(c.name, InProgressMarker)
  }

  /** The badge text: 'In Progress' under the same test, 'Certified'
      otherwise. */
  function BadgeLabel(c: Certificate): (badge: string)
    ensures badge == "In Progress" <==> IsInProgress(c)
    ensures badge == "Certified" <==> !IsInProgress(c)
  {
    if IsInProgress(c) then "In Progress" else "Certified"
  }

  /** `certificates.filter(c => !c.name.includes('In Progress'))`. */
  function Completed(certs: seq<Certificate>): (done: seq<Certificate>)
    ensures |done| <= |certs|
    ensures forall c | c in done :: c in certs && !IsInProgress(c)
    ensures forall c | c in certs && !IsInProgress(c) :: c in done
  {
    if certs == [] then []
    else if !IsInProgress(certs[0]) then [certs[0]] + Completed(certs[1..])
    else Completed(certs[1..])
  }

  /** `certificates.filter(c => c.name.includes('In Progress'))`. */
  function Pending(certs: seq<Certificate>): (pending: seq<Certificate>)
    ensures |pending| <= |certs|
    ensures forall c | c in pending :: c in certs && IsInProgress(c)
    ensures forall c | c in certs && IsInProgress(c) :: c in pending
  {
    if certs == [] then []
    else if IsInProgress(certs[0]) then [certs[0]] + Pending(certs[1..])
    else Pending(certs[1..])
  }

  /** The two filters split the list: every certificate lands in exactly
      one of them, as often as it occurs, so the completed and in-progress
      counts add up to the total. */
  lemma {:induction false} CountsPartitionTotal(certs: seq<Certificate>)
    ensures |Completed(certs)| + |Pending(certs)| == |certs|
    ensures multiset(Completed(certs)) + multiset(Pending(certs)) == multiset(certs)
  {
    if certs != [] {
      CountsPartitionTotal(certs[1..]);
      assert certs == [certs[0]] + certs[1..];
    }
  }

  /** The statistics panel. */
  datatype Stats = Stats(total: nat, completed: nat, inProgress: nat)

  /** The panel's three numbers: the list's length and the lengths of the
      two filtered lists, which add up to it. */
  function StatsOf(certs: seq<Certificate>): (s: Stats)
    ensures s.total == |certs|
    ensures s.completed + s.inProgress == s.total
    ensures s.completed == |Completed(certs)| && s.inProgress == |Pending(certs)|
  {
    CountsPartitionTotal(certs);
    Stats(|certs|, |Completed(certs)|, |Pending(certs)|)
  }

  /** The certificates the site ships. */
  const Shipped: seq<Certificate> := [
    Certificate("Certified Public Accountant (CPA) - In Progress", "American Institute of CPAs",
                "Expected 2024", "In Progress",
                "Currently pursuing CPA certification to enhance expertise in advanced accounting principles and practices."),
    Certificate("QuickBooks ProAdvisor Certification", "Intuit QuickBooks", "2023", "QB-2023-PRO-789",
                "Advanced certification in QuickBooks software implementation and training."),
    Certificate("Financial Modeling & Valuation", "Corporate Finance Institute (CFI)", "2022", "CFI-FM-456",
                "Comprehensive training in financial modeling, DCF analysis, and company valuation techniques."),
    Certificate("Advanced Excel for Finance", "Microsoft", "2022", "MS-EXL-123",
                "Advanced Excel techniques for financial analysis, pivot tables, and data visualization."),
    Certificate("Tax Preparation Professional", "National Tax Association", "2021", "NTA-TAX-321",
                "Certified in individual and corporate tax preparation and planning strategies.")
  ]

  /** Peeling one certificate off the front of the list adds it to
      exactly one of the two counts. */
  lemma StatsCons(c: Certificate, rest: seq<Certificate>)
    ensures StatsOf([c] + rest).total == StatsOf(rest).total + 1
    ensures StatsOf([c] + rest).completed == StatsOf(rest).completed + (if IsInProgress(c) then 0 else 1)
    ensures StatsOf([c] + rest).inProgress == StatsOf(rest).inProgress + (if IsInProgress(c) then 1 else 0)
  {
  }

  /** Only the first shipped certificate is in progress. */
  lemma ShippedInProgress()
    ensures IsInProgress(Shipped[0])
    ensures forall k | 1 <= k < |Shipped| :: !IsInProgress(Shipped[k])
  {
    FirstShippedInProgress();
    NotContainsWithoutHead(Shipped[1].name, InProgressMarker);
    NotContainsWithoutHead(Shipped[2].name, InProgressMarker);
    NotContainsWithoutHead(Shipped[3].name, InProgressMarker);
    NotContainsWithoutHead(Shipped[4].name, InProgressMarker);
  }

  /** The CPA entry carries the marker at index 36 of its name. */
  lemma FirstShippedInProgress()
    ensures IsInProgress(Shipped[0])
  {
    var first := Shipped[0].name;
    assert first[36..47] == InProgressMarker;
    assert OccursAt(first, InProgressMarker, 36);
  }

  /** With the shipped data the panel reads 5 in total, 4 completed and
      1 in progress. */
  lemma ShippedStats()
    ensures StatsOf(Shipped) == Stats(5, 4, 1)
  {
    ShippedInProgress();
    var s := Shipped;
    assert s == [s[0]] + ([s[1]] + ([s[2]] + ([s[3]] + ([s[4]] + []))));
    StatsCons(s[4], []);
    StatsCons(s[3], [s[4]]);
    StatsCons(s[2], [s[3], s[4]]);
    StatsCons(s[1], [s[2], s[3], s[4]]);
    StatsCons(s[0], [s[1], s[2], s[3], s[4]]);
  }
}
